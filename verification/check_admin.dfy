/** The primary-admin check of src/app/api/check-admin/route.ts: the
    `PRIMARY_ADMINS` environment value is split on commas, and a request is
    authorized exactly when its email is one of the pieces. */
module CheckAdmin {
  import opened Base
  import opened Strings

  /** `process.env.PRIMARY_ADMINS?.split(',') || []`. */
  function PrimaryAdmins(env: Option<string>): (r: seq<string>)
    ensures env.None? <==> r == []
    ensures forall i :: 0 <= i < |r| ==> ',' !in r[i]
    ensures env.Some? ==> Join(r, ',') == env.value
  {
    match env
    case None => []
    case Some(s) => JoinSplit(s, ','); Split(s, ',')
  }

  /** The request body as `await req.json()` and the destructuring see it:
      a body that is not JSON, or is JSON `null`, makes them throw; otherwise
      `email` is the body's `email` when it is a string, and absent when the
      field is missing or of another type (no entry can equal it then). */
  datatype Body = Malformed | JsonBody(email: Option<string>)

  /** The route's answer: the JSON reply with its HTTP status, or an
      exception the handler does not catch, which the framework answers with
      a server error. */
  datatype Reply = Reply(authorized: bool, status: int) | Unhandled

  /** `POST`. */
  function Post(admins: seq<string>, body: Body): (r: Reply)
    ensures r.Unhandled? <==> body.Malformed?
    ensures r.Reply? ==> (r.authorized <==> body.email.Some? && body.email.value in admins)
    ensures r.Reply? ==> r.status == (if r.authorized then 200 else 403)
  {
    match body
    case Malformed => Unhandled
    case JsonBody(email) =>
      if email.Some? && email.value in admins then Reply(true, 200)
      else Reply(false, 403)
  }

  /** With `PRIMARY_ADMINS` unset nobody is authorized: every well-formed
      request gets 403. */
  lemma UnsetAuthorizesNobody(body: Body)
    ensures body.JsonBody? ==> Post(PrimaryAdmins(None), body) == Reply(false, 403)
    ensures body.Malformed? ==> Post(PrimaryAdmins(None), body) == Unhandled
  {
  }

  /** With `PRIMARY_ADMINS` set to the empty string the list is `[""]`, so
      the empty email is authorized. */
  lemma EmptySettingAuthorizesEmptyEmail()
    ensures PrimaryAdmins(Some("")) == [""]
    ensures Post(PrimaryAdmins(Some("")), JsonBody(Some(""))) == Reply(true, 200)
  {
  }

  /** An email containing a comma is never authorized, whatever the setting. */
  lemma CommaEmailNeverAuthorized(env: Option<string>, email: string)
    requires ',' in email
    ensures Post(PrimaryAdmins(env), JsonBody(Some(email))) == Reply(false, 403)
  {
  }

  /** Pieces are compared exactly: a space after a comma is part of the next
      address, so `"a@x, b@x"` authorizes `" b@x"` and not `"b@x"`. */
  lemma {:induction false} EntriesAreNotTrimmed()
    ensures PrimaryAdmins(Some("a@x, b@x")) == ["a@x", " b@x"]
    ensures Post(PrimaryAdmins(Some("a@x, b@x")), JsonBody(Some("b@x"))) == Reply(false, 403)
    ensures Post(PrimaryAdmins(Some("a@x, b@x")), JsonBody(Some(" b@x"))) == Reply(true, 200)
  {
    var s := "a@x, b@x";
    assert s == "a@x" + [','] + " b@x";
    SplitNoSeparator(" b@x", ',');
    SplitFirstSeparator("a@x", " b@x", ',');
    assert "b@x" != "a@x";
    assert "b@x" != " b@x";
  }

  /** A string without the separator splits into itself. */
  lemma {:induction false} SplitNoSeparator(s: string, sep: char)
    requires sep !in s
    ensures Split(s, sep) == [s]
    decreases |s|
  {
    if |s| > 0 {
      SplitNoSeparator(s[1..], sep);
      assert [s[0]] + s[1..] == s;
    }
  }

  /** Splitting at the first separator: the part before it is the first piece. */
  lemma {:induction false} SplitFirstSeparator(a: string, b: string, sep: char)
    requires sep !in a
    ensures Split(a + [sep] + b, sep) == [a] + Split(b, sep)
    decreases |a|
  {
    var s := a + [sep] + b;
    if |a| == 0 {
      assert s[1..] == b;
    } else {
      assert s[1..] == a[1..] + [sep] + b;
      SplitFirstSeparator(a[1..], b, sep);
      assert [a[0]] + a[1..] == a;
    }
  }
}
