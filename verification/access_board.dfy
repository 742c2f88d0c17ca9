/** The admin access board (src/app/admin/access-board/page.tsx): register a
    new admin as `pending`, accept pending admins, and demote admins to
    clients; which buttons show for a record is a function of the record. */
module AccessBoard {
  import opened Base
  import opened Lists

  datatype AdminUser = AdminUser(id: string, email: string, username: string, role: string, status: string)

  /** The signed-in user of the session. */
  datatype User = User(id: string, role: Option<string>)

  datatype SignUpForm = SignUpForm(email: string, password: string, username: string)

  const EmptyForm: SignUpForm := SignUpForm("", "", "")

  /** A row update: the fields it sets, the others are left alone. */
  datatype Patch = Patch(role: Option<string>, status: Option<string>)

  function Apply(p: Patch, u: AdminUser): (r: AdminUser)
    ensures r.id == u.id && r.email == u.email && r.username == u.username
  {
    u.(role := if p.role.Some? then p.role.value else u.role,
       status := if p.status.Some? then p.status.value else u.status)
  }

  /** `acceptAdmin`'s update. */
  const AcceptPatch: Patch := Patch(None, Some("accepted"))

  /** `removeAdmin`'s update. */
  const RemovePatch: Patch := Patch(Some("client"), Some("accepted"))

  /** The list query's filter `.in('role', ['admin', 'host_admin'])`. */
  predicate IsListedAdmin(u: AdminUser)
  {
    u.role in ["admin", "host_admin"]
  }

  /** The rows the list query returns from a `users` table. */
  function ListedAdmins(table: seq<AdminUser>): (r: seq<AdminUser>)
    ensures forall i :: 0 <= i < |r| ==> IsListedAdmin(r[i])
  {
    Filter(table, IsListedAdmin)
  }

  /** The remote calls of the board. */
  datatype Call =
    | AuthSignUp(email: string, password: string, username: string, role: string, status: string)
    | UpdateUser(id: string, patch: Patch)
    | SelectAdmins

  /** The Register button is enabled only when not loading and all three
      fields are filled. */
  predicate RegisterEnabled(loading: bool, form: SignUpForm)
  {
    !(loading || form.email == "" || form.password == "" || form.username == "")
  }

  /** Accept is offered for pending records. */
  predicate ShowAccept(u: AdminUser)
  {
    u.status == "pending"
  }

  /** Remove is offered for every record that is not a `host_admin`. */
  predicate ShowRemove(u: AdminUser)
  {
    u.role != "host_admin"
  }

  /** A `host_admin` record shows the Protected label, and it is the only
      kind that does: each record shows exactly one of Remove and Protected. */
  predicate ShowProtected(u: AdminUser)
    ensures ShowProtected(u) <==> !ShowRemove(u)
  {
    u.role == "host_admin"
  }

  /** The `users` table after `.update(p).eq('id', id)`: the patch reaches
      the rows with that id and no other row. */
  function UpdateWhere(table: seq<AdminUser>, id: string, p: Patch): (r: seq<AdminUser>)
    ensures |r| == |table|
    ensures forall i :: 0 <= i < |r| ==>
      r[i] == (if table[i].id == id then Apply(p, table[i]) else table[i])
  {
    seq(|table|, i requires 0 <= i < |table| =>
      if table[i].id == id then Apply(p, table[i]) else table[i])
  }

  /** The update acts row by row, so it distributes over concatenation. */
  lemma UpdateWhereConcat(a: seq<AdminUser>, b: seq<AdminUser>, id: string, p: Patch)
    ensures UpdateWhere(a + b, id, p) == UpdateWhere(a, id, p) + UpdateWhere(b, id, p)
  {
  }

  /** The listed records without those whose id is `id`. */
  function OtherAdmins(admins: seq<AdminUser>, id: string): (r: seq<AdminUser>)
    ensures forall i :: 0 <= i < |r| ==> r[i].id != id
  {
    Filter(admins, (u: AdminUser) => u.id != id)
  }

  /** `DemotionDelists` for a table of one row. */
  lemma DemotionDelistsRow(u: AdminUser, id: string)
    ensures ListedAdmins(UpdateWhere([u], id, RemovePatch)) == OtherAdmins(ListedAdmins([u]), id)
  {
    var v := UpdateWhere([u], id, RemovePatch);
    assert v == [if u.id == id then Apply(RemovePatch, u) else u];
    if u.id == id {
      assert ListedAdmins(v) == [];
      assert OtherAdmins(ListedAdmins([u]), id) == [];
    } else {
      assert v == [u];
      assert OtherAdmins(ListedAdmins([u]), id) == ListedAdmins([u]);
    }
  }

  /** Listing after a demotion is listing before it without the demoted id:
      the demoted rows leave the list and every other listed record stays,
      unchanged and in order. */
  lemma {:induction false} DemotionDelists(table: seq<AdminUser>, id: string)
    ensures ListedAdmins(UpdateWhere(table, id, RemovePatch)) == OtherAdmins(ListedAdmins(table), id)
    decreases |table|
  {
    if |table| > 0 {
      var first, rest := table[..1], table[1..];
      assert table == first + rest;
      DemotionDelists(rest, id);
      UpdateWhereConcat(first, rest, id, RemovePatch);
      FilterConcat(UpdateWhere(first, id, RemovePatch), UpdateWhere(rest, id, RemovePatch), IsListedAdmin);
      FilterConcat(first, rest, IsListedAdmin);
      FilterConcat(ListedAdmins(first), ListedAdmins(rest), (u: AdminUser) => u.id != id);
      DemotionDelistsRow(table[0], id);
      assert first == [table[0]];
    }
  }

  /** Accepting keeps a record's role, so listing after an acceptance is
      the old listing with the accepted rows updated. */
  lemma {:induction false} AcceptanceKeepsListing(table: seq<AdminUser>, id: string)
    ensures ListedAdmins(UpdateWhere(table, id, AcceptPatch)) == UpdateWhere(ListedAdmins(table), id, AcceptPatch)
    decreases |table|
  {
    if |table| > 0 {
      var first, rest := table[..1], table[1..];
      assert table == first + rest;
      AcceptanceKeepsListing(rest, id);
      UpdateWhereConcat(first, rest, id, AcceptPatch);
      FilterConcat(UpdateWhere(first, id, AcceptPatch), UpdateWhere(rest, id, AcceptPatch), IsListedAdmin);
      FilterConcat(first, rest, IsListedAdmin);
      UpdateWhereConcat(ListedAdmins(first), ListedAdmins(rest), id, AcceptPatch);
      assert ListedAdmins(UpdateWhere(first, id, AcceptPatch)) == UpdateWhere(ListedAdmins(first), id, AcceptPatch);
    }
  }

  datatype Screen = LoginPrompt | Board

  /** What the page shows: any signed-in user sees the board, whatever their
      role; the `userRole` the page computes is never consulted. */
  function ScreenFor(currentUser: Option<User>): (s: Screen)
    ensures s == Board <==> currentUser.Some?
  {
    if currentUser.None? then LoginPrompt else Board
  }

  /** Accepting sets the status and touches nothing else; accepting twice is
      accepting once; an accepted record no longer offers Accept. */
  lemma AcceptOnlySetsStatus(u: AdminUser)
    ensures Apply(AcceptPatch, u) == u.(status := "accepted")
    ensures Apply(AcceptPatch, Apply(AcceptPatch, u)) == Apply(AcceptPatch, u)
    ensures !ShowAccept(Apply(AcceptPatch, u))
  {
  }

  /** A removed admin becomes an accepted client and drops out of the next
      listing. */
  lemma {:induction false} RemovedAdminLeavesList(table: seq<AdminUser>, u: AdminUser)
    ensures Apply(RemovePatch, u).role == "client" && Apply(RemovePatch, u).status == "accepted"
    ensures Apply(RemovePatch, u) !in ListedAdmins(table)
  {
    FilterMember(table, IsListedAdmin, Apply(RemovePatch, u));
  }

  /** The buttons after each transition: a cleared form disables Register
      whatever the loading state; a demoted record offers neither Accept nor
      the Protected label but still offers Remove; a `host_admin` record is
      never offered Remove, pending or not. */
  lemma ButtonsAfterTransitions(loading: bool, u: AdminUser)
    ensures !RegisterEnabled(loading, EmptyForm)
    ensures !ShowAccept(Apply(RemovePatch, u)) && ShowRemove(Apply(RemovePatch, u))
    ensures u.role == "host_admin" ==> !ShowRemove(u) && ShowProtected(u)
  {
  }

  class AccessBoardPage {
    var currentUser: Option<User>
    var admins: seq<AdminUser>
    var form: SignUpForm
    var loading: bool

    constructor ()
      ensures currentUser == None && admins == [] && form == EmptyForm && !loading
    {
      currentUser := None;
      admins := [];
      form := EmptyForm;
      loading := false;
    }

    /** The session listener, followed by the effect on `currentUser`: the
        current user is the session's user, and a signed-in user triggers
        `fetchAdmins` against `table`. */
    method SetSession(user: Option<User>, table: seq<AdminUser>, fetchFails: bool) returns (calls: seq<Call>)
      modifies this`currentUser, this`admins
      ensures currentUser == user
      ensures calls == (if user.Some? then [SelectAdmins] else [])
      ensures admins == (if user.Some? && !fetchFails then ListedAdmins(table) else old(admins))
    {
      currentUser := user;
      calls := [];
      if user.Some? {
        calls := [SelectAdmins];
        FetchAdmins(table, fetchFails);
      }
    }

    /** Typing in the three fields. */
    method EditForm(email: string, password: string, username: string)
      modifies this`form
      ensures form == SignUpForm(email, password, username)
    {
      form := SignUpForm(email, password, username);
    }

    /** `fetchAdmins` against the `users` table `table`: the list becomes the
        listed records on success and is kept on error. */
    method FetchAdmins(table: seq<AdminUser>, fails: bool)
      modifies this`admins
      ensures admins == (if fails then old(admins) else ListedAdmins(table))
      ensures !fails ==> forall i :: 0 <= i < |admins| ==> IsListedAdmin(admins[i])
    {
      if !fails {
        admins := ListedAdmins(table);
      }
    }

    /** `addAdmin`: signs the form's user up as a pending admin; on success
        the form is cleared and the list refetched from `table`, the `users`
        table as the refetch finds it; on failure the form is kept. Loading
        ends false either way. */
    method AddAdmin(signUpFails: bool, table: seq<AdminUser>, fetchFails: bool) returns (calls: seq<Call>)
      modifies this`loading, this`form, this`admins
      ensures !loading
      ensures |calls| >= 1
      ensures calls[0] == AuthSignUp(old(form).email, old(form).password, old(form).username, "admin", "pending")
      ensures signUpFails ==> calls == calls[..1] && form == old(form) && admins == old(admins)
      ensures !signUpFails ==>
        calls == calls[..1] + [SelectAdmins] && form == EmptyForm
        && admins == (if fetchFails then old(admins) else ListedAdmins(table))
    {
      loading := true;
      calls := [AuthSignUp(form.email, form.password, form.username, "admin", "pending")];
      if !signUpFails {
        form := EmptyForm;
        calls := calls + [SelectAdmins];
        FetchAdmins(table, fetchFails);
      }
      loading := false;
    }

    /** `acceptAdmin` on the `users` table `table`: writes the accept update
        and, on success, refetches from the updated table. The refreshed
        list is the old listing with that id accepted. */
    method AcceptAdmin(id: string, table: seq<AdminUser>, updateFails: bool, fetchFails: bool)
      returns (calls: seq<Call>)
      modifies this`admins
      ensures calls == [UpdateUser(id, AcceptPatch)] + (if updateFails then [] else [SelectAdmins])
      ensures admins == (if !updateFails && !fetchFails then ListedAdmins(UpdateWhere(table, id, AcceptPatch))
                         else old(admins))
      ensures !updateFails && !fetchFails ==>
        && admins == UpdateWhere(ListedAdmins(table), id, AcceptPatch)
        && forall i :: 0 <= i < |admins| && admins[i].id == id ==> admins[i].status == "accepted"
    {
      calls := [UpdateUser(id, AcceptPatch)];
      if !updateFails {
        calls := calls + [SelectAdmins];
        FetchAdmins(UpdateWhere(table, id, AcceptPatch), fetchFails);
        AcceptanceKeepsListing(table, id);
      }
    }

    /** `removeAdmin` on the `users` table `table`: writes the demotion
        whatever the record's role (the role argument is unused) and, on
        success, refetches from the updated table. The refreshed list is the
        old listing without that id. */
    method RemoveAdmin(id: string, role: string, table: seq<AdminUser>, updateFails: bool, fetchFails: bool)
      returns (calls: seq<Call>)
      modifies this`admins
      ensures calls == [UpdateUser(id, RemovePatch)] + (if updateFails then [] else [SelectAdmins])
      ensures admins == (if !updateFails && !fetchFails then ListedAdmins(UpdateWhere(table, id, RemovePatch))
                         else old(admins))
      ensures !updateFails && !fetchFails ==>
        && admins == OtherAdmins(ListedAdmins(table), id)
        && forall i :: 0 <= i < |admins| ==> admins[i].id != id
    {
      calls := [UpdateUser(id, RemovePatch)];
      if !updateFails {
        calls := calls + [SelectAdmins];
        FetchAdmins(UpdateWhere(table, id, RemovePatch), fetchFails);
        DemotionDelists(table, id);
      }
    }
  }
}
