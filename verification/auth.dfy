/** The authentication context of src/hooks/useAuth.tsx: role flags derived
    from the signed-in user's metadata, the session state that gates
    rendering, and the sign-up sequence of remote calls. */
module Auth {
  import opened Base

  /** A signed-in user: id and the `role` of their metadata, if any. */
  datatype User = User(id: string, role: Option<string>)

  datatype Session = Session(user: User)

  /** `isAdmin`, `isDriver`, `isClient`. */
  datatype Flags = Flags(isAdmin: bool, isDriver: bool, isClient: bool)

  /** The three flags compare the role with one name each: each flag is
      set by its own role and by no other. */
  function RoleFlags(role: Option<string>): (f: Flags)
    ensures f.isAdmin <==> role == Some("admin")
    ensures f.isDriver <==> role == Some("driver")
    ensures f.isClient <==> role == Some("client")
    ensures !(f.isAdmin && f.isDriver) && !(f.isAdmin && f.isClient) && !(f.isDriver && f.isClient)
    ensures (f.isAdmin || f.isDriver || f.isClient) <==>
      role.Some? && (role.value == "admin" || role.value == "driver" || role.value == "client")
  {
    Flags(role == Some("admin"), role == Some("driver"), role == Some("client"))
  }

  /** A `host_admin`, a user without a role and no user at all get no flag. */
  lemma HostAdminAndMissingRoleHaveNoFlag()
    ensures RoleFlags(Some("host_admin")) == Flags(false, false, false)
    ensures RoleFlags(None) == Flags(false, false, false)
  {
  }

  class AuthProvider {
    var session: Option<Session>
    var user: Option<User>
    var loading: bool

    /** The user is the session's user. */
    ghost predicate Valid()
      reads this
    {
      user == (if session.Some? then Some(session.value.user) else None)
    }

    constructor ()
      ensures Valid()
      ensures session == None && user == None && loading
    {
      session := None;
      user := None;
      loading := true;
    }

    /** The flags of the current user's role (all false without one). */
    function CurrentFlags(): (f: Flags)
      reads this
      ensures user.None? ==> f == Flags(false, false, false)
      ensures user.Some? ==> f == RoleFlags(user.value.role)
    {
      RoleFlags(if user.Some? then user.value.role else None)
    }

    /** `{!loading && children}`. */
    predicate RendersChildren()
      reads this
    {
      !loading
    }

    /** `loadSession` and the auth-state listener: both install the given
        session and its user and end loading. */
    method SetSession(s: Option<Session>)
      modifies this`session, this`user, this`loading
      ensures Valid()
      ensures session == s
      ensures RendersChildren()
    {
      session := s;
      user := if s.Some? then Some(s.value.user) else None;
      loading := false;
    }
  }

  /** The roles a sign-up may ask for. */
  datatype SignUpRole = ClientRole | DriverRole

  function RoleName(r: SignUpRole): string
  {
    match r
    case ClientRole => "client"
    case DriverRole => "driver"
  }

  /** The remote calls `signUp` makes. */
  datatype Call =
    | LookupUsername(username: string)
    | AuthSignUp(email: string, password: string, username: string, role: string)
    | InsertUser(id: Option<string>, email: string, username: string, role: string)
    | InsertDriver(userId: Option<string>, vehicleNumber: string, verified: bool)

  /** How `signUp` ends: it returns, or throws with a message. */
  datatype Outcome = Done | Thrown(message: string)

  predicate IsInsert(c: Call)
  {
    c.InsertUser? || c.InsertDriver?
  }

  /** `signUp`. `profileRows` is the number of profiles with the username
      (`.single()` yields a row only when it is exactly one); `auth` is the
      auth sign-up's result, the new user's id on success. The two inserts'
      own errors are not checked by the source and do not appear here. */
  method SignUp(email: string, password: string, username: string, role: SignUpRole,
                profileRows: nat, auth: Result<Option<string>>)
    returns (calls: seq<Call>, outcome: Outcome)
    ensures |calls| >= 1 && calls[0] == LookupUsername(username)
    ensures profileRows == 1 ==> calls == [LookupUsername(username)] && outcome == Thrown("Username already taken")
    ensures profileRows != 1 ==> |calls| >= 2 && calls[1] == AuthSignUp(email, password, username, RoleName(role))
    ensures auth.Err? ==> outcome.Thrown? && forall i :: 0 <= i < |calls| ==> !IsInsert(calls[i])
    ensures profileRows != 1 && auth.Ok? ==>
      outcome == Done && |calls| >= 3 && calls[2] == InsertUser(auth.value, email, username, RoleName(role))
    ensures (exists i :: 0 <= i < |calls| && calls[i].InsertDriver?) <==>
      profileRows != 1 && auth.Ok? && role == DriverRole
    ensures forall i :: 0 <= i < |calls| && calls[i].InsertDriver? ==>
      calls[i] == InsertDriver(auth.value, "", false)
  {
    calls := [LookupUsername(username)];
    if profileRows == 1 {
      outcome := Thrown("Username already taken");
      return;
    }
    calls := calls + [AuthSignUp(email, password, username, RoleName(role))];
    if auth.Err? {
      outcome := Thrown(auth.message);
      return;
    }
    calls := calls + [InsertUser(auth.value, email, username, RoleName(role))];
    if role == DriverRole {
      calls := calls + [InsertDriver(auth.value, "", false)];
      assert calls[3].InsertDriver?;
    }
    outcome := Done;
  }
}
