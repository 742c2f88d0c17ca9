/** The admin's driver-registration screen
    (src/app/admin/driver-registration/page.tsx): a searchable list of driver
    users, a driver form whose empty fields are dropped before the write,
    role gates on the administrative actions, and a per-driver credentials
    cache. */
module DriverRegistration {
  import opened Base
  import opened Lists
  import opened Strings

  datatype DriverUser = DriverUser(id: string, email: string, username: Option<string>, role: string)

  /** A row of the `drivers` table as the screen lists it. */
  datatype DriverRow = DriverRow(id: int, name: string, vehicleNumber: string, verified: bool, available: bool)

  datatype Credential = Credential(username: string, password: string)

  /** The search test: the lower-cased email or username includes the
      lower-cased search; a user without a username matches by email only. */
  predicate UserMatches(u: DriverUser, search: string)
  {
    var lower := ToLower(search);
    Contains(ToLower(u.email), lower)
    || (u.username.Some? && Contains(ToLower(u.username.value), lower))
  }

  /** The users the search keeps, in list order. */
  function FilterUsers(users: seq<DriverUser>, search: string): (r: seq<DriverUser>)
    ensures forall i :: 0 <= i < |r| ==> UserMatches(r[i], search)
  {
    Filter(users, (u: DriverUser) => UserMatches(u, search))
  }

  /** The search keeps exactly the users that match. */
  lemma FilterUsersExact(users: seq<DriverUser>, search: string, u: DriverUser)
    ensures u in FilterUsers(users, search) <==> u in users && UserMatches(u, search)
  {
    FilterMember(users, (u: DriverUser) => UserMatches(u, search), u);
  }

  /** The empty search keeps every user. */
  lemma EmptySearchKeepsAll(users: seq<DriverUser>)
    ensures FilterUsers(users, "") == users
  {
    forall i | 0 <= i < |users|
      ensures UserMatches(users[i], "")
    {
      ContainsEmpty(ToLower(users[i].email));
    }
    FilterKeepsAll(users, (u: DriverUser) => UserMatches(u, ""));
  }

  /** The search ignores the case of its own ASCII letters. */
  lemma SearchIgnoresCase(users: seq<DriverUser>, search: string)
    ensures FilterUsers(users, ToLower(search)) == FilterUsers(users, search)
  {
    ToLowerIdempotent(search);
    FilterSamePredicate(users, (u: DriverUser) => UserMatches(u, ToLower(search)),
                        (u: DriverUser) => UserMatches(u, search));
  }

  /** A form value: a text field, a checkbox, or an unset field. */
  datatype FieldValue = Text(text: string) | Flag(flag: bool) | Undefined

  /** `v !== undefined && v !== ''`. */
  predicate Kept(v: FieldValue)
  {
    v != Undefined && v != Text("")
  }

  /** `cleanedData`: the form's entries without the unset and empty ones. */
  function CleanedData(entries: seq<(string, FieldValue)>): (r: seq<(string, FieldValue)>)
    ensures forall i :: 0 <= i < |r| ==> Kept(r[i].1)
  {
    Filter(entries, (e: (string, FieldValue)) => Kept(e.1))
  }

  /** An entry survives cleaning exactly when its value is neither unset nor
      the empty string; in particular unchecked boxes (`false`) are kept. */
  lemma CleanedDataExact(entries: seq<(string, FieldValue)>, key: string, v: FieldValue)
    ensures (key, v) in CleanedData(entries) <==> (key, v) in entries && v != Undefined && v != Text("")
    ensures (key, Flag(false)) in entries ==> (key, Flag(false)) in CleanedData(entries)
  {
    FilterMember(entries, (e: (string, FieldValue)) => Kept(e.1), (key, v));
    FilterMember(entries, (e: (string, FieldValue)) => Kept(e.1), (key, Flag(false)));
  }

  /** `['admin', 'host_admin'].includes(userRole)`. */
  predicate CanManage(role: string)
  {
    role in ["admin", "host_admin"]
  }

  /** JavaScript truthiness of `editingId`: null and 0 are falsy. */
  predicate IsTruthyId(id: Option<int>)
  {
    id.Some? && id.value != 0
  }

  /** The remote calls of the screen. */
  datatype Call =
    | AuthSignUp(email: string, password: string, username: string, role: string)
    | SelectDriverUsers
    | SelectDrivers
    | UpdateDriver(id: int, data: seq<(string, FieldValue)>)
    | InsertDriver(data: seq<(string, FieldValue)>)
    | DeleteDriver(id: int)
    | RequestCredentials(driverId: int)   // drivers.generate_credentials := true
    | SelectCredentials(driverId: int)

  class DriverRegistrationPage {
    var userRole: string
    var users: seq<DriverUser>
    var filteredUsers: seq<DriverUser>
    var search: string
    var drivers: seq<DriverRow>
    var editingId: Option<int>
    var credentials: map<int, Option<Credential>>

    /** The shown users are the search's result over the fetched users (the
        effect on `search` and `users` is taken as part of each step). */
    ghost predicate Valid()
      reads this
    {
      filteredUsers == FilterUsers(users, search)
    }

    constructor ()
      ensures Valid()
      ensures userRole == "client" && users == [] && search == "" && drivers == []
      ensures editingId == None && credentials == map[]
    {
      userRole := "client";
      users := [];
      filteredUsers := [];
      search := "";
      drivers := [];
      editingId := None;
      credentials := map[];
    }

    /** `fetchProfile`: `profile` is the signed-in user's metadata role, or an
        error when there is no user; an absent or empty role reads `client`. */
    method FetchProfile(profile: Result<Option<string>>)
      requires Valid()
      modifies this`userRole
      ensures Valid()
      ensures profile.Err? ==> userRole == old(userRole)
      ensures profile.Ok? && (profile.value.None? || profile.value == Some("")) ==> userRole == "client"
      ensures profile.Ok? && profile.value.Some? && profile.value.value != "" ==> userRole == profile.value.value
    {
      if profile.Ok? {
        userRole := if profile.value.None? || profile.value.value == "" then "client" else profile.value.value;
      }
    }

    /** `fetchDriverUsers`: replaces the users on success. */
    method FetchDriverUsers(result: Result<seq<DriverUser>>)
      requires Valid()
      modifies this`users, this`filteredUsers
      ensures Valid()
      ensures users == (if result.Ok? then result.value else old(users))
    {
      if result.Ok? {
        users := result.value;
        filteredUsers := FilterUsers(users, search);
      }
    }

    /** `fetchDrivers`: replaces the drivers on success. */
    method FetchDrivers(result: Result<seq<DriverRow>>)
      requires Valid()
      modifies this`drivers
      ensures Valid()
      ensures drivers == (if result.Ok? then result.value else old(drivers))
    {
      if result.Ok? {
        drivers := result.value;
      }
    }

    /** Typing in the search box. */
    method SetSearch(s: string)
      requires Valid()
      modifies this`search, this`filteredUsers
      ensures Valid()
      ensures search == s && filteredUsers == FilterUsers(users, s)
    {
      search := s;
      filteredUsers := FilterUsers(users, search);
    }

    /** `onCreateAuth`: only a manager signs up a driver user; on success the
        user list is refetched. */
    method OnCreateAuth(email: string, password: string, username: string, authFails: bool)
      returns (calls: seq<Call>)
      requires Valid()
      ensures !CanManage(userRole) ==> calls == []
      ensures CanManage(userRole) ==>
        calls == [AuthSignUp(email, password, username, "driver")] + (if authFails then [] else [SelectDriverUsers])
    {
      if !CanManage(userRole) {
        return [];
      }
      calls := [AuthSignUp(email, password, username, "driver")];
      if !authFails {
        calls := calls + [SelectDriverUsers];
      }
    }

    /** `onSubmitDriver`: only a manager writes; the cleaned form updates the
        row `editingId` when it is truthy and is inserted otherwise (so an id
        of 0 inserts). Success clears `editingId` and refetches the drivers;
        an error keeps `editingId`. */
    method OnSubmitDriver(data: seq<(string, FieldValue)>, writeFails: bool) returns (calls: seq<Call>)
      requires Valid()
      modifies this`editingId
      ensures Valid()
      ensures !CanManage(userRole) ==> calls == [] && editingId == old(editingId)
      ensures CanManage(userRole) ==> |calls| >= 1
      ensures CanManage(userRole) && IsTruthyId(old(editingId)) ==>
        calls[0] == UpdateDriver(old(editingId).value, CleanedData(data))
      ensures CanManage(userRole) && !IsTruthyId(old(editingId)) ==>
        calls[0] == InsertDriver(CleanedData(data))
      ensures CanManage(userRole) ==>
        |calls| == (if writeFails then 1 else 2)
        && (writeFails ==> editingId == old(editingId))
        && (!writeFails ==> editingId == None && calls[1] == SelectDrivers)
    {
      if !CanManage(userRole) {
        return [];
      }
      var cleaned := CleanedData(data);
      if IsTruthyId(editingId) {
        calls := [UpdateDriver(editingId.value, cleaned)];
      } else {
        calls := [InsertDriver(cleaned)];
      }
      if !writeFails {
        editingId := None;
        calls := calls + [SelectDrivers];
      }
    }

    /** `handleEdit`: the form now edits driver `id`. */
    method HandleEdit(id: int)
      requires Valid()
      modifies this`editingId
      ensures Valid()
      ensures editingId == Some(id)
    {
      editingId := Some(id);
    }

    /** `handleDelete`: only a manager deletes; success refetches. */
    method HandleDelete(id: int, deleteFails: bool) returns (calls: seq<Call>)
      requires Valid()
      ensures !CanManage(userRole) ==> calls == []
      ensures CanManage(userRole) ==>
        calls == [DeleteDriver(id)] + (if deleteFails then [] else [SelectDrivers])
    {
      if !CanManage(userRole) {
        return [];
      }
      calls := [DeleteDriver(id)];
      if !deleteFails {
        calls := calls + [SelectDrivers];
      }
    }

    /** `handleGenerateCredentials`: no role check; on success the credentials
        are fetched (after a delay, not modelled). */
    method HandleGenerateCredentials(driverId: int, writeFails: bool) returns (calls: seq<Call>)
      requires Valid()
      ensures calls == [RequestCredentials(driverId)] + (if writeFails then [] else [SelectCredentials(driverId)])
    {
      calls := [RequestCredentials(driverId)];
      if !writeFails {
        calls := calls + [SelectCredentials(driverId)];
      }
    }

    /** `fetchCredentials`: stores the first row for the driver, or null on
        an error or an empty result; other drivers' entries are untouched. */
    method FetchCredentials(driverId: int, result: Result<seq<Credential>>)
      requires Valid()
      modifies this`credentials
      ensures Valid()
      ensures driverId in credentials
      ensures credentials[driverId] ==
        (if result.Err? || |result.value| == 0 then None else Some(result.value[0]))
      ensures forall k :: k in old(credentials) && k != driverId ==> k in credentials && credentials[k] == old(credentials)[k]
      ensures credentials.Keys == old(credentials).Keys + {driverId}
    {
      var entry := if result.Err? || |result.value| == 0 then None else Some(result.value[0]);
      credentials := credentials[driverId := entry];
    }
  }
}
