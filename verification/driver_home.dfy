/** The driver's home screen (src/app/driver/page.tsx): loads the driver row
    of the signed-in user and flips its availability. */
module DriverHome {
  import opened Base
  import opened Lists

  datatype Driver = Driver(id: int, userId: string, name: string, available: bool)

  /** The toggle's write: `drivers.available := available` where `id = driverId`. */
  datatype AvailabilityWrite = AvailabilityWrite(driverId: int, available: bool)

  /** The rows of the user: every row of the table with that `user_id`,
      and no other. */
  function RowsOf(table: seq<Driver>, userId: string): (r: seq<Driver>)
    ensures forall i :: 0 <= i < |r| ==> r[i].userId == userId && r[i] in table
    ensures forall i :: 0 <= i < |table| && table[i].userId == userId ==> table[i] in r
  {
    Filter(table, (d: Driver) => d.userId == userId)
  }

  /** `.eq('user_id', userId).single()`: the user's row when there is exactly
      one, and none otherwise. */
  function DriverFor(table: seq<Driver>, userId: string): (r: Option<Driver>)
    ensures r.Some? <==> |RowsOf(table, userId)| == 1
    ensures r.Some? ==> r.value == RowsOf(table, userId)[0]
    ensures r.Some? ==> r.value in table && r.value.userId == userId
  {
    var rows := RowsOf(table, userId);
    if |rows| == 1 then Some(rows[0]) else None
  }

  /** The backend's effect of the toggle's write on the `drivers` table. */
  function SetAvailable(table: seq<Driver>, id: int, value: bool): (r: seq<Driver>)
    ensures |r| == |table|
    ensures forall i :: 0 <= i < |r| ==>
      r[i] == (if table[i].id == id then table[i].(available := value) else table[i])
  {
    seq(|table|, i requires 0 <= i < |table| =>
      if table[i].id == id then table[i].(available := value) else table[i])
  }

  /** The update acts row by row, so it distributes over concatenation. */
  lemma SetAvailableConcat(a: seq<Driver>, b: seq<Driver>, id: int, value: bool)
    ensures SetAvailable(a + b, id, value) == SetAvailable(a, id, value) + SetAvailable(b, id, value)
  {
  }

  /** Updating availability commutes with selecting a user's rows. */
  lemma {:induction false} SetAvailableRowsOf(table: seq<Driver>, id: int, value: bool, userId: string)
    ensures RowsOf(SetAvailable(table, id, value), userId) == SetAvailable(RowsOf(table, userId), id, value)
    decreases |table|
  {
    if |table| > 0 {
      var first, rest := table[..1], table[1..];
      assert table == first + rest;
      SetAvailableRowsOf(rest, id, value, userId);
      SetAvailableConcat(first, rest, id, value);
      FilterConcat(SetAvailable(first, id, value), SetAvailable(rest, id, value), (d: Driver) => d.userId == userId);
      FilterConcat(first, rest, (d: Driver) => d.userId == userId);
      SetAvailableConcat(RowsOf(first, userId), RowsOf(rest, userId), id, value);
      assert RowsOf(SetAvailable(first, id, value), userId) == SetAvailable(RowsOf(first, userId), id, value);
    }
  }

  /** When the write reaches the backend, the refetch shows the driver with
      the flag flipped and nothing else changed. */
  lemma RefreshSeesToggle(table: seq<Driver>, userId: string, d: Driver)
    requires DriverFor(table, userId) == Some(d)
    ensures DriverFor(SetAvailable(table, d.id, !d.available), userId) == Some(d.(available := !d.available))
  {
    SetAvailableRowsOf(table, d.id, !d.available, userId);
  }

  class DriverHomePage {
    var driver: Option<Driver>
    var loading: bool
    var toggling: bool

    constructor ()
      ensures driver == None && loading && !toggling
    {
      driver := None;
      loading := true;
      toggling := false;
    }

    /** `fetchDriver`: without a signed-in user the driver is left as it was;
        otherwise it becomes the user's row, or null when the lookup fails.
        Loading ends false on every path. */
    method FetchDriver(authUser: Option<string>, table: seq<Driver>, queryFails: bool)
      modifies this`driver, this`loading
      ensures !loading
      ensures authUser.None? ==> driver == old(driver)
      ensures authUser.Some? ==> driver == (if queryFails then None else DriverFor(table, authUser.value))
    {
      loading := true;
      if authUser.None? {
        loading := false;
        return;
      }
      if queryFails {
        driver := None;
      } else {
        driver := DriverFor(table, authUser.value);
      }
      loading := false;
    }

    /** `toggleAvailability`: with no driver loaded nothing happens. Otherwise
        the negated flag is written for that driver's id, `toggling` is true
        while the write is in flight (`busy`) and false after it; the driver
        is refetched (from `table`, the table as the refetch finds it) only
        when the write succeeded. */
    method ToggleAvailability(writeFails: bool, authUser: Option<string>, table: seq<Driver>, queryFails: bool)
      returns (write: Option<AvailabilityWrite>, busy: bool)
      modifies this`driver, this`loading, this`toggling
      ensures old(driver).None? ==>
        write.None? && !busy && driver == old(driver) && loading == old(loading) && toggling == old(toggling)
      ensures old(driver).Some? ==>
        write == Some(AvailabilityWrite(old(driver).value.id, !old(driver).value.available))
        && busy && !toggling
      ensures old(driver).Some? && writeFails ==> driver == old(driver) && loading == old(loading)
      ensures old(driver).Some? && !writeFails ==>
        !loading
        && (authUser.None? ==> driver == old(driver))
        && (authUser.Some? ==> driver == (if queryFails then None else DriverFor(table, authUser.value)))
    {
      if driver.None? {
        return None, false;
      }
      toggling := true;
      write := Some(AvailabilityWrite(driver.value.id, !driver.value.available));
      busy := toggling;
      if !writeFails {
        FetchDriver(authUser, table, queryFails);
      }
      toggling := false;
    }
  }
}
