/** The home booking popup (src/app/client/home/BookingPopup.tsx): size and
    vehicle pickers that cycle through fixed lists, and a labour counter
    that never drops below one. */
module HomeBookingPopup {
  import Counters

  const Sizes: seq<string> := ["Below 200kg", "200-500kg", "500kg+"]

  datatype Vehicle = Vehicle(name: string, image: string)

  const Vehicles: seq<Vehicle> := [
    Vehicle("Tata Ace", "/vehicles/tata-ace.png"),
    Vehicle("Pickup Van", "/vehicles/pickup-van.png"),
    Vehicle("Auto", "/vehicles/auto.png")
  ]

  /** The "previous" button: `prev > 0 ? prev - 1 : n - 1`. */
  function StepBack(i: int, n: int): (r: int)
    requires 0 <= i < n
    ensures 0 <= r < n
  {
    if i > 0 then i - 1 else n - 1
  }

  /** The "next" button: `(prev + 1) % n` (operands are non-negative, so
      JavaScript's remainder and Dafny's agree); it wraps from the last
      entry to the first. */
  function StepForward(i: int, n: int): (r: int)
    requires 0 <= i < n
    ensures 0 <= r < n
    ensures i + 1 < n ==> r == i + 1
    ensures i + 1 == n ==> r == 0
  {
    (i + 1) % n
  }

  /** The two buttons undo each other. */
  lemma StepsAreInverse(i: int, n: int)
    requires 0 <= i < n
    ensures StepBack(StepForward(i, n), n) == i
    ensures StepForward(StepBack(i, n), n) == i
  {
  }

  /** `k` presses of "next". */
  function ForwardTimes(i: int, n: int, k: nat): (r: int)
    requires 0 <= i < n
    ensures 0 <= r < n
    decreases k
  {
    if k == 0 then i else ForwardTimes(StepForward(i, n), n, k - 1)
  }

  /** `a` presses followed by `b` presses are `a + b` presses. */
  lemma {:induction false} ForwardTimesAdds(i: int, n: int, a: nat, b: nat)
    requires 0 <= i < n
    ensures ForwardTimes(ForwardTimes(i, n, a), n, b) == ForwardTimes(i, n, a + b)
    decreases a
  {
    if a > 0 {
      ForwardTimesAdds(StepForward(i, n), n, a - 1, b);
    }
  }

  /** Before the wrap, `k` presses move `k` entries on. */
  lemma {:induction false} ForwardTimesClimbs(i: int, n: int, k: nat)
    requires 0 <= i < n && i + k < n
    ensures ForwardTimes(i, n, k) == i + k
    decreases k
  {
    if k > 0 {
      ForwardTimesClimbs(i + 1, n, k - 1);
    }
  }

  /** Pressing "next" once per entry returns to the starting entry. */
  lemma FullCycleReturns(i: int, n: int)
    requires 0 <= i < n
    ensures ForwardTimes(i, n, n) == i
  {
    ForwardTimesClimbs(i, n, n - 1 - i);
    assert ForwardTimes(i, n, n - i) == 0 by {
      ForwardTimesAdds(i, n, n - 1 - i, 1);
    }
    ForwardTimesAdds(i, n, n - i, i);
    ForwardTimesClimbs(0, n, i);
  }

  class HomeBookingForm {
    var sizeIndex: int
    var vehicleIndex: int
    var purpose: string
    var labourNeed: bool
    var labour: int

    /** The indices point into their lists and the count is at least one. */
    ghost predicate Valid()
      reads this
    {
      0 <= sizeIndex < |Sizes| && 0 <= vehicleIndex < |Vehicles| && labour >= 1
    }

    constructor ()
      ensures Valid()
      ensures sizeIndex == 0 && vehicleIndex == 0 && purpose == "" && !labourNeed && labour == 1
    {
      sizeIndex, vehicleIndex := 0, 0;
      purpose := "";
      labourNeed := false;
      labour := 1;
    }

    /** The size shown. */
    function Size(): (r: string)
      reads this
      requires Valid()
      ensures r in Sizes
    {
      Sizes[sizeIndex]
    }

    /** The vehicle shown. */
    function ShownVehicle(): (r: Vehicle)
      reads this
      requires Valid()
      ensures r in Vehicles
    {
      Vehicles[vehicleIndex]
    }

    method PreviousSize()
      requires Valid()
      modifies this`sizeIndex
      ensures Valid()
      ensures sizeIndex == StepBack(old(sizeIndex), |Sizes|)
    {
      sizeIndex := if sizeIndex > 0 then sizeIndex - 1 else |Sizes| - 1;
    }

    method NextSize()
      requires Valid()
      modifies this`sizeIndex
      ensures Valid()
      ensures sizeIndex == StepForward(old(sizeIndex), |Sizes|)
    {
      sizeIndex := (sizeIndex + 1) % |Sizes|;
    }

    method PreviousVehicle()
      requires Valid()
      modifies this`vehicleIndex
      ensures Valid()
      ensures vehicleIndex == StepBack(old(vehicleIndex), |Vehicles|)
    {
      vehicleIndex := if vehicleIndex > 0 then vehicleIndex - 1 else |Vehicles| - 1;
    }

    method NextVehicle()
      requires Valid()
      modifies this`vehicleIndex
      ensures Valid()
      ensures vehicleIndex == StepForward(old(vehicleIndex), |Vehicles|)
    {
      vehicleIndex := (vehicleIndex + 1) % |Vehicles|;
    }

    /** The purpose select and the "need labours" box. */
    method EditChoices(purpose': string, labourNeed': bool)
      requires Valid()
      modifies this`purpose, this`labourNeed
      ensures Valid()
      ensures purpose == purpose' && labourNeed == labourNeed'
    {
      purpose, labourNeed := purpose', labourNeed';
    }

    /** The minus button, shown only while labours are needed:
        `Math.max(1, l - 1)`. */
    method RemoveLabour()
      requires Valid() && labourNeed
      modifies this`labour
      ensures Valid()
      ensures labour == Counters.Decrement(old(labour), 1)
    {
      labour := if 1 >= labour - 1 then 1 else labour - 1;
    }

    /** The plus button, shown only while labours are needed. */
    method AddLabour()
      requires Valid() && labourNeed
      modifies this`labour
      ensures Valid()
      ensures labour == Counters.Increment(old(labour))
    {
      labour := labour + 1;
    }
  }
}
