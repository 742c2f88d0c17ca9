/** The quick booking page (src/app/client/book/page.tsx): a drop field that
    opens the popup on Enter, and a labour counter whose floor is zero. */
module BookPage {
  import opened Strings
  import Counters

  class BookScreen {
    var dropLocation: string
    var showPopup: bool
    var vehicle: string
    var size: string
    var labour: int
    var purpose: string

    /** The counter never goes below zero. */
    ghost predicate Valid()
      reads this
    {
      labour >= 0
    }

    constructor ()
      ensures Valid()
      ensures dropLocation == "" && !showPopup && vehicle == "Mini Truck" && size == "BELOW 100 KG"
      ensures labour == 1 && purpose == ""
    {
      dropLocation := "";
      showPopup := false;
      vehicle := "Mini Truck";
      size := "BELOW 100 KG";
      labour := 1;
      purpose := "";
    }

    method SetDropLocation(value: string)
      requires Valid()
      modifies this`dropLocation
      ensures Valid()
      ensures dropLocation == value
    {
      dropLocation := value;
    }

    /** `handleDropEnter`: the popup opens on Enter with a non-blank drop. */
    method HandleDropKey(key: string)
      requires Valid()
      modifies this`showPopup
      ensures Valid()
      ensures showPopup == (old(showPopup) || (key == "Enter" && !IsBlank(dropLocation)))
    {
      TrimEmptyIffBlank(dropLocation);
      if key == "Enter" && Trim(dropLocation) != "" {
        showPopup := true;
      }
    }

    /** The close button changes only `showPopup`. */
    method ClosePopup()
      requires Valid()
      modifies this`showPopup
      ensures Valid()
      ensures !showPopup
    {
      showPopup := false;
    }

    method SetPurpose(value: string)
      requires Valid()
      modifies this`purpose
      ensures Valid()
      ensures purpose == value
    {
      purpose := value;
    }

    /** The minus button: `Math.max(0, l - 1)`. */
    method RemoveLabour()
      requires Valid()
      modifies this`labour
      ensures Valid()
      ensures labour == Counters.Decrement(old(labour), 0)
    {
      labour := if 0 >= labour - 1 then 0 else labour - 1;
    }

    /** The plus button. */
    method AddLabour()
      requires Valid()
      modifies this`labour
      ensures Valid()
      ensures labour == Counters.Increment(old(labour))
    {
      labour := labour + 1;
    }
  }
}
