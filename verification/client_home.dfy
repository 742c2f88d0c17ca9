/** The client home screen (src/app/client/home/page.tsx): the same two
    location fields, with plain match lists (no sentinels) and a popup that
    opens whenever both fields are non-blank. */
module ClientHome {
  import opened Strings
  import opened Locations
  import ClientPage

  /** The two fields `handleInput` is used for. */
  datatype Field = Pickup | Drop

  /** `handleInput`'s suggestion list: nothing for a blank input, otherwise
      exactly the matches, possibly none. */
  function HomeSuggestions(value: string): (r: seq<string>)
    ensures IsBlank(value) ==> r == []
    ensures !IsBlank(value) ==> r == Matches(value)
  {
    TrimEmptyIffBlank(value);
    if Trim(value) == "" then [] else Matches(value)
  }

  /** Against the other location screen, for a non-blank input: when
      something matches, the home list is that screen's drop list and its
      pickup list minus the location sentinel; when nothing matches, it is
      empty where that screen shows the no-results sentinel. */
  lemma ComparedWithClientPage(value: string)
    requires !IsBlank(value)
    ensures Matches(value) != [] ==>
      HomeSuggestions(value) == ClientPage.DropSuggestions(value)
      && ClientPage.PickupSuggestions(value) == [ClientPage.UseCurrentLocation] + HomeSuggestions(value)
    ensures Matches(value) == [] ==>
      HomeSuggestions(value) == [] && ClientPage.DropSuggestions(value) == [ClientPage.NoResults]
  {
  }

  /** For a blank input all three lists are empty. */
  lemma BlankInputShowsNothing(value: string)
    requires IsBlank(value)
    ensures HomeSuggestions(value) == [] == ClientPage.DropSuggestions(value) == ClientPage.PickupSuggestions(value)
  {
  }

  class HomeScreen {
    var pickup: string
    var drop: string
    var showPopup: bool
    var pickupSuggestions: seq<string>
    var dropSuggestions: seq<string>

    constructor ()
      ensures pickup == "" && drop == "" && !showPopup && pickupSuggestions == [] && dropSuggestions == []
    {
      pickup, drop := "", "";
      showPopup := false;
      pickupSuggestions, dropSuggestions := [], [];
    }

    /** `handleInput(value, setValue, setSuggestions)` for one field: the
        field always takes the typed value; the other field is untouched. */
    method HandleInput(field: Field, value: string)
      modifies this`pickup, this`drop, this`pickupSuggestions, this`dropSuggestions
      ensures field == Pickup ==>
        pickup == value && pickupSuggestions == HomeSuggestions(value)
        && drop == old(drop) && dropSuggestions == old(dropSuggestions)
      ensures field == Drop ==>
        drop == value && dropSuggestions == HomeSuggestions(value)
        && pickup == old(pickup) && pickupSuggestions == old(pickupSuggestions)
    {
      if field == Pickup {
        pickup := value;
        pickupSuggestions := HomeSuggestions(value);
      } else {
        drop := value;
        dropSuggestions := HomeSuggestions(value);
      }
    }

    /** Clicking a suggestion fills the field with it and clears that list. */
    method SelectSuggestion(field: Field, loc: string)
      modifies this`pickup, this`drop, this`pickupSuggestions, this`dropSuggestions
      ensures field == Pickup ==>
        pickup == loc && pickupSuggestions == [] && drop == old(drop) && dropSuggestions == old(dropSuggestions)
      ensures field == Drop ==>
        drop == loc && dropSuggestions == [] && pickup == old(pickup) && pickupSuggestions == old(pickupSuggestions)
    {
      if field == Pickup {
        pickup := loc;
        pickupSuggestions := [];
      } else {
        drop := loc;
        dropSuggestions := [];
      }
    }

    /** `triggerPopup`: opens when both fields are non-blank; equal fields
        are allowed here. */
    method TriggerPopup()
      modifies this`showPopup
      ensures showPopup == (old(showPopup) || (!IsBlank(pickup) && !IsBlank(drop)))
    {
      TrimEmptyIffBlank(pickup);
      TrimEmptyIffBlank(drop);
      if Trim(pickup) != "" && Trim(drop) != "" {
        showPopup := true;
      }
    }

    /** Enter in the drop field runs `triggerPopup`; other keys do nothing. */
    method HandleDropKey(key: string)
      modifies this`showPopup
      ensures showPopup == (old(showPopup) || (key == "Enter" && !IsBlank(pickup) && !IsBlank(drop)))
    {
      if key == "Enter" {
        TriggerPopup();
      }
    }

    /** The popup's `onClose`. */
    method ClosePopup()
      modifies this`showPopup
      ensures !showPopup
    {
      showPopup := false;
    }
  }
}
