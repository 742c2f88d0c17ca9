/** The client's location screen (src/app/client/page.tsx): pickup and drop
    fields with suggestion lists, sentinel entries for "use my location" and
    "no results", and the check that opens the booking popup. */
module ClientPage {
  import opened Strings
  import opened Locations

  /** The first pickup suggestion when there are matches. */
  const UseCurrentLocation: string := "\U{1F4CD} Use my current location"

  /** The only suggestion when nothing matches. */
  const NoResults: string := "No results found"

  /** `handleDropInput`'s suggestion list. */
  function DropSuggestions(value: string): (r: seq<string>)
    ensures IsBlank(value) ==> r == []
    ensures !IsBlank(value) && Matches(value) == [] ==> r == [NoResults]
    ensures !IsBlank(value) && Matches(value) != [] ==> r == Matches(value)
  {
    TrimEmptyIffBlank(value);
    if Trim(value) == "" then []
    else
      var filtered := Matches(value);
      if |filtered| > 0 then filtered else [NoResults]
  }

  /** `handleInput`'s suggestion list for the pickup field. */
  function PickupSuggestions(value: string): (r: seq<string>)
    ensures IsBlank(value) ==> r == []
    ensures !IsBlank(value) && Matches(value) == [] ==> r == [NoResults]
    ensures !IsBlank(value) && Matches(value) != [] ==> r == [UseCurrentLocation] + Matches(value)
  {
    TrimEmptyIffBlank(value);
    if Trim(value) == "" then []
    else
      var filtered := Matches(value);
      if |filtered| > 0 then [UseCurrentLocation] + filtered else [NoResults]
  }

  /** The sentinels are not places, so a click can tell them apart. */
  lemma SentinelsAreNotPlaces()
    ensures UseCurrentLocation !in SuggestedLocations
    ensures NoResults !in SuggestedLocations
    ensures UseCurrentLocation != NoResults
  {
  }

  /** Every suggestion is a sentinel or a suggested place. */
  lemma SuggestionsAreSentinelsOrPlaces(value: string)
    ensures forall s :: s in DropSuggestions(value) ==> s == NoResults || s in SuggestedLocations
    ensures forall s :: s in PickupSuggestions(value) ==>
      s == UseCurrentLocation || s == NoResults || s in SuggestedLocations
  {
    var m := Matches(value);
    assert forall s :: s in m ==> s in SuggestedLocations by {
      forall s | s in m
        ensures s in SuggestedLocations
      {
        var i :| 0 <= i < |m| && m[i] == s;
      }
    }
  }

  /** The pickup list is the drop list with the location sentinel in front,
      whenever something matches. */
  lemma PickupIsDropWithSentinel(value: string)
    requires !IsBlank(value) && Matches(value) != []
    ensures PickupSuggestions(value) == [UseCurrentLocation] + DropSuggestions(value)
  {
  }

  /** `triggerPopup`'s condition: both fields non-blank and not the same
      text (compared exactly, untrimmed). */
  predicate CanOpenPopup(pickup: string, drop: string)
  {
    !IsBlank(pickup) && !IsBlank(drop) && pickup != drop
  }

  /** The Next button shows when both fields are non-blank. */
  predicate NextVisible(pickup: string, drop: string)
  {
    !IsBlank(pickup) && !IsBlank(drop)
  }

  /** The popup can open exactly from a visible Next button whose fields
      differ: a visible Next fails only on equal fields, and a hidden one
      would never open it. */
  lemma NextVisibleAndDistinctOpens(pickup: string, drop: string)
    ensures CanOpenPopup(pickup, drop) <==> NextVisible(pickup, drop) && pickup != drop
    ensures !NextVisible(pickup, drop) ==> !CanOpenPopup(pickup, drop)
  {
  }

  class LocationScreen {
    var pickup: string
    var drop: string
    var pickupSuggestions: seq<string>
    var dropSuggestions: seq<string>
    var showPopup: bool

    constructor ()
      ensures pickup == "" && drop == "" && pickupSuggestions == [] && dropSuggestions == [] && !showPopup
    {
      pickup, drop := "", "";
      pickupSuggestions, dropSuggestions := [], [];
      showPopup := false;
    }

    /** Typing in the pickup field (`handleInput`). */
    method HandlePickupInput(value: string)
      modifies this`pickup, this`pickupSuggestions
      ensures pickup == value && pickupSuggestions == PickupSuggestions(value)
    {
      pickup := value;
      pickupSuggestions := PickupSuggestions(value);
    }

    /** Typing in the drop field (`handleDropInput`). */
    method HandleDropInput(value: string)
      modifies this`drop, this`dropSuggestions
      ensures drop == value && dropSuggestions == DropSuggestions(value)
    {
      drop := value;
      dropSuggestions := DropSuggestions(value);
    }

    /** Clicking a pickup suggestion: the location sentinel starts a
        geolocation lookup (`locating`; the address it may fill in later is
        not modelled), the no-results sentinel leaves the field alone, a
        place fills it in; the list is cleared in every case. */
    method ClickPickupSuggestion(loc: string) returns (locating: bool)
      modifies this`pickup, this`pickupSuggestions
      ensures locating <==> loc == UseCurrentLocation
      ensures pickup == (if loc == UseCurrentLocation || loc == NoResults then old(pickup) else loc)
      ensures pickupSuggestions == []
    {
      locating := loc == UseCurrentLocation;
      if !locating && loc != NoResults {
        pickup := loc;
      }
      pickupSuggestions := [];
    }

    /** Clicking a drop suggestion: the no-results sentinel leaves the field
        alone, anything else fills it in; the list is cleared. */
    method ClickDropSuggestion(loc: string)
      modifies this`drop, this`dropSuggestions
      ensures drop == (if loc == NoResults then old(drop) else loc)
      ensures dropSuggestions == []
    {
      if loc != NoResults {
        drop := loc;
      }
      dropSuggestions := [];
    }

    /** `triggerPopup`: blank fields do nothing, equal fields raise an alert,
        otherwise the popup opens. */
    method TriggerPopup() returns (alerted: bool)
      modifies this`showPopup
      ensures alerted <==> !IsBlank(pickup) && !IsBlank(drop) && pickup == drop
      ensures showPopup == (old(showPopup) || CanOpenPopup(pickup, drop))
    {
      TrimEmptyIffBlank(pickup);
      TrimEmptyIffBlank(drop);
      alerted := false;
      if Trim(pickup) == "" || Trim(drop) == "" {
        return;
      }
      if pickup == drop {
        alerted := true;
        return;
      }
      showPopup := true;
    }

    /** The Next button, rendered only while both fields are non-blank, runs
        `triggerPopup`: the popup opens unless the fields are equal, in which
        case the alert is raised instead. */
    method PressNext() returns (alerted: bool)
      requires NextVisible(pickup, drop)
      modifies this`showPopup
      ensures alerted <==> pickup == drop
      ensures showPopup == (old(showPopup) || pickup != drop)
    {
      alerted := TriggerPopup();
    }

    /** Enter in the drop field runs `triggerPopup`; other keys do nothing. */
    method HandleDropKey(key: string) returns (alerted: bool)
      modifies this`showPopup
      ensures alerted <==> key == "Enter" && !IsBlank(pickup) && !IsBlank(drop) && pickup == drop
      ensures showPopup == (old(showPopup) || (key == "Enter" && CanOpenPopup(pickup, drop)))
    {
      alerted := false;
      if key == "Enter" {
        alerted := TriggerPopup();
      }
    }

    /** The popup's `onClose`. */
    method ClosePopup()
      modifies this`showPopup
      ensures !showPopup
    {
      showPopup := false;
    }
  }
}
