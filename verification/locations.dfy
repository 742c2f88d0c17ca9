/** The fixed list of suggested places and the case-insensitive match that
    both client location screens use (src/app/client/page.tsx and
    src/app/client/home/page.tsx declare the same list). */
module Locations {
  import opened Lists
  import opened Strings

  const SuggestedLocations: seq<string> := [
    "Guwahati Station", "Airport", "Silpukhuri", "Paltan Bazar",
    "Ganeshguri", "Kahilipara", "Maligaon", "Beltola"
  ]

  /** `loc.toLowerCase().includes(value.toLowerCase())`. */
  predicate MatchesInput(loc: string, value: string)
  {
    Contains(ToLower(loc), ToLower(value))
  }

  /** The suggested places matching the input, in list order. */
  function Matches(value: string): (r: seq<string>)
    ensures forall i :: 0 <= i < |r| ==> r[i] in SuggestedLocations && MatchesInput(r[i], value)
    ensures |r| <= |SuggestedLocations|
  {
    Filter(SuggestedLocations, (loc: string) => MatchesInput(loc, value))
  }

  /** Every place whose lower-cased name includes the lower-cased input is
      suggested. */
  lemma MatchesExact(value: string, loc: string)
    ensures loc in Matches(value) <==> loc in SuggestedLocations && MatchesInput(loc, value)
  {
    FilterMember(SuggestedLocations, (loc: string) => MatchesInput(loc, value), loc);
  }

  /** Matching ignores the case of the input's ASCII letters. */
  lemma MatchesIgnoreCase(value: string)
    ensures Matches(ToLower(value)) == Matches(value)
  {
    ToLowerIdempotent(value);
    FilterSamePredicate(SuggestedLocations, (loc: string) => MatchesInput(loc, ToLower(value)),
                        (loc: string) => MatchesInput(loc, value));
  }

  /** A place's full name, typed in any case, suggests that place. */
  lemma SameNameAnyCase(loc: string, value: string)
    requires loc in SuggestedLocations
    requires ToLower(value) == ToLower(loc)
    ensures loc in Matches(value)
  {
    ContainsSelf(ToLower(loc));
    MatchesExact(value, loc);
  }
}
