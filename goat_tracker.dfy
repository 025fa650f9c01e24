/** The herd list: case-insensitive filters on tag and owner, an exact filter on gender, the
    reset button, and the health records handed to each goat's card. */
module GoatTracker {
  import opened Seqs
  import opened FarmTypes

  /** `toLowerCase` on one character, for the ASCII letters. */
  function LowerChar(c: char): (r: char)
    ensures 'A' <= c <= 'Z' ==> r as int == c as int + 32
    ensures !('A' <= c <= 'Z') ==> r == c
    ensures !('A' <= r <= 'Z')
  {
    if 'A' <= c <= 'Z' then (c as int + 32) as char else c
  }

  /** `toLowerCase`. */
  function Lower(s: string): (r: string)
    ensures |r| == |s|
    ensures forall i :: 0 <= i < |s| ==> r[i] == LowerChar(s[i])
  {
    if s == [] then [] else [LowerChar(s[0])] + Lower(s[1..])
  }

  /** `sub` occurs in `s` starting at position `i`. */
  predicate OccursAt(s: string, sub: string, i: nat) {
    i + |sub| <= |s| && s[i..i + |sub|] == sub
  }

  /** `s.includes(sub)`: `sub` occurs somewhere in `s`. */
  predicate Contains(s: string, sub: string) {
    exists i: nat | i <= |s| :: OccursAt(s, sub, i)
  }

  function GenderName(g: Gender): string {
    match g
    case Male => "Male"
    case Female => "Female"
  }

  /** The filter inputs; the empty string means no constraint. */
  datatype Filters = Filters(tag: string, owner: string, gender: string)

  const NoFilters := Filters("", "", "")

  /** The goat passes the tag filter: it is empty, or the lower-cased tag contains it
      lower-cased. */
  predicate MatchesTag(f: Filters, g: Goat) {
    f.tag == "" || Contains(Lower(g.tagNumber), Lower(f.tag))
  }

  predicate MatchesOwner(f: Filters, g: Goat) {
    f.owner == "" || Contains(Lower(g.ownerName), Lower(f.owner))
  }

  predicate MatchesGender(f: Filters, g: Goat) {
    f.gender == "" || GenderName(g.gender) == f.gender
  }

  /** A goat the list shows: every active filter accepts it. */
  predicate Matches(f: Filters, g: Goat) {
    MatchesTag(f, g) && MatchesOwner(f, g) && MatchesGender(f, g)
  }

  function MatchAll(f: Filters): Goat -> bool {
    (g: Goat) => Matches(f, g)
  }

  /** The goats the list shows, in herd order. */
  function FilterGoats(goats: seq<Goat>, f: Filters): seq<Goat> {
    Filter(goats, MatchAll(f))
  }

  // The three steps of `applyFilters`, each one filter with its own predicate.

  function TagFilter(tag: string): Goat -> bool {
    (g: Goat) => Contains(Lower(g.tagNumber), Lower(tag))
  }

  function OwnerFilter(owner: string): Goat -> bool {
    (g: Goat) => Contains(Lower(g.ownerName), Lower(owner))
  }

  function GenderFilter(gender: string): Goat -> bool {
    (g: Goat) => GenderName(g.gender) == gender
  }

  // What has been applied after the first and after the second step.

  function UpToTag(f: Filters): Goat -> bool {
    (g: Goat) => MatchesTag(f, g)
  }

  function UpToOwner(f: Filters): Goat -> bool {
    (g: Goat) => MatchesTag(f, g) && MatchesOwner(f, g)
  }

  /** The records whose goat is `goatId`, in their order. */
  function RecordsForGoat(healthRecords: seq<HealthRecord>, goatId: string): (r: seq<HealthRecord>)
    ensures forall h :: h in r <==> h in healthRecords && h.goatId == goatId
    ensures IsSubsequence(r, healthRecords)
  {
    FilterIsSubsequence(healthRecords, (h: HealthRecord) => h.goatId == goatId);
    Filter(healthRecords, (h: HealthRecord) => h.goatId == goatId)
  }

  /** The component's state: the herd and the health records as loaded, the filter inputs
      and the list on screen. */
  class Tracker {
    var goats: seq<Goat>
    var filteredGoats: seq<Goat>
    var healthRecords: seq<HealthRecord>
    var filters: Filters

    /** The initial state, before anything is loaded. */
    constructor()
      ensures goats == [] && filteredGoats == [] && healthRecords == [] && filters == NoFilters
    {
      goats := [];
      filteredGoats := [];
      healthRecords := [];
      filters := NoFilters;
    }

    /** `applyFilters`: narrow the herd by each active filter in turn, then show the result. */
    method ApplyFilters()
      modifies this
      ensures filteredGoats == FilterGoats(goats, filters)
      ensures goats == old(goats) && healthRecords == old(healthRecords) && filters == old(filters)
    {
      var f := filters;
      var filtered := goats;

      if f.tag != "" {
        filtered := Filter(filtered, TagFilter(f.tag));
        FilterSame(goats, TagFilter(f.tag), UpToTag(f));
      } else {
        FilterAll(goats, UpToTag(f));
      }
      assert filtered == Filter(goats, UpToTag(f));

      if f.owner != "" {
        filtered := Filter(filtered, OwnerFilter(f.owner));
        FilterFuse(goats, UpToTag(f), OwnerFilter(f.owner), UpToOwner(f));
      } else {
        FilterSame(goats, UpToTag(f), UpToOwner(f));
      }
      assert filtered == Filter(goats, UpToOwner(f));

      if f.gender != "" {
        filtered := Filter(filtered, GenderFilter(f.gender));
        FilterFuse(goats, UpToOwner(f), GenderFilter(f.gender), MatchAll(f));
      } else {
        FilterSame(goats, UpToOwner(f), MatchAll(f));
      }

      filteredGoats := filtered;
    }

    /** `resetFilters`: clear the three inputs; nothing else changes until the list is
        refiltered. */
    method ResetFilters()
      modifies this
      ensures filters == NoFilters
      ensures goats == old(goats) && filteredGoats == old(filteredGoats) && healthRecords == old(healthRecords)
    {
      filters := NoFilters;
    }

    /** A new filter input, followed by the effect that refilters the list. */
    method SetFilters(f: Filters)
      modifies this
      ensures filters == f && filteredGoats == FilterGoats(goats, f)
      ensures goats == old(goats) && healthRecords == old(healthRecords)
    {
      filters := f;
      ApplyFilters();
    }

    /** A herd loaded from the store, followed by the effect that refilters the list. */
    method SetGoats(loaded: seq<Goat>)
      modifies this
      ensures goats == loaded && filteredGoats == FilterGoats(loaded, filters)
      ensures healthRecords == old(healthRecords) && filters == old(filters)
    {
      goats := loaded;
      ApplyFilters();
    }
  }

  /** With every input empty the list is the whole herd. */
  lemma NoFiltersShowAll(goats: seq<Goat>)
    ensures FilterGoats(goats, NoFilters) == goats
  {
    FilterAll(goats, MatchAll(NoFilters));
  }

  /** The list keeps the herd's order and never holds more goats than the herd ("Showing n of
      m goats"). */
  lemma FilteredIsSubsequence(goats: seq<Goat>, f: Filters)
    ensures IsSubsequence(FilterGoats(goats, f), goats)
    ensures |FilterGoats(goats, f)| <= |goats|
  {
    FilterIsSubsequence(goats, MatchAll(f));
  }

  /** Every goat shown passes each active filter. */
  lemma FilteredSound(goats: seq<Goat>, f: Filters, g: Goat)
    requires g in FilterGoats(goats, f)
    ensures g in goats
    ensures f.tag != "" ==> Contains(Lower(g.tagNumber), Lower(f.tag))
    ensures f.owner != "" ==> Contains(Lower(g.ownerName), Lower(f.owner))
    ensures f.gender != "" ==> GenderName(g.gender) == f.gender
  {
  }

  /** Every goat of the herd that passes each active filter is shown. */
  lemma FilteredComplete(goats: seq<Goat>, f: Filters, g: Goat)
    requires g in goats
    requires f.tag != "" ==> Contains(Lower(g.tagNumber), Lower(f.tag))
    requires f.owner != "" ==> Contains(Lower(g.ownerName), Lower(f.owner))
    requires f.gender != "" ==> GenderName(g.gender) == f.gender
    ensures g in FilterGoats(goats, f)
  {
  }

  /** Typing the tag or owner filter in another case shows the same list. */
  lemma FilterIgnoresCase(goats: seq<Goat>, f: Filters, tag: string, owner: string)
    requires Lower(tag) == Lower(f.tag) && Lower(owner) == Lower(f.owner)
    ensures FilterGoats(goats, Filters(tag, owner, f.gender)) == FilterGoats(goats, f)
  {
    var f' := Filters(tag, owner, f.gender);
    assert |tag| == |Lower(tag)| == |f.tag| && |owner| == |Lower(owner)| == |f.owner|;
    FilterSame(goats, MatchAll(f'), MatchAll(f));
  }

  /** After a reset and the refiltering that follows it, the whole herd is shown. */
  method ResetShowsAll(t: Tracker)
    modifies t
    ensures t.filters == NoFilters && t.filteredGoats == t.goats
    ensures t.goats == old(t.goats)
  {
    t.ResetFilters();
    t.ApplyFilters();
    NoFiltersShowAll(t.goats);
  }
}
