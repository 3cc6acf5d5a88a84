/**
 * The available-resources page: a free-text search, a job-family selector, a set
 * of skill chips, an availability bucket, the filter reset and the hours total.
 */
module AvailableResources {
  import opened TextOrder
  import opened Sums

  /**
   * A bench resource as `getAvailableResources(locationId)` supplies it; that
   * generator is not part of this model, so its result is an arbitrary sequence.
   */
  datatype AvailableResource = AvailableResource(
    id: string,
    name: string,
    email: string,
    role: string,
    grade: string,
    department: string,
    skills: seq<string>,
    availableHours: int)

  const FullTime: string := "Full-time (40h)"
  const PartTime: string := "Part-time (20-39h)"
  const Limited: string := "Limited (<20h)"

  /** The page's filter state; `period` is shown and reset but filters nothing. */
  datatype Filters = Filters(
    searchTerm: string,
    jobFamily: string,
    selectedSkills: seq<string>,
    availability: string,
    period: string)

  /** The state after `clearFilters()`, which is also the initial state. */
  const Cleared: Filters := Filters("", "All", [], "All", "Current")

  /** An empty term matches everything; otherwise the lower-cased term must occur in the name or the role. */
  predicate MatchesSearch(r: AvailableResource, term: string)
  {
    !(term != "" && !Contains(Lower(r.name), Lower(term)) && !Contains(Lower(r.role), Lower(term)))
  }

  predicate MatchesJobFamily(r: AvailableResource, family: string)
  {
    !(family != "All" && r.department != family)
  }

  /** Some selected skill occurs, case-insensitively, inside some skill of the resource. */
  predicate MatchesSkills(r: AvailableResource, selected: seq<string>)
  {
    |selected| > 0 ==>
      exists skill | skill in selected :: exists s | s in r.skills :: Contains(Lower(s), Lower(skill))
  }

  predicate MatchesAvailability(r: AvailableResource, availability: string)
  {
    availability != "All" ==>
      && !(availability == FullTime && r.availableHours < 40)
      && !(availability == PartTime && (r.availableHours < 20 || r.availableHours >= 40))
      && !(availability == Limited && r.availableHours >= 20)
  }

  /** The callback given to `allResources.filter`. */
  predicate Passes(r: AvailableResource, f: Filters)
  {
    && MatchesSearch(r, f.searchTerm)
    && MatchesJobFamily(r, f.jobFamily)
    && MatchesSkills(r, f.selectedSkills)
    && MatchesAvailability(r, f.availability)
  }

  /** The search, stated directly: an empty term or a case-insensitive hit in name or role. */
  lemma SearchMeaning(r: AvailableResource, term: string)
    ensures MatchesSearch(r, term) <==>
      term == "" || Contains(Lower(r.name), Lower(term)) || Contains(Lower(r.role), Lower(term))
  {
  }

  /** Each availability option keeps exactly one band of hours. */
  lemma AvailabilityBands(r: AvailableResource)
    ensures MatchesAvailability(r, FullTime) <==> r.availableHours >= 40
    ensures MatchesAvailability(r, PartTime) <==> 20 <= r.availableHours < 40
    ensures MatchesAvailability(r, Limited) <==> r.availableHours < 20
    ensures MatchesAvailability(r, "All")
  {
  }

  /** The three bands are pairwise disjoint and together cover every hours value. */
  lemma AvailabilityBandsPartition(r: AvailableResource)
    ensures (if MatchesAvailability(r, FullTime) then 1 else 0)
          + (if MatchesAvailability(r, PartTime) then 1 else 0)
          + (if MatchesAvailability(r, Limited) then 1 else 0) == 1
  {
    AvailabilityBands(r);
  }

  /** `filteredResources`. */
  function FilterAvailable(all: seq<AvailableResource>, f: Filters): (r: seq<AvailableResource>)
    ensures |r| <= |all|
    ensures forall x :: x in r <==> x in all && Passes(x, f)
  {
    if all == [] then []
    else
      var rest := FilterAvailable(all[1..], f);
      assert forall x :: x in all <==> x == all[0] || x in all[1..];
      if Passes(all[0], f) then [all[0]] + rest else rest
  }

  /** Every passing resource is kept as often as it occurs, and no other resource is kept. */
  lemma {:induction false} FilterAvailableMultiset(all: seq<AvailableResource>, f: Filters)
    ensures forall x :: multiset(FilterAvailable(all, f))[x] == if Passes(x, f) then multiset(all)[x] else 0
  {
    if all != [] {
      FilterAvailableMultiset(all[1..], f);
      assert all == [all[0]] + all[1..];
    }
  }

  /** `s` can be obtained from `t` by deleting elements, without reordering. */
  predicate Subsequence<T(==)>(s: seq<T>, t: seq<T>)
    decreases |t|
  {
    if s == [] then true
    else if t == [] then false
    else if s[0] == t[0] then Subsequence(s[1..], t[1..])
    else Subsequence(s, t[1..])
  }

  /** The filtered list keeps the order of the supplied list. */
  lemma {:induction false} FilterKeepsOrder(all: seq<AvailableResource>, f: Filters)
    ensures Subsequence(FilterAvailable(all, f), all)
  {
    if all != [] {
      FilterKeepsOrder(all[1..], f);
      var rest := FilterAvailable(all[1..], f);
      if Passes(all[0], f) {
        assert ([all[0]] + rest)[1..] == rest;
      } else if rest != [] {
        assert rest[0] in rest;
      }
    }
  }

  /** `prev.filter(s => s !== skill)`. */
  function RemoveAll(s: seq<string>, skill: string): (r: seq<string>)
    ensures forall x :: x in r <==> x in s && x != skill
  {
    if s == [] then []
    else
      var rest := RemoveAll(s[1..], skill);
      assert forall x :: x in s <==> x == s[0] || x in s[1..];
      if s[0] != skill then [s[0]] + rest else rest
  }

  /** `toggleSkill(skill)`: append an absent skill, remove every copy of a present one. */
  function ToggleSkill(prev: seq<string>, skill: string): (next: seq<string>)
    ensures skill !in prev ==> next == prev + [skill]
    ensures skill in prev ==> skill !in next && forall x :: x != skill ==> (x in next <==> x in prev)
  {
    if skill in prev then RemoveAll(prev, skill) else prev + [skill]
  }

  lemma {:induction false} RemoveAllAppended(s: seq<string>, skill: string)
    requires skill !in s
    ensures RemoveAll(s + [skill], skill) == s
  {
    if s == [] {
      assert [skill][1..] == [];
    } else {
      assert (s + [skill])[1..] == s[1..] + [skill];
      RemoveAllAppended(s[1..], skill);
      assert s == [s[0]] + s[1..];
    }
  }

  /** Toggling an absent skill twice restores the selection. */
  lemma ToggleTwiceRestores(prev: seq<string>, skill: string)
    requires skill !in prev
    ensures ToggleSkill(ToggleSkill(prev, skill), skill) == prev
  {
    RemoveAllAppended(prev, skill);
  }

  /** `hasActiveFilters`: true exactly when the state differs from the cleared one. */
  function HasActiveFilters(f: Filters): (active: bool)
    ensures active <==> f != Cleared
  {
    f.searchTerm != "" || f.jobFamily != "All" || |f.selectedSkills| > 0 || f.availability != "All" || f.period != "Current"
  }

  /** `clearFilters()`: afterwards no filter is active and every resource passes. */
  function ClearFilters(): (g: Filters)
    ensures !HasActiveFilters(g)
    ensures forall all: seq<AvailableResource> :: FilterAvailable(all, g) == all
  {
    forall all: seq<AvailableResource> ensures FilterAvailable(all, Cleared) == all {
      ClearedKeepsAll(all);
    }
    Cleared
  }

  lemma {:induction false} ClearedKeepsAll(all: seq<AvailableResource>)
    ensures FilterAvailable(all, Cleared) == all
  {
    if all != [] {
      ClearedKeepsAll(all[1..]);
      assert all == [all[0]] + all[1..];
    }
  }

  function HoursOf(r: AvailableResource): int
  {
    r.availableHours
  }

  /** The "Total Hours" figure: `filteredResources.reduce((sum, r) => sum + r.availableHours, 0)`. */
  function TotalHours(shown: seq<AvailableResource>): (h: int)
    ensures h == Sum(shown, HoursOf)
    ensures (forall i :: 0 <= i < |shown| ==> shown[i].availableHours >= 0) ==> h >= 0
  {
    ReduceIsSum(shown, HoursOf, 0);
    SumNonNegative(shown, HoursOf);
    Reduce(shown, HoursOf, 0)
  }
}
