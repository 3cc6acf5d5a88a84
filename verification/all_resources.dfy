/**
 * The resource-directory page: four equality filters, a sortable table, the
 * header-click sort toggle, the status tally and the option lists of the role
 * and grade selectors.
 */
module AllResources {
  import opened TextOrder

  /**
   * One row of the directory as `getAllResources()` supplies it; that generator
   * is not part of this model, so its result is an arbitrary sequence.
   */
  datatype Resource = Resource(
    id: string,
    name: string,
    role: string,
    grade: string,
    location: string,
    status: string)

  datatype SortField = Name | Role | Grade | Location | Status
  datatype SortDirection = Asc | Desc
  datatype SortState = SortState(field: SortField, direction: SortDirection)

  /** The state the page starts in: sorted by name, ascending. */
  const InitialSort: SortState := SortState(Name, Asc)

  /** `r[sortField]`. */
  function FieldValue(r: Resource, field: SortField): string
  {
    match field
    case Name => r.name
    case Role => r.role
    case Grade => r.grade
    case Location => r.location
    case Status => r.status
  }

  function KeyOf(field: SortField): Resource -> string
  {
    (r: Resource) => FieldValue(r, field)
  }

  // ----------------------------------------------------------------- filters

  /** The four selector values; "all" in a selector means no constraint. */
  datatype Filters = Filters(role: string, grade: string, location: string, status: string)

  const NoFilters: Filters := Filters("all", "all", "all", "all")

  /** The callback given to `allResources.filter`. */
  predicate Matches(r: Resource, f: Filters)
  {
    && !(f.role != "all" && r.role != f.role)
    && !(f.grade != "all" && r.grade != f.grade)
    && !(f.location != "all" && r.location != f.location)
    && !(f.status != "all" && r.status != f.status)
  }

  /** `allResources.filter(...)`: keeps the matching rows, in order. */
  function FilterResources(all: seq<Resource>, f: Filters): (r: seq<Resource>)
    ensures |r| <= |all|
    ensures forall i :: 0 <= i < |r| ==> Matches(r[i], f)
  {
    if all == [] then []
    else
      var rest := FilterResources(all[1..], f);
      if Matches(all[0], f) then [all[0]] + rest else rest
  }

  /** The filter keeps every matching row with its multiplicity and drops the others. */
  lemma {:induction false} FilterMultiset(all: seq<Resource>, f: Filters)
    ensures forall x :: multiset(FilterResources(all, f))[x] == if Matches(x, f) then multiset(all)[x] else 0
  {
    if all != [] {
      FilterMultiset(all[1..], f);
      assert all == [all[0]] + all[1..];
    }
  }

  /** A row passes exactly when each selector is "all" or equals the row's field. */
  lemma {:induction false} FilterMembership(all: seq<Resource>, f: Filters, x: Resource)
    ensures x in FilterResources(all, f) <==>
      && x in all
      && (f.role == "all" || x.role == f.role)
      && (f.grade == "all" || x.grade == f.grade)
      && (f.location == "all" || x.location == f.location)
      && (f.status == "all" || x.status == f.status)
  {
    var r := FilterResources(all, f);
    FilterMultiset(all, f);
    assert x in r <==> multiset(r)[x] > 0;
    assert x in all <==> multiset(all)[x] > 0;
  }

  /** With every selector at "all" the filter keeps the whole list, in order. */
  lemma {:induction false} NoFiltersKeepsAll(all: seq<Resource>)
    ensures FilterResources(all, NoFilters) == all
  {
    if all != [] {
      NoFiltersKeepsAll(all[1..]);
      assert all == [all[0]] + all[1..];
    }
  }

  /** The "Clear filters" button is shown exactly when some selector is not "all". */
  function ShowClearFilters(f: Filters): (show: bool)
    ensures show <==> f != NoFilters
  {
    f.role != "all" || f.grade != "all" || f.location != "all" || f.status != "all"
  }

  /** The button's click handler: every selector back to "all". */
  function ClearFilters(): (g: Filters)
    ensures !ShowClearFilters(g)
    ensures forall all: seq<Resource> :: FilterResources(all, g) == all
  {
    forall all: seq<Resource> ensures FilterResources(all, NoFilters) == all {
      NoFiltersKeepsAll(all);
    }
    NoFilters
  }

  // -------------------------------------------------------------------- sort

  function Modifier(d: SortDirection): int
  {
    if d == Asc then 1 else -1
  }

  /** The comparator handed to `filtered.sort`. */
  function Comparator(a: string, b: string, d: SortDirection): int
  {
    Compare(a, b) * Modifier(d)
  }

  /** `a` may stand before `b`: the comparator does not ask to swap them. */
  predicate InOrder(a: string, b: string, d: SortDirection)
  {
    Comparator(a, b, d) <= 0
  }

  /** Ascending means lexicographically non-decreasing, descending non-increasing. */
  lemma InOrderMeaning(a: string, b: string)
    ensures InOrder(a, b, Asc) <==> LexLeq(a, b)
    ensures InOrder(a, b, Desc) <==> LexLeq(b, a)
  {
  }

  /** Every adjacent pair of `s` is in order under `key` and `d`. */
  predicate SortedBy<T>(s: seq<T>, key: T -> string, d: SortDirection)
  {
    forall i :: 0 < i < |s| ==> InOrder(key(s[i - 1]), key(s[i]), d)
  }

  /** Adjacent order extends to every pair, as the order is transitive. */
  lemma {:induction false} SortedByAllPairs<T>(s: seq<T>, key: T -> string, d: SortDirection, i: int, j: int)
    requires SortedBy(s, key, d)
    requires 0 <= i < j < |s|
    ensures InOrder(key(s[i]), key(s[j]), d)
    decreases j - i
  {
    if i + 1 < j {
      SortedByAllPairs(s, key, d, i + 1, j);
      var x, y, z := key(s[i]), key(s[i + 1]), key(s[j]);
      if d == Asc { LexLeqTransitive(x, y, z); } else { LexLeqTransitive(z, y, x); }
    }
  }

  /**
   * `Array.prototype.sort` with a comparator on `key`: an insertion sort that
   * moves each element left past the elements the comparator puts after it
   * (stable, as the JavaScript sort is).
   */
  method SortInPlace<T>(a: array<T>, key: T -> string, d: SortDirection)
    modifies a
    ensures SortedBy(a[..], key, d)
    ensures multiset(a[..]) == multiset(old(a[..]))
  {
    var i := 0;
    while i < a.Length
      invariant 0 <= i <= a.Length
      invariant SortedBy(a[..i], key, d)
      invariant multiset(a[..]) == multiset(old(a[..]))
    {
      InsertLeft(a, i, key, d);
      i := i + 1;
    }
    assert a[..] == a[..a.Length];
  }

  /** One pass of the insertion sort: `a[i]` moves left into the sorted prefix `a[..i]`. */
  method InsertLeft<T>(a: array<T>, i: int, key: T -> string, d: SortDirection)
    requires 0 <= i < a.Length
    requires SortedBy(a[..i], key, d)
    modifies a
    ensures SortedBy(a[..i + 1], key, d)
    ensures multiset(a[..]) == multiset(old(a[..]))
  {
    var j := i;
    while j > 0 && !InOrder(key(a[j - 1]), key(a[j]), d)
      invariant 0 <= j <= i
      invariant forall k :: 0 < k < j ==> InOrder(key(a[k - 1]), key(a[k]), d)
      invariant forall k :: j < k <= i ==> InOrder(key(a[k - 1]), key(a[k]), d)
      invariant 0 < j < i ==> InOrder(key(a[j - 1]), key(a[j + 1]), d)
      invariant multiset(a[..]) == multiset(old(a[..]))
    {
      Swap(a, j - 1, j);
      j := j - 1;
    }
  }

  /** Exchanges two entries of `a`. */
  method Swap<T>(a: array<T>, i: int, j: int)
    requires 0 <= i < j < a.Length
    modifies a
    ensures a[..] == old(a[..])[i := old(a[j])][j := old(a[i])]
    ensures multiset(a[..]) == multiset(old(a[..]))
  {
    a[i], a[j] := a[j], a[i];
  }

  /**
   * `filteredResources`: the matching rows, sorted on the selected column in the
   * selected direction.
   */
  method FilteredResources(all: seq<Resource>, f: Filters, sort: SortState) returns (result: seq<Resource>)
    ensures multiset(result) == multiset(FilterResources(all, f))
    ensures SortedBy(result, KeyOf(sort.field), sort.direction)
    ensures forall x :: x in result <==> x in all && Matches(x, f)
  {
    var filtered := FilterResources(all, f);
    var a := new Resource[|filtered|](k requires 0 <= k < |filtered| => filtered[k]);
    assert a[..] == filtered;
    SortInPlace(a, KeyOf(sort.field), sort.direction);
    result := a[..];
    FilterMultiset(all, f);
    forall x ensures x in result <==> x in all && Matches(x, f) {
      assert x in result <==> multiset(result)[x] > 0;
      assert x in all <==> multiset(all)[x] > 0;
    }
  }

  /** With every selector at "all" the table shows a permutation of the whole directory. */
  lemma NoFiltersPermutation(all: seq<Resource>, result: seq<Resource>)
    requires multiset(result) == multiset(FilterResources(all, NoFilters))
    ensures multiset(result) == multiset(all)
  {
    NoFiltersKeepsAll(all);
  }

  /** `handleSort(field)`: a click on a column header. */
  function HandleSort(s: SortState, field: SortField): (t: SortState)
    ensures t.field == field
    ensures s.field == field ==> t.direction != s.direction
    ensures s.field != field ==> t.direction == Asc
  {
    if s.field == field then
      SortState(field, if s.direction == Asc then Desc else Asc)
    else
      SortState(field, Asc)
  }

  /** Two clicks on the current column restore the state. */
  lemma HandleSortTwiceRestores(s: SortState)
    ensures HandleSort(HandleSort(s, s.field), s.field) == s
  {
  }

  /** Two clicks on another column sort it descending. */
  lemma HandleSortNewFieldTwice(s: SortState, field: SortField)
    requires s.field != field
    ensures HandleSort(HandleSort(s, field), field) == SortState(field, Desc)
  {
  }

  /** From the initial state, clicking "Name" reverses it; any other header sorts that column ascending. */
  lemma FirstHeaderClick(field: SortField)
    ensures field == Name ==> HandleSort(InitialSort, field) == SortState(Name, Desc)
    ensures field != Name ==> HandleSort(InitialSort, field) == SortState(field, Asc)
  {
  }

  // ----------------------------------------------------------- status tally

  datatype StatusCounts = StatusCounts(billable: nat, internal: nat, bench: nat)

  /** The number of rows of `rs` whose status is `status`. */
  function CountStatus(rs: seq<Resource>, status: string): (n: nat)
    ensures n <= |rs|
  {
    if rs == [] then 0
    else CountStatus(rs[..|rs| - 1], status) + (if rs[|rs| - 1].status == status then 1 else 0)
  }

  predicate KnownStatus(status: string)
  {
    status == "billable" || status == "internal" || status == "bench"
  }

  lemma {:induction false} KnownStatusesAddUp(rs: seq<Resource>)
    requires forall r :: r in rs ==> KnownStatus(r.status)
    ensures CountStatus(rs, "billable") + CountStatus(rs, "internal") + CountStatus(rs, "bench") == |rs|
  {
    if rs != [] {
      var init := rs[..|rs| - 1];
      assert forall r :: r in init ==> r in rs;
      KnownStatusesAddUp(init);
      assert rs[|rs| - 1] in rs;
    }
  }

  /** The count on a summary card equals the number of rows the status filter shows. */
  lemma {:induction false} CountStatusIsFilterSize(rs: seq<Resource>, status: string)
    requires status != "all"
    ensures CountStatus(rs, status) == |FilterResources(rs, Filters("all", "all", "all", status))|
  {
    var f := Filters("all", "all", "all", status);
    if rs != [] {
      var init, last := rs[..|rs| - 1], rs[|rs| - 1];
      CountStatusIsFilterSize(init, status);
      FilterSnoc(init, last, f);
      assert rs == init + [last];
    }
  }

  lemma {:induction false} FilterSnoc(rs: seq<Resource>, x: Resource, f: Filters)
    ensures FilterResources(rs + [x], f) == FilterResources(rs, f) + (if Matches(x, f) then [x] else [])
  {
    if rs == [] {
      assert rs + [x] == [x];
      assert [x][1..] == [];
    } else {
      assert (rs + [x])[1..] == rs[1..] + [x];
      FilterSnoc(rs[1..], x, f);
    }
  }

  /** `statusCounts`: one pass over the directory, incrementing the counter of each row's status. */
  method CountStatuses(all: seq<Resource>) returns (counts: StatusCounts)
    ensures counts.billable == CountStatus(all, "billable")
    ensures counts.internal == CountStatus(all, "internal")
    ensures counts.bench == CountStatus(all, "bench")
    ensures (forall r :: r in all ==> KnownStatus(r.status)) ==>
      counts.billable + counts.internal + counts.bench == |all|
  {
    counts := StatusCounts(0, 0, 0);
    for i := 0 to |all|
      invariant counts.billable == CountStatus(all[..i], "billable")
      invariant counts.internal == CountStatus(all[..i], "internal")
      invariant counts.bench == CountStatus(all[..i], "bench")
    {
      assert all[..i + 1][..i] == all[..i];
      match all[i].status {
        case "billable" => counts := counts.(billable := counts.billable + 1);
        case "internal" => counts := counts.(internal := counts.internal + 1);
        case "bench" => counts := counts.(bench := counts.bench + 1);
        case _ =>
      }
    }
    assert all[..|all|] == all;
    if forall r :: r in all ==> KnownStatus(r.status) {
      KnownStatusesAddUp(all);
    }
  }

  // ------------------------------------------------------- selector options

  /** `rs.map(r => r[field])`. */
  function Column(rs: seq<Resource>, field: SortField): (c: seq<string>)
    ensures |c| == |rs|
    ensures forall i :: 0 <= i < |rs| ==> c[i] == FieldValue(rs[i], field)
  {
    seq(|rs|, i requires 0 <= i < |rs| => FieldValue(rs[i], field))
  }

  predicate Distinct(s: seq<string>)
  {
    forall i, j :: 0 <= i < j < |s| ==> s[i] != s[j]
  }

  /** `[...new Set(values)]`: first occurrences, in order of appearance. */
  function Dedup(values: seq<string>): (r: seq<string>)
    ensures forall v :: v in r <==> v in values
    ensures Distinct(r)
  {
    if values == [] then []
    else
      var init, last := values[..|values| - 1], values[|values| - 1];
      var d := Dedup(init);
      assert forall v :: v in values <==> v in init || v == last;
      if last in d then d else d + [last]
  }

  lemma {:induction false} DistinctAtMostOnce(s: seq<string>, x: string)
    requires Distinct(s)
    ensures multiset(s)[x] <= 1
  {
    if s != [] {
      assert s == [s[0]] + s[1..];
      DistinctAtMostOnce(s[1..], x);
      if x == s[0] {
        assert x !in s[1..];
      }
    }
  }

  /** A permutation of a list without duplicates has none either. */
  lemma DistinctPermutation(a: seq<string>, b: seq<string>)
    requires Distinct(a) && multiset(a) == multiset(b)
    ensures Distinct(b)
  {
    forall i, j | 0 <= i < j < |b| ensures b[i] != b[j] {
      if b[i] == b[j] {
        assert b == b[..j] + b[j..];
        assert b[i] in b[..j] && b[j] in b[j..];
        assert multiset(b)[b[i]] == multiset(b[..j])[b[i]] + multiset(b[j..])[b[i]];
        DistinctAtMostOnce(a, b[i]);
        assert false;
      }
    }
  }

  /**
   * The distinct values of a column, sorted by the modelled character order,
   * strictly increasing.
   */
  method UniqueSorted(values: seq<string>) returns (r: seq<string>)
    ensures forall v :: v in r <==> v in values
    ensures Distinct(r)
    ensures forall i :: 0 < i < |r| ==> LexLeq(r[i - 1], r[i]) && r[i - 1] != r[i]
  {
    var d := Dedup(values);
    var a := new string[|d|](k requires 0 <= k < |d| => d[k]);
    assert a[..] == d;
    SortInPlace(a, (s: string) => s, Asc);
    r := a[..];
    DistinctPermutation(d, r);
    forall v ensures v in r <==> v in values {
      assert v in r <==> multiset(r)[v] > 0;
      assert v in d <==> multiset(d)[v] > 0;
    }
    forall i | 0 < i < |r| ensures LexLeq(r[i - 1], r[i]) {
      InOrderMeaning(r[i - 1], r[i]);
    }
  }

  /**
   * `uniqueRoles` / `uniqueGrades`: `[...new Set(allResources.map(r => r[field]))].sort()`,
   * the options of the role and grade selectors.
   */
  method FieldOptions(all: seq<Resource>, field: SortField) returns (options: seq<string>)
    ensures forall v :: v in options <==> exists r :: r in all && FieldValue(r, field) == v
    ensures Distinct(options)
    ensures forall i :: 0 < i < |options| ==> LexLeq(options[i - 1], options[i]) && options[i - 1] != options[i]
  {
    var c := Column(all, field);
    options := UniqueSorted(c);
    forall v ensures v in options <==> exists r :: r in all && FieldValue(r, field) == v {
      if v in c {
        var i :| 0 <= i < |c| && c[i] == v;
        assert all[i] in all && FieldValue(all[i], field) == v;
      }
      if r :| r in all && FieldValue(r, field) == v {
        var i :| 0 <= i < |all| && all[i] == r;
        assert c[i] == v;
      }
    }
  }
}
