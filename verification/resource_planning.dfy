/**
 * The resource-planning page of one project: total and average weekly hours, the
 * per-grade head count and the label of the selected planning period.
 */
module ResourcePlanning {
  import opened Sums

  /**
   * A roster entry as `getProjectResources(projectId)` supplies it; that
   * generator is not part of this model, so its result is an arbitrary sequence.
   */
  datatype ProjectResource = ProjectResource(
    id: string,
    name: string,
    role: string,
    grade: string,
    hoursPerWeek: int,
    startDate: string,
    endDate: string)

  function HoursPerWeek(r: ProjectResource): int
  {
    r.hoursPerWeek
  }

  /** `resources.reduce((sum, r) => sum + r.hoursPerWeek, 0)`. */
  function TotalHours(resources: seq<ProjectResource>): (h: int)
    ensures h == Sum(resources, HoursPerWeek)
    ensures resources == [] ==> h == 0
  {
    ReduceIsSum(resources, HoursPerWeek, 0);
    Reduce(resources, HoursPerWeek, 0)
  }

  /** `avgHours` before formatting: zero for an empty roster, so no division by zero. */
  function AvgHours(resources: seq<ProjectResource>): (avg: real)
    ensures |resources| == 0 ==> avg == 0.0
    ensures |resources| > 0 ==> avg * |resources| as real == TotalHours(resources) as real
  {
    if |resources| > 0 then TotalHours(resources) as real / |resources| as real else 0.0
  }

  /** When every roster entry works between `lo` and `hi` hours, so does the average. */
  lemma AvgHoursBounds(resources: seq<ProjectResource>, lo: int, hi: int)
    requires |resources| > 0
    requires forall i :: 0 <= i < |resources| ==> lo <= resources[i].hoursPerWeek <= hi
    ensures lo as real <= AvgHours(resources) <= hi as real
  {
    SumBounds(resources, HoursPerWeek, lo, hi);
    var n := |resources|;
    var total := TotalHours(resources);
    QuotientBounds(total, n, lo);
    QuotientBounds(total, n, hi);
  }

  /** Dividing `k * n <= total` (or `>=`) by a positive `n`. */
  lemma QuotientBounds(total: int, n: int, k: int)
    requires n > 0
    ensures k * n <= total ==> k as real <= total as real / n as real
    ensures total <= k * n ==> total as real / n as real <= k as real
  {
    var q := total as real / n as real;
    assert q * n as real == total as real;
    assert (k * n) as real == k as real * n as real;
  }

  // -------------------------------------------------------- grade breakdown

  /** The grades that occur on the roster. */
  function Grades(resources: seq<ProjectResource>): set<string>
  {
    if resources == [] then {}
    else Grades(resources[..|resources| - 1]) + {resources[|resources| - 1].grade}
  }

  lemma {:induction false} GradesMeaning(resources: seq<ProjectResource>, g: string)
    ensures g in Grades(resources) <==> exists i :: 0 <= i < |resources| && resources[i].grade == g
  {
    if resources != [] {
      var init := resources[..|resources| - 1];
      GradesMeaning(init, g);
      if g in Grades(init) {
        var i :| 0 <= i < |init| && init[i].grade == g;
        assert resources[i].grade == g;
      }
    }
  }

  /** The number of roster entries with grade `g`. */
  function GradeCount(resources: seq<ProjectResource>, g: string): (n: nat)
    ensures n <= |resources|
    ensures n > 0 <==> g in Grades(resources)
  {
    if resources == [] then 0
    else
      GradeCount(resources[..|resources| - 1], g) + if resources[|resources| - 1].grade == g then 1 else 0
  }

  /** The sum of the values of a map (the order of summation does not matter). */
  ghost function SumValues(m: map<string, nat>): nat
    decreases |m|
  {
    if m == map[] then 0
    else
      var k :| k in m;
      m[k] + SumValues(m - {k})
  }

  /** Any key may be taken out first. */
  lemma {:induction false} SumValuesRemove(m: map<string, nat>, k: string)
    requires k in m
    ensures SumValues(m) == m[k] + SumValues(m - {k})
    decreases |m|
  {
    var j :| j in m && SumValues(m) == m[j] + SumValues(m - {j});
    if j != k {
      SumValuesRemove(m - {j}, k);
      SumValuesRemove(m - {k}, j);
      assert m - {j} - {k} == m - {k} - {j};
    }
  }

  /** The values of a grade histogram add up to the roster size. */
  lemma {:induction false} HistogramTotal(resources: seq<ProjectResource>, m: map<string, nat>)
    requires m.Keys == Grades(resources)
    requires forall g :: g in m ==> m[g] == GradeCount(resources, g)
    ensures SumValues(m) == |resources|
    decreases |resources|
  {
    if resources == [] {
      assert m == map[];
    } else {
      var init, g := resources[..|resources| - 1], resources[|resources| - 1].grade;
      assert m[g] == GradeCount(init, g) + 1;
      var m0 := if m[g] == 1 then m - {g} else m[g := m[g] - 1];
      assert m0.Keys == Grades(init);
      HistogramTotal(init, m0);
      SumValuesRemove(m, g);
      if m[g] != 1 {
        SumValuesRemove(m0, g);
        assert m - {g} == m0 - {g};
      }
    }
  }

  /** `gradeBreakdown`: one pass over the roster, incrementing the counter of each entry's grade. */
  method GradeBreakdown(resources: seq<ProjectResource>) returns (counts: map<string, nat>)
    ensures counts.Keys == Grades(resources)
    ensures forall g :: g in counts ==> counts[g] == GradeCount(resources, g) && counts[g] >= 1
    ensures SumValues(counts) == |resources|
  {
    counts := map[];
    for i := 0 to |resources|
      invariant counts.Keys == Grades(resources[..i])
      invariant forall g :: g in counts ==> counts[g] == GradeCount(resources[..i], g)
    {
      var grade := resources[i].grade;
      assert resources[..i + 1][..i] == resources[..i];
      counts := counts[grade := (if grade in counts then counts[grade] else 0) + 1];
    }
    assert resources[..|resources|] == resources;
    HistogramTotal(resources, counts);
  }

  // ----------------------------------------------------------- period label

  /** The values of the period selector. */
  const PeriodOptions: seq<string> := ["current", "next-week", "next-month", "next-quarter"]

  /** The captions the selector shows for those values, in the same order. */
  const PeriodCaptions: seq<string> := ["Current Week", "Next Week", "Next Month", "Next Quarter"]

  /** The caption of the allocation table for the selected period. */
  function PeriodLabel(period: string): (caption: string)
    ensures caption in {"Current Week", "Next Week", "Next Month", "Next Quarter"}
  {
    if period == "current" then "Current Week"
    else if period == "next-week" then "Next Week"
    else if period == "next-month" then "Next Month"
    else "Next Quarter"
  }

  /** Different selector values get different captions. */
  lemma PeriodLabelInjective(p: string, q: string)
    requires p in PeriodOptions && q in PeriodOptions
    requires PeriodLabel(p) == PeriodLabel(q)
    ensures p == q
  {
  }

  /** The table caption of each selector value is the caption the selector shows for it. */
  lemma PeriodLabelMatchesSelector(i: int)
    requires 0 <= i < |PeriodOptions|
    ensures PeriodLabel(PeriodOptions[i]) == PeriodCaptions[i]
  {
  }

  /** Unknown values read as the quarter. */
  lemma PeriodLabelDefault(period: string)
    requires period != "current" && period != "next-week" && period != "next-month"
    ensures PeriodLabel(period) == "Next Quarter"
    ensures PeriodLabel(period) == PeriodLabel("next-quarter")
  {
  }
}
