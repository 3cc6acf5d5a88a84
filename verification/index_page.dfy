/**
 * The dashboard page: the selected location's rates, the health banner and the
 * location-overview table with its per-row health badge.
 */
module IndexPage {
  import opened MockData

  /** `billableRate` of the banner, and `locBillableRate` of each overview row. */
  function BillableRate(l: Location): real
    requires l.totalResources > 0
  {
    Percent(l.billable, l.totalResources)
  }

  function InternalRate(l: Location): real
    requires l.totalResources > 0
  {
    Percent(l.internal, l.totalResources)
  }

  function BenchRate(l: Location): real
    requires l.totalResources > 0
  {
    Percent(l.bench, l.totalResources)
  }

  /** `totalUtilization`, the banner's second input; for a balanced row it is everything but the bench. */
  function TotalUtilization(l: Location): (u: real)
    requires l.totalResources > 0
    ensures PartsSum(l) ==> u == 100.0 - BenchRate(l)
    ensures PartsSum(l) ==> 0.0 <= u <= 100.0
  {
    PercentAdd(l.billable, l.internal, l.totalResources);
    PercentAdd(l.billable + l.internal, l.bench, l.totalResources);
    PercentWhole(l.totalResources);
    BillableRate(l) + InternalRate(l)
  }

  // -------------------------------------------------------- overview table

  /** `locations.filter(l => l.id !== "all")`. */
  function WithoutAggregate(table: seq<Location>): (rows: seq<Location>)
    ensures forall l :: l in rows <==> l in table && l.id != "all"
  {
    if table == [] then []
    else
      var rest := WithoutAggregate(table[1..]);
      assert forall l :: l in table <==> l == table[0] || l in table[1..];
      if table[0].id != "all" then [table[0]] + rest else rest
  }

  /** The overview lists the four offices in table order. */
  lemma OverviewRowsAreOffices()
    ensures WithoutAggregate(Locations) == Locations[1..]
  {
    var offices := Locations[1..];
    assert forall i :: 0 <= i < |offices| ==> offices[i].id != "all";
    NoAggregateKept(offices);
  }

  lemma {:induction false} NoAggregateKept(table: seq<Location>)
    requires forall i :: 0 <= i < |table| ==> table[i].id != "all"
    ensures WithoutAggregate(table) == table
  {
    if table != [] {
      assert forall i :: 0 <= i < |table[1..]| ==> table[1..][i] == table[i + 1];
      NoAggregateKept(table[1..]);
      assert table == [table[0]] + table[1..];
    }
  }

  /** `locTotalUtil` of a row, computed from the summed counts. */
  function RowTotalUtil(l: Location): (u: real)
    requires l.totalResources > 0
    ensures u == TotalUtilization(l)
  {
    PercentAdd(l.billable, l.internal, l.totalResources);
    Percent(l.billable + l.internal, l.totalResources)
  }

  predicate IsHealthy(l: Location)
    requires l.totalResources > 0
  {
    BillableRate(l) >= 80.0 && RowTotalUtil(l) >= 90.0
  }

  predicate IsWarning(l: Location)
    requires l.totalResources > 0
  {
    BillableRate(l) >= 70.0 && RowTotalUtil(l) >= 80.0
  }

  /** The badge text of a row. */
  function RowBadge(l: Location): string
    requires l.totalResources > 0
  {
    if IsHealthy(l) then "Healthy" else if IsWarning(l) then "Warning" else "Critical"
  }

  /** The label the health banner shows for each status. */
  function StatusLabel(s: HealthStatus): string
  {
    match s
    case Healthy => "Healthy"
    case Warning => "Warning"
    case Critical => "Critical"
  }

  lemma HealthyImpliesWarning(l: Location)
    requires l.totalResources > 0
    ensures IsHealthy(l) ==> IsWarning(l)
  {
  }

  /** A row's badge says what the health classifier says of the row's rates, and what the banner would say of that location. */
  lemma RowBadgeAgreesWithHealthStatus(l: Location)
    requires l.totalResources > 0
    ensures RowBadge(l) == StatusLabel(GetHealthStatus(BillableRate(l), RowTotalUtil(l)).status)
    ensures RowBadge(l) == StatusLabel(GetHealthStatus(BillableRate(l), TotalUtilization(l)).status)
  {
  }

  /** The badges of the four offices in the seeded table. */
  lemma OfficeBadges()
    ensures RowBadge(Locations[1]) == "Warning"
    ensures RowBadge(Locations[2]) == "Warning"
    ensures RowBadge(Locations[3]) == "Warning"
    ensures RowBadge(Locations[4]) == "Critical"
  {
  }
}
