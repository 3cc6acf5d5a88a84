/**
 * The data module of the dashboard: the static table of office locations, the
 * forecast-series generator and the health classifier.
 */
module MockData {
  import opened Sums
  import opened Wrappers

  /** One row of the location table; the counts are numbers of people. */
  datatype Location = Location(
    id: string,
    name: string,
    totalResources: nat,
    billable: nat,
    internal: nat,
    bench: nat)

  /** The location table; the first row aggregates the four offices. */
  const Locations: seq<Location> := [
    Location("all", "All Locations", 450, 320, 85, 45),
    Location("nyc", "New York", 150, 110, 25, 15),
    Location("sf", "San Francisco", 120, 88, 22, 10),
    Location("london", "London", 100, 72, 20, 8),
    Location("singapore", "Singapore", 80, 50, 18, 12)
  ]

  /** A row whose billable, internal and bench parts add up to its total. */
  predicate PartsSum(l: Location)
  {
    l.billable + l.internal + l.bench == l.totalResources
  }

  lemma {:induction false} EveryRowBalances()
    ensures forall i :: 0 <= i < |Locations| ==> PartsSum(Locations[i]) && Locations[i].totalResources > 0
  {
  }

  /** Every column of the "all" row is the sum of that column over the four offices. */
  lemma AllRowIsColumnSum()
    ensures Locations[0].id == "all"
    ensures Locations[0].totalResources == Sum(Locations[1..], (l: Location) => l.totalResources as int)
    ensures Locations[0].billable == Sum(Locations[1..], (l: Location) => l.billable as int)
    ensures Locations[0].internal == Sum(Locations[1..], (l: Location) => l.internal as int)
    ensures Locations[0].bench == Sum(Locations[1..], (l: Location) => l.bench as int)
  {
    var offices := Locations[1..];
    SumOfFour(offices, (l: Location) => l.totalResources as int);
    SumOfFour(offices, (l: Location) => l.billable as int);
    SumOfFour(offices, (l: Location) => l.internal as int);
    SumOfFour(offices, (l: Location) => l.bench as int);
  }

  lemma SumOfFour(s: seq<Location>, f: Location -> int)
    requires |s| == 4
    ensures Sum(s, f) == f(s[0]) + f(s[1]) + f(s[2]) + f(s[3])
  {
    var s1, s2, s3 := s[1..], s[1..][1..], s[1..][1..][1..];
    assert Sum(s3, f) == f(s[3]) + Sum(s3[1..], f) && s3[1..] == [];
    assert Sum(s2, f) == f(s[2]) + Sum(s3, f);
    assert Sum(s1, f) == f(s[1]) + Sum(s2, f);
  }

  /** `table.find(l => l.id === id)`: the first row carrying `id`, if any. */
  function FindById(table: seq<Location>, id: string): (r: Option<Location>)
    ensures r.Some? ==> r.value in table && r.value.id == id
    ensures r.None? <==> forall l :: l in table ==> l.id != id
  {
    if table == [] then None
    else if table[0].id == id then Some(table[0])
    else FindById(table[1..], id)
  }

  /** A hit is the first row carrying the id: no earlier row carries it. */
  lemma {:induction false} FindByIdIsFirst(table: seq<Location>, id: string)
    ensures FindById(table, id).Some? ==>
      exists i :: 0 <= i < |table| && table[i] == FindById(table, id).value && forall j :: 0 <= j < i ==> table[j].id != id
  {
    if table != [] && table[0].id != id && FindById(table[1..], id).Some? {
      FindByIdIsFirst(table[1..], id);
      var i :| 0 <= i < |table| - 1 && table[1..][i] == FindById(table[1..], id).value
        && forall j :: 0 <= j < i ==> table[1..][j].id != id;
      assert table[i + 1] == FindById(table, id).value && forall j :: 0 <= j < i + 1 ==> table[j].id != id;
    } else if table != [] && table[0].id == id {
      assert table[0] == FindById(table, id).value;
    }
  }

  /** `locations.find(l => l.id === id) || locations[0]`: never fails. */
  function FindLocation(id: string): (l: Location)
    ensures l in Locations && l.totalResources > 0 && PartsSum(l)
    ensures l.id == id || (l == Locations[0] && forall k :: k in Locations ==> k.id != id)
  {
    EveryRowBalances();
    match FindById(Locations, id)
    case Some(found) => found
    case None => Locations[0]
  }

  /**
   * `locations.find(l => l.id === locationId) || locations[0]` where `locationId`
   * is a route parameter that may be absent (no row has an absent id).
   */
  function LocationFor(locationId: Option<string>): (l: Location)
    ensures l in Locations && l.totalResources > 0 && PartsSum(l)
    ensures locationId.None? ==> l == Locations[0]
    ensures locationId.Some? ==> l == FindLocation(locationId.value)
  {
    match locationId
    case None => Locations[0]
    case Some(id) => FindLocation(id)
  }

  // ---------------------------------------------------------------- forecast

  datatype ForecastPoint = ForecastPoint(month: string, billable: real, internal: real, bench: real)

  /**
   * The two random draws of one loop iteration: `(Math.random() - 0.5) * 10` for
   * the billable rate and `(Math.random() - 0.5) * 5` for the internal rate. The
   * generator's guarantees hold whatever reals they are.
   */
  datatype Draw = Draw(billableVariance: real, internalVariance: real)

  const MonthNames: seq<string> :=
    ["Jan", "Feb", "Mar", "Apr", "May", "Jun", "Jul", "Aug", "Sep", "Oct", "Nov", "Dec"]

  /** `part / total * 100`. */
  function Percent(part: nat, total: nat): real
    requires total > 0
  {
    part as real / total as real * 100.0
  }

  /** Percentages of one total add up like the parts do. */
  lemma PercentAdd(a: nat, b: nat, total: nat)
    requires total > 0
    ensures Percent(a, total) + Percent(b, total) == Percent(a + b, total)
  {
    var t := total as real;
    assert a as real / t + b as real / t == (a as real + b as real) / t;
  }

  lemma PercentWhole(total: nat)
    requires total > 0
    ensures Percent(total, total) == 100.0
  {
  }

  /** `Math.min(hi, Math.max(lo, x))`. */
  function Clamp(lo: real, hi: real, x: real): (r: real)
    requires lo <= hi
    ensures lo <= r <= hi
    ensures lo <= x <= hi ==> r == x
    ensures x < lo ==> r == lo
    ensures hi < x ==> r == hi
  {
    if hi < (if x < lo then lo else x) then hi else if x < lo then lo else x
  }

  /** The month name of point `i` of a series that starts in month `currentMonth`. */
  function MonthLabel(currentMonth: nat, i: nat): string
  {
    MonthNames[(currentMonth + i) % 12]
  }

  /** Month labels advance one month per point and repeat every twelve points. */
  lemma MonthLabelsCycle(currentMonth: nat, i: nat)
    ensures MonthLabel(currentMonth, i + 1) == MonthNames[((currentMonth + i) % 12 + 1) % 12]
    ensures MonthLabel(currentMonth, i + 12) == MonthLabel(currentMonth, i)
  {
    var k := currentMonth + i;
    var q, r := k / 12, k % 12;
    assert k == 12 * q + r;
    if r + 1 < 12 {
      ModOfDecomposition(k + 1, q, r + 1);
    } else {
      ModOfDecomposition(k + 1, q + 1, 0);
    }
    ModOfDecomposition(k + 12, q + 1, r);
  }

  lemma ModOfDecomposition(k: int, q: int, r: int)
    requires k == 12 * q + r && 0 <= r < 12
    ensures k % 12 == r
  {
  }

  /** The unclamped base rates of a location: its billable and internal shares in percent. */
  datatype BaseRates = BaseRates(billable: real, internal: real)

  function BaseRatesOf(location: Location): BaseRates
    requires location.totalResources > 0
  {
    BaseRates(Percent(location.billable, location.totalResources),
              Percent(location.internal, location.totalResources))
  }

  /** One iteration of the generator's loop, before rounding to one decimal. */
  function ForecastPointAt(base: BaseRates, currentMonth: nat, i: nat, d: Draw): (p: ForecastPoint)
    ensures p.month == MonthLabel(currentMonth, i)
    ensures 65.0 <= p.billable <= 95.0 && 5.0 <= p.internal <= 20.0
    ensures p.billable + p.internal + p.bench == 100.0
    ensures -15.0 <= p.bench <= 30.0
  {
    var billableRate := Clamp(65.0, 95.0, base.billable + d.billableVariance);
    var internalRate := Clamp(5.0, 20.0, base.internal + d.internalVariance);
    var benchRate := 100.0 - billableRate - internalRate;
    ForecastPoint(MonthLabel(currentMonth, i), billableRate, internalRate, benchRate)
  }

  /**
   * `generateForecastData(months, locationId)`. The clock (`currentMonth`, as
   * `getMonth()` gives it) and the random draws (one per iteration) are inputs.
   */
  method GenerateForecastData(months: int, locationId: string, currentMonth: nat, draws: seq<Draw>)
    returns (data: seq<ForecastPoint>)
    requires currentMonth < 12
    requires months <= |draws|
    ensures |data| == if months > 0 then months else 0
    ensures forall i :: 0 <= i < |data| ==>
      data[i] == ForecastPointAt(BaseRatesOf(FindLocation(locationId)), currentMonth, i, draws[i])
    ensures forall i :: 0 <= i < |data| ==>
      && data[i].month == MonthNames[(currentMonth + i) % 12]
      && 65.0 <= data[i].billable <= 95.0
      && 5.0 <= data[i].internal <= 20.0
      && data[i].billable + data[i].internal + data[i].bench == 100.0
  {
    var location := FindLocation(locationId);
    var base := BaseRatesOf(location);
    data := [];
    var i := 0;
    while i < months
      invariant 0 <= i <= if months > 0 then months else 0
      invariant |data| == i
      invariant forall k :: 0 <= k < i ==> data[k] == ForecastPointAt(base, currentMonth, k, draws[k])
    {
      var point := ForecastPointAt(base, currentMonth, i, draws[i]);
      data := data + [point];
      i := i + 1;
    }
    forall k | 0 <= k < |data|
      ensures data[k].month == MonthNames[(currentMonth + k) % 12]
      ensures 65.0 <= data[k].billable <= 95.0 && 5.0 <= data[k].internal <= 20.0
      ensures data[k].billable + data[k].internal + data[k].bench == 100.0
    {
      var p := ForecastPointAt(base, currentMonth, k, draws[k]);
      assert data[k] == p;
    }
  }

  // ------------------------------------------------------------------ health

  datatype HealthStatus = Healthy | Warning | Critical
  datatype HealthReport = HealthReport(status: HealthStatus, message: string)

  /** The one fixed message shown with each status. */
  function StatusMessage(s: HealthStatus): string
  {
    match s
    case Healthy => "All metrics within target"
    case Warning => "Utilization below optimal levels"
    case Critical => "Immediate attention required"
  }

  /** `getHealthStatus(billableRate, totalUtilization)`. */
  function GetHealthStatus(billableRate: real, totalUtilization: real): (h: HealthReport)
    ensures h.status == Healthy <==> billableRate >= 80.0 && totalUtilization >= 90.0
    ensures h.status == Warning <==>
      !(billableRate >= 80.0 && totalUtilization >= 90.0) && billableRate >= 70.0 && totalUtilization >= 80.0
    ensures h.status == Critical <==> billableRate < 70.0 || totalUtilization < 80.0
    ensures h.message == StatusMessage(h.status)
  {
    if billableRate >= 80.0 && totalUtilization >= 90.0 then
      HealthReport(Healthy, "All metrics within target")
    else if billableRate >= 70.0 && totalUtilization >= 80.0 then
      HealthReport(Warning, "Utilization below optimal levels")
    else
      HealthReport(Critical, "Immediate attention required")
  }

  /** How bad a status is: healthy 0, warning 1, critical 2. */
  function Severity(s: HealthStatus): nat
  {
    match s
    case Healthy => 0
    case Warning => 1
    case Critical => 2
  }

  /** Raising either rate never makes the status worse. */
  lemma HealthMonotone(b1: real, u1: real, b2: real, u2: real)
    requires b1 <= b2 && u1 <= u2
    ensures Severity(GetHealthStatus(b2, u2).status) <= Severity(GetHealthStatus(b1, u1).status)
  {
  }

  /** The message alone tells the status apart. */
  lemma StatusMessagesDistinct(s: HealthStatus, t: HealthStatus)
    requires StatusMessage(s) == StatusMessage(t)
    ensures s == t
  {
  }
}
