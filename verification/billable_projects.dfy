/**
 * The billable-projects page of one location: the project list with its fallback,
 * the back link, the status badge configuration and the per-status counts.
 */
module BillableProjects {
  import opened Wrappers
  import opened MockData

  /**
   * A project as `billableProjectsByLocation` lists it; that table is not part
   * of this model, so it is a parameter of the page functions.
   */
  datatype BillableProject = BillableProject(
    id: string,
    name: string,
    client: string,
    resourceCount: nat,
    contribution: int,
    status: string)

  /**
   * `billableProjectsByLocation[locationId || "all"] || billableProjectsByLocation.all`.
   * The page reads `.length` of the result, so the table must hold the key looked up,
   * or else the "all" key the lookup falls back to.
   */
  function ProjectsFor(byLocation: map<string, seq<BillableProject>>, locationId: Option<string>)
    : (projects: seq<BillableProject>)
    requires OrElse(locationId, "all") in byLocation || "all" in byLocation
    ensures projects in byLocation.Values
    ensures OrElse(locationId, "all") in byLocation ==> projects == byLocation[OrElse(locationId, "all")]
    ensures OrElse(locationId, "all") !in byLocation ==> projects == byLocation["all"]
    ensures locationId.None? ==> projects == byLocation["all"]
  {
    var key := OrElse(locationId, "all");
    if key in byLocation then byLocation[key] else byLocation["all"]
  }

  /** The billable rate shown in the header, before formatting. */
  function HeaderBillableRate(locationId: Option<string>): (rate: real)
    ensures 0.0 <= rate <= 100.0
  {
    var l := LocationFor(locationId);
    Percent(l.billable, l.totalResources)
  }

  /** `backUrl`: the dashboard for a missing, empty or "all" location, else that location's page. */
  function BackUrl(locationId: Option<string>): (url: string)
    ensures url == "/" <==> locationId.None? || locationId.value == "" || locationId.value == "all"
  {
    if locationId.Some? && locationId.value != "" && locationId.value != "all" then
      "/location/" + locationId.value
    else
      "/"
  }

  const LocationPrefix: string := "/location/"

  /** Reads back the location a back link points to. */
  function BackUrlTarget(url: string): (target: Option<string>)
    ensures target.Some? ==> LocationPrefix + target.value == url
  {
    if |url| > |LocationPrefix| && url[..|LocationPrefix|] == LocationPrefix then
      Some(url[|LocationPrefix|..])
    else
      None
  }

  /** The back link names exactly the location it was built from. */
  lemma BackUrlRoundTrip(locationId: Option<string>)
    ensures BackUrlTarget(BackUrl(locationId)) ==
      if BackUrl(locationId) == "/" then None else locationId
  {
    var url := BackUrl(locationId);
    if url != "/" {
      assert url[..|LocationPrefix|] == LocationPrefix;
      assert url[|LocationPrefix|..] == locationId.value;
    }
  }

  // ----------------------------------------------------------- status badge

  datatype StatusIcon = TrendingUp | Clock | Rocket
  datatype StatusConfig = StatusConfig(labelText: string, icon: StatusIcon, className: string)

  const ActiveConfig: StatusConfig := StatusConfig("Active", TrendingUp, "bg-success/20 text-success")

  /** `getStatusConfig(status)`: three known statuses; anything else looks active. */
  function GetStatusConfig(status: string): (c: StatusConfig)
    ensures status != "ending-soon" && status != "ramping-up" ==> c == ActiveConfig
  {
    match status
    case "active" => ActiveConfig
    case "ending-soon" => StatusConfig("Ending Soon", Clock, "bg-warning/20 text-warning")
    case "ramping-up" => StatusConfig("Ramping Up", Rocket, "bg-primary/20 text-primary")
    case _ => ActiveConfig
  }

  /** The status cards above the table: each status with the caption of its card. */
  const StatusCards: seq<(string, string)> := [("active", "Active"), ("ramping-up", "Ramping Up"), ("ending-soon", "Ending Soon")]

  /** A project's badge reads the caption of the card that counts its status. */
  lemma BadgeMatchesStatusCard(i: int)
    requires 0 <= i < |StatusCards|
    ensures GetStatusConfig(StatusCards[i].0).labelText == StatusCards[i].1
  {
  }

  /** The three known statuses get three different labels. */
  lemma StatusLabelsDistinct()
    ensures GetStatusConfig("active").labelText != GetStatusConfig("ending-soon").labelText
    ensures GetStatusConfig("active").labelText != GetStatusConfig("ramping-up").labelText
    ensures GetStatusConfig("ending-soon").labelText != GetStatusConfig("ramping-up").labelText
  {
  }

  // ---------------------------------------------------------- status counts

  /** `projects.filter(p => p.status === status)`. */
  function WithStatus(projects: seq<BillableProject>, status: string): (r: seq<BillableProject>)
    ensures |r| <= |projects|
    ensures forall p :: p in r <==> p in projects && p.status == status
  {
    if projects == [] then []
    else
      var rest := WithStatus(projects[1..], status);
      assert forall p :: p in projects <==> p == projects[0] || p in projects[1..];
      if projects[0].status == status then [projects[0]] + rest else rest
  }

  /** Each card counts every project with its status, repeated rows included, and no other project. */
  lemma {:induction false} WithStatusMultiset(projects: seq<BillableProject>, status: string)
    ensures forall p :: multiset(WithStatus(projects, status))[p] == if p.status == status then multiset(projects)[p] else 0
  {
    if projects != [] {
      WithStatusMultiset(projects[1..], status);
      assert projects == [projects[0]] + projects[1..];
    }
  }

  predicate KnownStatus(status: string)
  {
    status == "active" || status == "ramping-up" || status == "ending-soon"
  }

  /** The Active, Ramping Up and Ending Soon cards add up to Total Projects when no status is unknown. */
  lemma {:induction false} StatusCountsAddUp(projects: seq<BillableProject>)
    ensures |WithStatus(projects, "active")| + |WithStatus(projects, "ramping-up")|
          + |WithStatus(projects, "ending-soon")| <= |projects|
    ensures (forall p :: p in projects ==> KnownStatus(p.status)) ==>
      |WithStatus(projects, "active")| + |WithStatus(projects, "ramping-up")|
      + |WithStatus(projects, "ending-soon")| == |projects|
  {
    if projects != [] {
      StatusCountsAddUp(projects[1..]);
      assert forall p :: p in projects[1..] ==> p in projects;
      assert projects[0] in projects;
    }
  }
}
