# Resource-utilisation dashboard: a Dafny model of its data rules

The dashboard shows how the people of four offices (New York, San Francisco,
London, Singapore) and their aggregate ("all") split into billable, internal and
bench work, forecasts those rates, and lists resources and projects with filters
and counters. This project models the logic behind those screens:

- `mock_data.dfy` (module `MockData`): the seeded location table and its
  arithmetic invariants, the location lookup with its fallback to the aggregate
  row, the forecast generator (a counted loop that appends one point per period)
  and the three-way health classifier.
- `all_resources.dfy` (`AllResources`): the directory's four "all"-or-equal
  filters, the in-place sort of the filtered rows (an insertion sort on an
  `array`), the header-click sort toggle, the status tally (a loop over three
  counters), the role and grade option lists, and the "Clear filters" button.
- `available_resources.dfy` (`AvailableResources`): the search, job-family,
  skill and availability filters, the skill-chip toggle, the filter reset and
  the hours total.
- `resource_planning.dfy` (`ResourcePlanning`): the roster's hours total and
  zero-safe average, the grade histogram (a loop updating a map) and the period
  caption.
- `billable_projects.dfy` (`BillableProjects`): the project list with its
  fallback, the back link, the status badge and the per-status counts.
- `index_page.dfy` (`IndexPage`): the rate and utilisation arithmetic and the
  per-office health badge, proved to agree with the health classifier.
- `text_order.dfy`, `sums.dfy`, `wrappers.dfy`: string order, lower-casing and
  substring search; `reduce` as a left fold beside a reference sum; `Option`
  and JavaScript's `param || fallback` on an optional string.

The same `find(...) || locations[0]` lookup appears in `src/lib/mockData.ts:26`
and `src/pages/Index.tsx:18-21` (`MockData.FindLocation`), and with a route
parameter that may be absent in `src/pages/BillableProjects.tsx:12-15`,
`src/pages/AvailableResources.tsx:26` and `src/pages/ResourcePlanning.tsx:16-19`
(`MockData.LocationFor`).

The location rows satisfy `billable + internal + bench == totalResources`
exactly (`src/lib/mockData.ts:18-22`). The forecast labels each point with a
month name, cycling from the current month (`src/lib/mockData.ts:28-32`); a
later, week-based revision of the data module is not part of this model.

Generated data whose generators are not part of this model (`getAllResources`,
`getAvailableResources`, `getProjectResources`,
`billableProjectsByLocation`) are parameters: every property holds for any
sequence they might return, and for any table whose keys are ordinary
location ids and that holds the key looked up or the "all" key. Keys that name members every JavaScript object inherits
(`constructor`, `toString`, `__proto__`, ...) are not modelled; see "Left out".

## Model

| member | source | states |
|---|---|---|
| `MockData.EveryRowBalances` | src/lib/mockData.ts:17-23 | every location row's billable, internal and bench counts add up to its positive total |
| `MockData.AllRowIsColumnSum` | src/lib/mockData.ts:18-22 | the first row is "all", and each of its four counts is the sum of that column over the four offices |
| `MockData.FindById` | src/lib/mockData.ts:26 | `find` yields a row of the table carrying the id, and misses exactly when no row carries it |
| `MockData.FindByIdIsFirst` | src/lib/mockData.ts:26 | a hit is the first row carrying the id: no earlier row carries it |
| `MockData.FindLocation` | src/lib/mockData.ts:26 | the lookup never fails: it yields a balanced table row with that id, or the "all" row when no row has the id |
| `MockData.LocationFor` | src/pages/BillableProjects.tsx:12-15 | an absent route parameter yields the "all" row; a present one is looked up as above |
| `MockData.Clamp` | src/lib/mockData.ts:35-36 | `min(hi, max(lo, x))` lies in [lo, hi], is `x` inside the range and the nearer bound outside it |
| `MockData.MonthLabelsCycle` | src/lib/mockData.ts:29-32 | the label of point i+1 is the month after that of point i, and labels repeat every twelve points |
| `MockData.ForecastPointAt` | src/lib/mockData.ts:32-44 | for any random draw, billable lies in [65, 95], internal in [5, 20], bench in [-15, 30], and the three sum to exactly 100 |
| `MockData.GenerateForecastData` | src/lib/mockData.ts:25-48 | returns max(months, 0) points in loop order, point i built from draw i and labelled with month (currentMonth + i) mod 12, each within the rate bounds and summing to 100 |
| `MockData.GetHealthStatus` | src/lib/mockData.ts:50-61 | healthy iff billable >= 80 and utilisation >= 90; warning iff not healthy and billable >= 70 and utilisation >= 80; critical iff billable < 70 or utilisation < 80; the message is the status's fixed message |
| `MockData.HealthMonotone` | src/lib/mockData.ts:54-60 | raising either rate never makes the status worse |
| `MockData.StatusMessagesDistinct` | src/lib/mockData.ts:55-59 | the three messages differ, so the message identifies the status |
| `TextOrder.Compare` | src/pages/AllResources.tsx:40 | the comparison is -1, 0 or 1, zero exactly on equal strings, and non-positive exactly when the first string sorts first |
| `TextOrder.Lower` | src/pages/AvailableResources.tsx:32-33 | lower-casing keeps the length and lowers each ASCII letter |
| `AllResources.FilterResources` | src/pages/AllResources.tsx:28-34 | the filtered list is no longer than the input and every element matches |
| `AllResources.FilterMultiset` | src/pages/AllResources.tsx:28-34 | the filter keeps each matching row as often as it occurs and drops every other row |
| `AllResources.FilterMembership` | src/pages/AllResources.tsx:29-32 | a row is shown iff it is in the list and each of role, grade, location and status equals its selector or the selector is "all" |
| `AllResources.NoFiltersKeepsAll` | src/pages/AllResources.tsx:15-18 | with every selector at its initial "all" the filter returns the whole list unchanged |
| `AllResources.ShowClearFilters` | src/pages/AllResources.tsx:171 | the clear button shows iff some selector differs from "all" |
| `AllResources.ClearFilters` | src/pages/AllResources.tsx:176 | after clearing, the button is hidden and the filter keeps every list unchanged |
| `AllResources.InOrderMeaning` | src/pages/AllResources.tsx:39-40 | with the comparator, "asc" means non-decreasing and "desc" non-increasing string order |
| `AllResources.SortedByAllPairs` | src/pages/AllResources.tsx:36-41 | adjacent order extends to every pair of positions |
| `AllResources.SortInPlace` | src/pages/AllResources.tsx:36-41 | after the in-place sort every adjacent pair is in comparator order and the array is a permutation of what it held |
| `AllResources.FilteredResources` | src/pages/AllResources.tsx:27-44 | the table rows are a permutation of the filtered rows, ordered on the sort field in the sort direction, and are exactly the matching rows of the list |
| `AllResources.NoFiltersPermutation` | src/pages/AllResources.tsx:27-44 | with all four selectors at "all" the table is a permutation of the whole directory |
| `AllResources.HandleSort` | src/pages/AllResources.tsx:46-53 | a header click selects that field; on the current field it flips the direction, on another field it sets ascending |
| `AllResources.HandleSortTwiceRestores` | src/pages/AllResources.tsx:47-48 | two clicks on the current field restore the sort state |
| `AllResources.HandleSortNewFieldTwice` | src/pages/AllResources.tsx:49-51 | two clicks on another field sort it descending |
| `AllResources.FirstHeaderClick` | src/pages/AllResources.tsx:19-20 | the page starts sorted by name ascending, so a first click on "Name" sorts descending and on any other header sorts it ascending |
| `AllResources.CountStatus` | src/pages/AllResources.tsx:62-68 | a status count never exceeds the number of resources |
| `AllResources.KnownStatusesAddUp` | src/pages/AllResources.tsx:62-68 | when every status is billable, internal or bench the three counts sum to the list length |
| `AllResources.CountStatusIsFilterSize` | src/pages/AllResources.tsx:32 | a status count equals the number of rows the status filter shows for that status |
| `AllResources.CountStatuses` | src/pages/AllResources.tsx:62-68 | the loop's three counters equal the per-status counts and, with only known statuses, sum to the list length |
| `AllResources.Dedup` | src/pages/AllResources.tsx:24-25 | `new Set` keeps exactly the values present, without duplicates |
| `AllResources.UniqueSorted` | src/pages/AllResources.tsx:24-25 | the de-duplicated, sorted list contains exactly the values given, without duplicates, strictly increasing |
| `AllResources.FieldOptions` | src/pages/AllResources.tsx:24-25 | the role (or grade) options are exactly the roles (grades) some resource has, without duplicates, strictly increasing |
| `AvailableResources.SearchMeaning` | src/pages/AvailableResources.tsx:32-35 | the search passes iff the term is empty or its lower-cased form occurs in the lower-cased name or role |
| `AvailableResources.AvailabilityBands` | src/pages/AvailableResources.tsx:51-55 | Full-time keeps hours >= 40, Part-time [20, 40), Limited < 20, All everything |
| `AvailableResources.AvailabilityBandsPartition` | src/pages/AvailableResources.tsx:52-54 | every hours value falls in exactly one of the three bands |
| `AvailableResources.FilterAvailable` | src/pages/AvailableResources.tsx:29-59 | a resource is shown iff it is in the list and passes the search, family, skill and availability tests |
| `AvailableResources.FilterAvailableMultiset` | src/pages/AvailableResources.tsx:29-59 | every passing resource is kept as often as it occurs in the list, and no other resource is kept, so the count and hours totals see repeated rows |
| `AvailableResources.FilterKeepsOrder` | src/pages/AvailableResources.tsx:29-59 | the shown list is an order-preserving subsequence of the supplied list |
| `AvailableResources.RemoveAll` | src/pages/AvailableResources.tsx:64 | removing a skill keeps exactly the other skills |
| `AvailableResources.ToggleSkill` | src/pages/AvailableResources.tsx:61-67 | an absent skill is appended; a present one loses every copy while the others stay |
| `AvailableResources.ToggleTwiceRestores` | src/pages/AvailableResources.tsx:61-67 | toggling an absent skill twice restores the selection |
| `AvailableResources.HasActiveFilters` | src/pages/AvailableResources.tsx:77 | a filter is active iff the state differs from the cleared state |
| `AvailableResources.ClearFilters` | src/pages/AvailableResources.tsx:69-75 | after clearing no filter is active and every resource is shown |
| `AvailableResources.TotalHours` | src/pages/AvailableResources.tsx:110 | the total is the sum of available hours over the shown resources, non-negative when each is |
| `Sums.ReduceIsSum` | src/pages/AvailableResources.tsx:110 | the `reduce` left fold from an accumulator equals that accumulator plus the reference sum |
| `ResourcePlanning.TotalHours` | src/pages/ResourcePlanning.tsx:23 | the total is the sum of weekly hours over the roster, 0 for an empty roster |
| `ResourcePlanning.AvgHours` | src/pages/ResourcePlanning.tsx:24 | the average is 0 for an empty roster and otherwise times the roster size gives the total |
| `ResourcePlanning.AvgHoursBounds` | src/pages/ResourcePlanning.tsx:24 | when every entry's hours lie in [lo, hi] so does the average |
| `ResourcePlanning.GradesMeaning` | src/pages/ResourcePlanning.tsx:26-32 | a grade is in the grade set iff some roster entry has it |
| `ResourcePlanning.GradeCount` | src/pages/ResourcePlanning.tsx:29 | a grade's count is at most the roster size and positive iff the grade occurs |
| `ResourcePlanning.HistogramTotal` | src/pages/ResourcePlanning.tsx:26-32 | a histogram keyed by the grades present with the grade counts as values sums to the roster size |
| `ResourcePlanning.GradeBreakdown` | src/pages/ResourcePlanning.tsx:26-32 | the loop's map has exactly the grades present as keys, each mapped to its count (at least 1), and its values sum to the roster size |
| `ResourcePlanning.PeriodLabel` | src/pages/ResourcePlanning.tsx:128 | the caption is one of the four period captions |
| `ResourcePlanning.PeriodLabelInjective` | src/pages/ResourcePlanning.tsx:78-81 | the four selector values get four different captions |
| `ResourcePlanning.PeriodLabelMatchesSelector` | src/pages/ResourcePlanning.tsx:78-81 | each of the four selector values gets, in the table caption, the caption the selector shows for it ("current" reads "Current Week", and so on) |
| `ResourcePlanning.PeriodLabelDefault` | src/pages/ResourcePlanning.tsx:128 | any value other than the first three reads "Next Quarter", the caption of "next-quarter" |
| `BillableProjects.ProjectsFor` | src/pages/BillableProjects.tsx:17-20 | the list for a known key, else (absent, empty or unknown parameter) the "all" list; required only is that one of those two keys is present, since otherwise the page throws on `.length` |
| `BillableProjects.HeaderBillableRate` | src/pages/BillableProjects.tsx:22 | the header's billable rate of the resolved location lies in [0, 100] |
| `BillableProjects.BackUrl` | src/pages/BillableProjects.tsx:23 | the back link is "/" iff the location is absent, empty or "all" |
| `BillableProjects.BackUrlTarget` | src/pages/BillableProjects.tsx:23 | a location read back from a link rebuilds that link |
| `BillableProjects.BackUrlRoundTrip` | src/pages/BillableProjects.tsx:23 | a back link other than "/" names exactly the location it was built from |
| `BillableProjects.GetStatusConfig` | src/pages/BillableProjects.tsx:25-36 | any status other than "ending-soon" and "ramping-up" gets the configuration of "active" |
| `BillableProjects.BadgeMatchesStatusCard` | src/pages/BillableProjects.tsx:25-36 | the badge of "active", "ramping-up" and "ending-soon" reads "Active", "Ramping Up" and "Ending Soon", the captions of the cards that count those statuses (lines 80-94) |
| `BillableProjects.StatusLabelsDistinct` | src/pages/BillableProjects.tsx:27-32 | the three known statuses get three different labels |
| `BillableProjects.WithStatus` | src/pages/BillableProjects.tsx:80-95 | the filter keeps exactly the projects with that status and is no longer than the list |
| `BillableProjects.WithStatusMultiset` | src/pages/BillableProjects.tsx:80-95 | each card's list holds every project with that status as often as it occurs, and no other project, so each card's `.length` is the number of such projects |
| `BillableProjects.StatusCountsAddUp` | src/pages/BillableProjects.tsx:77-95 | the three status cards sum to at most Total Projects, and to exactly it when every status is known |
| `IndexPage.TotalUtilization` | src/pages/Index.tsx:28-31 | for a balanced row, utilisation is 100 minus the bench rate and lies in [0, 100] |
| `IndexPage.WithoutAggregate` | src/pages/Index.tsx:139 | the overview keeps exactly the rows whose id is not "all" |
| `IndexPage.OverviewRowsAreOffices` | src/pages/Index.tsx:139 | the overview lists the four offices in table order |
| `IndexPage.RowTotalUtil` | src/pages/Index.tsx:141 | a row's utilisation from summed counts equals billable rate plus internal rate |
| `IndexPage.HealthyImpliesWarning` | src/pages/Index.tsx:142-143 | a healthy row also meets the warning thresholds |
| `IndexPage.RowBadgeAgreesWithHealthStatus` | src/pages/Index.tsx:172 | a row's badge is the label of the classifier's status for that row's rates, which are the banner's rates for that location |
| `IndexPage.OfficeBadges` | src/pages/Index.tsx:139-172 | New York, San Francisco and London show Warning, Singapore Critical |

## Left out

- Rendering, CSS classes, animation delays, routing, charts, selectors, cards, the theme toggle and the React hooks: presentation only; the state the hooks hold is passed between functions as values.
- `src/pages/ResourceDetail.tsx` and `src/pages/LocationDetail.tsx`: they display data and apply a not-found guard; they are not part of this model, nor is the project-not-found guard and back link of `src/pages/ResourcePlanning.tsx:21,34-45`.
- The bodies of `getAllResources`, `getAvailableResources`, `getProjectResources` and `billableProjectsByLocation` are not part of this model; their results are arbitrary inputs. `getProjectById` is not part of this model either; it only feeds the project-not-found guard, which is left out above.
- `Math.random()` and `new Date().getMonth()`: the draws and the current month are inputs of `GenerateForecastData`.
- MockData.GenerateForecastData: the stored values are the unrounded rates; `Math.round(x * 10) / 10`, and with it the "sum is 100 within 0.1" of rounded values, is not modelled (no floating point).
- MockData.GetHealthStatus: rates are exact reals, not IEEE doubles; `toFixed` formatting is left out everywhere.
- TextOrder.Compare: `localeCompare` is locale-dependent; it is modelled as lexicographic order on Unicode scalar values.
- AllResources.UniqueSorted: the default `sort()` compares UTF-16 code units, while the model compares Unicode scalar values; the two orders agree on strings without characters above U+FFFF and can differ otherwise (U+1F600 sorts before U+FF21 in JavaScript, after it here). The same holds for AllResources.FieldOptions.
- BillableProjects.ProjectsFor: `billableProjectsByLocation` is a plain JavaScript object, and the model treats it as a map. A route parameter naming a member every object inherits (`constructor`, `toString`, `valueOf`, `__proto__`) finds that member instead of missing. The member is truthy, so the "all" fallback does not apply, and the page then throws at `projects.filter`. The model does not capture this and gives such keys the "all" list like any unknown key.
- ResourcePlanning.GradeBreakdown: the histogram is a plain JavaScript object and the model treats it as a map. A grade `"__proto__"` never becomes a key, and a grade naming an inherited member (`constructor`, `toString`, ...) starts from that member instead of 0, so its entry becomes a string rather than a count. The model treats every grade string as an ordinary key.
- TextOrder.Lower: `toLowerCase` is modelled on ASCII letters only; Unicode case mapping is left out.
- AllResources.SortInPlace: the insertion sort is stable like the JavaScript sort, but stability is not stated as a contract.
- AllResources.CountStatuses: a status outside billable/internal/bench makes JavaScript add a `NaN` entry to the counts object; the model ignores such rows, which leaves the three shown counters unchanged.
- `parseInt` of the forecast period in `src/pages/Index.tsx:24`: the period count is an integer input.
