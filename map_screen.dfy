/** The full-screen map: the reports and tasks it shows under each filter, the stats card,
    where a marker press leads, the legend toggle and the jump to a searched place. */
module MapScreen {
  import opened Common
  import opened Records
  import opened OpenStreetMapWebView

  /** A report as a map item: tagged 'report', its location's coordinate copied out. */
  function ReportItem(r: Report): MapItem {
    MapItem("report", r.id, r.title, r.description, r.status, CoordinateOf(r.location))
  }

  /** A task as a map item: tagged 'task', its location's coordinate copied out. */
  function TaskItem(t: Task): MapItem {
    MapItem("task", t.id, t.title, t.description, t.status, CoordinateOf(t.location))
  }

  function ReportItems(rs: seq<Report>): (items: seq<MapItem>)
    ensures |items| == |rs| && forall i :: 0 <= i < |rs| ==> items[i] == ReportItem(rs[i])
  {
    seq(|rs|, i requires 0 <= i < |rs| => ReportItem(rs[i]))
  }

  function TaskItems(ts: seq<Task>): (items: seq<MapItem>)
    ensures |items| == |ts| && forall i :: 0 <= i < |ts| ==> items[i] == TaskItem(ts[i])
  {
    seq(|ts|, i requires 0 <= i < |ts| => TaskItem(ts[i]))
  }

  predicate HasStatus(status: string, t: Task) { t.status == status }

  /** The tasks with the given status, in their original order. */
  function TasksWithStatus(ts: seq<Task>, status: string): (r: seq<Task>)
    ensures forall i :: 0 <= i < |r| ==> r[i] in ts && r[i].status == status
    ensures forall j :: 0 <= j < |ts| && ts[j].status == status ==> ts[j] in r
  {
    Filter(ts, t => HasStatus(status, t))
  }

  /** `getFilteredData` over the given reports and tasks. */
  function FilteredData(filter: string, rs: seq<Report>, ts: seq<Task>): (items: seq<MapItem>)
    ensures filter == "reports" ==> |items| == |rs|
    ensures filter in {"active", "completed"} ==> |items| <= |ts|
    ensures filter !in {"reports", "active", "completed"} ==> |items| == |rs| + |ts|
  {
    match filter
    case "reports" => ReportItems(rs)
    case "active" => TaskItems(TasksWithStatus(ts, "active"))
    case "completed" => TaskItems(TasksWithStatus(ts, "completed"))
    case _ => ReportItems(rs) + TaskItems(ts)
  }

  /** The 'reports' filter lists every report, in order, as a report item at its location. */
  lemma ReportsFilter(rs: seq<Report>, ts: seq<Task>)
    ensures |FilteredData("reports", rs, ts)| == |rs|
    ensures forall i :: 0 <= i < |rs| ==>
              var item := FilteredData("reports", rs, ts)[i];
              item.itemType == "report" && item.id == rs[i].id && item.status == rs[i].status
              && item.coordinate == Coordinate(rs[i].location.latitude, rs[i].location.longitude)
  {
  }

  /** Items of the tasks listed by a status filter: exactly the tasks with that status. */
  lemma {:induction false} StatusFilterExact(ts: seq<Task>, status: string)
    ensures forall i :: 0 <= i < |TaskItems(TasksWithStatus(ts, status))| ==>
              TaskItems(TasksWithStatus(ts, status))[i].itemType == "task"
              && TaskItems(TasksWithStatus(ts, status))[i].status == status
    ensures forall j :: 0 <= j < |ts| && ts[j].status == status ==>
              TaskItem(ts[j]) in TaskItems(TasksWithStatus(ts, status))
  {
    var f := TasksWithStatus(ts, status);
    forall i | 0 <= i < |f| ensures f[i].status == status {
      assert HasStatus(status, f[i]);
    }
    forall j | 0 <= j < |ts| && ts[j].status == status
      ensures TaskItem(ts[j]) in TaskItems(f)
    {
      assert HasStatus(status, ts[j]);
      var k :| 0 <= k < |f| && f[k] == ts[j];
      assert TaskItems(f)[k] == TaskItem(ts[j]);
    }
  }

  /** The 'active' and 'completed' filters list exactly the tasks with that status, never a
      report. */
  lemma StatusFilters(rs: seq<Report>, ts: seq<Task>, filter: string)
    requires filter == "active" || filter == "completed"
    ensures forall i :: 0 <= i < |FilteredData(filter, rs, ts)| ==>
              FilteredData(filter, rs, ts)[i].itemType == "task"
              && FilteredData(filter, rs, ts)[i].status == filter
    ensures forall j :: 0 <= j < |ts| && ts[j].status == filter ==>
              TaskItem(ts[j]) in FilteredData(filter, rs, ts)
    ensures |FilteredData(filter, rs, ts)| == Count(ts, t => HasStatus(filter, t))
  {
    StatusFilterExact(ts, filter);
  }

  /** The status filters keep the tasks' order: the items of a concatenation of task lists
      are the items of each part, in order. */
  lemma StatusFilterConcat(filter: string, rs: seq<Report>, a: seq<Task>, b: seq<Task>)
    requires filter == "active" || filter == "completed"
    ensures FilteredData(filter, rs, a + b) == FilteredData(filter, rs, a) + FilteredData(filter, rs, b)
  {
    FilterConcat(a, b, t => HasStatus(filter, t));
    TaskItemsConcat(TasksWithStatus(a, filter), TasksWithStatus(b, filter));
  }

  /** Together with `StatusFilterConcat`, this pins a status filter down: a single task gives
      its item exactly when it has the status. */
  lemma StatusFilterSingle(filter: string, rs: seq<Report>, t: Task)
    requires filter == "active" || filter == "completed"
    ensures FilteredData(filter, rs, []) == []
    ensures FilteredData(filter, rs, [t]) == if t.status == filter then [TaskItem(t)] else []
  {
  }

  lemma TaskItemsConcat(a: seq<Task>, b: seq<Task>)
    ensures TaskItems(a + b) == TaskItems(a) + TaskItems(b)
  {
    assert forall i :: 0 <= i < |a| ==> (a + b)[i] == a[i];
    assert forall j :: 0 <= j < |b| ==> (a + b)[|a| + j] == b[j];
  }

  /** Any other filter, 'all' included, lists all reports and then all tasks, in order. */
  lemma DefaultFilter(filter: string, rs: seq<Report>, ts: seq<Task>)
    requires filter !in {"reports", "active", "completed"}
    ensures |FilteredData(filter, rs, ts)| == |rs| + |ts|
    ensures forall i :: 0 <= i < |rs| ==> FilteredData(filter, rs, ts)[i] == ReportItem(rs[i])
    ensures forall j :: 0 <= j < |ts| ==> FilteredData(filter, rs, ts)[|rs| + j] == TaskItem(ts[j])
  {
    assert FilteredData(filter, rs, ts) == ReportItems(rs) + TaskItems(ts);
  }

  /** Every item listed is tagged 'report' or 'task', and never both. */
  lemma {:induction false} ItemsTagged(filter: string, rs: seq<Report>, ts: seq<Task>)
    ensures forall i :: 0 <= i < |FilteredData(filter, rs, ts)| ==>
              FilteredData(filter, rs, ts)[i].itemType in {"report", "task"}
  {
    var d := FilteredData(filter, rs, ts);
    if filter == "active" || filter == "completed" {
      StatusFilterExact(ts, filter);
    } else if filter != "reports" {
      DefaultFilter(filter, rs, ts);
    }
  }

  predicate IsReportItem(item: MapItem) { item.itemType == "report" }
  predicate IsTaskItem(item: MapItem) { item.itemType == "task" }

  /** The three numbers on the stats card: total items, reports and tasks. */
  function Stats(filter: string, rs: seq<Report>, ts: seq<Task>): (r: (nat, nat, nat))
    ensures r.0 == |FilteredData(filter, rs, ts)|
    ensures r.1 <= r.0 && r.2 <= r.0
  {
    var d := FilteredData(filter, rs, ts);
    (|d|, Count(d, IsReportItem), Count(d, IsTaskItem))
  }

  /** The stats card adds up: Total Items is Reports plus Tasks, whatever the filter. */
  lemma StatsAddUp(filter: string, rs: seq<Report>, ts: seq<Task>)
    ensures Stats(filter, rs, ts).0 == Stats(filter, rs, ts).1 + Stats(filter, rs, ts).2
  {
    var d := FilteredData(filter, rs, ts);
    ItemsTagged(filter, rs, ts);
    CountSplit(d, IsReportItem, IsTaskItem);
  }

  /** The stats card for each filter: 'reports' counts only reports, the status filters only
      the tasks with that status, and any other filter all reports and all tasks. */
  lemma StatsPerFilter(filter: string, rs: seq<Report>, ts: seq<Task>)
    ensures filter == "reports" ==> Stats(filter, rs, ts) == (|rs|, |rs|, 0)
    ensures filter in {"active", "completed"} ==>
              var n := |TasksWithStatus(ts, filter)|;
              Stats(filter, rs, ts) == (n, 0, n)
    ensures filter !in {"reports", "active", "completed"} ==> Stats(filter, rs, ts) == (|rs| + |ts|, |rs|, |ts|)
  {
    if filter == "reports" {
      StatsReports(rs, ts);
    } else if filter == "active" || filter == "completed" {
      StatsStatus(filter, rs, ts);
    } else {
      StatsDefault(filter, rs, ts);
    }
  }

  lemma StatsReports(rs: seq<Report>, ts: seq<Task>)
    ensures Stats("reports", rs, ts) == (|rs|, |rs|, 0)
  {
    var d := ReportItems(rs);
    assert FilteredData("reports", rs, ts) == d;
    ReportCounts(d);
  }

  lemma StatsStatus(filter: string, rs: seq<Report>, ts: seq<Task>)
    requires filter == "active" || filter == "completed"
    ensures Stats(filter, rs, ts) == (|TasksWithStatus(ts, filter)|, 0, |TasksWithStatus(ts, filter)|)
  {
    var d := TaskItems(TasksWithStatus(ts, filter));
    assert FilteredData(filter, rs, ts) == d;
    TaskCounts(d);
  }

  lemma StatsDefault(filter: string, rs: seq<Report>, ts: seq<Task>)
    requires filter !in {"reports", "active", "completed"}
    ensures Stats(filter, rs, ts) == (|rs| + |ts|, |rs|, |ts|)
  {
    var reports, tasks := ReportItems(rs), TaskItems(ts);
    assert FilteredData(filter, rs, ts) == reports + tasks;
    MixedCounts(reports, tasks);
  }

  /** Report items followed by task items count as those reports and those tasks. */
  lemma MixedCounts(reports: seq<MapItem>, tasks: seq<MapItem>)
    requires forall i :: 0 <= i < |reports| ==> reports[i].itemType == "report"
    requires forall i :: 0 <= i < |tasks| ==> tasks[i].itemType == "task"
    ensures Count(reports + tasks, IsReportItem) == |reports|
    ensures Count(reports + tasks, IsTaskItem) == |tasks|
  {
    ReportCounts(reports);
    TaskCounts(tasks);
    FilterConcat(reports, tasks, IsReportItem);
    FilterConcat(reports, tasks, IsTaskItem);
  }

  /** Report items count as reports and not as tasks. */
  lemma ReportCounts(items: seq<MapItem>)
    requires forall i :: 0 <= i < |items| ==> items[i].itemType == "report"
    ensures Filter(items, IsReportItem) == items && Filter(items, IsTaskItem) == []
  {
    FilterAll(items, IsReportItem);
    FilterNone(items, IsTaskItem);
  }

  /** Task items count as tasks and not as reports. */
  lemma TaskCounts(items: seq<MapItem>)
    requires forall i :: 0 <= i < |items| ==> items[i].itemType == "task"
    ensures Filter(items, IsTaskItem) == items && Filter(items, IsReportItem) == []
  {
    FilterAll(items, IsTaskItem);
    FilterNone(items, IsReportItem);
  }

  /** Under 'active' or 'completed' the Reports stat is zero. */
  lemma NoReportsUnderTaskFilters(rs: seq<Report>, ts: seq<Task>, filter: string)
    requires filter == "active" || filter == "completed"
    ensures Stats(filter, rs, ts).1 == 0
  {
    var d := FilteredData(filter, rs, ts);
    StatusFilterExact(ts, filter);
    FilterNone(d, IsReportItem);
  }

  /** Where a marker press leads: a report opens an alert with its title and description
      (offering Cancel and View Details), anything else opens TaskDetails. */
  datatype PressAction = ShowReportAlert(title: string, description: string) | OpenTask(nav: Nav)

  function MarkerPressAction(item: MapItem): (a: PressAction)
    ensures a.ShowReportAlert? <==> item.itemType == "report"
    ensures a.ShowReportAlert? ==> a.title == item.title && a.description == item.description
    ensures a.OpenTask? ==> a.nav == NavigateWith("TaskDetails", item.id)
  {
    if item.itemType == "report" then ShowReportAlert(item.title, item.description)
    else OpenTask(NavigateWith("TaskDetails", item.id))
  }

  /** The region the map animates to when a searched place is chosen. */
  function LocationSelectRegion(c: Coordinate): (r: Region)
    ensures r.latitude == c.latitude && r.longitude == c.longitude
    ensures r.latitudeDelta == 0.01 && r.longitudeDelta == 0.01
  {
    Region(c.latitude, c.longitude, 0.01, 0.01)
  }

  /** The screen's own state: the selected filter and whether the legend is shown. */
  class MapScreenState {
    var selectedFilter: string
    var showLegend: bool

    constructor ()
      ensures selectedFilter == "all" && showLegend
    {
      selectedFilter := "all";
      showLegend := true;
    }

    /** `toggleLegend`: flips `showLegend` and nothing else. */
    method ToggleLegend()
      modifies this
      ensures showLegend == !old(showLegend) && selectedFilter == old(selectedFilter)
    {
      showLegend := !showLegend;
    }

    /** A tap on a filter button. */
    method SelectFilter(filter: string)
      modifies this
      ensures selectedFilter == filter && showLegend == old(showLegend)
    {
      selectedFilter := filter;
    }

    /** `handleLocationSelect`: animates the map, if it exists, to the chosen place. */
    method HandleLocationSelect(view: MapView, c: Coordinate) returns (r: Option<Region>)
      ensures r == if view.viewReady then Some(LocationSelectRegion(c)) else None
    {
      r := view.AnimateToRegion(LocationSelectRegion(c));
    }
  }

  /** Toggling the legend twice restores it. */
  method ToggleTwice(s: MapScreenState)
    modifies s
    ensures s.showLegend == old(s.showLegend) && s.selectedFilter == old(s.selectedFilter)
  {
    s.ToggleLegend();
    s.ToggleLegend();
  }
}
