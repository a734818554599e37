/** The home screen's map, which repeats the map screen's filtering, marker tables and
    marker-press routing in its own code. Each copy is modelled as written and shown to
    agree with the other. */
module HomeScreen {
  import opened Common
  import opened Records
  import MockData
  import OpenStreetMapWebView
  import MapScreen

  /** The home screen's own `getFilteredData`. */
  function FilteredData(filter: string, rs: seq<Report>, ts: seq<Task>): (items: seq<OpenStreetMapWebView.MapItem>)
    ensures filter == "reports" ==> |items| == |rs|
    ensures filter in {"active", "completed"} ==> |items| <= |ts|
    ensures filter !in {"reports", "active", "completed"} ==> |items| == |rs| + |ts|
  {
    match filter
    case "reports" => MapScreen.ReportItems(rs)
    case "active" => MapScreen.TaskItems(Filter(ts, (t: Task) => t.status == "active"))
    case "completed" => MapScreen.TaskItems(Filter(ts, (t: Task) => t.status == "completed"))
    case _ => MapScreen.ReportItems(rs) + MapScreen.TaskItems(ts)
  }

  /** A filter on the same status predicate, written apart, filters the same. */
  lemma {:induction false} SameStatusFilter(ts: seq<Task>, status: string)
    ensures Filter(ts, (t: Task) => t.status == status) == MapScreen.TasksWithStatus(ts, status)
  {
    if ts != [] {
      SameStatusFilter(ts[1..], status);
    }
  }

  /** The copy agrees with the map screen's for every filter value. */
  lemma SameAsMapScreen(filter: string, rs: seq<Report>, ts: seq<Task>)
    ensures FilteredData(filter, rs, ts) == MapScreen.FilteredData(filter, rs, ts)
  {
    SameStatusFilter(ts, "active");
    SameStatusFilter(ts, "completed");
  }

  /** The default branch keeps insertion order, reports before tasks. */
  lemma DefaultKeepsOrder(filter: string, rs: seq<Report>, ts: seq<Task>)
    requires filter !in {"reports", "active", "completed"}
    ensures FilteredData(filter, rs, ts)[..|rs|] == MapScreen.ReportItems(rs)
    ensures FilteredData(filter, rs, ts)[|rs|..] == MapScreen.TaskItems(ts)
  {
    var d := FilteredData(filter, rs, ts);
    assert d == MapScreen.ReportItems(rs) + MapScreen.TaskItems(ts);
  }

  /** The 'active' and 'completed' filters never yield a report. */
  lemma NoReportUnderTaskFilters(filter: string, rs: seq<Report>, ts: seq<Task>)
    requires filter == "active" || filter == "completed"
    ensures forall i :: 0 <= i < |FilteredData(filter, rs, ts)| ==>
              FilteredData(filter, rs, ts)[i].itemType != "report"
  {
    SameAsMapScreen(filter, rs, ts);
    MapScreen.StatusFilters(rs, ts, filter);
  }

  /** With the shipped data, whose tasks are active, active and upcoming, the 'completed'
      filter shows no markers. */
  lemma {:induction false} NoCompletedMarkersInShippedData()
    ensures FilteredData("completed", MockData.Reports, MockData.Tasks) == []
  {
    var ts := MockData.Tasks;
    assert forall i :: 0 <= i < |ts| ==> ts[i].status != "completed";
    FilterNone(ts, (t: Task) => t.status == "completed");
  }

  /** The home screen's own `getMarkerColor`. */
  function MarkerColor(itemType: string, status: string): (c: Color)
    ensures itemType == "report" ==> (c == Info <==> status == "converted_to_task")
    ensures itemType != "report" ==> (c == Primary <==> status == "active")
    ensures c == Gray <==>
              status !in (if itemType == "report" then {"pending", "approved", "converted_to_task"}
                          else {"active", "upcoming", "completed"})
  {
    if itemType == "report" then
      match status
      case "pending" => Warning
      case "approved" => Success
      case "converted_to_task" => Info
      case _ => Gray
    else
      match status
      case "active" => Primary
      case "upcoming" => Accent
      case "completed" => Success
      case _ => Gray
  }

  /** The colour table is the map component's, entry for entry. */
  lemma SameMarkerColor(itemType: string, status: string)
    ensures MarkerColor(itemType, status) == OpenStreetMapWebView.MarkerColor(itemType, status)
  {
  }

  /** The home screen's own `getMarkerIcon`. */
  function MarkerIcon(itemType: string): (icon: string)
    ensures icon == OpenStreetMapWebView.MarkerIcon(itemType)
    ensures icon == "document-text" <==> itemType == "report"
  {
    if itemType == "report" then "document-text" else "construct"
  }

  /** The home screen's own `handleMarkerPress`. */
  function MarkerPressAction(item: OpenStreetMapWebView.MapItem): (a: MapScreen.PressAction)
    ensures a == MapScreen.MarkerPressAction(item)
    ensures a.ShowReportAlert? <==> item.itemType == "report"
  {
    if item.itemType == "report" then MapScreen.ShowReportAlert(item.title, item.description)
    else MapScreen.OpenTask(NavigateWith("TaskDetails", item.id))
  }
}
