/** The admin's review of citizen reports: a status tab, the reports listed under it, the
    approve / reject / convert actions that rewrite one report's status, and the status
    badge. The tab counts are computed once from the shipped reports. */
module ReportApproval {
  import opened Common
  import opened Records
  import MockData

  /** The status of every report whose id is `id` becomes `status`; nothing else changes. */
  function SetStatus(rs: seq<Report>, id: string, status: string): (r: seq<Report>)
    ensures |r| == |rs|
    ensures forall i :: 0 <= i < |rs| && rs[i].id == id ==> r[i] == rs[i].(status := status)
    ensures forall i :: 0 <= i < |rs| && rs[i].id != id ==> r[i] == rs[i]
  {
    seq(|rs|, i requires 0 <= i < |rs| => if rs[i].id == id then rs[i].(status := status) else rs[i])
  }

  /** `handleApprove`'s update. */
  function Approve(rs: seq<Report>, id: string): (r: seq<Report>)
    ensures |r| == |rs|
    ensures forall i :: 0 <= i < |rs| ==> r[i] == if rs[i].id == id then rs[i].(status := "approved") else rs[i]
  {
    SetStatus(rs, id, "approved")
  }

  /** `handleReject`'s update. */
  function Reject(rs: seq<Report>, id: string): (r: seq<Report>)
    ensures |r| == |rs|
    ensures forall i :: 0 <= i < |rs| ==> r[i] == if rs[i].id == id then rs[i].(status := "rejected") else rs[i]
  {
    SetStatus(rs, id, "rejected")
  }

  /** `handleConvertToTask`'s update: it writes 'converted_to_task'. */
  function ConvertToTask(rs: seq<Report>, id: string): (r: seq<Report>)
    ensures |r| == |rs|
    ensures forall i :: 0 <= i < |rs| ==>
              r[i] == if rs[i].id == id then rs[i].(status := "converted_to_task") else rs[i]
  {
    SetStatus(rs, id, "converted_to_task")
  }

  /** Every update keeps the ids, the order and every field but the status. */
  lemma SetStatusKeepsRecords(rs: seq<Report>, id: string, status: string)
    ensures forall i :: 0 <= i < |rs| ==>
              var r := SetStatus(rs, id, status)[i];
              r.id == rs[i].id && r.title == rs[i].title && r.description == rs[i].description
              && r.location == rs[i].location && r.submittedBy == rs[i].submittedBy
  {
  }

  /** Applying an update twice is applying it once. */
  lemma SetStatusIdempotent(rs: seq<Report>, id: string, status: string)
    ensures SetStatus(SetStatus(rs, id, status), id, status) == SetStatus(rs, id, status)
  {
  }

  /** Updates of different reports do not interfere: their order does not matter. */
  lemma SetStatusCommutes(rs: seq<Report>, id1: string, s1: string, id2: string, s2: string)
    requires id1 != id2
    ensures SetStatus(SetStatus(rs, id1, s1), id2, s2) == SetStatus(SetStatus(rs, id2, s2), id1, s1)
  {
  }

  predicate StatusIs(status: string, r: Report) { r.status == status }

  /** `getFilteredReports`: everything under 'all', else the reports with exactly that status. */
  function Filtered(filter: string, rs: seq<Report>): (r: seq<Report>)
    ensures filter == "all" ==> r == rs
    ensures filter != "all" ==> forall i :: 0 <= i < |r| ==> r[i] in rs && r[i].status == filter
    ensures filter != "all" ==> forall i :: 0 <= i < |rs| && rs[i].status == filter ==> rs[i] in r
  {
    if filter == "all" then rs
    else
      var f := Filter(rs, r => StatusIs(filter, r));
      assert forall i :: 0 <= i < |f| ==> StatusIs(filter, f[i]);
      f
  }

  /** Filtering keeps the list's order: the filter of a concatenation is the concatenation
      of the filters. */
  lemma FilteredConcat(filter: string, a: seq<Report>, b: seq<Report>)
    ensures Filtered(filter, a + b) == Filtered(filter, a) + Filtered(filter, b)
  {
    if filter != "all" {
      FilterConcat(a, b, r => StatusIs(filter, r));
    }
  }

  /** Together with `FilteredConcat`, this pins the filter down: nothing from nothing, and a
      single report is kept exactly when it is listed under the tab. */
  lemma FilteredSingle(filter: string, x: Report)
    ensures Filtered(filter, []) == []
    ensures Filtered(filter, [x]) == if filter == "all" || x.status == filter then [x] else []
  {
  }

  /** The tab buttons: the filter each selects and the count it shows. */
  datatype Tab = Tab(id: string, caption: string, count: nat)

  /** The tabs. Their counts are taken from the shipped reports, never from the screen's state. */
  function Tabs(): (tabs: seq<Tab>)
    ensures |tabs| == 3
    ensures tabs[0].id == "pending" && tabs[1].id == "approved" && tabs[2].id == "converted"
    ensures tabs[0].caption == "Pending" && tabs[1].caption == "Approved" && tabs[2].caption == "Converted"
    ensures tabs[0].count == |Filtered("pending", MockData.Reports)|
    ensures tabs[1].count == |Filtered("approved", MockData.Reports)|
    ensures tabs[2].count == |Filtered("converted_to_task", MockData.Reports)|
  {
    [Tab("pending", "Pending", |Filtered("pending", MockData.Reports)|),
     Tab("approved", "Approved", |Filtered("approved", MockData.Reports)|),
     Tab("converted", "Converted", |Filtered("converted_to_task", MockData.Reports)|)]
  }

  /** With the shipped reports (one pending, one approved, one converted) every tab counts one. */
  lemma {:induction false} ShippedTabCounts()
    ensures Tabs()[0].count == 1 && Tabs()[1].count == 1 && Tabs()[2].count == 1
  {
    var rs := MockData.Reports;
    assert rs == [rs[0]] + [rs[1]] + [rs[2]];
    FilteredConcat("pending", [rs[0]] + [rs[1]], [rs[2]]);
    FilteredConcat("pending", [rs[0]], [rs[1]]);
    FilteredConcat("approved", [rs[0]] + [rs[1]], [rs[2]]);
    FilteredConcat("approved", [rs[0]], [rs[1]]);
    FilteredConcat("converted_to_task", [rs[0]] + [rs[1]], [rs[2]]);
    FilteredConcat("converted_to_task", [rs[0]], [rs[1]]);
  }

  /** The "Converted" tab selects the filter 'converted', which no update ever writes: after
      converting a report it is not listed under that tab. */
  lemma ConvertedTabMissesConversions(rs: seq<Report>, id: string)
    ensures forall i :: 0 <= i < |Filtered("converted", ConvertToTask(rs, id))| ==>
              Filtered("converted", ConvertToTask(rs, id))[i].id != id
  {
    var after := ConvertToTask(rs, id);
    var f := Filtered("converted", after);
    forall i | 0 <= i < |f| ensures f[i].id != id {
      var k :| 0 <= k < |after| && after[k] == f[i];
      assert after[k].status == "converted";
    }
  }

  /** With the shipped reports the "Converted" tab counts one report and lists none. */
  lemma {:induction false} ConvertedTabCountDisagrees()
    ensures Tabs()[2].count == 1
    ensures Filtered("converted", MockData.Reports) == []
  {
    var rs := MockData.Reports;
    assert rs[0].status == "pending" && rs[1].status == "approved" && rs[2].status == "converted_to_task";
    assert forall i :: 0 <= i < |rs| ==> !StatusIs("converted", rs[i]);
    FilterNone(rs, r => StatusIs("converted", r));
  }

  /** The counts do not follow the updates: after approving the one pending shipped report,
      the Pending tab still counts one, though it lists nothing. */
  lemma {:induction false} CountsGoStale()
    ensures Tabs()[0].count == 1
    ensures Filtered("pending", Approve(MockData.Reports, "1")) == []
  {
    var after := Approve(MockData.Reports, "1");
    assert after[0].status == "approved" && after[1].status == "approved"
           && after[2].status == "converted_to_task";
    assert forall i :: 0 <= i < |after| ==> !StatusIs("pending", after[i]);
    FilterNone(after, r => StatusIs("pending", r));
  }

  /** The action buttons are shown only for a pending report. */
  function ActionsShown(r: Report): (shown: bool)
    ensures shown <==> r.status == "pending"
  {
    r.status == "pending"
  }

  /** The review actions. */
  datatype Action = ApproveAction | RejectAction | ConvertAction

  /** The status an action writes. */
  function Target(a: Action): (status: string)
    ensures status in {"approved", "rejected", "converted_to_task"}
    ensures a == ApproveAction <==> status == "approved"
    ensures a == RejectAction <==> status == "rejected"
    ensures a == ConvertAction <==> status == "converted_to_task"
  {
    match a
    case ApproveAction => "approved"
    case RejectAction => "rejected"
    case ConvertAction => "converted_to_task"
  }

  predicate UniqueIds(rs: seq<Report>) {
    forall i, j :: 0 <= i < j < |rs| ==> rs[i].id != rs[j].id
  }

  /** Through the buttons, with unique ids, an action changes exactly the pressed report, and
      only from pending: the only transitions are pending to approved, rejected or converted. */
  lemma UiTransitionsFromPending(rs: seq<Report>, k: int, a: Action)
    requires UniqueIds(rs) && 0 <= k < |rs| && ActionsShown(rs[k])
    ensures SetStatus(rs, rs[k].id, Target(a))[k].status == Target(a)
    ensures forall i :: 0 <= i < |rs| && SetStatus(rs, rs[k].id, Target(a))[i] != rs[i] ==>
              i == k && rs[i].status == "pending"
  {
  }

  /** `getStatusColor`. */
  function StatusColor(status: string): (c: Color)
    ensures status == "pending" <==> c == Warning
    ensures status == "approved" <==> c == Success
    ensures status == "rejected" <==> c == Error
    ensures status == "converted_to_task" <==> c == Info
    ensures c == Gray <==> status !in {"pending", "approved", "rejected", "converted_to_task"}
  {
    match status
    case "pending" => Warning
    case "approved" => Success
    case "rejected" => Error
    case "converted_to_task" => Info
    case _ => Gray
  }

  /** `getStatusText`. */
  function StatusText(status: string): (text: string)
    ensures status == "pending" <==> text == "Pending"
    ensures status == "approved" <==> text == "Approved"
    ensures status == "rejected" <==> text == "Rejected"
    ensures status == "converted_to_task" <==> text == "Converted"
    ensures text == "Unknown" <==> status !in {"pending", "approved", "rejected", "converted_to_task"}
  {
    match status
    case "pending" => "Pending"
    case "approved" => "Approved"
    case "rejected" => "Rejected"
    case "converted_to_task" => "Converted"
    case _ => "Unknown"
  }

  /** The badge's colour and text fall back on their defaults for the same statuses. */
  lemma DefaultsAgree(status: string)
    ensures StatusColor(status) == Gray <==> StatusText(status) == "Unknown"
  {
  }

  /** The screen's state: the selected tab and its own copy of the reports. */
  class ReportApprovalScreen {
    var selectedFilter: string
    var reports: seq<Report>

    constructor ()
      ensures selectedFilter == "pending" && reports == MockData.Reports
    {
      selectedFilter := "pending";
      reports := MockData.Reports;
    }

    /** The list shown. */
    function Shown(): seq<Report>
      reads this
    {
      Filtered(selectedFilter, reports)
    }

    method SelectFilter(filter: string)
      modifies this
      ensures selectedFilter == filter && reports == old(reports)
    {
      selectedFilter := filter;
    }

    /** An action on a report, given the answer to its confirmation. */
    method Act(a: Action, id: string, confirmed: bool)
      modifies this
      ensures reports == if confirmed then SetStatus(old(reports), id, Target(a)) else old(reports)
      ensures selectedFilter == old(selectedFilter)
    {
      if confirmed {
        reports := SetStatus(reports, id, Target(a));
      }
    }
  }
}
