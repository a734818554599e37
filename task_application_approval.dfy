/** The admin's review of workers' task applications: status tabs, the applications listed
    under each, the approve / reject actions that rewrite one application's status, the
    status badge and the task each card shows. */
module TaskApplicationApproval {
  import opened Common
  import opened Records
  import MockData

  /** The status of every application whose id is `id` becomes `status`; nothing else changes. */
  function SetStatus(apps: seq<Application>, id: string, status: string): (r: seq<Application>)
    ensures |r| == |apps|
    ensures forall i :: 0 <= i < |apps| && apps[i].id == id ==> r[i] == apps[i].(status := status)
    ensures forall i :: 0 <= i < |apps| && apps[i].id != id ==> r[i] == apps[i]
  {
    seq(|apps|, i requires 0 <= i < |apps| => if apps[i].id == id then apps[i].(status := status) else apps[i])
  }

  /** `handleApprove`'s update. */
  function Approve(apps: seq<Application>, id: string): (r: seq<Application>)
    ensures |r| == |apps|
    ensures forall i :: 0 <= i < |apps| ==>
              r[i] == if apps[i].id == id then apps[i].(status := "approved") else apps[i]
  {
    SetStatus(apps, id, "approved")
  }

  /** `handleReject`'s update. */
  function Reject(apps: seq<Application>, id: string): (r: seq<Application>)
    ensures |r| == |apps|
    ensures forall i :: 0 <= i < |apps| ==>
              r[i] == if apps[i].id == id then apps[i].(status := "rejected") else apps[i]
  {
    SetStatus(apps, id, "rejected")
  }

  /** Approving then rejecting the same application leaves it rejected, and the other way round:
      the last decision wins. */
  lemma LastDecisionWins(apps: seq<Application>, id: string)
    ensures Reject(Approve(apps, id), id) == Reject(apps, id)
    ensures Approve(Reject(apps, id), id) == Approve(apps, id)
  {
  }

  predicate StatusIs(status: string, a: Application) { a.status == status }

  /** `getFilteredApplications`: everything under 'all', else those with exactly that status. */
  function Filtered(filter: string, apps: seq<Application>): (r: seq<Application>)
    ensures filter == "all" ==> r == apps
    ensures filter != "all" ==> forall i :: 0 <= i < |r| ==> r[i] in apps && r[i].status == filter
    ensures filter != "all" ==> forall i :: 0 <= i < |apps| && apps[i].status == filter ==> apps[i] in r
  {
    if filter == "all" then apps
    else
      var f := Filter(apps, a => StatusIs(filter, a));
      assert forall i :: 0 <= i < |f| ==> StatusIs(filter, f[i]);
      f
  }

  /** The statuses an application can be given. */
  predicate Known(a: Application) { a.status in {"pending", "approved", "rejected"} }

  /** When every status is pending, approved or rejected, the three tabs together list every
      application exactly once. */
  lemma {:induction false} TabsPartition(apps: seq<Application>)
    requires forall i :: 0 <= i < |apps| ==> Known(apps[i])
    ensures |Filtered("pending", apps)| + |Filtered("approved", apps)| + |Filtered("rejected", apps)| == |apps|
  {
    if apps != [] {
      TabsPartition(apps[1..]);
      FilteredCons("pending", apps);
      FilteredCons("approved", apps);
      FilteredCons("rejected", apps);
    }
  }

  /** A tab's list of a non-empty list: the first application if it has the tab's status,
      then the tab's list of the rest. */
  lemma FilteredCons(filter: string, apps: seq<Application>)
    requires filter != "all" && apps != []
    ensures Filtered(filter, apps) ==
              (if apps[0].status == filter then [apps[0]] else []) + Filtered(filter, apps[1..])
  {
  }

  /** Filtering keeps the list's order: the filter of a concatenation is the concatenation
      of the filters. */
  lemma FilteredConcat(filter: string, a: seq<Application>, b: seq<Application>)
    ensures Filtered(filter, a + b) == Filtered(filter, a) + Filtered(filter, b)
  {
    if filter != "all" {
      FilterConcat(a, b, x => StatusIs(filter, x));
    }
  }

  /** Together with `FilteredConcat`, this pins the filter down: nothing from nothing, and a
      single application is kept exactly when it is listed under the tab. */
  lemma FilteredSingle(filter: string, x: Application)
    ensures Filtered(filter, []) == []
    ensures Filtered(filter, [x]) == if filter == "all" || x.status == filter then [x] else []
  {
  }

  /** An application is listed under the tab of its status and under no other. */
  lemma ListedUnderOneTab(apps: seq<Application>, i: int, tab: string)
    requires 0 <= i < |apps| && tab in {"pending", "approved", "rejected"}
    ensures apps[i] in Filtered(tab, apps) <==> apps[i].status == tab
  {
  }

  /** A tab button: the filter it selects and the count it shows. */
  datatype Tab = Tab(id: string, caption: string, count: nat)

  /** The tabs, counted from the shipped applications rather than the screen's state. */
  function Tabs(): (tabs: seq<Tab>)
    ensures |tabs| == 3
    ensures tabs[0].id == "pending" && tabs[1].id == "approved" && tabs[2].id == "rejected"
    ensures tabs[0].caption == "Pending" && tabs[1].caption == "Approved" && tabs[2].caption == "Rejected"
    ensures forall k :: 0 <= k < 3 ==> tabs[k].count == |Filtered(tabs[k].id, MockData.TaskApplications)|
  {
    [Tab("pending", "Pending", |Filtered("pending", MockData.TaskApplications)|),
     Tab("approved", "Approved", |Filtered("approved", MockData.TaskApplications)|),
     Tab("rejected", "Rejected", |Filtered("rejected", MockData.TaskApplications)|)]
  }

  /** With the shipped applications (approved, pending, approved) the tabs count 1, 2 and 0. */
  lemma {:induction false} ShippedTabCounts()
    ensures Tabs()[0].count == 1 && Tabs()[1].count == 2 && Tabs()[2].count == 0
  {
    var apps := MockData.TaskApplications;
    assert apps == [apps[0]] + [apps[1]] + [apps[2]];
    FilteredConcat("pending", [apps[0]] + [apps[1]], [apps[2]]);
    FilteredConcat("pending", [apps[0]], [apps[1]]);
    FilteredConcat("approved", [apps[0]] + [apps[1]], [apps[2]]);
    FilteredConcat("approved", [apps[0]], [apps[1]]);
    FilteredConcat("rejected", [apps[0]] + [apps[1]], [apps[2]]);
    FilteredConcat("rejected", [apps[0]], [apps[1]]);
  }

  /** The counts do not follow the updates: rejecting the one pending shipped application
      empties the Pending list, but its tab still counts one and the Rejected tab none. */
  lemma {:induction false} CountsGoStale()
    ensures Tabs()[0].count == 1 && Tabs()[2].count == 0
    ensures Filtered("pending", Reject(MockData.TaskApplications, "2")) == []
    ensures |Filtered("rejected", Reject(MockData.TaskApplications, "2"))| == 1
  {
    var apps := MockData.TaskApplications;
    var after := Reject(apps, "2");
    assert after[0].status == "approved" && after[1].status == "rejected" && after[2].status == "approved";
    assert forall i :: 0 <= i < |after| ==> !StatusIs("pending", after[i]);
    FilterNone(after, a => StatusIs("pending", a));
    assert forall i :: 0 <= i < |apps| ==> !StatusIs("rejected", apps[i]);
    FilterNone(apps, a => StatusIs("rejected", a));
    assert after == [after[0]] + [after[1]] + [after[2]];
    FilterConcat([after[0]] + [after[1]], [after[2]], a => StatusIs("rejected", a));
    FilterConcat([after[0]], [after[1]], a => StatusIs("rejected", a));
  }

  /** The buttons are shown only for a pending application. */
  function ActionsShown(a: Application): (shown: bool)
    ensures shown <==> a.status == "pending"
  {
    a.status == "pending"
  }

  predicate UniqueIds(apps: seq<Application>) {
    forall i, j :: 0 <= i < j < |apps| ==> apps[i].id != apps[j].id
  }

  /** Through the buttons, with unique ids, a decision changes only the pressed application,
      which was pending: approved and rejected applications are final. */
  lemma DecisionsFinal(apps: seq<Application>, k: int, decision: string)
    requires UniqueIds(apps) && 0 <= k < |apps| && ActionsShown(apps[k])
    requires decision in {"approved", "rejected"}
    ensures SetStatus(apps, apps[k].id, decision)[k].status == decision
    ensures forall i :: 0 <= i < |apps| && apps[i].status in {"approved", "rejected"} ==>
              SetStatus(apps, apps[k].id, decision)[i] == apps[i]
  {
  }

  /** `getStatusColor`. */
  function StatusColor(status: string): (c: Color)
    ensures status == "pending" <==> c == Warning
    ensures status == "approved" <==> c == Success
    ensures status == "rejected" <==> c == Error
    ensures c == Gray <==> status !in {"pending", "approved", "rejected"}
  {
    match status
    case "pending" => Warning
    case "approved" => Success
    case "rejected" => Error
    case _ => Gray
  }

  /** `getStatusText`. */
  function StatusText(status: string): (text: string)
    ensures status == "pending" <==> text == "Pending"
    ensures status == "approved" <==> text == "Approved"
    ensures status == "rejected" <==> text == "Rejected"
    ensures text == "Unknown" <==> status !in {"pending", "approved", "rejected"}
  {
    match status
    case "pending" => "Pending"
    case "approved" => "Approved"
    case "rejected" => "Rejected"
    case _ => "Unknown"
  }

  /** The task shown on an application's card: the first shipped task with its task id. */
  function CardTask(a: Application): (t: Option<Task>)
    ensures t.None? <==> forall i :: 0 <= i < |MockData.Tasks| ==> MockData.Tasks[i].id != a.taskId
    ensures t.Some? ==> exists k :: 0 <= k < |MockData.Tasks| && MockData.Tasks[k] == t.value
                          && t.value.id == a.taskId
                          && forall j :: 0 <= j < k ==> MockData.Tasks[j].id != a.taskId
  {
    FindTaskById(MockData.Tasks, a.taskId)
  }

  /** The task block is shown exactly when some task has the application's task id, and it
      shows the first such task. */
  lemma CardTaskShown(a: Application)
    ensures CardTask(a).Some? <==> exists i :: 0 <= i < |MockData.Tasks| && MockData.Tasks[i].id == a.taskId
    ensures CardTask(a).Some? ==>
              exists k :: 0 <= k < |MockData.Tasks| && MockData.Tasks[k] == CardTask(a).value
                && CardTask(a).value.id == a.taskId
                && forall j :: 0 <= j < k ==> MockData.Tasks[j].id != a.taskId
  {
  }

  /** Every shipped application refers to a shipped task. */
  lemma {:induction false} ShippedCardsShowTasks()
    ensures forall i :: 0 <= i < |MockData.TaskApplications| ==> CardTask(MockData.TaskApplications[i]).Some?
  {
    var ts := MockData.Tasks;
    assert ts[0].id == "1" && ts[1].id == "2";
    var apps := MockData.TaskApplications;
    forall i | 0 <= i < |apps| ensures CardTask(apps[i]).Some? {
      CardTaskShown(apps[i]);
      if apps[i].taskId == "1" {
        assert ts[0].id == apps[i].taskId;
      } else {
        assert ts[1].id == apps[i].taskId;
      }
    }
  }

  /** The screen's state: the selected tab and its copy of the applications. */
  class TaskApplicationApprovalScreen {
    var selectedFilter: string
    var applications: seq<Application>

    constructor ()
      ensures selectedFilter == "pending" && applications == MockData.TaskApplications
    {
      selectedFilter := "pending";
      applications := MockData.TaskApplications;
    }

    method SelectFilter(filter: string)
      modifies this
      ensures selectedFilter == filter && applications == old(applications)
    {
      selectedFilter := filter;
    }

    /** `handleApprove`, given the answer to its confirmation. */
    method HandleApprove(id: string, confirmed: bool)
      modifies this
      ensures applications == if confirmed then Approve(old(applications), id) else old(applications)
      ensures selectedFilter == old(selectedFilter)
    {
      if confirmed {
        applications := Approve(applications, id);
      }
    }

    /** `handleReject`, given the answer to its confirmation. */
    method HandleReject(id: string, confirmed: bool)
      modifies this
      ensures applications == if confirmed then Reject(old(applications), id) else old(applications)
      ensures selectedFilter == old(selectedFilter)
    {
      if confirmed {
        applications := Reject(applications, id);
      }
    }
  }
}
