/** The worker's task list: three tabs (upcoming tasks, applications with their tasks,
    completed tasks), the status badge, the Check In button and pull-to-refresh. */
module MyTasks {
  import opened Common
  import opened Records
  import MockData

  /** An entry of the list: a task, or an application paired with the task it is for. */
  datatype TabItem = TaskEntry(task: Task) | AppliedEntry(application: Application, foundTask: Option<Task>)

  function TaskEntries(ts: seq<Task>): (r: seq<TabItem>)
    ensures |r| == |ts| && forall i :: 0 <= i < |ts| ==> r[i] == TaskEntry(ts[i])
  {
    seq(|ts|, i requires 0 <= i < |ts| => TaskEntry(ts[i]))
  }

  /** Each application with the first task whose id is its task id. */
  function AppliedEntries(apps: seq<Application>, tasks: seq<Task>): (r: seq<TabItem>)
    ensures |r| == |apps|
    ensures forall i :: 0 <= i < |apps| ==>
              r[i].AppliedEntry? && r[i].application == apps[i]
              && r[i].foundTask == FindTaskById(tasks, apps[i].taskId)
  {
    seq(|apps|, i requires 0 <= i < |apps| => AppliedEntry(apps[i], FindTaskById(tasks, apps[i].taskId)))
  }

  predicate HasStatus(status: string, t: Task) { t.status == status }

  /** The tasks whose status is 'upcoming', in their order. */
  function Upcoming(ts: seq<Task>): (r: seq<Task>)
    ensures forall i :: 0 <= i < |r| ==> r[i] in ts && r[i].status == "upcoming"
    ensures forall j :: 0 <= j < |ts| && ts[j].status == "upcoming" ==> ts[j] in r
  {
    var f := Filter(ts, t => HasStatus("upcoming", t));
    assert forall i :: 0 <= i < |f| ==> HasStatus("upcoming", f[i]);
    assert forall j :: 0 <= j < |ts| && ts[j].status == "upcoming" ==> HasStatus("upcoming", ts[j]);
    f
  }

  /** `getTasksByStatus` over the given tasks, applications and completed tasks. */
  function TasksByStatus(tab: string, tasks: seq<Task>, apps: seq<Application>, completed: seq<Task>): (r: seq<TabItem>)
    ensures tab == "upcoming" ==>
              (forall i :: 0 <= i < |r| ==> r[i].TaskEntry? && r[i].task in tasks && r[i].task.status == "upcoming")
              && (forall j :: 0 <= j < |tasks| && tasks[j].status == "upcoming" ==> TaskEntry(tasks[j]) in r)
    ensures tab == "applied" ==> r == AppliedEntries(apps, tasks)
    ensures tab == "completed" ==> r == TaskEntries(completed)
    ensures tab !in {"upcoming", "applied", "completed"} ==> r == []
  {
    match tab
    case "upcoming" =>
      var f := Upcoming(tasks);
      assert forall i :: 0 <= i < |f| ==> HasStatus("upcoming", f[i]);
      EntriesHoldTasks(f);
      TaskEntries(f)
    case "applied" => AppliedEntries(apps, tasks)
    case "completed" => TaskEntries(completed)
    case _ => []
  }

  /** Every task of a list has its entry. */
  lemma EntriesHoldTasks(ts: seq<Task>)
    ensures forall t :: t in ts ==> TaskEntry(t) in TaskEntries(ts)
  {
    forall t | t in ts ensures TaskEntry(t) in TaskEntries(ts) {
      var k :| 0 <= k < |ts| && ts[k] == t;
      assert TaskEntries(ts)[k] == TaskEntry(t);
    }
  }

  /** The applied tab lists each application once, in order, with a task exactly when one
      has its task id, and then the first such. */
  lemma AppliedTab(tasks: seq<Task>, apps: seq<Application>, completed: seq<Task>, i: int)
    requires 0 <= i < |apps|
    ensures |TasksByStatus("applied", tasks, apps, completed)| == |apps|
    ensures TasksByStatus("applied", tasks, apps, completed)[i].application == apps[i]
    ensures TasksByStatus("applied", tasks, apps, completed)[i].foundTask.Some? <==>
              exists j :: 0 <= j < |tasks| && tasks[j].id == apps[i].taskId
  {
  }

  /** The upcoming tab keeps the tasks' order: the entries of a concatenation of task lists
      are the entries of each part, in order. */
  lemma UpcomingConcat(a: seq<Task>, b: seq<Task>, apps: seq<Application>, completed: seq<Task>)
    ensures TasksByStatus("upcoming", a + b, apps, completed)
            == TasksByStatus("upcoming", a, apps, completed) + TasksByStatus("upcoming", b, apps, completed)
  {
    assert TasksByStatus("upcoming", a + b, apps, completed) == TaskEntries(Upcoming(a + b));
    assert TasksByStatus("upcoming", a, apps, completed) == TaskEntries(Upcoming(a));
    assert TasksByStatus("upcoming", b, apps, completed) == TaskEntries(Upcoming(b));
    FilterConcat(a, b, t => HasStatus("upcoming", t));
    TaskEntriesConcat(Upcoming(a), Upcoming(b));
  }

  lemma TaskEntriesConcat(a: seq<Task>, b: seq<Task>)
    ensures TaskEntries(a + b) == TaskEntries(a) + TaskEntries(b)
  {
    assert forall i :: 0 <= i < |a| ==> (a + b)[i] == a[i];
    assert forall j :: 0 <= j < |b| ==> (a + b)[|a| + j] == b[j];
  }

  /** Together with `UpcomingConcat`, this pins the tab down: a single task is listed exactly
      when it is upcoming. */
  lemma UpcomingSingle(t: Task, apps: seq<Application>, completed: seq<Task>)
    ensures TasksByStatus("upcoming", [], apps, completed) == []
    ensures TasksByStatus("upcoming", [t], apps, completed) == if t.status == "upcoming" then [TaskEntry(t)] else []
  {
  }

  /** With the shipped data, the upcoming tab lists the one upcoming task. */
  lemma {:induction false} ShippedUpcoming()
    ensures TasksByStatus("upcoming", MockData.Tasks, MockData.TaskApplications, MockData.CompletedTasks)
            == [TaskEntry(MockData.Tasks[2])]
  {
    var ts := MockData.Tasks;
    var p := (t: Task) => HasStatus("upcoming", t);
    assert ts == [ts[0], ts[1]] + [ts[2]];
    FilterConcat([ts[0], ts[1]], [ts[2]], p);
    assert [ts[0], ts[1]] == [ts[0]] + [ts[1]];
    FilterConcat([ts[0]], [ts[1]], p);
    assert Filter(ts, p) == [ts[2]];
  }

  /** The Check In button is shown on the upcoming tab only, and opens CheckIn for its task. */
  function CheckInButton(tab: string, t: Task): (r: Option<Nav>)
    ensures r.Some? <==> tab == "upcoming"
    ensures r.Some? ==> r.value == NavigateWith("CheckIn", t.id)
  {
    if tab == "upcoming" then Some(NavigateWith("CheckIn", t.id)) else None
  }

  const KnownStatuses: set<string> := {"pending", "approved", "rejected", "active", "upcoming", "completed"}

  /** `getStatusColor`: six known statuses, approved and completed sharing success. */
  function StatusColor(status: string): (c: Color)
    ensures status == "pending" <==> c == Warning
    ensures status in {"approved", "completed"} <==> c == Success
    ensures status == "rejected" <==> c == Error
    ensures status == "active" <==> c == Primary
    ensures status == "upcoming" <==> c == Accent
    ensures c == Gray <==> status !in KnownStatuses
  {
    match status
    case "pending" => Warning
    case "approved" => Success
    case "rejected" => Error
    case "active" => Primary
    case "upcoming" => Accent
    case "completed" => Success
    case _ => Gray
  }

  /** `getStatusText`: every known status has its own label. */
  function StatusText(status: string): (text: string)
    ensures status == "pending" <==> text == "Pending"
    ensures status == "approved" <==> text == "Approved"
    ensures status == "rejected" <==> text == "Rejected"
    ensures status == "active" <==> text == "Active"
    ensures status == "upcoming" <==> text == "Upcoming"
    ensures status == "completed" <==> text == "Completed"
    ensures text == "Unknown" <==> status !in KnownStatuses
  {
    match status
    case "pending" => "Pending"
    case "approved" => "Approved"
    case "rejected" => "Rejected"
    case "active" => "Active"
    case "upcoming" => "Upcoming"
    case "completed" => "Completed"
    case _ => "Unknown"
  }

  /** The text tells apart the statuses the colour merges. */
  lemma TextSeparatesSharedColour()
    ensures StatusColor("approved") == StatusColor("completed")
    ensures StatusText("approved") != StatusText("completed")
  {
  }

  /** Distinct known statuses have distinct labels, and the defaults agree. */
  lemma TextInjectiveOnKnown(s1: string, s2: string)
    requires s1 in KnownStatuses && s2 in KnownStatuses && s1 != s2
    ensures StatusText(s1) != StatusText(s2)
    ensures StatusColor(s1) != Gray && StatusText(s1) != "Unknown"
  {
  }

  /** The screen's state: the selected tab and the refresh indicator. */
  class MyTasksScreen {
    var selectedTab: string
    var refreshing: bool

    constructor ()
      ensures selectedTab == "upcoming" && !refreshing
    {
      selectedTab := "upcoming";
      refreshing := false;
    }

    method SelectTab(tab: string)
      modifies this
      ensures selectedTab == tab && refreshing == old(refreshing)
    {
      selectedTab := tab;
    }

    /** `onRefresh`: the indicator comes on. */
    method OnRefresh()
      modifies this
      ensures refreshing && selectedTab == old(selectedTab)
    {
      refreshing := true;
    }

    /** The refresh timer fires: the indicator goes off. */
    method CompleteRefresh()
      modifies this
      ensures !refreshing && selectedTab == old(selectedTab)
    {
      refreshing := false;
    }
  }
}
