/** The shapes of the records the screens read (reports, tasks, applications, payments,
    users, notifications), with the lookups several screens share. Statuses stay strings:
    the screens compare them with string literals and fall back on anything unknown. */
module Records {
  import opened Common

  datatype Location = Location(latitude: real, longitude: real, address: string)

  /** A citizen's waste report. */
  datatype Report = Report(
    id: string, title: string, description: string, location: Location,
    status: string, submittedBy: string)

  /** A paid cleanup task. The outfit and gear strings are absent on some records. */
  datatype Task = Task(
    id: string, title: string, description: string, location: Location,
    status: string, payment: int, requiredOutfit: Option<string>, providedGear: Option<string>)

  /** A worker's application for a task. */
  datatype Application = Application(id: string, taskId: string, userId: string, status: string)

  /** A payment received for a completed task. */
  datatype Payment = Payment(id: string, taskId: string, amount: int, status: string)

  /** A user; the optional fields are the ones some users do not carry. */
  datatype User = User(
    id: string, name: string, email: string, role: string,
    cleanupHours: int, tasksCompleted: int,
    bio: Option<string>, joinDate: Option<string>,
    hourlyRate: Option<int>, specializations: Option<seq<string>>)

  /** An entry of the admin's notification feed. */
  datatype Notification = Notification(
    id: string, title: string, message: string, kind: string, read: bool)

  /** The coordinate of a record's location. */
  function CoordinateOf(l: Location): Coordinate {
    Coordinate(l.latitude, l.longitude)
  }

  /** `tasks.find(t => t.id === taskId)`: the first task with that id, if any. */
  function FindTaskById(tasks: seq<Task>, taskId: string): (r: Option<Task>)
    ensures r.None? <==> forall i :: 0 <= i < |tasks| ==> tasks[i].id != taskId
    ensures r.Some? ==> exists k :: 0 <= k < |tasks| && tasks[k] == r.value
                          && r.value.id == taskId
                          && forall j :: 0 <= j < k ==> tasks[j].id != taskId
  {
    if tasks == [] then None
    else if tasks[0].id == taskId then Some(tasks[0])
    else
      var r := FindTaskById(tasks[1..], taskId);
      assert r.Some? ==> exists k :: 0 <= k < |tasks[1..]| && tasks[1..][k] == r.value
                              && forall j :: 0 <= j < k ==> tasks[1..][j].id != taskId;
      if r.Some? then
        var k :| 0 <= k < |tasks[1..]| && tasks[1..][k] == r.value
                 && forall j :: 0 <= j < k ==> tasks[1..][j].id != taskId;
        assert tasks[k + 1] == r.value;
        r
      else r
  }
}
