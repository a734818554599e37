/** The signed-in user's profile: what is shown of the user record, the worker-only section
    with its fallbacks, the derived stats, and logout. */
module Profile {
  import opened Common
  import opened Text
  import opened Records
  import MockData

  /** The mock rate per completed task behind "Total Earned". */
  const EarnedPerTask: int := 500

  /** The rate shown when a worker has none (or zero). */
  const DefaultHourlyRate: int := 150

  /** "Total Earned": 500 for each completed task. */
  function TotalEarned(u: User): (earned: int)
    ensures earned % EarnedPerTask == 0 && earned / EarnedPerTask == u.tasksCompleted
    ensures earned == 0 <==> u.tasksCompleted == 0
  {
    u.tasksCompleted * EarnedPerTask
  }

  /** "Hours Worked": twice the cleanup hours. */
  function HoursWorked(u: User): (hours: int)
    ensures hours % 2 == 0 && hours / 2 == u.cleanupHours
    ensures u.cleanupHours >= 0 ==> hours >= u.cleanupHours
  {
    u.cleanupHours * 2
  }

  /** More completed tasks never show less earned. */
  lemma EarnedMonotone(u: User, v: User)
    requires u.tasksCompleted <= v.tasksCompleted
    ensures TotalEarned(u) <= TotalEarned(v)
  {
  }

  /** `user.hourlyRate || 150`: a missing or zero rate shows 150; any other rate is shown as
      it is, so the rate shown is never zero. */
  function HourlyRateShown(u: User): (rate: int)
    ensures u.hourlyRate.None? || u.hourlyRate.value == 0 ==> rate == DefaultHourlyRate
    ensures u.hourlyRate.Some? && u.hourlyRate.value != 0 ==> rate == u.hourlyRate.value
    ensures rate != 0
  {
    if u.hourlyRate.None? || u.hourlyRate.value == 0 then DefaultHourlyRate else u.hourlyRate.value
  }

  /** `specializations ? specializations.join(', ') : 'General'`. An empty list is truthy
      in JavaScript, so it shows an empty text, not 'General'. */
  function SpecializationsText(u: User): (text: string)
    ensures u.specializations.None? ==> text == "General"
    ensures u.specializations == Some([]) ==> text == ""
    ensures u.specializations.Some? && |u.specializations.value| == 1 ==> text == u.specializations.value[0]
    ensures u.specializations.Some? && |u.specializations.value| >= 2 ==>
              text == u.specializations.value[0] + ", " + Join(u.specializations.value[1..], ", ")
  {
    if u.specializations.None? then "General" else Join(u.specializations.value, ", ")
  }

  /** The shown text lists the specializations recoverably: when none of them contains ", ",
      splitting the text on ", " gives them back. */
  lemma SpecializationsRecoverable(u: User)
    requires u.specializations.Some? && |u.specializations.value| >= 1
    requires forall k :: 0 <= k < |u.specializations.value| ==> !Includes(u.specializations.value[k], ", ")
    ensures Split(SpecializationsText(u), ", ") == u.specializations.value
  {
    SplitJoin(u.specializations.value, ", ");
  }

  /** The worker-only section. */
  datatype WorkerSection = WorkerSection(hourlyRate: int, specializations: string)

  /** What the profile shows of a user. */
  datatype ProfileView = ProfileView(
    name: string, role: string, email: string,
    bio: Option<string>, joinDate: Option<string>,
    worker: Option<WorkerSection>, totalEarned: int, hoursWorked: int)

  /** The rendered profile: bio and join date only when present (an empty string counts as
      absent), the worker section exactly for the role 'Worker' as written. */
  function View(u: User): (v: ProfileView)
    ensures v.name == u.name && v.role == u.role && v.email == u.email
    ensures v.bio.Some? <==> Present(u.bio)
    ensures v.bio.Some? ==> v.bio == u.bio
    ensures v.joinDate.Some? <==> Present(u.joinDate)
    ensures v.joinDate.Some? ==> v.joinDate == u.joinDate
    ensures v.worker.Some? <==> u.role == "Worker"
    ensures v.worker.Some? ==> v.worker.value == WorkerSection(HourlyRateShown(u), SpecializationsText(u))
    ensures v.totalEarned == TotalEarned(u) && v.hoursWorked == HoursWorked(u)
  {
    ProfileView(
      u.name, u.role, u.email,
      if Present(u.bio) then u.bio else None,
      if Present(u.joinDate) then u.joinDate else None,
      if u.role == "Worker" then Some(WorkerSection(HourlyRateShown(u), SpecializationsText(u))) else None,
      TotalEarned(u), HoursWorked(u))
  }

  /** The profile is that of the first shipped user: a citizen, so no worker section; 8
      tasks and 25 hours make 4000 earned and 50 hours worked. */
  lemma ShippedProfile()
    ensures View(MockData.Users[0]).worker.None?
    ensures View(MockData.Users[0]).totalEarned == 4000 && View(MockData.Users[0]).hoursWorked == 50
    ensures View(MockData.Users[0]).bio.Some? && View(MockData.Users[0]).joinDate.Some?
  {
  }

  /** The shipped worker would show 150 per hour and the worker's three specializations, joined. */
  lemma ShippedWorkerSection()
    ensures View(MockData.Users[1]).worker ==
              Some(WorkerSection(150, "Waste Management" + ", " + "Drainage Cleaning" + ", " + "Street Sweeping"))
  {
    var specs := ["Waste Management", "Drainage Cleaning", "Street Sweeping"];
    assert MockData.Users[1].specializations == Some(specs);
    assert specs[1..][1..] == ["Street Sweeping"];
    assert Join(specs[1..], ", ") == "Drainage Cleaning" + ", " + "Street Sweeping";
    assert Join(specs, ", ") == specs[0] + ", " + Join(specs[1..], ", ");
    var u := MockData.Users[1];
    assert u.role == "Worker" && HourlyRateShown(u) == 150;
    assert SpecializationsText(u) == Join(specs, ", ");
    assert specs[0] + ", " + ("Drainage Cleaning" + ", " + "Street Sweeping")
        == "Waste Management" + ", " + "Drainage Cleaning" + ", " + "Street Sweeping";
  }

  /** `handleLogout`, given the answer to its confirmation. */
  function Logout(confirmed: bool): (next: Option<Nav>)
    ensures next.Some? <==> confirmed
    ensures confirmed ==> next == Some(Replace("Login"))
  {
    if confirmed then Some(Replace("Login")) else None
  }
}
