/** The task check-in screen: a geofenced check-in (within 0.5 km of the task) and a
    confirmed check-out, driven by one button whose action depends on the state.
    The distance between the user and the task is an input: the haversine is not modelled. */
module CheckIn {
  import opened Common

  /** The check-in radius in kilometres. */
  const MaxDistanceKm: real := 0.5

  /** The screen's state: `isCheckedIn`, `isLoading` and `currentLocation`. */
  datatype Session = Session(isCheckedIn: bool, isLoading: bool, currentLocation: Option<Coordinate>)

  const InitialSession := Session(false, false, None)

  /** What pressing Check In leads to. `LocationMismatch` is the alert offering Cancel and
      Try Again, where Try Again re-acquires the location (`AcquireLocation`). */
  datatype CheckInOutcome = LocationUnavailable | LocationMismatch | Started

  /** What the one button does when pressed. */
  datatype ButtonAction = Disabled | RunCheckOut | RunCheckIn

  /** The result of a location request: permission, then either a fix or a caught error. */
  datatype LocationResult = PermissionDenied | Fix(coordinate: Coordinate) | LocationError

  /** `getCurrentLocation`: only a fix changes the state, and only the location. */
  function AcquireLocation(s: Session, result: LocationResult): (r: Session)
    ensures r.isCheckedIn == s.isCheckedIn && r.isLoading == s.isLoading
    ensures result.Fix? ==> r.currentLocation == Some(result.coordinate)
    ensures !result.Fix? ==> r == s
  {
    match result
    case Fix(c) => s.(currentLocation := Some(c))
    case _ => s
  }

  /** `handleCheckIn`, given the distance from the current location to the task. */
  function BeginCheckIn(s: Session, distanceKm: real): (r: (Session, CheckInOutcome))
    ensures r.1 == LocationUnavailable <==> s.currentLocation.None?
    ensures r.1 == LocationMismatch <==> s.currentLocation.Some? && distanceKm > MaxDistanceKm
    ensures r.1 == Started <==> s.currentLocation.Some? && distanceKm <= MaxDistanceKm
    ensures r.1 != Started ==> r.0 == s
    ensures r.1 == Started ==> r.0 == s.(isLoading := true)
  {
    if s.currentLocation.None? then (s, LocationUnavailable)
    else if distanceKm > MaxDistanceKm then (s, LocationMismatch)
    else (s.(isLoading := true), Started)
  }

  /** The delayed completion of an accepted check-in. */
  function CompleteCheckIn(s: Session): (r: Session)
    ensures !r.isLoading && r.isCheckedIn && r.currentLocation == s.currentLocation
  {
    s.(isLoading := false, isCheckedIn := true)
  }

  /** `handleCheckOut`, given the user's answer to the confirmation. */
  function CheckOut(s: Session, confirmed: bool): (r: Session)
    ensures confirmed ==> r == s.(isCheckedIn := false)
    ensures !confirmed ==> r == s
  {
    if confirmed then s.(isCheckedIn := false) else s
  }

  /** The button is disabled while loading and otherwise runs check-out or check-in by state. */
  function Button(s: Session): (a: ButtonAction)
    ensures a == Disabled <==> s.isLoading
    ensures a == RunCheckIn <==> !s.isLoading && !s.isCheckedIn
    ensures a == RunCheckOut <==> !s.isLoading && s.isCheckedIn
  {
    if s.isLoading then Disabled else if s.isCheckedIn then RunCheckOut else RunCheckIn
  }

  function ButtonLabel(s: Session): (caption: string)
    ensures caption == "Processing..." <==> s.isLoading
    ensures caption == "Check Out" <==> !s.isLoading && s.isCheckedIn
    ensures caption == "Check In" <==> !s.isLoading && !s.isCheckedIn
  {
    if s.isLoading then "Processing..." else if s.isCheckedIn then "Check Out" else "Check In"
  }

  /** The events the screen reacts to: a button press (with the distance at that moment and
      the answer to a check-out confirmation), the firing of the check-in timer, and the
      arrival of a location result (on mount or after Try Again). */
  datatype Event = Press(distanceKm: real, confirmed: bool) | TimerFires | LocationArrives(result: LocationResult)

  /** One event. The check-in timer is scheduled exactly when `isLoading` becomes true and is
      the only thing that resets it, so it can fire only while `isLoading`. */
  function Step(s: Session, e: Event): (r: Session)
    ensures e.Press? && s.isLoading ==> r == s
    ensures e.Press? && !s.isLoading && s.isCheckedIn ==> r == CheckOut(s, e.confirmed)
    ensures e.Press? && !s.isLoading && !s.isCheckedIn ==> r == BeginCheckIn(s, e.distanceKm).0
    ensures e.TimerFires? ==> r == if s.isLoading then CompleteCheckIn(s) else s
  {
    match e
    case Press(d, c) =>
      (match Button(s)
       case Disabled => s
       case RunCheckOut => CheckOut(s, c)
       case RunCheckIn => BeginCheckIn(s, d).0)
    case TimerFires => if s.isLoading then CompleteCheckIn(s) else s
    case LocationArrives(result) => AcquireLocation(s, result)
  }

  /** The session after a sequence of events, in order. Timers that find nothing in flight
      leave the session as it is. */
  function Run(s: Session, events: seq<Event>): (r: Session)
    ensures events == [] ==> r == s
    ensures !s.isLoading && (forall i :: 0 <= i < |events| ==> events[i] == TimerFires) ==> r == s
    decreases |events|
  {
    if events == [] then s else Run(Step(s, events[0]), events[1..])
  }

  /** A check-in in flight and a completed check-in never coexist. */
  ghost predicate Consistent(s: Session) {
    !(s.isLoading && s.isCheckedIn)
  }

  lemma StepConsistent(s: Session, e: Event)
    requires Consistent(s)
    ensures Consistent(Step(s, e))
  {
  }

  /** From the initial state, every sequence of events keeps the session consistent: check-in
      only starts when not checked in, and nothing starts while a check-in is in flight. */
  lemma {:induction false} RunConsistent(s: Session, events: seq<Event>)
    requires Consistent(s)
    ensures Consistent(Run(s, events))
    decreases |events|
  {
    if events != [] {
      StepConsistent(s, events[0]);
      RunConsistent(Step(s, events[0]), events[1..]);
    }
  }

  /** A press starts a check-in only from the not-checked-in, not-loading state, and a
      check-in is never started twice before the timer fires. */
  lemma {:induction false} CheckInStartsOnlyWhenIdle(s: Session, d: real, c: bool)
    requires Step(s, Press(d, c)).isLoading && !s.isLoading
    ensures !s.isCheckedIn && s.currentLocation.Some? && d <= MaxDistanceKm
    ensures Step(Step(s, Press(d, c)), Press(d, c)) == Step(s, Press(d, c))
  {
  }

  /** The screen: the check-in state plus the task it was opened for. */
  class CheckInScreen {
    const taskId: string
    var isCheckedIn: bool
    var isLoading: bool
    var currentLocation: Option<Coordinate>

    function State(): Session
      reads this
    {
      Session(isCheckedIn, isLoading, currentLocation)
    }

    constructor (taskId: string)
      ensures this.taskId == taskId && State() == InitialSession
    {
      this.taskId := taskId;
      isCheckedIn, isLoading, currentLocation := false, false, None;
    }

    /** `getCurrentLocation`, with the platform's answer as input. */
    method GetCurrentLocation(result: LocationResult)
      modifies this
      ensures State() == AcquireLocation(old(State()), result)
    {
      if result.Fix? {
        currentLocation := Some(result.coordinate);
      }
    }

    /** `handleCheckIn`: refuses without a location or beyond the radius, else starts loading. */
    method HandleCheckIn(distanceKm: real) returns (outcome: CheckInOutcome)
      modifies this
      ensures (State(), outcome) == BeginCheckIn(old(State()), distanceKm)
    {
      if currentLocation.None? {
        return LocationUnavailable;
      }
      if distanceKm > MaxDistanceKm {
        return LocationMismatch;
      }
      isLoading := true;
      outcome := Started;
    }

    /** The timer callback of an accepted check-in; OK on its alert opens ProofSubmission. */
    method FinishCheckIn() returns (next: Nav)
      modifies this
      ensures State() == CompleteCheckIn(old(State()))
      ensures next == NavigateWith("ProofSubmission", taskId)
    {
      isLoading := false;
      isCheckedIn := true;
      next := NavigateWith("ProofSubmission", taskId);
    }

    /** `handleCheckOut`: a confirmed check-out ends the session and opens ProofSubmission. */
    method HandleCheckOut(confirmed: bool) returns (next: Option<Nav>)
      modifies this
      ensures State() == CheckOut(old(State()), confirmed)
      ensures next == if confirmed then Some(NavigateWith("ProofSubmission", taskId)) else None
    {
      next := None;
      if confirmed {
        isCheckedIn := false;
        next := Some(NavigateWith("ProofSubmission", taskId));
      }
    }

    /** A press of the button: nothing while disabled, else check-out or check-in by state. */
    method PressButton(distanceKm: real, confirmed: bool)
      modifies this
      ensures State() == Step(old(State()), Press(distanceKm, confirmed))
    {
      if isLoading {
        return;
      }
      if isCheckedIn {
        var _ := HandleCheckOut(confirmed);
      } else {
        var _ := HandleCheckIn(distanceKm);
      }
    }
  }
}
