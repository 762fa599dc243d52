/** Properties of the runs in which the environment keeps to a stated discipline. Each comes with
    the exact condition under which one step keeps it. */
module RoverProtocol {
  import opened Common
  import opened PadData
  import opened Messages
  import opened ThrottleTable
  import opened Rover
  import opened RoverInvariants
  import R = RouteRecorder

  // ---- flags coupled to modes ----

  /** The message reports a disconnected controller. */
  predicate Disconnects(m: Message) { m.Ps5? && !Received(m.frame).connected }

  /** The step does not notice a lost controller while the recorder is recording or replaying. */
  predicate Quiet(s: Rover, a: Action)
    requires Can(s, a)
  {
    !(a.Main? && Disconnects(s.queue[0]) && BitConnected in s.word
      && (s.mode == Recording || (s.mode == Replaying && s.rec.replaying)))
  }

  predicate QuietRun(s: Rover, run: seq<Action>)
    requires IsRun(s, run)
    decreases run
  {
    run != [] ==> Quiet(s, run[0]) && QuietRun(Step(s, run[0]), run[1..])
  }

  /** The throttle of autonomous mode. */
  const CRUISE: u8 := 30

  /** The recorder's flags say what the mode says, the modes that stop the rover do, and
      autonomous mode moves it: backward, for its direction 0 counts as reverse. */
  predicate Coupled(s: Rover) {
    && (s.rec.recording <==> s.mode == Recording)
    && (s.rec.replaying ==> s.mode == Replaying)
    && (s.mode in {ArmMode, Error} ==> s.throttle == 0 && s.duty == Duty(0, 0))
    && (s.mode == Autonomous ==> s.throttle == CRUISE && s.direction != 1 && s.duty == Duty(0, s.curve[CRUISE] / 2))
  }

  /** The part of Coupled that a handler keeps: the duties follow when the throttle is applied. */
  predicate Commanded(s: Rover) {
    && (s.rec.recording <==> s.mode == Recording)
    && (s.rec.replaying ==> s.mode == Replaying)
    && (s.mode in {ArmMode, Error} ==> s.throttle == 0)
    && (s.mode == Autonomous ==> s.throttle == CRUISE && s.direction != 1)
  }

  lemma DrivingCoupled(s: Rover, e: Event, now: nat)
    requires Commanded(s) && s.mode == Driving
    ensures Commanded(WhenDriving(s, e, now))
  {
  }

  lemma RecordingCoupled(s: Rover, e: Event, now: nat)
    requires Commanded(s) && s.mode == Recording
    ensures Commanded(WhenRecording(s, e, now)) <==> !(e.PadEvent? && Was(s.word, e.word, BitConnected))
  {
  }

  lemma ReplayingCoupled(s: Rover, e: Event)
    requires Commanded(s) && s.mode == Replaying
    ensures Commanded(WhenReplaying(s, e)) <==> !(e.PadEvent? && Was(s.word, e.word, BitConnected) && s.rec.replaying)
  {
  }

  /** The event that decouples modes and flags. */
  predicate Loses(s: Rover, e: Event) {
    && e.PadEvent? && Was(s.word, e.word, BitConnected)
    && (s.mode == Recording || (s.mode == Replaying && s.rec.replaying))
  }

  lemma DispatchCoupled(s: Rover, e: Event, now: nat)
    requires Commanded(s)
    ensures Commanded(Dispatch(s, e, now)) <==> !Loses(s, e)
  {
    match s.mode
    case Driving => DrivingCoupled(s, e, now);
    case Recording => RecordingCoupled(s, e, now);
    case Replaying => ReplayingCoupled(s, e);
    case Error =>
    case Autonomous =>
    case ArmMode =>
    case Disconnected =>
  }

  lemma ThrottleCoupled(s: Rover)
    ensures Coupled(ProcessThrottle(s)) <==> Commanded(s)
  {
  }

  lemma PadCoupled(s: Rover, p: Pad, now: nat)
    requires Coupled(s)
    ensures Coupled(ProcessPad(s, p, now)) <==> !Loses(s, PadEvent(p, WordOf(p)))
  {
    var e := PadEvent(p, WordOf(p));
    DispatchCoupled(s, e, now);
    ThrottleCoupled(Dispatch(s, e, now));
  }

  lemma SignalCoupled(s: Rover, m: Message, now: nat)
    requires Coupled(s)
    ensures Coupled(ProcessSignal(s, m, now))
  {
    DispatchCoupled(s, Signal(m), now);
    ThrottleCoupled(Dispatch(s, Signal(m), now));
  }

  lemma WordConnected(p: Pad)
    ensures BitConnected in WordOf(p) <==> p.connected
  {
  }

  lemma HandleCoupled(s: Rover, m: Message, now: nat)
    requires Coupled(s)
    ensures Coupled(HandleMessage(s, m, now))
      <==> !(m.Ps5? && Loses(s, PadEvent(Received(m.frame), WordOf(Received(m.frame)))) && Received(m.frame).latest)
  {
    match m
    case Ps5(f) => PadCoupled(s, Received(f), now);
    case StopMain =>
    case ReplayEnd => SignalCoupled(s, m, now);
    case ObstructionDetected => SignalCoupled(s, m, now);
    case ObstructionCleared => SignalCoupled(s, m, now);
    case Collision => SignalCoupled(s, m, now);
  }

  /** One step keeps flags and modes together exactly when it is quiet. */
  lemma StepCoupled(s: Rover, a: Action)
    requires Coupled(s) && Can(s, a)
    ensures Coupled(Step(s, a)) <==> Quiet(s, a)
  {
    match a
    case Main(now) =>
      var taken := s.(queue := s.queue[1..]);
      HandleCoupled(taken, s.queue[0], now);
      if s.queue[0].Ps5? { WordConnected(Received(s.queue[0].frame)); }
    case ReplayWake =>
    case ArmTick =>
    case ArmReceive =>
    case ReplayTop =>
    case Arrive(_) =>
  }

  predicate CoupledThroughout(s: Rover, run: seq<Action>)
    requires IsRun(s, run)
    decreases run
  {
    Coupled(s) && (run != [] ==> CoupledThroughout(Step(s, run[0]), run[1..]))
  }

  lemma NotCoupled(s: Rover, run: seq<Action>)
    requires IsRun(s, run) && !Coupled(s)
    ensures !CoupledThroughout(s, run)
  {
  }

  /** Throughout a run the flags are the modes, both duties are zero in arm and error mode, and
      autonomous mode runs backward, exactly when no step notices a lost controller while
      recording or replaying, whatever the other tasks do in between. */
  lemma {:induction false} RunCoupled(s: Rover, run: seq<Action>)
    requires Coupled(s) && IsRun(s, run)
    ensures CoupledThroughout(s, run) <==> QuietRun(s, run)
    ensures QuietRun(s, run) ==> Coupled(After(s, run))
    decreases run
  {
    if run != [] {
      var t := Step(s, run[0]);
      StepCoupled(s, run[0]);
      if Quiet(s, run[0]) {
        RunCoupled(t, run[1..]);
      } else {
        NotCoupled(t, run[1..]);
      }
    }
  }

  // ---- a finished replay is noticed ----

  /** A replay that ended leaves the mode machine a message to notice it by. */
  predicate NotStranded(s: Rover) {
    s.mode == Replaying && !s.rec.replaying ==> ReplayEnd in s.queue
  }

  /** When the route ends in replaying mode, its message finds room, or one is waiting already. */
  predicate Room(s: Rover, a: Action) {
    a.ReplayWake? && R.WakeEnds(s.rec) && s.mode == Replaying ==>
      |s.queue| < QUEUE_SIZE || ReplayEnd in s.queue
  }

  predicate RoomRun(s: Rover, run: seq<Action>)
    requires IsRun(s, run)
    decreases run
  {
    run != [] ==> Room(s, run[0]) && RoomRun(Step(s, run[0]), run[1..])
  }

  lemma DrivingNotStranded(s: Rover, e: Event, now: nat)
    requires s.mode == Driving
    ensures var t := WhenDriving(s, e, now); t.mode == Replaying ==> t.rec.replaying
  {
  }

  lemma ReplayingNotStranded(s: Rover, e: Event)
    requires s.mode == Replaying && (!s.rec.replaying ==> e == Signal(ReplayEnd) || ReplayEnd in s.queue)
    ensures NotStranded(WhenReplaying(s, e))
  {
  }

  lemma DispatchNotStranded(s: Rover, e: Event, now: nat)
    requires s.mode == Replaying && !s.rec.replaying ==> e == Signal(ReplayEnd) || ReplayEnd in s.queue
    ensures NotStranded(Dispatch(s, e, now))
  {
    match s.mode
    case Replaying => ReplayingNotStranded(s, e);
    case Driving => DrivingNotStranded(s, e, now);
    case Recording =>
    case Error =>
    case Autonomous =>
    case ArmMode =>
    case Disconnected =>
  }

  lemma HandleNotStranded(s: Rover, m: Message, now: nat)
    requires s.mode == Replaying && !s.rec.replaying ==> m == ReplayEnd || ReplayEnd in s.queue
    requires m != StopMain
    ensures NotStranded(HandleMessage(s, m, now))
  {
    if m.Ps5? {
      DispatchNotStranded(s, PadEvent(Received(m.frame), WordOf(Received(m.frame))), now);
    } else {
      DispatchNotStranded(s, Signal(m), now);
    }
  }

  /** One step keeps a finished replay noticeable, and in the step that ends a route it does so
      exactly when there is room: the message of a full queue is lost. */
  lemma StepNotStranded(s: Rover, a: Action)
    requires NotStranded(s) && Can(s, a)
    ensures NotStranded(Step(s, a)) <==> Room(s, a)
  {
    match a
    case Main(now) =>
      var taken := s.(queue := s.queue[1..]);
      if s.queue[0] != StopMain { HandleNotStranded(taken, s.queue[0], now); }
    case ReplayWake =>
      if R.WakeEnds(s.rec) { assert (s.queue + [ReplayEnd])[|s.queue|] == ReplayEnd; }
    case ArmTick =>
    case ArmReceive =>
    case ReplayTop =>
    case Arrive(m) =>
  }

  predicate NotStrandedThroughout(s: Rover, run: seq<Action>)
    requires IsRun(s, run)
    decreases run
  {
    NotStranded(s) && (run != [] ==> NotStrandedThroughout(Step(s, run[0]), run[1..]))
  }

  lemma Stranded(s: Rover, run: seq<Action>)
    requires IsRun(s, run) && !NotStranded(s)
    ensures !NotStrandedThroughout(s, run)
  {
  }

  /** Throughout a run finished replays are noticeable exactly when each route ends with room in
      the queue. */
  lemma {:induction false} RunNotStranded(s: Rover, run: seq<Action>)
    requires NotStranded(s) && IsRun(s, run)
    ensures NotStrandedThroughout(s, run) <==> RoomRun(s, run)
    ensures RoomRun(s, run) ==> NotStranded(After(s, run))
    decreases run
  {
    if run != [] {
      StepNotStranded(s, run[0]);
      if Room(s, run[0]) {
        RunNotStranded(Step(s, run[0]), run[1..]);
      } else {
        Stranded(Step(s, run[0]), run[1..]);
      }
    }
  }

  /** The mode machine waits for the end of a replay that is over. */
  predicate Overdue(s: Rover) { s.mode == Replaying && !s.rec.replaying }

  predicate PadLeadsOut(s: Rover, p: Pad) {
    Was(s.word, WordOf(p), BitConnected) || IsNow(s.word, WordOf(p), BitReplay)
  }

  /** The messages that end this waiting: an end message, a lost controller, a replay press. */
  predicate LeadsOut(s: Rover, m: Message) {
    m == ReplayEnd || (m.Ps5? && Received(m.frame).latest && PadLeadsOut(s, Received(m.frame)))
  }

  lemma OverduePad(s: Rover, p: Pad, now: nat)
    requires Inv(s) && Overdue(s)
    ensures Overdue(ProcessPad(s, p, now)) <==> !PadLeadsOut(s, p)
  {
  }

  lemma OverdueMessage(s: Rover, m: Message, now: nat)
    requires Inv(s) && Overdue(s)
    ensures Overdue(HandleMessage(s, m, now)) <==> !LeadsOut(s, m)
  {
    if m.Ps5? { OverduePad(s, Received(m.frame), now); }
  }

  /** Exactly these messages end the waiting, with a replay again or without; no step of another
      task does. */
  lemma OverdueUntil(s: Rover, a: Action)
    requires Inv(s) && Overdue(s) && Can(s, a)
    ensures Overdue(Step(s, a)) <==> !(a.Main? && LeadsOut(s, s.queue[0]))
  {
    match a
    case Main(now) => OverdueMessage(s.(queue := s.queue[1..]), s.queue[0], now);
    case ReplayWake =>
    case ArmTick =>
    case ArmReceive =>
    case ReplayTop =>
    case Arrive(_) =>
  }

  // ---- the mode machine then leaves replaying mode ----

  /** The replay is over, and the mode machine has yet to find out. */
  predicate Unaware(s: Rover) {
    s.mode == Replaying && !s.rec.replaying && !s.stopped
  }

  /** The end message returns to driving if the replay is still over; a stale one, of a replay
      that was stopped before the present one, changes no mode. */
  lemma EndMessage(s: Rover, now: nat)
    requires s.mode == Replaying
    ensures HandleMessage(s, ReplayEnd, now).mode == if s.rec.replaying then Replaying else Driving
  {
  }

  lemma UnawareMain(s: Rover, now: nat)
    requires Unaware(s) && s.queue != [] && Unaware(Step(s, Main(now)))
    ensures s.queue[0] != ReplayEnd && Step(s, Main(now)).queue == s.queue[1..]
  {
    var taken := s.(queue := s.queue[1..]);
    if s.queue[0] == ReplayEnd { EndMessage(taken, now); }
  }

  function MainSteps(run: seq<Action>): nat
    decreases run
  {
    if run == [] then 0 else (if run[0].Main? then 1 else 0) + MainSteps(run[1..])
  }

  /** With the end message at place k of the queue, at most k + 1 main steps pass before the mode
      machine leaves replaying mode or a new replay starts, whatever happens in between. */
  lemma {:induction false} EndIsNoticed(s: Rover, run: seq<Action>, k: nat) returns (j: nat)
    requires IsRun(s, run) && k < |s.queue| && s.queue[k] == ReplayEnd && k < MainSteps(run)
    ensures j <= |run| && IsRun(s, run[..j]) && !Unaware(After(s, run[..j]))
    ensures MainSteps(run[..j]) <= k + 1
    decreases run
  {
    var a, t := run[0], Step(s, run[0]);
    if !Unaware(s) {
      j := 0;
    } else if !Unaware(t) {
      j := 1;
      assert run[..1] == [a] && run[..1][1..] == [];
    } else {
      if a.Main? { UnawareMain(s, a.now); }
      var i := EndIsNoticed(t, run[1..], if a.Main? then k - 1 else k);
      j := i + 1;
      assert run[..j][1..] == run[1..][..i];
    }
  }

  // ---- what a step does to the recorder ----

  /** Main steps touch neither the cursor nor, unless recording, the buffer. */
  predicate RecorderKept(r: R.Recorder, t: R.Recorder, now: nat) {
    && t.cursor == r.cursor
    && (r.replaying || t.replaying || !t.recording ==> t.route == r.route && t.routeIndex == r.routeIndex)
    && (r.replaying ==> !t.recording && t.pc == r.pc)
    && (t.replaying && !r.replaying ==>
          0 < t.routeIndex && !t.recording && t.pc == if r.pc == R.Parked then R.LoopTop else r.pc)
    && (!t.replaying ==> t.pc == r.pc)
    && (t.recording && !r.recording ==> t == R.RecordStart(r, now))
  }

  lemma TogglesKept(r: R.Recorder, now: nat)
    requires r.replaying ==> !r.recording
    ensures RecorderKept(r, r, now) && RecorderKept(r, R.ToggleRecord(r, now), now)
    ensures RecorderKept(r, R.ToggleReplay(r), now) && RecorderKept(r, R.ToggleReplay(R.ToggleRecord(r, now)), now)
  {
  }

  lemma ProcessKept(r: R.Recorder, m: Metrics, now: nat)
    requires r.replaying ==> !r.recording
    ensures RecorderKept(r, R.RecordProcess(r, m, now), now)
  {
  }

  lemma DrivingReplayRecorder(s: Rover, e: Event)
    requires e.PadEvent?
    ensures DrivingReplay(s, e).rec in [s.rec, R.ToggleReplay(s.rec)]
  {
  }

  lemma DrivingRecorder(s: Rover, e: Event, now: nat)
    requires s.rec.replaying ==> !s.rec.recording
    ensures RecorderKept(s.rec, WhenDriving(s, e, now).rec, now)
  {
    TogglesKept(s.rec, now);
    if e.PadEvent? {
      DrivingReplayRecorder(s, e);
      DrivingReplayRecorder(ToggleRecord(s, now), e);
    }
  }

  lemma RecordingRecorder(s: Rover, e: Event, now: nat)
    requires s.rec.recording && (s.rec.replaying ==> !s.rec.recording)
    ensures RecorderKept(s.rec, WhenRecording(s, e, now).rec, now)
  {
    TogglesKept(s.rec, now);
    if e.PadEvent? { ProcessKept(s.rec, Drive(s, e.pad).metrics, now); }
  }

  lemma DispatchRecorder(s: Rover, e: Event, now: nat)
    requires (s.rec.replaying ==> !s.rec.recording) && (s.mode == Recording ==> s.rec.recording)
    ensures RecorderKept(s.rec, Dispatch(s, e, now).rec, now)
  {
    match s.mode
    case Driving => DrivingRecorder(s, e, now);
    case Recording => RecordingRecorder(s, e, now);
    case Replaying => TogglesKept(s.rec, now);
    case Error =>
    case Autonomous =>
    case ArmMode =>
    case Disconnected =>
  }

  lemma HandleRecorder(s: Rover, m: Message, now: nat)
    requires (s.rec.replaying ==> !s.rec.recording) && (s.mode == Recording ==> s.rec.recording)
    ensures RecorderKept(s.rec, HandleMessage(s, m, now).rec, now)
  {
    if m.Ps5? {
      DispatchRecorder(s, PadEvent(Received(m.frame), WordOf(Received(m.frame))), now);
    } else {
      DispatchRecorder(s, Signal(m), now);
    }
  }

  lemma MainRecorder(s: Rover, now: nat)
    requires Inv(s) && Can(s, Main(now))
    ensures RecorderKept(s.rec, Step(s, Main(now)).rec, now)
  {
    HandleRecorder(s.(queue := s.queue[1..]), s.queue[0], now);
  }

  // ---- only recorded slots are played ----

  /** The cursor of a running replay is inside the recorded part of the buffer. */
  predicate InRoute(s: Rover) {
    s.rec.replaying ==> s.rec.cursor < s.rec.routeIndex
  }

  /** If the step starts a replay, the cursor left by the last one is inside the route. */
  predicate StartsInside(s: Rover, a: Action)
    requires Can(s, a)
  {
    !s.rec.replaying && Step(s, a).rec.replaying ==> s.rec.cursor < s.rec.routeIndex
  }

  predicate StartsInsideRun(s: Rover, run: seq<Action>)
    requires IsRun(s, run)
    decreases run
  {
    run != [] ==> StartsInside(s, run[0]) && StartsInsideRun(Step(s, run[0]), run[1..])
  }

  predicate InRouteThroughout(s: Rover, run: seq<Action>)
    requires IsRun(s, run)
    decreases run
  {
    InRoute(s) && (run != [] ==> InRouteThroughout(Step(s, run[0]), run[1..]))
  }

  lemma NotInRoute(s: Rover, run: seq<Action>)
    requires IsRun(s, run) && !InRoute(s)
    ensures !InRouteThroughout(s, run)
  {
  }

  /** A step leaves a route only by starting a replay where the last one stopped, beyond its end. */
  lemma StepInRouteIff(s: Rover, a: Action)
    requires InRoute(s) && Inv(s) && Can(s, a)
    ensures InRoute(Step(s, a)) <==> StartsInside(s, a)
  {
    match a
    case Main(now) => MainRecorder(s, now);
    case ReplayWake =>
    case ArmTick =>
    case ArmReceive =>
    case ReplayTop =>
    case Arrive(_) =>
  }

  /** A parked task has its cursor at the start: parking before each start is enough. */
  lemma ParkedStartsInside(s: Rover, a: Action)
    requires Inv(s) && Can(s, a) && s.rec.pc == R.Parked
    ensures StartsInside(s, a)
  {
    if a.Main? { MainRecorder(s, a.now); }
  }

  /** Replays play recorded slots only, throughout a run, exactly when each starts inside its route. */
  lemma {:induction false} RunInRouteIff(s: Rover, run: seq<Action>)
    requires InRoute(s) && Inv(s) && IsRun(s, run)
    ensures InRouteThroughout(s, run) <==> StartsInsideRun(s, run)
    ensures StartsInsideRun(s, run) ==> InRoute(After(s, run))
    decreases run
  {
    if run != [] {
      var t := Step(s, run[0]);
      StepInRouteIff(s, run[0]);
      StepKeeps(s, run[0]);
      if StartsInside(s, run[0]) {
        RunInRouteIff(t, run[1..]);
      } else {
        NotInRoute(t, run[1..]);
      }
    }
  }

  /** Whenever a replay starts, the replay task has parked since the last one. */
  predicate StartsParkedRun(s: Rover, run: seq<Action>)
    requires IsRun(s, run)
    decreases run
  {
    run != [] ==>
      (!s.rec.replaying && Step(s, run[0]).rec.replaying ==> s.rec.pc == R.Parked)
      && StartsParkedRun(Step(s, run[0]), run[1..])
  }

  lemma {:induction false} RunInRoute(s: Rover, run: seq<Action>)
    requires InRoute(s) && Inv(s) && IsRun(s, run) && StartsParkedRun(s, run)
    ensures StartsInsideRun(s, run) && InRoute(After(s, run))
    decreases run
  {
    if run != [] {
      if s.rec.pc == R.Parked { ParkedStartsInside(s, run[0]); }
      StepInRouteIff(s, run[0]);
      StepKeeps(s, run[0]);
      RunInRoute(Step(s, run[0]), run[1..]);
    }
  }

  // ---- the start ----

  /** All three disciplines start out kept. */
  lemma InitialDiscipline(curve: ThrottleMap)
    ensures Coupled(Initial(curve)) && NotStranded(Initial(curve)) && InRoute(Initial(curve))
  {
  }
}
