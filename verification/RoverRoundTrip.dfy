/** Record, then replay: from the step that starts a recording to the end of its replay, in any
    interleaving of the tasks and with anything in between that leaves the recorder alone. */
module RoverRoundTrip {
  import opened Common
  import opened PadData
  import opened Servo
  import opened ThrottleTable
  import opened Rover
  import opened RoverInvariants
  import opened RoverProtocol
  import opened RoverReplay
  import R = RouteRecorder

  // ---- the parts of a run ----

  lemma {:induction false} DriveSplit(s: Rover, run: seq<Action>, n: nat)
    requires IsRun(s, run) && n <= |run| && DriveRun(s, run)
    ensures IsRun(s, run[..n]) && DriveRun(s, run[..n])
    decreases n
  {
    if n > 0 {
      DriveSplit(Step(s, run[0]), run[1..], n - 1);
      assert run[..n][1..] == run[1..][..n - 1];
    }
  }

  lemma {:induction false} PacketsPrefix(s: Rover, run: seq<Action>, n: nat)
    requires IsRun(s, run) && n <= |run|
    ensures IsRun(s, run[..n]) && |Packets(s, run[..n])| <= |Packets(s, run)|
    ensures Packets(s, run[..n]) == Packets(s, run)[..|Packets(s, run[..n])|]
    decreases n
  {
    if n > 0 {
      PacketsPrefix(Step(s, run[0]), run[1..], n - 1);
      assert run[..n][1..] == run[1..][..n - 1];
    }
  }

  lemma {:induction false} RunNext(s: Rover, run: seq<Action>, n: nat)
    requires IsRun(s, run) && n < |run|
    ensures IsRun(s, run[..n]) && IsRun(s, run[..n + 1]) && Can(After(s, run[..n]), run[n])
    ensures After(s, run[..n + 1]) == Step(After(s, run[..n]), run[n])
    decreases n
  {
    if n == 0 {
      assert run[..1] == [run[0]] && run[..1][1..] == [];
    } else {
      RunNext(Step(s, run[0]), run[1..], n - 1);
      assert run[..n][1..] == run[1..][..n - 1] && run[..n + 1][1..] == run[1..][..n];
    }
  }

  /** The step after n others, and its packet. */
  function PacketAfter(s: Rover, run: seq<Action>, n: nat): seq<Packet>
    requires IsRun(s, run) && n < |run|
  {
    RunNext(s, run, n);
    PacketOf(After(s, run[..n]), run[n])
  }

  lemma PacketAfterFirst(s: Rover, run: seq<Action>, n: nat)
    requires IsRun(s, run) && 0 < n < |run|
    ensures PacketAfter(s, run, n) == PacketAfter(Step(s, run[0]), run[1..], n - 1)
  {
    RunNext(s, run, n);
    assert run[..n][1..] == run[1..][..n - 1];
  }

  lemma FirstPacketOf(s: Rover, run: seq<Action>, n: nat)
    requires IsRun(s, run) && 0 < n <= |run| && IsRun(s, run[..n]) && IsRun(Step(s, run[0]), run[1..][..n - 1])
    ensures Packets(s, run[..n]) == PacketOf(s, run[0]) + Packets(Step(s, run[0]), run[1..][..n - 1])
  {
    assert run[..n][1..] == run[1..][..n - 1];
  }

  lemma FirstPacketAfter(s: Rover, run: seq<Action>)
    requires IsRun(s, run) && run != []
    ensures IsRun(s, run[..1]) && Packets(s, run[..1]) == PacketAfter(s, run, 0)
  {
    RunNext(s, run, 0);
    assert run[..1] == [run[0]] && run[..1][1..] == [];
  }

  lemma Assoc(x: seq<Packet>, y: seq<Packet>, z: seq<Packet>)
    ensures x + (y + z) == (x + y) + z
  {
  }

  lemma {:induction false} PacketsNext(s: Rover, run: seq<Action>, n: nat)
    requires IsRun(s, run) && n < |run|
    ensures IsRun(s, run[..n]) && IsRun(s, run[..n + 1])
    ensures Packets(s, run[..n + 1]) == Packets(s, run[..n]) + PacketAfter(s, run, n)
    decreases n
  {
    RunNext(s, run, n);
    if n == 0 {
      FirstPacketAfter(s, run);
    } else {
      var t, rest := Step(s, run[0]), run[1..];
      PacketsNext(t, rest, n - 1);
      FirstPacketOf(s, run, n);
      FirstPacketOf(s, run, n + 1);
      PacketAfterFirst(s, run, n);
      Assoc(PacketOf(s, run[0]), Packets(t, rest[..n - 1]), PacketAfter(t, rest, n - 1));
    }
  }

  /** The number of the packet that step n handles, if it handles one. */
  lemma PacketPlace(s: Rover, run: seq<Action>, n: nat)
    requires IsRun(s, run) && n < |run| && PacketAfter(s, run, n) != []
    ensures IsRun(s, run[..n]) && IsRun(s, run[..n + 1])
    ensures var i := |Packets(s, run[..n])|;
      && i < |Packets(s, run)| && PacketAfter(s, run, n) == [Packets(s, run)[i]]
      && |Packets(s, run[..n + 1])| == i + 1
  {
    PacketsNext(s, run, n);
    PacketsPrefix(s, run, n + 1);
    var i, x := |Packets(s, run[..n])|, PacketAfter(s, run, n);
    assert Packets(s, run[..n + 1])[i] == x[0];
  }

  // ---- what was in force while recording ----

  /** The duties of the sample that goes with packet i. */
  function SampleDuty(r: Rover, packets: seq<Packet>, i: nat): Duty
    requires i <= |packets|
  {
    DutyFor(r.curve, ThrottleBefore(r, packets, i), DirectionBefore(r, packets, i))
  }

  lemma SessionDuty(s: Rover, packets: seq<Packet>, i: nat, t: Rover)
    requires i <= |packets| && Session(s, packets[..i], t)
    ensures t.duty == SampleDuty(s, packets, i)
    ensures i > 0 ==> t.steeringPulse == AngleToCompare(packets[i - 1].pad.lx / 4)
  {
    assert i > 0 ==> packets[..i][i - 1] == packets[i - 1];
  }

  /** The motor duties in force after i packets of a drive are those of the next one's sample,
      the steering that of the last one's. */
  lemma InForce(s: Rover, run: seq<Action>, n: nat)
    requires Inv(s) && s.mode == Recording && IsRun(s, run) && DriveRun(s, run) && n <= |run|
    ensures IsRun(s, run[..n]) && |Packets(s, run[..n])| <= |Packets(s, run)|
    ensures var packets, i := Packets(s, run), |Packets(s, run[..n])|;
      && After(s, run[..n]).duty == SampleDuty(s, packets, i)
      && (i > 0 ==> After(s, run[..n]).steeringPulse == AngleToCompare(packets[i - 1].pad.lx / 4))
  {
    DriveSplit(s, run, n);
    PacketsPrefix(s, run, n);
    DriveIsOffered(s, run[..n]);
    SessionDuty(s, Packets(s, run), |Packets(s, run[..n])|, After(s, run[..n]));
  }

  // ---- the recorder left alone ----

  predicate RecorderIdle(s: Rover) { !s.rec.recording && !s.rec.replaying }

  /** After each step the recorder is idle. */
  predicate Resting(s: Rover, run: seq<Action>)
    requires IsRun(s, run)
    decreases run
  {
    run != [] ==> RecorderIdle(Step(s, run[0])) && Resting(Step(s, run[0]), run[1..])
  }

  /** A step that ends with the recorder not recording, however it does that, keeps the route. */
  lemma StepKeepsRoute(s: Rover, a: Action)
    requires Inv(s) && Can(s, a) && !Step(s, a).rec.recording
    ensures SameRoute(s, Step(s, a))
  {
    StepCurve(s, a);
    if a.Main? { MainRecorder(s, a.now); }
  }

  lemma {:induction false} RestingKeepsRoute(s: Rover, run: seq<Action>)
    requires Inv(s) && RecorderIdle(s) && IsRun(s, run) && Resting(s, run)
    ensures SameRoute(s, After(s, run)) && RecorderIdle(After(s, run)) && Inv(After(s, run))
    decreases run
  {
    if run != [] {
      StepKeepsRoute(s, run[0]);
      StepKeeps(s, run[0]);
      RestingKeepsRoute(Step(s, run[0]), run[1..]);
    }
  }

  lemma DrivingReplayStartsNoRecording(s: Rover, e: Event)
    requires e.PadEvent? && !s.rec.recording
    ensures !DrivingReplay(s, e).rec.recording
  {
    DrivingReplayRecorder(s, e);
  }

  lemma DrivingStartsRecording(s: Rover, e: Event, now: nat)
    requires s.mode == Driving && !s.rec.recording && WhenDriving(s, e, now).rec.recording
    ensures WhenDriving(s, e, now).mode == Recording
  {
    if e.PadEvent? {
      DrivingReplayStartsNoRecording(s, e);
      if !ToggleRecord(s, now).rec.recording { DrivingReplayStartsNoRecording(ToggleRecord(s, now), e); }
    }
  }

  lemma DispatchStartsRecording(s: Rover, e: Event, now: nat)
    requires !s.rec.recording && Dispatch(s, e, now).rec.recording && s.mode != Recording
    ensures Dispatch(s, e, now).mode == Recording
  {
    match s.mode
    case Driving => DrivingStartsRecording(s, e, now);
    case Replaying =>
    case Error =>
    case Autonomous =>
    case ArmMode =>
    case Disconnected =>
  }

  /** Whatever step turns recording on: it is a main step, it starts an empty route and enters
      recording mode. */
  lemma StartsRecording(s: Rover, a: Action)
    requires Inv(s) && !s.rec.recording && Can(s, a) && Step(s, a).rec.recording
    ensures a.Main? && Step(s, a).mode == Recording && Step(s, a).rec == R.RecordStart(s.rec, a.now)
    ensures Step(s, a).rec.routeIndex == 0 && Step(s, a).curve == s.curve
  {
    StepCurve(s, a);
    if a.Main? {
      MainRecorder(s, a.now);
      var m := s.queue[0];
      var e := if m.Ps5? then PadEvent(Received(m.frame), WordOf(Received(m.frame))) else Signal(m);
      DispatchStartsRecording(s.(queue := s.queue[1..]), e, a.now);
    }
  }

  /** How a packet of a connected controller ends a recording: by a press of the record button, or
      by finding the buffer full. Either way the recorder is idle afterwards. */
  lemma RecordingEndsIff(s: Rover, p: Pad, now: nat)
    requires Inv(s) && s.mode == Recording && p.connected
    ensures var t := ProcessPad(s, p, now);
      && (RecorderIdle(t) <==> IsNow(s.word, WordOf(p), BitRecord) || s.rec.routeIndex == 300)
      && (RecorderIdle(t) <==> !t.rec.recording)
  {
    assert BitConnected in WordOf(p);
  }

  // ---- the whole cycle ----

  /** A recording and its replay: the step that starts the recording, the drive, the step that ends
      the recording, whatever comes in between, the step that starts the replay; and the states
      before and after each. */
  datatype Cycle = Cycle(
    idle: Rover, start: Action, recorder: Rover, drive: seq<Action>, driven: Rover, stop: Action, stopped: Rover,
    between: seq<Action>, waited: Rover, play: Action, playing: Rover)

  /** The recording may end by the record button or by a packet that finds the buffer full; in
      between the rover may drive, move its arm or lose its controller. */
  predicate IsCycle(c: Cycle) {
    && Inv(c.idle) && RecorderIdle(c.idle)
    && Can(c.idle, c.start) && c.recorder == Step(c.idle, c.start) && c.recorder.rec.recording
    && Leads(c.recorder, c.drive, c.driven) && DriveRun(c.recorder, c.drive) && c.driven.rec.recording
    && Can(c.driven, c.stop) && c.stopped == Step(c.driven, c.stop) && RecorderIdle(c.stopped)
    && Leads(c.stopped, c.between, c.waited) && Resting(c.stopped, c.between)
    && Can(c.waited, c.play) && c.playing == Step(c.waited, c.play) && c.playing.rec.replaying
  }

  /** A cycle is one run. */
  function CycleRun(c: Cycle): seq<Action> { [c.start] + c.drive + [c.stop] + c.between + [c.play] }

  lemma CycleLeads(c: Cycle)
    requires IsCycle(c)
    ensures Leads(c.idle, CycleRun(c), c.playing)
  {
    LeadsOne(c.idle, c.start);
    LeadsOn(c.idle, [c.start], c.recorder, c.drive, c.driven);
    LeadsOne(c.driven, c.stop);
    LeadsOn(c.idle, [c.start] + c.drive, c.driven, [c.stop], c.stopped);
    LeadsOn(c.idle, [c.start] + c.drive + [c.stop], c.stopped, c.between, c.waited);
    LeadsOne(c.waited, c.play);
    LeadsOn(c.idle, [c.start] + c.drive + [c.stop] + c.between, c.waited, [c.play], c.playing);
  }

  function Driven(c: Cycle): seq<Packet>
    requires IsCycle(c)
  {
    Packets(c.recorder, c.drive)
  }

  /** What was recorded: the motions of the drive without consecutive duplicates. */
  function Route(c: Cycle): seq<R.Motion>
    requires IsCycle(c)
  {
    R.Dedup(LaggedMotions(c.recorder, Driven(c)))
  }

  lemma CycleRecords(c: Cycle)
    requires IsCycle(c)
    ensures Inv(c.recorder) && c.recorder.mode == Recording && c.recorder.rec.routeIndex == 0
    ensures Inv(c.driven) && R.Recorded(c.driven.rec) == Route(c) && c.driven.curve == c.recorder.curve
    ensures R.SameTape(c.driven.rec, R.RecordAll(c.recorder.rec, Offers(c.recorder, Driven(c))))
  {
    StartsRecording(c.idle, c.start);
    StepKeeps(c.idle, c.start);
    DriveIsOffered(c.recorder, c.drive);
    DriveIsRecorded(c.recorder, c.drive);
  }

  lemma CycleKeepsRoute(c: Cycle)
    requires IsCycle(c)
    ensures Inv(c.waited) && RecorderIdle(c.waited) && SameRoute(c.driven, c.waited)
  {
    CycleRecords(c);
    StepKeepsRoute(c.driven, c.stop);
    StepKeeps(c.driven, c.stop);
    RestingKeepsRoute(c.stopped, c.between);
  }

  /** What the replay starts from: the recorded route, and the cursor its task has at that moment. */
  lemma CycleIsReady(c: Cycle)
    requires IsCycle(c)
    ensures Inv(c.playing) && SameRoute(c.driven, c.playing)
    ensures R.Recorded(c.playing.rec) == Route(c) && |Route(c)| == c.playing.rec.routeIndex
    ensures c.playing.rec.cursor == c.waited.rec.cursor
    ensures c.waited.rec.pc == R.Parked ==> OnRoute(c.playing) && c.playing.rec.pc == R.LoopTop && c.playing.rec.cursor == 0
  {
    CycleRecords(c);
    CycleKeepsRoute(c);
    StepKeeps(c.waited, c.play);
    StepKeepsRoute(c.waited, c.play);
    if c.play.Main? { MainRecorder(c.waited, c.play.now); }
  }

  /** The new replay plays recorded slots exactly if the cursor left by the last one lies inside
      the new route; it does if the replay task has parked. */
  lemma RestartInRouteIff(c: Cycle)
    requires IsCycle(c)
    ensures InRoute(c.playing) <==> c.waited.rec.cursor < |Route(c)|
    ensures c.waited.rec.pc == R.Parked ==> InRoute(c.playing)
  {
    CycleIsReady(c);
  }

  /** No step of the replay task. */
  predicate TaskSleeps(run: seq<Action>) {
    forall i :: 0 <= i < |run| ==> !run[i].ReplayTop? && !run[i].ReplayWake?
  }

  lemma {:induction false} CursorStays(s: Rover, run: seq<Action>)
    requires Inv(s) && IsRun(s, run) && TaskSleeps(run)
    ensures After(s, run).rec.cursor == s.rec.cursor && Inv(After(s, run))
    decreases run
  {
    if run != [] {
      assert !run[0].ReplayTop? && !run[0].ReplayWake?;
      assert forall i :: 0 <= i < |run| - 1 ==> run[1..][i] == run[i + 1];
      if run[0].Main? { MainRecorder(s, run[0].now); }
      StepKeeps(s, run[0]);
      CursorStays(Step(s, run[0]), run[1..]);
    }
  }

  lemma StopKeepsCursor(s: Rover, a: Action)
    requires Inv(s) && Can(s, a) && s.rec.recording && !Step(s, a).rec.recording
    ensures Step(s, a).rec.cursor == s.rec.cursor
  {
    if a.Main? { MainRecorder(s, a.now); }
  }

  /** A replay stopped, recorded over and started again before its task has run: the new one starts
      where the old one was stopped, and plays recorded slots exactly if the new route is longer. */
  lemma HastyRestartIff(c: Cycle)
    requires IsCycle(c) && TaskSleeps(c.drive) && TaskSleeps(c.between)
    ensures InRoute(c.playing) <==> c.idle.rec.cursor < |Route(c)|
  {
    StartsRecording(c.idle, c.start);
    CycleRecords(c);
    CursorStays(c.recorder, c.drive);
    StepKeeps(c.driven, c.stop);
    StopKeepsCursor(c.driven, c.stop);
    CursorStays(c.stopped, c.between);
    RestartInRouteIff(c);
  }

  // ---- the replay of a cycle ----

  /** A replay of the cycle's route, started from a parked task and run without interruption. */
  predicate IsReplay(c: Cycle, run: seq<Action>) {
    IsCycle(c) && c.waited.rec.pc == R.Parked && IsRun(c.playing, run) && Uninterrupted(c.playing, run)
  }

  lemma IssuedByReplay(c: Cycle, run: seq<Action>)
    requires IsReplay(c, run)
    ensures var t := After(c.playing, run);
      && SameRoute(c.playing, t) && Position(t) <= |Route(c)| == c.playing.rec.routeIndex
      && Issued(c.playing, run) == Slots(c.playing.curve, c.playing.rec, 0, Position(t))
      && (if t.rec.replaying then OnRoute(t) else Ended(t))
  {
    CycleIsReady(c);
    ReplayIssues(c.playing, run);
  }

  lemma SlotIssue(curve: ThrottleMap, r: R.Recorder, to: nat, k: nat)
    requires k < to <= r.routeIndex
    ensures |Slots(curve, r, 0, to)| == to && |R.Recorded(r)| == r.routeIndex
    ensures Slots(curve, r, 0, to)[k] == IssueOf(curve, r.route[k]) && R.Recorded(r)[k] == R.SampleMotion(r.route[k])
  {
    var slots := Slots(curve, r, 0, to);
    assert slots[k] == IssueOf(curve, r.route[0 + k]);
    assert r.route[..r.routeIndex][k] == r.route[k];
  }

  lemma MotionPlayed(curve: ThrottleMap, r: R.Recorder, to: nat, k: nat, m: R.Motion)
    requires k < to <= r.routeIndex && k < |R.Recorded(r)| && R.Recorded(r)[k] == m && 0 <= m.throttle < 256
    ensures var slots := Slots(curve, r, 0, to);
      && k < |slots| && slots[k].motion == m
      && slots[k].duty == DutyFor(curve, m.throttle, m.direction) && slots[k].pulse == AngleToCompare(m.steering)
  {
    SlotIssue(curve, r, to, k);
  }

  /** Every uninterrupted replay, whatever the other tasks do meanwhile, issues the recorded motions
      in order, once each, up to where it has come; if it has ended, all of them, with the task
      parked, the end message sent and the route intact. */
  lemma ReplayOfCycle(c: Cycle, run: seq<Action>)
    requires IsReplay(c, run)
    ensures var t, issues := After(c.playing, run), Issued(c.playing, run);
      && SameRoute(c.playing, t)
      && |issues| == (if t.rec.replaying then t.rec.cursor else |Route(c)|) <= |Route(c)|
      && (forall k :: 0 <= k < |issues| ==> issues[k].motion == Route(c)[k])
      && (!t.rec.replaying ==> Ended(t))
  {
    IssuedByReplay(c, run);
    CycleIsReady(c);
    var issues, r := Issued(c.playing, run), c.playing.rec;
    forall k | 0 <= k < Position(After(c.playing, run)) ensures issues[k].motion == Route(c)[k] {
      SlotIssue(c.playing.curve, r, Position(After(c.playing, run)), k);
    }
  }

  lemma Completion(s: Rover) returns (run: seq<Action>)
    requires OnRoute(s) && s.rec.pc == R.LoopTop
    ensures IsRun(s, run) && Uninterrupted(s, run) && !After(s, run).rec.replaying
  {
    AloneCompletes(s);
    run := Alone(s.rec.routeIndex - s.rec.cursor);
  }

  /** Such a replay can always be completed. */
  lemma ReplayCompletes(c: Cycle) returns (run: seq<Action>)
    requires IsCycle(c) && c.waited.rec.pc == R.Parked
    ensures IsRun(c.playing, run) && Uninterrupted(c.playing, run) && !After(c.playing, run).rec.replaying
  {
    CycleIsReady(c);
    run := Completion(c.playing);
  }

  // ---- packet by packet ----

  /** The slot of packet i of a drive: the number of the run of equal samples it belongs to. */
  function SlotOf(r: Rover, packets: seq<Packet>, i: nat): int
    requires i < |packets|
  {
    |R.Dedup(LaggedMotions(r, packets)[..i + 1])| - 1
  }

  lemma SlotsAscend(ms: seq<R.Motion>, i: nat)
    requires i < |ms|
    ensures 1 <= |R.Dedup(ms[..i + 1])| <= |R.Dedup(ms)| && R.Dedup(ms)[|R.Dedup(ms[..i + 1])| - 1] == ms[i]
    ensures |R.Dedup(ms[..1])| == 1
    ensures i + 1 < |ms| ==> |R.Dedup(ms[..i + 2])| - |R.Dedup(ms[..i + 1])| in {0, 1}
  {
    R.DedupCovers(ms, i);
    R.DedupCovers(ms, 0);
    assert ms[..1][..0] == [];
    if i + 1 < |ms| { R.DedupCovers(ms, i + 1); }
  }

  /** Consecutive packets have the same slot or consecutive ones, from slot 0 on. */
  lemma SlotsInOrder(r: Rover, packets: seq<Packet>, i: nat)
    requires i < |packets|
    ensures SlotOf(r, packets, 0) == 0
    ensures i + 1 < |packets| ==> SlotOf(r, packets, i + 1) - SlotOf(r, packets, i) in {0, 1}
  {
    SlotsAscend(LaggedMotions(r, packets), i);
  }

  predicate PlaysAs(issues: seq<Issue>, k: int, duty: Duty, pulse: u32) {
    0 <= k < |issues| ==> issues[k].duty == duty && issues[k].pulse == pulse
  }

  lemma SlotPlays(curve: ThrottleMap, u: R.Recorder, to: nat, r: Rover, packets: seq<Packet>, i: nat, issues: seq<Issue>)
    requires i < |packets| && to <= u.routeIndex && issues == Slots(curve, u, 0, to) && curve == r.curve
    requires R.Recorded(u) == R.Dedup(LaggedMotions(r, packets))
    ensures 0 <= SlotOf(r, packets, i) < |R.Recorded(u)|
    ensures PlaysAs(issues, SlotOf(r, packets, i), SampleDuty(r, packets, i), AngleToCompare(packets[i].pad.lx / 4))
  {
    var ms, k := LaggedMotions(r, packets), SlotOf(r, packets, i);
    SlotsAscend(ms, i);
    if k < |issues| { MotionPlayed(curve, u, to, k, ms[i]); }
  }

  lemma ReplayPlays(c: Cycle, run: seq<Action>, i: nat)
    requires IsReplay(c, run) && i < |Driven(c)|
    ensures 0 <= SlotOf(c.recorder, Driven(c), i) < |Route(c)|
    ensures PlaysAs(Issued(c.playing, run), SlotOf(c.recorder, Driven(c), i),
                    SampleDuty(c.recorder, Driven(c), i), AngleToCompare(Driven(c)[i].pad.lx / 4))
  {
    CycleRecords(c);
    CycleIsReady(c);
    IssuedByReplay(c, run);
    SlotPlays(c.playing.curve, c.playing.rec, Position(After(c.playing, run)), c.recorder, Driven(c), i,
              Issued(c.playing, run));
  }

  /** The duties when step n of a drive handles its packet, and the steering it then sets. */
  lemma ForceAt(r: Rover, run: seq<Action>, n: nat)
    requires Inv(r) && r.mode == Recording && IsRun(r, run) && DriveRun(r, run)
    requires n < |run| && PacketAfter(r, run, n) != []
    ensures IsRun(r, run[..n]) && IsRun(r, run[..n + 1])
    ensures var i := |Packets(r, run[..n])|;
      && i < |Packets(r, run)|
      && After(r, run[..n]).duty == SampleDuty(r, Packets(r, run), i)
      && After(r, run[..n + 1]).steeringPulse == AngleToCompare(Packets(r, run)[i].pad.lx / 4)
  {
    PacketPlace(r, run, n);
    InForce(r, run, n);
    InForce(r, run, n + 1);
  }

  /** For every packet of the drive the replay, if it comes that far, sets the motors as they were
      when the packet came and the steering as the packet set it, in the slot of the packet. */
  lemma ReplayedAsDriven(c: Cycle, run: seq<Action>, n: nat)
    requires IsReplay(c, run) && n < |c.drive| && PacketAfter(c.recorder, c.drive, n) != []
    ensures IsRun(c.recorder, c.drive[..n]) && IsRun(c.recorder, c.drive[..n + 1])
    ensures var i := |Packets(c.recorder, c.drive[..n])|;
      && i < |Driven(c)| && 0 <= SlotOf(c.recorder, Driven(c), i) < |Route(c)|
      && PlaysAs(Issued(c.playing, run), SlotOf(c.recorder, Driven(c), i),
                 After(c.recorder, c.drive[..n]).duty, After(c.recorder, c.drive[..n + 1]).steeringPulse)
  {
    CycleRecords(c);
    ForceAt(c.recorder, c.drive, n);
    ReplayPlays(c, run, |Packets(c.recorder, c.drive[..n])|);
  }

  // ---- how long the replay takes ----

  function SumTicks(issues: seq<Issue>): nat
    decreases issues
  {
    if issues == [] then 0 else SumTicks(issues[..|issues| - 1]) + issues[|issues| - 1].ticks
  }

  /** The ticks of everything recorded. */
  function RouteTicks(r: R.Recorder): nat { R.TotalTicks(r.route[..r.routeIndex]) }

  lemma {:induction false} TicksOfSlots(curve: ThrottleMap, r: R.Recorder, k: nat)
    requires k <= r.routeIndex
    ensures SumTicks(Slots(curve, r, 0, r.routeIndex)[..k]) == R.TotalTicks(r.route[..k])
    decreases k
  {
    if k > 0 {
      var slots := Slots(curve, r, 0, r.routeIndex);
      TicksOfSlots(curve, r, k - 1);
      SlotIssue(curve, r, r.routeIndex, k - 1);
      assert slots[..k][..k - 1] == slots[..k - 1] && slots[..k][k - 1] == slots[k - 1];
      assert r.route[..k][..k - 1] == r.route[..k - 1] && r.route[..k][k - 1] == r.route[k - 1];
    }
  }

  lemma TicksOfRoute(curve: ThrottleMap, u: R.Recorder, t: R.Recorder, issues: seq<Issue>)
    requires u.route == t.route && u.routeIndex == t.routeIndex && issues == Slots(curve, u, 0, u.routeIndex)
    ensures SumTicks(issues) == RouteTicks(t) && |issues| == t.routeIndex
  {
    TicksOfSlots(curve, u, u.routeIndex);
    assert issues[..u.routeIndex] == issues;
  }

  lemma SumOfReplay(c: Cycle, run: seq<Action>)
    requires IsReplay(c, run) && !After(c.playing, run).rec.replaying
    ensures var t := R.RecordAll(c.recorder.rec, Offers(c.recorder, Driven(c)));
      SumTicks(Issued(c.playing, run)) == RouteTicks(t) && |Issued(c.playing, run)| == t.routeIndex
  {
    CycleRecords(c);
    CycleIsReady(c);
    IssuedByReplay(c, run);
    TicksOfRoute(c.playing.curve, c.playing.rec, R.RecordAll(c.recorder.rec, Offers(c.recorder, Driven(c))),
                 Issued(c.playing, run));
  }

  /** The delays of a completed replay add up to the time of the drive, from its start to its last
      stored sample, less at most a tick for each sample. */
  lemma ReplayTakesDriveTime(c: Cycle, run: seq<Action>)
    requires IsReplay(c, run) && !After(c.playing, run).rec.replaying && c.start.Main?
    requires R.GapsFit(c.recorder.rec, c.start.now, Offers(c.recorder, Driven(c)))
    ensures var last := R.LastStored(c.recorder.rec, c.start.now, Offers(c.recorder, Driven(c)));
      0 <= last - c.start.now - 10000 * SumTicks(Issued(c.playing, run)) <= 9999 * |Issued(c.playing, run)|
  {
    StartsRecording(c.idle, c.start);
    R.TimingBound(c.recorder.rec, c.start.now, Offers(c.recorder, Driven(c)));
    SumOfReplay(c, run);
  }
}
