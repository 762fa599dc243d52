/** A drive that is recorded, and its replay, in any interleaving with the other tasks: what the
    packets, the buffer and the motors have to do with each other. */
module RoverReplay {
  import opened Common
  import opened PadData
  import opened Messages
  import opened Servo
  import opened ThrottleTable
  import opened Rover
  import opened RoverInvariants
  import opened RoverProtocol
  import R = RouteRecorder

  // ---- the packets of a run ----

  /** A controller record and the true time at which the main task handles it. */
  datatype Packet = Packet(pad: Pad, now: nat)

  /** The controller record a step handles, if it handles one. */
  function PacketOf(s: Rover, a: Action): (packets: seq<Packet>)
    requires Can(s, a)
    ensures |packets| <= 1
  {
    if a.Main? && s.queue[0].Ps5? && Received(s.queue[0].frame).latest
    then [Packet(Received(s.queue[0].frame), a.now)]
    else []
  }

  function Packets(s: Rover, run: seq<Action>): seq<Packet>
    requires IsRun(s, run)
    decreases run
  {
    if run == [] then [] else PacketOf(s, run[0]) + Packets(Step(s, run[0]), run[1..])
  }

  lemma StepOnPacket(s: Rover, a: Action)
    requires Can(s, a) && PacketOf(s, a) != []
    ensures var p := PacketOf(s, a)[0]; Step(s, a) == ProcessPad(s.(queue := s.queue[1..]), p.pad, p.now)
  {
  }

  // ---- recording a drive ----

  function WordBefore(s: Rover, packets: seq<Packet>, i: nat): set<Bit>
    requires i <= |packets|
  {
    if i == 0 then s.word else WordOf(packets[i - 1].pad)
  }

  function ThrottleOf(p: Pad): u8 { if p.r2 == 0 && p.l2 != 0 then p.l2 else p.r2 }

  function DirectionOf(p: Pad): i8 { if p.r2 == 0 && p.l2 != 0 then -1 else 1 }

  /** The throttle and the reported direction in force when packet i is handled: those of the
      packet before it, or of the rover before the first. */
  function ThrottleBefore(s: Rover, packets: seq<Packet>, i: nat): u8
    requires i <= |packets|
  {
    if i == 0 then s.throttle else ThrottleOf(packets[i - 1].pad)
  }

  function DirectionBefore(s: Rover, packets: seq<Packet>, i: nat): i8
    requires i <= |packets|
  {
    if i == 0 then Sign(s.direction) else DirectionOf(packets[i - 1].pad)
  }

  /** What the recorder is offered with packet i: the throttle in force before it, its steering. */
  function OfferAt(s: Rover, packets: seq<Packet>, i: nat): R.Offer
    requires i < |packets|
  {
    var t := ThrottleBefore(s, packets, i);
    R.Offer(Metrics(t, DirectionBefore(s, packets, i), s.curve[t], packets[i].pad.lx / 4), packets[i].now)
  }

  function Offers(s: Rover, packets: seq<Packet>): seq<R.Offer> {
    seq(|packets|, i requires 0 <= i < |packets| => OfferAt(s, packets, i))
  }

  /** The motions of a drive: throttle and direction in force before each packet, its steering. */
  function LaggedMotions(s: Rover, packets: seq<Packet>): seq<R.Motion> {
    seq(|packets|, i requires 0 <= i < |packets| =>
      R.Motion(ThrottleBefore(s, packets, i), DirectionBefore(s, packets, i), packets[i].pad.lx / 4))
  }

  lemma OffersGrow(s: Rover, packets: seq<Packet>, p: Packet)
    ensures Offers(s, packets + [p]) == Offers(s, packets) + [OfferAt(s, packets + [p], |packets|)]
  {
    var all := packets + [p];
    forall i | 0 <= i < |packets| ensures OfferAt(s, all, i) == OfferAt(s, packets, i) {
      assert i > 0 ==> all[i - 1] == packets[i - 1];
    }
    assert Offers(s, all)[..|packets|] == Offers(s, packets);
  }

  lemma OffersAreLagged(s: Rover, packets: seq<Packet>)
    ensures R.Offered(Offers(s, packets)) == LaggedMotions(s, packets)
    ensures forall i :: 0 <= i < |packets| ==> R.Storable(Offers(s, packets)[i].m)
  {
    var a, b := R.Offered(Offers(s, packets)), LaggedMotions(s, packets);
    forall i | 0 <= i < |packets| ensures a[i] == b[i] {
    }
  }

  /** The effect of one packet on a rover that records. */
  predicate PacketEffect(s: Rover, p: Pad, now: nat, t: Rover) {
    && t.rec == R.RecordProcess(s.rec, Metrics(s.throttle, Sign(s.direction), s.curve[s.throttle], p.lx / 4), now)
    && t.mode == (if t.rec.recording then Recording else Driving)
    && t.throttle == ThrottleOf(p) && Sign(t.direction) == DirectionOf(p) && t.steeringPulse == AngleToCompare(p.lx / 4)
    && t.curve == s.curve && t.word == WordOf(p) && MotorsFollow(t)
  }

  lemma RecordingPacket(s: Rover, p: Pad, now: nat)
    requires MotorsFollow(s) && s.mode == Recording && s.rec.recording
    requires p.connected && !IsNow(s.word, WordOf(p), BitRecord)
    ensures PacketEffect(s, p, now, ProcessPad(s, p, now))
  {
    assert BitConnected in WordOf(p);
    var t := Drive(s, p);
    assert t.metrics == Metrics(s.throttle, Sign(s.direction), s.curve[s.throttle], p.lx / 4);
    assert WhenRecording(s, PadEvent(p, WordOf(p)), now) == RecordingDrive(s, p, now);
  }

  /** t is what a rover that was recording in state s has become by these packets. */
  predicate Session(s: Rover, packets: seq<Packet>, t: Rover) {
    && R.SameTape(t.rec, R.RecordAll(s.rec, Offers(s, packets)))
    && t.mode == (if t.rec.recording then Recording else Driving)
    && t.throttle == ThrottleBefore(s, packets, |packets|)
    && Sign(t.direction) == DirectionBefore(s, packets, |packets|)
    && t.curve == s.curve && t.word == WordBefore(s, packets, |packets|) && MotorsFollow(t)
    && (packets != [] ==> t.steeringPulse == AngleToCompare(packets[|packets| - 1].pad.lx / 4))
  }

  lemma SessionTape(s: Rover, packets: seq<Packet>, t: Rover, p: Packet, t': Rover)
    requires Session(s, packets, t) && PacketEffect(t, p.pad, p.now, t')
    ensures R.SameTape(t'.rec, R.RecordAll(s.rec, Offers(s, packets + [p])))
  {
    var all, n := packets + [p], |packets|;
    OffersGrow(s, packets, p);
    assert Offers(s, all)[..n] == Offers(s, packets);
    assert n > 0 ==> all[n - 1] == packets[n - 1];
    var o := OfferAt(s, all, n);
    assert o.m == Metrics(t.throttle, Sign(t.direction), t.curve[t.throttle], p.pad.lx / 4);
    R.ProcessSameTape(t.rec, R.RecordAll(s.rec, Offers(s, packets)), o.m, o.now);
  }

  lemma SessionGrows(s: Rover, packets: seq<Packet>, t: Rover, p: Packet, t': Rover)
    requires Session(s, packets, t) && PacketEffect(t, p.pad, p.now, t')
    ensures Session(s, packets + [p], t')
  {
    SessionTape(s, packets, t, p, t');
  }

  /** Everything a recording depends on, and the motors, are as before. */
  predicate Undisturbed(s: Rover, t: Rover) {
    && R.SameTape(t.rec, s.rec) && t.mode == s.mode && t.throttle == s.throttle && t.direction == s.direction
    && t.curve == s.curve && t.word == s.word && t.steeringPulse == s.steeringPulse && MotorsFollow(t)
  }

  /** While recording, only packets matter: not arrivals, other messages, the arm or the replay task. */
  lemma OtherStep(s: Rover, a: Action)
    requires Inv(s) && s.mode == Recording && Can(s, a) && PacketOf(s, a) == []
    ensures Undisturbed(s, Step(s, a))
  {
  }

  /** In recording mode; and a packet, if the step handles one, has the controller connected and
      the record button not pressed anew. */
  predicate Drives(s: Rover, a: Action)
    requires Can(s, a)
  {
    s.mode == Recording
    && forall p :: p in PacketOf(s, a) ==> p.pad.connected && !IsNow(s.word, WordOf(p.pad), BitRecord)
  }

  predicate DriveRun(s: Rover, run: seq<Action>)
    requires IsRun(s, run)
    decreases run
  {
    run != [] ==> Drives(s, run[0]) && DriveRun(Step(s, run[0]), run[1..])
  }

  lemma DriveStep(s: Rover, packets: seq<Packet>, t: Rover, a: Action)
    requires Session(s, packets, t) && Inv(t) && Can(t, a) && Drives(t, a)
    ensures Session(s, packets + PacketOf(t, a), Step(t, a))
  {
    if PacketOf(t, a) == [] {
      OtherStep(t, a);
      assert packets + PacketOf(t, a) == packets;
    } else {
      var p := PacketOf(t, a)[0];
      assert p in PacketOf(t, a) && PacketOf(t, a) == [p];
      StepOnPacket(t, a);
      RecordingPacket(t.(queue := t.queue[1..]), p.pad, p.now);
      SessionGrows(s, packets, t, p, Step(t, a));
    }
  }

  lemma PacketsSplit(s: Rover, run: seq<Action>, before: seq<Packet>)
    requires IsRun(s, run) && run != []
    ensures before + Packets(s, run) == (before + PacketOf(s, run[0])) + Packets(Step(s, run[0]), run[1..])
  {
  }

  lemma {:induction false} SessionContinues(
      s: Rover, packets: seq<Packet>, t: Rover, run: seq<Action>, all: seq<Packet>, end: Rover)
    requires Session(s, packets, t) && Inv(t) && IsRun(t, run) && DriveRun(t, run)
    requires all == packets + Packets(t, run) && end == After(t, run)
    ensures Session(s, all, end) && Inv(end)
    decreases run
  {
    if run == [] {
      assert all == packets;
    } else {
      DriveStep(s, packets, t, run[0]);
      StepKeeps(t, run[0]);
      PacketsSplit(t, run, packets);
      SessionContinues(s, packets + PacketOf(t, run[0]), Step(t, run[0]), run[1..], all, end);
    }
  }

  /** Driving in recording mode is offering the lagged stream to the recorder, in every run: each
      sample pairs the throttle and direction in force before a packet with that packet's steering. */
  lemma DriveIsOffered(s: Rover, run: seq<Action>)
    requires Inv(s) && s.mode == Recording && IsRun(s, run) && DriveRun(s, run)
    ensures Session(s, Packets(s, run), After(s, run)) && Inv(After(s, run))
  {
    assert Offers(s, []) == [];
    assert Packets(s, run) == [] + Packets(s, run);
    SessionContinues(s, [], s, run, Packets(s, run), After(s, run));
  }

  lemma TapeTracks(r: R.Recorder, t: R.Recorder, ms: seq<R.Motion>)
    requires R.SameTape(r, t) && R.Tracks(t, ms)
    ensures R.Tracks(r, ms)
  {
  }

  lemma WholeStream(t: R.Recorder, ms: seq<R.Motion>)
    requires R.Tracks(t, ms) && t.recording
    ensures R.Recorded(t) == R.Dedup(ms)
  {
    if ms != [] { R.DedupGrows(ms); }
  }

  /** The buffer after a drive is the lagged motions without consecutive duplicates, cut at its
      size; all of them while recording goes on, which it does until a packet finds it full. */
  lemma DriveIsRecorded(s: Rover, run: seq<Action>)
    requires Inv(s) && s.mode == Recording && s.rec.routeIndex == 0 && IsRun(s, run) && DriveRun(s, run)
    ensures R.Tracks(After(s, run).rec, LaggedMotions(s, Packets(s, run)))
    ensures After(s, run).rec.recording ==> R.Recorded(After(s, run).rec) == R.Dedup(LaggedMotions(s, Packets(s, run)))
  {
    var packets, t := Packets(s, run), After(s, run);
    DriveIsOffered(s, run);
    OffersAreLagged(s, packets);
    R.RouteIsDedup(s.rec, Offers(s, packets));
    TapeTracks(t.rec, R.RecordAll(s.rec, Offers(s, packets)), LaggedMotions(s, packets));
    if t.rec.recording { WholeStream(t.rec, LaggedMotions(s, packets)); }
  }

  // ---- replaying ----

  /** One sample issued by the replay task: its delay, and what motors and steering then do. */
  datatype Issue = Issue(ticks: nat, motion: R.Motion, duty: Duty, pulse: u32)

  function IssueOf(curve: ThrottleMap, x: R.Sample): Issue {
    Issue(x.deltaMs / R.TICK_MS, R.SampleMotion(x), DutyFor(curve, ToU8(x.throttle), x.direction),
          AngleToCompare(x.steering))
  }

  /** What a step issues, read off the state after it. */
  function IssueBy(s: Rover, a: Action): seq<Issue>
    requires Can(s, a)
  {
    if a.ReplayWake? && R.WakeIssues(s.rec) then
      var t := Step(s, a);
      [Issue(s.rec.pc.ticks, R.Motion(t.throttle, t.direction, t.metrics.steering), t.duty, t.steeringPulse)]
    else []
  }

  function Issued(s: Rover, run: seq<Action>): seq<Issue>
    requires IsRun(s, run)
    decreases run
  {
    if run == [] then [] else IssueBy(s, run[0]) + Issued(Step(s, run[0]), run[1..])
  }

  /** A replay inside its route: about to sleep for the sample at the cursor, or asleep for it. */
  predicate OnRoute(s: Rover) {
    && s.rec.replaying && s.rec.cursor < s.rec.routeIndex
    && (s.rec.pc == R.LoopTop || s.rec.pc == R.Delaying(s.rec.route[s.rec.cursor].deltaMs / R.TICK_MS))
  }

  predicate SameRoute(s: Rover, t: Rover) {
    t.curve == s.curve && t.rec.route == s.rec.route && t.rec.routeIndex == s.rec.routeIndex
  }

  /** A replay that has just ended: its task parked at the start, its end message sent. */
  predicate Ended(t: Rover) {
    && t.rec.pc == R.Parked && t.rec.cursor == 0
    && t.queue != [] && (t.queue[|t.queue| - 1] == ReplayEnd || |t.queue| >= QUEUE_SIZE)
  }

  /** How far a replay has come. */
  function Position(t: Rover): nat {
    if t.rec.replaying then t.rec.cursor else t.rec.routeIndex
  }

  /** What a replay of slots from..to of the route has to issue. */
  function Slots(curve: ThrottleMap, r: R.Recorder, from: nat, to: nat): seq<Issue>
    requires from <= to <= r.routeIndex
  {
    seq(to - from, i requires 0 <= i < to - from => IssueOf(curve, r.route[from + i]))
  }

  lemma SlotsSplit(curve: ThrottleMap, r: R.Recorder, from: nat, to: nat)
    requires from < to <= r.routeIndex
    ensures Slots(curve, r, from, to) == [IssueOf(curve, r.route[from])] + Slots(curve, r, from + 1, to)
  {
  }

  lemma SameSlots(curve: ThrottleMap, r: R.Recorder, t: R.Recorder, from: nat, to: nat)
    requires from <= to <= r.routeIndex && t.route == r.route && t.routeIndex == r.routeIndex
    ensures Slots(curve, r, from, to) == Slots(curve, t, from, to)
  {
  }

  /** Only the wake-up that plays the last slot ends the replay, and the run ends with it. */
  predicate Uninterrupted(s: Rover, run: seq<Action>)
    requires IsRun(s, run)
    decreases run
  {
    run != [] ==>
      s.rec.replaying && (Step(s, run[0]).rec.replaying || run[0].ReplayWake?) && Uninterrupted(Step(s, run[0]), run[1..])
  }

  lemma WakeOnRoute(s: Rover)
    requires OnRoute(s) && Inv(s) && s.rec.pc.Delaying?
    ensures var t := Step(s, ReplayWake);
      && IssueBy(s, ReplayWake) == [IssueOf(s.curve, s.rec.route[s.rec.cursor])]
      && SameRoute(s, t) && Position(t) == s.rec.cursor + 1
      && (if t.rec.replaying then OnRoute(t) else Ended(t))
  {
  }

  /** Whatever the main task does during a replay that it lets go on, the route stays. */
  lemma OtherOnRoute(s: Rover, a: Action)
    requires OnRoute(s) && Inv(s) && Can(s, a) && !a.ReplayWake? && Step(s, a).rec.replaying
    ensures SameRoute(s, Step(s, a)) && OnRoute(Step(s, a)) && Position(Step(s, a)) == s.rec.cursor
    ensures IssueBy(s, a) == []
  {
    StepCurve(s, a);
    if a.Main? { MainRecorder(s, a.now); }
  }

  /** The replay from s has come to t, having issued these samples. */
  predicate Plays(s: Rover, t: Rover, issues: seq<Issue>)
    requires s.rec.cursor <= s.rec.routeIndex
  {
    && SameRoute(s, t) && s.rec.cursor <= Position(t) <= s.rec.routeIndex
    && issues == Slots(s.curve, s.rec, s.rec.cursor, Position(t))
    && (if t.rec.replaying then OnRoute(t) else Ended(t))
  }

  lemma PlaysNothing(s: Rover)
    requires OnRoute(s)
    ensures Plays(s, s, [])
  {
  }

  lemma PlaysOn(s: Rover, u: Rover, t: Rover, issues: seq<Issue>)
    requires OnRoute(s) && SameRoute(s, u) && OnRoute(u) && u.rec.cursor == s.rec.cursor && Plays(u, t, issues)
    ensures Plays(s, t, issues)
  {
    SameSlots(s.curve, s.rec, u.rec, s.rec.cursor, Position(t));
  }

  lemma PlaysSlot(s: Rover, u: Rover, t: Rover, issues: seq<Issue>)
    requires OnRoute(s) && SameRoute(s, u) && OnRoute(u) && u.rec.cursor == s.rec.cursor + 1 && Plays(u, t, issues)
    ensures Plays(s, t, [IssueOf(s.curve, s.rec.route[s.rec.cursor])] + issues)
  {
    SlotsSplit(s.curve, s.rec, s.rec.cursor, Position(t));
    SameSlots(s.curve, s.rec, u.rec, u.rec.cursor, Position(t));
  }

  lemma PlaysLast(s: Rover, t: Rover)
    requires OnRoute(s) && SameRoute(s, t) && s.rec.cursor + 1 == s.rec.routeIndex && !t.rec.replaying && Ended(t)
    ensures Plays(s, t, [IssueOf(s.curve, s.rec.route[s.rec.cursor])])
  {
  }

  /** Every uninterrupted run issues the slots of the route from the cursor on, in order, once each:
      up to the cursor it reaches, or all of them if it ends the replay. The route stays. */
  lemma {:induction false} ReplayIssues(s: Rover, run: seq<Action>)
    requires OnRoute(s) && Inv(s) && IsRun(s, run) && Uninterrupted(s, run)
    ensures Plays(s, After(s, run), Issued(s, run))
    decreases run
  {
    if run == [] {
      PlaysNothing(s);
    } else {
      var a, u, rest := run[0], Step(s, run[0]), run[1..];
      StepKeeps(s, a);
      if !a.ReplayWake? {
        OtherOnRoute(s, a);
        ReplayIssues(u, rest);
        PlaysOn(s, u, After(u, rest), Issued(u, rest));
        assert Issued(s, run) == [] + Issued(u, rest);
      } else {
        WakeOnRoute(s);
        if u.rec.replaying {
          ReplayIssues(u, rest);
          PlaysSlot(s, u, After(u, rest), Issued(u, rest));
        } else {
          assert rest == [];
          PlaysLast(s, u);
        }
      }
    }
  }

  /** In replaying mode motors and steering keep what a wake-up gave them until the next one. */
  lemma HeldUntilWake(s: Rover, a: Action)
    requires Inv(s) && s.mode == Replaying && Can(s, a) && !a.ReplayWake?
    ensures Step(s, a).duty == s.duty && Step(s, a).steeringPulse == s.steeringPulse
  {
  }

  // ---- a replay can always be completed ----

  /** The replay task alone: from the top of its loop through one delay, k times. */
  function Alone(k: nat): seq<Action> {
    if k == 0 then [] else [ReplayTop, ReplayWake] + Alone(k - 1)
  }

  lemma OnePair(s: Rover)
    requires OnRoute(s) && s.rec.pc == R.LoopTop
    ensures Can(s, ReplayTop) && Can(Step(s, ReplayTop), ReplayWake)
    ensures var u, t := Step(s, ReplayTop), Step(Step(s, ReplayTop), ReplayWake);
      && u.rec.replaying && t.rec.routeIndex == s.rec.routeIndex
      && t.rec.replaying == (s.rec.cursor + 1 < s.rec.routeIndex)
      && (t.rec.replaying ==> OnRoute(t) && t.rec.pc == R.LoopTop && t.rec.cursor == s.rec.cursor + 1)
  {
  }

  lemma PairThen(s: Rover, rest: seq<Action>)
    requires Can(s, ReplayTop) && Can(Step(s, ReplayTop), ReplayWake)
    requires s.rec.replaying && Step(s, ReplayTop).rec.replaying
    requires IsRun(Step(Step(s, ReplayTop), ReplayWake), rest) && Uninterrupted(Step(Step(s, ReplayTop), ReplayWake), rest)
    ensures var run := [ReplayTop, ReplayWake] + rest;
      IsRun(s, run) && Uninterrupted(s, run) && After(s, run) == After(Step(Step(s, ReplayTop), ReplayWake), rest)
  {
    var run, u := [ReplayTop, ReplayWake] + rest, Step(s, ReplayTop);
    assert run[1..] == [ReplayWake] + rest && run[1..][1..] == rest;
    assert IsRun(u, run[1..]) && Uninterrupted(u, run[1..]);
  }

  /** The replay task by itself completes the replay. */
  lemma {:induction false} AloneCompletes(s: Rover)
    requires OnRoute(s) && s.rec.pc == R.LoopTop
    ensures var run := Alone(s.rec.routeIndex - s.rec.cursor);
      IsRun(s, run) && Uninterrupted(s, run) && !After(s, run).rec.replaying
    decreases s.rec.routeIndex - s.rec.cursor
  {
    OnePair(s);
    var t := Step(Step(s, ReplayTop), ReplayWake);
    if t.rec.replaying {
      AloneCompletes(t);
      PairThen(s, Alone(t.rec.routeIndex - t.rec.cursor));
    } else {
      PairThen(s, []);
      assert Alone(0) == [] && Alone(1) == [ReplayTop, ReplayWake] + Alone(0);
    }
  }
}
