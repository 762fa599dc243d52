/** Runs from the start of the firmware: a route recorded and replayed, and a replay whose end the
    mode machine does not notice. */
module RoverScenarios {
  import opened Common
  import opened PadData
  import opened Messages
  import opened ThrottleTable
  import opened Rover
  import opened RoverInvariants
  import opened RoverProtocol
  import opened RoverReplay
  import opened RoverFrames
  import opened RoverRoundTrip
  import R = RouteRecorder

  /** A packet with some buttons pressed, and a throttle. */
  function Simple(buttons: set<Button>, throttle: u8): Packet {
    var p := NeutralPad(true, true);
    Packet(p.(buttons := buttons, r2 := throttle), 0)
  }

  const REST := Simple({}, 0)
  const GO := Simple({}, 100)
  const RECORD := Simple({Circle}, 0)
  const REPLAY := Simple({Triangle}, 0)
  const AUTO := Simple({Square}, 0)

  function Sent(p: Packet): Action { Arrive(Ps5(Encode(p.pad))) }

  lemma SimpleWords()
    ensures WordOf(REST.pad) == {BitConnected}
    ensures WordOf(GO.pad) == {BitConnected, BitForward}
    ensures WordOf(RECORD.pad) == {BitConnected, BitRecord}
    ensures WordOf(REPLAY.pad) == {BitConnected, BitReplay}
    ensures WordOf(AUTO.pad) == {BitConnected, BitAuto}
  {
  }

  /** Nothing waits for the main task. */
  predicate Ready(s: Rover) { s.queue == [] && !s.stopped }

  lemma HandlesSent(s: Rover, p: Packet)
    requires p.pad.connected && p.pad.latest
    ensures HandleMessage(s, Ps5(Encode(p.pad)), p.now) == Handle(s, p)
  {
    SealedFrameArrives(p.pad);
  }

  /** Packet p arrives and is handled, by way of state u. */
  predicate Takes(s: Rover, p: Packet, u: Rover, t: Rover) {
    && u == Step(s, Sent(p)) && Can(u, Main(p.now)) && PacketOf(u, Main(p.now)) == [p] && t == Step(u, Main(p.now))
    && u.mode == s.mode && u.rec == s.rec && u.word == s.word
  }

  lemma ReceivedSent(p: Packet)
    requires p.pad.connected && p.pad.latest
    ensures Received(Encode(p.pad)) == p.pad
  {
    SealedFrameArrives(p.pad);
  }

  /** With nothing waiting, a packet that arrives is the next one handled. */
  lemma Arrives(s: Rover, p: Packet)
    requires Ready(s) && p.pad.connected && p.pad.latest
    ensures Takes(s, p, Step(s, Sent(p)), Handle(s, p))
  {
    var u := Step(s, Sent(p));
    assert u == s.(queue := [Ps5(Encode(p.pad))]);
    assert u.(queue := u.queue[1..]) == s;
    HandlesSent(s, p);
    ReceivedSent(p);
  }

  lemma LeadsThree(s: Rover, a: Action, t: Rover, b: Action, u: Rover, c: Action, v: Rover)
    requires Can(s, a) && t == Step(s, a) && Can(t, b) && u == Step(t, b) && Can(u, c) && v == Step(u, c)
    ensures Leads(s, [a, b, c], v)
  {
    LeadsOne(s, a);
    LeadsOne(t, b);
    LeadsOne(u, c);
    LeadsOn(s, [a], t, [b], u);
    LeadsOn(s, [a] + [b], u, [c], v);
    assert [a] + [b] + [c] == [a, b, c];
  }

  lemma DrivesThree(s: Rover, a: Action, t: Rover, b: Action, u: Rover, c: Action)
    requires Can(s, a) && t == Step(s, a) && Can(t, b) && u == Step(t, b) && Can(u, c) && IsRun(s, [a, b, c])
    requires Drives(s, a) && Drives(t, b) && Drives(u, c)
    ensures DriveRun(s, [a, b, c])
  {
    assert [a, b, c][1..] == [b, c] && [b, c][1..] == [c] && [c][1..] == [];
    assert DriveRun(u, [c]);
    assert DriveRun(t, [b, c]);
  }

  lemma RestsThree(s: Rover, a: Action, t: Rover, b: Action, u: Rover, c: Action, v: Rover)
    requires Can(s, a) && t == Step(s, a) && Can(t, b) && u == Step(t, b) && Can(u, c) && v == Step(u, c)
    requires IsRun(s, [a, b, c]) && RecorderIdle(t) && RecorderIdle(u) && RecorderIdle(v)
    ensures Resting(s, [a, b, c])
  {
    assert [a, b, c][1..] == [b, c] && [b, c][1..] == [c] && [c][1..] == [];
    assert Resting(u, [c]);
    assert Resting(t, [b, c]);
  }

  // ---- the start ----

  const START := [Sent(REST), Main(0), Sent(RECORD)]

  /** The controller has connected, and the record button is being pressed. */
  function Started(curve: ThrottleMap): Rover { Handle(Initial(curve), REST) }

  lemma Connects(curve: ThrottleMap, p: Packet)
    requires p.pad.connected
    ensures var s := Handle(Initial(curve), p);
      && Inv(s) && RecorderIdle(s) && s.mode == Driving && s.word == WordOf(p.pad) && s.rec.pc == R.Parked && Ready(s)
      && s.throttle == 0
  {
    InitialInv(curve);
    PadKeeps(Initial(curve), p.pad, p.now);
  }

  lemma Starts(curve: ThrottleMap)
    ensures var s := Started(curve);
      && Inv(s) && RecorderIdle(s) && s.mode == Driving && s.word == WordOf(REST.pad) && s.rec.pc == R.Parked && Ready(s)
      && s.throttle == 0
    ensures Leads(Initial(curve), START, Step(Started(curve), Sent(RECORD)))
  {
    Connects(curve, REST);
    Arrives(Initial(curve), REST);
    LeadsThree(Initial(curve), Sent(REST), Step(Initial(curve), Sent(REST)), Main(0), Started(curve),
               Sent(RECORD), Step(Started(curve), Sent(RECORD)));
  }

  // ---- the drive ----

  const LEG := [Sent(GO), Main(0), Sent(RECORD)]

  lemma RecordingQuiet(s: Rover, p: Pad, now: nat)
    requires s.mode == Recording && s.rec.recording && p.connected && !IsNow(s.word, WordOf(p), BitRecord)
    ensures var t := ProcessPad(s, p, now); t.queue == s.queue && t.stopped == s.stopped
  {
    assert BitConnected in WordOf(p);
  }

  lemma GoPacket(r: Rover, go: Packet)
    requires Inv(r) && r.mode == Recording && r.rec.routeIndex == 0 && BitRecord in r.word && Ready(r) && go.pad.connected
    ensures var g := Handle(r, go);
      && Ready(g) && Inv(g) && g.mode == Recording && g.rec.recording && g.rec.routeIndex == 1
      && g.rec.pc == r.rec.pc && g.rec.cursor == r.rec.cursor && g.word == WordOf(go.pad)
      && g.rec.route[0].throttle == r.throttle && g.throttle == ThrottleOf(go.pad)
  {
    RecordingPacket(r, go.pad, go.now);
    RecordingQuiet(r, go.pad, go.now);
    PadKeeps(r, go.pad, go.now);
  }

  lemma FirstLeg(r: Rover) returns (t: Rover, g: Rover)
    requires Inv(r) && r.mode == Recording && r.rec.routeIndex == 0 && BitRecord in r.word && Ready(r)
    ensures Leads(r, LEG, t) && DriveRun(r, LEG) && t == Step(g, Sent(RECORD))
    ensures Ready(g) && Inv(g) && g.mode == Recording && BitRecord !in g.word
    ensures g.rec.recording && g.rec.routeIndex == 1 && g.rec.pc == r.rec.pc && g.rec.cursor == r.rec.cursor
  {
    var u := Step(r, Sent(GO));
    g := Handle(r, GO);
    t := Step(g, Sent(RECORD));
    SimpleWords();
    GoPacket(r, GO);
    Arrives(r, GO);
    LeadsThree(r, Sent(GO), u, Main(0), g, Sent(RECORD), t);
    DrivesThree(r, Sent(GO), u, Main(0), g, Sent(RECORD));
  }

  // ---- waiting, and the press that starts the replay ----

  const WAIT := [Sent(REST), Main(0), Sent(REPLAY)]

  lemma RestPacket(v: Rover, rest: Packet)
    requires v.mode == Driving && RecorderIdle(v) && Ready(v) && OnlyDrives(v.word, rest.pad)
    ensures var w := Handle(v, rest); w.mode == Driving && w.rec == v.rec && w.word == WordOf(rest.pad) && Ready(w)
  {
    DrivingPacket(v, rest);
  }

  lemma SecondLeg(v: Rover) returns (t: Rover, w: Rover)
    requires v.mode == Driving && RecorderIdle(v) && Ready(v)
    ensures Leads(v, WAIT, t) && Resting(v, WAIT) && t == Step(w, Sent(REPLAY))
    ensures w.mode == Driving && w.rec == v.rec && w.word == {BitConnected} && Ready(w)
  {
    SimpleWords();
    var u := Step(v, Sent(REST));
    w := Handle(v, REST);
    t := Step(w, Sent(REPLAY));
    RestPacket(v, REST);
    Arrives(v, REST);
    LeadsThree(v, Sent(REST), u, Main(0), w, Sent(REPLAY), t);
    RestsThree(v, Sent(REST), u, Main(0), w, Sent(REPLAY), t);
  }

  /** The record button is pressed while driving with an idle recorder. */
  lemma RecordsFrom(s: Rover) returns (idle: Rover, r: Rover)
    requires Inv(s) && RecorderIdle(s) && s.mode == Driving && BitRecord !in s.word && Ready(s)
    ensures idle == Step(s, Sent(RECORD)) && Inv(idle) && RecorderIdle(idle) && idle.rec == s.rec
    ensures Can(idle, Main(0)) && r == Step(idle, Main(0))
    ensures Inv(r) && r.mode == Recording && r.rec == R.RecordStart(s.rec, 0) && r.throttle == s.throttle
    ensures BitRecord in r.word && Ready(r)
  {
    idle, r := Step(s, Sent(RECORD)), Handle(s, RECORD);
    SimpleWords();
    Arrives(s, RECORD);
    StartPress(s, RECORD);
    PadKeeps(s, RECORD.pad, 0);
    StepKeeps(s, Sent(RECORD));
  }

  lemma Records(curve: ThrottleMap) returns (idle: Rover, r: Rover)
    ensures Leads(Initial(curve), START, idle)
    ensures Inv(idle) && RecorderIdle(idle) && Can(idle, Main(0)) && r == Step(idle, Main(0))
    ensures r.rec.recording && Inv(r) && r.mode == Recording && r.rec.routeIndex == 0 && r.throttle == 0
    ensures BitRecord in r.word && Ready(r) && r.rec.pc == R.Parked
  {
    SimpleWords();
    Starts(curve);
    idle, r := RecordsFrom(Started(curve));
  }

  lemma Stops(g: Rover, t: Rover) returns (v: Rover)
    requires g.mode == Recording && g.rec.recording && BitRecord !in g.word && Ready(g) && Inv(g)
    requires t == Step(g, Sent(RECORD))
    ensures Can(t, Main(0)) && Step(t, Main(0)) == v
    ensures v.mode == Driving && RecorderIdle(v) && Ready(v)
    ensures v.rec == R.RecordStop(g.rec)
  {
    SimpleWords();
    v := Handle(g, RECORD);
    Arrives(g, RECORD);
    StopPress(g, RECORD);
  }

  lemma Replays(w: Rover, t: Rover) returns (p: Rover)
    requires w.mode == Driving && RecorderIdle(w) && w.rec.routeIndex == 1 && w.word == {BitConnected} && Ready(w)
    requires t == Step(w, Sent(REPLAY))
    ensures Can(t, Main(0)) && Step(t, Main(0)) == p && p.mode == Replaying && p.rec.replaying && Ready(p)
  {
    SimpleWords();
    p := Handle(w, REPLAY);
    Arrives(w, REPLAY);
    PlayPress(w, REPLAY);
  }

  lemma DrivesAndStops(r: Rover) returns (driven: Rover, stopped: Rover)
    requires Inv(r) && r.mode == Recording && r.rec.routeIndex == 0 && BitRecord in r.word && Ready(r)
    ensures Leads(r, LEG, driven) && DriveRun(r, LEG) && driven.rec.recording && driven.rec.routeIndex == 1
    ensures Can(driven, Main(0)) && stopped == Step(driven, Main(0))
    ensures stopped.mode == Driving && RecorderIdle(stopped) && Ready(stopped)
    ensures stopped.rec.routeIndex == 1 && stopped.rec.pc == r.rec.pc && stopped.rec.cursor == r.rec.cursor
  {
    var g: Rover;
    driven, g := FirstLeg(r);
    stopped := Stops(g, driven);
  }

  lemma WaitsAndReplays(v: Rover) returns (waited: Rover, playing: Rover)
    requires v.mode == Driving && RecorderIdle(v) && Ready(v) && v.rec.routeIndex == 1
    ensures Leads(v, WAIT, waited) && Resting(v, WAIT) && waited.rec == v.rec
    ensures Can(waited, Main(0)) && playing == Step(waited, Main(0))
    ensures playing.mode == Replaying && playing.rec.replaying && Ready(playing)
  {
    var w: Rover;
    waited, w := SecondLeg(v);
    playing := Replays(w, waited);
  }

  lemma SomeCycle(curve: ThrottleMap) returns (c: Cycle)
    ensures IsCycle(c) && Leads(Initial(curve), START, c.idle)
    ensures c.waited.rec.pc == R.Parked && c.playing.mode == Replaying && Ready(c.playing)
    ensures c.driven.rec.routeIndex == 1
  {
    var idle, recorder := Records(curve);
    var driven, stopped := DrivesAndStops(recorder);
    var waited, playing := WaitsAndReplays(stopped);
    c := Cycle(idle, Main(0), recorder, LEG, driven, Main(0), stopped, WAIT, waited, Main(0), playing);
  }

  /** There is a cycle, and the firmware can get to it. */
  lemma CycleReachable(curve: ThrottleMap) returns (c: Cycle, run: seq<Action>)
    ensures IsCycle(c) && c.waited.rec.pc == R.Parked && c.playing.mode == Replaying && Ready(c.playing)
    ensures c.playing.rec.routeIndex == 1 && Leads(Initial(curve), run, c.playing)
  {
    c := SomeCycle(curve);
    CycleIsReady(c);
    CycleLeads(c);
    run := START + CycleRun(c);
    LeadsOn(Initial(curve), START, c.idle, CycleRun(c), c.playing);
  }

  // ---- a replay that starts beyond its route ----

  /** The run so far, and one more packet. */
  lemma Then(start: Rover, run: seq<Action>, s: Rover, p: Packet) returns (run': seq<Action>, t: Rover)
    requires Leads(start, run, s) && Ready(s) && p.pad.connected && p.pad.latest
    ensures Leads(start, run', t) && t == Handle(s, p)
  {
    var u := Step(s, Sent(p));
    t := Handle(s, p);
    Arrives(s, p);
    LeadsOne(s, Sent(p));
    LeadsOne(u, Main(p.now));
    LeadsOn(start, run, s, [Sent(p)], u);
    LeadsOn(start, run + [Sent(p)], u, [Main(p.now)], t);
    run' := run + [Sent(p)] + [Main(p.now)];
  }

  /** A second packet with a throttle that the first sample did not have. */
  lemma SecondGo(g: Rover, go: Packet)
    requires Inv(g) && g.mode == Recording && g.rec.routeIndex == 1 && BitRecord !in WordOf(go.pad) && Ready(g)
    requires go.pad.connected && g.rec.route[0].throttle != g.throttle
    ensures var h := Handle(g, go);
      && Ready(h) && Inv(h) && h.mode == Recording && h.rec.recording && h.rec.routeIndex == 2
      && h.rec.pc == g.rec.pc && h.rec.cursor == g.rec.cursor && h.word == WordOf(go.pad)
  {
    RecordingPacket(g, go.pad, go.now);
    RecordingQuiet(g, go.pad, go.now);
    PadKeeps(g, go.pad, go.now);
  }

  /** Two samples are recorded. */
  lemma TwoSamples(curve: ThrottleMap) returns (run: seq<Action>, h: Rover)
    ensures Leads(Initial(curve), run, h) && Ready(h) && Inv(h) && h.mode == Recording && h.rec.recording
    ensures h.rec.routeIndex == 2 && h.rec.pc == R.Parked && BitRecord !in h.word
  {
    var idle, r := Records(curve);
    var g: Rover;
    SimpleWords();
    LeadsOne(idle, Main(0));
    LeadsOn(Initial(curve), START, idle, [Main(0)], r);
    GoPacket(r, GO);
    run, g := Then(Initial(curve), START + [Main(0)], r, GO);
    SecondGo(g, GO);
    run, h := Then(Initial(curve), run, g, GO);
  }

  /** The recording is stopped, and replayed. */
  lemma StopAndReplay(start: Rover, before: seq<Action>, h: Rover) returns (run: seq<Action>, p: Rover)
    requires Leads(start, before, h) && Ready(h) && Inv(h) && h.mode == Recording && h.rec.recording
    requires h.rec.routeIndex == 2 && h.rec.pc == R.Parked && BitRecord !in h.word
    ensures Leads(start, run, p) && Ready(p) && p.mode == Replaying && p.rec.replaying && !p.rec.recording
    ensures p.rec.routeIndex == 2 && p.rec.pc == R.LoopTop && p.rec.cursor == 0
  {
    var v, w: Rover;
    SimpleWords();
    StopPress(h, RECORD);
    run, v := Then(start, before, h, RECORD);
    RestPacket(v, REST);
    run, w := Then(start, run, v, REST);
    PlayPress(w, REPLAY);
    run, p := Then(start, run, w, REPLAY);
  }

  /** One slot is played. */
  lemma PlayOne(start: Rover, before: seq<Action>, p: Rover) returns (run: seq<Action>, q: Rover)
    requires Leads(start, before, p) && Ready(p) && p.mode == Replaying && p.rec.replaying && !p.rec.recording
    requires p.rec.routeIndex == 2 && p.rec.pc == R.LoopTop && p.rec.cursor == 0
    ensures Leads(start, run, q) && Ready(q) && q.mode == Replaying && q.rec.replaying && !q.rec.recording
    ensures q.rec.routeIndex == 2 && q.rec.pc == R.LoopTop && q.rec.cursor == 1
  {
    var u := Step(p, ReplayTop);
    q := Step(u, ReplayWake);
    LeadsOne(p, ReplayTop);
    LeadsOne(u, ReplayWake);
    LeadsOn(start, before, p, [ReplayTop], u);
    LeadsOn(start, before + [ReplayTop], u, [ReplayWake], q);
    run := before + [ReplayTop] + [ReplayWake];
  }

  lemma ReplayingRest(q: Rover, p: Packet)
    requires q.mode == Replaying && p.pad.connected && WordOf(p.pad) == {BitConnected}
    ensures var t := Handle(q, p);
      t.mode == Replaying && t.rec == q.rec && t.queue == q.queue && t.stopped == q.stopped && t.word == {BitConnected}
  {
  }

  lemma ReplayingStop(q: Rover, p: Packet)
    requires q.mode == Replaying && q.rec.replaying && Presses(q, p, BitReplay)
    ensures var t := Handle(q, p);
      && t.mode == Driving && t.rec == R.ReplayStop(q.rec) && t.queue == Send(q.queue, ReplayEnd)
      && t.stopped == q.stopped && t.word == WordOf(p.pad)
  {
    assert BitConnected in WordOf(p.pad);
  }

  lemma EndIgnored(t: Rover)
    requires t.mode == Driving && t.queue == [ReplayEnd] && !t.stopped
    ensures Can(t, Main(0))
    ensures var d := Step(t, Main(0)); d.mode == Driving && d.rec == t.rec && d.word == t.word && Ready(d)
  {
  }

  /** The replay is stopped before its task has run again. */
  lemma StopReplay(start: Rover, before: seq<Action>, q: Rover) returns (run: seq<Action>, d: Rover)
    requires Leads(start, before, q) && Ready(q) && q.mode == Replaying && q.rec.replaying && !q.rec.recording
    ensures Leads(start, run, d) && Ready(d) && d.mode == Driving && RecorderIdle(d)
    ensures d.rec.pc == q.rec.pc && d.rec.cursor == q.rec.cursor && BitRecord !in d.word
  {
    var w, t: Rover;
    SimpleWords();
    ReplayingRest(q, REST);
    run, w := Then(start, before, q, REST);
    ReplayingStop(w, REPLAY);
    run, t := Then(start, run, w, REPLAY);
    EndIgnored(t);
    d := Step(t, Main(0));
    LeadsOne(t, Main(0));
    LeadsOn(start, run, t, [Main(0)], d);
    run := run + [Main(0)];
  }

  /** A replay of two slots, stopped after the first. */
  lemma HalfReplayed(curve: ThrottleMap) returns (run: seq<Action>, d: Rover)
    ensures Leads(Initial(curve), run, d) && Inv(d) && Ready(d) && d.mode == Driving && RecorderIdle(d)
    ensures d.rec.pc == R.LoopTop && d.rec.cursor == 1 && BitRecord !in d.word
  {
    var h, p, q: Rover;
    run, h := TwoSamples(curve);
    run, p := StopAndReplay(Initial(curve), run, h);
    run, q := PlayOne(Initial(curve), run, p);
    run, d := StopReplay(Initial(curve), run, q);
    InitialInv(curve);
    RunKeeps(Initial(curve), run);
  }

  /** The same cycle of one sample as before, from any such state. */
  lemma CycleFrom(d: Rover) returns (c: Cycle)
    requires Inv(d) && Ready(d) && d.mode == Driving && RecorderIdle(d) && BitRecord !in d.word
    ensures IsCycle(c) && c.idle == Step(d, Sent(RECORD)) && c.driven.rec.routeIndex == 1
    ensures c.waited.rec.pc == d.rec.pc && c.waited.rec.cursor == d.rec.cursor
    ensures Ready(c.playing) && c.playing.mode == Replaying
  {
    var idle, recorder := RecordsFrom(d);
    var driven, stopped := DrivesAndStops(recorder);
    var waited, playing := WaitsAndReplays(stopped);
    c := Cycle(idle, Main(0), recorder, LEG, driven, Main(0), stopped, WAIT, waited, Main(0), playing);
  }

  lemma PlayKeepsPc(c: Cycle)
    requires IsCycle(c) && c.waited.rec.pc != R.Parked
    ensures c.playing.rec.pc == c.waited.rec.pc
  {
    CycleKeepsRoute(c);
    if c.play.Main? { MainRecorder(c.waited, c.play.now); }
  }

  /** The firmware can get to a replay that is outside its route from the start: stopped after one
      of two slots, recorded over with one sample and started again before its task has run. */
  lemma StaleReachable(curve: ThrottleMap) returns (c: Cycle, run: seq<Action>)
    ensures IsCycle(c) && Leads(Initial(curve), run, c.playing)
    ensures c.playing.rec.pc == R.LoopTop && c.playing.rec.cursor == 1 == c.playing.rec.routeIndex
    ensures !InRoute(c.playing)
  {
    var before, d := HalfReplayed(curve);
    c := CycleFrom(d);
    CycleIsReady(c);
    CycleLeads(c);
    LeadsOne(d, Sent(RECORD));
    LeadsOn(Initial(curve), before, d, [Sent(RECORD)], c.idle);
    LeadsOn(Initial(curve), before + [Sent(RECORD)], c.idle, CycleRun(c), c.playing);
    run := before + [Sent(RECORD)] + CycleRun(c);
    PlayKeepsPc(c);
  }

  lemma StaleWake(s: Rover)
    requires Inv(s) && s.rec.replaying && s.rec.pc == R.LoopTop
    ensures Can(s, ReplayTop) && Can(Step(s, ReplayTop), ReplayWake)
    ensures IssueBy(Step(s, ReplayTop), ReplayWake) == [IssueOf(s.curve, s.rec.route[s.rec.cursor])]
  {
  }

  /** What its task then plays is a slot of the route that was recorded over. */
  lemma StalePlays(c: Cycle)
    requires IsCycle(c) && c.playing.rec.pc == R.LoopTop && !InRoute(c.playing)
    ensures Can(c.playing, ReplayTop) && Can(Step(c.playing, ReplayTop), ReplayWake)
    ensures var k := c.playing.rec.cursor;
      k >= |Route(c)| && IssueBy(Step(c.playing, ReplayTop), ReplayWake) == [IssueOf(c.playing.curve, c.playing.rec.route[k])]
  {
    CycleIsReady(c);
    StaleWake(c.playing);
  }

  // ---- a rover without a controller ----

  lemma AutoPacket(s: Rover, p: Packet)
    requires s.mode == Driving && p.pad.connected && WordOf(p.pad) == {BitConnected, BitAuto} && BitAuto !in s.word && Ready(s)
    ensures var t := Handle(s, p);
      && t.mode == Autonomous && MotorsFollow(t) && t.duty == Duty(0, s.curve[CRUISE] / 2) && t.word == WordOf(p.pad)
      && t.curve == s.curve && Ready(t)
  {
  }

  lemma LossHandled(a: Rover, u: Rover)
    requires Ready(a) && u == Step(a, Arrive(Ps5(Encode(NeutralPad(true, false)))))
    ensures Can(u, Main(0)) && Step(u, Main(0)) == ProcessPad(a, NeutralPad(true, false), 0)
  {
    SealedFrameArrives(NeutralPad(true, false));
    assert u.(queue := u.queue[1..]) == a;
    assert u.queue[0] == Ps5(Encode(NeutralPad(true, false)));
    assert Received(Encode(NeutralPad(true, false))) == NeutralPad(true, false);
  }

  /** The run so far, and the loss of the controller. */
  lemma ThenLost(start: Rover, run: seq<Action>, a: Rover) returns (run': seq<Action>, t: Rover)
    requires Leads(start, run, a) && Ready(a)
    ensures Leads(start, run', t) && t == ProcessPad(a, NeutralPad(true, false), 0)
  {
    var x := Arrive(Ps5(Encode(NeutralPad(true, false))));
    var u := Step(a, x);
    LossHandled(a, u);
    t := Step(u, Main(0));
    LeadsOne(a, x);
    LeadsOne(u, Main(0));
    LeadsOn(start, run, a, [x], u);
    LeadsOn(start, run + [x], u, [Main(0)], t);
    run' := run + [x] + [Main(0)];
  }

  lemma StartedCurve(curve: ThrottleMap)
    ensures Started(curve).curve == curve
  {
  }

  /** The firmware can get to autonomous mode. */
  lemma AutonomousReachable(curve: ThrottleMap) returns (run: seq<Action>, a: Rover)
    ensures Leads(Initial(curve), run, a) && a.mode == Autonomous && MotorsFollow(a) && Ready(a)
    ensures BitConnected in a.word && a.duty == Duty(0, curve[CRUISE] / 2)
  {
    var s: Rover;
    SimpleWords();
    Connects(curve, REST);
    run, s := Then(Initial(curve), [], Initial(curve), REST);
    StartedCurve(curve);
    AutoPacket(s, AUTO);
    run, a := Then(Initial(curve), run, s, AUTO);
  }

  /** And from there to autonomous mode with its controller lost, and the motors on. */
  lemma RunawayReachable(curve: ThrottleMap) returns (run: seq<Action>, t: Rover)
    ensures Leads(Initial(curve), run, t)
    ensures t.mode == Autonomous && BitConnected !in t.word && t.duty == Duty(0, curve[CRUISE] / 2)
  {
    var a: Rover;
    run, a := AutonomousReachable(curve);
    LossPacket(a, 0);
    run, t := ThenLost(Initial(curve), run, a);
  }

  // ---- an end that is not noticed ----

  function Fill(m: Message, k: nat): (run: seq<Action>)
    ensures |run| == k
  {
    if k == 0 then [] else [Arrive(m)] + Fill(m, k - 1)
  }

  function Copies(m: Message, k: nat): seq<Message> { seq(k, _ => m) }

  lemma {:induction false} Fills(s: Rover, m: Message, k: nat)
    requires |s.queue| + k <= QUEUE_SIZE
    ensures Leads(s, Fill(m, k), s.(queue := s.queue + Copies(m, k)))
    decreases k
  {
    if k == 0 {
      assert s.queue + Copies(m, 0) == s.queue;
    } else {
      var t := Step(s, Arrive(m));
      Fills(t, m, k - 1);
      assert Fill(m, k)[1..] == Fill(m, k - 1);
      assert t.queue + Copies(m, k - 1) == s.queue + Copies(m, k);
    }
  }

  /** If packets fill the queue during the last delay of a replay, its end is lost. */
  lemma FullQueueStrands(s: Rover, f: Frame)
    requires OnRoute(s) && s.rec.pc == R.LoopTop && s.rec.cursor + 1 == s.rec.routeIndex
    requires s.mode == Replaying && s.queue == []
    ensures var run := [ReplayTop] + Fill(Ps5(f), QUEUE_SIZE) + [ReplayWake];
      IsRun(s, run) && Overdue(After(s, run)) && !NotStranded(After(s, run))
  {
    var u := Step(s, ReplayTop);
    LeadsOne(s, ReplayTop);
    Fills(u, Ps5(f), QUEUE_SIZE);
    var full := u.(queue := u.queue + Copies(Ps5(f), QUEUE_SIZE));
    LeadsOn(s, [ReplayTop], u, Fill(Ps5(f), QUEUE_SIZE), full);
    LeadsOne(full, ReplayWake);
    LeadsOn(s, [ReplayTop] + Fill(Ps5(f), QUEUE_SIZE), full, [ReplayWake], Step(full, ReplayWake));
    assert ReplayEnd !in Copies(Ps5(f), QUEUE_SIZE);
  }

  /** The firmware can get there: room for the end message is a discipline that is needed. */
  lemma StrandedReachable(curve: ThrottleMap) returns (run: seq<Action>)
    ensures IsRun(Initial(curve), run) && Overdue(After(Initial(curve), run)) && !NotStranded(After(Initial(curve), run))
  {
    var c, first := CycleReachable(curve);
    var f := Encode(REST.pad);
    var last := [ReplayTop] + Fill(Ps5(f), QUEUE_SIZE) + [ReplayWake];
    CycleIsReady(c);
    FullQueueStrands(c.playing, f);
    LeadsOn(Initial(curve), first, c.playing, last, After(c.playing, last));
    run := first + last;
  }
}
