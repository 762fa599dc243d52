/** From the controller to the rover: the controller board's change filter
    (ps5/main/app_main.c), the serial link, and the main board's mode machine. */
module RemoteControl {
  import opened Common
  import opened PadData
  import opened Messages
  import opened ThrottleTable
  import opened Servo
  import opened Rover
  import opened RoverInvariants
  import opened RoverReplay
  import opened RoverFrames
  import opened RoverTransitions
  import L = ControllerLink
  import P = Ps5Parser

  /** The main board handles everything the controller board has written, frame i at times[i]. */
  function Deliver(s: Rover, uart: seq<L.Sent>, times: seq<nat>): Rover
    requires |times| == |uart|
    decreases uart
  {
    if uart == [] then s
    else
      var n := |uart| - 1;
      HandleMessage(Deliver(s, uart[..n], times[..n]), Ps5(uart[n].frame), times[n])
  }

  // ---- buttons ----

  predicate HasButton(b: Bit) { !b.BitReverse? && !b.BitForward? && !b.BitConnected? }

  /** The button behind a bit of the button word. */
  function ButtonOf(b: Bit): Button
    requires HasButton(b)
  {
    match b
    case BitHorn => R1
    case BitLed => L1
    case BitR3 => R3
    case BitCross => Cross
    case BitRecord => Circle
    case BitReplay => Triangle
    case BitAuto => Square
  }

  lemma WordShowsButton(p: Pad, b: Bit)
    requires HasButton(b)
    ensures b in WordOf(p) <==> ButtonOf(b) in p.buttons
  {
  }

  lemma ButtonsCompared(b: Bit)
    requires HasButton(b)
    ensures ButtonOf(b) in L.COMPARED
  {
  }

  /** The mode machine's edges are the presses and releases the parser reports. */
  lemma EdgesAreEvents(p: Pad, q: Pad, b: Bit)
    requires HasButton(b)
    ensures IsNow(WordOf(p), WordOf(q), b) <==> ButtonOf(b) in P.ParseEvent(p, q).down
    ensures Was(WordOf(p), WordOf(q), b) <==> ButtonOf(b) in P.ParseEvent(p, q).up
  {
    WordShowsButton(p, b);
    WordShowsButton(q, b);
  }

  lemma DeliverWord(s: Rover, uart: seq<L.Sent>, times: seq<nat>)
    requires uart != [] && |times| == |uart| && Received(uart[|uart| - 1].frame).latest
    ensures Deliver(s, uart, times).word == WordOf(Received(uart[|uart| - 1].frame))
  {
  }

  lemma LastButton(readings: seq<L.Reading>, b: Bit)
    requires readings != [] && L.Run(L.Initial(), readings).uart != [] && HasButton(b)
    ensures var uart, last := L.Run(L.Initial(), readings).uart, readings[|readings| - 1];
      var p := Received(uart[|uart| - 1].frame);
      p.latest && p.connected == last.connected && (ButtonOf(b) in p.buttons <==> last.connected && ButtonOf(b) in last.data.buttons)
  {
    L.ChangeFilterNoDrift(readings);
    L.MainBoardSees(readings);
    ButtonsCompared(b);
  }

  lemma WordTells(w: set<Bit>, p: Pad, last: L.Reading, b: Bit)
    requires HasButton(b) && w == WordOf(p) && p.connected == last.connected
    requires ButtonOf(b) in p.buttons <==> last.connected && ButtonOf(b) in last.data.buttons
    ensures BitConnected in w <==> last.connected
    ensures b in w <==> last.connected && ButtonOf(b) in last.data.buttons
  {
    WordShowsButton(p, b);
  }

  /** Whatever happened before: with everything delivered the main board has every button right,
      and knows whether there is a controller. */
  lemma ButtonsArrive(s: Rover, readings: seq<L.Reading>, times: seq<nat>, b: Bit)
    requires readings != [] && L.Run(L.Initial(), readings).uart != [] && HasButton(b)
    requires |times| == |L.Run(L.Initial(), readings).uart|
    ensures var last, t := readings[|readings| - 1], Deliver(s, L.Run(L.Initial(), readings).uart, times);
      && (BitConnected in t.word <==> last.connected)
      && (b in t.word <==> last.connected && ButtonOf(b) in last.data.buttons)
  {
    var uart := L.Run(L.Initial(), readings).uart;
    LastButton(readings, b);
    DeliverWord(s, uart, times);
    WordTells(Deliver(s, uart, times).word, Received(uart[|uart| - 1].frame), readings[|readings| - 1], b);
  }

  // ---- a lost controller ----

  lemma DeliverOne(s: Rover, uart: seq<L.Sent>, times: seq<nat>, x: L.Sent, now: nat)
    requires |times| == |uart|
    ensures Deliver(s, uart + [x], times + [now]) == HandleMessage(Deliver(s, uart, times), Ps5(x.frame), now)
  {
    assert (uart + [x])[..|uart|] == uart && (times + [now])[..|times|] == times;
  }

  lemma {:induction false} DeliverKeeps(s: Rover, uart: seq<L.Sent>, times: seq<nat>)
    requires Inv(s) && |times| == |uart|
    ensures Inv(Deliver(s, uart, times))
    decreases uart
  {
    if uart != [] {
      var n := |uart| - 1;
      DeliverKeeps(s, uart[..n], times[..n]);
      HandleKeeps(Deliver(s, uart[..n], times[..n]), Ps5(uart[n].frame), times[n]);
    }
  }

  /** The link after these readings, and then these. */
  function Linked(readings: seq<L.Reading>): L.Link { L.Run(L.Initial(), readings) }

  /** The packet that announces a loss, whatever the controller does before it returns. */
  lemma LossIsOnePacket(readings: seq<L.Reading>, lost: seq<L.Reading>) returns (x: L.Sent)
    requires readings != [] && readings[|readings| - 1].connected && L.Away(lost) && lost != []
    ensures Linked(readings + lost).uart == Linked(readings).uart + [x] && Linked(readings + lost).known == Linked(readings).known
    ensures !Linked(readings + lost).wasConnected && Linked(readings).uart != []
    ensures Received(x.frame) == NeutralPad(true, false)
  {
    L.ChangeFilterNoDrift(readings);
    L.RunAppend(L.Initial(), readings, lost);
    L.AwayWritesOnce(Linked(readings), lost);
    var p := lost[0].data.(connected := false, latest := true);
    SealedFrameArrives(p);
    x := L.Sent(L.Disconnect, Encode(p));
  }

  lemma ConnectedWord(s: Rover, readings: seq<L.Reading>, times: seq<nat>)
    requires readings != [] && readings[|readings| - 1].connected && |times| == |Linked(readings).uart|
    ensures BitConnected in Deliver(s, Linked(readings).uart, times).word
  {
    L.ChangeFilterNoDrift(readings);
    ButtonsArrive(s, readings, times, BitHorn);
  }

  lemma DeliverConnected(s: Rover, uart: seq<L.Sent>, times: seq<nat>)
    requires |times| == |uart| && uart != []
    requires Received(uart[|uart| - 1].frame).latest && Received(uart[|uart| - 1].frame).connected
    ensures Deliver(s, uart, times).mode != Disconnected
  {
    var n := |uart| - 1;
    PadSettles(Deliver(s, uart[..n], times[..n]), Received(uart[n].frame), times[n]);
  }

  /** A rover that has everything of a controller that is there. */
  lemma BeforeLoss(s: Rover, readings: seq<L.Reading>, times: seq<nat>)
    requires Inv(s) && readings != [] && readings[|readings| - 1].connected && |times| == |Linked(readings).uart|
    ensures var t := Deliver(s, Linked(readings).uart, times);
      Inv(t) && t.mode != Disconnected && BitConnected in t.word
  {
    L.ChangeFilterNoDrift(readings);
    LastButton(readings, BitHorn);
    DeliverKeeps(s, Linked(readings).uart, times);
    ConnectedWord(s, readings, times);
    DeliverConnected(s, Linked(readings).uart, times);
  }

  lemma LossPacketIs(readings: seq<L.Reading>, lost: seq<L.Reading>, x: L.Sent)
    requires readings != [] && readings[|readings| - 1].connected && L.Away(lost) && lost != []
    requires Linked(readings + lost).uart == Linked(readings).uart + [x]
    ensures !Received(x.frame).connected
  {
    var uart := Linked(readings).uart;
    var y := LossIsOnePacket(readings, lost);
    assert (uart + [x])[|uart|] == (uart + [y])[|uart|];
  }

  /** A controller lost in any mode, however long: the one packet x tells the main board, which
      goes on turning the motors as before, through every silent run. */
  lemma LossKeepsMotors(
      s: Rover, readings: seq<L.Reading>, lost: seq<L.Reading>, x: L.Sent, times: seq<nat>, now: nat, run: seq<Action>)
    requires Inv(s) && readings != [] && readings[|readings| - 1].connected && L.Away(lost) && lost != []
    requires Linked(readings + lost).uart == Linked(readings).uart + [x] && |times| == |Linked(readings).uart|
    requires IsRun(Deliver(s, Linked(readings + lost).uart, times + [now]), run)
    requires Silent(Deliver(s, Linked(readings + lost).uart, times + [now]), run)
    ensures var t := Deliver(s, Linked(readings).uart, times);
      RunsOn(After(Deliver(s, Linked(readings + lost).uart, times + [now]), run), LossMode(t.mode), t.duty, t.steeringPulse)
  {
    var uart := Linked(readings).uart;
    LossPacketIs(readings, lost, x);
    BeforeLoss(s, readings, times);
    DeliverOne(s, uart, times, x, now);
    LostController(Deliver(s, uart, times), x.frame, now, run);
  }

  /** When the controller is back, its connect packet leaves the motors as they are, unless it shows
      the button that leaves autonomous mode; another packet comes at once only if the record has
      changed since the last change packet before the loss. */
  lemma ReturnKeepsMotors(
      t: Rover, l: L.Link, back: L.Reading, now: nat, mode: Mode, duty: Duty, pulse: u32)
    returns (x: L.Sent)
    requires RunsOn(t, mode, duty, pulse) && !l.wasConnected && back.connected
    ensures var u := HandleMessage(t, Ps5(x.frame), now);
      && u.mode == BackMode(mode, back.data) && u.steeringPulse == pulse
      && u.duty == if mode == Autonomous && Square in back.data.buttons then Duty(0, 0) else duty
    ensures x.kind == L.Connect && l.uart + [x] <= L.Pass(l, back).uart
    ensures L.Pass(l, back).uart == l.uart + [x] <==> !L.Changed(back.data, l.known)
  {
    var p := back.data.(connected := true, latest := true);
    SealedFrameArrives(p);
    x := L.Sent(L.Connect, Encode(p));
    BackPacket(t, mode, duty, pulse, p, now);
  }

  // ---- throttle ----

  /** Slow release of the trigger: from a to t and then to rest, where t is within the filter's
      dead zone. */
  function SlowRelease(p: Pad, a: u8, t: u8, battery: int): seq<L.Reading> {
    [L.Reading(true, p.(r2 := a), battery), L.Reading(true, p.(r2 := t), battery), L.Reading(true, p.(r2 := 0), battery)]
  }

  predicate OnlyTrigger(p: Pad) {
    p.buttons == {} && p.lx == 0 && p.ly == 0 && p.rx == 0 && p.ry == 0 && p.l2 == 0
  }

  lemma FirstReading(r: L.Reading) returns (l: L.Link)
    requires r.connected && OnlyTrigger(r.data) && r.data.r2 > L.SLACK
    ensures l == L.Pass(L.Initial(), r) && |l.uart| == 2 && l.wasConnected
    ensures l.known == L.ChangeRecord(r.data, r.battery)
    ensures l.uart[0].frame == Encode(r.data.(latest := true, connected := true)) && l.uart[1].frame == Encode(l.known)
  {
    l := L.Pass(L.Initial(), r);
    assert Abs(r.data.r2 - L.Initial().known.r2) > L.SLACK;
  }

  lemma LaterReading(l: L.Link, r: L.Reading)
    requires l.wasConnected && r.connected && OnlyTrigger(r.data) && OnlyTrigger(l.known)
    ensures Abs(r.data.r2 - l.known.r2) <= L.SLACK ==> L.Pass(l, r) == l
    ensures Abs(r.data.r2 - l.known.r2) > L.SLACK ==>
      var p := L.ChangeRecord(r.data, r.battery);
      L.Pass(l, r) == L.Link(p, true, l.uart + [L.Sent(L.Change, Encode(p))])
  {
  }

  function ToRecord(p: Pad, throttle: u8): Pad { p.(r2 := throttle, latest := true, connected := true) }

  lemma SlowReleaseWrites(p: Pad, a: u8, t: u8, battery: int) returns (x: L.Sent, y: L.Sent, z: L.Sent)
    requires OnlyTrigger(p) && t <= L.SLACK && a > t + L.SLACK
    ensures L.Run(L.Initial(), SlowRelease(p, a, t, battery)).uart == [x] + [y] + [z]
    ensures x.frame == Encode(ToRecord(p, a))
    ensures y.frame == Encode(ToRecord(p, a).(battery := ToU16(battery)))
    ensures z.frame == Encode(ToRecord(p, t).(battery := ToU16(battery)))
  {
    var rs := SlowRelease(p, a, t, battery);
    var l1 := FirstReading(rs[0]);
    LaterReading(l1, rs[1]);
    var l2 := L.Pass(l1, rs[1]);
    LaterReading(l2, rs[2]);
    assert L.Pass(l2, rs[2]) == l2;
    assert rs[..2] == [rs[0], rs[1]] && rs[..2][..1] == [rs[0]] && rs[..2][..1][..0] == [];
    assert L.Run(L.Initial(), rs[..2][..1]) == l1;
    assert L.Run(L.Initial(), rs[..2]) == l2;
    x, y, z := l2.uart[0], l2.uart[1], l2.uart[2];
  }

  lemma DrivePad(s: Rover, p: Pad, now: nat)
    requires s.mode == Driving && OnlyTrigger(p) && p.connected
    ensures var t := ProcessPad(s, p, now); t.mode == Driving && t.duty == Duty(s.curve[p.r2] / 2, 0) && t.curve == s.curve
  {
    var w := WordOf(p);
    assert BitConnected in w && BitRecord !in w && BitReplay !in w && BitCross !in w && BitAuto !in w;
  }

  lemma FirstPad(curve: ThrottleMap, p: Pad, now: nat)
    ensures var t := ProcessPad(Initial(curve), p, now); t.mode == Driving && t.curve == curve
  {
  }

  lemma DeliverGrows(s: Rover, uart: seq<L.Sent>, times: seq<nat>, x: L.Sent, now: nat, p: Pad)
    requires |times| == |uart| && x.frame == Encode(p) && p.connected && p.latest
    ensures Deliver(s, uart + [x], times + [now]) == ProcessPad(Deliver(s, uart, times), p, now)
  {
    SealedFrameArrives(p);
    assert (uart + [x])[..|uart|] == uart && (times + [now])[..|times|] == times;
  }

  lemma DeliverFirst(curve: ThrottleMap, x: L.Sent, now: nat, p: Pad)
    requires x.frame == Encode(p) && p.connected && p.latest
    ensures var t := Deliver(Initial(curve), [x], [now]); t.mode == Driving && t.curve == curve
  {
    DeliverGrows(Initial(curve), [], [], x, now, p);
    FirstPad(curve, p, now);
    assert [] + [x] == [x] && [] + [now] == [now];
  }

  lemma DeliverDrive(s: Rover, uart: seq<L.Sent>, times: seq<nat>, x: L.Sent, now: nat, p: Pad)
    requires |times| == |uart| && Deliver(s, uart, times).mode == Driving
    requires x.frame == Encode(p) && p.connected && p.latest && OnlyTrigger(p)
    ensures var c, t := Deliver(s, uart, times).curve, Deliver(s, uart + [x], times + [now]);
      t.mode == Driving && t.curve == c && t.duty == Duty(c[p.r2] / 2, 0)
  {
    DeliverGrows(s, uart, times, x, now, p);
    DrivePad(Deliver(s, uart, times), p, now);
  }

  /** Releasing the trigger slowly leaves the rover driving: the controller board holds back the
      last change, and the motors keep the duty of the throttle sent before it, which is not zero. */
  lemma SlowReleaseKeepsDriving(curve: ThrottleMap, p: Pad, a: u8, t: u8, battery: int, t0: nat, t1: nat, t2: nat)
    requires OnlyTrigger(p) && 0 < t <= L.SLACK && a > t + L.SLACK && curve == ThrottleMapHigh()
    ensures var uart := Linked(SlowRelease(p, a, t, battery)).uart;
      |uart| == 3 && var s := Deliver(Initial(curve), uart, [t0] + [t1] + [t2]);
      s.mode == Driving && s.duty == Duty(curve[t] / 2, 0) && s.duty.forward > 0
  {
    var x, y, z := SlowReleaseWrites(p, a, t, battery);
    DeliverFirst(curve, x, t0, ToRecord(p, a));
    DeliverDrive(Initial(curve), [x], [t0], y, t1, ToRecord(p, a).(battery := ToU16(battery)));
    DeliverDrive(Initial(curve), [x] + [y], [t0] + [t1], z, t2, ToRecord(p, t).(battery := ToU16(battery)));
    DutyInRange(t, 1);
  }

  /** How far off the throttle can be: with the trigger at rest, the main board has last read a
      throttle of at most 4, and of at most 2 from a change packet. */
  lemma RestIsSlow(readings: seq<L.Reading>)
    requires readings != [] && readings[|readings| - 1].connected && readings[|readings| - 1].data.r2 == 0
    ensures var uart := Linked(readings).uart;
      uart != [] && Received(uart[|uart| - 1].frame).r2 <= 2 * L.SLACK && L.LastChange(uart).r2 <= L.SLACK
  {
    L.ChangeFilterNoDrift(readings);
    L.MainBoardSees(readings);
  }

  predicate AtRest(p: Pad) { p.r2 == 0 && p.l2 == 0 }

  /** After a reading with both triggers at rest, the last packet says so exactly if the controller
      has just connected, or the reading is a change, or the packet before said so already. */
  lemma RestKnownIff(l: L.Link, r: L.Reading)
    requires L.Good(l) && r.connected && AtRest(r.data)
    ensures L.Pass(l, r).uart != []
    ensures AtRest(L.LastSent(L.Pass(l, r).uart))
      <==> !l.wasConnected || L.Changed(r.data, l.known) || AtRest(L.LastSent(l.uart))
  {
    L.WriteKnown(l, L.Connect, r.data.(connected := true, latest := true));
    L.WriteKnown(L.WhenConnected(l, r.data), L.Change, L.ChangeRecord(r.data, r.battery));
  }

  /** What the pass adds to what the controller board has written. */
  function News(l: L.Link, r: L.Reading): seq<L.Sent> {
    if L.Changed(r.data, l.known) then [L.Sent(L.Change, Encode(L.ChangeRecord(r.data, r.battery)))] else []
  }

  lemma DrivingMotors(s: Rover, p: Pad, now: nat)
    requires s.mode == Driving && OnlyDrives(s.word, p)
    ensures var t := ProcessPad(s, p, now); t.throttle == ThrottleOf(p) && t.curve == s.curve && MotorsFollow(t)
  {
    assert BitConnected in WordOf(p);
    assert {BitRecord, BitReplay, BitCross, BitAuto} == {BitRecord} + {BitReplay, BitCross, BitAuto};
  }

  lemma DrivesAs(s: Rover, p: Pad, now: nat)
    requires s.mode == Driving && p.latest && OnlyDrives(s.word, p)
    ensures HandleMessage(s, Ps5(Encode(p)), now).throttle == ThrottleOf(p)
    ensures HandleMessage(s, Ps5(Encode(p)), now).curve == s.curve
    ensures MotorsFollow(HandleMessage(s, Ps5(Encode(p)), now))
  {
    SealedFrameArrives(p);
    DrivingMotors(s, p, now);
  }

  /** A driving rover that has followed the controller board so far stops when the triggers come to
      rest exactly if the board reports it, or had reported so before. */
  lemma RestStopsIff(s: Rover, l: L.Link, r: L.Reading, now: nat)
    requires L.Good(l) && l.wasConnected && r.connected && AtRest(r.data)
    requires s.mode == Driving && MotorsFollow(s) && s.curve == ThrottleMapHigh()
    requires s.throttle == ThrottleOf(L.LastSent(l.uart)) && OnlyDrives(s.word, L.ChangeRecord(r.data, r.battery))
    ensures L.Pass(l, r).uart == l.uart + News(l, r)
    ensures var t := Deliver(s, News(l, r), seq(|News(l, r)|, _ => now));
      t.duty == Duty(0, 0) <==> L.Changed(r.data, l.known) || AtRest(L.LastSent(l.uart))
  {
    DutyInRange(s.throttle, s.direction);
    if L.Changed(r.data, l.known) {
      var p := L.ChangeRecord(r.data, r.battery);
      DrivesAs(s, p, now);
      var t := HandleMessage(s, Ps5(Encode(p)), now);
      DutyInRange(t.throttle, t.direction);
      assert seq(1, _ => now) == [now];
      assert [L.Sent(L.Change, Encode(p))][..0] == [] && [now][..0] == [];
    }
  }

  // ---- from the report to the motors ----

  lemma ReceivedRecord(p: Pad)
    requires p.connected
    ensures Received(Encode(p)) == p
  {
    SealedFrameArrives(p);
  }

  lemma DeliverNews(s: Rover, l: L.Link, r: L.Reading, now: nat)
    requires L.Changed(r.data, l.known)
    ensures |News(l, r)| == 1
    ensures Deliver(s, News(l, r), [now]) == ProcessPad(s, L.ChangeRecord(r.data, r.battery), now)
  {
    var p := L.ChangeRecord(r.data, r.battery);
    var x := L.Sent(L.Change, Encode(p));
    DeliverOne(s, [], [], x, now);
    assert [] + [x] == [x] && [] + [now] == [now];
    ReceivedRecord(p);
  }

  /** An extended report drives: if it is a change, and shows nothing that leads out of driving mode,
      the bytes of the triggers become the duties, the right one first, and the byte of the left
      stick becomes the steering. */
  lemma ReportDrives(s: Rover, l: L.Link, cur: Pad, report: P.Report, extra: Extra, battery: int, now: nat)
    requires var p := P.Parsed(cur, P.EXTENDED, report, extra);
      && Inv(s) && s.mode == Driving && l.wasConnected && L.Changed(p, l.known)
      && IsDriven(s, L.ChangeRecord(p, battery))
    ensures var r := L.Reading(true, P.Parsed(cur, P.EXTENDED, report, extra), battery);
      && |News(l, r)| == 1 && L.Pass(l, r).uart == l.uart + News(l, r)
      && var t := Deliver(s, News(l, r), [now]);
         && t.duty == (if report[8] != 0 then Duty(s.curve[report[8]] / 2, 0) else Duty(0, s.curve[report[7]] / 2))
         && t.steeringPulse == AngleToCompare((report[3] as int - 128) / 4)
  {
    var p := P.Parsed(cur, P.EXTENDED, report, extra);
    var r := L.Reading(true, p, battery);
    DeliverNews(s, l, r, now);
    LiveDriving(s, L.ChangeRecord(p, battery), now);
  }

  lemma NoButtons(s: Rover, cur: Pad, report: P.Report, extra: Extra, battery: int)
    requires s.mode == Driving && report[10] == 8 && report[11] == 0 && report[12] == 0
    ensures var p := P.Parsed(cur, P.EXTENDED, report, extra); IsDriven(s, L.ChangeRecord(p, battery))
  {
    var p := P.Parsed(cur, P.EXTENDED, report, extra);
    P.ReportBits(8, 0, 0, Circle);
    P.ReportBits(8, 0, 0, Triangle);
    P.ReportBits(8, 0, 0, Cross);
    P.ReportBits(8, 0, 0, Square);
    assert p.buttons == P.Buttons(8, 0, 0);
  }

  /** The left trigger alone makes the rover reverse. */
  lemma LeftTriggerReverses(s: Rover, l: L.Link, cur: Pad, report: P.Report, extra: Extra, battery: int, now: nat)
    requires Inv(s) && s.mode == Driving && s.curve == ThrottleMapHigh() && l.wasConnected
    requires report[10] == 8 && report[11] == 0 && report[12] == 0
    requires report[8] == 0 && report[7] as int > l.known.l2 as int + 2
    ensures var r := L.Reading(true, P.Parsed(cur, P.EXTENDED, report, extra), battery);
      && |News(l, r)| == 1 && L.Pass(l, r).uart == l.uart + News(l, r)
      && var t := Deliver(s, News(l, r), [now]); t.duty.forward == 0 && t.duty.reverse > 0
  {
    var p := P.Parsed(cur, P.EXTENDED, report, extra);
    assert Abs(p.l2 - l.known.l2) > L.SLACK;
    NoButtons(s, cur, report, extra, battery);
    ReportDrives(s, l, cur, report, extra, battery, now);
    DutyInRange(report[7], 0);
  }
}
