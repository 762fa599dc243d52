/** The controller board's side of the link: connect, disconnect and change packets
    (ps5/main/app_main.c). One pass of the loop reads the controller once. */
module ControllerLink {
  import opened Common
  import opened PadData

  datatype Kind = Connect | Disconnect | Change

  datatype Sent = Sent(kind: Kind, frame: Frame)

  /** `known` is the record of the last change packet, `uart` everything written so far. */
  datatype Link = Link(known: Pad, wasConnected: bool, uart: seq<Sent>)

  /** What one pass reads: whether a controller is connected, its record, the battery voltage. */
  datatype Reading = Reading(connected: bool, data: Pad, battery: int)

  function Initial(): Link { Link(NeutralPad(false, false), false, []) }

  const COMPARED :=
    {Right, Left, Up, Down, Square, Circle, Cross, Triangle, L1, R1, L2, R2, L3, R3}

  const SLACK := 2

  predicate Within(a: Pad, b: Pad, slack: nat) {
    && Abs(a.lx - b.lx) <= slack && Abs(a.ly - b.ly) <= slack
    && Abs(a.rx - b.rx) <= slack && Abs(a.ry - b.ry) <= slack
    && Abs(a.l2 - b.l2) <= slack && Abs(a.r2 - b.r2) <= slack
  }

  predicate SameButtons(a: Pad, b: Pad) {
    forall x :: x in COMPARED ==> (x in a.buttons <==> x in b.buttons)
  }

  predicate Changed(data: Pad, known: Pad) { !SameButtons(data, known) || !Within(data, known, SLACK) }

  // ---- one pass ----

  function Write(l: Link, kind: Kind, p: Pad): Link {
    l.(uart := l.uart + [Sent(kind, Encode(p))])
  }

  function WhenConnected(l: Link, data: Pad): Link {
    if l.wasConnected then l
    else Write(l, Connect, data.(connected := true, latest := true)).(wasConnected := true)
  }

  /** What a change packet carries. */
  function ChangeRecord(data: Pad, battery: int): Pad {
    data.(latest := true, connected := true, battery := ToU16(battery))
  }

  function WhenChanged(l: Link, data: Pad, battery: int): Link {
    if !Changed(data, l.known) then l
    else
      var p := ChangeRecord(data, battery);
      Write(l, Change, p).(known := p)
  }

  function WhenDisconnected(l: Link, data: Pad): Link {
    if !l.wasConnected then l
    else Write(l, Disconnect, data.(connected := false, latest := true)).(wasConnected := false)
  }

  function Pass(l: Link, r: Reading): Link {
    if !r.connected then WhenDisconnected(l, r.data)
    else WhenChanged(WhenConnected(l, r.data), r.data, r.battery)
  }

  // ---- the loop's state in place ----

  method ButtonsDiffer(a: set<Button>, b: set<Button>) returns (differ: bool)
    ensures !differ <==> forall x :: x in COMPARED ==> (x in a <==> x in b)
  {
    differ :=
      || (Right in a) != (Right in b) || (Left in a) != (Left in b)
      || (Up in a) != (Up in b) || (Down in a) != (Down in b)
      || (Square in a) != (Square in b) || (Circle in a) != (Circle in b)
      || (Cross in a) != (Cross in b) || (Triangle in a) != (Triangle in b)
      || (L1 in a) != (L1 in b) || (R1 in a) != (R1 in b)
      || (L2 in a) != (L2 in b) || (R2 in a) != (R2 in b)
      || (L3 in a) != (L3 in b) || (R3 in a) != (R3 in b);
  }

  class LinkTask {
    var oldData: Pad
    var wasConnected: bool
    var uart: seq<Sent>

    function State(): Link reads this { Link(oldData, wasConnected, uart) }

    constructor ()
      ensures State() == Initial()
    {
      oldData, wasConnected, uart := NeutralPad(false, false), false, [];
    }

    method WriteBytes(kind: Kind, p: Pad)
      modifies this`uart
      ensures State() == Write(old(State()), kind, p)
    {
      var frame := new u8[FRAME_SIZE];
      var body := Body(p);
      for i := 0 to BODY_SIZE
        invariant frame[..i] == body[..i] && uart == old(uart)
      {
        frame[i] := body[i];
      }
      assert frame[..BODY_SIZE] == body;
      SetChecksum(frame);
      assert frame[..] == Encode(p);
      uart := uart + [Sent(kind, frame[..])];
    }

    method HasChanges(data: Pad) returns (changed: bool)
      ensures changed == Changed(data, oldData)
    {
      var buttons := ButtonsDiffer(data.buttons, oldData.buttons);
      changed := buttons
        || Abs(data.lx - oldData.lx) > 2 || Abs(data.ly - oldData.ly) > 2
        || Abs(data.rx - oldData.rx) > 2 || Abs(data.ry - oldData.ry) > 2
        || Abs(data.l2 - oldData.l2) > 2 || Abs(data.r2 - oldData.r2) > 2;
    }

    /** One iteration of `ps5_check`. */
    method Check(r: Reading)
      modifies this
      ensures State() == Pass(old(State()), r)
    {
      if !r.connected {
        if wasConnected {
          wasConnected := false;
          var data := r.data;
          WriteBytes(Disconnect, data.(connected := false, latest := true));
        }
        return;
      }
      var data := r.data;
      if !wasConnected {
        wasConnected := false;
        WriteBytes(Connect, data.(connected := true, latest := true));
        wasConnected := true;
      }
      var hasChanges := HasChanges(data);
      if hasChanges {
        oldData := ChangeRecord(data, r.battery);
        WriteBytes(Change, oldData);
      }
    }
  }

  // ---- no drift ----

  /** The record in the last change packet, or the cleared one before the first. */
  function LastChange(uart: seq<Sent>): Pad
    decreases uart
  {
    if uart == [] then NeutralPad(false, false)
    else if uart[|uart| - 1].kind == Change then Decode(uart[|uart| - 1].frame)
    else LastChange(uart[..|uart| - 1])
  }

  function LastSent(uart: seq<Sent>): Pad
    requires uart != []
  {
    Decode(uart[|uart| - 1].frame)
  }

  predicate Good(l: Link) {
    && l.known == LastChange(l.uart)
    && (l.wasConnected ==>
          l.uart != [] && var last := LastSent(l.uart);
          last.latest && last.connected && SameButtons(last, l.known) && Within(last, l.known, SLACK))
    && (!l.wasConnected && l.uart != [] ==> LastSent(l.uart).latest && !LastSent(l.uart).connected)
  }

  /** The records known to the other board are close to the present one. */
  predicate NoDrift(l: Link, data: Pad) {
    && l.uart != []
    && SameButtons(LastSent(l.uart), data) && SameButtons(LastChange(l.uart), data)
    && Within(LastChange(l.uart), data, SLACK) && Within(LastSent(l.uart), data, 2 * SLACK)
  }

  lemma WriteKnown(l: Link, kind: Kind, p: Pad)
    ensures var t := Write(l, kind, p);
      && t.uart != [] && LastSent(t.uart) == p
      && LastChange(t.uart) == if kind == Change then p else LastChange(l.uart)
  {
    SealedFrameArrives(p);
    assert Write(l, kind, p).uart[..|l.uart|] == l.uart;
  }

  lemma ButtonsJoin(a: Pad, b: Pad, c: Pad)
    requires SameButtons(a, b) && SameButtons(b, c)
    ensures SameButtons(a, c)
  {
  }

  /** After the connect packet, if one was due: the last record is the present one, or close to
      the last change. */
  predicate Announced(l: Link, data: Pad) {
    && l.wasConnected && l.known == LastChange(l.uart) && l.uart != []
    && LastSent(l.uart).latest && LastSent(l.uart).connected
    && (LastSent(l.uart) == data.(connected := true, latest := true)
        || (SameButtons(LastSent(l.uart), l.known) && Within(LastSent(l.uart), l.known, SLACK)))
  }

  lemma Announces(l: Link, data: Pad)
    requires Good(l)
    ensures Announced(WhenConnected(l, data), data)
  {
    WriteKnown(l, Connect, data.(connected := true, latest := true));
  }

  lemma WithinJoin(a: Pad, b: Pad, c: Pad)
    requires Within(a, b, SLACK) && Within(b, c, SLACK)
    ensures Within(a, c, 2 * SLACK)
  {
  }

  lemma Unchanged(l: Link, data: Pad)
    requires Announced(l, data) && !Changed(data, l.known)
    ensures Good(l) && NoDrift(l, data)
  {
    assert SameButtons(l.known, data) && Within(l.known, data, SLACK);
    if SameButtons(LastSent(l.uart), l.known) && Within(LastSent(l.uart), l.known, SLACK) {
      ButtonsJoin(LastSent(l.uart), l.known, data);
      WithinJoin(LastSent(l.uart), l.known, data);
    }
  }

  lemma Changes(l: Link, data: Pad, battery: int)
    requires Announced(l, data) && Changed(data, l.known)
    ensures Good(WhenChanged(l, data, battery)) && NoDrift(WhenChanged(l, data, battery), data)
  {
    WriteKnown(l, Change, ChangeRecord(data, battery));
  }

  lemma ConnectedPass(l: Link, r: Reading)
    requires Good(l) && r.connected
    ensures Good(Pass(l, r)) && NoDrift(Pass(l, r), r.data) && Pass(l, r).wasConnected
  {
    Announces(l, r.data);
    var t := WhenConnected(l, r.data);
    if Changed(r.data, t.known) {
      Changes(t, r.data, r.battery);
    } else {
      Unchanged(t, r.data);
    }
  }

  lemma DisconnectedPass(l: Link, r: Reading)
    requires Good(l) && !r.connected
    ensures Good(Pass(l, r)) && !Pass(l, r).wasConnected
  {
    WriteKnown(l, Disconnect, r.data.(connected := false, latest := true));
  }

  function Run(l: Link, readings: seq<Reading>): Link
    decreases readings
  {
    if readings == [] then l else Pass(Run(l, readings[..|readings| - 1]), readings[|readings| - 1])
  }

  /** Over every sequence of readings: after a pass with a connected controller each compared
      button is as last transmitted, each axis and trigger is within 2 of the last change packet
      and within 4 of the last packet of any kind, however slowly it moved. */
  lemma {:induction false} ChangeFilterNoDrift(readings: seq<Reading>)
    ensures Good(Run(Initial(), readings))
    ensures readings != [] && readings[|readings| - 1].connected ==>
      NoDrift(Run(Initial(), readings), readings[|readings| - 1].data)
    ensures Run(Initial(), readings).wasConnected <==> readings != [] && readings[|readings| - 1].connected
    decreases readings
  {
    if readings != [] {
      var n := |readings| - 1;
      ChangeFilterNoDrift(readings[..n]);
      var l := Run(Initial(), readings[..n]);
      if readings[n].connected { ConnectedPass(l, readings[n]); } else { DisconnectedPass(l, readings[n]); }
    }
  }

  predicate AllSealed(uart: seq<Sent>) {
    forall i :: 0 <= i < |uart| ==> Accepted(uart[i].frame)
  }

  lemma PassWrites(l: Link, r: Reading)
    requires AllSealed(l.uart)
    ensures AllSealed(Pass(l, r).uart)
  {
    SealedFrameArrives(r.data.(connected := true, latest := true));
    SealedFrameArrives(r.data.(connected := false, latest := true));
    SealedFrameArrives(ChangeRecord(r.data, r.battery));
  }

  lemma {:induction false} Written(l: Link, readings: seq<Reading>)
    requires AllSealed(l.uart)
    ensures AllSealed(Run(l, readings).uart)
    decreases readings
  {
    if readings != [] {
      var n := |readings| - 1;
      Written(l, readings[..n]);
      PassWrites(Run(l, readings[..n]), readings[n]);
    }
  }

  /** What the main board makes of the last packet. */
  lemma MainBoardSees(readings: seq<Reading>)
    requires Run(Initial(), readings).uart != []
    ensures var l := Run(Initial(), readings);
      Received(l.uart[|l.uart| - 1].frame)
        == if l.wasConnected then LastSent(l.uart) else NeutralPad(true, false)
  {
    ChangeFilterNoDrift(readings);
    Written(Initial(), readings);
  }

  // ---- what is written, and when ----

  /** All buttons are compared but the diagonals, share, options, PS and the touchpad. */
  lemma ComparedButtons(b: Button)
    ensures b in COMPARED
      <==> !b.UpRight? && !b.DownRight? && !b.UpLeft? && !b.DownLeft? && !b.Share? && !b.Options? && !b.Ps? && !b.Touchpad?
  {
  }

  /** The distance between two values. */
  function Gap(a: int, b: int): nat { if a < b then b - a else a - b }

  lemma ComparedAxes(a: Pad, b: Pad)
    ensures Within(a, b, SLACK) <==>
      && Gap(a.lx, b.lx) <= 2 && Gap(a.ly, b.ly) <= 2 && Gap(a.rx, b.rx) <= 2 && Gap(a.ry, b.ry) <= 2
      && Gap(a.l2, b.l2) <= 2 && Gap(a.r2, b.r2) <= 2
  {
  }

  /** A pass writes nothing exactly while there is no controller, or a connected one has neither a
      compared button changed nor an axis or trigger moved by more than 2 since the last change. */
  lemma PassIsQuietIff(l: Link, r: Reading)
    ensures Pass(l, r).uart == l.uart <==>
      if r.connected then l.wasConnected && SameButtons(r.data, l.known) && Within(r.data, l.known, 2)
      else !l.wasConnected
  {
    if Pass(l, r).uart == l.uart { assert |Pass(l, r).uart| == |l.uart|; }
  }

  /** A change packet carries the controls as they are read, marked connected and latest, with the
      battery's voltage; connect and disconnect packets carry the record with their mark. */
  lemma PassSends(l: Link, r: Reading)
    requires Pass(l, r).uart != l.uart
    ensures Pass(l, r).uart != []
    ensures var d, p := r.data, LastSent(Pass(l, r).uart);
      && p.lx == d.lx && p.ly == d.ly && p.rx == d.rx && p.ry == d.ry && p.l2 == d.l2 && p.r2 == d.r2
      && p.buttons == d.buttons && p.extra == d.extra && p.latest && p.connected == r.connected
      && p.battery == if r.connected && Changed(d, l.known) then r.battery % 0x1_0000 else d.battery
  {
    if r.connected {
      WriteKnown(l, Connect, r.data.(connected := true, latest := true));
      WriteKnown(WhenConnected(l, r.data), Change, ChangeRecord(r.data, r.battery));
    } else {
      WriteKnown(l, Disconnect, r.data.(connected := false, latest := true));
    }
  }

  // ---- the order of the packets ----

  /** The kind of the packet before packet i; before the first there is no controller. */
  function KindBefore(uart: seq<Sent>, i: nat): Kind
    requires i <= |uart|
  {
    if i == 0 then Disconnect else uart[i - 1].kind
  }

  /** A connect packet is the first, and the one after each disconnect packet: no two disconnect
      packets follow each other. */
  predicate InOrder(uart: seq<Sent>) {
    forall i :: 0 <= i < |uart| ==> (uart[i].kind == Connect <==> KindBefore(uart, i) == Disconnect)
  }

  predicate Ordered(l: Link) {
    InOrder(l.uart) && (l.wasConnected <==> KindBefore(l.uart, |l.uart|) != Disconnect)
  }

  lemma InOrderGrows(uart: seq<Sent>, x: Sent)
    requires InOrder(uart) && (x.kind == Connect <==> KindBefore(uart, |uart|) == Disconnect)
    ensures InOrder(uart + [x])
  {
    var all := uart + [x];
    forall i | 0 <= i < |all| ensures all[i].kind == Connect <==> KindBefore(all, i) == Disconnect {
      assert KindBefore(all, i) == KindBefore(uart, i);
      if i < |uart| { assert all[i] == uart[i]; }
    }
  }

  lemma ConnectOrdered(l: Link, data: Pad)
    requires Ordered(l)
    ensures Ordered(WhenConnected(l, data)) && WhenConnected(l, data).wasConnected
  {
    if !l.wasConnected { InOrderGrows(l.uart, Sent(Connect, Encode(data.(connected := true, latest := true)))); }
  }

  lemma ChangeOrdered(l: Link, data: Pad, battery: int)
    requires Ordered(l) && l.wasConnected
    ensures Ordered(WhenChanged(l, data, battery))
  {
    InOrderGrows(l.uart, Sent(Change, Encode(ChangeRecord(data, battery))));
  }

  lemma DisconnectOrdered(l: Link, data: Pad)
    requires Ordered(l)
    ensures Ordered(WhenDisconnected(l, data))
  {
    if l.wasConnected { InOrderGrows(l.uart, Sent(Disconnect, Encode(data.(connected := false, latest := true)))); }
  }

  /** Over every sequence of readings: each loss is announced once, each return once. */
  lemma {:induction false} PacketsInOrder(readings: seq<Reading>)
    ensures Ordered(Run(Initial(), readings))
    decreases readings
  {
    if readings != [] {
      var n := |readings| - 1;
      PacketsInOrder(readings[..n]);
      var l, r := Run(Initial(), readings[..n]), readings[n];
      if r.connected {
        ConnectOrdered(l, r.data);
        ChangeOrdered(WhenConnected(l, r.data), r.data, r.battery);
      } else {
        DisconnectOrdered(l, r.data);
      }
    }
  }

  predicate Away(readings: seq<Reading>) { forall i :: 0 <= i < |readings| ==> !readings[i].connected }

  lemma {:induction false} RunAppend(l: Link, a: seq<Reading>, b: seq<Reading>)
    ensures Run(l, a + b) == Run(Run(l, a), b)
    decreases b
  {
    if b == [] {
      assert a + b == a;
    } else {
      assert (a + b)[..|a + b| - 1] == a + b[..|b| - 1];
      RunAppend(l, a, b[..|b| - 1]);
    }
  }

  /** A controller that stays away is announced by one packet, and by nothing more. */
  lemma {:induction false} AwayWritesOnce(l: Link, lost: seq<Reading>)
    requires Away(lost) && lost != []
    ensures Run(l, lost) == WhenDisconnected(l, lost[0].data) && !Run(l, lost).wasConnected
    decreases lost
  {
    var n := |lost| - 1;
    if n == 0 {
      assert lost[..n] == [];
    } else {
      AwayWritesOnce(l, lost[..n]);
    }
  }

  lemma SecondReading(l: Link, r: Reading)
    requires r.connected && r.data == NeutralPad(true, true).(lx := 2)
    requires l.known == Initial().known && l.wasConnected
    ensures Pass(l, r) == l
  {
  }

  lemma ConnectOnly(r: Reading) returns (l: Link)
    requires r.connected && r.data == NeutralPad(true, true).(lx := -2)
    ensures l == Pass(Initial(), r) && l.known == Initial().known && l.wasConnected
    ensures l.uart != [] && LastSent(l.uart) == r.data
  {
    WriteKnown(Initial(), Connect, r.data);
    l := WhenConnected(Initial(), r.data);
    assert !Changed(r.data, l.known);
  }

  /** The bound of 4 is met: a connect packet at one end of the dead zone, then the other end. */
  lemma DriftOfFour() returns (readings: seq<Reading>)
    ensures |readings| == 2 && readings[0].connected && readings[1].connected
    ensures var l := Run(Initial(), readings);
      l.uart != [] && readings[1].data.lx - LastSent(l.uart).lx == 2 * SLACK
  {
    var p := NeutralPad(true, true);
    var a, b := p.(lx := -2), p.(lx := 2);
    var r0, r1 := Reading(true, a, 0), Reading(true, b, 0);
    readings := [r0, r1];
    var l1 := ConnectOnly(r0);
    SecondReading(l1, r1);
    assert readings[..1] == [r0] && readings[..1][..0] == [];
    assert Run(Initial(), [r0]) == l1;
  }
}
