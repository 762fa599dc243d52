/** Decoding of the controller's input reports (ps5/main/ps5_parser.c): sticks, triggers and
    buttons, and the events between two reports. */
module Ps5Parser {
  import opened Common
  import opened PadData

  /** Where a report holds the left stick's first byte, the left trigger and the buttons. */
  datatype Layout = Layout(stick: nat, trigger: nat, buttons: nat)

  const EXTENDED := Layout(3, 7, 10)
  const SIMPLIFIED := Layout(11, 18, 15)

  // The decoders read up to byte 55.
  const REPORT_SIZE := 56

  type Report = s: seq<u8> | |s| >= REPORT_SIZE witness seq(REPORT_SIZE, _ => 0)

  type KnownLayout = l: Layout | l == EXTENDED || l == SIMPLIFIED witness EXTENDED

  // ---- sticks ----

  /** The horizontal axes count from the left, the vertical ones from the bottom. */
  function Horizontal(b: u8): i8 { b as int - 128 }

  function Vertical(b: u8): i8 { 127 - b as int }

  /** Every position is reached by exactly one byte, and the axes run in opposite senses. */
  lemma SticksAreBijective(v: i8) returns (h: u8, w: u8)
    ensures Horizontal(h) == v && forall b: u8 :: Horizontal(b) == v ==> b == h
    ensures Vertical(w) == v && forall b: u8 :: Vertical(b) == v ==> b == w
    ensures h as int + w as int == 255
  {
    h, w := v as int + 128, 127 - v as int;
  }

  // ---- buttons ----

  /** The direction pad's code of a direction, clockwise from the top; 8 stands for none. */
  function Hat(b: Button): (h: nat)
    ensures h <= 8
  {
    match b
    case Up => 0
    case UpRight => 1
    case Right => 2
    case DownRight => 3
    case Down => 4
    case DownLeft => 5
    case Left => 6
    case UpLeft => 7
    case _ => 8
  }

  predicate IsDirection(b: Button) { Hat(b) < 8 }

  /** The other buttons by their bits: from bit 4 of the first byte, bit 0 of the second and
      bit 0 of the third on. */
  const FRONT := [Square, Cross, Circle, Triangle]
  const OTHER := [L1, R1, L2, R2, Share, Options, L3, R3]
  const PS := [Ps, Touchpad]

  predicate IsDown(front: u8, other: u8, ps: u8, b: Button) {
    match b
    case Square => BitOf(front, 4)
    case Cross => BitOf(front, 5)
    case Circle => BitOf(front, 6)
    case Triangle => BitOf(front, 7)
    case L1 => BitOf(other, 0)
    case R1 => BitOf(other, 1)
    case L2 => BitOf(other, 2)
    case R2 => BitOf(other, 3)
    case Share => BitOf(other, 4)
    case Options => BitOf(other, 5)
    case L3 => BitOf(other, 6)
    case R3 => BitOf(other, 7)
    case Ps => BitOf(ps, 0)
    case Touchpad => BitOf(ps, 1)
    case _ => front % 16 == Hat(b)
  }

  function Buttons(front: u8, other: u8, ps: u8): set<Button> {
    set b: Button | IsDown(front, other, ps, b)
  }

  predicate OneDirectionAtMost(s: set<Button>) {
    forall a, b :: a in s && b in s && IsDirection(a) && IsDirection(b) ==> a == b
  }

  lemma HatInjective(a: Button, b: Button)
    requires IsDirection(a) && Hat(a) == Hat(b)
    ensures a == b
  {
  }

  lemma DirectionDown(front: u8, other: u8, ps: u8, b: Button)
    requires IsDirection(b)
    ensures b in Buttons(front, other, ps) <==> front % 16 == Hat(b)
  {
  }

  lemma DirectionWithCode(h: nat) returns (b: Button)
    requires h < 8
    ensures Hat(b) == h
  {
    b := if h == 0 then Up else if h == 1 then UpRight else if h == 2 then Right else if h == 3 then DownRight
         else if h == 4 then Down else if h == 5 then DownLeft else if h == 6 then Left else UpLeft;
  }

  /** At most one direction is reported, and one is exactly when the code is below 8. */
  lemma OneDirection(front: u8, other: u8, ps: u8)
    ensures OneDirectionAtMost(Buttons(front, other, ps))
    ensures (exists b :: b in Buttons(front, other, ps) && IsDirection(b)) <==> front % 16 < 8
  {
    var s := Buttons(front, other, ps);
    forall a, b | a in s && b in s && IsDirection(a) && IsDirection(b) ensures a == b {
      DirectionDown(front, other, ps, a);
      DirectionDown(front, other, ps, b);
      HatInjective(a, b);
    }
    forall b | b in s && IsDirection(b) ensures front % 16 < 8 { DirectionDown(front, other, ps, b); }
    if front % 16 < 8 {
      var b := DirectionWithCode(front % 16);
      DirectionDown(front, other, ps, b);
    }
  }

  // ---- the inverse: the button bytes of a set of buttons ----

  function HatOf(buttons: set<Button>): (h: nat)
    ensures h <= 8
  {
    if Up in buttons then 0 else if UpRight in buttons then 1
    else if Right in buttons then 2 else if DownRight in buttons then 3
    else if Down in buttons then 4 else if DownLeft in buttons then 5
    else if Left in buttons then 6 else if UpLeft in buttons then 7
    else 8
  }

  function Presence(s: set<Button>, order: seq<Button>): seq<bool> {
    seq(|order|, i requires 0 <= i < |order| => order[i] in s)
  }

  lemma SmallPowers()
    ensures Pow2(2) == 4 && Pow2(4) == 16 && Pow2(8) == 256
  {
  }

  function FrontByte(s: set<Button>): u8 {
    SmallPowers();
    HatOf(s) + 16 * Pack(Presence(s, FRONT))
  }

  function OtherByte(s: set<Button>): u8 {
    SmallPowers();
    Pack(Presence(s, OTHER))
  }

  function PsByte(s: set<Button>): u8 {
    SmallPowers();
    Pack(Presence(s, PS))
  }

  lemma HighBit(low: nat, n: nat, i: nat)
    requires low < 16
    ensures BitOf(low + 16 * n, 4 + i) == BitOf(n, i)
  {
    var m := low + 16 * n;
    assert m / 2 / 2 / 2 / 2 == n;
    assert BitOf(m, 4 + i) == BitOf(m / 2, 3 + i) == BitOf(m / 2 / 2, 2 + i) == BitOf(m / 2 / 2 / 2, 1 + i);
  }

  lemma PackedAt(s: set<Button>, order: seq<Button>, i: nat)
    requires i < |order|
    ensures BitOf(Pack(Presence(s, order)), i) <==> order[i] in s
  {
    PackedBit(Presence(s, order), i);
  }

  /** IsDown of a listed button, in terms of its byte. */
  lemma ListedDown(front: u8, other: u8, ps: u8, i: nat)
    ensures i < 4 ==> (IsDown(front, other, ps, FRONT[i]) <==> BitOf(front, 4 + i))
    ensures i < 8 ==> (IsDown(front, other, ps, OTHER[i]) <==> BitOf(other, i))
    ensures i < 2 ==> (IsDown(front, other, ps, PS[i]) <==> BitOf(ps, i))
  {
  }

  lemma FrontAt(s: set<Button>, i: nat)
    requires i < 4
    ensures BitOf(FrontByte(s), 4 + i) <==> FRONT[i] in s
  {
    PackedAt(s, FRONT, i);
    HighBit(HatOf(s), Pack(Presence(s, FRONT)), i);
  }

  lemma ListedDecodes(s: set<Button>, i: nat)
    ensures i < 4 ==> (IsDown(FrontByte(s), OtherByte(s), PsByte(s), FRONT[i]) <==> FRONT[i] in s)
    ensures i < 8 ==> (IsDown(FrontByte(s), OtherByte(s), PsByte(s), OTHER[i]) <==> OTHER[i] in s)
    ensures i < 2 ==> (IsDown(FrontByte(s), OtherByte(s), PsByte(s), PS[i]) <==> PS[i] in s)
  {
    ListedDown(FrontByte(s), OtherByte(s), PsByte(s), i);
    if i < 4 { FrontAt(s, i); }
    if i < 8 { PackedAt(s, OTHER, i); }
    if i < 2 { PackedAt(s, PS, i); }
  }

  lemma HatDecodes(s: set<Button>, b: Button)
    requires OneDirectionAtMost(s) && IsDirection(b)
    ensures HatOf(s) == Hat(b) <==> b in s
  {
  }

  lemma DirectionDecodes(s: set<Button>, b: Button)
    requires OneDirectionAtMost(s) && IsDirection(b)
    ensures IsDown(FrontByte(s), OtherByte(s), PsByte(s), b) <==> b in s
  {
    assert FrontByte(s) % 16 == HatOf(s);
    HatDecodes(s, b);
  }

  lemma ListedAt(b: Button) returns (i: nat)
    requires !IsDirection(b)
    ensures (i < 4 && FRONT[i] == b) || (i < 8 && OTHER[i] == b) || (i < 2 && PS[i] == b)
  {
    match b
    case Square => i := 0;
    case Cross => i := 1;
    case Circle => i := 2;
    case Triangle => i := 3;
    case L1 => i := 0;
    case R1 => i := 1;
    case L2 => i := 2;
    case R2 => i := 3;
    case Share => i := 4;
    case Options => i := 5;
    case L3 => i := 6;
    case R3 => i := 7;
    case Ps => i := 0;
    case Touchpad => i := 1;
  }

  /** Every set of buttons with at most one direction is the reading of some report. */
  lemma ButtonsRoundTrip(s: set<Button>)
    requires OneDirectionAtMost(s)
    ensures Buttons(FrontByte(s), OtherByte(s), PsByte(s)) == s
  {
    forall b: Button ensures IsDown(FrontByte(s), OtherByte(s), PsByte(s), b) <==> b in s {
      if IsDirection(b) {
        DirectionDecodes(s, b);
      } else {
        var i := ListedAt(b);
        ListedDecodes(s, i);
      }
    }
  }

  // ---- reports and events ----

  /** A report replaces sticks, triggers, buttons and the status bytes of the record. */
  function Parsed(p: Pad, l: KnownLayout, r: Report, extra: Extra): Pad {
    Pad(Horizontal(r[l.stick]), Vertical(r[l.stick + 1]), Horizontal(r[l.stick + 2]), Vertical(r[l.stick + 3]),
        r[l.trigger], r[l.trigger + 1], Buttons(r[l.buttons], r[l.buttons + 1], r[l.buttons + 2]),
        extra, true, p.connected, p.battery)
  }

  datatype Axis = LeftX | LeftY | RightX | RightY | LeftTrigger | RightTrigger

  function Value(p: Pad, a: Axis): int {
    match a
    case LeftX => p.lx
    case LeftY => p.ly
    case RightX => p.rx
    case RightY => p.ry
    case LeftTrigger => p.l2
    case RightTrigger => p.r2
  }

  /** Buttons pressed, buttons released, axes moved. */
  datatype Event = Event(down: set<Button>, up: set<Button>, moved: set<Axis>)

  function ParseEvent(prev: Pad, cur: Pad): Event {
    Event(cur.buttons - prev.buttons, prev.buttons - cur.buttons, set a: Axis | Value(prev, a) != Value(cur, a))
  }

  /** The events between two records are none exactly when buttons and axes are the same. */
  lemma NoEventIff(prev: Pad, cur: Pad)
    ensures ParseEvent(prev, cur) == Event({}, {}, {})
      <==> cur == Pad(prev.lx, prev.ly, prev.rx, prev.ry, prev.l2, prev.r2, prev.buttons,
                      cur.extra, cur.latest, cur.connected, cur.battery)
  {
    var e := ParseEvent(prev, cur);
    if e == Event({}, {}, {}) {
      assert cur.buttons == prev.buttons;
      forall a: Axis ensures Value(prev, a) == Value(cur, a) {
        assert a !in e.moved;
      }
      assert Value(prev, LeftX) == Value(cur, LeftX) && Value(prev, LeftY) == Value(cur, LeftY);
      assert Value(prev, RightX) == Value(cur, RightX) && Value(prev, RightY) == Value(cur, RightY);
      assert Value(prev, LeftTrigger) == Value(cur, LeftTrigger) && Value(prev, RightTrigger) == Value(cur, RightTrigger);
    } else {
      assert e.moved != {} ==> exists a: Axis :: Value(prev, a) != Value(cur, a);
    }
  }

  class Parser {
    var ps5: Pad

    constructor ()
      ensures ps5 == NeutralPad(false, false)
    {
      ps5 := NeutralPad(false, false);
    }

    method ParsePacket(l: KnownLayout, r: Report, extra: Extra) returns (e: Event)
      modifies this
      ensures ps5 == Parsed(old(ps5), l, r, extra)
      ensures e == ParseEvent(old(ps5), ps5)
    {
      var prev := ps5;
      var cur := prev.(buttons := Buttons(r[l.buttons], r[l.buttons + 1], r[l.buttons + 2]));
      cur := cur.(lx := Horizontal(r[l.stick]), ly := Vertical(r[l.stick + 1]));
      cur := cur.(rx := Horizontal(r[l.stick + 2]), ry := Vertical(r[l.stick + 3]));
      cur := cur.(l2 := r[l.trigger], r2 := r[l.trigger + 1], extra := extra, latest := true);
      ps5 := cur;
      e := ParseEvent(prev, ps5);
    }
  }

  // ---- the layout, byte by byte ----

  /** The bits of the three button bytes, numbered from 0, for all buttons but the directions. */
  function ReportPlace(b: Button): (x: Place)
    requires !IsDirection(b)
    ensures x.byteNo <= 2 && x.weight > 0
  {
    match b
    case Square => Place(0, 16) case Cross => Place(0, 32) case Circle => Place(0, 64) case Triangle => Place(0, 128)
    case L1 => Place(1, 1) case R1 => Place(1, 2) case L2 => Place(1, 4) case R2 => Place(1, 8)
    case Share => Place(1, 16) case Options => Place(1, 32) case L3 => Place(1, 64) case R3 => Place(1, 128)
    case Ps => Place(2, 1) case Touchpad => Place(2, 2)
  }

  lemma SmallWeights()
    ensures Pow2(0) == 1 && Pow2(1) == 2 && Pow2(2) == 4 && Pow2(3) == 8
    ensures Pow2(4) == 16 && Pow2(5) == 32 && Pow2(6) == 64 && Pow2(7) == 128
  {
  }

  /** Each button is read from its own bit. */
  lemma ReportBits(front: u8, other: u8, ps: u8, b: Button)
    requires !IsDirection(b)
    ensures b in Buttons(front, other, ps)
      <==> [front, other, ps][ReportPlace(b).byteNo] / ReportPlace(b).weight % 2 == 1
  {
    SmallWeights();
    match b
    case Square => BitByWeight(front, 4);
    case Cross => BitByWeight(front, 5);
    case Circle => BitByWeight(front, 6);
    case Triangle => BitByWeight(front, 7);
    case L1 => BitByWeight(other, 0);
    case R1 => BitByWeight(other, 1);
    case L2 => BitByWeight(other, 2);
    case R2 => BitByWeight(other, 3);
    case Share => BitByWeight(other, 4);
    case Options => BitByWeight(other, 5);
    case L3 => BitByWeight(other, 6);
    case R3 => BitByWeight(other, 7);
    case Ps => BitByWeight(ps, 0);
    case Touchpad => BitByWeight(ps, 1);
  }

  /** The directions are coded clockwise from the top in the low half of the first byte. */
  lemma DirectionCodes(front: u8, other: u8, ps: u8)
    ensures var s, code := Buttons(front, other, ps), front % 16;
      && (Up in s <==> code == 0) && (UpRight in s <==> code == 1) && (Right in s <==> code == 2)
      && (DownRight in s <==> code == 3) && (Down in s <==> code == 4) && (DownLeft in s <==> code == 5)
      && (Left in s <==> code == 6) && (UpLeft in s <==> code == 7)
  {
  }

  /** An extended report that holds these controls, whatever else it holds. */
  function ExtendedReport(base: Report, p: Pad): Report {
    base[3 := p.lx + 128][4 := 127 - p.ly][5 := p.rx + 128][6 := 127 - p.ry][7 := p.l2][8 := p.r2]
        [10 := FrontByte(p.buttons)][11 := OtherByte(p.buttons)][12 := PsByte(p.buttons)]
  }

  /** A simplified report that holds these controls. */
  function SimplifiedReport(base: Report, p: Pad): Report {
    base[11 := p.lx + 128][12 := 127 - p.ly][13 := p.rx + 128][14 := 127 - p.ry][18 := p.l2][19 := p.r2]
        [15 := FrontByte(p.buttons)][16 := OtherByte(p.buttons)][17 := PsByte(p.buttons)]
  }

  /** Round trip: every record with at most one direction is the reading of a report of either kind;
      the connection and the battery are the link's, and stay. */
  lemma ReportRoundTrip(cur: Pad, base: Report, p: Pad, extra: Extra)
    requires OneDirectionAtMost(p.buttons)
    ensures var q := Pad(p.lx, p.ly, p.rx, p.ry, p.l2, p.r2, p.buttons, extra, true, cur.connected, cur.battery);
      Parsed(cur, EXTENDED, ExtendedReport(base, p), extra) == q
      && Parsed(cur, SIMPLIFIED, SimplifiedReport(base, p), extra) == q
  {
    ButtonsRoundTrip(p.buttons);
  }

  // ---- a stream of reports ----

  function EventAt(start: Pad, pads: seq<Pad>, i: nat): Event
    requires i < |pads|
  {
    ParseEvent(if i == 0 then start else pads[i - 1], pads[i])
  }

  function Presses(start: Pad, pads: seq<Pad>, b: Button): nat
    decreases pads
  {
    if pads == [] then 0
    else
      var n := |pads| - 1;
      Presses(start, pads[..n], b) + if b in EventAt(start, pads, n).down then 1 else 0
  }

  function Releases(start: Pad, pads: seq<Pad>, b: Button): nat
    decreases pads
  {
    if pads == [] then 0
    else
      var n := |pads| - 1;
      Releases(start, pads[..n], b) + if b in EventAt(start, pads, n).up then 1 else 0
  }

  function Level(p: Pad, b: Button): nat { if b in p.buttons then 1 else 0 }

  /** The events tell everything: presses less releases is the change of level, for every button
      and every stream of reports. */
  lemma {:induction false} EventsGiveLevel(start: Pad, pads: seq<Pad>, b: Button)
    ensures Presses(start, pads, b) + Level(start, b)
      == Releases(start, pads, b) + Level(if pads == [] then start else pads[|pads| - 1], b)
    decreases pads
  {
    if pads != [] {
      EventsGiveLevel(start, pads[..|pads| - 1], b);
    }
  }
}
