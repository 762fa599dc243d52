/** The controller record that crosses the serial link (common/ps5_data.h): its 24 packed
    bytes, the checksum over them, and how the main board reads a received frame. */
module PadData {
  import opened Common

  datatype Button =
    | Right | Down | Up | Left | Square | Cross | Circle | Triangle
    | UpRight | DownRight | UpLeft | DownLeft | L1 | R1 | L2 | R2
    | Share | Options | L3 | R3 | Ps | Touchpad

  const FRAME_SIZE := 24
  const BODY_SIZE := 23
  const EXTRA_SIZE := 10

  // Battery, status flags and sensors: carried along, not interpreted here.
  type Extra = s: seq<u8> | |s| == EXTRA_SIZE witness seq(EXTRA_SIZE, _ => 0)

  type Frame = s: seq<u8> | |s| == FRAME_SIZE witness seq(FRAME_SIZE, _ => 0)

  datatype Pad = Pad(lx: i8, ly: i8, rx: i8, ry: i8, l2: u8, r2: u8, buttons: set<Button>,
                     extra: Extra, latest: bool, connected: bool, battery: u16)

  /** A cleared record: nothing pressed, every axis and trigger at rest. */
  function NeutralPad(latest: bool, connected: bool): Pad {
    Pad(0, 0, 0, 0, 0, 0, {}, seq(EXTRA_SIZE, _ => 0), latest, connected, 0)
  }

  // ---- bit fields ----

  /** The button's place in the three bit-field bytes, lowest bit of the first byte first. */
  function Slot(b: Button): (k: nat)
    ensures k < 22
  {
    match b
    case Right => 0 case Down => 1 case Up => 2 case Left => 3
    case Square => 4 case Cross => 5 case Circle => 6 case Triangle => 7
    case UpRight => 8 case DownRight => 9 case UpLeft => 10 case DownLeft => 11
    case L1 => 12 case R1 => 13 case L2 => 14 case R2 => 15
    case Share => 16 case Options => 17 case L3 => 18 case R3 => 19
    case Ps => 20 case Touchpad => 21
  }

  /** The number whose bit i is bits[i]. */
  function Pack(bits: seq<bool>): (n: nat)
    ensures n < Pow2(|bits|)
    decreases bits
  {
    if bits == [] then 0 else (if bits[0] then 1 else 0) + 2 * Pack(bits[1..])
  }

  predicate BitOf(n: nat, i: nat)
    decreases i
  {
    if i == 0 then n % 2 == 1 else BitOf(n / 2, i - 1)
  }

  lemma {:induction false} PackedBit(bits: seq<bool>, i: nat)
    requires i < |bits|
    ensures BitOf(Pack(bits), i) == bits[i]
    decreases i
  {
    if i > 0 { PackedBit(bits[1..], i - 1); }
  }

  predicate Holds(buttons: set<Button>, slot: nat) {
    exists b :: b in buttons && Slot(b) == slot
  }

  /** Bit-field byte j of the record. */
  function ButtonByte(buttons: set<Button>, j: nat): u8 {
    assert Pow2(8) == 256;
    Pack(seq(8, i requires 0 <= i => Holds(buttons, 8 * j + i)))
  }

  predicate Pressed(frame: seq<u8>, b: Button)
    requires |frame| >= BODY_SIZE
  {
    BitOf(frame[6 + Slot(b) / 8], Slot(b) % 8)
  }

  // ---- the record as bytes ----

  function Body(p: Pad): (s: seq<u8>)
    ensures |s| == BODY_SIZE
  {
    [ToU8(p.lx), ToU8(p.ly), ToU8(p.rx), ToU8(p.ry), p.l2, p.r2,
     ButtonByte(p.buttons, 0), ButtonByte(p.buttons, 1), ButtonByte(p.buttons, 2)]
    + p.extra
    + [if p.latest then 1 else 0, if p.connected then 1 else 0, p.battery % 0x100, p.battery / 0x100]
  }

  function Decode(f: Frame): Pad {
    Pad(ToI8(f[0]), ToI8(f[1]), ToI8(f[2]), ToI8(f[3]), f[4], f[5],
        (set b: Button | Pressed(f, b)), f[9..19], f[19] != 0, f[20] != 0, f[21] as int + 0x100 * (f[22] as int))
  }

  /** The byte sum that `c += data[i]` leaves in a uint8_t. */
  function Checksum(bytes: seq<u8>): u8
    decreases bytes
  {
    if bytes == [] then 0 else ToU8(Checksum(bytes[..|bytes| - 1]) + bytes[|bytes| - 1])
  }

  function Sealed(body: seq<u8>): Frame
    requires |body| == BODY_SIZE
  {
    body + [Checksum(body)]
  }

  function Encode(p: Pad): Frame { Sealed(Body(p)) }

  /** The accumulating loop of both boards. */
  method SumBytes(data: array<u8>) returns (c: u8)
    requires data.Length == FRAME_SIZE
    ensures c == Checksum(data[..BODY_SIZE])
  {
    c := 0;
    for i := 0 to BODY_SIZE
      invariant c == Checksum(data[..i])
    {
      assert data[..i + 1][..i] == data[..i];
      c := (c + data[i]) % 0x100;
    }
  }

  /** `set_checksum` of the controller board. */
  method SetChecksum(data: array<u8>)
    requires data.Length == FRAME_SIZE
    modifies data
    ensures data[..] == Sealed(old(data[..BODY_SIZE]))
  {
    data[BODY_SIZE] := 0;
    var c := SumBytes(data);
    assert data[..BODY_SIZE] == old(data[..BODY_SIZE]);
    data[BODY_SIZE] := c;
  }

  // ---- reception ----

  predicate Accepted(f: Frame) { f[BODY_SIZE] == Checksum(f[..BODY_SIZE]) }

  /** What the main board makes of a frame: a damaged one counts as a connected controller with
      everything released, and nothing of a disconnected controller's record is used. */
  function Received(f: Frame): Pad {
    if !Accepted(f) then NeutralPad(true, true)
    else if !Decode(f).connected then NeutralPad(true, false)
    else Decode(f)
  }

  lemma ByteHolds(buttons: set<Button>, k: nat)
    requires k < 24
    ensures BitOf(ButtonByte(buttons, k / 8), k % 8) == Holds(buttons, k)
  {
    var j, i := k / 8, k % 8;
    var bits := seq(8, i requires 0 <= i => Holds(buttons, 8 * j + i));
    PackedBit(bits, i);
    assert bits[i] == Holds(buttons, 8 * j + i) && 8 * j + i == k;
  }

  lemma BodyButtons(p: Pad, j: nat)
    requires j < 3
    ensures Encode(p)[6 + j] == Body(p)[6 + j] == ButtonByte(p.buttons, j)
  {
  }

  lemma SlotInjective(b: Button, c: Button)
    requires Slot(b) == Slot(c)
    ensures b == c
  {
  }

  lemma HoldsSlot(buttons: set<Button>, b: Button)
    ensures Holds(buttons, Slot(b)) <==> b in buttons
  {
    if Holds(buttons, Slot(b)) {
      var c :| c in buttons && Slot(c) == Slot(b);
      SlotInjective(b, c);
    }
  }

  lemma SlotDecodes(p: Pad, k: nat)
    requires k < 24
    ensures BitOf(Encode(p)[6 + k / 8], k % 8) <==> Holds(p.buttons, k)
  {
    BodyButtons(p, k / 8);
    ByteHolds(p.buttons, k);
  }

  lemma ButtonDecodes(p: Pad, b: Button)
    ensures Pressed(Encode(p), b) <==> b in p.buttons
  {
    SlotDecodes(p, Slot(b));
    HoldsSlot(p.buttons, b);
  }

  lemma ButtonsDecode(p: Pad)
    ensures Decode(Encode(p)).buttons == p.buttons
  {
    var decoded := Decode(Encode(p)).buttons;
    forall b | b in decoded ensures b in p.buttons { ButtonDecodes(p, b); }
    forall b | b in p.buttons ensures b in decoded { ButtonDecodes(p, b); }
  }

  lemma AnalogDecodes(p: Pad)
    ensures var q := Decode(Encode(p));
      q.lx == p.lx && q.ly == p.ly && q.rx == p.rx && q.ry == p.ry && q.l2 == p.l2 && q.r2 == p.r2
  {
  }

  lemma RestDecodes(p: Pad)
    ensures var q := Decode(Encode(p));
      q.extra == p.extra && q.latest == p.latest && q.connected == p.connected && q.battery == p.battery
  {
    assert Encode(p)[9..19] == p.extra;
  }

  lemma EncodedAccepted(p: Pad)
    ensures Accepted(Encode(p))
  {
    assert Encode(p)[..BODY_SIZE] == Body(p);
  }

  /** Round trip: a sealed record is accepted and decodes to itself. */
  lemma SealedFrameArrives(p: Pad)
    ensures Accepted(Encode(p)) && Decode(Encode(p)) == p
    ensures p.connected ==> Received(Encode(p)) == p
  {
    EncodedAccepted(p);
    AnalogDecodes(p);
    RestDecodes(p);
    ButtonsDecode(p);
  }

  // ---- the layout, byte by byte ----

  /** A bit of the record: its byte, and its weight in it. */
  datatype Place = Place(byteNo: nat, weight: nat)

  /** Where the header puts each button. */
  function PlaceOf(b: Button): (x: Place)
    ensures 6 <= x.byteNo <= 8 && x.weight > 0
  {
    match b
    case Right => Place(6, 1) case Down => Place(6, 2) case Up => Place(6, 4) case Left => Place(6, 8)
    case Square => Place(6, 16) case Cross => Place(6, 32) case Circle => Place(6, 64) case Triangle => Place(6, 128)
    case UpRight => Place(7, 1) case DownRight => Place(7, 2) case UpLeft => Place(7, 4) case DownLeft => Place(7, 8)
    case L1 => Place(7, 16) case R1 => Place(7, 32) case L2 => Place(7, 64) case R2 => Place(7, 128)
    case Share => Place(8, 1) case Options => Place(8, 2) case L3 => Place(8, 4) case R3 => Place(8, 8)
    case Ps => Place(8, 16) case Touchpad => Place(8, 32)
  }

  lemma DivTwice(n: nat, m: nat)
    requires m > 0
    ensures n / 2 / m == n / (2 * m)
  {
    var q := n / (2 * m);
    assert m * q <= n / 2 < m * q + m;
    QuotientReaches(n / 2, m, q);
    QuotientReaches(n / 2, m, q + 1);
  }

  lemma {:induction false} BitByWeight(n: nat, i: nat)
    ensures BitOf(n, i) <==> n / Pow2(i) % 2 == 1
    decreases i
  {
    if i > 0 {
      BitByWeight(n / 2, i - 1);
      DivTwice(n, Pow2(i - 1));
    }
  }

  lemma SlotIsPlace(b: Button)
    ensures 6 + Slot(b) / 8 == PlaceOf(b).byteNo && Pow2(Slot(b) % 8) == PlaceOf(b).weight
  {
    assert Pow2(3) == 8 && Pow2(4) == 16 && Pow2(7) == 128;
  }

  /** Each button is read from the header's bit for it. */
  lemma ButtonBits(f: Frame, b: Button)
    ensures b in Decode(f).buttons <==> f[PlaceOf(b).byteNo] / PlaceOf(b).weight % 2 == 1
  {
    SlotIsPlace(b);
    BitByWeight(f[6 + Slot(b) / 8], Slot(b) % 8);
  }

  /** The fields around the buttons: six analog bytes, the unread ones, and the link's own. */
  lemma FieldBytes(f: Frame)
    ensures var p := Decode(f);
      && p.lx % 256 == f[0] && p.ly % 256 == f[1] && p.rx % 256 == f[2] && p.ry % 256 == f[3]
      && p.l2 == f[4] && p.r2 == f[5] && p.extra == f[9..19]
      && p.latest == (f[19] != 0) && p.connected == (f[20] != 0) && p.battery == f[21] + 256 * (f[22] as int)
  {
  }

  // ---- damage ----

  function Total(bytes: seq<u8>): nat
    decreases bytes
  {
    if bytes == [] then 0 else Total(bytes[..|bytes| - 1]) + bytes[|bytes| - 1]
  }

  lemma {:induction false} ChecksumIsTotal(bytes: seq<u8>)
    ensures Checksum(bytes) == Total(bytes) % 0x100
    decreases bytes
  {
    if bytes != [] { ChecksumIsTotal(bytes[..|bytes| - 1]); }
  }

  lemma SameResidue(c: u8, t: nat, c0: u8, t0: nat)
    requires c0 == t0 % 0x100
    ensures c == t % 0x100 <==> (c - c0) % 0x100 == (t - t0) % 0x100
  {
  }

  /** A damaged copy of a sealed frame is accepted exactly when the error in its checksum byte
      is the change of its byte sum, modulo 256. */
  lemma DamageAcceptedIff(p: Pad, g: Frame)
    ensures Accepted(g) <==>
      (g[BODY_SIZE] as int - Encode(p)[BODY_SIZE] as int) % 0x100 == (Total(g[..BODY_SIZE]) - Total(Body(p))) % 0x100
  {
    ChecksumIsTotal(g[..BODY_SIZE]);
    ChecksumIsTotal(Body(p));
    SameResidue(g[BODY_SIZE], Total(g[..BODY_SIZE]), Encode(p)[BODY_SIZE], Total(Body(p)));
  }

  lemma {:induction false} TotalUpdate(bytes: seq<u8>, i: nat, v: u8)
    requires i < |bytes|
    ensures Total(bytes[i := v]) == Total(bytes) - bytes[i] + v
    decreases bytes
  {
    var n := |bytes| - 1;
    if i < n {
      assert bytes[i := v][..n] == bytes[..n][i := v];
      TotalUpdate(bytes[..n], i, v);
    } else {
      assert bytes[i := v][..n] == bytes[..n];
    }
  }

  lemma SmallChange(d: int)
    requires -0x100 < d < 0x100
    ensures d % 0x100 == 0 <==> d == 0
  {
  }

  /** A single damaged byte, whichever it is, is always noticed. */
  lemma OneByteNoticed(p: Pad, i: nat, v: u8)
    requires i < FRAME_SIZE
    ensures Accepted(Encode(p)[i := v]) <==> v == Encode(p)[i]
  {
    var f, g := Encode(p), Encode(p)[i := v];
    DamageAcceptedIff(p, g);
    if i < BODY_SIZE {
      TotalUpdate(Body(p), i, v);
      assert g[..BODY_SIZE] == Body(p)[i := v] && f[i] == Body(p)[i];
      SmallChange(v - f[i] as int);
    } else {
      assert g[..BODY_SIZE] == Body(p);
      SmallChange(v - f[i] as int);
    }
  }
}
