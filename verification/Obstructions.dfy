/** The sonar sweep and the bumpers (mainboard/main/obstructions.c). */
module Obstructions {
  import opened Common
  import opened Servo

  const SLOTS := 11
  const MIN_DISTANCE := 20

  /** The servo angle of a slot. */
  function AngleOf(slot: nat): int
    requires slot < SLOTS
  {
    10 * slot - 70
  }

  datatype Event = Detected | Cleared | Collision(rear: bool)

  /** `sent` is everything handed to the main queue so far. */
  datatype SweepState = SweepState(
    distances: seq<int>, index: nat, servoAngle: int, somethingTooClose: bool,
    front: bool, rear: bool, sent: seq<Event>)

  predicate InBounds(s: SweepState) { |s.distances| == SLOTS && s.index < SLOTS }

  function Initial(): (s: SweepState)
    ensures InBounds(s)
  {
    SweepState(seq(SLOTS, _ => 0), 0, 0, false, false, false, [])
  }

  type Sweep = s: SweepState | InBounds(s) witness Initial()

  /** What one pass reads: whether sweeping is on, the sonar's 16-bit reading, the bumpers. */
  datatype Reading = Reading(enabled: bool, sonar: u16, front: bool, rear: bool)

  predicate Near(distance: int) { distance != 0 && distance <= MIN_DISTANCE }

  predicate TooClose(distances: seq<int>) {
    exists i :: 0 <= i < |distances| && Near(distances[i])
  }

  // ---- one pass ----

  function Probe(s: Sweep, sonar: u16): Sweep {
    var d := ToI16(sonar);
    if d == 0 || d == s.distances[s.index] then s
    else
      var distances := s.distances[s.index := d];
      var near := TooClose(distances);
      s.(distances := distances, somethingTooClose := near,
         sent := if near && !s.somethingTooClose then s.sent + [Detected]
                 else if !near && s.somethingTooClose then s.sent + [Cleared]
                 else s.sent)
  }

  function Advance(s: Sweep): Sweep {
    s.(servoAngle := AngleOf(s.index), index := if s.index + 1 >= SLOTS then 0 else s.index + 1)
  }

  function Bumpers(s: Sweep, front: bool, rear: bool): Sweep {
    s.(front := front, rear := rear,
       sent := s.sent + (if rear && !s.rear then [Collision(true)] else [])
                      + (if front && !s.front then [Collision(false)] else []))
  }

  function Pass(s: Sweep, r: Reading): Sweep {
    Bumpers(if r.enabled then Advance(Probe(s, r.sonar)) else s, r.front, r.rear)
  }

  // ---- the task's state in place ----

  class SweepTask {
    const distances: array<int>
    var index: nat
    var servoAngle: int
    var somethingTooClose: bool
    var front: bool
    var rear: bool
    var sent: seq<Event>
    var pulse: u32

    predicate Valid() reads this { distances.Length == SLOTS && index < SLOTS }

    function State(): Sweep
      requires Valid()
      reads this, distances
    {
      SweepState(distances[..], index, servoAngle, somethingTooClose, front, rear, sent)
    }

    constructor ()
      ensures Valid() && State() == Initial() && fresh(distances)
    {
      distances := new int[SLOTS](_ => 0);
      index, servoAngle, somethingTooClose, front, rear, sent := 0, 0, false, false, false, [];
      pulse := AngleToCompare(0);
      new;
      assert distances[..] == Initial().distances;
    }

    /** `obstruction_is_too_close`: a scan that stops at the first near distance. */
    method ObstructionIsTooClose() returns (near: bool)
      requires Valid()
      ensures near == TooClose(distances[..])
    {
      for i := 0 to SLOTS
        invariant forall k :: 0 <= k < i ==> !Near(distances[k])
      {
        if distances[i] == 0 {
          continue;
        }
        if distances[i] <= MIN_DISTANCE {
          assert Near(distances[..][i]);
          return true;
        }
      }
      return false;
    }

    method ProbeSlot(sonar: u16)
      requires Valid()
      modifies this, distances
      ensures Valid() && State() == Probe(old(State()), sonar)
      ensures pulse == AngleToCompare(old(servoAngle))
    {
      pulse := AngleToCompare(servoAngle);
      var distance := ToI16(sonar);
      if distance != 0 && distance != distances[index] {
        distances[index] := distance;
        assert distances[..] == old(distances[..])[index := distance];
        var tooClose := ObstructionIsTooClose();
        if tooClose && !somethingTooClose {
          sent := sent + [Detected];
        } else if !tooClose && somethingTooClose {
          sent := sent + [Cleared];
        }
        somethingTooClose := tooClose;
      }
    }

    method AdvanceSlot()
      requires Valid()
      modifies this
      ensures Valid() && State() == Advance(old(State())) && pulse == old(pulse)
    {
      servoAngle := AngleOf(index);
      index := index + 1;
      if index >= SLOTS {
        index := 0;
      }
    }

    method CheckBumpers(frontLevel: bool, rearLevel: bool)
      requires Valid()
      modifies this
      ensures Valid() && State() == Bumpers(old(State()), frontLevel, rearLevel) && pulse == old(pulse)
    {
      if rearLevel {
        if !rear {
          sent := sent + [Collision(true)];
        }
        rear := true;
      } else {
        rear := false;
      }
      if frontLevel {
        if !front {
          sent := sent + [Collision(false)];
        }
        front := true;
      } else {
        front := false;
      }
    }

    /** One pass of the task's loop; while sweeping it probes at the angle left by the last one. */
    method Check(r: Reading)
      requires Valid()
      modifies this, distances
      ensures Valid() && State() == Pass(old(State()), r)
      ensures pulse == if r.enabled then AngleToCompare(old(servoAngle)) else old(pulse)
    {
      if r.enabled {
        ProbeSlot(r.sonar);
        AdvanceSlot();
      }
      CheckBumpers(r.front, r.rear);
    }
  }

  // ---- the flag, and the messages about it ----

  /** The messages about obstructions among those sent. */
  function About(sent: seq<Event>): seq<Event>
    decreases sent
  {
    if sent == [] then []
    else
      var n := |sent| - 1;
      About(sent[..n]) + if sent[n].Collision? then [] else [sent[n]]
  }

  /** DETECTED and CLEARED in turn, DETECTED first. */
  predicate Alternates(events: seq<Event>) {
    forall i :: 0 <= i < |events| ==> events[i] == if i % 2 == 0 then Detected else Cleared
  }

  predicate Good(s: Sweep) {
    && s.somethingTooClose == TooClose(s.distances)
    && Alternates(About(s.sent))
    && (s.somethingTooClose <==> |About(s.sent)| % 2 == 1)
  }

  lemma AboutGrows(sent: seq<Event>, e: Event)
    ensures About(sent + [e]) == About(sent) + if e.Collision? then [] else [e]
  {
    assert (sent + [e])[..|sent|] == sent;
  }

  lemma ProbeGood(s: Sweep, sonar: u16)
    requires Good(s)
    ensures Good(Probe(s, sonar))
  {
    AboutGrows(s.sent, Detected);
    AboutGrows(s.sent, Cleared);
  }

  lemma BumpersGood(s: Sweep, front: bool, rear: bool)
    requires Good(s)
    ensures Good(Bumpers(s, front, rear))
  {
    var t := if rear && !s.rear then s.sent + [Collision(true)] else s.sent;
    AboutGrows(s.sent, Collision(true));
    AboutGrows(t, Collision(false));
    assert Bumpers(s, front, rear).sent == if front && !s.front then t + [Collision(false)] else t;
  }

  function Run(s: Sweep, readings: seq<Reading>): Sweep
    decreases readings
  {
    if readings == [] then s else Pass(Run(s, readings[..|readings| - 1]), readings[|readings| - 1])
  }

  /** Over every sequence of readings the flag is what a full scan of the distances finds, and
      DETECTED and CLEARED alternate, DETECTED first, the last one saying what the flag says. */
  lemma {:induction false} FlagIsScan(readings: seq<Reading>)
    ensures Good(Run(Initial(), readings))
    decreases readings
  {
    if readings == [] {
      assert Alternates(About([]));
    } else {
      var n := |readings| - 1;
      FlagIsScan(readings[..n]);
      var s, r := Run(Initial(), readings[..n]), readings[n];
      ProbeGood(s, r.sonar);
      BumpersGood(Advance(Probe(s, r.sonar)), r.front, r.rear);
      BumpersGood(s, r.front, r.rear);
    }
  }

  // ---- collisions ----

  function Count(sent: seq<Event>, e: Event): nat
    decreases sent
  {
    if sent == [] then 0
    else Count(sent[..|sent| - 1], e) + if sent[|sent| - 1] == e then 1 else 0
  }

  /** The number of times a bumper went from released to pressed. */
  function Hits(levels: seq<bool>): nat
    decreases levels
  {
    if levels == [] then 0
    else
      var n := |levels| - 1;
      Hits(levels[..n]) + if levels[n] && !(n > 0 && levels[n - 1]) then 1 else 0
  }

  function RearLevels(readings: seq<Reading>): seq<bool> {
    seq(|readings|, i requires 0 <= i < |readings| => readings[i].rear)
  }

  function FrontLevels(readings: seq<Reading>): seq<bool> {
    seq(|readings|, i requires 0 <= i < |readings| => readings[i].front)
  }

  lemma CountGrows(sent: seq<Event>, x: Event, e: Event)
    ensures Count(sent + [x], e) == Count(sent, e) + if x == e then 1 else 0
  {
    assert (sent + [x])[..|sent|] == sent;
  }

  lemma ProbeCounts(s: Sweep, sonar: u16, rear: bool)
    ensures Count(Probe(s, sonar).sent, Collision(rear)) == Count(s.sent, Collision(rear))
  {
    CountGrows(s.sent, Detected, Collision(rear));
    CountGrows(s.sent, Cleared, Collision(rear));
  }

  lemma BumpersCount(s: Sweep, front: bool, rear: bool)
    ensures var t := Bumpers(s, front, rear);
      && Count(t.sent, Collision(true)) == Count(s.sent, Collision(true)) + (if rear && !s.rear then 1 else 0)
      && Count(t.sent, Collision(false)) == Count(s.sent, Collision(false)) + if front && !s.front then 1 else 0
  {
    var u := if rear && !s.rear then s.sent + [Collision(true)] else s.sent;
    CountGrows(s.sent, Collision(true), Collision(true));
    CountGrows(s.sent, Collision(true), Collision(false));
    CountGrows(u, Collision(false), Collision(true));
    CountGrows(u, Collision(false), Collision(false));
    assert Bumpers(s, front, rear).sent == if front && !s.front then u + [Collision(false)] else u;
  }

  lemma PassCounts(s: Sweep, r: Reading)
    ensures var t := Pass(s, r);
      && t.rear == r.rear && t.front == r.front
      && Count(t.sent, Collision(true)) == Count(s.sent, Collision(true)) + (if r.rear && !s.rear then 1 else 0)
      && Count(t.sent, Collision(false)) == Count(s.sent, Collision(false)) + if r.front && !s.front then 1 else 0
  {
    ProbeCounts(s, r.sonar, true);
    ProbeCounts(s, r.sonar, false);
    BumpersCount(if r.enabled then Advance(Probe(s, r.sonar)) else s, r.front, r.rear);
  }

  /** Every press of a bumper is reported once, however long it lasts. */
  lemma {:induction false} CollisionsReported(readings: seq<Reading>)
    ensures var s := Run(Initial(), readings);
      && Count(s.sent, Collision(true)) == Hits(RearLevels(readings))
      && Count(s.sent, Collision(false)) == Hits(FrontLevels(readings))
      && (readings != [] ==> s.rear == readings[|readings| - 1].rear && s.front == readings[|readings| - 1].front)
      && (readings == [] ==> !s.rear && !s.front)
    decreases readings
  {
    if readings != [] {
      var n := |readings| - 1;
      CollisionsReported(readings[..n]);
      PassCounts(Run(Initial(), readings[..n]), readings[n]);
      assert RearLevels(readings)[..n] == RearLevels(readings[..n]);
      assert FrontLevels(readings)[..n] == FrontLevels(readings[..n]);
    }
  }

  // ---- the sweep ----

  predicate AllEnabled(readings: seq<Reading>) {
    forall i :: 0 <= i < |readings| ==> readings[i].enabled
  }

  /** The slot i passes after the one at start. */
  function SlotAfter(start: nat, i: nat): (slot: nat)
    ensures slot < SLOTS
  {
    (start + i) % SLOTS
  }

  /** What an enabled pass with this reading leaves in a slot that held d. */
  function Stored(d: int, sonar: u16): int { if sonar == 0 then d else ToI16(sonar) }

  /** t is what n consecutive enabled passes with these readings have made of s. */
  predicate Swept(s: Sweep, readings: seq<Reading>, t: Sweep) {
    var n := |readings|;
    && t.index == SlotAfter(s.index, n)
    && (n > 0 ==> t.servoAngle == AngleOf(SlotAfter(s.index, n - 1)))
    && (forall i :: 0 <= i < n && i < SLOTS ==>
          t.distances[SlotAfter(s.index, i)] == Stored(s.distances[SlotAfter(s.index, i)], readings[i].sonar))
    && (forall i :: n <= i < SLOTS ==> t.distances[SlotAfter(s.index, i)] == s.distances[SlotAfter(s.index, i)])
  }

  lemma SlotsDiffer(start: nat, i: nat, j: nat)
    requires i < j < i + SLOTS
    ensures SlotAfter(start, i) != SlotAfter(start, j)
  {
  }

  lemma NextSlot(start: nat, i: nat)
    ensures SlotAfter(SlotAfter(start, i), 1) == SlotAfter(start, i + 1)
  {
  }

  lemma ProbeStores(s: Sweep, r: Reading)
    requires r.enabled
    ensures var t := Pass(s, r);
      && t.distances == s.distances[s.index := Stored(s.distances[s.index], r.sonar)]
      && t.index == SlotAfter(s.index, 1) && t.servoAngle == AngleOf(s.index)
  {
  }

  lemma SweptGrows(s: Sweep, readings: seq<Reading>, t: Sweep, r: Reading, t': Sweep)
    requires Swept(s, readings, t) && |readings| < SLOTS
    requires t'.distances == t.distances[t.index := Stored(t.distances[t.index], r.sonar)]
    requires t'.index == SlotAfter(t.index, 1) && t'.servoAngle == AngleOf(t.index)
    ensures Swept(s, readings + [r], t')
  {
    var n := |readings|;
    NextSlot(s.index, n);
    forall i | 0 <= i < SLOTS && i != n ensures SlotAfter(s.index, i) != SlotAfter(s.index, n) {
      if i < n { SlotsDiffer(s.index, i, n); } else { SlotsDiffer(s.index, n, i); }
    }
  }

  /** Consecutive enabled passes probe consecutive slots, each after the first at the angle of the
      slot before; up to 11 of them store each reading, unless it is 0, in a slot of its own. */
  lemma {:induction false} SweepVisits(s: Sweep, readings: seq<Reading>)
    requires AllEnabled(readings) && |readings| <= SLOTS
    ensures Swept(s, readings, Run(s, readings))
    decreases readings
  {
    if readings != [] {
      var n := |readings| - 1;
      SweepVisits(s, readings[..n]);
      var t := Run(s, readings[..n]);
      ProbeStores(t, readings[n]);
      SweptGrows(s, readings[..n], t, readings[n], Pass(t, readings[n]));
      assert readings == readings[..n] + [readings[n]];
    }
  }

  lemma SlotVisited(start: nat, slot: nat) returns (i: nat)
    requires start < SLOTS && slot < SLOTS
    ensures i < SLOTS && SlotAfter(start, i) == slot
    ensures forall j :: 0 <= j < SLOTS && SlotAfter(start, j) == slot ==> j == i
  {
    i := if slot < start then slot + SLOTS - start else slot - start;
    forall j | 0 <= j < SLOTS && j != i ensures SlotAfter(start, j) != SlotAfter(start, i) {
      if j < i { SlotsDiffer(start, j, i); } else { SlotsDiffer(start, i, j); }
    }
  }

  function SlotBefore(slot: nat): (before: nat)
    ensures before < SLOTS
  {
    SlotAfter(slot, SLOTS - 1)
  }

  lemma BeforeAfter(start: nat, i: nat)
    ensures i > 0 ==> SlotBefore(SlotAfter(start, i)) == SlotAfter(start, i - 1)
  {
  }

  /** The servo stands at the angle of the slot before the one to be probed. */
  predicate AngleLags(s: Sweep) { s.servoAngle == AngleOf(SlotBefore(s.index)) }

  /** So it does after every enabled pass, and a pass without sweeping leaves it there. */
  lemma PassLags(s: Sweep, r: Reading)
    requires r.enabled || AngleLags(s)
    ensures AngleLags(Pass(s, r))
  {
    if r.enabled {
      ProbeStores(s, r);
      BeforeAfter(s.index, 1);
    }
  }

  lemma ProbedAt(s: Sweep, readings: seq<Reading>, i: nat)
    requires AllEnabled(readings) && i <= |readings| <= SLOTS
    ensures Run(s, readings[..i]).index == SlotAfter(s.index, i)
    ensures i > 0 || AngleLags(s) ==> AngleLags(Run(s, readings[..i]))
  {
    SweepVisits(s, readings[..i]);
    BeforeAfter(s.index, i);
  }

  /** A full sweep: of 11 consecutive enabled passes exactly one, pass i, probes a given slot; it
      does so at the angle of the slot before (the first pass, if the one before it was enabled),
      and the slot holds its reading at the end, unless that is 0. */
  lemma FullSweep(s: Sweep, readings: seq<Reading>, slot: nat) returns (i: nat)
    requires AllEnabled(readings) && |readings| == SLOTS && slot < SLOTS
    ensures i < SLOTS && Run(s, readings[..i]).index == slot
    ensures forall j :: 0 <= j < SLOTS && j != i ==> Run(s, readings[..j]).index != slot
    ensures i > 0 || AngleLags(s) ==> Run(s, readings[..i]).servoAngle == AngleOf(SlotBefore(slot))
    ensures Run(s, readings).distances[slot] == Stored(s.distances[slot], readings[i].sonar)
  {
    i := SlotVisited(s.index, slot);
    SweepVisits(s, readings);
    ProbedAt(s, readings, i);
    forall j | 0 <= j < SLOTS && j != i ensures Run(s, readings[..j]).index != slot {
      ProbedAt(s, readings, j);
    }
  }

  /** The angles of the sweep, in the order of the slots. */
  lemma AnglesAre(slot: nat)
    requires slot < SLOTS
    ensures AngleOf(slot) == [-70, -60, -50, -40, -30, -20, -10, 0, 10, 20, 30][slot]
  {
  }

  /** All the angles of the sweep are safe for the servo. */
  lemma AnglesSafe(slot: nat)
    requires slot < SLOTS
    ensures SafePulse(AngleToCompare(AngleOf(slot)))
  {
    PulseIsSafe(AngleOf(slot));
  }

  /** The comment in the source takes a timeout, 0xFFFF, for far away. Read into a signed 16-bit
      variable, it and all readings from 0x8000 on count as near. */
  lemma ReadingNearIff(sonar: u16)
    ensures Near(ToI16(sonar)) <==> (0 < sonar <= 20 || 0x8000 <= sonar)
    ensures (Near(ToI16(sonar)) <==> 0 < sonar <= 20) <==> sonar < 0x8000
  {
  }

  /** A single timeout in an otherwise empty field raises the alarm. */
  lemma TimeoutDetected(r: Reading)
    requires r.enabled && r.sonar == 0xFFFF
    ensures var s := Pass(Initial(), r); s.somethingTooClose && Detected in s.sent
  {
    var s := Probe(Initial(), r.sonar);
    assert Near(s.distances[0]);
    assert s.sent == [Detected];
    assert Pass(Initial(), r).sent[0] == Detected;
  }
}
