/** The route recorder and the state of its replay task (mainboard/main/routerecorder.c). */
module RouteRecorder {
  import opened Common
  import opened Messages

  const SAMPLE_COUNT := 300
  const TICK_MS := 10

  datatype Sample = Sample(deltaMs: u32, throttle: u16, direction: i8, steering: i8)

  const BLANK := Sample(0, 0, 0, 0)

  /** Where the replay task stands: suspended, about to run its loop from the top, or asleep. */
  datatype Pc = Parked | LoopTop | Delaying(ticks: nat)

  datatype RecorderState = RecorderState(
    recording: bool, replaying: bool, lastStamp: u32, routeIndex: nat, route: seq<Sample>,
    cursor: nat, pc: Pc)

  /** The array accesses of the source stay inside the buffer. */
  predicate InBounds(r: RecorderState) {
    |r.route| == SAMPLE_COUNT && r.routeIndex <= SAMPLE_COUNT && r.cursor < SAMPLE_COUNT
  }

  function Initial(): (r: RecorderState)
    ensures InBounds(r)
  {
    RecorderState(false, false, 0, 0, seq(SAMPLE_COUNT, _ => BLANK), 0, Parked)
  }

  type Recorder = r: RecorderState | InBounds(r) witness Initial()

  // ---- the operations ----

  function RecordStart(r: Recorder, now: nat): Recorder {
    if r.recording || r.replaying then r
    else r.(lastStamp := ToU32(now), routeIndex := 0, recording := true)
  }

  function RecordStop(r: Recorder): Recorder {
    r.(recording := false)
  }

  /** Resuming has an effect only on a suspended task. */
  function ReplayStart(r: Recorder): Recorder {
    if r.recording || r.replaying || r.routeIndex == 0 then r
    else r.(replaying := true, pc := if r.pc == Parked then LoopTop else r.pc)
  }

  /** Stopping a replay also posts an end-of-replay message: see ToggleReplayPosts. */
  function ReplayStop(r: Recorder): Recorder {
    r.(replaying := false)
  }

  function ToggleRecord(r: Recorder, now: nat): Recorder {
    if r.recording then RecordStop(r) else RecordStart(r, now)
  }

  function ToggleReplay(r: Recorder): Recorder {
    if r.replaying then ReplayStop(r) else ReplayStart(r)
  }

  predicate ToggleReplayPosts(r: Recorder) { r.replaying }

  predicate Repeats(s: Sample, m: Metrics) {
    s.throttle == m.throttle && s.direction == m.direction && s.steering == m.steering
  }

  /** Milliseconds between two 32-bit microsecond stamps, modulo their wrap-around. */
  function DeltaMs(from: u32, to: u32): u32 {
    ToU32(to - from) / 1000
  }

  function RecordProcess(r: Recorder, m: Metrics, now: nat): Recorder {
    if !r.recording then r
    else if r.routeIndex >= SAMPLE_COUNT then r.(recording := false)
    else if r.routeIndex > 0 && Repeats(r.route[r.routeIndex - 1], m) then r
    else
      var s := Sample(DeltaMs(r.lastStamp, ToU32(now)), m.throttle, m.direction, ToI8(m.steering));
      r.(lastStamp := ToU32(now), route := r.route[r.routeIndex := s], routeIndex := r.routeIndex + 1)
  }

  /** The replay task from the top of its loop to the delay, or back to sleep. */
  function ReplayTop(r: Recorder): Recorder {
    if !r.replaying then r.(cursor := 0, pc := Parked)
    else r.(pc := Delaying(r.route[r.cursor].deltaMs / TICK_MS))
  }

  predicate WakeIssues(r: Recorder) { r.replaying }

  predicate WakeEnds(r: Recorder) { r.replaying && r.cursor + 1 >= r.routeIndex }

  /** The replay task from its delay on: one sample is issued if the replay is still on. */
  function ReplayWake(r: Recorder): Recorder {
    if !WakeIssues(r) then r.(cursor := 0, pc := Parked)
    else if WakeEnds(r) then r.(replaying := false, cursor := 0, pc := Parked)
    else r.(cursor := r.cursor + 1, pc := LoopTop)
  }

  // ---- the recorder's state in place ----

  class RecorderTask {
    var recording: bool
    var replaying: bool
    var lastStamp: u32
    var routeIndex: nat
    const route: array<Sample>
    var cursor: nat
    var pc: Pc

    predicate Valid() reads this {
      route.Length == SAMPLE_COUNT && routeIndex <= SAMPLE_COUNT && cursor < SAMPLE_COUNT
    }

    function State(): Recorder
      requires Valid()
      reads this, route
    {
      RecorderState(recording, replaying, lastStamp, routeIndex, route[..], cursor, pc)
    }

    constructor ()
      ensures Valid() && State() == Initial() && fresh(route)
    {
      recording, replaying, lastStamp, routeIndex, cursor, pc := false, false, 0, 0, 0, Parked;
      route := new Sample[SAMPLE_COUNT](_ => BLANK);
      new;
      assert route[..] == Initial().route;
    }

    method StartRecording(now: nat)
      requires Valid()
      modifies this
      ensures Valid() && State() == RecordStart(old(State()), now)
    {
      if recording || replaying {
        return;
      }
      lastStamp := ToU32(now);
      routeIndex := 0;
      recording := true;
    }

    method StopRecording()
      requires Valid()
      modifies this
      ensures Valid() && State() == RecordStop(old(State()))
    {
      if !recording {
        return;
      }
      recording := false;
    }

    method StartReplay()
      requires Valid()
      modifies this
      ensures Valid() && State() == ReplayStart(old(State()))
    {
      if recording || replaying || routeIndex == 0 {
        return;
      }
      replaying := true;
      if pc == Parked {
        pc := LoopTop;
      }
    }

    method StopReplay(queue: MessageQueue)
      requires Valid()
      modifies this, queue
      ensures Valid() && State() == ReplayStop(old(State()))
      ensures queue.messages == if old(replaying) then Send(old(queue.messages), ReplayEnd) else old(queue.messages)
    {
      if !replaying {
        return;
      }
      queue.Put(ReplayEnd);
      replaying := false;
    }

    method ToggleRecording(now: nat)
      requires Valid()
      modifies this
      ensures Valid() && State() == ToggleRecord(old(State()), now)
    {
      if recording {
        StopRecording();
      } else {
        StartRecording(now);
      }
    }

    method ToggleReplaying(queue: MessageQueue)
      requires Valid()
      modifies this, queue
      ensures Valid() && State() == ToggleReplay(old(State()))
      ensures queue.messages
        == if ToggleReplayPosts(old(State())) then Send(old(queue.messages), ReplayEnd) else old(queue.messages)
    {
      if replaying {
        StopReplay(queue);
      } else {
        StartReplay();
      }
    }

    method Process(m: Metrics, now: nat)
      requires Valid()
      modifies this, route
      ensures Valid() && State() == RecordProcess(old(State()), m, now)
    {
      if !recording {
        return;
      }
      if routeIndex >= SAMPLE_COUNT {
        recording := false;
        return;
      }
      if routeIndex > 0 {
        var last := route[routeIndex - 1];
        if last.throttle == m.throttle && last.direction == m.direction && last.steering == m.steering {
          return;
        }
      }
      var stamp := ToU32(now);
      var delta := ToU32(stamp - lastStamp) / 1000;
      lastStamp := stamp;
      route[routeIndex] := Sample(delta, m.throttle, m.direction, ToI8(m.steering));
      routeIndex := routeIndex + 1;
    }

    /** The replay task at the top of its loop. */
    method Top()
      requires Valid()
      modifies this
      ensures Valid() && State() == ReplayTop(old(State()))
    {
      if !replaying {
        cursor := 0;
        pc := Parked;
        return;
      }
      pc := Delaying(route[cursor].deltaMs / TICK_MS);
    }

    /** The replay task once its delay is over; the caller applies the sample, if there is one. */
    method Wake(queue: MessageQueue) returns (issued: bool, sample: Sample)
      requires Valid()
      modifies this, queue
      ensures Valid() && State() == ReplayWake(old(State()))
      ensures issued == WakeIssues(old(State())) && (issued ==> sample == old(route[cursor]))
      ensures queue.messages == if WakeEnds(old(State())) then Send(old(queue.messages), ReplayEnd) else old(queue.messages)
    {
      issued, sample := replaying, BLANK;
      if !replaying {
        cursor := 0;
        pc := Parked;
        return;
      }
      sample := route[cursor];
      cursor := cursor + 1;
      if cursor >= routeIndex {
        queue.Put(ReplayEnd);
        replaying := false;
        cursor := 0;
        pc := Parked;
      } else {
        pc := LoopTop;
      }
    }
  }

  // ---- recording a stream ----

  /** What a sample makes the rover do. */
  datatype Motion = Motion(throttle: u16, direction: i8, steering: int)

  function MotionOf(m: Metrics): Motion { Motion(m.throttle, m.direction, m.steering) }

  function SampleMotion(s: Sample): Motion { Motion(s.throttle, s.direction, s.steering) }

  function Motions(samples: seq<Sample>): seq<Motion> {
    seq(|samples|, i requires 0 <= i < |samples| => SampleMotion(samples[i]))
  }

  function Recorded(r: Recorder): seq<Motion> {
    Motions(r.route[..r.routeIndex])
  }

  /** One call of `record_process`: the metrics and the true time in microseconds. */
  datatype Offer = Offer(m: Metrics, now: nat)

  predicate Storable(m: Metrics) { -128 <= m.steering < 128 }

  function RecordAll(r: Recorder, offers: seq<Offer>): Recorder
    decreases offers
  {
    if offers == [] then r
    else
      var n := |offers| - 1;
      RecordProcess(RecordAll(r, offers[..n]), offers[n].m, offers[n].now)
  }

  /** The same recording state, wherever the replay task stands. */
  predicate SameTape(r: Recorder, t: Recorder) {
    && r.recording == t.recording && r.replaying == t.replaying && r.lastStamp == t.lastStamp
    && r.routeIndex == t.routeIndex && r.route == t.route
  }

  lemma ProcessSameTape(r: Recorder, t: Recorder, m: Metrics, now: nat)
    requires SameTape(r, t)
    ensures SameTape(RecordProcess(r, m, now), RecordProcess(t, m, now))
  {
  }

  function Offered(offers: seq<Offer>): seq<Motion> {
    seq(|offers|, i requires 0 <= i < |offers| => MotionOf(offers[i].m))
  }

  /** A stream with consecutive duplicates removed. */
  function Dedup(ms: seq<Motion>): seq<Motion>
    decreases ms
  {
    var n := |ms| - 1;
    if ms == [] then []
    else if n > 0 && ms[n - 1] == ms[n] then Dedup(ms[..n])
    else Dedup(ms[..n]) + [ms[n]]
  }

  function Min(a: nat, b: nat): nat { if a <= b then a else b }

  lemma {:induction false} DedupEnds(ms: seq<Motion>)
    requires ms != []
    ensures 0 < |Dedup(ms)| <= |ms| && Dedup(ms)[|Dedup(ms)| - 1] == ms[|ms| - 1]
    decreases ms
  {
    if |ms| > 1 { DedupEnds(ms[..|ms| - 1]); }
  }

  /** Deduplication keeps no two equal neighbours, and its first entries are those of any prefix. */
  lemma {:induction false} DedupDistinct(ms: seq<Motion>, i: nat)
    requires i + 1 < |Dedup(ms)|
    ensures Dedup(ms)[i] != Dedup(ms)[i + 1]
    decreases ms
  {
    var n := |ms| - 1;
    if n > 0 { DedupEnds(ms[..n]); }
    if i + 1 < |Dedup(ms[..n])| { DedupDistinct(ms[..n], i); }
  }

  /** Position i of the stream lies in run number |Dedup(ms[..i + 1])| - 1, which has its value. */
  lemma {:induction false} DedupCovers(ms: seq<Motion>, i: nat)
    requires i < |ms|
    ensures var run := |Dedup(ms[..i + 1])| - 1;
      0 <= run < |Dedup(ms)| && Dedup(ms)[run] == ms[i]
      && (i > 0 ==> run == |Dedup(ms[..i])| - (if ms[i - 1] == ms[i] then 1 else 0))
    decreases ms
  {
    var n := |ms| - 1;
    DedupEnds(ms[..i + 1]);
    assert ms[..i + 1][..i] == ms[..i];
    if i < n {
      DedupCovers(ms[..n], i);
      assert ms[..n][..i + 1] == ms[..i + 1];
    } else {
      assert ms[..i + 1] == ms;
    }
  }

  /** One call appends the motion, unless it repeats the last one, or the buffer is full. */
  lemma ProcessAppends(r: Recorder, m: Metrics, now: nat)
    requires Storable(m)
    ensures var t, known := RecordProcess(r, m, now), Recorded(r);
      && t.replaying == r.replaying && t.cursor == r.cursor && t.pc == r.pc
      && t.recording == (r.recording && r.routeIndex < SAMPLE_COUNT)
      && Recorded(t) == if !t.recording || (known != [] && known[|known| - 1] == MotionOf(m)) then known
                        else known + [MotionOf(m)]
  {
    var t, known := RecordProcess(r, m, now), Recorded(r);
    if known != [] {
      assert known[|known| - 1] == SampleMotion(r.route[r.routeIndex - 1]);
    }
    if t.routeIndex > r.routeIndex {
      assert t.route[..t.routeIndex] == r.route[..r.routeIndex] + [t.route[r.routeIndex]];
      assert Recorded(t) == known + [SampleMotion(t.route[r.routeIndex])];
    }
  }

  lemma DedupGrows(ms: seq<Motion>)
    requires ms != []
    ensures var d, d' := Dedup(ms[..|ms| - 1]), Dedup(ms);
      d' == if d != [] && d[|d| - 1] == ms[|ms| - 1] then d else d + [ms[|ms| - 1]]
  {
    if |ms| > 1 { DedupEnds(ms[..|ms| - 1]); }
  }

  /** The buffer holds the stream ms, deduplicated and cut at the buffer's size; recording
      goes on until a call finds the buffer full. */
  predicate Tracks(t: Recorder, ms: seq<Motion>) {
    var d := Dedup(ms);
    && Recorded(t) == d[..Min(|d|, SAMPLE_COUNT)]
    && t.recording == (ms == [] || |Dedup(ms[..|ms| - 1])| < SAMPLE_COUNT)
  }

  lemma RoomTracks(t: Recorder, ms: seq<Motion>, m: Metrics, now: nat)
    requires Tracks(t, ms) && Storable(m) && |Dedup(ms)| < SAMPLE_COUNT
    ensures Tracks(RecordProcess(t, m, now), ms + [MotionOf(m)])
  {
    var ms', t' := ms + [MotionOf(m)], RecordProcess(t, m, now);
    assert ms'[..|ms|] == ms && |Recorded(t)| == t.routeIndex;
    ProcessAppends(t, m, now);
    DedupGrows(ms');
    if ms != [] { DedupGrows(ms); }
    assert t.recording && Recorded(t) == Dedup(ms) && t'.recording;
    assert Recorded(t') == Dedup(ms');
  }

  lemma FullTracks(t: Recorder, ms: seq<Motion>, m: Metrics, now: nat)
    requires Tracks(t, ms) && |Dedup(ms)| >= SAMPLE_COUNT
    ensures Tracks(RecordProcess(t, m, now), ms + [MotionOf(m)])
  {
    var ms', t' := ms + [MotionOf(m)], RecordProcess(t, m, now);
    assert ms'[..|ms|] == ms && |Recorded(t)| == t.routeIndex == SAMPLE_COUNT;
    DedupGrows(ms');
    assert t' == t.(recording := false);
    assert Recorded(t) == Dedup(ms)[..SAMPLE_COUNT] == Dedup(ms')[..SAMPLE_COUNT];
  }

  lemma ProcessTracks(t: Recorder, ms: seq<Motion>, m: Metrics, now: nat)
    requires Tracks(t, ms) && Storable(m)
    ensures Tracks(RecordProcess(t, m, now), ms + [MotionOf(m)])
  {
    if |Dedup(ms)| < SAMPLE_COUNT {
      RoomTracks(t, ms, m, now);
    } else {
      FullTracks(t, ms, m, now);
    }
  }

  /** What `record_process` leaves in the buffer, for every stream of metrics in range. */
  lemma {:induction false} RouteIsDedup(r: Recorder, offers: seq<Offer>)
    requires r.recording && r.routeIndex == 0
    requires forall i :: 0 <= i < |offers| ==> Storable(offers[i].m)
    ensures Tracks(RecordAll(r, offers), Offered(offers))
    ensures var t := RecordAll(r, offers); t.replaying == r.replaying && t.cursor == r.cursor && t.pc == r.pc
    decreases offers
  {
    if offers == [] {
      assert Offered(offers) == [];
    } else {
      var n := |offers| - 1;
      RouteIsDedup(r, offers[..n]);
      ProcessTracks(RecordAll(r, offers[..n]), Offered(offers[..n]), offers[n].m, offers[n].now);
      assert Offered(offers) == Offered(offers[..n]) + [MotionOf(offers[n].m)];
    }
  }

  // ---- timing ----

  /** TODO in the source, "can this overflow?": the delta is the true number of milliseconds
      exactly when the gap is shorter than the wrap-around of the stamps, about 71 minutes. */
  lemma DeltaExactIffNoWrap(from: nat, to: nat)
    requires from <= to
    ensures DeltaMs(ToU32(from), ToU32(to)) == (to - from) / 1000 <==> to - from < TWO32
  {
    assert (ToU32(to) - ToU32(from)) % TWO32 == (to - from) % TWO32;
    if to - from >= TWO32 {
      assert (to - from) % TWO32 <= to - from - TWO32;
      assert (to - from) / 1000 >= (to - from - TWO32 + 4294967000) / 1000;
    }
  }

  function TotalMs(samples: seq<Sample>): nat
    decreases samples
  {
    if samples == [] then 0
    else TotalMs(samples[..|samples| - 1]) + samples[|samples| - 1].deltaMs
  }

  /** The delays of a replay, in ticks of TICK_MS milliseconds. */
  function TotalTicks(samples: seq<Sample>): nat
    decreases samples
  {
    if samples == [] then 0
    else TotalTicks(samples[..|samples| - 1]) + samples[|samples| - 1].deltaMs / TICK_MS
  }

  /** The last offer was stored as a sample of its own. */
  predicate Stored(r: Recorder, offers: seq<Offer>) {
    offers != [] && RecordAll(r, offers).routeIndex > RecordAll(r, offers[..|offers| - 1]).routeIndex
  }

  /** The true time of the last stored sample, or of the start when there is none. */
  function LastStored(r: Recorder, start: nat, offers: seq<Offer>): nat
    decreases offers
  {
    if offers == [] then start
    else if Stored(r, offers) then offers[|offers| - 1].now
    else LastStored(r, start, offers[..|offers| - 1])
  }

  /** The clock does not run back and no two stored samples are a stamp's wrap-around apart. */
  predicate GapsFit(r: Recorder, start: nat, offers: seq<Offer>)
    decreases offers
  {
    offers != [] ==>
      var init := offers[..|offers| - 1];
      GapsFit(r, start, init)
      && (Stored(r, offers) ==> 0 <= offers[|offers| - 1].now - LastStored(r, start, init) < TWO32)
  }

  lemma TotalsGrow(samples: seq<Sample>, s: Sample)
    ensures TotalMs(samples + [s]) == TotalMs(samples) + s.deltaMs
    ensures TotalTicks(samples + [s]) == TotalTicks(samples) + s.deltaMs / TICK_MS
  {
    assert (samples + [s])[..|samples|] == samples;
  }

  /** Storing one more sample adds exactly one sample, with the true gap in milliseconds. */
  lemma StoredSample(t: Recorder, m: Metrics, from: nat, to: nat)
    requires t.lastStamp == ToU32(from) && 0 <= to - from < TWO32
    ensures var t' := RecordProcess(t, m, to); t'.routeIndex > t.routeIndex ==>
      && t'.routeIndex == t.routeIndex + 1 && t'.lastStamp == ToU32(to)
      && TotalMs(t'.route[..t'.routeIndex]) == TotalMs(t.route[..t.routeIndex]) + (to - from) / 1000
      && TotalTicks(t'.route[..t'.routeIndex]) == TotalTicks(t.route[..t.routeIndex]) + (to - from) / 1000 / TICK_MS
  {
    var t' := RecordProcess(t, m, to);
    DeltaExactIffNoWrap(from, to);
    if t'.routeIndex > t.routeIndex {
      assert t'.route[..t'.routeIndex] == t.route[..t.routeIndex] + [t'.route[t.routeIndex]];
      TotalsGrow(t.route[..t.routeIndex], t'.route[t.routeIndex]);
    }
  }

  lemma NotStored(t: Recorder, m: Metrics, now: nat)
    requires RecordProcess(t, m, now).routeIndex <= t.routeIndex
    ensures RecordProcess(t, m, now) == t.(recording := RecordProcess(t, m, now).recording)
  {
  }

  lemma TickBound(gap: nat)
    ensures 0 <= gap - 1000 * (gap / 1000) <= 999
    ensures 0 <= gap - 10000 * (gap / 1000 / TICK_MS) <= 9999
  {
    assert gap / 1000 / 10 == gap / 10000;
  }

  /** True elapsed time against the stored deltas and the replay's delays: n samples lose less
      than n milliseconds, or n ticks; a discarded duplicate loses nothing. */
  lemma {:induction false} TimingBound(r: Recorder, start: nat, offers: seq<Offer>)
    requires r.recording && r.routeIndex == 0 && r.lastStamp == ToU32(start) && GapsFit(r, start, offers)
    ensures var t, last := RecordAll(r, offers), LastStored(r, start, offers);
      && t.lastStamp == ToU32(last)
      && 0 <= last - start - 1000 * TotalMs(t.route[..t.routeIndex]) <= 999 * t.routeIndex
      && 0 <= last - start - 10000 * TotalTicks(t.route[..t.routeIndex]) <= 9999 * t.routeIndex
    decreases offers
  {
    if offers != [] {
      var init, last := offers[..|offers| - 1], offers[|offers| - 1];
      TimingBound(r, start, init);
      var t, from := RecordAll(r, init), LastStored(r, start, init);
      if Stored(r, offers) {
        StoredSample(t, last.m, from, last.now);
        TickBound(last.now - from);
      } else {
        NotStored(t, last.m, last.now);
      }
    }
  }
}
