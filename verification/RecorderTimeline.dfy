/** The batch definition of the MP4 timeline: what the muxer should be told about a whole history of
    offered samples, without any of the recorder's running state. */
module RecorderTimeline {
  import opened Wrappers

  const U64: nat := 0x1_0000_0000_0000_0000
  const MAX_UINT32: nat := 0xFFFF_FFFF
  const MAX_INT: nat := 0x7FFF_FFFF
  const FALLBACK_TICKS: nat := 3000

  /** Nanoseconds in a 64-bit word; the largest word means "no time". */
  type ClockTime = t: nat | t < U64
  const NO_TIME: ClockTime := U64 - 1

  /** What the muxer answers when a buffer is written: stored, refused because no parameter sets and key
      frame have been seen yet, or a fatal error. */
  datatype Verdict = Accepted | NotReady | Fatal

  /** A media buffer together with everything the outside world will answer about it. */
  datatype Buffer = Buffer(id: nat, size: nat, mappable: bool, verdict: Verdict)

  datatype Stamps = Stamps(pts: ClockTime, dts: ClockTime, duration: ClockTime)

  datatype Payload =
    | Empty                                              // no buffer, and no bytes either
    | Shared(shared: Buffer)                             // the caller's buffer, to be referenced
    | Copied(copy: Buffer, obtained: bool, filled: bool) // bytes, to be copied into a new buffer

  datatype Fraction = Fraction(n: int, d: int)

  /** One call of video_recorder_handle_sample.  stamps are those of the buffer that carries the times. */
  datatype Offer = Offer(stamps: Option<Stamps>, payload: Payload, framerate: Option<Fraction>, writerStarts: bool)

  /** One event in the recorder's life: a sample with something in it, or a flush. */
  datatype Entry = Sample(offer: Offer) | Flush

  /** One call of the muxer's write function. */
  datatype Write = Write(buffer: Buffer, ticks: nat)

  // ---------- one sample ----------

  function PtsOf(o: Offer): ClockTime {
    match o.stamps
    case None => NO_TIME
    case Some(s) => if s.pts != NO_TIME then s.pts else s.dts
  }

  function DurationOf(o: Offer): ClockTime {
    match o.stamps
    case None => NO_TIME
    case Some(s) => s.duration
  }

  predicate Keeps(p: Payload) {
    p.Shared? || (p.Copied? && p.obtained && p.filled)
  }

  function BufferOf(p: Payload): Buffer
    requires Keeps(p)
  {
    if p.Shared? then p.shared else p.copy
  }

  predicate Writable(b: Buffer) {
    0 < b.size <= MAX_INT && b.mappable
  }

  /** Nanoseconds to 90 kHz ticks, rounding down. */
  function To90k(t: ClockTime): nat {
    if t == NO_TIME then 0 else t * 90000 / 1_000_000_000
  }

  /** 90 kHz ticks to nanoseconds, rounding down and saturating at 64 bits. */
  function ToNanoseconds(ticks: nat): nat {
    var ns := ticks * 1_000_000_000 / 90000;
    if ns < U64 then ns else U64 - 1
  }

  /** Nominal frame length taken from the caps' frame rate. */
  function NominalTicks(framerate: Option<Fraction>): nat {
    match framerate
    case None => FALLBACK_TICKS
    case Some(f) =>
      if f.n <= 0 || f.d <= 0 then FALLBACK_TICKS
      else if 90000 * f.d / f.n == 0 then FALLBACK_TICKS
      else 90000 * f.d / f.n
  }

  /** The sample's own length: its stated duration, else the distance to the next time stamp, else 0. */
  function OwnTicks(pts: ClockTime, duration: ClockTime, next: ClockTime): nat {
    if duration != NO_TIME then To90k(duration)
    else if pts != NO_TIME && next != NO_TIME && next > pts then To90k(next - pts)
    else 0
  }

  /** A length of 0 is replaced by the previous length, else by the nominal one. */
  function Ticks(own: nat, last: nat, nominal: nat): nat {
    if own != 0 then own else if last != 0 then last else if nominal != 0 then nominal else FALLBACK_TICKS
  }

  function Clamp(ticks: nat): nat {
    if ticks > MAX_UINT32 then MAX_UINT32 else ticks
  }

  // ---------- a whole history ----------

  predicate Stores(e: Entry) { e.Sample? && Keeps(e.offer.payload) }

  function EntryPts(e: Entry): ClockTime {
    if e.Sample? then PtsOf(e.offer) else NO_TIME
  }

  function NextPts(h: seq<Entry>, i: nat): ClockTime {
    if i + 1 < |h| then EntryPts(h[i + 1]) else NO_TIME
  }

  /** The length (before clamping) given to the latest stored sample among the first k entries. */
  function LastTicks(h: seq<Entry>, k: nat, nominal: nat): nat
    requires k <= |h|
  {
    if k == 0 then 0
    else if Stores(h[k - 1]) then
      var o := h[k - 1].offer;
      Ticks(OwnTicks(PtsOf(o), DurationOf(o), NextPts(h, k - 1)), LastTicks(h, k - 1, nominal), nominal)
    else LastTicks(h, k - 1, nominal)
  }

  /** The writes owed to the first k entries, if nothing goes wrong: one per stored, writable sample. */
  function Writes(h: seq<Entry>, k: nat, nominal: nat): seq<Write>
    requires k <= |h|
  {
    if k == 0 then []
    else
      Writes(h, k - 1, nominal) +
      (if Stores(h[k - 1]) && Writable(BufferOf(h[k - 1].offer.payload))
       then [Write(BufferOf(h[k - 1].offer.payload), Clamp(LastTicks(h, k, nominal)))]
       else [])
  }

  /** The first sample among the first k entries. */
  function FirstSampleIn(h: seq<Entry>, k: nat): Option<Offer>
    requires k <= |h|
  {
    if k == 0 then None
    else
      var before := FirstSampleIn(h, k - 1);
      if before.Some? then before
      else if h[k - 1].Sample? then Some(h[k - 1].offer)
      else None
  }

  /** The first sample starts the writer: it fixes the nominal length and may fail. */
  function FirstSample(h: seq<Entry>): Option<Offer> { FirstSampleIn(h, |h|) }

  predicate HasSample(h: seq<Entry>) { FirstSample(h).Some? }

  function Nominal(h: seq<Entry>): nat {
    match FirstSample(h)
    case None => FALLBACK_TICKS
    case Some(o) => NominalTicks(o.framerate)
  }

  predicate StartFails(h: seq<Entry>) {
    FirstSample(h).Some? && !FirstSample(h).value.writerStarts
  }

  predicate EndsFatal(w: seq<Write>) {
    w != [] && w[|w| - 1].buffer.verdict.Fatal?
  }

  /** The writes actually made for the first k entries by a writer that did start: none after a fatal one. */
  function Made(h: seq<Entry>, k: nat, nominal: nat): seq<Write>
    requires k <= |h|
  {
    if k == 0 then []
    else
      var before := Made(h, k - 1, nominal);
      if EndsFatal(before) || !Stores(h[k - 1]) || !Writable(BufferOf(h[k - 1].offer.payload)) then before
      else before + [Write(BufferOf(h[k - 1].offer.payload), Clamp(LastTicks(h, k, nominal)))]
  }

  /** How many entries are already settled while the stream is open: a stored last sample is not. */
  function Settled(h: seq<Entry>): nat {
    if h != [] && Stores(h[|h| - 1]) then |h| - 1 else |h|
  }

  /** What the muxer has been told when the first k entries are settled. */
  function Told(h: seq<Entry>, k: nat): seq<Write>
    requires k <= |h|
  {
    if StartFails(h) then [] else Made(h, k, Nominal(h))
  }

  /** The batch definition: the whole history settled. */
  function Batch(h: seq<Entry>): seq<Write> { Told(h, |h|) }

  /** The ticks of the accepted writes among the first n, and their number. */
  function AcceptedIn(w: seq<Write>, n: nat): nat
    requires n <= |w|
  {
    if n == 0 then 0 else AcceptedIn(w, n - 1) + (if w[n - 1].buffer.verdict.Accepted? then w[n - 1].ticks else 0)
  }

  function AcceptedCountIn(w: seq<Write>, n: nat): nat
    requires n <= |w|
  {
    if n == 0 then 0 else AcceptedCountIn(w, n - 1) + (if w[n - 1].buffer.verdict.Accepted? then 1 else 0)
  }

  function AcceptedTicks(w: seq<Write>): nat { AcceptedIn(w, |w|) }

  function AcceptedCount(w: seq<Write>): nat { AcceptedCountIn(w, |w|) }

  /** The buffers of a history that can be written at all, in arrival order. */
  function WritableBuffers(h: seq<Entry>): seq<Buffer> {
    if h == [] then []
    else
      WritableBuffers(h[..|h| - 1]) +
      (if Stores(h[|h| - 1]) && Writable(BufferOf(h[|h| - 1].offer.payload))
       then [BufferOf(h[|h| - 1].offer.payload)] else [])
  }

  function Buffers(w: seq<Write>): seq<Buffer> {
    if w == [] then [] else Buffers(w[..|w| - 1]) + [w[|w| - 1].buffer]
  }

  // ---------- growing a history ----------

  lemma {:induction false} FirstSampleStable(h: seq<Entry>, e: Entry, k: nat)
    requires k <= |h|
    ensures FirstSampleIn(h + [e], k) == FirstSampleIn(h, k)
  {
    if k > 0 {
      FirstSampleStable(h, e, k - 1);
    }
  }

  lemma FirstSampleAppend(h: seq<Entry>, e: Entry)
    ensures FirstSample(h + [e]) ==
            if FirstSample(h).Some? then FirstSample(h) else if e.Sample? then Some(e.offer) else None
  {
    FirstSampleStable(h, e, |h|);
  }

  /** A new entry never changes the lengths of settled samples. */
  lemma {:induction false} SettledIsStable(h: seq<Entry>, e: Entry, k: nat, nominal: nat)
    requires k <= Settled(h)
    ensures LastTicks(h + [e], k, nominal) == LastTicks(h, k, nominal)
    ensures Made(h + [e], k, nominal) == Made(h, k, nominal)
  {
    if k > 0 {
      SettledIsStable(h, e, k - 1, nominal);
      assert (h + [e])[k - 1] == h[k - 1];
      if Stores(h[k - 1]) {
        assert k < |h|;
        assert (h + [e])[k] == h[k];
      }
    }
  }

  lemma {:induction false} NothingBeforeFirstSample(h: seq<Entry>, k: nat, nominal: nat)
    requires k <= |h| && FirstSampleIn(h, k).None?
    ensures LastTicks(h, k, nominal) == 0 && Made(h, k, nominal) == []
    ensures forall i :: 0 <= i < k ==> h[i].Flush?
  {
    if k > 0 {
      NothingBeforeFirstSample(h, k - 1, nominal);
    }
  }

  lemma {:induction false} AcceptedStable(w: seq<Write>, x: Write, n: nat)
    requires n <= |w|
    ensures AcceptedIn(w + [x], n) == AcceptedIn(w, n)
  {
    if n > 0 {
      AcceptedStable(w, x, n - 1);
    }
  }

  lemma AcceptedSnoc(w: seq<Write>, x: Write)
    ensures AcceptedTicks(w + [x]) == AcceptedTicks(w) + (if x.buffer.verdict.Accepted? then x.ticks else 0)
  {
    AcceptedStable(w, x, |w|);
  }

  /** One more settled entry adds at most one write, and none after a fatal one. */
  lemma ToldNext(h: seq<Entry>, k: nat)
    requires k < |h|
    ensures Told(h, k + 1) ==
            if StartFails(h) || EndsFatal(Told(h, k)) || !Stores(h[k]) || !Writable(BufferOf(h[k].offer.payload))
            then Told(h, k)
            else Told(h, k) + [Write(BufferOf(h[k].offer.payload), Clamp(LastTicks(h, k + 1, Nominal(h))))]
  {
  }

  /** A new entry leaves what was told about settled entries as it was. */
  lemma ToldIsStable(h: seq<Entry>, e: Entry)
    requires HasSample(h) || !e.Sample? || e.offer.writerStarts
    ensures Told(h + [e], Settled(h)) == Told(h, Settled(h))
    ensures HasSample(h) ==> Nominal(h + [e]) == Nominal(h) && (StartFails(h + [e]) <==> StartFails(h))
  {
    FirstSampleAppend(h, e);
    SettledIsStable(h, e, Settled(h), Nominal(h));
    if !HasSample(h) {
      SettledIsStable(h, e, Settled(h), Nominal(h + [e]));
      NothingBeforeFirstSample(h, Settled(h), Nominal(h));
      NothingBeforeFirstSample(h, Settled(h), Nominal(h + [e]));
    }
  }

  /** The length of the unsettled last sample of h, once e arrives behind it. */
  function Owed(h: seq<Entry>, e: Entry): nat
    requires Settled(h) < |h|
  {
    var o := h[|h| - 1].offer;
    Ticks(OwnTicks(PtsOf(o), DurationOf(o), EntryPts(e)), LastTicks(h, Settled(h), Nominal(h)), Nominal(h))
  }

  /** What arrives settles the sample before it, and nothing else. */
  lemma SettleOne(h: seq<Entry>, e: Entry)
    requires HasSample(h) || !e.Sample?
    ensures var told := Told(h, Settled(h));
            Told(h + [e], |h|) ==
            if Settled(h) == |h| || StartFails(h) || EndsFatal(told) || !Writable(BufferOf(h[|h| - 1].offer.payload))
            then told
            else told + [Write(BufferOf(h[|h| - 1].offer.payload), Clamp(Owed(h, e)))]
    ensures LastTicks(h + [e], |h|, Nominal(h)) ==
            if Settled(h) == |h| then LastTicks(h, |h|, Nominal(h)) else Owed(h, e)
    ensures Settled(h) < |h| ==> HasSample(h)
  {
    var g := h + [e];
    ToldIsStable(h, e);
    FirstSampleAppend(h, e);
    SettledIsStable(h, e, Settled(h), Nominal(h));
    if Settled(h) < |h| {
      assert g[|h| - 1] == h[|h| - 1] && g[|h|] == e;
      assert NextPts(g, |h| - 1) == EntryPts(e);
      if !HasSample(h) {
        NothingBeforeFirstSample(h, |h|, Nominal(h));
      }
      ToldNext(g, |h| - 1);
    }
  }

  /** Before any sample the muxer has been told nothing; the first one fixes nominal length and fate. */
  lemma FirstSampleStarts(h: seq<Entry>, o: Offer)
    requires !HasSample(h)
    ensures var g := h + [Sample(o)];
            && Nominal(g) == NominalTicks(o.framerate)
            && (StartFails(g) <==> !o.writerStarts)
            && Told(h, Settled(h)) == Told(g, |h|) == []
            && LastTicks(h, |h|, Nominal(h)) == LastTicks(g, |h|, Nominal(g)) == 0
            && Settled(h) == |h|
  {
    var g := h + [Sample(o)];
    FirstSampleAppend(h, Sample(o));
    SettledIsStable(h, Sample(o), |h|, Nominal(g));
    NothingBeforeFirstSample(h, |h|, Nominal(g));
    NothingBeforeFirstSample(h, |h|, Nominal(h));
  }

  /** A last entry that is not stored is settled at once; a stored one is not settled. */
  lemma LastEntry(h: seq<Entry>, e: Entry)
    ensures Settled(h + [e]) == if Stores(e) then |h| else |h| + 1
    ensures Told(h + [e], Settled(h + [e])) == Told(h + [e], |h|)
    ensures LastTicks(h + [e], Settled(h + [e]), Nominal(h + [e])) == LastTicks(h + [e], |h|, Nominal(h + [e]))
  {
    var g := h + [e];
    assert g[|h|] == e;
    if !Stores(e) {
      assert Settled(g) == |h| + 1;
      ToldNext(g, |h|);
    } else {
      assert Settled(g) == |h|;
    }
  }

  /** Once the writer could not start, or a write was fatal, nothing that arrives changes anything. */
  lemma IgnoredAfterFailure(h: seq<Entry>, e: Entry)
    requires StartFails(h) || EndsFatal(Told(h, Settled(h)))
    ensures HasSample(h) && HasSample(h + [e]) && Nominal(h + [e]) == Nominal(h)
    ensures StartFails(h + [e]) <==> StartFails(h)
    ensures Told(h + [e], Settled(h + [e])) == Batch(h) == Told(h, Settled(h))
  {
    FirstSampleAppend(h, e);
    if !HasSample(h) {
      NothingBeforeFirstSample(h, Settled(h), Nominal(h));
    }
    SettleOne(h, e);
    LastEntry(h, e);
    if Settled(h) < |h| {
      ToldNext(h, Settled(h));
    }
  }

  /** A flush at the end settles the last sample exactly as the end of the stream does. */
  lemma FlushIsEndOfStream(h: seq<Entry>)
    ensures Batch(h + [Flush]) == Batch(h)
  {
    var g := h + [Flush];
    FirstSampleAppend(h, Flush);
    ToldNext(g, |h|);
    SettledIsStable(h, Flush, Settled(h), Nominal(h));
    if Settled(h) < |h| {
      assert g[|h| - 1] == h[|h| - 1];
      assert NextPts(g, |h| - 1) == NextPts(h, |h| - 1) == NO_TIME;
    }
  }

  lemma FlushTells(h: seq<Entry>)
    ensures Told(h + [Flush], |h|) == Batch(h)
  {
    FlushIsEndOfStream(h);
    LastEntry(h, Flush);
  }

  // ---------- properties of the timeline ----------

  lemma {:induction false} LengthsAreInRange(h: seq<Entry>, k: nat, nominal: nat)
    requires k <= |h|
    ensures forall i :: 0 <= i < |Writes(h, k, nominal)| ==> 1 <= Writes(h, k, nominal)[i].ticks <= MAX_UINT32
  {
    if k > 0 {
      LengthsAreInRange(h, k - 1, nominal);
    }
  }

  predicate NoneFatal(w: seq<Write>) {
    forall i :: 0 <= i < |w| ==> !w[i].buffer.verdict.Fatal?
  }

  lemma {:induction false} OnlyTheLastIsFatal(h: seq<Entry>, k: nat, nominal: nat)
    requires k <= |h|
    ensures Made(h, k, nominal) != [] ==> NoneFatal(Made(h, k, nominal)[..|Made(h, k, nominal)| - 1])
  {
    if k > 0 {
      OnlyTheLastIsFatal(h, k - 1, nominal);
      var before, made := Made(h, k - 1, nominal), Made(h, k, nominal);
      if made != before {
        assert made[..|made| - 1] == before;
        NoneFatalYet(before);
      }
    }
  }

  lemma NoneFatalYet(w: seq<Write>)
    requires !EndsFatal(w) && (w != [] ==> NoneFatal(w[..|w| - 1]))
    ensures NoneFatal(w)
  {
    if w != [] {
      assert w == w[..|w| - 1] + [w[|w| - 1]];
    }
  }

  lemma {:induction false} MadeIsOwed(h: seq<Entry>, k: nat, nominal: nat)
    requires k <= |h|
    ensures Made(h, k, nominal) <= Writes(h, k, nominal)
    ensures !EndsFatal(Made(h, k, nominal)) ==> Made(h, k, nominal) == Writes(h, k, nominal)
  {
    if k > 0 {
      MadeIsOwed(h, k - 1, nominal);
    }
  }

  /** What was made is a prefix of what was owed: all of it unless the last write made was fatal, and no
      other write made can be fatal. */
  lemma MadeIsPrefix(h: seq<Entry>, k: nat, nominal: nat)
    requires k <= |h|
    ensures Made(h, k, nominal) <= Writes(h, k, nominal)
    ensures !EndsFatal(Made(h, k, nominal)) ==> Made(h, k, nominal) == Writes(h, k, nominal)
    ensures Made(h, k, nominal) != [] ==> NoneFatal(Made(h, k, nominal)[..|Made(h, k, nominal)| - 1])
  {
    MadeIsOwed(h, k, nominal);
    OnlyTheLastIsFatal(h, k, nominal);
  }

  lemma {:induction false} AcceptedAtLeastCount(w: seq<Write>, n: nat)
    requires n <= |w| && forall i :: 0 <= i < |w| ==> 1 <= w[i].ticks <= MAX_UINT32
    ensures AcceptedCountIn(w, n) <= AcceptedIn(w, n) <= MAX_UINT32 * AcceptedCountIn(w, n)
  {
    if n > 0 {
      AcceptedAtLeastCount(w, n - 1);
    }
  }

  /** Every duration handed to the muxer fits in 32 bits and is at least one tick; so the total is at
      least the number of accepted writes. */
  lemma DurationAccounting(h: seq<Entry>)
    ensures forall i :: 0 <= i < |Batch(h)| ==> 1 <= Batch(h)[i].ticks <= MAX_UINT32
    ensures AcceptedCount(Batch(h)) <= AcceptedTicks(Batch(h)) <= MAX_UINT32 * AcceptedCount(Batch(h))
  {
    LengthsAreInRange(h, |h|, Nominal(h));
    MadeIsPrefix(h, |h|, Nominal(h));
    AcceptedAtLeastCount(Batch(h), |Batch(h)|);
  }

  lemma BuffersSnoc(w: seq<Write>, x: Write)
    ensures Buffers(w + [x]) == Buffers(w) + [x.buffer]
  {
    assert (w + [x])[..|w|] == w;
  }

  lemma {:induction false} WritesFollowArrival(h: seq<Entry>, k: nat, nominal: nat)
    requires k <= |h|
    ensures Buffers(Writes(h, k, nominal)) == WritableBuffers(h[..k])
  {
    if k > 0 {
      WritesFollowArrival(h, k - 1, nominal);
      assert h[..k][..k - 1] == h[..k - 1] && h[..k][k - 1] == h[k - 1];
      if Stores(h[k - 1]) && Writable(BufferOf(h[k - 1].offer.payload)) {
        BuffersSnoc(Writes(h, k - 1, nominal),
                    Write(BufferOf(h[k - 1].offer.payload), Clamp(LastTicks(h, k, nominal))));
      } else {
        assert Writes(h, k, nominal) == Writes(h, k - 1, nominal);
        assert WritableBuffers(h[..k]) == WritableBuffers(h[..k - 1]);
      }
    }
  }

  lemma {:induction false} BuffersPrefix(v: seq<Write>, w: seq<Write>)
    requires v <= w
    ensures Buffers(v) <= Buffers(w)
    decreases |w|
  {
    if v != w {
      BuffersPrefix(v, w[..|w| - 1]);
    }
  }

  /** One write per writable sample, in arrival order; nothing is missing unless the writer did not
      start or the last write made was fatal, and then what was made is a prefix. */
  lemma BatchWritesInArrivalOrder(h: seq<Entry>)
    ensures Buffers(Batch(h)) <= WritableBuffers(h)
    ensures Batch(h) <= Writes(h, |h|, Nominal(h))
    ensures Batch(h) != [] ==> NoneFatal(Batch(h)[..|Batch(h)| - 1])
    ensures !StartFails(h) && !EndsFatal(Batch(h)) ==> Buffers(Batch(h)) == WritableBuffers(h)
  {
    var w := Writes(h, |h|, Nominal(h));
    WritesFollowArrival(h, |h|, Nominal(h));
    assert h[..|h|] == h;
    MadeIsPrefix(h, |h|, Nominal(h));
    BuffersPrefix(Batch(h), w);
  }

  /** One gap between time stamps, with no stated duration: the emitted length is the gap rounded down to
      a tick exactly when the gap is at least 11112 ns and below the 32-bit clamp. */
  lemma GapIsRoundedDown(pts: ClockTime, next: ClockTime, last: nat, nominal: nat)
    requires pts < next < NO_TIME
    ensures var gap, ticks := next - pts, Clamp(Ticks(OwnTicks(pts, NO_TIME, next), last, nominal));
            100000 * ticks <= 9 * gap < 100000 * (ticks + 1) <==> 11112 <= gap && To90k(gap) <= MAX_UINT32
  {
    var gap := next - pts;
    assert To90k(gap) == 9 * gap / 100000;
  }

  // ---------- the length of every write ----------

  /** The time stamp of the buffer that carries the times. */
  function TimeStamp(e: Entry): ClockTime
    requires e.Sample? && e.offer.stamps.Some?
  {
    var t := e.offer.stamps.value;
    if t.pts == NO_TIME then t.dts else t.pts
  }

  predicate Timed(e: Entry) { e.Sample? && e.offer.stamps.Some? && TimeStamp(e) != NO_TIME }

  /** The time, in nanoseconds, that sample i of h claims for itself: its stated duration, or the distance to
      the time stamp of the sample offered next, or 0 when it claims none. */
  function Claim(h: seq<Entry>, i: nat): nat
    requires i < |h| && h[i].Sample?
  {
    if h[i].offer.stamps.Some? && h[i].offer.stamps.value.duration != NO_TIME then
      h[i].offer.stamps.value.duration
    else if i + 1 < |h| && Timed(h[i]) && Timed(h[i + 1]) && TimeStamp(h[i]) < TimeStamp(h[i + 1]) then
      TimeStamp(h[i + 1]) - TimeStamp(h[i])
    else 0
  }

  /** ticks of 1/90000 s for a claim in nanoseconds: rounded down, at most 32 bits; a claim of less than one
      tick counts for nothing, and then the length is what it was before. */
  predicate IsLength(ticks: nat, claim: nat, before: nat) {
    if claim < 11112 then ticks == (if before < 0x1_0000_0000 then before else 0xFFFF_FFFF)
    else if 9 * claim < 100000 * 0x1_0000_0000 then 100000 * ticks <= 9 * claim < 100000 * (ticks + 1)
    else ticks == 0xFFFF_FFFF
  }

  /** A sample that keeps a buffer the muxer can be given. */
  predicate Usable(e: Entry) {
    && e.Sample?
    && match e.offer.payload
       case Empty => false
       case Shared(b) => 0 < b.size <= 0x7FFF_FFFF && b.mappable
       case Copied(b, obtained, filled) => obtained && filled && 0 < b.size <= 0x7FFF_FFFF && b.mappable
  }

  function UsableBuffer(e: Entry): Buffer
    requires Usable(e)
  {
    match e.offer.payload
    case Shared(b) => b
    case Copied(b, _, _) => b
  }

  lemma UsableIsWritten(e: Entry)
    ensures Usable(e) <==> Stores(e) && Writable(BufferOf(e.offer.payload))
    ensures Usable(e) ==> UsableBuffer(e) == BufferOf(e.offer.payload)
  {
  }

  /** The length before clamping, which the next sample inherits when it claims nothing. */
  function Inherited(h: seq<Entry>, i: nat, nominal: nat): nat
    requires i <= |h|
  {
    if LastTicks(h, i, nominal) != 0 then LastTicks(h, i, nominal) else nominal
  }

  lemma ClaimInTicks(h: seq<Entry>, i: nat)
    requires i < |h| && h[i].Sample?
    ensures OwnTicks(PtsOf(h[i].offer), DurationOf(h[i].offer), NextPts(h, i)) == 9 * Claim(h, i) / 100000
  {
  }

  lemma LengthFromClaim(claim: nat, last: nat, nominal: nat)
    requires nominal > 0
    ensures IsLength(Clamp(Ticks(9 * claim / 100000, last, nominal)), claim, if last != 0 then last else nominal)
  {
  }

  lemma NominalIsPositive(h: seq<Entry>)
    ensures Nominal(h) > 0
  {
  }

  lemma {:induction false} WritesGrow(h: seq<Entry>, i: nat, k: nat, nominal: nat)
    requires i <= k <= |h|
    ensures Writes(h, i, nominal) <= Writes(h, k, nominal)
    decreases k
  {
    if i < k {
      WritesGrow(h, i, k - 1, nominal);
    }
  }

  lemma WriteOfEntry(h: seq<Entry>, i: nat, nominal: nat)
    requires i < |h| && Usable(h[i])
    ensures var at := |Writes(h, i, nominal)|;
            && at < |Writes(h, |h|, nominal)|
            && Writes(h, |h|, nominal)[at] == Write(UsableBuffer(h[i]), Clamp(LastTicks(h, i + 1, nominal)))
  {
    UsableIsWritten(h[i]);
    WritesGrow(h, i + 1, |h|, nominal);
    assert Writes(h, i + 1, nominal)
        == Writes(h, i, nominal) + [Write(UsableBuffer(h[i]), Clamp(LastTicks(h, i + 1, nominal)))];
  }

  /** Every usable sample is written, at its place, with the length it claims: a stated duration before any
      distance between time stamps, a claim of less than a tick not at all, and otherwise what the sample
      before had (the nominal length for the first). */
  lemma EveryWriteHasItsLength(h: seq<Entry>, i: nat)
    requires i < |h| && Usable(h[i]) && !StartFails(h) && !EndsFatal(Batch(h))
    ensures var at := |Writes(h, i, Nominal(h))|;
            && at < |Batch(h)| && Batch(h)[at].buffer == UsableBuffer(h[i])
            && IsLength(Batch(h)[at].ticks, Claim(h, i), Inherited(h, i, Nominal(h)))
  {
    MadeIsPrefix(h, |h|, Nominal(h));
    WriteOfEntry(h, i, Nominal(h));
    ClaimInTicks(h, i);
    NominalIsPositive(h);
    LengthFromClaim(Claim(h, i), LastTicks(h, i, Nominal(h)), Nominal(h));
    UsableIsWritten(h[i]);
  }

  /** Nothing else is written: every write is of a usable sample. */
  lemma {:induction false} OnlyUsableIsWritten(h: seq<Entry>, k: nat, nominal: nat, w: Write)
    requires k <= |h| && w in Writes(h, k, nominal)
    ensures exists i :: 0 <= i < k && Usable(h[i]) && UsableBuffer(h[i]) == w.buffer
    decreases k
  {
    UsableIsWritten(h[k - 1]);
    if w in Writes(h, k - 1, nominal) {
      OnlyUsableIsWritten(h, k - 1, nominal, w);
    }
  }

  lemma WritesAreOfUsableSamples(h: seq<Entry>, w: Write)
    requires w in Batch(h)
    ensures exists i :: 0 <= i < |h| && Usable(h[i]) && UsableBuffer(h[i]) == w.buffer
  {
    MadeIsPrefix(h, |h|, Nominal(h));
    OnlyUsableIsWritten(h, |h|, Nominal(h), w);
  }

  /** A sample that claims nothing is written with the very length of the usable one offered before it. */
  lemma LengthRepeats(h: seq<Entry>, i: nat)
    requires i + 1 < |h| && Usable(h[i]) && Usable(h[i + 1]) && Claim(h, i + 1) < 11112
    requires !StartFails(h) && !EndsFatal(Batch(h))
    ensures var at := |Writes(h, i, Nominal(h))|;
            at + 1 < |Batch(h)| && Batch(h)[at + 1].ticks == Batch(h)[at].ticks
  {
    var nominal := Nominal(h);
    MadeIsPrefix(h, |h|, nominal);
    WriteOfEntry(h, i, nominal);
    WriteOfEntry(h, i + 1, nominal);
    UsableIsWritten(h[i]);
    UsableIsWritten(h[i + 1]);
    ClaimInTicks(h, i + 1);
    NominalIsPositive(h);
  }

  /** A first sample that claims nothing lasts one frame of the caps' frame rate n / d, rounded down to a tick;
      30 frames a second when there is none, and 3000 ticks when a frame would last no tick. */
  lemma FirstLengthIsNominal(h: seq<Entry>)
    requires h != [] && Usable(h[0]) && Claim(h, 0) < 11112 && !StartFails(h) && !EndsFatal(Batch(h))
    ensures |Batch(h)| > 0
    ensures var t := Batch(h)[0].ticks;
            match h[0].offer.framerate
            case None => t == 3000
            case Some(f) =>
              if f.n <= 0 || f.d <= 0 || 90000 * f.d < f.n then t == 3000
              else if 90000 * f.d / f.n > 0xFFFF_FFFF then t == 0xFFFF_FFFF
              else f.n * t <= 90000 * f.d < f.n * (t + 1)
  {
    EveryWriteHasItsLength(h, 0);
    FirstIsFirst(h, |h|);
    assert LastTicks(h, 0, Nominal(h)) == 0 && Writes(h, 0, Nominal(h)) == [];
    NominalIsPositive(h);
    if h[0].offer.framerate.Some? {
      var f := h[0].offer.framerate.value;
      if f.n > 0 && f.d > 0 {
        QuotientIs(90000 * f.d, f.n);
      }
    }
  }

  lemma QuotientIs(a: nat, b: nat)
    requires b > 0
    ensures b * (a / b) <= a < b * (a / b + 1)
    ensures a / b == 0 <==> a < b
  {
    assert a == b * (a / b) + a % b;
    assert b * (a / b + 1) == b * (a / b) + b;
    if a < b {
      assert a / b == 0;
    }
  }

  lemma {:induction false} FirstIsFirst(h: seq<Entry>, k: nat)
    requires 0 < k <= |h| && h[0].Sample?
    ensures FirstSampleIn(h, k) == Some(h[0].offer)
    decreases k
  {
    if k > 1 {
      FirstIsFirst(h, k - 1);
    } else {
      assert FirstSampleIn(h, 0) == None;
    }
  }

  // ---------- drift ----------

  predicate SteadyEntry(e: Entry) {
    Usable(e) && Timed(e) && e.offer.stamps.value.duration == NO_TIME
  }

  predicate SteadyGap(a: ClockTime, b: ClockTime) {
    a < b < NO_TIME && 11112 <= b - a && To90k(b - a) <= MAX_UINT32
  }

  /** From entry d on: samples with increasing time stamps, no stated duration, and gaps in that range. */
  ghost predicate SteadyFrom(h: seq<Entry>, d: nat) {
    && (forall i :: d <= i < |h| ==> SteadyEntry(h[i]))
    && (forall i, j :: d <= i < j < |h| && j == i + 1 ==> SteadyGap(TimeStamp(h[i]), TimeStamp(h[j])))
  }

  function TotalIn(w: seq<Write>, n: nat): nat
    requires n <= |w|
  {
    if n == 0 then 0 else TotalIn(w, n - 1) + w[n - 1].ticks
  }

  lemma {:induction false} TotalStable(w: seq<Write>, x: Write, n: nat)
    requires n <= |w|
    ensures TotalIn(w + [x], n) == TotalIn(w, n)
  {
    if n > 0 {
      TotalStable(w, x, n - 1);
    }
  }

  /** total ticks over a span of n gaps, each rounded down to a tick. */
  predicate RoundedDown(total: nat, span: int, n: nat) {
    && 0 <= span && 100000 * total <= 9 * span
    && (if n == 0 then total == 0 && span == 0 else 9 * span < 100000 * (total + n))
  }

  lemma RoundOneMore(total: nat, span: int, n: nat, ticks: nat, gap: int)
    requires RoundedDown(total, span, n) && 100000 * ticks <= 9 * gap < 100000 * (ticks + 1)
    ensures RoundedDown(total + ticks, span + gap, n + 1)
  {
  }

  /** The length of a sample in a steady stretch is the gap to the next one, rounded down. */
  lemma SteadyLength(h: seq<Entry>, d: nat, n: nat, nominal: nat)
    requires SteadyFrom(h, d) && d < n < |h|
    ensures var ticks, gap := Clamp(LastTicks(h, n, nominal)), TimeStamp(h[n]) - TimeStamp(h[n - 1]);
            100000 * ticks <= 9 * gap < 100000 * (ticks + 1)
  {
    var a, b := h[n - 1], h[n];
    assert SteadyEntry(a) && SteadyEntry(b) && SteadyGap(TimeStamp(a), TimeStamp(b));
    UsableIsWritten(a);
    assert PtsOf(a.offer) == TimeStamp(a) && EntryPts(b) == TimeStamp(b);
    GapIsRoundedDown(TimeStamp(a), TimeStamp(b), LastTicks(h, n - 1, nominal), nominal);
  }

  lemma {:induction false} SteadyDrift(h: seq<Entry>, n: nat, nominal: nat)
    requires SteadyFrom(h, 0) && n < |h|
    ensures |Writes(h, n, nominal)| == n
    ensures RoundedDown(TotalIn(Writes(h, n, nominal), n), TimeStamp(h[n]) - TimeStamp(h[0]), n)
  {
    if n > 0 {
      SteadyDrift(h, n - 1, nominal);
      SteadyLength(h, 0, n, nominal);
      assert SteadyEntry(h[n - 1]);
      UsableIsWritten(h[n - 1]);
      var w := Writes(h, n - 1, nominal);
      var x := Write(BufferOf(h[n - 1].offer.payload), Clamp(LastTicks(h, n, nominal)));
      TotalStable(w, x, n - 1);
      assert TotalIn(w + [x], n) == TotalIn(w, n - 1) + x.ticks;
      RoundOneMore(TotalIn(w, n - 1), TimeStamp(h[n - 1]) - TimeStamp(h[0]), n - 1, x.ticks,
                   TimeStamp(h[n]) - TimeStamp(h[n - 1]));
    }
  }

  lemma OneMoreAccepted(h: seq<Entry>, n: nat, nominal: nat)
    requires 0 < n <= |h| && Usable(h[n - 1]) && BufferOf(h[n - 1].offer.payload).verdict.Accepted?
    requires !EndsFatal(Made(h, n - 1, nominal))
    ensures !EndsFatal(Made(h, n, nominal))
    ensures AcceptedTicks(Made(h, n, nominal))
            == AcceptedTicks(Made(h, n - 1, nominal)) + Clamp(LastTicks(h, n, nominal))
  {
    UsableIsWritten(h[n - 1]);
    var x := Write(BufferOf(h[n - 1].offer.payload), Clamp(LastTicks(h, n, nominal)));
    AcceptedSnoc(Made(h, n - 1, nominal), x);
  }

  /** In a steady stretch whose writes are all accepted, the total grows by the time stamps' span, each gap
      rounded down; whatever came before it. */
  lemma {:induction false} SteadyGain(h: seq<Entry>, d: nat, n: nat, nominal: nat)
    requires SteadyFrom(h, d) && d <= n < |h| && !EndsFatal(Made(h, d, nominal))
    requires forall i :: d <= i < n ==> BufferOf(h[i].offer.payload).verdict.Accepted?
    ensures !EndsFatal(Made(h, n, nominal))
    ensures AcceptedTicks(Made(h, d, nominal)) <= AcceptedTicks(Made(h, n, nominal))
    ensures RoundedDown(AcceptedTicks(Made(h, n, nominal)) - AcceptedTicks(Made(h, d, nominal)),
                        TimeStamp(h[n]) - TimeStamp(h[d]), n - d)
  {
    if d < n {
      SteadyGain(h, d, n - 1, nominal);
      SteadyLength(h, d, n, nominal);
      assert SteadyEntry(h[n - 1]);
      OneMoreAccepted(h, n, nominal);
      var t0, t1, t2 := TimeStamp(h[d]), TimeStamp(h[n - 1]), TimeStamp(h[n]);
      var before, gained := AcceptedTicks(Made(h, d, nominal)), AcceptedTicks(Made(h, n - 1, nominal));
      RoundOneMore(gained - before, t1 - t0, n - 1 - d, Clamp(LastTicks(h, n, nominal)), t2 - t1);
    }
  }

  lemma NanosecondsRoundDown(total: nat, span: int, n: nat)
    requires RoundedDown(total, span, n) && span < U64
    ensures total < U64 && 0 <= ToNanoseconds(total) <= span
    ensures n > 0 ==> 9 * (span - ToNanoseconds(total)) < 100000 * n + 9
  {
    var ns := total * 1_000_000_000 / 90000;
    assert 9 * ns <= 100000 * total < 9 * ns + 9;
  }

  /** Drift of the reported media duration over a run of any length.  Up to sample d nothing has been
      accepted (parameter sets and a key frame were still missing, say); from d on the stream is steady and
      all writes so far were accepted.  Then the reported time never runs ahead of the time stamps counted
      from sample d, and trails them by less than (n - d) * 100000 / 9 + 1 nanoseconds. */
  lemma ReportedDurationDrift(h: seq<Entry>, d: nat)
    requires d < |h| && SteadyFrom(h, d) && !StartFails(h)
    requires AcceptedTicks(Told(h, d)) == 0 && !EndsFatal(Told(h, d))
    requires forall i :: d <= i < |h| - 1 ==> BufferOf(h[i].offer.payload).verdict.Accepted?
    ensures var n := |h| - 1;
            var span := TimeStamp(h[n]) - TimeStamp(h[d]);
            var reported := ToNanoseconds(AcceptedTicks(Told(h, Settled(h))));
            && Settled(h) == n && AcceptedTicks(Told(h, n)) < U64 && 0 <= reported <= span
            && (n > d ==> 9 * (span - reported) < 100000 * (n - d) + 9)
  {
    var n := |h| - 1;
    assert SteadyEntry(h[n]) && SteadyEntry(h[d]);
    SteadyGain(h, d, n, Nominal(h));
    NanosecondsRoundDown(AcceptedTicks(Told(h, n)), TimeStamp(h[n]) - TimeStamp(h[d]), n - d);
  }
}
