/** The MP4 recorder: a stream that runs one sample behind, because a sample can only be written once the
    next one (or a flush) supplies its duration. */
module VideoRecorder {
  import opened Wrappers
  import opened RecorderTimeline

  datatype PendingSample = PendingSample(buffer: Option<Buffer>, pts: ClockTime, duration: ClockTime, valid: bool)

  /** The pending sample after a memset to zero. */
  const NO_SAMPLE: PendingSample := PendingSample(None, 0, 0, false)

  datatype Stats = Stats(active: bool, mediaDurationNs: nat)

  /** What is pending while the stream is open and healthy. */
  function PendingOf(h: seq<Entry>): PendingSample {
    if Settled(h) == |h| then NO_SAMPLE
    else
      var o := h[|h| - 1].offer;
      PendingSample(Some(BufferOf(o.payload)), PtsOf(o), DurationOf(o), true)
  }

  lemma PendingAfter(h: seq<Entry>, e: Entry)
    ensures PendingOf(h + [e]) ==
            if Stores(e)
            then PendingSample(Some(BufferOf(e.offer.payload)), PtsOf(e.offer), DurationOf(e.offer), true)
            else NO_SAMPLE
  {
  }

  class VideoRecorder {
    var enabled: bool
    var failed: bool
    var fileOpen: bool
    var muxOpen: bool
    var writerInitialized: bool
    var defaultDuration90k: nat
    var lastDuration90k: nat
    var pending: PendingSample
    var awaitingSyncWarning: bool
    var totalDuration90k: nat

    ghost var history: seq<Entry>     // every non-empty sample offered so far, and every flush
    ghost var told: seq<Write>        // every call of the muxer's write function so far
    ghost var acquired: nat           // buffer references taken
    ghost var released: nat           // buffer references given back

    /** One buffer reference is held exactly while a sample is pending. */
    ghost predicate ReferencesBalance()
      reads this
    {
      && (pending.valid <==> pending.buffer.Some?)
      && acquired == released + (if pending.valid then 1 else 0)
    }

    /** The running total covers exactly the writes the muxer accepted, until it leaves 64 bits. */
    ghost predicate TotalCounts()
      reads this
    {
      AcceptedTicks(told) < U64 ==> totalDuration90k == AcceptedTicks(told)
    }

    /** The running state is what the batch definition says about the history. */
    ghost predicate FollowsBatch()
      reads this
    {
      && told == Told(history, Settled(history))
      && failed == (StartFails(history) || EndsFatal(told))
      && writerInitialized == (HasSample(history) && !StartFails(history))
      && defaultDuration90k == Nominal(history)
      && (!failed ==>
            && lastDuration90k == LastTicks(history, Settled(history), defaultDuration90k)
            && pending == PendingOf(history))
    }

    ghost predicate Valid()
      reads this
    {
      enabled && fileOpen && muxOpen && ReferencesBalance() && TotalCounts() && FollowsBatch()
    }

    /** video_recorder_new, once the file and the muxer could be opened. */
    constructor ()
      ensures Valid() && history == [] && told == [] && acquired == 0
    {
      enabled, failed, fileOpen, muxOpen, writerInitialized := true, false, true, true, false;
      defaultDuration90k, lastDuration90k := FALLBACK_TICKS, 0;
      pending := NO_SAMPLE;
      awaitingSyncWarning := false;
      totalDuration90k := 0;
      history, told := [], [];
      acquired, released := 0, 0;
    }

    method PendingReset()
      modifies this`pending, this`released
      ensures pending == NO_SAMPLE
      ensures released == old(released) + (if old(pending).buffer.Some? then 1 else 0)
    {
      if pending.buffer.Some? {
        released := released + 1;
      }
      pending := NO_SAMPLE;
    }

    method ComputeDuration90k(prevPts: ClockTime, prevDuration: ClockTime, nextPts: ClockTime) returns (ticks: nat)
      modifies this`lastDuration90k
      ensures lastDuration90k
              == Ticks(OwnTicks(prevPts, prevDuration, nextPts), old(lastDuration90k), defaultDuration90k)
      ensures ticks == Clamp(lastDuration90k)
    {
      var duration := 0;
      if prevDuration != NO_TIME {
        duration := To90k(prevDuration);
      } else if prevPts != NO_TIME && nextPts != NO_TIME && nextPts > prevPts {
        duration := To90k(nextPts - prevPts);
      }
      if duration == 0 {
        if lastDuration90k != 0 {
          duration := lastDuration90k;
        } else if defaultDuration90k != 0 {
          duration := defaultDuration90k;
        } else {
          duration := FALLBACK_TICKS;
        }
      }
      lastDuration90k := duration;
      if duration > MAX_UINT32 {
        duration := MAX_UINT32;
      }
      ticks := duration;
    }

    method EmitPending(ticks: nat)
      requires ReferencesBalance() && pending.valid && TotalCounts()
      modifies this`pending, this`released, this`failed, this`awaitingSyncWarning, this`totalDuration90k, this`told
      ensures ReferencesBalance() && pending == NO_SAMPLE && TotalCounts()
      ensures var writes := !old(failed) && writerInitialized && muxOpen && Writable(old(pending).buffer.value);
              && told == (if writes then old(told) + [Write(old(pending).buffer.value, ticks)] else old(told))
              && failed == (old(failed) || (writes && old(pending).buffer.value.verdict.Fatal?))
    {
      if failed || !writerInitialized || !muxOpen {
        PendingReset();
        return;
      }
      var buffer := pending.buffer.value;
      if buffer.size == 0 {
        PendingReset();
        return;
      }
      if buffer.size > MAX_INT {
        PendingReset();
        return;
      }
      if !buffer.mappable {
        PendingReset();
        return;
      }
      AcceptedSnoc(told, Write(buffer, ticks));
      told := told + [Write(buffer, ticks)];
      match buffer.verdict {
        case NotReady =>
          if !awaitingSyncWarning {
            awaitingSyncWarning := true;
          }
        case Fatal =>
          failed := true;
        case Accepted =>
          awaitingSyncWarning := false;
          totalDuration90k := totalDuration90k + ticks;
          if totalDuration90k >= U64 {
            totalDuration90k := totalDuration90k - U64;
          }
      }
      PendingReset();
    }

    method EnsureWriterInitialized(offer: Offer) returns (ok: bool)
      requires muxOpen
      modifies this`failed, this`writerInitialized, this`defaultDuration90k
      ensures old(writerInitialized) ==> ok && failed == old(failed) && writerInitialized &&
                                         defaultDuration90k == old(defaultDuration90k)
      ensures !old(writerInitialized) ==>
                && ok == writerInitialized == offer.writerStarts
                && failed == (old(failed) || !offer.writerStarts)
                && defaultDuration90k == NominalTicks(offer.framerate)
    {
      if writerInitialized || !muxOpen {
        return writerInitialized;
      }
      var fpsN, fpsD := 0, 1;
      if offer.framerate.Some? && offer.framerate.value.n > 0 && offer.framerate.value.d > 0 {
        fpsN, fpsD := offer.framerate.value.n, offer.framerate.value.d;
      }
      if fpsN == 0 || fpsD == 0 {
        fpsN, fpsD := 30, 1;
      }
      defaultDuration90k := 90000 * fpsD / fpsN;
      if defaultDuration90k == 0 {
        defaultDuration90k := FALLBACK_TICKS;
      }
      if !offer.writerStarts {
        failed := true;
        return false;
      }
      writerInitialized := true;
      return true;
    }

    /** Settling the pending sample once the next time stamp is known. */
    method SettlePending(nextPts: ClockTime)
      requires ReferencesBalance() && TotalCounts() && pending.valid
      requires !failed && writerInitialized && muxOpen
      modifies this`pending, this`released, this`failed, this`awaitingSyncWarning, this`totalDuration90k,
               this`told, this`lastDuration90k
      ensures ReferencesBalance() && TotalCounts() && pending == NO_SAMPLE
      ensures var p := old(pending);
              && lastDuration90k
                 == Ticks(OwnTicks(p.pts, p.duration, nextPts), old(lastDuration90k), defaultDuration90k)
              && (if Writable(p.buffer.value)
                  then && told == old(told) + [Write(p.buffer.value, Clamp(lastDuration90k))]
                       && failed == p.buffer.value.verdict.Fatal?
                  else told == old(told) && !failed)
    {
      var ticks := ComputeDuration90k(pending.pts, pending.duration, nextPts);
      EmitPending(ticks);
    }

    /** Everything FollowsBatch will ask for once e is part of the history. */
    ghost predicate ReadyFor(e: Entry)
      reads this
    {
      && told == Told(history + [e], |history|)
      && failed == (StartFails(history + [e]) || EndsFatal(told))
      && writerInitialized == (HasSample(history + [e]) && !StartFails(history + [e]))
      && defaultDuration90k == Nominal(history + [e])
      && (!failed ==>
            && lastDuration90k == LastTicks(history + [e], |history|, defaultDuration90k)
            && pending == PendingOf(history + [e]))
    }

    ghost method Append(e: Entry)
      requires ReadyFor(e)
      modifies this`history
      ensures FollowsBatch() && history == old(history) + [e]
    {
      LastEntry(history, e);
      history := history + [e];
    }

    /** After a failure only the history grows. */
    ghost method Ignore(e: Entry)
      requires FollowsBatch() && failed
      modifies this`history
      ensures FollowsBatch() && history == old(history) + [e]
      ensures told == Batch(old(history))
    {
      IgnoredAfterFailure(history, e);
      history := history + [e];
    }

    /** The tail of handle_sample: keep the new sample, if its buffer could be had. */
    method StorePending(offer: Offer)
      requires ReferencesBalance() && pending == NO_SAMPLE && !offer.payload.Empty?
      modifies this`pending, this`acquired, this`released
      ensures ReferencesBalance()
      ensures pending == PendingOf(history + [Sample(offer)])
    {
      PendingAfter(history, Sample(offer));
      match offer.payload {
        case Shared(buffer) =>
          acquired := acquired + 1;
          pending := PendingSample(Some(buffer), PtsOf(offer), DurationOf(offer), true);
        case Copied(buffer, obtained, filled) =>
          if !obtained {
            return;
          }
          acquired := acquired + 1;
          if !filled {
            released := released + 1;
            return;
          }
          pending := PendingSample(Some(buffer), PtsOf(offer), DurationOf(offer), true);
      }
    }

    /** Starting the writer if need be, then settling the sample before. */
    method StartAndSettle(offer: Offer) returns (ok: bool)
      requires Valid() && !failed
      modifies this`pending, this`released, this`failed, this`awaitingSyncWarning, this`totalDuration90k,
               this`told, this`lastDuration90k, this`writerInitialized, this`defaultDuration90k
      ensures ReferencesBalance() && TotalCounts()
      ensures var g := history + [Sample(offer)];
              && told == Told(g, |history|)
              && failed == (StartFails(g) || EndsFatal(told))
              && writerInitialized == ok == !StartFails(g)
              && defaultDuration90k == Nominal(g)
              && (ok ==> pending == NO_SAMPLE && lastDuration90k == LastTicks(g, |history|, defaultDuration90k))
    {
      var e := Sample(offer);
      FirstSampleAppend(history, e);
      if !HasSample(history) {
        FirstSampleStarts(history, offer);
      } else {
        SettleOne(history, e);
      }
      ok := EnsureWriterInitialized(offer);
      if ok && pending.valid {
        SettlePending(EntryPts(e));
      }
    }

    /** Offering a sample keeps the recorder in step with the batch definition, whatever fails. */
    method HandleSample(offer: Offer)
      requires Valid()
      modifies this
      ensures Valid()
      ensures history == if offer.payload.Empty? then old(history) else old(history) + [Sample(offer)]
    {
      if !enabled || failed {
        if !offer.payload.Empty? {
          Ignore(Sample(offer));
        }
        return;
      }
      if offer.payload.Empty? {
        return;
      }
      Accept(offer);
    }

    /** A healthy recorder takes a sample with something in it. */
    method Accept(offer: Offer)
      requires Valid() && !failed && !offer.payload.Empty?
      modifies this
      ensures Valid() && history == old(history) + [Sample(offer)]
    {
      var ok := StartAndSettle(offer);
      if ok {
        StorePending(offer);
      }
      Append(Sample(offer));
    }

    /** After a flush the muxer has been told exactly the batch of everything offered, and no reference
        is held. */
    method Flush()
      requires Valid()
      modifies this
      ensures Valid() && history == old(history) + [RecorderTimeline.Flush]
      ensures told == Batch(old(history))
      ensures pending == NO_SAMPLE && acquired == released
    {
      var e := RecorderTimeline.Flush;
      if !enabled || failed {
        PendingReset();
        Ignore(e);
        return;
      }
      SettleLast();
      FlushTells(history);
      Append(e);
    }

    /** A healthy recorder settles its last sample with no next time stamp. */
    method SettleLast()
      requires Valid() && !failed
      modifies this`pending, this`released, this`failed, this`awaitingSyncWarning, this`totalDuration90k,
               this`told, this`lastDuration90k
      ensures ReferencesBalance() && TotalCounts() && pending == NO_SAMPLE
      ensures ReadyFor(RecorderTimeline.Flush)
    {
      ghost var e := RecorderTimeline.Flush;
      PendingAfter(history, e);
      FirstSampleAppend(history, e);
      SettleOne(history, e);
      if pending.valid {
        SettlePending(NO_TIME);
      }
    }

    /** Freeing flushes first, then closes everything once. */
    method Free()
      requires Valid()
      modifies this
      ensures told == Batch(old(history))
      ensures acquired == released && pending == NO_SAMPLE
      ensures !muxOpen && !fileOpen
    {
      Flush();
      if muxOpen {
        muxOpen := false;
      }
      if fileOpen {
        fileOpen := false;
      }
      PendingReset();
    }

    method GetStats() returns (stats: Stats)
      requires Valid()
      ensures stats.active <==> !StartFails(history) && !EndsFatal(told)
      ensures AcceptedTicks(told) < U64 ==> stats.mediaDurationNs == ToNanoseconds(AcceptedTicks(told))
    {
      stats := Stats(enabled && !failed && fileOpen && muxOpen, ToNanoseconds(totalDuration90k));
    }
  }

  /** The entries up to k that offer something, or flush. */
  function Offered(entries: seq<Entry>, k: nat): seq<Entry>
    requires k <= |entries|
  {
    if k == 0 then [] else
      var e := entries[k - 1];
      Offered(entries, k - 1) + (if e.Sample? && e.offer.payload.Empty? then [] else [e])
  }

  /** Streaming is batch: over any run from new to free, flushes in between included and whatever fails, the
      muxer is told exactly the batch of what was offered, and every reference taken is given back. */
  method WholeRun(entries: seq<Entry>) returns (rec: VideoRecorder)
    ensures fresh(rec) && rec.told == Batch(Offered(entries, |entries|))
    ensures rec.acquired == rec.released && !rec.muxOpen && !rec.fileOpen
  {
    rec := new VideoRecorder();
    for i := 0 to |entries|
      invariant fresh(rec) && rec.Valid() && rec.history == Offered(entries, i)
    {
      match entries[i] {
        case Sample(offer) => rec.HandleSample(offer);
        case Flush => rec.Flush();
      }
    }
    rec.Free();
  }
}
