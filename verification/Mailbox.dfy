/** The one-slot, latest-wins mailbox between the decoder's frame thread and its display thread,
    with the controller that starts and stops them.  Every interleaving is a list of atomic steps:
    acquiring the lock, each access made under it, posting the condition variable, releasing it, and
    the frame thread's unlocked read of `running`. */
module Mailbox {
  import opened Runs
  import opened Sequences

  /** A DRM framebuffer id; 0 stands for "none". */
  type FbId = nat

  datatype Thread = Frame | Display | Control

  datatype Lock = Free | HeldByFrame | HeldByDisplay | HeldByControl

  /** What one call of the decoder's get-frame function leads to. */
  datatype Answer =
    | NoFrame                                // nothing ready: sleep and poll again
    | Skip(last: bool)                       // damaged picture, no slot with its fd, unknown format
    | InfoChange(last: bool)                 // every slot is released and filled anew
    | Picture(fb: FbId, last: bool)          // a slot matched; fb is 0 when that slot has no framebuffer

  datatype FramePc =
    | FNone                                  // thread not created
    | FCheck                                 // unlocked read of running
    | FGet                                   // inside decode_get_frame
    | FPubLock(fb: FbId, last: bool)
    | FStore(fb: FbId, last: bool)
    | FSignal(last: bool)
    | FPubUnlock(last: bool)
    | FEos(last: bool)
    | FExitLock | FExitStore | FExitBroadcast | FExitUnlock
    | FDone

  datatype DisplayPc =
    | DNone
    | DLock
    | DTest                                  // loop condition of the wait
    | DBlocked                               // asleep on the condition variable
    | DRelock                                // woken, re-acquiring the lock
    | DTake
    | DUnlock(fb: FbId, still: bool)
    | DCommit(fb: FbId, still: bool)
    | DDone

  datatype ControlPc =
    | CSpawnFrame | CSpawnDisplay            // video_decoder_start
    | CUndoJoin                              // start could not create the display thread
    | CIdle
    | CStopLock | CStopStore | CStopBroadcast | CStopUnlock | CJoinFrame | CJoinDisplay

  datatype State = State(
    running: bool, pending: FbId, lock: Lock, eos: bool,
    f: FramePc, d: DisplayPc, c: ControlPc,
    frameHandle: bool, displayHandle: bool,
    stops: nat)                              // calls of video_decoder_stop still to come

  datatype Action =
    | FrameStep(answer: Answer)
    | DisplayStep
    | SpuriousWake
    | ControlStep(created: bool)             // outcome of thread creation

  datatype Event =
    | Publish(fb: FbId, previous: FbId)
    | Take(fb: FbId)
    | Commit(fb: FbId)
    | Clear(who: Thread)                      // an assignment running = FALSE
    | Renew                                   // all framebuffer ids so far are released

  type Outcome = Runs.Outcome<State, Event>

  /** The moment after video_decoder_start has set running and cleared eos_received. */
  function Init(stops: nat): State {
    State(true, 0, Free, false, FNone, DNone, CSpawnFrame, false, false, stops)
  }

  /** Effect of a signal or a broadcast: at most one thread ever waits. */
  function Wake(d: DisplayPc): DisplayPc {
    if d.DBlocked? then DRelock else d
  }

  // The frame thread: its polling loop, the section that publishes, the section that leaves.

  predicate Polling(f: FramePc) { f.FNone? || f.FCheck? || f.FGet? || f.FEos? }

  predicate Publishing(f: FramePc) { f.FPubLock? || f.FStore? || f.FSignal? || f.FPubUnlock? }

  predicate FrameLeft(f: FramePc) { f.FExitBroadcast? || f.FExitUnlock? || f.FDone? }

  predicate FrameLeaving(f: FramePc) { f.FExitLock? || f.FExitStore? || FrameLeft(f) }

  function StepFrame(s: State, answer: Answer): Outcome {
    if Polling(s.f) then FrameLoop(s, answer)
    else if Publishing(s.f) then FramePublish(s)
    else FrameExit(s)
  }

  function FrameLoop(s: State, answer: Answer): Outcome
    requires Polling(s.f)
  {
    match s.f
    case FNone => Stuck
    case FCheck => To(s.(f := if s.running then FGet else FExitLock), [])
    case FGet =>
      (match answer
       case NoFrame => To(s.(f := FCheck), [])
       case Skip(last) => To(s.(f := FEos(last)), [])
       case InfoChange(last) => To(s.(f := FEos(last)), [Renew])
       case Picture(fb, last) => To(s.(f := FPubLock(fb, last)), []))
    case FEos(last) => To(s.(eos := last, f := if last then FExitLock else FCheck), [])
  }

  function FramePublish(s: State): Outcome
    requires Publishing(s.f)
  {
    match s.f
    case FPubLock(fb, last) =>
      if s.lock.Free? then To(s.(lock := HeldByFrame, f := FStore(fb, last)), []) else Stuck
    case FStore(fb, last) => To(s.(pending := fb, f := FSignal(last)), [Publish(fb, s.pending)])
    case FSignal(last) => To(s.(d := Wake(s.d), f := FPubUnlock(last)), [])
    case FPubUnlock(last) => To(s.(lock := Free, f := FEos(last)), [])
  }

  function FrameExit(s: State): Outcome
    requires FrameLeaving(s.f)
  {
    match s.f
    case FExitLock => if s.lock.Free? then To(s.(lock := HeldByFrame, f := FExitStore), []) else Stuck
    case FExitStore => To(s.(running := false, f := FExitBroadcast), [Clear(Frame)])
    case FExitBroadcast => To(s.(d := Wake(s.d), f := FExitUnlock), [])
    case FExitUnlock => To(s.(lock := Free, f := FDone), [])
    case FDone => Stuck
  }

  // The display thread: with the lock held, and without.

  predicate DisplayHolds(d: DisplayPc) { d.DTest? || d.DTake? || d.DUnlock? }

  predicate DisplayFree(d: DisplayPc) {
    d.DNone? || d.DLock? || d.DBlocked? || d.DRelock? || d.DCommit? || d.DDone?
  }

  function StepDisplay(s: State): Outcome {
    if DisplayHolds(s.d) then DisplayLocked(s) else DisplayOpen(s)
  }

  function DisplayLocked(s: State): Outcome
    requires DisplayHolds(s.d)
  {
    match s.d
    case DTest =>
      if s.running && s.pending == 0 then To(s.(lock := Free, d := DBlocked), [])
      else To(s.(d := DTake), [])
    case DTake => To(s.(pending := 0, d := DUnlock(s.pending, s.running)), [Take(s.pending)])
    case DUnlock(fb, still) =>
      To(s.(lock := Free,
            d := if !still && fb == 0 then DDone else if fb != 0 then DCommit(fb, still) else DLock), [])
  }

  function DisplayOpen(s: State): Outcome
    requires DisplayFree(s.d)
  {
    match s.d
    case DNone => Stuck
    case DLock => if s.lock.Free? then To(s.(lock := HeldByDisplay, d := DTest), []) else Stuck
    case DBlocked => Stuck
    case DRelock => if s.lock.Free? then To(s.(lock := HeldByDisplay, d := DTest), []) else Stuck
    case DCommit(fb, still) => To(s.(d := if still then DLock else DDone), [Commit(fb)])
    case DDone => Stuck
  }

  // The controller: video_decoder_start, then any number of calls of video_decoder_stop.

  predicate Starting(c: ControlPc) { c.CSpawnFrame? || c.CSpawnDisplay? || c.CUndoJoin? }

  predicate ControlHolds(c: ControlPc) { c.CStopStore? || c.CStopBroadcast? || c.CStopUnlock? }

  predicate ControlFree(c: ControlPc) {
    c.CIdle? || c.CStopLock? || c.CJoinFrame? || c.CJoinDisplay?
  }

  function StepControl(s: State, created: bool): Outcome {
    if Starting(s.c) then ControlStart(s, created)
    else if ControlHolds(s.c) then ControlLocked(s)
    else ControlOpen(s)
  }

  function ControlStart(s: State, created: bool): Outcome
    requires Starting(s.c)
  {
    match s.c
    case CSpawnFrame =>
      if created then To(s.(f := FCheck, frameHandle := true, c := CSpawnDisplay), [])
      else To(s.(running := false, c := CIdle), [Clear(Control)])
    case CSpawnDisplay =>
      if created then To(s.(d := DLock, displayHandle := true, c := CIdle), [])
      else To(s.(running := false, c := CUndoJoin), [Clear(Control)])
    case CUndoJoin => if s.f.FDone? then To(s.(frameHandle := false, c := CIdle), []) else Stuck
  }

  function ControlLocked(s: State): Outcome
    requires ControlHolds(s.c)
  {
    match s.c
    case CStopStore => To(s.(running := false, c := CStopBroadcast), [Clear(Control)])
    case CStopBroadcast => To(s.(d := Wake(s.d), c := CStopUnlock), [])
    case CStopUnlock => To(s.(lock := Free, c := CJoinFrame), [])
  }

  function ControlOpen(s: State): Outcome
    requires ControlFree(s.c)
  {
    match s.c
    case CIdle => if s.stops > 0 then To(s.(stops := s.stops - 1, c := CStopLock), []) else Stuck
    case CStopLock => if s.lock.Free? then To(s.(lock := HeldByControl, c := CStopStore), []) else Stuck
    case CJoinFrame =>
      if !s.frameHandle || s.f.FDone? then To(s.(frameHandle := false, c := CJoinDisplay), []) else Stuck
    case CJoinDisplay =>
      if !s.displayHandle || s.d.DDone? then To(s.(displayHandle := false, c := CIdle), []) else Stuck
  }

  function Step(s: State, a: Action): Outcome {
    match a
    case FrameStep(answer) => StepFrame(s, answer)
    case DisplayStep => StepDisplay(s)
    case SpuriousWake => if s.d.DBlocked? then To(s.(d := DRelock), []) else Stuck
    case ControlStep(created) => StepControl(s, created)
  }

  function Exec(s: State, acts: seq<Action>): Outcome { Replay(Step, s, acts) }

  // ---------- what a log says ----------

  /** Non-zero publications, in order. */
  function Published(log: seq<Event>): seq<FbId> {
    if log == [] then [] else
      var e := log[|log| - 1];
      Published(log[..|log| - 1]) + (if e.Publish? && e.fb != 0 then [e.fb] else [])
  }

  function Committed(log: seq<Event>): seq<FbId> {
    if log == [] then [] else
      var e := log[|log| - 1];
      Committed(log[..|log| - 1]) + (if e.Commit? then [e.fb] else [])
  }

  /** Publications that replaced an id nobody had taken. */
  function Overwritten(log: seq<Event>): nat {
    if log == [] then 0 else
      var e := log[|log| - 1];
      Overwritten(log[..|log| - 1]) + (if e.Publish? && e.previous != 0 then 1 else 0)
  }

  datatype Cleared = Never | By(t: Thread)

  /** Who was the first to assign running = FALSE. */
  function FirstClear(log: seq<Event>): Cleared {
    if log == [] then Never else
      var e := log[|log| - 1];
      var before := FirstClear(log[..|log| - 1]);
      if before.Never? && e.Clear? then By(e.who) else before
  }

  /** What became of the most recent publication. */
  datatype Fate = Nothing | InMailbox(fb: FbId) | InHand(fb: FbId) | Shown(fb: FbId)

  function LastFate(log: seq<Event>): Fate {
    if log == [] then Nothing else
      var before := LastFate(log[..|log| - 1]);
      match log[|log| - 1]
      case Publish(fb, _) => if fb == 0 then Nothing else InMailbox(fb)
      case Take(_) => if before.InMailbox? then InHand(before.fb) else before
      case Commit(_) => if before.InHand? then Shown(before.fb) else before
      case Clear(_) => before
      case Renew => before
  }

  /** The id most recently published, 0 when there is none or the mailbox was cleared by it. */
  function LastPublication(log: seq<Event>): FbId {
    if log == [] then 0 else
      var e := log[|log| - 1];
      if e.Publish? then e.fb else LastPublication(log[..|log| - 1])
  }

  lemma {:induction false} FateIsOfLastPublication(log: seq<Event>)
    ensures if LastFate(log).Nothing? then LastPublication(log) == 0
            else LastPublication(log) == LastFate(log).fb != 0
  {
    if log != [] {
      FateIsOfLastPublication(log[..|log| - 1]);
    }
  }

  /** Where in the log the latest publication stands, or -1. */
  function PendingAt(log: seq<Event>): int {
    if log == [] then -1
    else if log[|log| - 1].Publish? then |log| - 1
    else PendingAt(log[..|log| - 1])
  }

  /** Where the publication stands that was taken last, or -1. */
  function HandAt(log: seq<Event>): int {
    if log == [] then -1
    else if log[|log| - 1].Take? then PendingAt(log[..|log| - 1])
    else HandAt(log[..|log| - 1])
  }

  function CountPublications(log: seq<Event>): nat {
    if log == [] then 0 else (if log[0].Publish? then 1 else 0) + CountPublications(log[1..])
  }

  function CountCommits(log: seq<Event>): nat {
    if log == [] then 0 else (if log[0].Commit? then 1 else 0) + CountCommits(log[1..])
  }

  /** The id the display thread has taken and not yet committed, as a list of at most one. */
  function Hand(d: DisplayPc): seq<FbId> {
    if (d.DUnlock? || d.DCommit?) && d.fb != 0 then [d.fb] else []
  }

  function Waiting(pending: FbId): seq<FbId> {
    if pending != 0 then [pending] else []
  }

  // ---------- the invariant ----------

  predicate FrameHolds(f: FramePc) {
    f.FStore? || f.FSignal? || f.FPubUnlock? || f.FExitStore? || f.FExitBroadcast? || f.FExitUnlock?
  }

  /** Some thread holds the lock and its very next step posts the condition variable. */
  predicate PostIsNext(s: State) {
    s.f.FSignal? || s.f.FExitBroadcast? || s.c.CStopBroadcast?
  }

  predicate LockInv(s: State) {
    && (s.lock.HeldByFrame? <==> FrameHolds(s.f))
    && (s.lock.HeldByDisplay? <==> DisplayHolds(s.d))
    && (s.lock.HeldByControl? <==> ControlHolds(s.c))
  }

  predicate LastRound(d: DisplayPc) {
    d.DDone? || ((d.DUnlock? || d.DCommit?) && !d.still)
  }

  predicate Inv(s: State) { LockInv(s) && FlowInv(s) }

  predicate FlowInv(s: State) {
    && (s.c.CSpawnFrame? ==> s.f.FNone? && s.running)
    && (s.f.FNone? && !s.c.CSpawnFrame? ==> !s.running)
    && (s.c.CSpawnDisplay? || s.c.CUndoJoin? || s.frameHandle ==> !s.f.FNone?)
    && (s.displayHandle ==> !s.d.DNone?)
    && (Starting(s.c) ==> s.d.DNone?)
    && (s.c.CUndoJoin? || s.c.CStopBroadcast? || s.c.CStopUnlock? || s.c.CJoinFrame? || s.c.CJoinDisplay? ==>
          !s.running)
    && (FrameLeft(s.f) || LastRound(s.d) ==> !s.running)
    && (s.d.DTake? ==> !s.running || s.pending != 0)
    && (s.d.DBlocked? ==> (s.running && s.pending == 0) || PostIsNext(s))
    && (s.d.DCommit? || (s.d.DUnlock? && s.d.still) ==> s.d.fb != 0)
    && (FrameLeaving(s.f) && s.running ==> s.eos)
  }

  /** The publications the mailbox and the display thread's hand go back to. */
  predicate OriginAgrees(s: State, log: seq<Event>) {
    && IsPublication(log, PendingAt(log), s.pending)
    && IsPublication(log, HandAt(log), if Hand(s.d) == [] then 0 else Hand(s.d)[0])
  }

  predicate IsPublication(log: seq<Event>, i: int, fb: FbId) {
    fb != 0 ==> 0 <= i < |log| && log[i].Publish? && log[i].fb == fb
  }

  /** The state against the log that led to it. */
  predicate Agrees(s: State, log: seq<Event>) {
    && ClearAgrees(s, FirstClear(log))
    && OrderAgrees(s, log)
    && FateAgrees(s, LastFate(log))
    && ShownAgrees(log)
    && OriginAgrees(s, log)
  }

  predicate ClearAgrees(s: State, first: Cleared) {
    && (s.running <==> first.Never?)
    && first != By(Display)
    && (first == By(Frame) ==> FrameLeft(s.f) && s.eos && (LastRound(s.d) ==> s.pending == 0))
  }

  predicate OrderAgrees(s: State, log: seq<Event>) {
    && IsSubsequence(Committed(log) + Hand(s.d) + Waiting(s.pending), Published(log))
    && |Published(log)| == |Committed(log)| + |Hand(s.d)| + |Waiting(s.pending)| + Overwritten(log)
  }

  predicate FateAgrees(s: State, fate: Fate) {
    && (s.pending != 0 <==> fate.InMailbox?)
    && (fate.InMailbox? ==> fate.fb == s.pending)
    && (fate.InHand? ==> Hand(s.d) == [fate.fb])
    && (fate.Shown? ==> Hand(s.d) == [])
  }

  /** What was shown is the very id that was published. */
  predicate ShownAgrees(log: seq<Event>) {
    LastFate(log).Shown? ==> Committed(log) != [] && Committed(log)[|Committed(log)| - 1] == LastFate(log).fb
  }

  lemma LogSnoc(log: seq<Event>, e: Event)
    ensures Published(log + [e]) == Published(log) + (if e.Publish? && e.fb != 0 then [e.fb] else [])
    ensures Committed(log + [e]) == Committed(log) + (if e.Commit? then [e.fb] else [])
    ensures Overwritten(log + [e]) == Overwritten(log) + (if e.Publish? && e.previous != 0 then 1 else 0)
    ensures FirstClear(log + [e]) == if FirstClear(log).Never? && e.Clear? then By(e.who) else FirstClear(log)
    ensures LastFate(log + [e]) ==
            match e
            case Publish(fb, _) => if fb == 0 then Nothing else InMailbox(fb)
            case Take(_) => if LastFate(log).InMailbox? then InHand(LastFate(log).fb) else LastFate(log)
            case Commit(_) => if LastFate(log).InHand? then Shown(LastFate(log).fb) else LastFate(log)
            case Clear(_) => LastFate(log)
            case Renew => LastFate(log)
  {
    assert (log + [e])[..|log|] == log;
  }

  lemma FrameLoopKeepsInv(s: State, answer: Answer)
    requires Inv(s) && Polling(s.f) && FrameLoop(s, answer).To?
    ensures Inv(FrameLoop(s, answer).next)
  {
    var n := FrameLoop(s, answer).next;
    assert n.lock == s.lock && n.d == s.d && n.c == s.c;
    assert FrameHolds(n.f) == FrameHolds(s.f) == false;
  }

  lemma FramePublishKeepsInv(s: State)
    requires Inv(s) && Publishing(s.f) && FramePublish(s).To?
    ensures Inv(FramePublish(s).next)
  {
  }

  lemma FrameExitKeepsInv(s: State)
    requires Inv(s) && FrameLeaving(s.f) && FrameExit(s).To?
    ensures Inv(FrameExit(s).next)
  {
  }

  lemma DisplayLockedKeepsInv(s: State)
    requires Inv(s) && DisplayHolds(s.d) && DisplayLocked(s).To?
    ensures Inv(DisplayLocked(s).next)
  {
  }

  lemma DisplayOpenKeepsInv(s: State)
    requires Inv(s) && DisplayFree(s.d) && DisplayOpen(s).To?
    ensures Inv(DisplayOpen(s).next)
  {
  }

  lemma ControlStartKeepsInv(s: State, created: bool)
    requires Inv(s) && Starting(s.c) && ControlStart(s, created).To?
    ensures Inv(ControlStart(s, created).next)
  {
  }

  lemma ControlLockedKeepsInv(s: State)
    requires Inv(s) && ControlHolds(s.c) && ControlLocked(s).To?
    ensures Inv(ControlLocked(s).next)
  {
  }

  lemma ControlOpenKeepsInv(s: State)
    requires Inv(s) && ControlFree(s.c) && ControlOpen(s).To?
    ensures Inv(ControlOpen(s).next)
  {
  }

  lemma StepKeepsInv(s: State, a: Action)
    requires Inv(s) && Step(s, a).To?
    ensures Inv(Step(s, a).next)
  {
    match a
    case FrameStep(answer) =>
      if Polling(s.f) {
        FrameLoopKeepsInv(s, answer);
      } else if Publishing(s.f) {
        FramePublishKeepsInv(s);
      } else {
        FrameExitKeepsInv(s);
      }
    case DisplayStep =>
      if DisplayHolds(s.d) {
        DisplayLockedKeepsInv(s);
      } else {
        DisplayOpenKeepsInv(s);
      }
    case SpuriousWake =>
    case ControlStep(created) =>
      if Starting(s.c) {
        ControlStartKeepsInv(s, created);
      } else if ControlHolds(s.c) {
        ControlLockedKeepsInv(s);
      } else {
        ControlOpenKeepsInv(s);
      }
  }

  /** What one step may do to the fields the log speaks about. */
  predicate Effect(s: State, n: State, log: seq<Event>) {
    && |log| <= 1
    && (FrameLeft(s.f) ==> FrameLeft(n.f) && n.eos == s.eos)
    && (log == [] ==>
          && n.running == s.running && n.pending == s.pending && Hand(n.d) == Hand(s.d)
          && (LastRound(n.d) ==> LastRound(s.d)))
    && (log != [] ==> EventEffect(s, n, log[0]))
  }

  predicate EventEffect(s: State, n: State, e: Event) {
    && (!e.Clear? ==> n.running == s.running)
    && match e
       case Publish(fb, previous) =>
         previous == s.pending && n.pending == fb && n.d == s.d && !FrameLeft(s.f)
       case Take(fb) =>
         && fb == s.pending && n.pending == 0 && n.f == s.f
         && Hand(s.d) == [] && Hand(n.d) == Waiting(s.pending)
       case Commit(fb) =>
         n.pending == s.pending && Hand(s.d) == [fb] && Hand(n.d) == [] && LastRound(n.d) == LastRound(s.d)
       case Clear(who) =>
         && !n.running && n.pending == s.pending && n.d == s.d && n.eos == s.eos && who != Display
         && (who == Frame ==> FrameLeft(n.f) && (s.running ==> s.eos && !LastRound(s.d)))
       case Renew => n.pending == s.pending && n.d == s.d
  }

  lemma FrameLoopEffect(s: State, answer: Answer)
    requires Inv(s) && Polling(s.f) && FrameLoop(s, answer).To?
    ensures Effect(s, FrameLoop(s, answer).next, FrameLoop(s, answer).log)
  {
  }

  lemma FramePublishEffect(s: State)
    requires Inv(s) && Publishing(s.f) && FramePublish(s).To?
    ensures Effect(s, FramePublish(s).next, FramePublish(s).log)
  {
  }

  lemma FrameExitEffect(s: State)
    requires Inv(s) && FrameLeaving(s.f) && FrameExit(s).To?
    ensures Effect(s, FrameExit(s).next, FrameExit(s).log)
  {
  }

  lemma DisplayLockedEffect(s: State)
    requires Inv(s) && DisplayHolds(s.d) && DisplayLocked(s).To?
    ensures Effect(s, DisplayLocked(s).next, DisplayLocked(s).log)
  {
  }

  lemma DisplayOpenEffect(s: State)
    requires Inv(s) && DisplayFree(s.d) && DisplayOpen(s).To?
    ensures Effect(s, DisplayOpen(s).next, DisplayOpen(s).log)
  {
  }

  lemma ControlStartEffect(s: State, created: bool)
    requires Inv(s) && Starting(s.c) && ControlStart(s, created).To?
    ensures Effect(s, ControlStart(s, created).next, ControlStart(s, created).log)
  {
  }

  lemma ControlLockedEffect(s: State)
    requires Inv(s) && ControlHolds(s.c) && ControlLocked(s).To?
    ensures Effect(s, ControlLocked(s).next, ControlLocked(s).log)
  {
  }

  lemma ControlOpenEffect(s: State)
    requires Inv(s) && ControlFree(s.c) && ControlOpen(s).To?
    ensures Effect(s, ControlOpen(s).next, ControlOpen(s).log)
  {
  }

  lemma StepEffect(s: State, a: Action)
    requires Inv(s) && Step(s, a).To?
    ensures Effect(s, Step(s, a).next, Step(s, a).log)
  {
    match a
    case FrameStep(answer) =>
      if Polling(s.f) {
        FrameLoopEffect(s, answer);
      } else if Publishing(s.f) {
        FramePublishEffect(s);
      } else {
        FrameExitEffect(s);
      }
    case DisplayStep =>
      if DisplayHolds(s.d) {
        DisplayLockedEffect(s);
      } else {
        DisplayOpenEffect(s);
      }
    case SpuriousWake =>
    case ControlStep(created) =>
      if Starting(s.c) {
        ControlStartEffect(s, created);
      } else if ControlHolds(s.c) {
        ControlLockedEffect(s);
      } else {
        ControlOpenEffect(s);
      }
  }

  lemma EventKeepsFate(s: State, n: State, log: seq<Event>, e: Event)
    requires EventEffect(s, n, e) && FateAgrees(s, LastFate(log))
    ensures FateAgrees(n, LastFate(log + [e]))
  {
    LogSnoc(log, e);
  }

  lemma EventKeepsShown(s: State, n: State, log: seq<Event>, e: Event)
    requires EventEffect(s, n, e) && FateAgrees(s, LastFate(log)) && ShownAgrees(log)
    ensures ShownAgrees(log + [e])
  {
    LogSnoc(log, e);
  }

  lemma OriginSnoc(log: seq<Event>, e: Event)
    ensures PendingAt(log + [e]) == if e.Publish? then |log| else PendingAt(log)
    ensures HandAt(log + [e]) == if e.Take? then PendingAt(log) else HandAt(log)
  {
    assert (log + [e])[..|log|] == log;
  }

  lemma EventKeepsOrigin(s: State, n: State, log: seq<Event>, e: Event)
    requires EventEffect(s, n, e) && OriginAgrees(s, log)
    ensures OriginAgrees(n, log + [e])
  {
    OriginSnoc(log, e);
  }

  lemma EventKeepsClear(s: State, n: State, log: seq<Event>, e: Event)
    requires Effect(s, n, [e]) && ClearAgrees(s, FirstClear(log))
    ensures ClearAgrees(n, FirstClear(log + [e]))
  {
    LogSnoc(log, e);
  }

  /** The list committed / in hand / waiting stays a subsequence of what was published. */
  lemma EventKeepsOrder(s: State, n: State, log: seq<Event>, e: Event)
    requires EventEffect(s, n, e) && OrderAgrees(s, log)
    ensures OrderAgrees(n, log + [e])
  {
    LogSnoc(log, e);
    var C, H, W, P := Committed(log), Hand(s.d), Waiting(s.pending), Published(log);
    assert !e.Publish? ==> Published(log + [e]) == P;
    assert !e.Commit? ==> Committed(log + [e]) == C;
    match e
    case Publish(fb, _) =>
      SubsequencePrefix(C + H, W, P);
      if fb != 0 {
        SubsequenceSnoc(C + H, P, fb);
        assert Published(log + [e]) == P + [fb];
        assert Committed(log + [e]) + Hand(n.d) + Waiting(n.pending) == C + H + [fb];
      } else {
        assert Published(log + [e]) == P;
        assert Committed(log + [e]) + Hand(n.d) + Waiting(n.pending) == C + H;
      }
    case Take(fb) =>
      assert C + Hand(n.d) + Waiting(n.pending) == C + H + W;
    case Commit(fb) =>
      assert C + [fb] + Hand(n.d) + Waiting(n.pending) == C + H + W;
    case Clear(_) =>
    case Renew =>
  }

  lemma EffectKeepsAgreement(s: State, n: State, log: seq<Event>, new_: seq<Event>)
    requires Effect(s, n, new_) && Agrees(s, log)
    ensures Agrees(n, log + new_)
  {
    if new_ == [] {
      assert log + new_ == log;
    } else {
      var e := new_[0];
      assert new_ == [e];
      EventKeepsFate(s, n, log, e);
      EventKeepsShown(s, n, log, e);
      EventKeepsOrigin(s, n, log, e);
      EventKeepsClear(s, n, log, e);
      EventKeepsOrder(s, n, log, e);
    }
  }

  lemma StepKeepsAgreement(s: State, log: seq<Event>, a: Action)
    requires Inv(s) && Agrees(s, log) && Step(s, a).To?
    ensures Inv(Step(s, a).next) && Agrees(Step(s, a).next, log + Step(s, a).log)
  {
    StepKeepsInv(s, a);
    StepEffect(s, a);
    EffectKeepsAgreement(s, Step(s, a).next, log, Step(s, a).log);
  }

  lemma InitAgrees(stops: nat)
    ensures Inv(Init(stops)) && Agrees(Init(stops), [])
  {
    assert Committed([]) + Hand(DNone) + Waiting(0) == [];
    assert OrderAgrees(Init(stops), []);
    assert FateAgrees(Init(stops), LastFate([]));
    assert ClearAgrees(Init(stops), FirstClear([]));
    assert OriginAgrees(Init(stops), []);
  }

  lemma RunAgrees(stops: nat, acts: seq<Action>)
    requires Exec(Init(stops), acts).To?
    ensures Inv(Exec(Init(stops), acts).next)
    ensures Agrees(Exec(Init(stops), acts).next, Exec(Init(stops), acts).log)
  {
    var p := (t: State, l: seq<Event>) => Inv(t) && Agrees(t, l);
    forall t: State, l: seq<Event>, a: Action | p(t, l) && Step(t, a).To?
      ensures p(Step(t, a).next, l + Step(t, a).log)
    {
      StepKeepsAgreement(t, l, a);
    }
    InitAgrees(stops);
    RunInduction(Step, p, Init(stops), [], acts);
    assert [] + Exec(Init(stops), acts).log == Exec(Init(stops), acts).log;
  }

  // ---------- safety of every run ----------

  /** No lost wake-up: a sleeping display thread has nothing to do, or the wake-up is the next step of
      the lock's holder, which no other thread can prevent. */
  lemma NoLostWakeUp(stops: nat, acts: seq<Action>)
    requires Exec(Init(stops), acts).To?
    requires Exec(Init(stops), acts).next.d.DBlocked?
    ensures var s := Exec(Init(stops), acts).next;
            || (s.running && s.pending == 0)
            || (s.lock.HeldByFrame? && Step(s, FrameStep(NoFrame)).To? && Step(s, FrameStep(NoFrame)).next.d.DRelock?)
            || (s.lock.HeldByControl? && Step(s, ControlStep(true)).To? && Step(s, ControlStep(true)).next.d.DRelock?)
  {
    RunAgrees(stops, acts);
  }

  /** Commits are an in-order subsequence of the non-zero publications, and every publication is
      committed, in hand, waiting, or was overwritten: none appears from nowhere or twice. */
  lemma MailboxOrderAndConservation(stops: nat, acts: seq<Action>)
    requires Exec(Init(stops), acts).To?
    ensures var To(s, log) := Exec(Init(stops), acts);
            && IsSubsequence(Committed(log), Published(log))
            && |Published(log)| == |Committed(log)| + |Hand(s.d)| + |Waiting(s.pending)| + Overwritten(log)
  {
    RunAgrees(stops, acts);
    var To(s, log) := Exec(Init(stops), acts);
    assert Committed(log) + Hand(s.d) + Waiting(s.pending) == Committed(log) + (Hand(s.d) + Waiting(s.pending));
    SubsequencePrefix(Committed(log), Hand(s.d) + Waiting(s.pending), Published(log));
  }

  /** Drain at end of stream: when the frame thread is the first to clear running it has seen the
      end-of-stream flag, and by the time the display thread has exited the mailbox is empty and the id
      published last, unless that was 0, is the id committed last. */
  lemma EosDrain(stops: nat, acts: seq<Action>)
    requires Exec(Init(stops), acts).To?
    requires FirstClear(Exec(Init(stops), acts).log) == By(Frame)
    ensures var To(s, log) := Exec(Init(stops), acts);
            && s.eos
            && (s.d.DDone? ==>
                  && s.pending == 0
                  && (LastPublication(log) != 0 ==>
                        Committed(log) != [] && Committed(log)[|Committed(log)| - 1] == LastPublication(log)))
  {
    RunAgrees(stops, acts);
    FateIsOfLastPublication(Exec(Init(stops), acts).log);
  }

  /** What is committed is the id of one publication: the one the last Take found in the mailbox. */
  lemma CommitOrigin(stops: nat, acts: seq<Action>)
    requires Exec(Init(stops), acts).To? && Exec(Init(stops), acts).next.d.DCommit?
    ensures var To(s, log) := Exec(Init(stops), acts);
            && Step(s, DisplayStep).To? && Step(s, DisplayStep).log == [Commit(s.d.fb)]
            && IsPublication(log, HandAt(log), s.d.fb) && s.d.fb != 0
  {
    RunAgrees(stops, acts);
  }

  lemma {:induction false} StaysCleared(s: State, more: seq<Action>)
    requires Inv(s) && !s.running && Exec(s, more).To?
    ensures Inv(Exec(s, more).next) && !Exec(s, more).next.running
    decreases |more|
  {
    if more != [] {
      ReplayFirst(Step, s, more);
      StepKeepsInv(s, more[0]);
      StepEffect(s, more[0]);
      StaysCleared(Step(s, more[0]).next, more[1..]);
    }
  }

  // ---------- what becomes of the decoder's answers ----------

  /** The steps of the frame thread in a run. */
  function FrameSteps(acts: seq<Action>): nat {
    if acts == [] then 0 else (if acts[0].FrameStep? then 1 else 0) + FrameSteps(acts[1..])
  }

  predicate SaysLast(answer: Answer) { !answer.NoFrame? && answer.last }

  /** After the last answer: steps of the frame thread until it clears running; 0 when it is not on that way. */
  function LastRank(f: FramePc): nat {
    match f
    case FPubLock(_, last) => if last then 7 else 0
    case FStore(_, last) => if last then 6 else 0
    case FSignal(last) => if last then 5 else 0
    case FPubUnlock(last) => if last then 4 else 0
    case FEos(last) => if last then 3 else 0
    case FExitLock => 2
    case FExitStore => 1
    case _ => 0
  }

  /** After any other answer: steps until the frame thread asks again. */
  function BackRank(f: FramePc): nat {
    match f
    case FPubLock(_, _) => 6
    case FStore(_, _) => 5
    case FSignal(_) => 4
    case FPubUnlock(_) => 3
    case FEos(_) => 2
    case FCheck => 1
    case _ => 0
  }

  /** On the way back to the decoder, with eos_received already, or about to be, FALSE. */
  predicate GoingBack(s: State) {
    match s.f
    case FPubLock(_, last) => !last
    case FStore(_, last) => !last
    case FSignal(last) => !last
    case FPubUnlock(last) => !last
    case FEos(last) => !last
    case FCheck => !s.eos
    case FGet => !s.eos
    case _ => false
  }

  lemma DisplayLockedLeavesFrame(s: State)
    requires Inv(s) && !s.f.FNone? && DisplayHolds(s.d) && DisplayLocked(s).To?
    ensures DisplayLocked(s).next.f == s.f && DisplayLocked(s).next.eos == s.eos
  {
  }

  lemma DisplayOpenLeavesFrame(s: State)
    requires Inv(s) && !s.f.FNone? && DisplayFree(s.d) && DisplayOpen(s).To?
    ensures DisplayOpen(s).next.f == s.f && DisplayOpen(s).next.eos == s.eos
  {
  }

  lemma ControlStartLeavesFrame(s: State, created: bool)
    requires Inv(s) && !s.f.FNone? && Starting(s.c) && ControlStart(s, created).To?
    ensures ControlStart(s, created).next.f == s.f && ControlStart(s, created).next.eos == s.eos
  {
  }

  lemma ControlLockedLeavesFrame(s: State)
    requires Inv(s) && !s.f.FNone? && ControlHolds(s.c) && ControlLocked(s).To?
    ensures ControlLocked(s).next.f == s.f && ControlLocked(s).next.eos == s.eos
  {
  }

  lemma ControlOpenLeavesFrame(s: State)
    requires Inv(s) && !s.f.FNone? && ControlFree(s.c) && ControlOpen(s).To?
    ensures ControlOpen(s).next.f == s.f && ControlOpen(s).next.eos == s.eos
  {
  }

  lemma OthersLeaveFrame(s: State, a: Action)
    requires Inv(s) && !a.FrameStep? && !s.f.FNone? && Step(s, a).To?
    ensures Step(s, a).next.f == s.f && Step(s, a).next.eos == s.eos
  {
    match a
    case DisplayStep =>
      if DisplayHolds(s.d) {
        DisplayLockedLeavesFrame(s);
      } else {
        DisplayOpenLeavesFrame(s);
      }
    case SpuriousWake =>
    case ControlStep(created) =>
      if Starting(s.c) {
        ControlStartLeavesFrame(s, created);
      } else if ControlHolds(s.c) {
        ControlLockedLeavesFrame(s);
      } else {
        ControlOpenLeavesFrame(s);
      }
  }

  lemma FrameStepEnds(s: State, answer: Answer)
    requires LastRank(s.f) > 0 && StepFrame(s, answer).To?
    ensures var To(n, log) := StepFrame(s, answer);
            log == [Clear(Frame)] || LastRank(n.f) == LastRank(s.f) - 1 > 0
  {
  }

  lemma {:induction false} EndsAtLast(s: State, more: seq<Action>)
    requires Inv(s) && LastRank(s.f) > 0 && Exec(s, more).To? && FrameSteps(more) >= LastRank(s.f)
    ensures Clear(Frame) in Exec(s, more).log
    decreases |more|
  {
    ReplayFirst(Step, s, more);
    var To(n, l) := Step(s, more[0]);
    StepKeepsInv(s, more[0]);
    if more[0].FrameStep? {
      FrameStepEnds(s, more[0].answer);
      if l != [Clear(Frame)] {
        EndsAtLast(n, more[1..]);
      }
    } else {
      OthersLeaveFrame(s, more[0]);
      EndsAtLast(n, more[1..]);
    }
  }

  /** End of stream ends the frame thread: whatever the answer that carries the end-of-stream flag (a picture,
      one skipped, an info change), under every schedule that thread clears running within its next seven
      steps. */
  lemma LastAnswerEndsTheStream(stops: nat, acts: seq<Action>, answer: Answer, more: seq<Action>)
    requires Exec(Init(stops), acts).To? && Exec(Init(stops), acts).next.f.FGet? && SaysLast(answer)
    requires Exec(Step(Exec(Init(stops), acts).next, FrameStep(answer)).next, more).To? && FrameSteps(more) >= 7
    ensures Clear(Frame) in Exec(Step(Exec(Init(stops), acts).next, FrameStep(answer)).next, more).log
  {
    RunAgrees(stops, acts);
    var s := Exec(Init(stops), acts).next;
    StepKeepsInv(s, FrameStep(answer));
    EndsAtLast(Step(s, FrameStep(answer)).next, more);
  }

  lemma FrameStepReturns(s: State, answer: Answer)
    requires Inv(s) && s.running && GoingBack(s) && BackRank(s.f) > 0 && StepFrame(s, answer).To?
    ensures var n := StepFrame(s, answer).next;
            n.running && GoingBack(n) && BackRank(n.f) == BackRank(s.f) - 1
  {
  }

  lemma {:induction false} ReturnsToDecoder(s: State, more: seq<Action>)
    requires Inv(s) && GoingBack(s) && Exec(s, more).To? && Exec(s, more).next.running
    requires FrameSteps(more) == BackRank(s.f)
    ensures Exec(s, more).next.f.FGet? && !Exec(s, more).next.eos
    decreases |more|
  {
    if more != [] {
      ReplayFirst(Step, s, more);
      var n := Step(s, more[0]).next;
      StepKeepsInv(s, more[0]);
      if !s.running {
        StaysCleared(s, more);
      }
      if more[0].FrameStep? {
        FrameStepReturns(s, more[0].answer);
      } else {
        OthersLeaveFrame(s, more[0]);
      }
      ReturnsToDecoder(n, more[1..]);
    }
  }

  /** Every other answer keeps the stream going: after a picture, a skipped one or an info change that is not
      the last, the frame thread is back at the decoder when it has taken the steps of its round, unless
      running is cleared meanwhile. */
  lemma OtherAnswersReturn(stops: nat, acts: seq<Action>, answer: Answer, more: seq<Action>)
    requires Exec(Init(stops), acts).To? && Exec(Init(stops), acts).next.f.FGet?
    requires !answer.NoFrame? && !answer.last
    requires var n := Step(Exec(Init(stops), acts).next, FrameStep(answer)).next;
             && Exec(n, more).To? && Exec(n, more).next.running
             && FrameSteps(more) == (if answer.Picture? then 6 else 2)
    ensures var end := Exec(Step(Exec(Init(stops), acts).next, FrameStep(answer)).next, more).next;
            end.f.FGet? && !end.eos
  {
    RunAgrees(stops, acts);
    var s := Exec(Init(stops), acts).next;
    StepKeepsInv(s, FrameStep(answer));
    ReturnsToDecoder(Step(s, FrameStep(answer)).next, more);
  }

  /** The picture a step brings. */
  function Gets(s: State, a: Action): seq<FbId> {
    if s.f.FGet? && a.FrameStep? && a.answer.Picture? then [a.answer.fb] else []
  }

  /** The ids of the pictures the decoder has answered with in a run from s, in order. */
  function Received(s: State, acts: seq<Action>): seq<FbId>
    requires Exec(s, acts).To?
    decreases |acts|
  {
    if acts == [] then [] else
      ReplayFirst(Step, s, acts);
      Gets(s, acts[0]) + Received(Step(s, acts[0]).next, acts[1..])
  }

  function AllPublished(log: seq<Event>): seq<FbId> {
    if log == [] then [] else (if log[0].Publish? then [log[0].fb] else []) + AllPublished(log[1..])
  }

  /** The picture the frame thread has and has not published yet. */
  function InFlight(f: FramePc): seq<FbId> {
    match f
    case FPubLock(fb, _) => [fb]
    case FStore(fb, _) => [fb]
    case _ => []
  }

  lemma AllPublishedAppend(a: seq<Event>, b: seq<Event>)
    ensures AllPublished(a + b) == AllPublished(a) + AllPublished(b)
  {
    if a == [] {
      assert a + b == b;
    } else {
      assert (a + b)[1..] == a[1..] + b;
      AllPublishedAppend(a[1..], b);
    }
  }

  predicate Passes(s: State, got: seq<FbId>, n: State, log: seq<Event>) {
    InFlight(s.f) + got == (if log != [] && log[0].Publish? then [log[0].fb] else []) + InFlight(n.f)
  }

  lemma FrameLoopPasses(s: State, answer: Answer)
    requires Polling(s.f) && FrameLoop(s, answer).To?
    ensures Passes(s, Gets(s, FrameStep(answer)), FrameLoop(s, answer).next, FrameLoop(s, answer).log)
  {
  }

  lemma FramePublishPasses(s: State)
    requires Publishing(s.f) && FramePublish(s).To?
    ensures Passes(s, [], FramePublish(s).next, FramePublish(s).log)
  {
  }

  lemma FrameExitPasses(s: State)
    requires FrameLeaving(s.f) && FrameExit(s).To?
    ensures Passes(s, [], FrameExit(s).next, FrameExit(s).log)
  {
  }

  lemma StepPasses(s: State, a: Action)
    requires Inv(s) && Step(s, a).To?
    ensures Passes(s, Gets(s, a), Step(s, a).next, Step(s, a).log)
  {
    StepEffect(s, a);
    if a.FrameStep? {
      if Polling(s.f) {
        FrameLoopPasses(s, a.answer);
      } else if Publishing(s.f) {
        FramePublishPasses(s);
      } else {
        FrameExitPasses(s);
      }
    } else {
      OthersPublishNothing(s, a);
      if !s.f.FNone? {
        OthersLeaveFrame(s, a);
      }
    }
  }

  lemma OthersPublishNothing(s: State, a: Action)
    requires Inv(s) && !a.FrameStep? && Step(s, a).To?
    ensures Step(s, a).log != [] ==> !Step(s, a).log[0].Publish?
    ensures s.f.FNone? ==> InFlight(Step(s, a).next.f) == []
  {
  }

  lemma OneEvent(log: seq<Event>)
    requires |log| <= 1
    ensures AllPublished(log) == if log != [] && log[0].Publish? then [log[0].fb] else []
  {
    if log != [] {
      assert log[1..] == [];
    }
  }

  lemma PassedOn(a: seq<FbId>, got: seq<FbId>, p: seq<FbId>, h: seq<FbId>, later: seq<FbId>, q: seq<FbId>, t: seq<FbId>)
    requires a + got == p + h && h + later == q + t
    ensures a + (got + later) == (p + q) + t
  {
    assert a + (got + later) == (a + got) + later == (p + h) + later == p + (h + later) == p + (q + t);
  }

  lemma {:induction false} ReceivedIsPublished(s: State, acts: seq<Action>)
    requires Inv(s) && Exec(s, acts).To?
    ensures InFlight(s.f) + Received(s, acts) == AllPublished(Exec(s, acts).log) + InFlight(Exec(s, acts).next.f)
    decreases |acts|
  {
    if acts != [] {
      ReplayFirst(Step, s, acts);
      var To(n, l) := Step(s, acts[0]);
      var rest := Exec(n, acts[1..]);
      StepKeepsInv(s, acts[0]);
      StepPasses(s, acts[0]);
      StepEffect(s, acts[0]);
      OneEvent(l);
      ReceivedIsPublished(n, acts[1..]);
      AllPublishedAppend(l, rest.log);
      PassedOn(InFlight(s.f), Gets(s, acts[0]), AllPublished(l), InFlight(n.f), Received(n, acts[1..]),
               AllPublished(rest.log), InFlight(rest.next.f));
    }
  }

  /** Every picture is published, once and in order: the ids the decoder has answered with are those published
      so far, followed by the one the frame thread is about to publish. */
  lemma EveryPictureIsPublished(stops: nat, acts: seq<Action>)
    requires Exec(Init(stops), acts).To?
    ensures var To(s, log) := Exec(Init(stops), acts);
            Received(Init(stops), acts) == AllPublished(log) + InFlight(s.f)
  {
    InitAgrees(stops);
    ReceivedIsPublished(Init(stops), acts);
    assert InFlight(FNone) + Received(Init(stops), acts) == Received(Init(stops), acts);
  }

  // ---------- what start and stop achieve ----------

  predicate ThreadsOut(s: State) { (s.f.FNone? || s.f.FDone?) && (s.d.DNone? || s.d.DDone?) }

  /** The handles against the threads. */
  predicate HandleInv(s: State) {
    && (!s.frameHandle && !s.c.CSpawnFrame? ==> s.f.FNone? || s.f.FDone?)
    && (!s.displayHandle ==> s.d.DNone? || s.d.DDone?)
    && (s.c.CSpawnFrame? ==> !s.frameHandle)
    && (s.c.CSpawnDisplay? || s.c.CUndoJoin? ==> s.frameHandle)
    && (Starting(s.c) ==> !s.displayHandle)
    && (s.c.CJoinDisplay? ==> !s.frameHandle)
    && (s.c.CIdle? ==> s.frameHandle == s.displayHandle && (!s.frameHandle ==> !s.running))
  }

  /** Before the first stop, and after one; made: no thread creation has failed. */
  predicate StageInv(s: State, stops: nat, made: bool) {
    && s.stops <= stops
    && (Starting(s.c) ==> s.stops == stops)
    && (s.stops == stops ==> Starting(s.c) || s.c.CIdle?)
    && (s.c.CSpawnFrame? || s.c.CSpawnDisplay? ==> made)
    && (s.c.CUndoJoin? ==> !made)
    && (s.stops == stops && s.c.CIdle? ==> s.frameHandle == made)
    && (s.stops < stops && s.c.CIdle? ==> !s.frameHandle && !s.running)
  }

  /** What the other threads do to the controller's books: nothing. */
  lemma OthersLeaveControl(s: State, a: Action)
    requires Inv(s) && !a.ControlStep? && Step(s, a).To?
    ensures var n := Step(s, a).next;
            && n.c == s.c && n.stops == s.stops && n.frameHandle == s.frameHandle && n.displayHandle == s.displayHandle
            && (n.running ==> s.running)
            && (s.f.FNone? || s.f.FDone? ==> n.f == s.f) && (s.d.DNone? || s.d.DDone? ==> n.d == s.d)
  {
    match a
    case FrameStep(answer) =>
      if Polling(s.f) {
        FrameLoopLeavesControl(s, answer);
      } else if Publishing(s.f) {
        FramePublishLeavesControl(s);
      } else {
        FrameExitLeavesControl(s);
      }
    case DisplayStep =>
    case SpuriousWake =>
  }

  predicate LeavesControl(s: State, n: State) {
    && n.c == s.c && n.stops == s.stops && n.frameHandle == s.frameHandle && n.displayHandle == s.displayHandle
    && (n.running ==> s.running) && (s.d.DNone? || s.d.DDone? ==> n.d == s.d)
  }

  lemma FrameLoopLeavesControl(s: State, answer: Answer)
    requires Polling(s.f) && FrameLoop(s, answer).To?
    ensures LeavesControl(s, FrameLoop(s, answer).next)
  {
  }

  lemma FramePublishLeavesControl(s: State)
    requires Publishing(s.f) && FramePublish(s).To?
    ensures LeavesControl(s, FramePublish(s).next)
  {
  }

  lemma FrameExitLeavesControl(s: State)
    requires FrameLeaving(s.f) && FrameExit(s).To?
    ensures LeavesControl(s, FrameExit(s).next)
  {
  }

  lemma ControlKeepsHandles(s: State, created: bool)
    requires Inv(s) && HandleInv(s) && StepControl(s, created).To?
    ensures HandleInv(StepControl(s, created).next)
  {
    if Starting(s.c) {
      assert HandleInv(ControlStart(s, created).next);
    } else if ControlHolds(s.c) {
      assert HandleInv(ControlLocked(s).next);
    } else {
      assert HandleInv(ControlOpen(s).next);
    }
  }

  lemma ControlKeepsStage(s: State, created: bool, stops: nat, made: bool)
    requires Inv(s) && HandleInv(s) && StageInv(s, stops, made) && StepControl(s, created).To?
    ensures StageInv(StepControl(s, created).next, stops, made && created)
  {
    if Starting(s.c) {
      assert StageInv(ControlStart(s, created).next, stops, made && created);
    } else if ControlHolds(s.c) {
      assert StageInv(ControlLocked(s).next, stops, made && created);
    } else {
      assert StageInv(ControlOpen(s).next, stops, made && created);
    }
  }

  /** Every thread the controller tries to make is made. */
  predicate NeverFails(acts: seq<Action>) {
    if acts == [] then true else acts[0] != ControlStep(false) && NeverFails(acts[1..])
  }

  lemma {:induction false} RunKeepsCalls(s: State, acts: seq<Action>, stops: nat, made: bool)
    requires Inv(s) && HandleInv(s) && StageInv(s, stops, made) && Exec(s, acts).To?
    ensures HandleInv(Exec(s, acts).next) && StageInv(Exec(s, acts).next, stops, made && NeverFails(acts))
    decreases |acts|
  {
    if acts != [] {
      ReplayFirst(Step, s, acts);
      var a := acts[0];
      StepKeepsInv(s, a);
      if a.ControlStep? {
        ControlKeepsHandles(s, a.created);
        ControlKeepsStage(s, a.created, stops, made);
        RunKeepsCalls(Step(s, a).next, acts[1..], stops, made && a.created);
      } else {
        OthersLeaveControl(s, a);
        RunKeepsCalls(Step(s, a).next, acts[1..], stops, made);
      }
    }
  }

  /** What the controller's calls achieve, whatever the threads do meanwhile.  When start has returned there are
      both threads if each could be made, and otherwise none, with running FALSE and everything undone.  When a
      stop has returned running is FALSE and both threads are out and joined. */
  lemma CallsAchieve(stops: nat, acts: seq<Action>)
    requires Exec(Init(stops), acts).To? && Exec(Init(stops), acts).next.c.CIdle?
    ensures var s := Exec(Init(stops), acts).next;
            if s.stops == stops && NeverFails(acts) then s.frameHandle && s.displayHandle
            else !s.running && !s.frameHandle && !s.displayHandle && ThreadsOut(s)
  {
    InitAgrees(stops);
    RunKeepsCalls(Init(stops), acts, stops, true);
  }

  // ---------- a waiting picture is taken soon ----------

  function DisplaySteps(acts: seq<Action>): nat {
    if acts == [] then 0 else (if acts[0].DisplayStep? then 1 else 0) + DisplaySteps(acts[1..])
  }

  predicate TakesOrWithdraws(e: Event) { (e.Take? && e.fb != 0) || (e.Publish? && e.fb == 0) }

  /** Steps of the display thread until it takes what is waiting, at most. */
  function TakeRank(d: DisplayPc): nat {
    match d
    case DTake => 1
    case DTest => 2
    case DCommit(_, _) => 4
    case DUnlock(_, _) => 5
    case _ => 3
  }

  predicate Nears(s: State, n: State, log: seq<Event>, steps: nat) {
    || (log != [] && TakesOrWithdraws(log[0]))
    || (n.pending != 0 && !LastRound(n.d) && TakeRank(n.d) + steps <= TakeRank(s.d))
  }

  lemma FrameLoopNears(s: State, answer: Answer)
    requires Inv(s) && s.pending != 0 && !LastRound(s.d) && Polling(s.f) && FrameLoop(s, answer).To?
    ensures Nears(s, FrameLoop(s, answer).next, FrameLoop(s, answer).log, 0)
  {
  }

  lemma FramePublishNears(s: State)
    requires Inv(s) && s.pending != 0 && !LastRound(s.d) && Publishing(s.f) && FramePublish(s).To?
    ensures Nears(s, FramePublish(s).next, FramePublish(s).log, 0)
  {
  }

  lemma FrameExitNears(s: State)
    requires Inv(s) && s.pending != 0 && !LastRound(s.d) && FrameLeaving(s.f) && FrameExit(s).To?
    ensures Nears(s, FrameExit(s).next, FrameExit(s).log, 0)
  {
  }

  lemma DisplayLockedNears(s: State)
    requires Inv(s) && s.pending != 0 && !LastRound(s.d) && DisplayHolds(s.d) && DisplayLocked(s).To?
    ensures Nears(s, DisplayLocked(s).next, DisplayLocked(s).log, 1)
  {
  }

  lemma DisplayOpenNears(s: State)
    requires Inv(s) && s.pending != 0 && !LastRound(s.d) && DisplayFree(s.d) && DisplayOpen(s).To?
    ensures Nears(s, DisplayOpen(s).next, DisplayOpen(s).log, 1)
  {
  }

  lemma ControlStartNears(s: State, created: bool)
    requires Inv(s) && s.pending != 0 && !LastRound(s.d) && Starting(s.c) && ControlStart(s, created).To?
    ensures Nears(s, ControlStart(s, created).next, ControlStart(s, created).log, 0)
  {
  }

  lemma ControlLockedNears(s: State)
    requires Inv(s) && s.pending != 0 && !LastRound(s.d) && ControlHolds(s.c) && ControlLocked(s).To?
    ensures Nears(s, ControlLocked(s).next, ControlLocked(s).log, 0)
  {
  }

  lemma ControlOpenNears(s: State)
    requires Inv(s) && s.pending != 0 && !LastRound(s.d) && ControlFree(s.c) && ControlOpen(s).To?
    ensures Nears(s, ControlOpen(s).next, ControlOpen(s).log, 0)
  {
  }

  lemma StepNears(s: State, a: Action)
    requires Inv(s) && s.pending != 0 && !LastRound(s.d) && Step(s, a).To?
    ensures Nears(s, Step(s, a).next, Step(s, a).log, if a.DisplayStep? then 1 else 0)
  {
    match a
    case FrameStep(answer) =>
      if Polling(s.f) {
        FrameLoopNears(s, answer);
      } else if Publishing(s.f) {
        FramePublishNears(s);
      } else {
        FrameExitNears(s);
      }
    case DisplayStep =>
      if DisplayHolds(s.d) {
        DisplayLockedNears(s);
      } else {
        DisplayOpenNears(s);
      }
    case SpuriousWake =>
    case ControlStep(created) =>
      if Starting(s.c) {
        ControlStartNears(s, created);
      } else if ControlHolds(s.c) {
        ControlLockedNears(s);
      } else {
        ControlOpenNears(s);
      }
  }

  lemma {:induction false} WaitingIsTaken(s: State, more: seq<Action>)
    requires Inv(s) && s.pending != 0 && !LastRound(s.d) && Exec(s, more).To?
    requires DisplaySteps(more) >= TakeRank(s.d)
    ensures exists e <- Exec(s, more).log :: TakesOrWithdraws(e)
    decreases |more|
  {
    ReplayFirst(Step, s, more);
    var To(n, l) := Step(s, more[0]);
    var rest := Exec(n, more[1..]).log;
    StepKeepsInv(s, more[0]);
    StepNears(s, more[0]);
    if l != [] && TakesOrWithdraws(l[0]) {
      assert (l + rest)[0] == l[0];
    } else {
      WaitingIsTaken(n, more[1..]);
      var e :| e in rest && TakesOrWithdraws(e);
      assert e in l + rest;
    }
  }

  /** A picture in the mailbox is taken within the display thread's next five steps, or replaced by nothing
      (an id 0), unless that thread is already on its way out; no other thread's steps can delay it. */
  lemma WaitingPictureIsTaken(stops: nat, acts: seq<Action>, more: seq<Action>)
    requires Exec(Init(stops), acts).To?
    requires Exec(Init(stops), acts).next.pending != 0 && !LastRound(Exec(Init(stops), acts).next.d)
    requires Exec(Exec(Init(stops), acts).next, more).To? && DisplaySteps(more) >= 5
    ensures exists e <- Exec(Exec(Init(stops), acts).next, more).log :: TakesOrWithdraws(e)
  {
    RunAgrees(stops, acts);
    WaitingIsTaken(Exec(Init(stops), acts).next, more);
  }

  // ---------- shutdown ----------

  function FrameRank(f: FramePc): nat {
    match f
    case FNone => 0
    case FDone => 0
    case FExitUnlock => 1
    case FExitBroadcast => 2
    case FExitStore => 3
    case FExitLock => 4
    case FCheck => 5
    case FEos(_) => 6
    case FPubUnlock(_) => 7
    case FSignal(_) => 8
    case FStore(_, _) => 9
    case FPubLock(_, _) => 10
    case FGet => 11
  }

  function DisplayRank(d: DisplayPc): nat {
    match d
    case DNone => 0
    case DDone => 0
    case DCommit(_, still) => if still then 8 else 1
    case DUnlock(_, still) => if still then 9 else 2
    case DTake => 3
    case DTest => 4
    case DRelock => 5
    case DBlocked => 6
    case DLock => 7
  }

  function ControlRank(c: ControlPc): nat {
    match c
    case CIdle => 0
    case CUndoJoin => 1
    case CJoinDisplay => 1
    case CJoinFrame => 2
    case CStopUnlock => 3
    case CStopBroadcast => 4
    case CStopStore => 5
    case CStopLock => 6
    case CSpawnDisplay => 8
    case CSpawnFrame => 20
  }

  /** An upper bound on the steps that remain once running is FALSE. */
  function Remaining(s: State): nat {
    FrameRank(s.f) + DisplayRank(s.d) + ControlRank(s.c) + 7 * s.stops
  }

  function CommitBudget(s: State): nat {
    match s.d
    case DDone => 0
    case DNone => if s.c.CSpawnDisplay? then 1 else 0
    case DCommit(_, still) => if still then 2 else 1
    case DUnlock(fb, still) => if still then 2 else if fb != 0 then 1 else 0
    case _ => 1
  }

  function PublishBudget(s: State): nat {
    if s.f.FGet? || s.f.FPubLock? || s.f.FStore? then 1 else 0
  }

  /** One step of a shutdown: the bound on remaining steps shrinks, and every commit or publication is
      paid for out of a budget. */
  predicate Winds(s: State, n: State, log: seq<Event>) {
    && Remaining(n) < Remaining(s)
    && CountCommits(log) + CommitBudget(n) <= CommitBudget(s)
    && CountPublications(log) + PublishBudget(n) <= PublishBudget(s)
  }

  lemma FrameLoopWinds(s: State, answer: Answer)
    requires Inv(s) && !s.running && Polling(s.f) && FrameLoop(s, answer).To?
    ensures Winds(s, FrameLoop(s, answer).next, FrameLoop(s, answer).log)
  {
  }

  lemma FramePublishWinds(s: State)
    requires Inv(s) && !s.running && Publishing(s.f) && FramePublish(s).To?
    ensures Winds(s, FramePublish(s).next, FramePublish(s).log)
  {
  }

  lemma FrameExitWinds(s: State)
    requires Inv(s) && !s.running && FrameLeaving(s.f) && FrameExit(s).To?
    ensures Winds(s, FrameExit(s).next, FrameExit(s).log)
  {
  }

  lemma DisplayLockedWinds(s: State)
    requires Inv(s) && !s.running && DisplayHolds(s.d) && DisplayLocked(s).To?
    ensures Winds(s, DisplayLocked(s).next, DisplayLocked(s).log)
  {
  }

  lemma DisplayOpenWinds(s: State)
    requires Inv(s) && !s.running && DisplayFree(s.d) && DisplayOpen(s).To?
    ensures Winds(s, DisplayOpen(s).next, DisplayOpen(s).log)
  {
  }

  lemma ControlStartWinds(s: State, created: bool)
    requires Inv(s) && !s.running && Starting(s.c) && ControlStart(s, created).To?
    ensures Winds(s, ControlStart(s, created).next, ControlStart(s, created).log)
  {
  }

  lemma ControlLockedWinds(s: State)
    requires Inv(s) && !s.running && ControlHolds(s.c) && ControlLocked(s).To?
    ensures Winds(s, ControlLocked(s).next, ControlLocked(s).log)
  {
  }

  lemma ControlOpenWinds(s: State)
    requires Inv(s) && !s.running && ControlFree(s.c) && ControlOpen(s).To?
    ensures Winds(s, ControlOpen(s).next, ControlOpen(s).log)
  {
  }

  lemma StepWinds(s: State, a: Action)
    requires Inv(s) && !s.running && Step(s, a).To?
    ensures Winds(s, Step(s, a).next, Step(s, a).log)
  {
    match a
    case FrameStep(answer) =>
      if Polling(s.f) {
        FrameLoopWinds(s, answer);
      } else if Publishing(s.f) {
        FramePublishWinds(s);
      } else {
        FrameExitWinds(s);
      }
    case DisplayStep =>
      if DisplayHolds(s.d) {
        DisplayLockedWinds(s);
      } else {
        DisplayOpenWinds(s);
      }
    case SpuriousWake =>
    case ControlStep(created) =>
      if Starting(s.c) {
        ControlStartWinds(s, created);
      } else if ControlHolds(s.c) {
        ControlLockedWinds(s);
      } else {
        ControlOpenWinds(s);
      }
  }

  predicate Finished(s: State) {
    && (s.f.FNone? || s.f.FDone?)
    && (s.d.DNone? || s.d.DDone?)
    && s.c.CIdle? && s.stops == 0
  }

  /** Without any spurious wake-up: if something is left to do, somebody can do it. */
  lemma ShutdownNeverStuck(s: State)
    requires Inv(s) && !s.running && !Finished(s)
    ensures exists a: Action :: !a.SpuriousWake? && Step(s, a).To?
  {
    var byFrame, byDisplay, byControl := FrameStep(NoFrame), DisplayStep, ControlStep(true);
    match s.lock
    case HeldByFrame => assert Step(s, byFrame).To?;
    case HeldByDisplay => assert Step(s, byDisplay).To?;
    case HeldByControl => assert Step(s, byControl).To?;
    case Free =>
      if !s.f.FNone? && !s.f.FDone? {
        assert Step(s, byFrame).To?;
      } else if !s.d.DNone? && !s.d.DDone? {
        assert Step(s, byDisplay).To?;
      } else {
        assert Step(s, byControl).To?;
      }
  }

  lemma {:induction false} ShutdownBounded(s: State, more: seq<Action>)
    requires Inv(s) && !s.running && Exec(s, more).To?
    ensures |more| + Remaining(Exec(s, more).next) <= Remaining(s)
    decreases |more|
  {
    if more != [] {
      ReplayFirst(Step, s, more);
      StepEffect(s, more[0]);
      StepWinds(s, more[0]);
      StepKeepsInv(s, more[0]);
      ShutdownBounded(Step(s, more[0]).next, more[1..]);
    }
  }

  /** Shutdown progress: from every reachable state in which running is FALSE, under every schedule and
      with no fairness assumed, at most Remaining(s) steps can still happen, and a run that cannot be
      continued (even when no spurious wake-up occurs) has both threads out and every join returned. */
  lemma ShutdownProgress(stops: nat, acts: seq<Action>, more: seq<Action>)
    requires Exec(Init(stops), acts).To? && !Exec(Init(stops), acts).next.running
    requires Exec(Exec(Init(stops), acts).next, more).To?
    ensures var s := Exec(Init(stops), acts).next;
            var n := Exec(s, more).next;
            && |more| <= Remaining(s)
            && (Finished(n) <==> forall a: Action :: !a.SpuriousWake? ==> Step(n, a).Stuck?)
  {
    RunAgrees(stops, acts);
    var s := Exec(Init(stops), acts).next;
    ShutdownBounded(s, more);
    StaysCleared(s, more);
    var n := Exec(s, more).next;
    if !Finished(n) {
      ShutdownNeverStuck(n);
    }
  }

  /** The lock is never held across anything that can block: its holder can always step. */
  lemma LockHolderCanStep(stops: nat, acts: seq<Action>)
    requires Exec(Init(stops), acts).To?
    ensures var s := Exec(Init(stops), acts).next;
            match s.lock
            case Free => true
            case HeldByFrame => Step(s, FrameStep(NoFrame)).To?
            case HeldByDisplay => Step(s, DisplayStep).To?
            case HeldByControl => Step(s, ControlStep(true)).To?
  {
    RunAgrees(stops, acts);
  }

  lemma CountAppend(a: seq<Event>, b: seq<Event>)
    ensures CountCommits(a + b) == CountCommits(a) + CountCommits(b)
    ensures CountPublications(a + b) == CountPublications(a) + CountPublications(b)
  {
    if a == [] {
      assert a + b == b;
    } else {
      assert (a + b)[1..] == a[1..] + b;
      CountAppend(a[1..], b);
    }
  }

  lemma {:induction false} AfterClearBounded(s: State, more: seq<Action>)
    requires Inv(s) && !s.running && Exec(s, more).To?
    ensures CountCommits(Exec(s, more).log) <= CommitBudget(s)
    ensures CountPublications(Exec(s, more).log) <= PublishBudget(s)
    decreases |more|
  {
    if more != [] {
      ReplayFirst(Step, s, more);
      var To(m, l) := Step(s, more[0]);
      StepKeepsInv(s, more[0]);
      StepEffect(s, more[0]);
      StepWinds(s, more[0]);
      AfterClearBounded(m, more[1..]);
      CountAppend(l, Exec(m, more[1..]).log);
    }
  }

  /** Once running is FALSE, whatever the schedule, the display thread commits at most twice more and
      the frame thread publishes at most once more. */
  lemma AfterClearAtMostTwoCommits(stops: nat, acts: seq<Action>, more: seq<Action>)
    requires Exec(Init(stops), acts).To? && !Exec(Init(stops), acts).next.running
    requires Exec(Exec(Init(stops), acts).next, more).To?
    ensures CountCommits(Exec(Exec(Init(stops), acts).next, more).log) <= 2
    ensures CountPublications(Exec(Exec(Init(stops), acts).next, more).log) <= 1
  {
    RunAgrees(stops, acts);
    AfterClearBounded(Exec(Init(stops), acts).next, more);
  }

  lemma {:induction false} RunKeepsInv(s: State, more: seq<Action>)
    requires Inv(s) && Exec(s, more).To?
    ensures Inv(Exec(s, more).next)
    decreases |more|
  {
    if more != [] {
      ReplayFirst(Step, s, more);
      StepKeepsInv(s, more[0]);
      RunKeepsInv(Step(s, more[0]).next, more[1..]);
    }
  }

  // ---------- exactly when an info change endangers a commit ----------

  /** The display thread, or one still to be made, will look into the mailbox again. */
  predicate WillLook(s: State) {
    !LastRound(s.d) && (s.d.DNone? ==> s.c.CSpawnFrame? || s.c.CSpawnDisplay?)
  }

  /** Nobody starts to look, and whoever takes was going to. */
  predicate LooksOnly(s: State, n: State, log: seq<Event>) {
    (WillLook(n) ==> WillLook(s)) && (log != [] && log[0].Take? && s.pending != 0 ==> WillLook(s))
  }

  lemma FrameLoopLooks(s: State, answer: Answer)
    requires Inv(s) && Polling(s.f) && FrameLoop(s, answer).To?
    ensures LooksOnly(s, FrameLoop(s, answer).next, FrameLoop(s, answer).log)
  {
  }

  lemma FramePublishLooks(s: State)
    requires Inv(s) && Publishing(s.f) && FramePublish(s).To?
    ensures LooksOnly(s, FramePublish(s).next, FramePublish(s).log)
  {
  }

  lemma FrameExitLooks(s: State)
    requires Inv(s) && FrameLeaving(s.f) && FrameExit(s).To?
    ensures LooksOnly(s, FrameExit(s).next, FrameExit(s).log)
  {
  }

  lemma DisplayLockedLooks(s: State)
    requires Inv(s) && DisplayHolds(s.d) && DisplayLocked(s).To?
    ensures LooksOnly(s, DisplayLocked(s).next, DisplayLocked(s).log)
  {
  }

  lemma DisplayOpenLooks(s: State)
    requires Inv(s) && DisplayFree(s.d) && DisplayOpen(s).To?
    ensures LooksOnly(s, DisplayOpen(s).next, DisplayOpen(s).log)
  {
  }

  lemma ControlStartLooks(s: State, created: bool)
    requires Inv(s) && Starting(s.c) && ControlStart(s, created).To?
    ensures LooksOnly(s, ControlStart(s, created).next, ControlStart(s, created).log)
  {
  }

  lemma ControlLockedLooks(s: State)
    requires Inv(s) && ControlHolds(s.c) && ControlLocked(s).To?
    ensures LooksOnly(s, ControlLocked(s).next, ControlLocked(s).log)
  {
  }

  lemma ControlOpenLooks(s: State)
    requires Inv(s) && ControlFree(s.c) && ControlOpen(s).To?
    ensures LooksOnly(s, ControlOpen(s).next, ControlOpen(s).log)
  {
  }

  lemma StepLooks(s: State, a: Action)
    requires Inv(s) && Step(s, a).To?
    ensures LooksOnly(s, Step(s, a).next, Step(s, a).log)
  {
    match a
    case FrameStep(answer) =>
      if Polling(s.f) {
        FrameLoopLooks(s, answer);
      } else if Publishing(s.f) {
        FramePublishLooks(s);
      } else {
        FrameExitLooks(s);
      }
    case DisplayStep =>
      if DisplayHolds(s.d) {
        DisplayLockedLooks(s);
      } else {
        DisplayOpenLooks(s);
      }
    case SpuriousWake =>
    case ControlStep(created) =>
      if Starting(s.c) {
        ControlStartLooks(s, created);
      } else if ControlHolds(s.c) {
        ControlLockedLooks(s);
      } else {
        ControlOpenLooks(s);
      }
  }

  /** No id published before event k is in hand, or waits for somebody who will look. */
  predicate Fresh(s: State, log: seq<Event>, k: nat) {
    && (Hand(s.d) != [] ==> HandAt(log) >= k)
    && (s.pending != 0 && WillLook(s) ==> PendingAt(log) >= k)
  }

  lemma EventKeepsFresh(s: State, n: State, log: seq<Event>, e: Event, k: nat)
    requires Inv(s) && EventEffect(s, n, e) && LooksOnly(s, n, [e]) && Fresh(s, log, k) && k <= |log|
    ensures Fresh(n, log + [e], k)
  {
    OriginSnoc(log, e);
  }

  lemma {:induction false} StaysFresh(s: State, log: seq<Event>, k: nat, more: seq<Action>)
    requires Inv(s) && Fresh(s, log, k) && k <= |log| && Exec(s, more).To?
    ensures Fresh(Exec(s, more).next, log + Exec(s, more).log, k)
    decreases |more|
  {
    if more == [] {
      assert log + [] == log;
    } else {
      ReplayFirst(Step, s, more);
      var To(n, l) := Step(s, more[0]);
      StepKeepsInv(s, more[0]);
      StepEffect(s, more[0]);
      StepLooks(s, more[0]);
      if l == [] {
        assert log + l == log;
      } else {
        assert l == [l[0]];
        EventKeepsFresh(s, n, log, l[0], k);
      }
      StaysFresh(n, log + l, k, more[1..]);
      assert (log + l) + Exec(n, more[1..]).log == log + Exec(s, more).log;
    }
  }

  /** An id published before event k is in hand, or waits for somebody who will look. */
  predicate Endangered(s: State, log: seq<Event>, k: nat) {
    || (Hand(s.d) != [] && HandAt(log) < k)
    || (Hand(s.d) == [] && s.pending != 0 && WillLook(s) && PendingAt(log) < k)
  }

  /** The frame thread stands still; the display thread goes on, and the controller only as far as it must. */
  function Bring(s: State): Action {
    if s.lock.HeldByControl? || s.d.DNone? then ControlStep(true) else DisplayStep
  }

  function BringRank(s: State): nat {
    if s.d.DCommit? then 0 else if Hand(s.d) != [] then 1 else 2 + TakeRank(s.d) + ControlRank(s.c)
  }

  lemma BringStep(s: State, log: seq<Event>, k: nat)
    requires Inv(s) && s.f.FEos? && Endangered(s, log, k) && !s.d.DCommit?
    ensures Step(s, Bring(s)).To?
    ensures var To(n, l) := Step(s, Bring(s));
            n.f.FEos? && BringRank(n) < BringRank(s) && |l| <= 1 && (l != [] ==> l[0].Take? || l[0].Clear?)
  {
  }

  lemma BringKeeps(s: State, log: seq<Event>, k: nat)
    requires Inv(s) && s.f.FEos? && Endangered(s, log, k) && !s.d.DCommit? && Step(s, Bring(s)).To?
    ensures Endangered(Step(s, Bring(s)).next, log + Step(s, Bring(s)).log, k)
  {
    BringStep(s, log, k);
    var l := Step(s, Bring(s)).log;
    if l == [] {
      assert log + l == log;
    } else {
      assert l == [l[0]];
      OriginSnoc(log, l[0]);
    }
  }

  lemma BroughtBy(s: State, a: Action, rest: seq<Action>, log: seq<Event>, k: nat)
    requires Step(s, a).To? && Exec(Step(s, a).next, rest).To?
    requires HandAt((log + Step(s, a).log) + Exec(Step(s, a).next, rest).log) < k
    ensures Exec(s, [a] + rest).To? && Exec(s, [a] + rest).next == Exec(Step(s, a).next, rest).next
    ensures HandAt(log + Exec(s, [a] + rest).log) < k
  {
    ReplayCons(Step, s, a, rest);
    var l, later := Step(s, a).log, Exec(Step(s, a).next, rest).log;
    assert (log + l) + later == log + (l + later);
  }

  lemma {:induction false} Brought(s: State, log: seq<Event>, k: nat) returns (more: seq<Action>)
    requires Inv(s) && s.f.FEos? && Endangered(s, log, k)
    ensures Exec(s, more).To? && Exec(s, more).next.d.DCommit? && HandAt(log + Exec(s, more).log) < k
    decreases BringRank(s)
  {
    if s.d.DCommit? {
      more := [];
      assert log + [] == log;
    } else {
      var a := Bring(s);
      BringStep(s, log, k);
      BringKeeps(s, log, k);
      StepKeepsInv(s, a);
      var To(n, l) := Step(s, a);
      var rest := Brought(n, log + l, k);
      BroughtBy(s, a, rest, log, k);
      more := [a] + rest;
    }
  }

  /** Exactly when an info change endangers a commit.  In the state s in which the decoder answers with one,
      all framebuffers are released; afterwards some schedule has the display thread about to commit an id
      published before if and only if at s it has one in hand, or one waits and it will look again. */
  lemma InfoChangeEndangersExactly(stops: nat, acts: seq<Action>, last: bool)
    requires Exec(Init(stops), acts).To? && Exec(Init(stops), acts).next.f.FGet?
    ensures var To(s, log) := Exec(Init(stops), acts);
            var To(n, change) := Step(s, FrameStep(InfoChange(last)));
            && change == [Renew]
            && ((Hand(s.d) != [] || (s.pending != 0 && WillLook(s))) <==>
                exists more: seq<Action> ::
                  && Exec(n, more).To? && Exec(n, more).next.d.DCommit?
                  && HandAt(log + change + Exec(n, more).log) < |log|)
  {
    RunAgrees(stops, acts);
    var To(s, log) := Exec(Init(stops), acts);
    var act := FrameStep(InfoChange(last));
    var To(n, change) := Step(s, act);
    StepKeepsInv(s, act);
    OriginSnoc(log, Renew);
    if Hand(s.d) != [] || (s.pending != 0 && WillLook(s)) {
      var more := Brought(n, log + change, |log|);
    } else {
      forall more: seq<Action> | Exec(n, more).To? && Exec(n, more).next.d.DCommit?
        ensures HandAt(log + change + Exec(n, more).log) >= |log|
      {
        StaysFresh(n, log + change, |log|, more);
        RunKeepsInv(n, more);
      }
    }
  }

  // ---------- exactly when a shutdown drains the mailbox ----------

  /** Running is FALSE, and yet a picture may be left unshown: the frame thread may still come by one or is
      about to publish it, or one is stored or waiting while the display thread is on its way out or does not
      exist. */
  predicate MayLeave(s: State) {
    || s.f.FGet?
    || (s.f.FPubLock? && s.f.fb != 0)
    || ((LastRound(s.d) || s.d.DNone?) &&
        ((s.f.FStore? && s.f.fb != 0) || (s.pending != 0 && !s.f.FPubLock? && !s.f.FStore?)))
  }

  predicate Clearing(s: State) { Inv(s) && !s.running }

  lemma FrameLoopDrains(s: State, answer: Answer)
    requires Clearing(s) && !MayLeave(s) && Polling(s.f) && FrameLoop(s, answer).To?
    ensures !MayLeave(FrameLoop(s, answer).next)
  {
  }

  lemma FramePublishDrains(s: State)
    requires Clearing(s) && !MayLeave(s) && Publishing(s.f) && FramePublish(s).To?
    ensures !MayLeave(FramePublish(s).next)
  {
  }

  lemma FrameExitDrains(s: State)
    requires Clearing(s) && !MayLeave(s) && FrameLeaving(s.f) && FrameExit(s).To?
    ensures !MayLeave(FrameExit(s).next)
  {
  }

  lemma DisplayLockedDrains(s: State)
    requires Clearing(s) && !MayLeave(s) && DisplayHolds(s.d) && DisplayLocked(s).To?
    ensures !MayLeave(DisplayLocked(s).next)
  {
  }

  lemma DisplayOpenDrains(s: State)
    requires Clearing(s) && !MayLeave(s) && DisplayFree(s.d) && DisplayOpen(s).To?
    ensures !MayLeave(DisplayOpen(s).next)
  {
  }

  lemma ControlStartDrains(s: State, created: bool)
    requires Clearing(s) && !MayLeave(s) && Starting(s.c) && ControlStart(s, created).To?
    ensures !MayLeave(ControlStart(s, created).next)
  {
  }

  lemma ControlLockedDrains(s: State)
    requires Clearing(s) && !MayLeave(s) && ControlHolds(s.c) && ControlLocked(s).To?
    ensures !MayLeave(ControlLocked(s).next)
  {
  }

  lemma ControlOpenDrains(s: State)
    requires Clearing(s) && !MayLeave(s) && ControlFree(s.c) && ControlOpen(s).To?
    ensures !MayLeave(ControlOpen(s).next)
  {
  }

  lemma StepDrains(s: State, a: Action)
    requires Clearing(s) && !MayLeave(s) && Step(s, a).To?
    ensures Clearing(Step(s, a).next) && !MayLeave(Step(s, a).next)
  {
    StepKeepsInv(s, a);
    StepEffect(s, a);
    match a
    case FrameStep(answer) =>
      if Polling(s.f) {
        FrameLoopDrains(s, answer);
      } else if Publishing(s.f) {
        FramePublishDrains(s);
      } else {
        FrameExitDrains(s);
      }
    case DisplayStep =>
      if DisplayHolds(s.d) {
        DisplayLockedDrains(s);
      } else {
        DisplayOpenDrains(s);
      }
    case SpuriousWake =>
    case ControlStep(created) =>
      if Starting(s.c) {
        ControlStartDrains(s, created);
      } else if ControlHolds(s.c) {
        ControlLockedDrains(s);
      } else {
        ControlOpenDrains(s);
      }
  }

  lemma {:induction false} RunDrains(s: State, more: seq<Action>)
    requires Clearing(s) && !MayLeave(s) && Exec(s, more).To?
    ensures Finished(Exec(s, more).next) ==> Exec(s, more).next.pending == 0
    decreases |more|
  {
    if more != [] {
      ReplayFirst(Step, s, more);
      StepDrains(s, more[0]);
      RunDrains(Step(s, more[0]).next, more[1..]);
    }
  }

  /** A schedule that leaves the picture: the frame thread waits until the display thread is out, or the
      display thread is never made. */
  function Spoil(s: State): Action {
    var out := s.d.DDone? || s.d.DNone?;
    if s.lock.HeldByControl? || s.c.CSpawnDisplay? then ControlStep(false)
    else if (s.f.FGet? || s.f.FPubLock?) && !out then DisplayStep
    else if !s.f.FDone? && !s.f.FNone? && !s.lock.HeldByDisplay? then FrameStep(Picture(1, false))
    else if !out then DisplayStep
    else ControlStep(true)
  }

  lemma SpoilIsEnabled(s: State)
    requires Clearing(s) && MayLeave(s) && !Finished(s)
    ensures Step(s, Spoil(s)).To?
  {
  }

  lemma SpoilByControl(s: State)
    requires Clearing(s) && MayLeave(s) && Spoil(s).ControlStep? && Step(s, Spoil(s)).To?
    ensures MayLeave(Step(s, Spoil(s)).next)
  {
  }

  lemma SpoilByFrame(s: State)
    requires Clearing(s) && MayLeave(s) && Spoil(s).FrameStep? && Step(s, Spoil(s)).To?
    ensures MayLeave(Step(s, Spoil(s)).next)
  {
  }

  lemma SpoilByDisplay(s: State)
    requires Clearing(s) && MayLeave(s) && Spoil(s).DisplayStep? && Step(s, Spoil(s)).To?
    ensures MayLeave(Step(s, Spoil(s)).next)
  {
  }

  lemma SpoilKeeps(s: State)
    requires Clearing(s) && MayLeave(s) && Step(s, Spoil(s)).To?
    ensures MayLeave(Step(s, Spoil(s)).next)
  {
    match Spoil(s)
    case ControlStep(_) => SpoilByControl(s);
    case FrameStep(_) => SpoilByFrame(s);
    case DisplayStep => SpoilByDisplay(s);
  }

  lemma {:induction false} Spoiled(s: State) returns (more: seq<Action>)
    requires Clearing(s) && MayLeave(s)
    ensures Exec(s, more).To? && Finished(Exec(s, more).next) && Exec(s, more).next.pending != 0
    decreases Remaining(s)
  {
    if Finished(s) {
      more := [];
    } else {
      var a := Spoil(s);
      SpoilIsEnabled(s);
      SpoilKeeps(s);
      StepKeepsInv(s, a);
      StepEffect(s, a);
      StepWinds(s, a);
      var rest := Spoiled(Step(s, a).next);
      ReplayCons(Step, s, a, rest);
      more := [a] + rest;
    }
  }

  /** Exactly when the mailbox is drained, whoever cleared running: from a reachable state in which running
      is FALSE every schedule ends with an empty mailbox if and only if the frame thread has no picture it
      can still bring and a display thread will look once more at whatever waits. */
  lemma ShutdownDrainsExactly(stops: nat, acts: seq<Action>)
    requires Exec(Init(stops), acts).To? && !Exec(Init(stops), acts).next.running
    ensures var s := Exec(Init(stops), acts).next;
            !MayLeave(s) <==>
            forall more: seq<Action> ::
              Exec(s, more).To? && Finished(Exec(s, more).next) ==> Exec(s, more).next.pending == 0
  {
    RunAgrees(stops, acts);
    var s := Exec(Init(stops), acts).next;
    if MayLeave(s) {
      var more := Spoiled(s);
    } else {
      forall more: seq<Action> | Exec(s, more).To? && Finished(Exec(s, more).next)
        ensures Exec(s, more).next.pending == 0
      {
        RunDrains(s, more);
      }
    }
  }

  lemma TwoSteps(s: State, x: Action, y: Action, a: State, b: State, rest: seq<Action>)
    requires Step(s, x).To? && Step(s, x).next == a && Step(a, y).To? && Step(a, y).next == b && Exec(b, rest).To?
    ensures Exec(s, [x, y] + rest) == To(Exec(b, rest).next, Step(s, x).log + (Step(a, y).log + Exec(b, rest).log))
  {
    ReplayCons(Step, a, y, rest);
    ReplayCons(Step, s, x, [y] + rest);
    assert [x, y] + rest == [x] + ([y] + rest);
  }

  lemma FourSteps(s: State, four: seq<Action>, a: State, b: State, c: State, d: State, rest: seq<Action>)
    requires |four| == 4 && Exec(d, rest).To?
    requires Step(s, four[0]).To? && Step(s, four[0]).next == a
    requires Step(a, four[1]).To? && Step(a, four[1]).next == b
    requires Step(b, four[2]).To? && Step(b, four[2]).next == c
    requires Step(c, four[3]).To? && Step(c, four[3]).next == d
    ensures Exec(s, four + rest)
            == To(Exec(d, rest).next,
                  Step(s, four[0]).log + (Step(a, four[1]).log +
                    (Step(b, four[2]).log + (Step(c, four[3]).log + Exec(d, rest).log))))
  {
    TwoSteps(b, four[2], four[3], c, d, rest);
    TwoSteps(s, four[0], four[1], a, b, [four[2], four[3]] + rest);
    assert four + rest == [four[0], four[1]] + ([four[2], four[3]] + rest);
  }

  // Two runs.  In both the frame thread first comes by a picture (PICKED).  In one the controller then clears
  // running, the display thread leaves (LEFT), and only after that is the picture stored.  In the other the
  // picture is stored (STORED), an info change replaces all buffers, and then the picture is taken.

  const FRAME: Action := FrameStep(Picture(7, false))
  const DISPLAY: Action := DisplayStep
  const CONTROL: Action := ControlStep(true)
  const CHANGE: Action := FrameStep(InfoChange(false))

  const PICKED: State := State(true, 0, Free, false, FPubLock(7, false), DLock, CIdle, true, true, 1)
  const STOPPED: State := PICKED.(running := false, c := CJoinFrame, stops := 0)
  const LEFT: State := STOPPED.(d := DDone)
  const LATE: State := LEFT.(pending := 7, lock := HeldByFrame, f := FSignal(false))
  const STORED: State := PICKED.(pending := 7, f := FEos(false))
  const STALE: State := STORED.(pending := 0, d := DCommit(7, true))

  function Twice(a: Action): seq<Action> { [a, a] }

  function FourTimes(a: Action): seq<Action> { [a, a, a, a] }

  lemma LateStore()
    ensures Exec(LEFT, Twice(FRAME)) == To(LATE, [Publish(7, 0)])
  {
    var mid := LEFT.(lock := HeldByFrame, f := FStore(7, false));
    assert Step(mid, FRAME) == To(LATE, [Publish(7, 0)]) && Exec(LATE, []) == To(LATE, []);
    TwoSteps(LEFT, FRAME, FRAME, mid, LATE, []);
    assert [FRAME, FRAME] + [] == Twice(FRAME);
  }

  lemma DisplayLeaves()
    ensures Exec(STOPPED, FourTimes(DISPLAY) + Twice(FRAME)) == To(LATE, [Take(0), Publish(7, 0)])
  {
    LateStore();
    FourSteps(STOPPED, FourTimes(DISPLAY), STOPPED.(lock := HeldByDisplay, d := DTest),
              STOPPED.(lock := HeldByDisplay, d := DTake), STOPPED.(lock := HeldByDisplay, d := DUnlock(0, false)),
              LEFT, Twice(FRAME));
  }

  lemma ControllerStops()
    ensures Exec(PICKED, [CONTROL] + (FourTimes(CONTROL) + (FourTimes(DISPLAY) + Twice(FRAME))))
            == To(LATE, [Clear(Control), Take(0), Publish(7, 0)])
  {
    DisplayLeaves();
    var s := PICKED.(c := CStopLock, stops := 0);
    FourSteps(s, FourTimes(CONTROL), s.(lock := HeldByControl, c := CStopStore),
              s.(running := false, lock := HeldByControl, c := CStopBroadcast),
              s.(running := false, lock := HeldByControl, c := CStopUnlock), STOPPED,
              FourTimes(DISPLAY) + Twice(FRAME));
    ReplayCons(Step, PICKED, CONTROL, FourTimes(CONTROL) + (FourTimes(DISPLAY) + Twice(FRAME)));
  }

  lemma PictureIsPicked(rest: seq<Action>)
    requires Exec(PICKED, rest).To?
    ensures Exec(Init(1), [CONTROL, CONTROL, FRAME, FRAME] + rest) == Exec(PICKED, rest)
  {
    var i := Init(1).(f := FCheck, frameHandle := true, c := CSpawnDisplay);
    FourSteps(Init(1), [CONTROL, CONTROL, FRAME, FRAME], i, i.(d := DLock, displayHandle := true, c := CIdle),
              i.(d := DLock, displayHandle := true, c := CIdle, f := FGet), PICKED, rest);
  }

  /** The first run: the display thread exits, and the picture is never shown. */
  lemma StopMayLeaveAPicture()
    ensures exists acts: seq<Action> ::
              && Exec(Init(1), acts).To?
              && Exec(Init(1), acts).next.d.DDone?
              && Exec(Init(1), acts).next.pending == 7
              && FirstClear(Exec(Init(1), acts).log) == By(Control)
              && Committed(Exec(Init(1), acts).log) == []
  {
    ControllerStops();
    PictureIsPicked([CONTROL] + (FourTimes(CONTROL) + (FourTimes(DISPLAY) + Twice(FRAME))));
    LogSnoc([], Clear(Control));
    LogSnoc([Clear(Control)], Take(0));
    LogSnoc([Clear(Control), Take(0)], Publish(7, 0));
    assert [] + [Clear(Control)] == [Clear(Control)];
    assert [Clear(Control)] + [Take(0)] == [Clear(Control), Take(0)];
    assert [Clear(Control), Take(0)] + [Publish(7, 0)] == [Clear(Control), Take(0), Publish(7, 0)];
  }

  lemma StaleIsTaken()
    ensures Exec(STORED, [FRAME, FRAME, CHANGE] + FourTimes(DISPLAY)) == To(STALE, [Renew, Take(7)])
  {
    var s := STORED.(lock := HeldByDisplay);
    assert Exec(STALE, []) == To(STALE, []);
    FourSteps(STORED, FourTimes(DISPLAY), s.(d := DTest), s.(d := DTake),
              s.(pending := 0, d := DUnlock(7, true)), STALE, []);
    assert FourTimes(DISPLAY) + [] == FourTimes(DISPLAY);
    ReplayCons(Step, STORED.(f := FGet), CHANGE, FourTimes(DISPLAY));
    TwoSteps(STORED, FRAME, FRAME, STORED.(f := FCheck), STORED.(f := FGet), [CHANGE] + FourTimes(DISPLAY));
    assert [FRAME, FRAME, CHANGE] + FourTimes(DISPLAY) == [FRAME, FRAME] + ([CHANGE] + FourTimes(DISPLAY));
  }

  lemma PictureIsStored(rest: seq<Action>)
    requires Exec(STORED, rest).To?
    ensures Exec(PICKED, FourTimes(FRAME) + rest)
            == To(Exec(STORED, rest).next, [Publish(7, 0)] + Exec(STORED, rest).log)
  {
    var s := PICKED.(lock := HeldByFrame);
    FourSteps(PICKED, FourTimes(FRAME), s.(f := FStore(7, false)), s.(pending := 7, f := FSignal(false)),
              s.(pending := 7, f := FPubUnlock(false)), STORED, rest);
  }

  /** The second run, an instance of what InfoChangeEndangersExactly speaks of: the display thread is about to
      commit an id whose buffers an info change has released. */
  lemma AReleasedIdMayBeCommitted()
    ensures exists acts: seq<Action> ::
              Exec(Init(1), acts) == To(STALE, [Publish(7, 0), Renew, Take(7)])
  {
    StaleIsTaken();
    var rest := [FRAME, FRAME, CHANGE] + FourTimes(DISPLAY);
    PictureIsStored(rest);
    PictureIsPicked(FourTimes(FRAME) + rest);
    assert [Publish(7, 0)] + [Renew, Take(7)] == [Publish(7, 0), Renew, Take(7)];
  }
}
