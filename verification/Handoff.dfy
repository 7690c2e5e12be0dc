/** The recorder shared by two threads, and the joins that end them: the appsink thread hands samples to
    whatever recorder is installed and feeds them to the decoder, the bus thread watches for the end of the
    stream, and the main thread enables, disables, reads statistics, polls, stops and starts.  Every
    interleaving is a list of atomic steps; recorder_lock is taken, used and released in separate ones, and
    each short section under the other lock, which reads or writes flags only, is one. */
module Handoff {
  import opened Runs
  import opened Wrappers

  /** A recorder, numbered in the order video_recorder_new made them. */
  type Recorder = nat

  datatype Lock = Free | HeldByAppsink | HeldByMain

  /** What the appsink thread meets: when it pulls, nothing it may show the recorder, or a mapped, non-empty
      sample that is not too large; when it feeds the decoder, a packet refused, or (with any other) taken. */
  datatype Round = NoSample | Eligible | Refused

  /** What the bus thread finds: no bus at all, no message, an error or the end of the stream, or a message
      of no interest. */
  datatype Message = NoBus | Quiet | Ending | Other

  /** What the main thread does next, and how the calls it makes turn out. */
  datatype Operation =
    | Enable(created: bool)
    | Disable
    | Statistics
    | Stop
    | Poll
    | Start(outcome: StartOutcome)

  /** A start fails before the appsink thread is made (with the decoder running or not), fails to make the
      bus thread after it, or succeeds. */
  datatype StartOutcome = Failed(decoderRuns: bool) | NoBusThread | Succeeded

  /** How the main thread came to join the appsink thread. */
  datatype Entry = FromStop | FromPoll(hadBus: bool) | FromFailedStart

  datatype AppsinkPc =
    | ANone                                  // no thread, or joined
    | ACheck                                 // reads stop_requested and decoder_running
    | APull
    | ALock | ALoad | AUse(rec: Option<Recorder>) | AUnlock
    | AFeed                                  // offers the packet to the decoder while that runs
    | ADone

  datatype BusPc =
    | BNone                                  // no thread, or joined
    | BFirst                                 // asks for the bus
    | BLoop
    | BLast                                  // about to report that it no longer runs
    | BDone(hadBus: bool)

  datatype MainPc =
    | MIdle
    | MEnableLock(mine: Recorder) | MEnableTest(mine: Recorder) | MEnableStore(mine: Recorder)
    | MStatsLock | MStatsLoad | MStatsUse(rec: Option<Recorder>)
    | MMakeBus(created: bool)
    | MPollJoin                              // poll joins the bus thread
    | MJoin(entry: Entry)                    // joins the appsink thread
    | MJoinBus                               // joins the bus thread
    | MHalt                                  // stops the decoder
    | MSwapLock | MSwapLoad | MSwapClear(rec: Option<Recorder>)
    | MUnlock(drop: Option<Recorder>)        // leaving the lock with a recorder to free, or without
    | MFree(gone: Recorder)

  datatype Event =
    | Created(r: Recorder)
    | Installed(r: Recorder)
    | Removed(r: Recorder)
    | Handled(who: Option<Recorder>)         // one eligible sample, and who received it
    | Consulted(who: Option<Recorder>)       // statistics read
    | Freed(r: Recorder)

  /** up: the state is RUNNING.  stop, decoding and busRunning are stop_requested, decoder_running and
      bus_thread_running; live is the decoder's own flag, running. */
  datatype Flags = Flags(up: bool, stop: bool, decoding: bool, busRunning: bool, live: bool)

  datatype State = State(
    installed: Option<Recorder>, lock: Lock, made: nat, flags: Flags, a: AppsinkPc, b: BusPc, m: MainPc)

  datatype Action =
    | AppsinkStep(round: Round)
    | BusStep(message: Message)
    | DecoderEnds                            // the frame thread leaves and clears running
    | MainStep(op: Operation)

  type Outcome = Runs.Outcome<State, Event>

  const INIT: State := State(None, Free, 0, Flags(false, false, false, false, false), ANone, BNone, MIdle)

  function StepAppsink(s: State, round: Round): Outcome {
    match s.a
    case ANone => Stuck
    case ADone => Stuck
    case ACheck => To(s.(a := if s.flags.stop || !s.flags.decoding then ADone else APull), [])
    case APull => To(s.(a := if round.Eligible? then ALock else ACheck), [])
    case ALock => if s.lock.Free? then To(s.(lock := HeldByAppsink, a := ALoad), []) else Stuck
    case ALoad => To(s.(a := AUse(s.installed)), [])
    case AUse(rec) => To(s.(a := AUnlock), [Handled(rec)])
    case AUnlock => To(s.(lock := Free, a := AFeed), [])
    case AFeed => To(s.(a := if s.flags.live && round.Refused? then AFeed else ACheck), [])
  }

  function StepBus(s: State, message: Message): Outcome {
    match s.b
    case BNone => Stuck
    case BDone(_) => Stuck
    case BFirst =>
      if message.NoBus? then To(s.(b := BDone(false), flags := s.flags.(busRunning := false)), [])
      else To(s.(b := BLoop, flags := s.flags.(busRunning := true)), [])
    case BLoop =>
      (match message
       case NoBus => Stuck
       case Quiet => To(s.(b := if s.flags.stop then BLast else BLoop), [])
       case Ending => To(s.(flags := s.flags.(stop := true), b := BLast), [])
       case Other => To(s, []))
    case BLast => To(s.(flags := s.flags.(busRunning := false), b := BDone(true)), [])
  }

  /** The main thread between two calls.  Only a running pipeline is stopped and only a stopped one started. */
  function Begin(s: State, op: Operation): Outcome
    requires s.m.MIdle?
  {
    match op
    case Enable(created) =>
      if created then To(s.(m := MEnableLock(s.made), made := s.made + 1), [Created(s.made)])
      else To(s, [])
    case Disable => To(s.(m := MSwapLock), [])
    case Statistics => To(s.(m := MStatsLock), [])
    case Stop => if s.flags.up then To(s.(flags := s.flags.(stop := true), m := MJoin(FromStop)), []) else To(s, [])
    case Poll => if !s.b.BNone? && !s.flags.busRunning then To(s.(m := MPollJoin), []) else To(s, [])
    case Start(outcome) => if s.flags.up then To(s, []) else BeginStart(s, outcome)
  }

  function BeginStart(s: State, outcome: StartOutcome): Outcome
    requires !s.flags.up
  {
    match outcome
    case Failed(decoderRuns) =>
      To(s.(flags := Flags(false, false, decoderRuns, false, decoderRuns), m := MJoin(FromFailedStart)), [])
    case NoBusThread =>
      To(s.(flags := Flags(false, false, true, false, true), a := ACheck, m := MMakeBus(false)), [])
    case Succeeded =>
      To(s.(flags := Flags(false, false, true, false, true), a := ACheck, m := MMakeBus(true)), [])
  }

  predicate MainHolds(m: MainPc) {
    m.MEnableTest? || m.MEnableStore? || m.MStatsLoad? || m.MStatsUse? || m.MSwapLoad? || m.MSwapClear? || m.MUnlock?
  }

  function StepMainLocked(s: State): Outcome
    requires MainHolds(s.m)
  {
    match s.m
    case MEnableTest(r) => To(s.(m := if s.installed.Some? then MUnlock(Some(r)) else MEnableStore(r)), [])
    case MEnableStore(r) => To(s.(installed := Some(r), m := MUnlock(None)), [Installed(r)])
    case MStatsLoad => To(s.(m := MStatsUse(s.installed)), [])
    case MStatsUse(rec) => To(s.(m := MUnlock(None)), [Consulted(rec)])
    case MSwapLoad => To(s.(m := MSwapClear(s.installed)), [])
    case MSwapClear(rec) =>
      To(s.(installed := None, m := MUnlock(rec)), if rec.Some? then [Removed(rec.value)] else [])
    case MUnlock(drop) => To(s.(lock := Free, m := if drop.Some? then MFree(drop.value) else MIdle), [])
  }

  predicate Winding(m: MainPc) { m.MMakeBus? || m.MPollJoin? || m.MJoin? || m.MJoinBus? || m.MHalt? }

  /** Starting the bus thread, and the joins. */
  function StepMainWinding(s: State): Outcome
    requires Winding(s.m)
  {
    match s.m
    case MMakeBus(created) =>
      if created then To(s.(b := BFirst, flags := s.flags.(up := true), m := MIdle), [])
      else To(s.(m := MJoin(FromFailedStart)), [])
    case MPollJoin => if s.b.BDone? then To(s.(b := BNone, m := MJoin(FromPoll(s.b.hadBus))), []) else Stuck
    case MJoin(_) => if s.a.ANone? || s.a.ADone? then To(s.(a := ANone, m := MJoinBus), []) else Stuck
    case MJoinBus => if s.b.BNone? || s.b.BDone? then To(s.(b := BNone, m := MHalt), []) else Stuck
    case MHalt => To(s.(flags := s.flags.(decoding := false, up := false, live := false), m := MSwapLock), [])
  }

  function StepMainOpen(s: State): Outcome
    requires !MainHolds(s.m) && !s.m.MIdle? && !Winding(s.m)
  {
    match s.m
    case MEnableLock(r) => if s.lock.Free? then To(s.(lock := HeldByMain, m := MEnableTest(r)), []) else Stuck
    case MStatsLock => if s.lock.Free? then To(s.(lock := HeldByMain, m := MStatsLoad), []) else Stuck
    case MSwapLock => if s.lock.Free? then To(s.(lock := HeldByMain, m := MSwapLoad), []) else Stuck
    case MFree(r) => To(s.(m := MIdle), [Freed(r)])
  }

  function StepMain(s: State, op: Operation): Outcome {
    if s.m.MIdle? then Begin(s, op)
    else if MainHolds(s.m) then StepMainLocked(s)
    else if Winding(s.m) then StepMainWinding(s)
    else StepMainOpen(s)
  }

  function Step(s: State, act: Action): Outcome {
    match act
    case AppsinkStep(round) => StepAppsink(s, round)
    case BusStep(message) => StepBus(s, message)
    case DecoderEnds => if s.flags.live then To(s.(flags := s.flags.(live := false)), []) else Stuck
    case MainStep(op) => StepMain(s, op)
  }

  function Exec(s: State, acts: seq<Action>): Outcome { Replay(Step, s, acts) }

  // ---------- the life one recorder is allowed to lead ----------

  /** In order: made, installed, taken out again, freed; or made and freed because another was installed. */
  datatype Life = Unborn | Held | InUse | TakenOut | Gone | Broken

  function Live(life: Life, r: Recorder, e: Event): Life {
    match e
    case Created(x) => if x != r then life else if life.Unborn? then Held else Broken
    case Installed(x) =>
      if x == r then (if life.Held? then InUse else Broken)
      else if life.InUse? then Broken else life
    case Removed(x) => if x != r then life else if life.InUse? then TakenOut else Broken
    case Handled(who) => if (who == Some(r)) == life.InUse? then life else Broken
    case Consulted(who) => if (who == Some(r)) == life.InUse? then life else Broken
    case Freed(x) => if x != r then life else if life.Held? || life.TakenOut? then Gone else Broken
  }

  function LifeOf(r: Recorder, log: seq<Event>): Life {
    if log == [] then Unborn else Live(LifeOf(r, log[..|log| - 1]), r, log[|log| - 1])
  }

  lemma LifeSnoc(r: Recorder, log: seq<Event>, e: Event)
    ensures LifeOf(r, log + [e]) == Live(LifeOf(r, log), r, e)
  {
    assert (log + [e])[..|log|] == log;
  }

  // ---------- the invariant ----------

  /** The recorder only the main thread's locals point to. */
  function Hand(m: MainPc): Option<Recorder> {
    match m
    case MEnableLock(r) => Some(r)
    case MEnableTest(r) => Some(r)
    case MEnableStore(r) => Some(r)
    case MUnlock(drop) => drop
    case MFree(r) => Some(r)
    case _ => None
  }

  predicate NewInHand(m: MainPc) { m.MEnableLock? || m.MEnableTest? || m.MEnableStore? }

  predicate AppsinkHolds(a: AppsinkPc) { a.ALoad? || a.AUse? || a.AUnlock? }

  predicate Inv(s: State) { RecorderInv(s) && ThreadInv(s) }

  predicate RecorderInv(s: State) {
    && (s.lock.HeldByAppsink? <==> AppsinkHolds(s.a))
    && (s.lock.HeldByMain? <==> MainHolds(s.m))
    && (s.a.AUse? ==> s.a.rec == s.installed)
    && (s.m.MStatsUse? || s.m.MSwapClear? ==> s.m.rec == s.installed)
    && (s.m.MEnableStore? ==> s.installed.None?)
    && (s.installed.Some? ==> s.installed.value < s.made && Hand(s.m) != s.installed)
    && (Hand(s.m).Some? ==> Hand(s.m).value < s.made)
  }

  /** Which threads exist, and who has asked them to stop. */
  predicate ThreadInv(s: State) {
    && (s.flags.up ==> s.flags.decoding)
    && (!Winding(s.m) ==> (s.flags.up <==> !s.a.ANone?) && (s.flags.up <==> !s.b.BNone?))
    && (s.a.ADone? ==> s.flags.stop || !s.flags.decoding)
    && BusInv(s)
    && match s.m
       case MMakeBus(_) => !s.flags.up && !s.a.ANone? && s.b.BNone? && !s.flags.stop && s.flags.decoding
       case MPollJoin => s.flags.up && !s.a.ANone? && !s.b.BNone?
       case MJoin(FromStop) => s.flags.stop
       case MJoin(FromPoll(hadBus)) => s.b.BNone? && (s.flags.stop <==> hadBus) && s.flags.decoding
       case MJoin(FromFailedStart) => s.b.BNone? && !s.flags.stop && (!s.a.ANone? ==> s.flags.decoding)
       case MJoinBus => s.a.ANone? && (!s.b.BNone? ==> s.flags.stop)
       case MHalt => s.a.ANone? && s.b.BNone?
       case _ => true
  }

  /** Unless the main thread is stopping, the flag is set exactly if the bus thread saw the stream end. */
  predicate BusInv(s: State) {
    && (s.flags.busRunning <==> s.b.BLoop? || s.b.BLast?)
    && (s.b.BLast? ==> s.flags.stop)
    && (s.b == BDone(true) ==> s.flags.stop)
    && (s.m != MJoin(FromStop) && s.m != MJoinBus && (s.b.BFirst? || s.b.BLoop? || s.b == BDone(false)) ==>
          !s.flags.stop)
  }

  /** Where recorder r is, against the life its events tell. */
  predicate Fits(s: State, r: Recorder, life: Life) {
    if s.installed == Some(r) then life.InUse?
    else if Hand(s.m) == Some(r) then life.Held? || (life.TakenOut? && !NewInHand(s.m))
    else if r < s.made then life.Gone?
    else life.Unborn?
  }

  ghost predicate Agrees(s: State, log: seq<Event>) {
    forall r: Recorder :: Fits(s, r, LifeOf(r, log))
  }

  predicate Effect(s: State, n: State, log: seq<Event>) {
    && |log| <= 1
    && (log == [] ==>
          && n.installed == s.installed && Hand(n.m) == Hand(s.m) && n.made == s.made
          && (NewInHand(n.m) ==> NewInHand(s.m)))
    && (log != [] ==> EventEffect(s, n, log[0]))
  }

  predicate EventEffect(s: State, n: State, e: Event) {
    && (n.made == if e.Created? then s.made + 1 else s.made)
    && match e
       case Created(r) =>
         r == s.made && Hand(s.m) == None && Hand(n.m) == Some(r) && n.installed == s.installed
       case Installed(r) =>
         && Hand(s.m) == Some(r) && NewInHand(s.m) && Hand(n.m) == None
         && s.installed == None && n.installed == Some(r)
       case Removed(r) =>
         && Hand(s.m) == None && Hand(n.m) == Some(r) && !NewInHand(n.m)
         && s.installed == Some(r) && n.installed == None
       case Freed(r) => Hand(s.m) == Some(r) && Hand(n.m) == None && n.installed == s.installed
       case Handled(who) => who == s.installed && n.installed == s.installed && n.m == s.m
       case Consulted(who) =>
         who == s.installed && n.installed == s.installed && Hand(n.m) == Hand(s.m) == None
  }

  lemma AppsinkKeepsThreads(s: State, round: Round)
    requires Inv(s) && StepAppsink(s, round).To?
    ensures ThreadInv(StepAppsink(s, round).next)
  {
    var n := StepAppsink(s, round).next;
    assert n.flags == s.flags && n.b == s.b && n.m == s.m && !n.a.ANone? && !s.a.ANone?;
  }

  lemma BusKeepsThreads(s: State, message: Message)
    requires Inv(s) && StepBus(s, message).To?
    ensures ThreadInv(StepBus(s, message).next)
  {
  }

  lemma BeginKeepsThreads(s: State, op: Operation)
    requires Inv(s) && s.m.MIdle? && Begin(s, op).To?
    ensures ThreadInv(Begin(s, op).next)
  {
  }

  lemma MainLockedKeepsThreads(s: State)
    requires Inv(s) && MainHolds(s.m) && StepMainLocked(s).To?
    ensures ThreadInv(StepMainLocked(s).next)
  {
  }

  lemma MainWindingKeepsThreads(s: State)
    requires Inv(s) && Winding(s.m) && StepMainWinding(s).To?
    ensures ThreadInv(StepMainWinding(s).next)
  {
  }

  lemma MainOpenKeepsThreads(s: State)
    requires Inv(s) && !MainHolds(s.m) && !s.m.MIdle? && !Winding(s.m) && StepMainOpen(s).To?
    ensures ThreadInv(StepMainOpen(s).next)
  {
  }

  lemma AppsinkKeeps(s: State, round: Round)
    requires Inv(s) && StepAppsink(s, round).To?
    ensures RecorderInv(StepAppsink(s, round).next)
    ensures Effect(s, StepAppsink(s, round).next, StepAppsink(s, round).log)
  {
  }

  lemma BusKeeps(s: State, message: Message)
    requires Inv(s) && StepBus(s, message).To?
    ensures RecorderInv(StepBus(s, message).next)
    ensures Effect(s, StepBus(s, message).next, StepBus(s, message).log)
  {
  }

  lemma BeginKeeps(s: State, op: Operation)
    requires Inv(s) && s.m.MIdle? && Begin(s, op).To?
    ensures RecorderInv(Begin(s, op).next)
    ensures Effect(s, Begin(s, op).next, Begin(s, op).log)
  {
  }

  lemma MainLockedKeeps(s: State)
    requires Inv(s) && MainHolds(s.m) && StepMainLocked(s).To?
    ensures RecorderInv(StepMainLocked(s).next)
    ensures Effect(s, StepMainLocked(s).next, StepMainLocked(s).log)
  {
  }

  lemma MainWindingKeeps(s: State)
    requires Inv(s) && Winding(s.m) && StepMainWinding(s).To?
    ensures RecorderInv(StepMainWinding(s).next)
    ensures Effect(s, StepMainWinding(s).next, StepMainWinding(s).log)
  {
  }

  lemma MainOpenKeeps(s: State)
    requires Inv(s) && !MainHolds(s.m) && !s.m.MIdle? && !Winding(s.m) && StepMainOpen(s).To?
    ensures RecorderInv(StepMainOpen(s).next)
    ensures Effect(s, StepMainOpen(s).next, StepMainOpen(s).log)
  {
  }

  lemma StepKeeps(s: State, act: Action)
    requires Inv(s) && Step(s, act).To?
    ensures Inv(Step(s, act).next)
    ensures Effect(s, Step(s, act).next, Step(s, act).log)
  {
    match act
    case AppsinkStep(round) =>
      AppsinkKeepsThreads(s, round);
      AppsinkKeeps(s, round);
    case BusStep(message) =>
      BusKeepsThreads(s, message);
      BusKeeps(s, message);
    case DecoderEnds =>
    case MainStep(op) =>
      if s.m.MIdle? {
        BeginKeepsThreads(s, op);
        BeginKeeps(s, op);
      } else if MainHolds(s.m) {
        MainLockedKeepsThreads(s);
        MainLockedKeeps(s);
      } else if Winding(s.m) {
        MainWindingKeepsThreads(s);
        MainWindingKeeps(s);
      } else {
        MainOpenKeepsThreads(s);
        MainOpenKeeps(s);
      }
  }

  lemma EffectKeepsAgreement(s: State, n: State, log: seq<Event>, more: seq<Event>)
    requires Inv(s) && Agrees(s, log) && Effect(s, n, more)
    ensures Agrees(n, log + more)
  {
    forall r: Recorder ensures Fits(n, r, LifeOf(r, log + more)) {
      assert Fits(s, r, LifeOf(r, log));
      if more == [] {
        assert log + more == log;
      } else {
        assert more == [more[0]];
        LifeSnoc(r, log, more[0]);
      }
    }
  }

  lemma RunKeeps(acts: seq<Action>)
    requires Exec(INIT, acts).To?
    ensures Inv(Exec(INIT, acts).next)
    ensures Agrees(Exec(INIT, acts).next, Exec(INIT, acts).log)
  {
    var p := (t: State, l: seq<Event>) => Inv(t) && Agrees(t, l);
    forall t: State, l: seq<Event>, a: Action | p(t, l) && Step(t, a).To?
      ensures p(Step(t, a).next, l + Step(t, a).log)
    {
      StepKeeps(t, a);
      EffectKeepsAgreement(t, Step(t, a).next, l, Step(t, a).log);
    }
    assert Inv(INIT) && Agrees(INIT, []) && p(INIT, []);
    RunInduction(Step, p, INIT, [], acts);
    assert [] + Exec(INIT, acts).log == Exec(INIT, acts).log;
  }

  /** In every interleaving every recorder leads a legal life: a sample goes to the recorder that is
      installed and to no other, statistics are read from that one, nothing is freed while installed or
      freed twice, and nothing happens to a recorder after it is freed.  At every moment each recorder ever
      made is in exactly one place: installed (at most one is), in the main thread's hand, or freed. */
  lemma EveryRecorderLivesLegally(acts: seq<Action>, r: Recorder)
    requires Exec(INIT, acts).To?
    ensures var To(s, log) := Exec(INIT, acts);
            && !LifeOf(r, log).Broken?
            && (LifeOf(r, log).InUse? <==> s.installed == Some(r))
            && (LifeOf(r, log).Held? || LifeOf(r, log).TakenOut? <==> Hand(s.m) == Some(r))
            && (LifeOf(r, log).Unborn? <==> r >= s.made)
  {
    RunKeeps(acts);
    var To(s, log) := Exec(INIT, acts);
    assert Fits(s, r, LifeOf(r, log));
  }

  /** Between two calls of the main thread every recorder made so far has been freed, except the one
      installed: no path of enable, disable, stop or restart loses one. */
  lemma IdleOwnsOnlyTheInstalled(acts: seq<Action>, r: Recorder)
    requires Exec(INIT, acts).To? && Exec(INIT, acts).next.m.MIdle? && r < Exec(INIT, acts).next.made
    ensures LifeOf(r, Exec(INIT, acts).log).Gone? <==> Exec(INIT, acts).next.installed != Some(r)
  {
    EveryRecorderLivesLegally(acts, r);
  }

  // ---------- what a legal life means for the samples ----------

  lemma {:induction false} PrefixIsLegal(r: Recorder, log: seq<Event>, k: nat)
    requires k <= |log| && !LifeOf(r, log).Broken?
    ensures !LifeOf(r, log[..k]).Broken?
    decreases |log|
  {
    if k < |log| {
      PrefixIsLegal(r, log[..|log| - 1], k);
      assert log[..|log| - 1][..k] == log[..k];
    } else {
      assert log[..k] == log;
    }
  }

  function Age(life: Life): nat {
    match life
    case Unborn => 0
    case Held => 1
    case InUse => 2
    case TakenOut => 3
    case Gone => 4
    case Broken => 5
  }

  lemma {:induction false} LifeOnlyMovesForward(r: Recorder, log: seq<Event>, i: nat, j: nat)
    requires i <= j <= |log|
    ensures Age(LifeOf(r, log[..i])) <= Age(LifeOf(r, log[..j]))
    decreases j
  {
    if i < j {
      LifeOnlyMovesForward(r, log, i, j - 1);
      assert log[..j] == log[..j - 1] + [log[j - 1]];
      LifeSnoc(r, log[..j - 1], log[j - 1]);
    }
  }

  lemma HandledWhileInUse(r: Recorder, log: seq<Event>, k: nat)
    requires k < |log| && log[k].Handled? && !LifeOf(r, log).Broken?
    ensures log[k].who == Some(r) <==> LifeOf(r, log[..k]).InUse?
  {
    PrefixIsLegal(r, log, k + 1);
    assert log[..k + 1] == log[..k] + [log[k]];
    LifeSnoc(r, log[..k], log[k]);
  }

  /** Each recorder receives a contiguous segment of the eligible samples: whatever sample comes between two
      of its own is its own too. */
  lemma SegmentsAreContiguous(acts: seq<Action>, r: Recorder, i: nat, j: nat, k: nat)
    requires Exec(INIT, acts).To?
    requires i <= j <= k < |Exec(INIT, acts).log|
    requires var log := Exec(INIT, acts).log; log[i] == log[k] == Handled(Some(r)) && log[j].Handled?
    ensures Exec(INIT, acts).log[j] == Handled(Some(r))
  {
    var log := Exec(INIT, acts).log;
    EveryRecorderLivesLegally(acts, r);
    HandledWhileInUse(r, log, i);
    HandledWhileInUse(r, log, j);
    HandledWhileInUse(r, log, k);
    LifeOnlyMovesForward(r, log, i, j);
    LifeOnlyMovesForward(r, log, j, k);
  }

  predicate Names(e: Event, r: Recorder) {
    if e.Handled? || e.Consulted? then e.who == Some(r) else e.r == r
  }

  lemma AfterEvent(r: Recorder, log: seq<Event>, k: nat)
    requires k < |log| && !LifeOf(r, log).Broken?
    ensures var life := LifeOf(r, log[..k + 1]);
            life == Live(LifeOf(r, log[..k]), r, log[k]) && !life.Broken?
  {
    PrefixIsLegal(r, log, k + 1);
    assert log[..k + 1] == log[..k] + [log[k]];
    LifeSnoc(r, log[..k], log[k]);
  }

  /** After a recorder is freed no event names it again: no use, no second free, no installing. */
  lemma NothingAfterFree(acts: seq<Action>, r: Recorder, i: nat, j: nat)
    requires Exec(INIT, acts).To?
    requires i < j < |Exec(INIT, acts).log| && Exec(INIT, acts).log[i] == Freed(r)
    ensures !Names(Exec(INIT, acts).log[j], r)
  {
    var log := Exec(INIT, acts).log;
    EveryRecorderLivesLegally(acts, r);
    AfterEvent(r, log, i);
    LifeOnlyMovesForward(r, log, i + 1, j);
    AfterEvent(r, log, j);
  }

  /** In no interleaving are all threads stuck: the main thread can step, or the thread it waits for can, and
      the lock's holder always can. */
  lemma HandoffNeverDeadlocks(acts: seq<Action>, op: Operation, round: Round)
    requires Exec(INIT, acts).To?
    ensures var s := Exec(INIT, acts).next;
            && (Step(s, MainStep(op)).To? || Step(s, AppsinkStep(round)).To? || Step(s, BusStep(Quiet)).To?)
            && (s.lock.HeldByMain? ==> Step(s, MainStep(op)).To?)
            && (s.lock.HeldByAppsink? ==> Step(s, AppsinkStep(round)).To?)
  {
    RunKeeps(acts);
  }

  // ---------- what the calls achieve ----------

  /** The call the main thread made last, and what it found: whether the pipeline was up, and whether the bus
      thread was there without running. */
  datatype Call = NoCall | Call(op: Operation, wasUp: bool, gone: bool)

  function Noted(s: State, act: Action, c: Call): Call {
    if s.m.MIdle? && act.MainStep? then Call(act.op, s.flags.up, !s.b.BNone? && !s.flags.busRunning) else c
  }

  function Latest(s: State, acts: seq<Action>, c: Call): Call
    requires Exec(s, acts).To?
    decreases |acts|
  {
    if acts == [] then c else
      ReplayFirst(Step, s, acts);
      Latest(Step(s, acts[0]).next, acts[1..], Noted(s, acts[0], c))
  }

  predicate Swapping(m: MainPc) { m.MSwapLock? || m.MSwapLoad? || m.MSwapClear? }

  predicate Leaving(m: MainPc) { m.MUnlock? || m.MFree? || m.MIdle? }

  /** Somewhere in the cleanup, or past it with everything gone. */
  predicate CleaningUp(s: State) {
    || s.m.MJoinBus? || s.m.MHalt?
    || (!s.flags.up && !s.flags.decoding && !s.flags.live && (Swapping(s.m) || (Leaving(s.m) && s.installed.None?)))
  }

  /** How far a call may be, and what is true once it has returned. */
  predicate Does(s: State, c: Call) {
    match c
    case NoCall => s.m.MIdle? && !s.flags.up && s.installed.None?
    case Call(Enable(created), _, _) =>
      if created then NewInHand(s.m) || (Leaving(s.m) && s.installed.Some?) else s.m.MIdle?
    case Call(Disable, _, _) => Swapping(s.m) || (Leaving(s.m) && s.installed.None?)
    case Call(Statistics, _, _) =>
      s.m.MStatsLock? || s.m.MStatsLoad? || s.m.MStatsUse? || s.m == MUnlock(None) || s.m.MIdle?
    case Call(Stop, wasUp, _) =>
      if wasUp then s.m == MJoin(FromStop) || CleaningUp(s) else s.m.MIdle? && !s.flags.up
    case Call(Poll, wasUp, gone) =>
      if gone then s.m.MPollJoin? || (s.m.MJoin? && s.m.entry.FromPoll?) || CleaningUp(s)
      else s.m.MIdle? && s.flags.up == wasUp
    case Call(Start(outcome), wasUp, _) =>
      if wasUp then s.m.MIdle? && s.flags.up
      else if outcome.Succeeded? then s.m == MMakeBus(true) || (s.m.MIdle? && s.flags.up)
      else s.m == MMakeBus(false) || s.m == MJoin(FromFailedStart) || CleaningUp(s)
  }

  lemma AppsinkLeavesMain(s: State, round: Round)
    requires StepAppsink(s, round).To?
    ensures var n := StepAppsink(s, round).next;
            n.m == s.m && n.flags == s.flags && n.installed == s.installed
  {
  }

  lemma BusLeavesMain(s: State, message: Message)
    requires StepBus(s, message).To?
    ensures var n := StepBus(s, message).next;
            && n.m == s.m && n.installed == s.installed
            && n.flags == s.flags.(stop := n.flags.stop, busRunning := n.flags.busRunning)
  {
  }

  lemma BeginDoes(s: State, op: Operation)
    requires Inv(s) && s.m.MIdle? && Begin(s, op).To?
    ensures Does(Begin(s, op).next, Call(op, s.flags.up, !s.b.BNone? && !s.flags.busRunning))
  {
  }

  lemma MainLockedDoes(s: State, c: Call)
    requires Inv(s) && MainHolds(s.m) && Does(s, c)
    ensures Does(StepMainLocked(s).next, c)
  {
  }

  lemma MainWindingDoes(s: State, c: Call)
    requires Inv(s) && Winding(s.m) && StepMainWinding(s).To? && Does(s, c)
    ensures Does(StepMainWinding(s).next, c)
  {
  }

  lemma MainOpenDoes(s: State, c: Call)
    requires Inv(s) && !MainHolds(s.m) && !s.m.MIdle? && !Winding(s.m) && StepMainOpen(s).To? && Does(s, c)
    ensures Does(StepMainOpen(s).next, c)
  {
  }

  lemma OthersDo(s: State, act: Action, c: Call)
    requires Inv(s) && Does(s, c) && !act.MainStep? && Step(s, act).To?
    ensures Does(Step(s, act).next, c)
  {
    match act
    case AppsinkStep(round) => AppsinkLeavesMain(s, round);
    case BusStep(message) => BusLeavesMain(s, message);
    case DecoderEnds =>
  }

  lemma StepDoes(s: State, act: Action, c: Call)
    requires Inv(s) && Does(s, c) && Step(s, act).To?
    ensures Does(Step(s, act).next, Noted(s, act, c))
  {
    if !act.MainStep? {
      OthersDo(s, act, c);
    } else if s.m.MIdle? {
      BeginDoes(s, act.op);
    } else if MainHolds(s.m) {
      MainLockedDoes(s, c);
    } else if Winding(s.m) {
      MainWindingDoes(s, c);
    } else {
      MainOpenDoes(s, c);
    }
  }

  lemma {:induction false} RunDoes(s: State, acts: seq<Action>, c: Call)
    requires Inv(s) && Does(s, c) && Exec(s, acts).To?
    ensures Does(Exec(s, acts).next, Latest(s, acts, c))
    decreases |acts|
  {
    if acts != [] {
      ReplayFirst(Step, s, acts);
      StepKeeps(s, acts[0]);
      StepDoes(s, acts[0], c);
      RunDoes(Step(s, acts[0]).next, acts[1..], Noted(s, acts[0], c));
    }
  }

  /** What has come about when a call has returned, whatever the other threads did meanwhile: a recorder that
      could be made, or one from before, is installed after enable, and none after disable; a stop, a poll
      that found the bus thread gone and a start that failed leave everything down and no recorder; a start
      that succeeded leaves the pipeline up with both its threads. */
  lemma CallsAchieve(acts: seq<Action>)
    requires Exec(INIT, acts).To? && Exec(INIT, acts).next.m.MIdle?
    ensures var s := Exec(INIT, acts).next;
            var down := !s.flags.up && !s.flags.decoding && s.a.ANone? && s.b.BNone? && s.installed.None?;
            match Latest(INIT, acts, NoCall)
            case Call(Enable(created), _, _) => created ==> s.installed.Some?
            case Call(Disable, _, _) => s.installed.None?
            case Call(Stop, wasUp, _) => wasUp ==> down
            case Call(Poll, wasUp, gone) => if gone then down else s.flags.up == wasUp
            case Call(Start(outcome), wasUp, _) =>
              if wasUp || outcome.Succeeded? then s.flags.up && !s.a.ANone? && !s.b.BNone? else down
            case _ => true
  {
    RunKeeps(acts);
    RunDoes(INIT, acts, NoCall);
  }

  /** A poll lets a watched pipeline alone, and notices a bus thread that has ended. */
  lemma PollLooks(acts: seq<Action>)
    requires Exec(INIT, acts).To? && Exec(INIT, acts).next.m.MIdle?
    ensures var s := Exec(INIT, acts).next;
            && (s.b.BLoop? || s.b.BLast? || s.b.BNone? ==> Step(s, MainStep(Poll)) == To(s, []))
            && (s.b.BDone? || s.b.BFirst? ==> Step(s, MainStep(Poll)).next.m.MPollJoin?)
  {
    RunKeeps(acts);
  }

  /** The appsink thread never leaves unasked: when it is out somebody has requested it. */
  lemma AppsinkLeavesOnlyWhenTold(acts: seq<Action>)
    requires Exec(INIT, acts).To? && Exec(INIT, acts).next.a.ADone?
    ensures Exec(INIT, acts).next.flags.stop || !Exec(INIT, acts).next.flags.decoding
  {
    RunKeeps(acts);
  }

  // ---------- every sample is handed over ----------

  /** Whether a step pulls an eligible sample, and whether a thread is about to hand one over. */
  function Pulls(s: State, act: Action): nat { if s.a.APull? && act == AppsinkStep(Eligible) then 1 else 0 }

  function HasSample(a: AppsinkPc): nat { if a.ALock? || a.ALoad? || a.AUse? then 1 else 0 }

  /** The same for statistics asked for. */
  function Asks(s: State, act: Action): nat { if s.m.MIdle? && act == MainStep(Statistics) then 1 else 0 }

  function HasAsked(m: MainPc): nat { if m.MStatsLock? || m.MStatsLoad? || m.MStatsUse? then 1 else 0 }

  function Pulled(s: State, acts: seq<Action>): nat
    requires Exec(s, acts).To?
    decreases |acts|
  {
    if acts == [] then 0 else
      ReplayFirst(Step, s, acts);
      Pulls(s, acts[0]) + Pulled(Step(s, acts[0]).next, acts[1..])
  }

  function Asked(s: State, acts: seq<Action>): nat
    requires Exec(s, acts).To?
    decreases |acts|
  {
    if acts == [] then 0 else
      ReplayFirst(Step, s, acts);
      Asks(s, acts[0]) + Asked(Step(s, acts[0]).next, acts[1..])
  }

  function HandedOver(log: seq<Event>): nat {
    if log == [] then 0 else (if log[0].Handled? then 1 else 0) + HandedOver(log[1..])
  }

  function Consultations(log: seq<Event>): nat {
    if log == [] then 0 else (if log[0].Consulted? then 1 else 0) + Consultations(log[1..])
  }

  lemma CountsAppend(a: seq<Event>, b: seq<Event>)
    ensures HandedOver(a + b) == HandedOver(a) + HandedOver(b)
    ensures Consultations(a + b) == Consultations(a) + Consultations(b)
  {
    if a == [] {
      assert a + b == b;
    } else {
      assert (a + b)[1..] == a[1..] + b;
      CountsAppend(a[1..], b);
    }
  }

  predicate Served(s: State, act: Action, n: State, log: seq<Event>) {
    && HasSample(s.a) + Pulls(s, act) == (if log != [] && log[0].Handled? then 1 else 0) + HasSample(n.a)
    && HasAsked(s.m) + Asks(s, act) == (if log != [] && log[0].Consulted? then 1 else 0) + HasAsked(n.m)
  }

  lemma AppsinkServes(s: State, round: Round)
    requires StepAppsink(s, round).To?
    ensures Served(s, AppsinkStep(round), StepAppsink(s, round).next, StepAppsink(s, round).log)
  {
  }

  lemma BusServes(s: State, message: Message)
    requires StepBus(s, message).To?
    ensures Served(s, BusStep(message), StepBus(s, message).next, StepBus(s, message).log)
  {
  }

  lemma BeginServes(s: State, op: Operation)
    requires Inv(s) && s.m.MIdle? && Begin(s, op).To?
    ensures Served(s, MainStep(op), Begin(s, op).next, Begin(s, op).log)
  {
  }

  lemma MainLockedServes(s: State, op: Operation)
    requires MainHolds(s.m)
    ensures Served(s, MainStep(op), StepMainLocked(s).next, StepMainLocked(s).log)
  {
  }

  lemma MainWindingServes(s: State, op: Operation)
    requires Winding(s.m) && StepMainWinding(s).To?
    ensures Served(s, MainStep(op), StepMainWinding(s).next, StepMainWinding(s).log)
  {
  }

  lemma MainOpenServes(s: State, op: Operation)
    requires !MainHolds(s.m) && !s.m.MIdle? && !Winding(s.m) && StepMainOpen(s).To?
    ensures Served(s, MainStep(op), StepMainOpen(s).next, StepMainOpen(s).log)
  {
  }

  lemma StepServes(s: State, act: Action)
    requires Inv(s) && Step(s, act).To?
    ensures Served(s, act, Step(s, act).next, Step(s, act).log)
  {
    match act
    case AppsinkStep(round) => AppsinkServes(s, round);
    case BusStep(message) => BusServes(s, message);
    case DecoderEnds =>
    case MainStep(op) =>
      if s.m.MIdle? {
        BeginServes(s, op);
      } else if MainHolds(s.m) {
        MainLockedServes(s, op);
      } else if Winding(s.m) {
        MainWindingServes(s, op);
      } else {
        MainOpenServes(s, op);
      }
  }

  lemma OneEventCounts(log: seq<Event>)
    requires |log| <= 1
    ensures HandedOver(log) == if log != [] && log[0].Handled? then 1 else 0
    ensures Consultations(log) == if log != [] && log[0].Consulted? then 1 else 0
  {
    if log != [] {
      assert log[1..] == [];
    }
  }

  lemma {:induction false} RunServes(s: State, acts: seq<Action>)
    requires Inv(s) && Exec(s, acts).To?
    ensures var To(n, log) := Exec(s, acts);
            && HasSample(s.a) + Pulled(s, acts) == HandedOver(log) + HasSample(n.a)
            && HasAsked(s.m) + Asked(s, acts) == Consultations(log) + HasAsked(n.m)
    decreases |acts|
  {
    if acts != [] {
      ReplayFirst(Step, s, acts);
      var To(n, l) := Step(s, acts[0]);
      StepKeeps(s, acts[0]);
      StepServes(s, acts[0]);
      OneEventCounts(l);
      CountsAppend(l, Exec(n, acts[1..]).log);
      RunServes(n, acts[1..]);
    }
  }

  /** Every eligible sample is handed over, once: those pulled so far are those handed over, and one more while
      the appsink thread has it.  And every request for statistics consults the recorder once. */
  lemma EverySampleIsHandedOver(acts: seq<Action>)
    requires Exec(INIT, acts).To?
    ensures var To(s, log) := Exec(INIT, acts);
            && Pulled(INIT, acts) == HandedOver(log) + HasSample(s.a)
            && Asked(INIT, acts) == Consultations(log) + HasAsked(s.m)
  {
    RunServes(INIT, acts);
  }

  // ---------- which joins return ----------

  /** Steps of the appsink thread until it is out, at most, once it has been told to stop. */
  function AppsinkRank(a: AppsinkPc): nat {
    match a
    case ANone => 0
    case ADone => 0
    case ACheck => 1
    case AFeed => 2
    case AUnlock => 3
    case AUse(_) => 4
    case ALoad => 5
    case ALock => 6
    case APull => 7
  }

  predicate Told(s: State) { s.flags.stop || !s.flags.decoding }

  predicate WithoutMain(acts: seq<Action>) { forall i :: 0 <= i < |acts| ==> !acts[i].MainStep? }

  /** A step of the appsink thread, unless it may have been spent on a packet refused. */
  predicate Advances(act: Action) { act.AppsinkStep? && !act.round.Refused? }

  function AppsinkSteps(acts: seq<Action>): nat {
    if acts == [] then 0 else (if Advances(acts[0]) then 1 else 0) + AppsinkSteps(acts[1..])
  }

  lemma ToldStep(s: State, act: Action)
    requires Inv(s) && s.m.MJoin? && Told(s) && !act.MainStep? && Step(s, act).To?
    ensures var n := Step(s, act).next;
            && n.m == s.m && Told(n)
            && AppsinkRank(n.a) + (if Advances(act) then 1 else 0) <= AppsinkRank(s.a)
  {
    assert !act.AppsinkStep? ==> Step(s, act).next.a == s.a;
  }

  lemma {:induction false} ToldRun(s: State, more: seq<Action>)
    requires Inv(s) && s.m.MJoin? && Told(s) && WithoutMain(more) && Exec(s, more).To?
    ensures var n := Exec(s, more).next;
            Inv(n) && n.m == s.m && Told(n) && AppsinkSteps(more) + AppsinkRank(n.a) <= AppsinkRank(s.a)
    decreases |more|
  {
    if more != [] {
      ReplayFirst(Step, s, more);
      StepKeeps(s, more[0]);
      ToldStep(s, more[0]);
      ToldRun(Step(s, more[0]).next, more[1..]);
    }
  }

  /** A join of an appsink thread that has been told to stop: whatever the other threads do, that thread takes
      at most seven more steps beside those spent on packets the decoder refuses, it can always take the next
      one, and when it has none left the main thread goes on. */
  lemma JoinReturns(acts: seq<Action>, more: seq<Action>, op: Operation, round: Round)
    requires Exec(INIT, acts).To? && Exec(INIT, acts).next.m.MJoin? && Told(Exec(INIT, acts).next)
    requires WithoutMain(more) && Exec(Exec(INIT, acts).next, more).To?
    ensures var n := Exec(Exec(INIT, acts).next, more).next;
            && AppsinkSteps(more) + AppsinkRank(n.a) <= 7
            && (AppsinkRank(n.a) == 0 <==> Step(n, MainStep(op)).To?)
            && (AppsinkRank(n.a) > 0 <==> Step(n, AppsinkStep(round)).To?)
  {
    RunKeeps(acts);
    ToldRun(Exec(INIT, acts).next, more);
  }

  /** Waiting for a thread nobody will ever tell to stop. */
  predicate Forsaken(s: State) { s.m.MJoin? && !Told(s) && AppsinkRank(s.a) > 0 }

  lemma ForsakenStep(s: State, act: Action)
    requires Inv(s) && Forsaken(s) && Step(s, act).To?
    ensures Forsaken(Step(s, act).next)
  {
  }

  lemma {:induction false} ForsakenRun(s: State, more: seq<Action>)
    requires Inv(s) && Forsaken(s) && Exec(s, more).To?
    ensures Forsaken(Exec(s, more).next)
    decreases |more|
  {
    if more != [] {
      ReplayFirst(Step, s, more);
      StepKeeps(s, more[0]);
      ForsakenStep(s, more[0]);
      ForsakenRun(Step(s, more[0]).next, more[1..]);
    }
  }

  /** Letting the appsink thread run alone until it is out, and the join return. */
  lemma {:induction false} LetItEnd(s: State) returns (more: seq<Action>)
    requires Inv(s) && s.m.MJoin? && Told(s)
    ensures Exec(s, more).To? && !Exec(s, more).next.m.MJoin?
    decreases AppsinkRank(s.a)
  {
    var act := if AppsinkRank(s.a) == 0 then MainStep(Poll) else AppsinkStep(NoSample);
    var n := Step(s, act).next;
    if AppsinkRank(s.a) == 0 {
      more := [];
    } else {
      StepKeeps(s, act);
      ToldStep(s, act);
      more := LetItEnd(n);
    }
    ReplayCons(Step, s, act, more);
    more := [act] + more;
  }

  /** Exactly which joins of a live appsink thread can return at all: the one in a stop, and the one in a poll
      when the bus thread had a bus to watch (for how long those may wait, see FeedWaitsExactly).  The others,
      after a start that could not make the bus thread and in a poll after a bus thread that found no bus,
      never return under any schedule. */
  lemma JoinReturnsExactly(acts: seq<Action>)
    requires Exec(INIT, acts).To? && Exec(INIT, acts).next.m.MJoin? && AppsinkRank(Exec(INIT, acts).next.a) > 0
    ensures var s := Exec(INIT, acts).next;
            (s.m.entry == FromStop || s.m.entry == FromPoll(true)) <==>
            exists more: seq<Action> :: Exec(s, more).To? && !Exec(s, more).next.m.MJoin?
  {
    RunKeeps(acts);
    var s := Exec(INIT, acts).next;
    if Told(s) {
      var more := LetItEnd(s);
    } else {
      forall more: seq<Action> | Exec(s, more).To? ensures Exec(s, more).next.m.MJoin? {
        ForsakenRun(s, more);
      }
    }
  }

  /** All steps of the appsink thread. */
  function AllAppsinkSteps(acts: seq<Action>): nat {
    if acts == [] then 0 else (if acts[0].AppsinkStep? then 1 else 0) + AllAppsinkSteps(acts[1..])
  }

  /** Told to stop, but not before a packet it holds, or may still pull, is taken or the decoder ends. */
  predicate MayFeed(s: State) { s.flags.live && AppsinkRank(s.a) >= 2 }

  lemma NotFeedingStep(s: State, act: Action)
    requires Inv(s) && s.m.MJoin? && Told(s) && !MayFeed(s) && !act.MainStep? && Step(s, act).To?
    ensures var n := Step(s, act).next;
            && n.m == s.m && Told(n) && !MayFeed(n)
            && AppsinkRank(n.a) + (if act.AppsinkStep? then 1 else 0) <= AppsinkRank(s.a)
  {
  }

  lemma {:induction false} NotFeedingRun(s: State, more: seq<Action>)
    requires Inv(s) && s.m.MJoin? && Told(s) && !MayFeed(s) && WithoutMain(more) && Exec(s, more).To?
    ensures AllAppsinkSteps(more) <= AppsinkRank(s.a) <= 7
    decreases |more|
  {
    if more != [] {
      ReplayFirst(Step, s, more);
      StepKeeps(s, more[0]);
      NotFeedingStep(s, more[0]);
      NotFeedingRun(Step(s, more[0]).next, more[1..]);
    }
  }

  function Refusals(n: nat): seq<Action> {
    if n == 0 then [] else [AppsinkStep(Refused)] + Refusals(n - 1)
  }

  lemma {:induction false} RefusalsWait(s: State, n: nat)
    requires s.m.MJoin? && s.a.AFeed? && s.flags.live
    ensures Exec(s, Refusals(n)) == To(s, []) && WithoutMain(Refusals(n)) && AllAppsinkSteps(Refusals(n)) == n
    decreases n
  {
    if n > 0 {
      RefusalsWait(s, n - 1);
      ReplayCons(Step, s, AppsinkStep(Refused), Refusals(n - 1));
      assert Refusals(n)[1..] == Refusals(n - 1);
    }
  }

  /** The appsink thread runs alone, pulls a packet if it has none, and has it refused n times. */
  lemma {:induction false} KeepsFeeding(s: State, n: nat) returns (more: seq<Action>)
    requires Inv(s) && s.m.MJoin? && MayFeed(s)
    ensures Exec(s, more).To? && WithoutMain(more) && AllAppsinkSteps(more) >= n
    decreases AppsinkRank(s.a)
  {
    if s.a.AFeed? {
      RefusalsWait(s, n);
      more := Refusals(n);
    } else {
      var act := AppsinkStep(Eligible);
      StepKeeps(s, act);
      var rest := KeepsFeeding(Step(s, act).next, n);
      ReplayCons(Step, s, act, rest);
      more := [act] + rest;
      assert more[1..] == rest;
    }
  }

  predicate Waits(s: State, more: seq<Action>, n: nat) {
    Exec(s, more).To? && WithoutMain(more) && AllAppsinkSteps(more) >= n
  }

  /** The main thread may still be in its join when the appsink thread has taken n steps. */
  ghost predicate MayWait(s: State, n: nat) { exists more: seq<Action> :: Waits(s, more, n) }

  /** Exactly how long the join of an appsink thread told to stop may wait: without bound if and only if that
      thread holds a packet, or may still pull one, while the decoder runs.  Then the decoder may refuse it any
      number of times, and stopping the decoder comes only after the join; otherwise seven steps are the most
      the thread takes under any schedule. */
  lemma FeedWaitsExactly(acts: seq<Action>)
    requires Exec(INIT, acts).To? && Exec(INIT, acts).next.m.MJoin? && Told(Exec(INIT, acts).next)
    ensures var s := Exec(INIT, acts).next;
            MayFeed(s) <==> forall n: nat :: MayWait(s, n)
  {
    RunKeeps(acts);
    var s := Exec(INIT, acts).next;
    if MayFeed(s) {
      forall n: nat ensures MayWait(s, n) {
        var more := KeepsFeeding(s, n);
        assert Waits(s, more, n);
      }
    } else {
      forall more: seq<Action> ensures !Waits(s, more, 8) {
        if Exec(s, more).To? && WithoutMain(more) {
          NotFeedingRun(s, more);
        }
      }
      assert !MayWait(s, 8);
    }
  }

  // A run in which a stop comes while the appsink thread offers a packet to the decoder.

  const STARTED: State := INIT.(flags := Flags(true, false, true, false, true), a := ACheck, b := BFirst)
  const FEEDING: State := STARTED.(a := AFeed)
  const STOPPING: State := FEEDING.(flags := FEEDING.flags.(stop := true), m := MJoin(FromStop))

  lemma StartIsMade(rest: seq<Action>)
    requires Exec(STARTED, rest).To?
    ensures var start := MainStep(Start(Succeeded));
            var acts := [start] + ([start] + rest);
            Exec(INIT, acts).To? && Exec(INIT, acts).next == Exec(STARTED, rest).next
  {
    var start := MainStep(Start(Succeeded));
    var made := INIT.(flags := Flags(false, false, true, false, true), a := ACheck, m := MMakeBus(true));
    ReplayCons(Step, made, start, rest);
    ReplayCons(Step, INIT, start, [start] + rest);
  }

  lemma FeedIsReached(rest: seq<Action>)
    requires Exec(FEEDING, rest).To?
    ensures var pull := AppsinkStep(Eligible);
            var acts := [pull, pull, pull, pull, pull, pull] + rest;
            Exec(STARTED, acts).To? && Exec(STARTED, acts).next == Exec(FEEDING, rest).next
  {
    var pull := AppsinkStep(Eligible);
    var held := STARTED.(lock := HeldByAppsink);
    ReplayCons(Step, held.(a := AUnlock), pull, rest);
    ReplayCons(Step, held.(a := AUse(None)), pull, [pull] + rest);
    ReplayCons(Step, held.(a := ALoad), pull, [pull] + ([pull] + rest));
    ReplayCons(Step, STARTED.(a := ALock), pull, [pull] + ([pull] + ([pull] + rest)));
    ReplayCons(Step, STARTED.(a := APull), pull, [pull] + ([pull] + ([pull] + ([pull] + rest))));
    ReplayCons(Step, STARTED, pull, [pull] + ([pull] + ([pull] + ([pull] + ([pull] + rest)))));
    assert [pull, pull, pull, pull, pull, pull] + rest
        == [pull] + ([pull] + ([pull] + ([pull] + ([pull] + ([pull] + rest)))));
  }

  /** Such a stop happens: what FeedWaitsExactly says applies to it. */
  lemma StopWhileFeeding()
    ensures exists acts: seq<Action> :: Exec(INIT, acts).To? && Exec(INIT, acts).next == STOPPING && MayFeed(STOPPING)
  {
    var pull, start, stop := AppsinkStep(Eligible), MainStep(Start(Succeeded)), MainStep(Stop);
    assert Exec(STOPPING, []).To?;
    ReplayCons(Step, FEEDING, stop, []);
    FeedIsReached([stop] + []);
    StartIsMade([pull, pull, pull, pull, pull, pull] + ([stop] + []));
  }

  /** A start that fails to make the bus thread waits for ever for the appsink thread it has made. */
  lemma FailingStartHangs(more: seq<Action>)
    requires Exec(INIT, [MainStep(Start(NoBusThread)), MainStep(Poll)] + more).To?
    ensures Exec(INIT, [MainStep(Start(NoBusThread)), MainStep(Poll)] + more).next.m == MJoin(FromFailedStart)
  {
    var first, second := MainStep(Start(NoBusThread)), MainStep(Poll);
    var acts := [first, second] + more;
    var s1 := Step(INIT, first).next;
    var s2 := Step(s1, second).next;
    ReplayFirst(Step, INIT, acts);
    assert acts[1..] == [second] + more;
    ReplayFirst(Step, s1, acts[1..]);
    assert acts[1..][1..] == more;
    WaitingForAppsink(s2, more);
  }

  lemma {:induction false} WaitingForAppsink(s: State, more: seq<Action>)
    requires Inv(s) && Forsaken(s) && s.m == MJoin(FromFailedStart) && Exec(s, more).To?
    ensures Exec(s, more).next.m == MJoin(FromFailedStart)
    decreases |more|
  {
    if more != [] {
      ReplayFirst(Step, s, more);
      StepKeeps(s, more[0]);
      ForsakenStep(s, more[0]);
      WaitingForAppsink(Step(s, more[0]).next, more[1..]);
    }
  }

  /** The same for the bus thread; messages of no interest keep it from looking at the flag. */
  function BusRank(b: BusPc): nat {
    match b
    case BNone => 0
    case BDone(_) => 0
    case BLast => 1
    case BLoop => 2
    case BFirst => 3
  }

  function BusSteps(acts: seq<Action>): nat {
    if acts == [] then 0
    else (if acts[0].BusStep? && !acts[0].message.Other? then 1 else 0) + BusSteps(acts[1..])
  }

  lemma BusToldStep(s: State, act: Action)
    requires Inv(s) && s.m.MJoinBus? && !act.MainStep? && Step(s, act).To?
    ensures var n := Step(s, act).next;
            n.m == s.m && BusRank(n.b) + (if act.BusStep? && !act.message.Other? then 1 else 0) <= BusRank(s.b)
  {
  }

  lemma {:induction false} BusToldRun(s: State, more: seq<Action>)
    requires Inv(s) && s.m.MJoinBus? && WithoutMain(more) && Exec(s, more).To?
    ensures var n := Exec(s, more).next;
            Inv(n) && n.m == s.m && BusSteps(more) + BusRank(n.b) <= BusRank(s.b)
    decreases |more|
  {
    if more != [] {
      ReplayFirst(Step, s, more);
      StepKeeps(s, more[0]);
      BusToldStep(s, more[0]);
      BusToldRun(Step(s, more[0]).next, more[1..]);
    }
  }

  /** The join of the bus thread that follows returns: that thread takes at most three more steps that are
      not spent on messages of no interest, and can always take the next one. */
  lemma BusJoinReturns(acts: seq<Action>, more: seq<Action>, op: Operation)
    requires Exec(INIT, acts).To? && Exec(INIT, acts).next.m.MJoinBus?
    requires WithoutMain(more) && Exec(Exec(INIT, acts).next, more).To?
    ensures var n := Exec(Exec(INIT, acts).next, more).next;
            && BusSteps(more) + BusRank(n.b) <= 3
            && (BusRank(n.b) == 0 <==> Step(n, MainStep(op)).To?)
            && (BusRank(n.b) > 0 <==> Step(n, BusStep(Quiet)).To?)
  {
    RunKeeps(acts);
    BusToldRun(Exec(INIT, acts).next, more);
  }

  /** The bus thread alone, finding no message n times. */
  function Quietly(n: nat): seq<Action> {
    if n == 0 then [] else [BusStep(Quiet)] + Quietly(n - 1)
  }

  /** The poll's join of the bus thread is still waiting. */
  predicate PollWaits(s: State) { s.m.MPollJoin? && !s.b.BDone? }

  lemma {:induction false} QuietBusStays(s: State, n: nat)
    requires Inv(s) && s.m.MPollJoin? && (s.b.BFirst? || s.b.BLoop?)
    ensures Exec(s, Quietly(n)).To? && PollWaits(Exec(s, Quietly(n)).next)
    decreases n
  {
    if n > 0 {
      var act := BusStep(Quiet);
      StepKeeps(s, act);
      QuietBusStays(Step(s, act).next, n - 1);
      ReplayCons(Step, s, act, Quietly(n - 1));
    }
  }

  lemma LastBusStep(s: State)
    requires Inv(s) && s.m.MPollJoin? && (s.b.BLast? || s.b.BDone?)
    ensures !(Exec(s, Quietly(1)).To? && PollWaits(Exec(s, Quietly(1)).next))
  {
    assert Quietly(1) == [BusStep(Quiet)];
    if Exec(s, Quietly(1)).To? {
      ReplayFirst(Step, s, Quietly(1));
      assert Quietly(1)[1..] == [];
    }
  }

  /** Exactly which polls may wait without bound: those that join a bus thread which has not left its loop.
      As long as it finds no message it stays, and the main thread with it; once it is on its way out (the
      other case) PollJoinReturns bounds the wait. */
  lemma PollWaitsExactly(acts: seq<Action>)
    requires Exec(INIT, acts).To? && Exec(INIT, acts).next.m.MPollJoin?
    ensures var s := Exec(INIT, acts).next;
            (s.b.BFirst? || s.b.BLoop?) <==>
            forall n: nat :: Exec(s, Quietly(n)).To? && PollWaits(Exec(s, Quietly(n)).next)
  {
    RunKeeps(acts);
    var s := Exec(INIT, acts).next;
    if s.b.BFirst? || s.b.BLoop? {
      forall n: nat ensures Exec(s, Quietly(n)).To? && PollWaits(Exec(s, Quietly(n)).next) {
        QuietBusStays(s, n);
      }
    } else {
      LastBusStep(s);
    }
  }

  lemma LeavingStep(s: State, act: Action)
    requires Inv(s) && s.m.MPollJoin? && (s.b.BLast? || s.b.BDone?) && !act.MainStep? && Step(s, act).To?
    ensures var n := Step(s, act).next;
            && n.m == s.m && (n.b.BLast? || n.b.BDone?)
            && BusRank(n.b) + (if act.BusStep? then 1 else 0) <= BusRank(s.b)
  {
  }

  function AllBusSteps(acts: seq<Action>): nat {
    if acts == [] then 0 else (if acts[0].BusStep? then 1 else 0) + AllBusSteps(acts[1..])
  }

  lemma {:induction false} LeavingRun(s: State, more: seq<Action>)
    requires Inv(s) && s.m.MPollJoin? && (s.b.BLast? || s.b.BDone?) && WithoutMain(more) && Exec(s, more).To?
    ensures var n := Exec(s, more).next;
            && Inv(n) && n.m == s.m && (n.b.BLast? || n.b.BDone?)
            && AllBusSteps(more) + BusRank(n.b) <= BusRank(s.b)
    decreases |more|
  {
    if more != [] {
      ReplayFirst(Step, s, more);
      StepKeeps(s, more[0]);
      LeavingStep(s, more[0]);
      LeavingRun(Step(s, more[0]).next, more[1..]);
    }
  }

  /** A poll that joins a bus thread which has left its loop returns from that join after at most one step of
      the bus thread, which it can always take. */
  lemma PollJoinReturns(acts: seq<Action>, more: seq<Action>, op: Operation, message: Message)
    requires Exec(INIT, acts).To? && Exec(INIT, acts).next.m.MPollJoin?
    requires Exec(INIT, acts).next.b.BLast? || Exec(INIT, acts).next.b.BDone?
    requires WithoutMain(more) && Exec(Exec(INIT, acts).next, more).To?
    ensures var n := Exec(Exec(INIT, acts).next, more).next;
            && AllBusSteps(more) + BusRank(n.b) <= 1
            && (BusRank(n.b) == 0 <==> Step(n, MainStep(op)).To?)
            && (BusRank(n.b) > 0 <==> Step(n, BusStep(message)).To?)
  {
    RunKeeps(acts);
    LeavingRun(Exec(INIT, acts).next, more);
  }

  /** Such a poll happens: right after a start, before the bus thread has taken its first step. */
  lemma PollRightAfterStart(op: Operation)
    ensures var acts := [MainStep(Start(Succeeded)), MainStep(op), MainStep(Poll)];
            Exec(INIT, acts).To? && Exec(INIT, acts).next.m.MPollJoin? && Exec(INIT, acts).next.b.BFirst?
  {
    var s1 := Step(INIT, MainStep(Start(Succeeded))).next;
    var s2 := Step(s1, MainStep(op)).next;
    var s3 := Step(s2, MainStep(Poll)).next;
    assert Exec(s3, []).To?;
    ReplayCons(Step, s2, MainStep(Poll), []);
    assert [MainStep(Poll)] + [] == [MainStep(Poll)];
    ReplayCons(Step, s1, MainStep(op), [MainStep(Poll)]);
    assert [MainStep(op)] + [MainStep(Poll)] == [MainStep(op), MainStep(Poll)];
    ReplayCons(Step, INIT, MainStep(Start(Succeeded)), [MainStep(op), MainStep(Poll)]);
    assert [MainStep(Start(Succeeded))] + [MainStep(op), MainStep(Poll)]
        == [MainStep(Start(Succeeded)), MainStep(op), MainStep(Poll)];
  }

  /** A poll after a bus thread that found no bus: it joins an appsink thread nobody has told to stop. */
  lemma PollAfterNoBus(op: Operation)
    ensures exists acts: seq<Action> ::
              && Exec(INIT, acts).To?
              && Exec(INIT, acts).next.m == MJoin(FromPoll(false)) && Forsaken(Exec(INIT, acts).next)
  {
    var poll := MainStep(Poll);
    var gone := STARTED.(b := BDone(false));
    var joining := gone.(m := MPollJoin);
    var waiting := gone.(b := BNone, m := MJoin(FromPoll(false)));
    assert Exec(waiting, []).To?;
    ReplayCons(Step, joining, poll, []);
    ReplayCons(Step, gone, poll, [poll] + []);
    ReplayCons(Step, STARTED, BusStep(NoBus), [poll] + ([poll] + []));
    StartIsMade([BusStep(NoBus)] + ([poll] + ([poll] + [])));
  }
}
