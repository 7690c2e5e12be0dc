/** The signal watcher thread and the main loop that acts on its flags.  Neither takes a lock: every load
    and every store of a flag is an atomic step of its own, so `flag++` is two of them.  Calls into the
    pipeline are single steps whose outcome is an input. */
module MainLoop {
  import opened Runs

  datatype Signal = Interrupt | Terminate | Hangup | User1 | User2

  datatype Request = StartRecording | StopRecording | Restart | Exit

  datatype WatcherPc =
    | WWait
    | WStoreStart(loaded: nat)               // between the load and the store of a flag++
    | WStoreStop(loaded: nat)
    | WDone

  datatype MainPc =
    | MBoot                                  // the pipeline has just been started
    | MPoll | MTestExit
    | MTestStart | MClearStart | MActStart
    | MTestStop | MClearStop | MActStop
    | MTestRestart | MClearRestart | MActRestart
    | MStopWait                              // inside the stop of a restart, which has to wait
    | MStartAgain                            // the old pipeline is stopped, the new one not yet started
    | MPollChild
    | MPollWait                              // inside a poll that joins a thread still at work
    | MTestDown
    | MLeft                                  // out of the loop
    | MDone                                  // pipeline_stop has returned

  datatype Flags = Flags(start: nat, stop: nat, restart: bool, exit: bool)

  /** enable is cfg.record.enable; up says the pipeline is RUNNING, installed that it has a recorder. */
  datatype Pipeline = Pipeline(enable: bool, up: bool, installed: bool)

  datatype State = State(flags: Flags, w: WatcherPc, m: MainPc, ps: Pipeline)

  datatype Action =
    | Deliver(signal: Signal)                // sigwaitinfo returns
    | WatcherStep
    | MainStep(world: World)

  /** What a poll finds: a bus thread at work, one that has ended, or a thread to be joined that still works,
      for which it has to wait. */
  datatype PollAnswer = Alive | Gone | Waits

  /** How the calls of one main step turn out: whether a recorder can be made (its output path is not
      empty, and so on), whether pipeline_start succeeds, what a poll finds, and whether pipeline_stop still
      has to wait for the appsink thread. */
  datatype World = World(created: bool, started: bool, poll: PollAnswer, stopWaits: bool)

  datatype Event =
    | Recorded(request: Request)             // the store that makes a request visible
    | Begun(request: Request)                // the main thread starts to act on it
    | Attempt(created: bool)                 // one try to make a recorder
    | Restarted(started: bool)               // what a restart has come to
    | Ended                                  // the pipeline is stopped for good

  type Outcome = Runs.Outcome<State, Event>

  function Init(enable: bool): State {
    State(Flags(0, 0, false, false), WWait, MBoot, Pipeline(enable, true, false))
  }

  function StepWatcher(s: State, act: Action): Outcome
    requires !act.MainStep?
  {
    match s.w
    case WWait =>
      if act.WatcherStep? then Stuck else
        (match act.signal
         case Interrupt => To(s.(flags := s.flags.(exit := true)), [Recorded(Exit)])
         case Terminate => To(s.(flags := s.flags.(exit := true), w := WDone), [Recorded(Exit)])
         case Hangup => To(s.(flags := s.flags.(restart := true)), [Recorded(Restart)])
         case User1 => To(s.(w := WStoreStart(s.flags.start)), [])
         case User2 => To(s.(w := WStoreStop(s.flags.stop)), []))
    case WStoreStart(loaded) =>
      if act.WatcherStep? then To(s.(flags := s.flags.(start := loaded + 1), w := WWait), [Recorded(StartRecording)])
      else Stuck
    case WStoreStop(loaded) =>
      if act.WatcherStep? then To(s.(flags := s.flags.(stop := loaded + 1), w := WWait), [Recorded(StopRecording)])
      else Stuck
    case WDone => Stuck
  }

  /** pipeline_enable_recording: an installed recorder stays, whatever became of the new one. */
  function TryRecorder(ps: Pipeline, created: bool): Pipeline {
    ps.(installed := ps.installed || created)
  }

  predicate Testing(m: MainPc) {
    m.MPoll? || m.MTestExit? || m.MTestStart? || m.MClearStart? || m.MTestStop? || m.MClearStop? ||
    m.MTestRestart? || m.MClearRestart?
  }

  function StepTesting(s: State): Outcome
    requires Testing(s.m)
  {
    match s.m
    case MPoll => To(s.(m := MTestExit), [])
    case MTestExit => if s.flags.exit then To(s.(m := MLeft), [Begun(Exit)]) else To(s.(m := MTestStart), [])
    case MTestStart => To(s.(m := if s.flags.start > 0 then MClearStart else MTestStop), [])
    case MClearStart => To(s.(flags := s.flags.(start := 0), m := MActStart), [])
    case MTestStop => To(s.(m := if s.flags.stop > 0 then MClearStop else MTestRestart), [])
    case MClearStop => To(s.(flags := s.flags.(stop := 0), m := MActStop), [])
    case MTestRestart => To(s.(m := if s.flags.restart then MClearRestart else MPollChild), [])
    case MClearRestart => To(s.(flags := s.flags.(restart := false), m := MActRestart), [])
  }

  predicate Recording(m: MainPc) { m.MBoot? || m.MActStart? || m.MActStop? }

  function StepRecording(s: State, world: World): Outcome
    requires Recording(s.m)
  {
    match s.m
    case MBoot =>
      if s.ps.enable then To(s.(ps := TryRecorder(s.ps, world.created), m := MPoll), [Attempt(world.created)])
      else To(s.(m := MPoll), [])
    case MActStart =>
      var on := s.ps.(enable := true);
      if s.ps.up then
        To(s.(ps := TryRecorder(on, world.created), m := MTestStop), [Begun(StartRecording), Attempt(world.created)])
      else To(s.(ps := on, m := MTestStop), [Begun(StartRecording)])
    case MActStop =>
      To(s.(ps := s.ps.(enable := false, installed := s.ps.installed && !s.ps.up), m := MTestRestart),
         [Begun(StopRecording)])
  }

  /** A pipeline stopped: pipeline_stop, or a poll, frees the recorder with the rest. */
  function Down(ps: Pipeline): Pipeline { ps.(up := false, installed := false) }

  predicate Lifecycle(m: MainPc) { !Testing(m) && !Recording(m) }

  function StepLifecycle(s: State, world: World): Outcome
    requires Lifecycle(s.m)
  {
    match s.m
    case MActRestart =>
      if world.stopWaits then To(s.(m := MStopWait), [Begun(Restart)])
      else To(s.(ps := Down(s.ps), m := MStartAgain), [Begun(Restart)])
    case MStopWait => if world.stopWaits then Stuck else To(s.(ps := Down(s.ps), m := MStartAgain), [])
    case MStartAgain =>
      var again := s.ps.(up := true);
      if !world.started then To(s.(flags := s.flags.(exit := true), m := MPollChild), [Restarted(false)])
      else if s.ps.enable then
        To(s.(ps := TryRecorder(again, world.created), m := MPollChild), [Restarted(true), Attempt(world.created)])
      else To(s.(ps := again, m := MPollChild), [Restarted(true)])
    case MPollChild =>
      if !s.ps.up || world.poll.Alive? then To(s.(m := MTestDown), [])
      else if world.poll.Waits? then To(s.(m := MPollWait), [])
      else To(s.(ps := Down(s.ps), m := MTestDown), [Ended])
    case MPollWait => if world.poll.Gone? then To(s.(ps := Down(s.ps), m := MTestDown), [Ended]) else Stuck
    case MTestDown =>
      if s.ps.up then To(s.(m := MPoll), [])
      else To(s.(flags := s.flags.(exit := true), m := MLeft), [Begun(Exit)])
    case MLeft => To(s.(ps := Down(s.ps), m := MDone), [Ended])
    case MDone => Stuck
  }

  function Step(s: State, act: Action): Outcome {
    if !act.MainStep? then StepWatcher(s, act)
    else if Testing(s.m) then StepTesting(s)
    else if Recording(s.m) then StepRecording(s, act.world)
    else StepLifecycle(s, act.world)
  }

  function Exec(s: State, acts: seq<Action>): Outcome { Replay(Step, s, acts) }

  // ---------- what a log says ----------

  /** Some request of this kind was recorded and no action of its kind has begun since. */
  predicate Unanswered(log: seq<Event>, k: Request) {
    if log == [] then false else
      var e := log[|log| - 1];
      if e == Recorded(k) then true
      else if e == Begun(k) then false
      else Unanswered(log[..|log| - 1], k)
  }

  function Count(log: seq<Event>, e: Event): nat {
    if log == [] then 0 else Count(log[..|log| - 1], e) + (if log[|log| - 1] == e then 1 else 0)
  }

  /** Whether the latest try to make a recorder failed. */
  predicate LastAttemptFailed(log: seq<Event>) {
    if log == [] then false else
      var e := log[|log| - 1];
      if e.Attempt? then !e.created else LastAttemptFailed(log[..|log| - 1])
  }

  /** Whether recording is wanted, when it was wanted at the start as `first` says: the later of the start
      and stop requests acted on decides. */
  predicate Wanted(first: bool, log: seq<Event>) {
    if log == [] then first else
      var e := log[|log| - 1];
      if e == Begun(StartRecording) then true
      else if e == Begun(StopRecording) then false
      else Wanted(first, log[..|log| - 1])
  }

  lemma LogSnoc(log: seq<Event>, e: Event, k: Request, x: Event, first: bool)
    ensures Unanswered(log + [e], k) == (e == Recorded(k) || (e != Begun(k) && Unanswered(log, k)))
    ensures Count(log + [e], x) == Count(log, x) + (if e == x then 1 else 0)
    ensures LastAttemptFailed(log + [e]) == if e.Attempt? then !e.created else LastAttemptFailed(log)
    ensures Wanted(first, log + [e])
            == (e == Begun(StartRecording) || (e != Begun(StopRecording) && Wanted(first, log)))
  {
    assert (log + [e])[..|log|] == log;
  }

  // ---------- the invariant ----------

  predicate Flag(s: State, k: Request) {
    match k
    case StartRecording => s.flags.start > 0
    case StopRecording => s.flags.stop > 0
    case Restart => s.flags.restart
    case Exit => s.flags.exit
  }

  predicate Acting(m: MainPc, k: Request) {
    match k
    case StartRecording => m.MActStart?
    case StopRecording => m.MActStop?
    case Restart => m.MActRestart?
    case Exit => m.MLeft? || m.MDone?
  }

  /** The request cannot be forgotten: its flag is up, or the flag is down and the action comes next. */
  predicate Owed(s: State, k: Request) { Flag(s, k) || Acting(s.m, k) }

  predicate FlagInv(s: State) {
    && (s.m.MClearStart? ==> s.flags.start > 0)
    && (s.m.MClearStop? ==> s.flags.stop > 0)
    && (s.m.MClearRestart? ==> s.flags.restart)
  }

  predicate RecorderInv(s: State) {
    && (!s.ps.up ==> !s.ps.installed)
    && (!s.ps.up ==> s.m.MStartAgain? || s.m.MPollChild? || s.m.MTestDown? || s.m.MLeft? || s.m.MDone?)
    && (s.m.MStartAgain? ==> !s.ps.up)
    && (s.ps.installed ==> s.ps.enable && !s.m.MBoot?)
  }

  predicate Inv(s: State) { FlagInv(s) && RecorderInv(s) }

  function Weight(s: State, k: Request): nat {
    (if Flag(s, k) then 1 else 0) + (if Acting(s.m, k) then 1 else 0)
  }

  predicate RequestAgrees(s: State, log: seq<Event>, k: Request) {
    && (Unanswered(log, k) ==> Owed(s, k))
    && (!k.Exit? ==>
          Count(log, Begun(k)) + Weight(s, k) <= Count(log, Recorded(k)))
  }

  predicate RecorderAgrees(s: State, first: bool, log: seq<Event>) {
    && s.ps.enable == Wanted(first, log)
    && (Missing(s) ==> LastAttemptFailed(log))
  }

  lemma WatcherKeepsFlags(s: State, act: Action)
    requires FlagInv(s) && !act.MainStep? && StepWatcher(s, act).To?
    ensures FlagInv(StepWatcher(s, act).next)
  {
  }

  lemma TestingKeepsFlags(s: State)
    requires FlagInv(s) && Testing(s.m) && StepTesting(s).To?
    ensures FlagInv(StepTesting(s).next)
  {
  }

  lemma RecordingKeepsFlags(s: State, world: World)
    requires FlagInv(s) && Recording(s.m) && StepRecording(s, world).To?
    ensures FlagInv(StepRecording(s, world).next)
  {
  }

  lemma LifecycleKeepsFlags(s: State, world: World)
    requires FlagInv(s) && Lifecycle(s.m) && StepLifecycle(s, world).To?
    ensures FlagInv(StepLifecycle(s, world).next)
  {
  }

  lemma StepKeepsFlags(s: State, act: Action)
    requires FlagInv(s) && Step(s, act).To?
    ensures FlagInv(Step(s, act).next)
  {
    if !act.MainStep? {
      WatcherKeepsFlags(s, act);
    } else if Testing(s.m) {
      TestingKeepsFlags(s);
    } else if Recording(s.m) {
      RecordingKeepsFlags(s, act.world);
    } else {
      LifecycleKeepsFlags(s, act.world);
    }
  }

  /** What a step may do to the recorder, against the events it leaves. */
  predicate RecorderEffect(s: State, n: State, more: seq<Event>) {
    && Short(more)
    && (n.ps.enable <==>
          (more != [] && more[0] == Begun(StartRecording)) ||
          (s.ps.enable && !(more != [] && more[0] == Begun(StopRecording))))
    && (Missing(n) ==> if more != [] && more[|more| - 1].Attempt? then !more[|more| - 1].created else Missing(s))
  }

  predicate Missing(s: State) { s.ps.up && s.ps.enable && !s.ps.installed && !s.m.MBoot? }

  /** A step leaves at most one event, or an action and the attempt it makes. */
  predicate Short(more: seq<Event>) {
    |more| <= 2 && (|more| == 2 ==> (more[0].Begun? || more[0].Restarted?) && more[1].Attempt?)
  }

  lemma WatcherKeepsRecorder(s: State, act: Action)
    requires RecorderInv(s) && !act.MainStep? && StepWatcher(s, act).To?
    ensures RecorderInv(StepWatcher(s, act).next)
    ensures RecorderEffect(s, StepWatcher(s, act).next, StepWatcher(s, act).log)
  {
  }

  lemma TestingKeepsRecorder(s: State)
    requires RecorderInv(s) && Testing(s.m) && StepTesting(s).To?
    ensures RecorderInv(StepTesting(s).next)
    ensures RecorderEffect(s, StepTesting(s).next, StepTesting(s).log)
  {
  }

  lemma RecordingKeepsRecorder(s: State, world: World)
    requires RecorderInv(s) && Recording(s.m) && StepRecording(s, world).To?
    ensures RecorderInv(StepRecording(s, world).next)
    ensures RecorderEffect(s, StepRecording(s, world).next, StepRecording(s, world).log)
  {
  }

  lemma LifecycleKeepsRecorder(s: State, world: World)
    requires RecorderInv(s) && Lifecycle(s.m) && StepLifecycle(s, world).To?
    ensures RecorderInv(StepLifecycle(s, world).next)
    ensures RecorderEffect(s, StepLifecycle(s, world).next, StepLifecycle(s, world).log)
  {
  }

  lemma StepKeepsRecorder(s: State, act: Action)
    requires RecorderInv(s) && Step(s, act).To?
    ensures RecorderInv(Step(s, act).next)
    ensures RecorderEffect(s, Step(s, act).next, Step(s, act).log)
  {
    if !act.MainStep? {
      WatcherKeepsRecorder(s, act);
    } else if Testing(s.m) {
      TestingKeepsRecorder(s);
    } else if Recording(s.m) {
      RecordingKeepsRecorder(s, act.world);
    } else {
      LifecycleKeepsRecorder(s, act.world);
    }
  }

  /** What a step may do to a request: it may be forgotten only by beginning to act on it. */
  predicate RequestEffect(s: State, n: State, more: seq<Event>, k: Request) {
    var recorded, begun := more != [] && more[0] == Recorded(k), more != [] && more[0] == Begun(k);
    && Short(more)
    && (recorded ==> Flag(n, k))
    && (Owed(s, k) && !begun ==> Owed(n, k))
    && (!k.Exit? ==> (if begun then 1 else 0) + Weight(n, k) <= Weight(s, k) + (if recorded then 1 else 0))
  }

  lemma WatcherServes(s: State, k: Request, act: Action)
    requires FlagInv(s) && !act.MainStep? && StepWatcher(s, act).To?
    ensures RequestEffect(s, StepWatcher(s, act).next, StepWatcher(s, act).log, k)
  {
  }

  lemma TestingServes(s: State, k: Request)
    requires FlagInv(s) && Testing(s.m) && StepTesting(s).To?
    ensures RequestEffect(s, StepTesting(s).next, StepTesting(s).log, k)
  {
  }

  lemma RecordingServes(s: State, k: Request, world: World)
    requires FlagInv(s) && Recording(s.m) && StepRecording(s, world).To?
    ensures RequestEffect(s, StepRecording(s, world).next, StepRecording(s, world).log, k)
  {
  }

  lemma LifecycleServes(s: State, k: Request, world: World)
    requires FlagInv(s) && Lifecycle(s.m) && StepLifecycle(s, world).To?
    ensures RequestEffect(s, StepLifecycle(s, world).next, StepLifecycle(s, world).log, k)
  {
  }

  lemma StepServes(s: State, k: Request, act: Action)
    requires FlagInv(s) && Step(s, act).To?
    ensures RequestEffect(s, Step(s, act).next, Step(s, act).log, k)
  {
    if !act.MainStep? {
      WatcherServes(s, k, act);
    } else if Testing(s.m) {
      TestingServes(s, k);
    } else if Recording(s.m) {
      RecordingServes(s, k, act.world);
    } else {
      LifecycleServes(s, k, act.world);
    }
  }

  lemma RequestSnoc(log: seq<Event>, more: seq<Event>, k: Request)
    requires Short(more)
    ensures Count(log + more, Begun(k)) == Count(log, Begun(k)) + (if more != [] && more[0] == Begun(k) then 1 else 0)
    ensures Count(log + more, Recorded(k))
            == Count(log, Recorded(k)) + (if more != [] && more[0] == Recorded(k) then 1 else 0)
    ensures Unanswered(log + more, k)
            == if more != [] && more[0] == Recorded(k) then true
               else if more != [] && more[0] == Begun(k) then false
               else Unanswered(log, k)
  {
    if more == [] {
      assert log + more == log;
    } else {
      var one := log + [more[0]];
      LogSnoc(log, more[0], k, Begun(k), false);
      LogSnoc(log, more[0], k, Recorded(k), false);
      if |more| == 1 {
        assert log + more == one;
      } else {
        assert log + more == one + [more[1]];
        LogSnoc(one, more[1], k, Begun(k), false);
        LogSnoc(one, more[1], k, Recorded(k), false);
      }
    }
  }

  lemma EffectKeepsRequest(s: State, n: State, log: seq<Event>, more: seq<Event>, k: Request)
    requires RequestEffect(s, n, more, k) && RequestAgrees(s, log, k)
    ensures RequestAgrees(n, log + more, k)
  {
    RequestSnoc(log, more, k);
  }

  lemma EffectKeepsRecorder(s: State, n: State, first: bool, log: seq<Event>, more: seq<Event>)
    requires RecorderEffect(s, n, more) && RecorderAgrees(s, first, log)
    ensures RecorderAgrees(n, first, log + more)
  {
    if more == [] {
      assert log + more == log;
    } else {
      var one := log + [more[0]];
      LogSnoc(log, more[0], Exit, more[0], first);
      if |more| == 1 {
        assert log + more == one;
      } else {
        assert log + more == one + [more[1]];
        LogSnoc(one, more[1], Exit, more[1], first);
      }
    }
  }

  lemma RunAgrees(enable: bool, acts: seq<Action>, k: Request)
    requires Exec(Init(enable), acts).To?
    ensures var To(s, log) := Exec(Init(enable), acts);
            Inv(s) && RequestAgrees(s, log, k) && RecorderAgrees(s, enable, log)
  {
    var p := (t: State, l: seq<Event>) => Inv(t) && RequestAgrees(t, l, k) && RecorderAgrees(t, enable, l);
    forall t: State, l: seq<Event>, a: Action | p(t, l) && Step(t, a).To?
      ensures p(Step(t, a).next, l + Step(t, a).log)
    {
      StepKeepsFlags(t, a);
      StepKeepsRecorder(t, a);
      StepServes(t, k, a);
      EffectKeepsRequest(t, Step(t, a).next, l, Step(t, a).log, k);
      EffectKeepsRecorder(t, Step(t, a).next, enable, l, Step(t, a).log);
    }
    assert RequestAgrees(Init(enable), [], k) && RecorderAgrees(Init(enable), enable, []);
    RunInduction(Step, p, Init(enable), [], acts);
    assert [] + Exec(Init(enable), acts).log == Exec(Init(enable), acts).log;
  }

  predicate Left(m: MainPc) { m.MLeft? || m.MDone? }

  // ---------- every signal is recorded ----------

  /** What each signal asks for. */
  function Meaning(signal: Signal): Request {
    match signal
    case Interrupt => Exit
    case Terminate => Exit
    case Hangup => Restart
    case User1 => StartRecording
    case User2 => StopRecording
  }

  function Delivers(act: Action, k: Request): nat { if act.Deliver? && Meaning(act.signal) == k then 1 else 0 }

  /** The signals delivered in a run that ask for k. */
  function Delivered(acts: seq<Action>, k: Request): nat {
    if acts == [] then 0 else Delivers(acts[0], k) + Delivered(acts[1..], k)
  }

  /** Whether the watcher is about to record a request of this kind. */
  function Storing(w: WatcherPc, k: Request): nat {
    if (w.WStoreStart? && k.StartRecording?) || (w.WStoreStop? && k.StopRecording?) then 1 else 0
  }

  function IsRecorded(log: seq<Event>, k: Request): nat { if log != [] && log[0] == Recorded(k) then 1 else 0 }

  lemma WatcherRecords(s: State, act: Action, k: Request)
    requires !act.MainStep? && StepWatcher(s, act).To?
    ensures var To(n, log) := StepWatcher(s, act);
            |log| <= 1 && Storing(s.w, k) + Delivers(act, k) == IsRecorded(log, k) + Storing(n.w, k)
  {
  }

  lemma MainRecordsNothing(s: State, act: Action, k: Request)
    requires act.MainStep? && Step(s, act).To?
    ensures var To(n, log) := Step(s, act);
            n.w == s.w && Short(log) && IsRecorded(log, k) == 0
  {
  }

  lemma {:induction false} CountAppend(a: seq<Event>, b: seq<Event>, e: Event)
    ensures Count(a + b, e) == Count(a, e) + Count(b, e)
    decreases |b|
  {
    if b == [] {
      assert a + b == a;
    } else {
      var n := |b| - 1;
      assert (a + b)[..|a + b| - 1] == a + b[..n];
      CountAppend(a, b[..n], e);
    }
  }

  lemma CountShort(log: seq<Event>, k: Request)
    requires Short(log)
    ensures Count(log, Recorded(k)) == IsRecorded(log, k)
  {
    if log != [] {
      assert log[..1] == [log[0]];
      assert Count([log[0]], Recorded(k)) == IsRecorded(log, k) by {
        assert [log[0]][..0] == [];
      }
    }
  }

  lemma {:induction false} RunRecords(s: State, acts: seq<Action>, k: Request)
    requires Exec(s, acts).To?
    ensures var To(n, log) := Exec(s, acts);
            Storing(s.w, k) + Delivered(acts, k) == Count(log, Recorded(k)) + Storing(n.w, k)
    decreases |acts|
  {
    if acts != [] {
      ReplayFirst(Step, s, acts);
      var To(n, l) := Step(s, acts[0]);
      if acts[0].MainStep? {
        MainRecordsNothing(s, acts[0], k);
      } else {
        WatcherRecords(s, acts[0], k);
      }
      CountShort(l, k);
      CountAppend(l, Exec(n, acts[1..]).log, Recorded(k));
      RunRecords(n, acts[1..], k);
    }
  }

  /** Every signal is recorded as the request it stands for, once: SIGUSR1 as a start of recording, SIGUSR2 as a
      stop, SIGHUP as a restart, SIGINT and SIGTERM as an exit; one more has been delivered while the watcher
      is between the load and the store of its flag. */
  lemma EverySignalIsRecorded(enable: bool, acts: seq<Action>, k: Request)
    requires Exec(Init(enable), acts).To?
    ensures var To(s, log) := Exec(Init(enable), acts);
            Delivered(acts, k) == Count(log, Recorded(k)) + Storing(s.w, k)
  {
    RunRecords(Init(enable), acts, k);
  }

  // ---------- restarts, and when nothing fails ----------

  /** Whether the pipeline runs, as the restarts and ends tell. */
  predicate RunningBy(log: seq<Event>) {
    if log == [] then true else
      var e := log[|log| - 1];
      if e.Restarted? then e.started else !e.Ended? && RunningBy(log[..|log| - 1])
  }

  /** Whether a recorder has been made since the pipeline last began, or recording was last stopped. */
  predicate HasRecorder(log: seq<Event>) {
    if log == [] then false else
      var e := log[|log| - 1];
      var before := HasRecorder(log[..|log| - 1]);
      if e.Attempt? then before || e.created
      else before && !e.Ended? && e != Begun(StopRecording) && e != Begun(Restart)
  }

  predicate LifeAgrees(s: State, log: seq<Event>) {
    && (if s.m.MStopWait? then !HasRecorder(log) else s.ps.installed <==> HasRecorder(log))
    && (!s.m.MStartAgain? ==> (s.ps.up <==> RunningBy(log)))
    && Count(log, Begun(Restart)) == Count(log, Restarted(true)) + Count(log, Restarted(false)) + InRestart(s.m)
  }

  function InRestart(m: MainPc): nat { if m.MStopWait? || m.MStartAgain? then 1 else 0 }

  /** What the events of a step make of a recorder. */
  predicate RecorderAfter(before: bool, more: seq<Event>) {
    if more == [] then before
    else if more[|more| - 1].Attempt? then KeepsRecorder(before, more[0]) || more[|more| - 1].created
    else KeepsRecorder(before, more[0])
  }

  predicate KeepsRecorder(before: bool, e: Event) {
    before && !e.Ended? && e != Begun(StopRecording) && e != Begun(Restart)
  }

  predicate LifeEffect(s: State, n: State, more: seq<Event>) {
    && Short(more)
    && (!n.m.MStopWait? && !s.m.MStopWait? ==> n.ps.installed == RecorderAfter(s.ps.installed, more))
    && (n.m.MStopWait? && !s.m.MStopWait? ==> more == [Begun(Restart)])
    && (s.m.MStopWait? && !n.m.MStopWait? ==> more == [] && !n.ps.installed)
    && (s.m.MStopWait? && n.m.MStopWait? ==> more == [] || (|more| == 1 && more[0].Recorded?))
    && (more != [] && more[0].Restarted? ==> s.m.MStartAgain? && (n.ps.up <==> more[0].started))
    && (more != [] && more[0].Ended? ==> !n.ps.up)
    && (more == [] || (!more[0].Restarted? && !more[0].Ended?) ==> n.m.MStartAgain? || n.ps.up == s.ps.up)
    && (s.m.MStartAgain? ==> n.m.MStartAgain? || (more != [] && more[0].Restarted?))
    && InRestart(s.m) + (if more != [] && more[0] == Begun(Restart) then 1 else 0)
       == InRestart(n.m) + (if more != [] && more[0].Restarted? then 1 else 0)
  }

  lemma WatcherLives(s: State, act: Action)
    requires RecorderInv(s) && !act.MainStep? && StepWatcher(s, act).To?
    ensures LifeEffect(s, StepWatcher(s, act).next, StepWatcher(s, act).log)
  {
  }

  lemma TestingLives(s: State)
    requires RecorderInv(s) && Testing(s.m) && StepTesting(s).To?
    ensures LifeEffect(s, StepTesting(s).next, StepTesting(s).log)
  {
  }

  lemma RecordingLives(s: State, world: World)
    requires RecorderInv(s) && Recording(s.m) && StepRecording(s, world).To?
    ensures LifeEffect(s, StepRecording(s, world).next, StepRecording(s, world).log)
  {
  }

  lemma LifecycleLives(s: State, world: World)
    requires RecorderInv(s) && Lifecycle(s.m) && StepLifecycle(s, world).To?
    ensures LifeEffect(s, StepLifecycle(s, world).next, StepLifecycle(s, world).log)
  {
  }

  lemma StepLives(s: State, act: Action)
    requires RecorderInv(s) && Step(s, act).To?
    ensures LifeEffect(s, Step(s, act).next, Step(s, act).log)
  {
    if !act.MainStep? {
      WatcherLives(s, act);
    } else if Testing(s.m) {
      TestingLives(s);
    } else if Recording(s.m) {
      RecordingLives(s, act.world);
    } else {
      LifecycleLives(s, act.world);
    }
  }

  lemma LifeSnoc(log: seq<Event>, e: Event)
    ensures HasRecorder(log + [e])
            == if e.Attempt? then HasRecorder(log) || e.created else KeepsRecorder(HasRecorder(log), e)
    ensures RunningBy(log + [e]) == if e.Restarted? then e.started else !e.Ended? && RunningBy(log)
  {
    assert (log + [e])[..|log|] == log;
  }

  lemma LifeAppend(log: seq<Event>, more: seq<Event>)
    requires Short(more)
    ensures RunningBy(log + more)
            == if more == [] then RunningBy(log)
               else if more[0].Restarted? then more[0].started else !more[0].Ended? && RunningBy(log)
    ensures HasRecorder(log + more) == RecorderAfter(HasRecorder(log), more)
  {
    if more == [] {
      assert log + more == log;
    } else {
      LifeSnoc(log, more[0]);
      if |more| == 1 {
        assert log + more == log + [more[0]];
      } else {
        LifeSnoc(log + [more[0]], more[1]);
        assert log + more == (log + [more[0]]) + [more[1]];
      }
    }
  }

  lemma CountOne(more: seq<Event>, e: Event)
    requires Short(more) && !e.Attempt?
    ensures Count(more, e) == if more != [] && more[0] == e then 1 else 0
  {
    if more != [] {
      assert [more[0]][..0] == [];
      assert Count([more[0]], e) == if more[0] == e then 1 else 0;
      assert more[..1] == [more[0]];
    }
  }

  lemma EffectKeepsLife(s: State, n: State, log: seq<Event>, more: seq<Event>)
    requires LifeEffect(s, n, more) && LifeAgrees(s, log)
    ensures LifeAgrees(n, log + more)
  {
    LifeAppend(log, more);
    CountAppend(log, more, Begun(Restart));
    CountAppend(log, more, Restarted(true));
    CountAppend(log, more, Restarted(false));
    CountOne(more, Begun(Restart));
    CountOne(more, Restarted(true));
    CountOne(more, Restarted(false));
  }

  lemma RunLives(enable: bool, acts: seq<Action>)
    requires Exec(Init(enable), acts).To?
    ensures var To(s, log) := Exec(Init(enable), acts); RecorderInv(s) && LifeAgrees(s, log)
  {
    var p := (t: State, l: seq<Event>) => RecorderInv(t) && LifeAgrees(t, l);
    forall t: State, l: seq<Event>, a: Action | p(t, l) && Step(t, a).To?
      ensures p(Step(t, a).next, l + Step(t, a).log)
    {
      StepKeepsRecorder(t, a);
      StepLives(t, a);
      EffectKeepsLife(t, Step(t, a).next, l, Step(t, a).log);
    }
    assert LifeAgrees(Init(enable), []);
    RunInduction(Step, p, Init(enable), [], acts);
    assert [] + Exec(Init(enable), acts).log == Exec(Init(enable), acts).log;
  }

  /** Every restart begun stops the old pipeline and starts the new one, once: it has come to something unless
      it is still under way, and in between the pipeline is down and has no recorder.  Otherwise the pipeline
      runs exactly as the restarts and its ends tell; and it has a recorder exactly if one could be made since
      it began or recording was stopped, however many tries have failed after that. */
  lemma RestartsAreCarriedOut(enable: bool, acts: seq<Action>)
    requires Exec(Init(enable), acts).To?
    ensures var To(s, log) := Exec(Init(enable), acts);
            && Count(log, Begun(Restart)) == Count(log, Restarted(true)) + Count(log, Restarted(false)) + InRestart(s.m)
            && (if s.m.MStartAgain? then !s.ps.up && !s.ps.installed else s.ps.up <==> RunningBy(log))
            && (!s.m.MStopWait? ==> (s.ps.installed <==> HasRecorder(log)))
  {
    RunLives(enable, acts);
  }

  /** Every call succeeds and nothing ends by itself. */
  predicate NothingFails(acts: seq<Action>) {
    forall i :: 0 <= i < |acts| && acts[i].MainStep? ==> acts[i].world == World(true, true, Alive, false)
  }

  /** Recording as wanted, the pipeline up unless between its stop and its start, and no exit but a requested
      one. */
  predicate Well(s: State) {
    && (s.m.MStartAgain? || s.ps.up || s.m.MDone?)
    && (!s.m.MBoot? && !s.m.MStartAgain? && s.ps.up ==> s.ps.installed == s.ps.enable)
    && !s.m.MPollWait? && !s.m.MStopWait?
  }

  lemma StepStaysWell(s: State, act: Action)
    requires RecorderInv(s) && Well(s) && Step(s, act).To?
    requires act.MainStep? ==> act.world == World(true, true, Alive, false)
    ensures Well(Step(s, act).next)
    ensures Step(s, act).next.flags.exit && !s.flags.exit ==> Recorded(Exit) in Step(s, act).log
    ensures Left(Step(s, act).next.m) && !Left(s.m) ==> s.flags.exit
  {
  }

  lemma {:induction false} RunStaysWell(s: State, acts: seq<Action>)
    requires RecorderInv(s) && Well(s) && Exec(s, acts).To? && NothingFails(acts)
    ensures Well(Exec(s, acts).next)
    ensures Left(Exec(s, acts).next.m) && !Left(s.m) ==> s.flags.exit || Recorded(Exit) in Exec(s, acts).log
    decreases |acts|
  {
    if acts != [] {
      ReplayFirst(Step, s, acts);
      StepKeepsRecorder(s, acts[0]);
      StepStaysWell(s, acts[0]);
      RunStaysWell(Step(s, acts[0]).next, acts[1..]);
    }
  }

  /** When nothing fails, the pipeline is up and has a recorder exactly when recording is wanted, at every
      moment but between the stop and the start of a restart; and the loop is left only after SIGINT or
      SIGTERM. */
  lemma NothingFailsByItself(enable: bool, acts: seq<Action>)
    requires Exec(Init(enable), acts).To? && NothingFails(acts)
    ensures var To(s, log) := Exec(Init(enable), acts);
            && (!s.m.MBoot? && !s.m.MStartAgain? && !s.m.MDone? ==>
                  s.ps.up && (s.ps.installed <==> Wanted(enable, log)))
            && (Left(s.m) ==> Recorded(Exit) in log)
  {
    RunAgrees(enable, acts, Exit);
    RunStaysWell(Init(enable), acts);
  }

  // ---------- every request is answered ----------

  function Position(m: MainPc): nat {
    match m
    case MBoot => 0
    case MPoll => 1
    case MTestExit => 2
    case MTestStart => 3
    case MClearStart => 4
    case MActStart => 5
    case MTestStop => 6
    case MClearStop => 7
    case MActStop => 8
    case MTestRestart => 9
    case MClearRestart => 10
    case MActRestart => 11
    case MStopWait => 12
    case MStartAgain => 13
    case MPollChild => 14
    case MPollWait => 15
    case MTestDown => 16
    case MLeft => 17
    case MDone => 18
  }

  function ActPosition(k: Request): nat {
    match k
    case StartRecording => 5
    case StopRecording => 8
    case Restart => 11
    case Exit => 2
  }

  /** Main-thread steps until the action for k begins, at most; the loop has sixteen stages. */
  function Distance(m: MainPc, k: Request): nat {
    if Position(m) <= ActPosition(k) then ActPosition(k) + 1 - Position(m)
    else if Position(m) <= 16 then ActPosition(k) + 17 - Position(m)
    else 0
  }

  function MainSteps(acts: seq<Action>): nat {
    if acts == [] then 0 else (if acts[0].MainStep? then 1 else 0) + MainSteps(acts[1..])
  }

  /** A step of the main thread brings the action nearer; the watcher's leave it where it is. */
  predicate Approaches(s: State, n: State, more: seq<Event>, k: Request, steps: nat) {
    || (more != [] && more[0] == Begun(k))
    || Left(n.m)
    || Distance(n.m, k) + steps <= Distance(s.m, k)
  }

  lemma WatcherLeavesMain(s: State, act: Action)
    requires !act.MainStep? && StepWatcher(s, act).To?
    ensures StepWatcher(s, act).next.m == s.m
  {
  }

  lemma TestingApproaches(s: State, k: Request)
    requires FlagInv(s) && Owed(s, k) && !Left(s.m) && Testing(s.m) && StepTesting(s).To?
    ensures Approaches(s, StepTesting(s).next, StepTesting(s).log, k, 1)
  {
  }

  lemma RecordingApproaches(s: State, k: Request, world: World)
    requires FlagInv(s) && Owed(s, k) && !Left(s.m) && Recording(s.m) && StepRecording(s, world).To?
    ensures Approaches(s, StepRecording(s, world).next, StepRecording(s, world).log, k, 1)
  {
  }

  lemma LifecycleApproaches(s: State, k: Request, world: World)
    requires FlagInv(s) && Owed(s, k) && !Left(s.m) && Lifecycle(s.m) && StepLifecycle(s, world).To?
    ensures Approaches(s, StepLifecycle(s, world).next, StepLifecycle(s, world).log, k, 1)
  {
  }

  lemma StepApproaches(s: State, k: Request, act: Action)
    requires FlagInv(s) && Owed(s, k) && !Left(s.m) && Step(s, act).To?
    ensures Approaches(s, Step(s, act).next, Step(s, act).log, k, if act.MainStep? then 1 else 0)
  {
    if !act.MainStep? {
      WatcherLeavesMain(s, act);
    } else if Testing(s.m) {
      TestingApproaches(s, k);
    } else if Recording(s.m) {
      RecordingApproaches(s, k, act.world);
    } else {
      LifecycleApproaches(s, k, act.world);
    }
  }

  lemma LeftStays(s: State, acts: seq<Action>)
    requires Left(s.m) && Exec(s, acts).To?
    ensures Left(Exec(s, acts).next.m)
    decreases |acts|
  {
    if acts != [] {
      ReplayFirst(Step, s, acts);
      LeftStays(Step(s, acts[0]).next, acts[1..]);
    }
  }

  lemma {:induction false} OwedIsPaid(s: State, more: seq<Action>, k: Request)
    requires FlagInv(s) && Owed(s, k) && Exec(s, more).To? && MainSteps(more) >= Distance(s.m, k)
    ensures Begun(k) in Exec(s, more).log || Left(Exec(s, more).next.m)
    decreases |more|
  {
    if Left(s.m) {
      LeftStays(s, more);
    } else {
      ReplayFirst(Step, s, more);
      var To(n, log) := Step(s, more[0]);
      StepKeepsFlags(s, more[0]);
      StepServes(s, k, more[0]);
      StepApproaches(s, k, more[0]);
      if Begun(k) !in log {
        if Left(n.m) {
          LeftStays(n, more[1..]);
        } else {
          OwedIsPaid(n, more[1..], k);
        }
      }
    }
  }

  /** No request is lost: whatever the watcher and the main thread interleave, if a request of some kind has
      been recorded and no action of its kind has begun since, then within the main thread's next sixteen
      steps such an action begins, or the loop is left.  An exit request always leaves it.  Those are steps
      the main thread takes: OnlyJoinsWait says where it may have none, and WaitingPollEndsTheLoop what
      becomes of requests in a poll that has to wait. */
  lemma EveryRequestIsAnswered(enable: bool, acts: seq<Action>, more: seq<Action>, k: Request)
    requires Exec(Init(enable), acts).To? && Unanswered(Exec(Init(enable), acts).log, k)
    requires Exec(Exec(Init(enable), acts).next, more).To? && MainSteps(more) >= 16
    ensures var To(n, log) := Exec(Exec(Init(enable), acts).next, more);
            Left(n.m) || (Begun(k) in log && k != Exit)
  {
    RunAgrees(enable, acts, k);
    var s := Exec(Init(enable), acts).next;
    OwedIsPaid(s, more, k);
    if k.Exit? && Begun(Exit) in Exec(s, more).log {
      BegunExitLeaves(s, more);
    }
  }

  lemma {:induction false} BegunExitLeaves(s: State, more: seq<Action>)
    requires Exec(s, more).To? && Begun(Exit) in Exec(s, more).log
    ensures Left(Exec(s, more).next.m)
    decreases |more|
  {
    ReplayFirst(Step, s, more);
    var To(n, log) := Step(s, more[0]);
    if Begun(Exit) in log {
      LeftStays(n, more[1..]);
    } else {
      BegunExitLeaves(n, more[1..]);
    }
  }

  /** No action without a request: the main thread never acts on signals that were not sent. */
  lemma NoActionWithoutRequest(enable: bool, acts: seq<Action>, k: Request)
    requires Exec(Init(enable), acts).To? && k != Exit
    ensures Count(Exec(Init(enable), acts).log, Begun(k)) <= Count(Exec(Init(enable), acts).log, Recorded(k))
  {
    RunAgrees(enable, acts, k);
  }

  /** Across starts, stops and restarts: a recorder is installed only in a running pipeline with recording
      enabled; enabling is what the later of the handled start and stop requests says; and while the
      pipeline runs a wanted recorder is missing only if the latest try to make one failed. */
  lemma RecorderFollowsConfiguration(enable: bool, acts: seq<Action>)
    requires Exec(Init(enable), acts).To?
    ensures var To(s, log) := Exec(Init(enable), acts);
            && (s.ps.enable <==> Wanted(enable, log))
            && (s.ps.installed ==> s.ps.up && s.ps.enable)
            && (s.ps.up && !s.m.MBoot? && !LastAttemptFailed(log) ==> (s.ps.installed <==> Wanted(enable, log)))
  {
    RunAgrees(enable, acts, Exit);
  }

  // ---------- the calls that wait ----------

  /** Where a main step may have to wait for the world: inside a poll, or inside the stop of a restart. */
  lemma OnlyJoinsWait(s: State)
    ensures (forall world: World :: Step(s, MainStep(world)).To?) <==>
            !s.m.MPollWait? && !s.m.MStopWait? && !s.m.MDone?
  {
    var waiting := World(false, false, Waits, true);
    assert Step(s, MainStep(waiting)).To? <==> !s.m.MPollWait? && !s.m.MStopWait? && !s.m.MDone?;
  }

  /** After a poll that had to wait, or on the way out. */
  predicate Ending(s: State) {
    s.m.MPollWait? || (s.m.MTestDown? && !s.ps.up) || Left(s.m)
  }

  lemma EndingStep(s: State, act: Action, k: Request)
    requires Ending(s) && k != Exit && Step(s, act).To?
    ensures Ending(Step(s, act).next) && Begun(k) !in Step(s, act).log
  {
  }

  /** A poll that had to wait ends the loop: no request is acted upon after it, whenever it was recorded. */
  lemma {:induction false} WaitingPollEndsTheLoop(s: State, more: seq<Action>, k: Request)
    requires Ending(s) && k != Exit && Exec(s, more).To?
    ensures Ending(Exec(s, more).next) && Begun(k) !in Exec(s, more).log
    decreases |more|
  {
    if more != [] {
      ReplayFirst(Step, s, more);
      EndingStep(s, more[0], k);
      WaitingPollEndsTheLoop(Step(s, more[0]).next, more[1..], k);
    }
  }
}
