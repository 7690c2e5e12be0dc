/** The pipeline's lifecycle: what PipelineState holds between start, stop, poll, enable and disable, in
    whatever order they are called and wherever a start fails.  A join of the appsink thread returns only if
    that thread has been told to stop and the decoder does not refuse, for good, the packet it offers; a call
    that waits for ever says so in its result. */
module Pipeline {

  datatype Kind = Elements | Receiver | Decoder | Thread | Recorder

  datatype Thing = Thing(kind: Kind, id: nat)

  /** The libraries below.  Making something may fail, and answers 0 then.  `users` says which live thread or
      receiver works with which things; only what is live and what nobody works with can be released, and
      releasing a thread means joining it. */
  class World {
    var live: set<Thing>
    ghost var users: map<Thing, set<Thing>>
    ghost var refused: nat                   // how often something asked for was not granted

    method Make(kind: Kind) returns (id: nat)
      modifies this`live, this`refused
      ensures id == 0 ==> live == old(live)
      ensures id != 0 ==> Thing(kind, id) !in old(live) && live == old(live) + {Thing(kind, id)}
      ensures refused == old(refused) + (if id != 0 then 0 else 1)
    {
      id :| id > 0;
      var willing: bool := *;
      if !willing || Thing(kind, id) in live {
        refused := refused + 1;
        return 0;
      }
      live := live + {Thing(kind, id)};
    }

    /** Anything else the libraries may grant or refuse. */
    method Ask() returns (ok: bool)
      modifies this`refused
      ensures refused == old(refused) + (if ok then 0 else 1)
    {
      ok := *;
      if !ok {
        refused := refused + 1;
      }
    }

    ghost method Uses(user: Thing, things: set<Thing>)
      requires user in live && things <= live
      modifies this`users
      ensures users == old(users)[user := things]
    {
      users := users[user := things];
    }

    method Release(t: Thing)
      requires t in live
      requires forall u <- users :: t !in users[u]
      modifies this`live, this`users
      ensures live == old(live) - {t} && users == old(users) - {t}
    {
      live := live - {t};
      users := users - {t};
    }
  }

  datatype State = Stopped | Running | Stopping

  /** What a poll finds of the bus thread: it has reported that it watches the bus; it is gone, having had a
      bus or not; or it has not taken its first step, and then it may end later or stay quiet for good. */
  datatype BusThread = Watching | Gone(hadBus: bool) | Unreported(later: Later)

  datatype Later = Ends(hadBus: bool) | StaysQuiet

  predicate EndsWithoutBus(bus: BusThread) {
    match bus
    case Gone(hadBus) => !hadBus
    case Unreported(Ends(hadBus)) => !hadBus
    case _ => false
  }

  datatype PollResult = StillRunning | Emptied | WaitsForBusThread | WaitsForAppsinkThread | WaitsForDecoder

  datatype StartResult = Started | Refused | Undone | NeverReturns

  function One(kind: Kind, id: nat): set<Thing> {
    if id != 0 then {Thing(kind, id)} else {}
  }

  class PipelineState {
    var state: State
    var pipeline: nat                        // 0 stands for NULL
    var appsink: nat                         // borrowed: an element inside the pipeline
    var receiver: nat
    var appsinkThread: nat
    var busThread: nat
    var decoder: nat
    var decoderInitialized: bool
    var decoderRunning: bool
    var recorder: nat
    var stopRequested: bool                  // what the bus thread writes counts from when it is joined
    const world: World
    ghost var others: set<Thing>             // live, and no business of this object

    ghost function Holds(): set<Thing>
      reads this
    {
      One(Elements, pipeline) + One(Receiver, receiver) + One(Thread, appsinkThread) + One(Thread, busThread) +
      One(Decoder, decoder) + One(Recorder, recorder)
    }

    /** What is live is what the fields hold, each once, and what was never ours. */
    ghost predicate Balanced()
      reads this, world
    {
      && world.live == others + Holds() && others !! Holds()
      && (appsinkThread != 0 ==> appsinkThread != busThread)
    }

    /** Only the two threads and the receiver work with our things, and only with what is still held. */
    ghost predicate UsersKnown()
      reads this, world
    {
      forall u <- world.users ::
        && u in One(Thread, appsinkThread) + One(Thread, busThread) + One(Receiver, receiver)
        && world.users[u] <= One(Elements, pipeline) + One(Decoder, decoder)
    }

    ghost predicate Ordered()
      reads this
    {
      && (decoderRunning ==> decoderInitialized)
      && (decoderInitialized ==> decoder != 0)
      && (appsink != 0 ==> pipeline != 0)
    }

    ghost predicate Consistent()
      reads this, world
    {
      Balanced() && UsersKnown() && Ordered()
    }

    /** Every handle but the recorder's is NULL. */
    ghost predicate Down()
      reads this
    {
      && pipeline == appsink == receiver == appsinkThread == busThread == decoder == 0
      && !decoderInitialized && !decoderRunning
    }

    ghost predicate Up()
      reads this
    {
      && pipeline != 0 && appsink != 0 && receiver != 0 && appsinkThread != 0 && busThread != 0 && decoder != 0
      && decoderInitialized && decoderRunning
    }

    /** Inside a call that never returns: waiting for an appsink thread that nobody will tell to stop, with no
        bus thread left to do so. */
    ghost predicate Hung()
      reads this, world
    {
      Consistent() && appsinkThread != 0 && busThread == 0 && decoderRunning && !stopRequested
    }

    /** Inside a call that never returns: the appsink thread has been told to stop, but the decoder refuses the
        packet it offers, and stopping the decoder comes only after the join. */
    ghost predicate Starved()
      reads this, world
    {
      Consistent() && appsinkThread != 0 && decoderRunning && stopRequested
    }

    /** Whether a join of the appsink thread returns. */
    ghost predicate JoinReturns(refusing: bool)
      reads this
    {
      appsinkThread == 0 || !decoderRunning || (stopRequested && !refusing)
    }

    /** The two threads and the receiver are at work with the elements and the decoder. */
    ghost predicate Busy()
      reads this, world
    {
      && Works(Thing(Receiver, receiver), {Thing(Elements, pipeline)})
      && Works(Thing(Thread, appsinkThread), {Thing(Elements, pipeline), Thing(Decoder, decoder)})
      && Works(Thing(Thread, busThread), {Thing(Elements, pipeline)})
    }

    ghost predicate Works(user: Thing, things: set<Thing>)
      reads this, world
    {
      user in world.users && world.users[user] == things
    }

    /** What holds between calls. */
    ghost predicate Valid()
      reads this, world
    {
      && Consistent()
      && (state.Stopped? ==> Down())
      && (state.Running? ==> Up() && !stopRequested)
      && !state.Stopping?
    }

    constructor (w: World)
      requires w.users == map[]
      ensures Valid() && state.Stopped? && recorder == 0 && world == w && others == w.live
    {
      world := w;
      state := Stopped;
      pipeline, appsink, receiver, appsinkThread, busThread, decoder, recorder := 0, 0, 0, 0, 0, 0, 0;
      decoderInitialized, decoderRunning, stopRequested := false, false, false;
      others := w.live;
    }

    /** refusing: the decoder refuses, for as long as it runs, a packet the thread holds or pulls. */
    method JoinAppsinkThread(refusing: bool) returns (returned: bool)
      requires Consistent()
      modifies this`appsinkThread, world`live, world`users
      ensures returned <==> old(JoinReturns(refusing))
      ensures if returned then Consistent() && appsinkThread == 0 else unchanged(this) && unchanged(world)
    {
      returned := appsinkThread == 0 || !decoderRunning || (stopRequested && !refusing);
      if returned && appsinkThread != 0 {
        world.Release(Thing(Thread, appsinkThread));
        appsinkThread := 0;
      }
    }

    method JoinBusThread()
      requires Consistent()
      modifies this`busThread, world`live, world`users
      ensures Consistent() && busThread == 0
    {
      if busThread != 0 {
        world.Release(Thing(Thread, busThread));
        busThread := 0;
      }
    }

    method ReleaseReceiver()
      requires Consistent()
      modifies this`receiver, world`live, world`users
      ensures Consistent() && receiver == 0
    {
      if receiver != 0 {
        world.Release(Thing(Receiver, receiver));
        receiver := 0;
      }
    }

    method ReleasePipeline()
      requires Consistent() && appsinkThread == busThread == receiver == 0
      modifies this`pipeline, this`appsink, world`live, world`users
      ensures Consistent() && pipeline == appsink == 0
    {
      if pipeline != 0 {
        world.Release(Thing(Elements, pipeline));
        pipeline := 0;
      }
      appsink := 0;
    }

    method ReleaseDecoder()
      requires Consistent() && appsinkThread == busThread == receiver == 0
      modifies this`decoder, this`decoderInitialized, this`decoderRunning, world`live, world`users
      ensures Consistent() && decoder == 0 && !decoderInitialized && !decoderRunning
    {
      decoderRunning := false;
      decoderInitialized := false;
      if decoder != 0 {
        world.Release(Thing(Decoder, decoder));
        decoder := 0;
      }
    }

    method DropRecorder()
      requires Consistent()
      modifies this`recorder, world`live, world`users
      ensures Consistent() && recorder == 0
    {
      var rec := recorder;
      recorder := 0;
      if rec != 0 {
        world.Release(Thing(Recorder, rec));
      }
    }

    /** Afterwards nobody works with the pipeline or the decoder any more. */
    method Quiesce(refusing: bool) returns (returned: bool)
      requires Consistent()
      modifies this`receiver, this`appsinkThread, this`busThread, world`live, world`users
      ensures returned <==> old(JoinReturns(refusing))
      ensures if returned then Consistent() && appsinkThread == busThread == receiver == 0
              else unchanged(this) && unchanged(world)
    {
      returned := JoinAppsinkThread(refusing);
      if returned {
        JoinBusThread();
        ReleaseReceiver();
      }
    }

    /** The one path by which everything goes: from any point a start or a stop can have reached.  It returns
        exactly when that thread's join does. */
    method Cleanup(refusing: bool) returns (returned: bool)
      requires Consistent()
      modifies this`pipeline, this`appsink, this`receiver, this`appsinkThread, this`busThread,
               this`decoder, this`decoderInitialized, this`decoderRunning, this`recorder, world`live, world`users
      ensures returned <==> old(JoinReturns(refusing))
      ensures if returned then Consistent() && Down() && recorder == 0 else unchanged(this) && unchanged(world)
    {
      returned := Quiesce(refusing);
      if returned {
        ReleasePipeline();
        ReleaseDecoder();
        DropRecorder();
      }
    }

    /** The bin and the receiver are locals of pipeline_start until everything is linked.  A failure before
        that leaves them behind. */
    method Assemble() returns (ok: bool)
      requires Consistent() && Down()
      modifies this`pipeline, this`appsink, this`receiver, this`others, world`live, world`refused
      ensures Consistent()
      ensures old(others) <= others && forall t <- others - old(others) :: Harmless(t)
      ensures if ok then pipeline != 0 && appsink != 0 && receiver != 0 && others == old(others) else Down()
      ensures world.refused >= old(world.refused) && (!ok ==> world.refused > old(world.refused))
    {
      var bin := world.Make(Elements);
      if bin == 0 {
        return false;
      }
      ghost var before := others;
      others := others + {Thing(Elements, bin)};
      var source := world.Make(Receiver);
      if source == 0 {
        return false;
      }
      others := others + {Thing(Receiver, source)};
      var linked := world.Ask();
      if !linked {
        return false;
      }
      var sink: nat :| sink > 0;
      pipeline, appsink, receiver, others := bin, sink, source, before;
      return true;
    }

    /** The receiver's own thread starts to push into the pipeline. */
    method StartReceiver() returns (ok: bool)
      requires Consistent() && pipeline != 0 && receiver != 0
      modifies world`users, world`refused
      ensures Consistent()
      ensures world.refused >= old(world.refused) && (!ok ==> world.refused > old(world.refused))
      ensures ok ==> Works(Thing(Receiver, receiver), {Thing(Elements, pipeline)})
    {
      ok := world.Ask();
      if ok {
        world.Uses(Thing(Receiver, receiver), {Thing(Elements, pipeline)});
      }
    }

    method StartDecoder() returns (ok: bool)
      requires Consistent()
      modifies this`decoder, this`decoderInitialized, this`decoderRunning, world`live, world`refused
      ensures Consistent()
      ensures ok ==> decoder != 0 && decoderInitialized && decoderRunning
      ensures world.refused >= old(world.refused) && (!ok ==> world.refused > old(world.refused))
      ensures world.users == old(world.users)
    {
      if decoder == 0 {
        decoder := world.Make(Decoder);
        if decoder == 0 {
          decoderInitialized, decoderRunning := false, false;
          return false;
        }
      }
      ok := world.Ask();
      if !ok {
        return false;
      }
      decoderInitialized := true;
      ok := world.Ask();
      if !ok {
        return false;
      }
      decoderRunning := true;
    }

    method StartThreads() returns (ok: bool)
      requires Consistent() && pipeline != 0 && decoder != 0 && appsinkThread == busThread == 0
      modifies this`appsinkThread, this`busThread, world
      ensures Consistent()
      ensures if ok then appsinkThread != 0 && busThread != 0 else busThread == 0
      ensures world.refused >= old(world.refused) && (!ok ==> world.refused > old(world.refused))
      ensures ok ==> Works(Thing(Thread, appsinkThread), {Thing(Elements, pipeline), Thing(Decoder, decoder)})
                     && Works(Thing(Thread, busThread), {Thing(Elements, pipeline)})
      ensures forall u: Thing :: u.kind.Receiver? && u in old(world.users) ==>
                u in world.users && world.users[u] == old(world.users)[u]
    {
      appsinkThread := world.Make(Thread);
      if appsinkThread == 0 {
        return false;
      }
      world.Uses(Thing(Thread, appsinkThread), {Thing(Elements, pipeline), Thing(Decoder, decoder)});
      busThread := world.Make(Thread);
      if busThread == 0 {
        return false;
      }
      world.Uses(Thing(Thread, busThread), {Thing(Elements, pipeline)});
      return true;
    }

    /** From the assembled pipeline to everything running; a failure leaves whatever was reached. */
    method Launch() returns (ok: bool)
      requires Consistent() && pipeline != 0 && receiver != 0 && appsinkThread == busThread == decoder == 0
      modifies this`decoder, this`decoderInitialized, this`decoderRunning, this`appsinkThread, this`busThread, world
      ensures Consistent()
      ensures ok ==> appsinkThread != 0 && busThread != 0 && decoder != 0 && decoderInitialized && decoderRunning
      ensures !ok ==> busThread == 0 && (appsinkThread != 0 ==> decoderRunning)
      ensures world.refused >= old(world.refused) && (!ok ==> world.refused > old(world.refused))
      ensures ok ==> Busy()
    {
      ok := StartReceiver();
      if !ok {
        return;
      }
      ok := world.Ask();                     // set_state, and the wait when it is asynchronous
      if !ok {
        return;
      }
      ok := StartDecoder();
      if ok {
        ok := StartThreads();
      }
    }

    /** From nothing to everything running; a failure leaves whatever was reached. */
    method Build() returns (ok: bool)
      requires Consistent() && Down()
      modifies this`pipeline, this`appsink, this`receiver, this`others, this`decoder, this`decoderInitialized,
               this`decoderRunning, this`appsinkThread, this`busThread, world
      ensures Consistent()
      ensures if ok then Up() && others == old(others)
              else busThread == 0 && (appsinkThread != 0 ==> decoderRunning && others == old(others))
      ensures old(others) <= others && forall t <- others - old(others) :: Harmless(t)
      ensures world.refused >= old(world.refused) && (!ok ==> world.refused > old(world.refused))
      ensures ok ==> Busy()
    {
      ok := Assemble();
      if ok {
        ok := Launch();
      }
    }

    /** pipeline_start.  Refused unless stopped, with nothing changed; otherwise RUNNING with every handle
        set, or STOPPED with every one NULL, the recorder's included.  When it has made the appsink thread and
        cannot make the bus thread it never returns. */
    method Start(refusing: bool) returns (r: StartResult)
      requires Valid()
      modifies this, world
      ensures if r.NeverReturns? then Hung() else Valid()
      ensures r.Refused? <==> !old(state).Stopped?
      ensures r.Refused? ==> unchanged(this) && unchanged(world)
      ensures r.Started? ==> state.Running? && Busy()
      ensures r.Undone? ==> state.Stopped? && recorder == 0
      ensures r.Started? || r.NeverReturns? ==> recorder == old(recorder) && others == old(others)
      ensures old(others) <= others && forall t <- others - old(others) :: Harmless(t)
      ensures old(state).Stopped? && world.refused == old(world.refused) ==> r.Started?
    {
      if !state.Stopped? {
        return Refused;
      }
      stopRequested := false;
      var ok := Build();
      if ok {
        state := Running;
        return Started;
      }
      var returned := Cleanup(refusing);
      r := if returned then Undone else NeverReturns;
    }

    /** pipeline_stop: it returns unless the decoder keeps refusing the appsink thread, and afterwards everything
        held has been released, once, and nothing else. */
    method Stop(refusing: bool) returns (returned: bool)
      requires Valid()
      modifies this, world
      ensures returned <==> old(state).Stopped? || !refusing
      ensures others == old(others)
      ensures if !returned then Starved() && state.Stopping?
              else Valid() && state.Stopped?
      ensures if old(state).Stopped? then unchanged(this) && unchanged(world)
              else returned ==> recorder == 0 && world.live == others
    {
      if state.Stopped? {
        return true;
      }
      state := Stopping;
      stopRequested := true;
      returned := JoinAppsinkThread(refusing);
      if returned {
        JoinBusThread();
        var _ := Cleanup(refusing);
        state := Stopped;
      }
    }

    /** pipeline_poll_child.  Nothing happens without a bus thread, or while it runs.  When it is gone, or has not
        reported yet but ends later, the pipeline is stopped and emptied, provided that there was a bus, so that
        somebody has told the appsink thread to stop, and that the decoder does not keep refusing that thread.
        Otherwise the call waits for ever in one of its two joins. */
    method Poll(bus: BusThread, refusing: bool) returns (r: PollResult)
      requires Valid()
      modifies this, world
      ensures others == old(others)
      ensures r.StillRunning? <==> old(busThread) == 0 || bus.Watching?
      ensures r.WaitsForBusThread? <==> old(busThread) != 0 && bus.Unreported? && bus.later.StaysQuiet?
      ensures r.Emptied? <==>
                && old(busThread) != 0 && !refusing
                && ((bus.Gone? && bus.hadBus) || (bus.Unreported? && bus.later.Ends? && bus.later.hadBus))
      ensures r.WaitsForAppsinkThread? <==>
                && old(busThread) != 0
                && ((bus.Gone? && !bus.hadBus) || (bus.Unreported? && bus.later.Ends? && !bus.later.hadBus))
      ensures match r
              case StillRunning => Valid() && unchanged(this) && unchanged(world)
              case Emptied => Valid() && state.Stopped? && recorder == 0 && world.live == others
              case WaitsForBusThread => Valid() && state.Running? && unchanged(this) && unchanged(world)
              case WaitsForAppsinkThread => Hung()
              case WaitsForDecoder => Starved()
    {
      if busThread == 0 || bus.Watching? {
        return StillRunning;
      }
      if bus.Unreported? && bus.later.StaysQuiet? {
        return WaitsForBusThread;
      }
      var returned := EmptyAfterBus(!EndsWithoutBus(bus), refusing);
      r := if returned then Emptied else if stopRequested then WaitsForDecoder else WaitsForAppsinkThread;
    }

    /** The rest of a poll: the bus thread is joined, and what it wrote to stop_requested counts. */
    method EmptyAfterBus(hadBus: bool, refusing: bool) returns (returned: bool)
      requires Valid() && busThread != 0
      modifies this, world
      ensures others == old(others) && stopRequested == hadBus && (returned <==> hadBus && !refusing)
      ensures if returned then Valid() && state.Stopped? && recorder == 0 && world.live == others
              else if hadBus then Starved() else Hung()
    {
      JoinBusThread();
      stopRequested := hadBus;
      returned := Cleanup(refusing);
      if returned {
        state := Stopped;
      }
    }

    /** pipeline_enable_recording: success means a recorder is installed, and one that was there stays. */
    method EnableRecording(hasPath: bool) returns (ok: bool)
      requires Valid()
      modifies this`recorder, world
      ensures Valid()
      ensures ok ==> hasPath && recorder != 0
      ensures !ok || old(recorder) != 0 ==> recorder == old(recorder) && world.live == old(world.live)
      ensures hasPath && world.refused == old(world.refused) ==> ok
    {
      if !hasPath {
        return false;
      }
      var rec := world.Make(Recorder);
      if rec == 0 {
        return false;
      }
      if recorder != 0 {
        world.Release(Thing(Recorder, rec));
        return true;
      }
      recorder := rec;
      return true;
    }

    method DisableRecording()
      requires Valid()
      modifies this`recorder, world
      ensures Valid() && recorder == 0
      ensures world.live == old(world.live) - One(Recorder, old(recorder))
    {
      DropRecorder();
    }
  }

  /** refusing: what the decoder does to the appsink thread from then on. */
  datatype Call =
    | CallStart(refusing: bool)
    | CallStop(refusing: bool)
    | CallPoll(bus: BusThread, refusing: bool)
    | CallEnable(hasPath: bool)
    | CallDisable

  predicate Harmless(t: Thing) { t.kind.Elements? || t.kind.Receiver? }

  /** Whether a call returned, and if not, in which join it waits: of the bus thread, of an appsink thread not
      told to stop, or of one told to that feeds a refusing decoder. */
  datatype Ending = Returned | InBusJoin | InAppsinkJoin | InFeed

  ghost predicate Ended(ps: PipelineState, e: Ending)
    reads ps, ps.world
  {
    match e
    case Returned => ps.Valid()
    case InBusJoin => ps.Valid() && ps.state.Running?
    case InAppsinkJoin => ps.Hung()
    case InFeed => ps.Starved()
  }

  /** How a poll ends. */
  function EndOfPoll(r: PollResult): Ending {
    match r
    case WaitsForBusThread => InBusJoin
    case WaitsForAppsinkThread => InAppsinkJoin
    case WaitsForDecoder => InFeed
    case _ => Returned
  }

  method Perform(ps: PipelineState, call: Call) returns (e: Ending)
    requires ps.Valid()
    modifies ps, ps.world
    ensures Ended(ps, e)
    ensures e.InBusJoin? ==> call.CallPoll? && call.bus == Unreported(StaysQuiet)
    ensures e.InAppsinkJoin? ==> call.CallStart? || (call.CallPoll? && EndsWithoutBus(call.bus))
    ensures e.InFeed? ==> (call.CallStop? || (call.CallPoll? && !EndsWithoutBus(call.bus))) && call.refusing
    ensures old(ps.others) <= ps.others && forall t <- ps.others - old(ps.others) :: Harmless(t)
  {
    e := Returned;
    match call {
      case CallStart(refusing) =>
        var r := ps.Start(refusing);
        e := if r.NeverReturns? then InAppsinkJoin else Returned;
      case CallStop(refusing) =>
        var returned := ps.Stop(refusing);
        e := if returned then Returned else InFeed;
      case CallPoll(bus, refusing) =>
        var r := ps.Poll(bus, refusing);
        e := EndOfPoll(r);
      case CallEnable(hasPath) => var _ := ps.EnableRecording(hasPath);
      case CallDisable => ps.DisableRecording();
    }
  }

  /** Any sequence of calls, whatever fails in between, then stop and disable.  When all of them return, of all
      that was made no thread, decoder or recorder is left, and nothing is left but what a start lost before
      it could record it; what was live at the beginning is untouched.  Otherwise the session ends in the join
      of the first call that does not return. */
  method AnySession(w: World, calls: seq<Call>, refusing: bool) returns (ps: PipelineState, e: Ending)
    requires w.users == map[]
    modifies w
    ensures Ended(ps, e)
    ensures e.Returned? ==> ps.state.Stopped? && ps.recorder == 0
    ensures e.Returned? ==> old(w.live) <= w.live && forall t <- w.live - old(w.live) :: Harmless(t)
  {
    ps := new PipelineState(w);
    for i := 0 to |calls|
      invariant ps.Valid() && ps.world == w && fresh(ps)
      invariant old(w.live) <= ps.others && forall t <- ps.others - old(w.live) :: Harmless(t)
    {
      e := Perform(ps, calls[i]);
      if !e.Returned? {
        return;
      }
    }
    var returned := ps.Stop(refusing);
    if !returned {
      return ps, InFeed;
    }
    ps.DisableRecording();
    e := Returned;
  }
}
