/** The video decoder as an owner of resources: the slot table of external buffers, the black background
    plane, and the chain of init, start, stop and deinit, with every call to the outside free to fail. */
module VideoDecoder {
  import opened Kernel
  import opened DrmFramebuffer
  import opened DecoderLedger

  function Joinable(thread: nat): set<Resource> {
    if thread != 0 then {Thread(thread)} else {}
  }

  class VideoDecoder {
    const k: Kernel
    const frameMap: array<FrameSlot>
    ghost var ext: set<Resource>             // what belongs to others, or is lost

    var initialized: bool
    var running: bool
    var drmFd: int
    var packetBuf: nat
    var ctx: nat
    var packet: nat
    var frmGrp: nat
    var background: DumbFB
    var backgroundInitialized: bool
    var lockInitialized: bool
    var condInitialized: bool
    var frameThread: nat
    var displayThread: nat

    /** video_decoder_new: a zero-filled struct, which owns nothing although its drm_fd reads 0; init comes
        next. */
    constructor (k: Kernel, slots: nat)
      requires forall r :: r in k.open ==> k.open[r] == Others
      requires Lock !in k.open && Condition !in k.open
      ensures this.k == k && OthersOnly() && k.open == old(k.open) && drmFd == 0
      ensures initialized == running == false && frameThread == displayThread == 0
      ensures fresh(frameMap) && frameMap.Length == slots
    {
      this.k := k;
      ext := k.open.Keys;
      frameMap := new FrameSlot[slots](i => ZERO_SLOT);
      initialized, running, backgroundInitialized := false, false, false;
      lockInitialized, condInitialized := false, false;
      drmFd, packetBuf, ctx, packet, frmGrp, frameThread, displayThread := 0, 0, 0, 0, 0, 0, 0;
      background := NO_FB;
    }

    ghost function Recording(): Fields
      reads this, frameMap
    {
      Fields(drmFd, packetBuf, ctx, packet, frmGrp, background, lockInitialized, condInitialized,
             frameThread, displayThread, frameMap[..])
    }

    ghost predicate Valid()
      reads this, k, frameMap
    {
      && Balanced(k.open, ext, Recording()) && Lock !in ext && Condition !in ext
      && (frmGrp != 0 || background.fbId != 0 ==> drmFd >= 0)
      && (background.fbId == 0 ==> background == NO_FB)
      && (backgroundInitialized ==> background.fbId != 0)
    }

    /** Nothing but what belongs to others is open. */
    ghost predicate OthersOnly()
      reads this, k
    {
      && OnlyOthers(k.open, ext) && Lock !in ext && Condition !in ext
    }

    /** At rest: nothing is recorded, and only what belongs to others is open. */
    ghost predicate Cleared()
      reads this, k, frameMap
    {
      && Valid() && OthersOnly()
      && !initialized && !running && drmFd < 0 && packetBuf == 0 && ctx == 0 && packet == 0 && frmGrp == 0
      && background == NO_FB && !backgroundInitialized && !lockInitialized && !condInitialized
      && frameThread == 0 && displayThread == 0
    }

    // ---------- the slot table ----------

    method ReleaseSlotFramebuffer(i: nat)
      requires Valid() && frmGrp != 0 && i < frameMap.Length
      modifies k`open, frameMap
      ensures Valid() && frameMap[..] == old(frameMap[..])[i := old(frameMap[i]).(fbId := 0)]
    {
      ghost var f := Recording();
      if frameMap[i].fbId != 0 {
        IsHeld(k.open, ext, f, CardFd);
        IsHeld(k.open, ext, f, SlotFramebuffer(i));
        Goes(k.open, ext, f, SlotFramebuffer(i), 0);
        k.ReleaseOn(drmFd, Framebuffer(frameMap[i].fbId), SlotFramebuffer(i));
        frameMap[i] := frameMap[i].(fbId := 0);
        assert Recording() == Put(f, SlotFramebuffer(i), 0);
      }
    }

    method ReleaseSlotFd(i: nat)
      requires Valid() && frmGrp != 0 && i < frameMap.Length
      modifies k`open, frameMap
      ensures Valid() && frameMap[i].primeFd < 0
      ensures frameMap[..] == old(frameMap[..])[i := old(frameMap[i]).(primeFd := frameMap[i].primeFd)]
    {
      ghost var f := Recording();
      if frameMap[i].primeFd >= 0 {
        IsHeld(k.open, ext, f, SlotFd(i));
        Goes(k.open, ext, f, SlotFd(i), -1);
        k.Release(Fd(frameMap[i].primeFd), SlotFd(i));
        frameMap[i] := frameMap[i].(primeFd := -1);
        assert Recording() == Put(f, SlotFd(i), -1);
      }
    }

    method ReleaseSlotHandle(i: nat)
      requires Valid() && frmGrp != 0 && i < frameMap.Length
      modifies k`open, frameMap
      ensures Valid() && frameMap[..] == old(frameMap[..])[i := old(frameMap[i]).(handle := 0)]
    {
      ghost var f := Recording();
      if frameMap[i].handle != 0 {
        IsHeld(k.open, ext, f, CardFd);
        IsHeld(k.open, ext, f, SlotHandle(i));
        Goes(k.open, ext, f, SlotHandle(i), 0);
        k.ReleaseOn(drmFd, Handle(frameMap[i].handle), SlotHandle(i));
        frameMap[i] := frameMap[i].(handle := 0);
        assert Recording() == Put(f, SlotHandle(i), 0);
      }
    }

    method ReleaseSlots()
      requires Valid() && frmGrp != 0
      modifies k`open, frameMap
      ensures Valid() && forall j :: 0 <= j < frameMap.Length ==> IsEmpty(frameMap[j])
    {
      for i := 0 to frameMap.Length
        invariant Valid()
        invariant forall j :: 0 <= j < i ==> IsEmpty(frameMap[..][j])
      {
        ReleaseSlotFramebuffer(i);
        ReleaseSlotFd(i);
        ReleaseSlotHandle(i);
      }
      assert forall j :: 0 <= j < frameMap.Length ==> frameMap[..][j] == frameMap[j];
    }

    /** release_frame_group: gives back exactly the table; without a group it touches nothing, whatever the
        map contains. */
    method ReleaseFrameGroup()
      requires Valid()
      modifies k`open, frameMap, this`frmGrp
      ensures Valid() && frmGrp == 0
      ensures old(frmGrp) == 0 ==> k.open == old(k.open) && frameMap[..] == old(frameMap[..])
    {
      if frmGrp == 0 {
        return;
      }
      ReleaseSlots();
      PutEmptyGroup();
    }

    method PutEmptyGroup()
      requires Valid() && frmGrp != 0 && forall j :: 0 <= j < frameMap.Length ==> IsEmpty(frameMap[j])
      modifies k`open, this`frmGrp
      ensures Valid() && frmGrp == 0
    {
      ghost var f := Recording();
      assert forall j :: 0 <= j < |f.slots| ==> f.slots[j] == frameMap[j];
      GroupGoes(k.open, ext, f);
      k.Release(Group(frmGrp), FrameGroup);
      frmGrp := 0;
      assert Recording() == f.(frmGrp := 0);
    }

    method ResetFrameMap()
      modifies frameMap
      ensures forall j :: 0 <= j < frameMap.Length ==> frameMap[j] == EMPTY_SLOT
    {
      for i := 0 to frameMap.Length
        invariant forall j :: 0 <= j < i ==> frameMap[j] == EMPTY_SLOT
      {
        frameMap[i] := EMPTY_SLOT;
      }
    }

    /** The prime descriptor of one slot: exported, then committed to the group, which may keep another. */
    method ExportSlot(i: nat, handle: nat) returns (primeFd: int)
      requires drmFd >= 0 && Fd(drmFd) in k.open && Handle(handle) in k.open && Group(frmGrp) in k.open
      modifies k
      ensures primeFd < 0 ==> k.open == old(k.open)
      ensures primeFd >= 0 ==> Fd(primeFd) !in old(k.open) && k.open == old(k.open)[Fd(primeFd) := SlotFd(i)]
      ensures k.refused >= old(k.refused) && (primeFd < 0 ==> k.refused > old(k.refused))
    {
      var exported := k.OpenFd(InTransit);
      if exported < 0 {
        return -1;
      }
      var ok, kept := k.CommitBuffer(frmGrp, exported, SlotFd(i));
      if !ok {
        k.Release(Fd(exported), InTransit);
        return -1;
      }
      if exported != kept {
        k.Release(Fd(exported), InTransit);
      }
      primeFd := kept;
    }

    /** One slot of setup_external_buffers: each stage may fail and leaves what the earlier ones recorded. */
    method FillSlot(i: nat)
      requires Valid() && frmGrp != 0 && i < frameMap.Length && frameMap[i] == EMPTY_SLOT
      modifies k, frameMap
      ensures Valid() && frameMap[..] == old(frameMap[..])[i := frameMap[i]]
      ensures k.refused >= old(k.refused) && (k.refused == old(k.refused) ==> IsComplete(frameMap[i]))
    {
      FillSlotHandle(i);
      if frameMap[i].handle == 0 {
        return;
      }
      FillSlotFd(i);
      if frameMap[i].primeFd < 0 {
        return;
      }
      FillSlotFramebuffer(i);
    }

    method FillSlotHandle(i: nat)
      requires Valid() && frmGrp != 0 && i < frameMap.Length && frameMap[i].handle == 0
      modifies k, frameMap
      ensures Valid() && frameMap[..] == old(frameMap[..])[i := old(frameMap[i]).(handle := frameMap[i].handle)]
      ensures k.refused >= old(k.refused) && (frameMap[i].handle == 0 ==> k.refused > old(k.refused))
    {
      ghost var f := Recording();
      IsHeld(k.open, ext, f, CardFd);
      var handle := k.CreateDumb(drmFd, SlotHandle(i));
      if handle == 0 {
        return;
      }
      Comes(old(k.open), ext, f, SlotHandle(i), handle, Handle(handle));
      frameMap[i] := frameMap[i].(handle := handle);
      assert Recording() == Put(f, SlotHandle(i), handle);
    }

    method FillSlotFd(i: nat)
      requires Valid() && frmGrp != 0 && i < frameMap.Length && frameMap[i].handle != 0 && frameMap[i].primeFd < 0
      modifies k, frameMap
      ensures Valid() && frameMap[..] == old(frameMap[..])[i := old(frameMap[i]).(primeFd := frameMap[i].primeFd)]
      ensures k.refused >= old(k.refused) && (frameMap[i].primeFd < 0 ==> k.refused > old(k.refused))
    {
      ghost var f := Recording();
      IsHeld(k.open, ext, f, CardFd);
      IsHeld(k.open, ext, f, SlotHandle(i));
      IsHeld(k.open, ext, f, FrameGroup);
      var primeFd := ExportSlot(i, frameMap[i].handle);
      if primeFd < 0 {
        return;
      }
      Comes(old(k.open), ext, f, SlotFd(i), primeFd, Fd(primeFd));
      frameMap[i] := frameMap[i].(primeFd := primeFd);
      assert Recording() == Put(f, SlotFd(i), primeFd);
    }

    method FillSlotFramebuffer(i: nat)
      requires Valid() && frmGrp != 0 && i < frameMap.Length && frameMap[i].handle != 0 && frameMap[i].fbId == 0
      modifies k, frameMap
      ensures Valid() && frameMap[..] == old(frameMap[..])[i := old(frameMap[i]).(fbId := frameMap[i].fbId)]
      ensures k.refused >= old(k.refused) && (frameMap[i].fbId == 0 ==> k.refused > old(k.refused))
    {
      ghost var f := Recording();
      IsHeld(k.open, ext, f, CardFd);
      IsHeld(k.open, ext, f, SlotHandle(i));
      var id := k.AddFramebuffer(drmFd, frameMap[i].handle, SlotFramebuffer(i));
      if id == 0 {
        return;
      }
      Comes(old(k.open), ext, f, SlotFramebuffer(i), id, Framebuffer(id));
      frameMap[i] := frameMap[i].(fbId := id);
      assert Recording() == Put(f, SlotFramebuffer(i), id);
    }

    /** Every slot is tried, whatever became of the others: tried[j] refusals were noted before slot j, and a
        slot for which none was noted is complete. */
    method FillSlots() returns (ghost tried: seq<nat>)
      requires Valid() && frmGrp != 0 && forall j :: 0 <= j < frameMap.Length ==> frameMap[j] == EMPTY_SLOT
      modifies k, frameMap
      ensures Valid() && Tried(tried, old(k.refused), k.refused)
    {
      tried := [k.refused];
      for i := 0 to frameMap.Length
        invariant Valid()
        invariant |tried| == i + 1 && tried[0] == old(k.refused) && tried[i] == k.refused
        invariant forall j :: 0 <= j < i ==>
                    tried[j] <= tried[j + 1] && (tried[j] == tried[j + 1] ==> IsComplete(frameMap[..][j]))
        invariant forall j :: i <= j < frameMap.Length ==> frameMap[..][j] == EMPTY_SLOT
      {
        assert frameMap[..][i] == frameMap[i];
        FillSlot(i);
        tried := tried + [k.refused];
      }
      assert forall j :: 0 <= j < frameMap.Length ==> frameMap[..][j] == frameMap[j];
    }

    ghost predicate Tried(tried: seq<nat>, first: nat, last: nat)
      reads this, frameMap
    {
      && |tried| == frameMap.Length + 1 && tried[0] == first && tried[frameMap.Length] == last
      && forall j :: 0 <= j < frameMap.Length ==>
           tried[j] <= tried[j + 1] && (tried[j] == tried[j + 1] ==> IsComplete(frameMap[j]))
    }

    /** The new group and the reset of the map. */
    method OpenEmptyGroup() returns (ok: bool)
      requires Valid() && frmGrp == 0 && drmFd >= 0
      modifies k, this`frmGrp, frameMap
      ensures Valid() && ok == (frmGrp != 0)
      ensures ok ==> forall j :: 0 <= j < frameMap.Length ==> frameMap[j] == EMPTY_SLOT
      ensures k.refused == old(k.refused) + (if ok then 0 else 1)
    {
      ghost var f := Recording();
      var group := k.OpenGroup(FrameGroup);
      if group == 0 {
        return false;
      }
      ResetFrameMap();
      frmGrp := group;
      GroupComes(old(k.open), ext, f, frameMap[..], group);
      assert Recording() == f.(frmGrp := group, slots := frameMap[..]);
      return true;
    }

    /** setup_external_buffers: an info change replaces the whole table.  The books balance whatever fails; and
        with a group at hand every slot is filled for which the kernel refuses nothing. */
    method SetupExternalBuffers(knownFormat: bool) returns (ok: bool, ghost tried: seq<nat>)
      requires Valid() && drmFd >= 0
      modifies k, frameMap, this`frmGrp
      ensures Valid()
      ensures !knownFormat ==>
                !ok && frmGrp == old(frmGrp) && frameMap[..] == old(frameMap[..]) && k.open == old(k.open)
      ensures knownFormat ==> (ok <==> frmGrp != 0) && (!ok ==> k.refused > old(k.refused))
      ensures ok ==> Tried(tried, old(k.refused), k.refused)
    {
      tried := [];
      if !knownFormat {
        return false, [];
      }
      ReleaseFrameGroup();
      ok := OpenEmptyGroup();
      if ok {
        tried := FillSlots();
      }
    }

    // ---------- the background plane ----------

    /** teardown_background. */
    method TeardownBackground()
      requires Valid()
      modifies k`open, this`background, this`backgroundInitialized
      ensures Valid() && background == NO_FB && !backgroundInitialized
    {
      if !backgroundInitialized && background.fbId == 0 {
        return;
      }
      if background.fbId != 0 {
        DropBackground();
      }
      backgroundInitialized := false;
    }

    method DropBackground()
      requires Valid() && background.fbId != 0
      modifies k`open, this`background
      ensures background == NO_FB && Balanced(k.open, ext, Recording())
    {
      ghost var f := Recording();
      IsHeld(k.open, ext, f, CardFd);
      BackgroundIsHeld(k.open, ext, f);
      BackgroundGoes(k.open, ext, f);
      background := DestroyDumbFb(k, drmFd, background);
      assert Recording() == f.(background := NO_FB);
    }

    /** setup_black_background: whatever goes wrong, either the plane is lit and its framebuffer recorded,
        or nothing is held. */
    method SetupBlackBackground() returns (ok: bool)
      requires Valid() && drmFd >= 0 && background == NO_FB
      modifies k, this`background, this`backgroundInitialized
      ensures Valid() && ok == backgroundInitialized == (background.fbId != 0)
      ensures k.refused >= old(k.refused) && (!ok ==> k.refused > old(k.refused))
    {
      if backgroundInitialized {
        return true;
      }
      var planeFound := k.Ask();
      if !planeFound {
        return false;
      }
      var made := MakeBackground();
      if !made {
        return false;
      }
      var committed := LightBackground();
      if !committed {
        DropBackground();
        return false;
      }
      backgroundInitialized := true;
      return true;
    }

    /** The properties, the request and its commit. */
    method LightBackground() returns (ok: bool)
      modifies k`refused
      ensures k.refused >= old(k.refused) && (!ok ==> k.refused > old(k.refused))
    {
      ok := k.Ask();
      if ok {
        ok := k.Ask();
      }
      if ok {
        ok := k.Ask();
      }
    }

    method MakeBackground() returns (made: bool)
      requires Valid() && drmFd >= 0 && background == NO_FB
      modifies k, this`background
      ensures Valid() && made == (background.fbId != 0)
      ensures k.refused >= old(k.refused) && (!made ==> k.refused > old(k.refused))
    {
      ghost var f := Recording();
      IsHeld(k.open, ext, f, CardFd);
      var fb;
      made, fb := CreateArgbFb(k, drmFd);
      background := fb;
      if made {
        BackgroundComes(old(k.open), ext, f, fb);
        assert Recording() == f.(background := fb);
      }
    }

    // ---------- start and stop ----------

    method JoinFrameThread()
      requires Valid()
      modifies k`open, this`frameThread
      ensures Valid() && frameThread == 0
    {
      ghost var f := Recording();
      if frameThread != 0 {
        IsHeld(k.open, ext, f, FrameThread);
        Goes(k.open, ext, f, FrameThread, 0);
        k.Release(Thread(frameThread), FrameThread);
        frameThread := 0;
        assert Recording() == f.(frameThread := 0);
      }
    }

    method JoinDisplayThread()
      requires Valid()
      modifies k`open, this`displayThread
      ensures Valid() && displayThread == 0
    {
      ghost var f := Recording();
      if displayThread != 0 {
        IsHeld(k.open, ext, f, DisplayThread);
        Goes(k.open, ext, f, DisplayThread, 0);
        k.Release(Thread(displayThread), DisplayThread);
        displayThread := 0;
        assert Recording() == f.(displayThread := 0);
      }
    }

    /** The assignment that overwrites a handle: the thread is never joined. */
    method LoseFrameThread()
      requires Valid()
      modifies k`open, this`frameThread, this`ext
      ensures Valid() && frameThread == 0
      ensures ext == old(ext) + Joinable(old(frameThread))
      ensures old(frameThread) == 0 ==> k.open == old(k.open)
    {
      ghost var f := Recording();
      if frameThread != 0 {
        FrameThreadIsLost(k.open, ext, f);
        k.Forget(Thread(frameThread), FrameThread);
        ext := ext + {Thread(frameThread)};
        frameThread := 0;
        assert Recording() == f.(frameThread := 0);
      }
    }

    method LoseDisplayThread()
      requires Valid()
      modifies k`open, this`displayThread, this`ext
      ensures Valid() && displayThread == 0
      ensures ext == old(ext) + Joinable(old(displayThread))
    {
      ghost var f := Recording();
      if displayThread != 0 {
        DisplayThreadIsLost(k.open, ext, f);
        k.Forget(Thread(displayThread), DisplayThread);
        ext := ext + {Thread(displayThread)};
        displayThread := 0;
        assert Recording() == f.(displayThread := 0);
      }
    }

    /** video_decoder_start: two threads or none.  A thread of an earlier start that was not joined (after end
        of stream running is FALSE and both are in that state) is lost: its handle is overwritten, and it is
        among what stays open for good.  Nothing else is ever lost. */
    method Start() returns (ok: bool)
      requires Valid()
      modifies k, this`running, this`frameThread, this`displayThread, this`ext
      ensures Valid()
      ensures !initialized ==> !ok
      ensures ok ==> running
      ensures old(running) || !initialized ==>
                k.open == old(k.open) && running == old(running) && ext == old(ext)
                && frameThread == old(frameThread) && displayThread == old(displayThread)
      ensures initialized && !old(running) ==>
                if ok then frameThread != 0 && displayThread != 0
                else frameThread == 0 && !running && (displayThread == 0 || displayThread == old(displayThread))
      ensures var unjoined := Joinable(old(frameThread)) + Joinable(old(displayThread));
              && old(ext) <= ext <= old(ext) + unjoined
              && (ok && !old(running) ==> ext == old(ext) + unjoined)
      ensures initialized && k.refused == old(k.refused) ==> ok
    {
      if !initialized {
        return false;
      }
      if running {
        return true;
      }
      running := true;
      MakeFrameThread();
      if frameThread == 0 {
        running := false;
        return false;
      }
      MakeDisplayThread();
      if displayThread == 0 {
        running := false;
        JoinFrameThread();
        return false;
      }
      return true;
    }

    /** The assignment of a new thread, or of NULL, to the field. */
    method MakeFrameThread()
      requires Valid()
      modifies k, this`frameThread, this`ext
      ensures Valid() && ext == old(ext) + Joinable(old(frameThread))
      ensures k.refused >= old(k.refused) && (frameThread == 0 ==> k.refused > old(k.refused))
    {
      LoseFrameThread();
      SpawnFrameThread();
    }

    method SpawnFrameThread()
      requires Valid() && frameThread == 0
      modifies k, this`frameThread
      ensures Valid()
      ensures k.refused >= old(k.refused) && (frameThread == 0 ==> k.refused > old(k.refused))
    {
      ghost var f := Recording();
      var t := k.SpawnThread(FrameThread);
      if t != 0 {
        Comes(old(k.open), ext, f, FrameThread, t, Thread(t));
        frameThread := t;
        assert Recording() == f.(frameThread := t);
      }
    }

    /** The assignment of a new thread, or of NULL, to the field. */
    method MakeDisplayThread()
      requires Valid()
      modifies k, this`displayThread, this`ext
      ensures Valid() && ext == old(ext) + Joinable(old(displayThread))
      ensures k.refused >= old(k.refused) && (displayThread == 0 ==> k.refused > old(k.refused))
    {
      LoseDisplayThread();
      SpawnDisplayThread();
    }

    method SpawnDisplayThread()
      requires Valid() && displayThread == 0
      modifies k, this`displayThread
      ensures Valid()
      ensures k.refused >= old(k.refused) && (displayThread == 0 ==> k.refused > old(k.refused))
    {
      ghost var f := Recording();
      var t := k.SpawnThread(DisplayThread);
      if t != 0 {
        Comes(old(k.open), ext, f, DisplayThread, t, Thread(t));
        displayThread := t;
        assert Recording() == f.(displayThread := t);
      }
    }

    /** video_decoder_stop: both joins, each once. */
    method Stop()
      requires Valid()
      modifies k`open, this`running, this`frameThread, this`displayThread
      ensures Valid() && !running && frameThread == 0 && displayThread == 0
    {
      running := false;
      JoinFrameThread();
      JoinDisplayThread();
    }

    // ---------- init and deinit ----------

    method DropPacket()
      requires Valid() && frameThread == displayThread == 0
      modifies k`open, this`packet
      ensures Valid() && packet == 0
    {
      ghost var f := Recording();
      if packet != 0 {
        ThreadsAreJoined(k.open, ext, f);
        IsHeld(k.open, ext, f, DecoderPacket);
        Goes(k.open, ext, f, DecoderPacket, 0);
        k.Release(Packet(packet), DecoderPacket);
        packet := 0;
        assert Recording() == f.(packet := 0);
      }
    }

    method DropContext()
      requires Valid() && frameThread == displayThread == 0
      modifies k`open, this`ctx
      ensures Valid() && ctx == 0
    {
      ghost var f := Recording();
      if ctx != 0 {
        ThreadsAreJoined(k.open, ext, f);
        IsHeld(k.open, ext, f, DecoderContext);
        Goes(k.open, ext, f, DecoderContext, 0);
        k.Release(Context(ctx), DecoderContext);
        ctx := 0;
        assert Recording() == f.(ctx := 0);
      }
    }

    method DropPacketBuffer()
      requires Valid() && frameThread == displayThread == 0
      modifies k`open, this`packetBuf
      ensures Valid() && packetBuf == 0
    {
      ghost var f := Recording();
      if packetBuf != 0 {
        ThreadsAreJoined(k.open, ext, f);
        IsHeld(k.open, ext, f, PacketBuffer);
        Goes(k.open, ext, f, PacketBuffer, 0);
        k.Release(Block(packetBuf), PacketBuffer);
        packetBuf := 0;
        assert Recording() == f.(packetBuf := 0);
      }
    }

    /** The card's descriptor goes only when nothing made on the card is left. */
    method CloseCard()
      requires Valid() && frmGrp == 0 && background.fbId == 0
      modifies k`open, this`drmFd
      ensures Valid() && drmFd < 0
    {
      ghost var f := Recording();
      if drmFd >= 0 {
        IsHeld(k.open, ext, f, CardFd);
        Goes(k.open, ext, f, CardFd, -1);
        k.Release(Fd(drmFd), CardFd);
        drmFd := -1;
        assert Recording() == f.(drmFd := -1);
      }
    }

    method ClearLock()
      requires Valid() && frameThread == displayThread == 0
      modifies k`open, this`lockInitialized
      ensures Valid() && !lockInitialized
    {
      ghost var f := Recording();
      if lockInitialized {
        ThreadsAreJoined(k.open, ext, f);
        IsHeld(k.open, ext, f, DecoderLock);
        Goes(k.open, ext, f, DecoderLock, 0);
        k.Release(Lock, DecoderLock);
        lockInitialized := false;
        assert Recording() == f.(lockInitialized := false);
      }
    }

    method ClearCondition()
      requires Valid() && frameThread == displayThread == 0
      modifies k`open, this`condInitialized
      ensures Valid() && !condInitialized
    {
      ghost var f := Recording();
      if condInitialized {
        ThreadsAreJoined(k.open, ext, f);
        IsHeld(k.open, ext, f, DecoderCondition);
        Goes(k.open, ext, f, DecoderCondition, 0);
        k.Release(Condition, DecoderCondition);
        condInitialized := false;
        assert Recording() == f.(condInitialized := false);
      }
    }

    method AllocatePacketBuffer()
      requires Valid() && packetBuf == 0
      modifies k, this`packetBuf
      ensures Valid()
      ensures k.refused >= old(k.refused) && (packetBuf == 0 ==> k.refused > old(k.refused))
    {
      ghost var f := Recording();
      var x := k.Allocate(PacketBuffer);
      if x != 0 {
        Comes(old(k.open), ext, f, PacketBuffer, x, Block(x));
        packetBuf := x;
        assert Recording() == f.(packetBuf := x);
      }
    }

    method DupCard()
      requires Valid() && drmFd < 0 && frmGrp == 0 && background.fbId == 0
      modifies k, this`drmFd
      ensures Valid()
      ensures k.refused >= old(k.refused) && (drmFd < 0 ==> k.refused > old(k.refused))
    {
      ghost var f := Recording();
      var x := k.OpenFd(CardFd);
      if x >= 0 {
        Comes(old(k.open), ext, f, CardFd, x, Fd(x));
        drmFd := x;
        assert Recording() == f.(drmFd := x);
      }
    }

    method CreateContext()
      requires Valid() && ctx == 0
      modifies k, this`ctx
      ensures Valid()
      ensures k.refused >= old(k.refused) && (ctx == 0 ==> k.refused > old(k.refused))
    {
      ghost var f := Recording();
      var x := k.CreateContext(DecoderContext);
      if x != 0 {
        Comes(old(k.open), ext, f, DecoderContext, x, Context(x));
        ctx := x;
        assert Recording() == f.(ctx := x);
      }
    }

    method CreatePacket()
      requires Valid() && packet == 0
      modifies k, this`packet
      ensures Valid()
      ensures k.refused >= old(k.refused) && (packet == 0 ==> k.refused > old(k.refused))
    {
      ghost var f := Recording();
      var x := k.CreatePacket(DecoderPacket);
      if x != 0 {
        Comes(old(k.open), ext, f, DecoderPacket, x, Packet(x));
        packet := x;
        assert Recording() == f.(packet := x);
      }
    }

    /** mpp_create, mpp_packet_init and mpp_init. */
    method InitCodec() returns (ok: bool)
      requires Valid() && ctx == 0 && packet == 0
      modifies k, this`ctx, this`packet
      ensures Valid()
      ensures k.refused >= old(k.refused) && (!ok ==> k.refused > old(k.refused))
    {
      CreateContext();
      if ctx == 0 {
        return false;
      }
      CreatePacket();
      if packet == 0 {
        return false;
      }
      ok := k.Ask();
    }

    method InitLocks()
      requires Valid() && !lockInitialized && !condInitialized
      modifies k`open, this`lockInitialized, this`condInitialized
      ensures Valid() && lockInitialized && condInitialized
    {
      InitLock();
      InitCondition();
    }

    method InitLock()
      requires Valid() && !lockInitialized
      modifies k`open, this`lockInitialized
      ensures Valid() && lockInitialized
    {
      ghost var f := Recording();
      NotOpen(k.open, ext, f, Lock);
      k.Enter(Lock, DecoderLock);
      Comes(old(k.open), ext, f, DecoderLock, 1, Lock);
      lockInitialized := true;
      assert Recording() == f.(lockInitialized := true);
    }

    method InitCondition()
      requires Valid() && !condInitialized
      modifies k`open, this`condInitialized
      ensures Valid() && condInitialized
    {
      ghost var f := Recording();
      NotOpen(k.open, ext, f, Condition);
      k.Enter(Condition, DecoderCondition);
      Comes(old(k.open), ext, f, DecoderCondition, 1, Condition);
      condInitialized := true;
      assert Recording() == f.(condInitialized := true);
    }

    /** What deinit gives back between the joins and the locks. */
    method ReleaseObjects()
      requires Valid() && frameThread == displayThread == 0
      modifies k`open, frameMap, this`packet, this`ctx, this`frmGrp, this`background, this`backgroundInitialized,
               this`packetBuf, this`drmFd
      ensures Valid() && packet == 0 && ctx == 0 && frmGrp == 0 && packetBuf == 0 && drmFd < 0
      ensures background == NO_FB && !backgroundInitialized
    {
      DropPacket();
      DropContext();
      ReleaseFrameGroup();
      TeardownBackground();
      DropPacketBuffer();
      CloseCard();
    }

    method ClearLocks()
      requires Valid() && frameThread == displayThread == 0
      modifies k`open, this`lockInitialized, this`condInitialized
      ensures Valid() && !lockInitialized && !condInitialized
    {
      ClearLock();
      ClearCondition();
    }

    /** video_decoder_deinit: gives back everything.  Every release above needs the thing to be open and
        noted for its field, so entering this again is safe and releases nothing twice. */
    method Deinit()
      requires Valid()
      modifies k`open, this, frameMap
      ensures Cleared() && ext == old(ext)
    {
      Stop();
      ReleaseObjects();
      ClearLocks();
      initialized := false;
      NothingLeft(k.open, ext, Recording());
    }

    /** The memset at the start of init. */
    method ZeroFields()
      modifies this, frameMap
      ensures !initialized && !running && !backgroundInitialized && !lockInitialized && !condInitialized
      ensures drmFd == packetBuf == ctx == packet == frmGrp == frameThread == displayThread == 0 && background == NO_FB
      ensures frameMap[..] == seq(frameMap.Length, i => ZERO_SLOT) && ext == old(ext)
    {
      ZeroMap();
      initialized, running, backgroundInitialized := false, false, false;
      lockInitialized, condInitialized := false, false;
      drmFd, packetBuf, ctx, packet, frmGrp, frameThread, displayThread := 0, 0, 0, 0, 0, 0, 0;
      background := NO_FB;
    }

    method ZeroMap()
      modifies frameMap
      ensures frameMap[..] == seq(frameMap.Length, i => ZERO_SLOT)
    {
      for i := 0 to frameMap.Length
        invariant forall j :: 0 <= j < i ==> frameMap[j] == ZERO_SLOT
      {
        frameMap[i] := ZERO_SLOT;
      }
    }

    /** What a successful init leaves. */
    ghost predicate Ready()
      reads this, k, frameMap
    {
      && Valid() && initialized && !running && drmFd >= 0 && lockInitialized && condInitialized
      && frmGrp == 0 && frameThread == 0 && displayThread == 0
    }

    /** video_decoder_init on a decoder that owns nothing, whatever its fields contain: ready, or at rest. */
    method Init() returns (ok: bool)
      requires OthersOnly()
      modifies k, this, frameMap
      ensures (if ok then Ready() else Cleared()) && ext == old(ext)
      ensures k.refused >= old(k.refused) && (!ok || !backgroundInitialized ==> k.refused > old(k.refused))
    {
      ZeroFields();
      drmFd := -1;
      NothingLeft(k.open, ext, Recording());
      AllocatePacketBuffer();
      if packetBuf == 0 {
        NothingLeft(k.open, ext, Recording());
        return false;
      }
      DupCard();
      if drmFd < 0 {
        DropPacketBuffer();
        NothingLeft(k.open, ext, Recording());
        return false;
      }
      ok := InitOnCard();
    }

    /** The rest of init: from here on a failure goes through deinit. */
    method InitOnCard() returns (ok: bool)
      requires Valid() && drmFd >= 0 && packetBuf != 0 && ctx == packet == frmGrp == frameThread == displayThread == 0
      requires background == NO_FB && !lockInitialized && !condInitialized && !initialized && !running
      modifies k, this, frameMap
      ensures (if ok then Ready() else Cleared()) && ext == old(ext)
      ensures k.refused >= old(k.refused) && (!ok || !backgroundInitialized ==> k.refused > old(k.refused))
    {
      var propertiesKnown := k.Ask();
      if !propertiesKnown {
        Deinit();
        return false;
      }
      var lit := SetupBlackBackground();
      ok := InitCodec();
      if !ok {
        Deinit();
        return;
      }
      FinishInit();
    }

    method FinishInit()
      requires Valid() && drmFd >= 0 && frmGrp == frameThread == displayThread == 0
      requires !lockInitialized && !condInitialized && !running
      modifies k`open, frameMap, this`lockInitialized, this`condInitialized, this`initialized
      ensures Ready() && forall i :: 0 <= i < frameMap.Length ==> frameMap[i] == EMPTY_SLOT
    {
      InitLocks();
      ghost var f := Recording();
      ResetFrameMap();
      SameBooks(k.open, ext, f, Recording());
      initialized := true;
    }

    /** The teardown chain of the pipeline: stop, deinit, and free, which enters deinit once more. */
    method TearDown(decoderRunning: bool, decoderInitialized: bool)
      requires Valid()
      modifies k`open, this, frameMap
      ensures Cleared() && ext == old(ext)
    {
      if decoderRunning {
        Stop();
      }
      if decoderInitialized {
        Deinit();
      }
      Deinit();
    }
  }

  /** A decoder's whole life as the pipeline leads it: any outcome of init and start, any number of info
      changes with any failures, and the teardown chain.  Exactly what was open before is open afterwards. */
  method WholeLife(k: Kernel, slots: nat, knownFormats: seq<bool>)
    requires forall r :: r in k.open ==> k.open[r] == Others
    requires Lock !in k.open && Condition !in k.open
    modifies k
    ensures k.open == old(k.open)
  {
    var vd := new VideoDecoder(k, slots);
    var initialized := vd.Init();
    var started := false;
    assert vd.ext == old(k.open.Keys);
    if initialized {
      started := vd.Start();
      assert vd.ext == old(k.open.Keys);
    }
    if started {
      for i := 0 to |knownFormats|
        invariant vd.Valid() && vd.drmFd >= 0 && vd.ext == old(k.open.Keys) && fresh(vd) && fresh(vd.frameMap)
      {
        var _, tried := vd.SetupExternalBuffers(knownFormats[i]);
      }
    }
    vd.TearDown(started, initialized);
    assert k.open.Keys == old(k.open.Keys);
  }
}
