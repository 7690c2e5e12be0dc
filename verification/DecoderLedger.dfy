/** The decoder's resource ledger on values: what its fields record against what is open. */
module DecoderLedger {
  import opened Wrappers
  import opened Kernel
  import opened DrmFramebuffer

  datatype FrameSlot = FrameSlot(primeFd: int, fbId: nat, handle: nat)

  const EMPTY_SLOT: FrameSlot := FrameSlot(-1, 0, 0)
  const ZERO_SLOT: FrameSlot := FrameSlot(0, 0, 0)

  predicate IsEmpty(s: FrameSlot) {
    s.primeFd < 0 && s.fbId == 0 && s.handle == 0
  }

  /** The fields of the decoder that hold resources; 0, or a negative descriptor, stands for none. */
  datatype Fields = Fields(
    drmFd: int, packetBuf: nat, ctx: nat, packet: nat, frmGrp: nat, background: DumbFB,
    lockInitialized: bool, condInitialized: bool, frameThread: nat, displayThread: nat,
    slots: seq<FrameSlot>)

  function When(b: bool, r: Resource): Option<Resource> {
    if b then Some(r) else None
  }

  /** The slots that count: none without a buffer group, whatever the map contains. */
  predicate Counts(f: Fields, i: nat) {
    f.frmGrp != 0 && i < |f.slots|
  }

  /** What a field records. */
  function Recorded(f: Fields, o: Owner): Option<Resource> {
    match o
    case Others => None
    case InTransit => None
    case SlotHandle(i) => if Counts(f, i) && f.slots[i].handle != 0 then Some(Handle(f.slots[i].handle)) else None
    case SlotFd(i) => if Counts(f, i) && f.slots[i].primeFd >= 0 then Some(Fd(f.slots[i].primeFd)) else None
    case SlotFramebuffer(i) => if Counts(f, i) && f.slots[i].fbId != 0 then Some(Framebuffer(f.slots[i].fbId)) else None
    case BackgroundHandle => if f.background.handle != 0 then Some(Handle(f.background.handle)) else None
    case BackgroundFramebuffer => if f.background.fbId != 0 then Some(Framebuffer(f.background.fbId)) else None
    case BackgroundMapping => if f.background.mapping != 0 then Some(Mapping(f.background.mapping)) else None
    case CardFd => if f.drmFd >= 0 then Some(Fd(f.drmFd)) else None
    case PacketBuffer => When(f.packetBuf != 0, Block(f.packetBuf))
    case DecoderContext => When(f.ctx != 0, Context(f.ctx))
    case DecoderPacket => When(f.packet != 0, Packet(f.packet))
    case FrameGroup => When(f.frmGrp != 0, Group(f.frmGrp))
    case DecoderLock => When(f.lockInitialized, Lock)
    case DecoderCondition => When(f.condInitialized, Condition)
    case FrameThread => When(f.frameThread != 0, Thread(f.frameThread))
    case DisplayThread => When(f.displayThread != 0, Thread(f.displayThread))
  }

  predicate Holds(open: Holdings, r: Resource, o: Owner) {
    r in open && open[r] == o
  }

  /** Everything a field records is open and noted for it; everything open is recorded by the field it is
      noted for, or belongs to others; and what belongs to others is ext. */
  ghost predicate Balanced(open: Holdings, ext: set<Resource>, f: Fields) {
    && (forall o: Owner :: Recorded(f, o).Some? ==> Holds(open, Recorded(f, o).value, o))
    && (forall r: Resource :: r in open && open[r] != Others ==> Recorded(f, open[r]) == Some(r))
    && (forall r: Resource :: r in ext <==> r in open && open[r] == Others)
  }

  ghost predicate SameBut(f: Fields, g: Fields, o: Owner) {
    forall p: Owner :: p != o ==> Recorded(g, p) == Recorded(f, p)
  }

  /** open without what a field records. */
  function Without(open: Holdings, recorded: Option<Resource>): Holdings {
    if recorded.Some? then open - {recorded.value} else open
  }

  lemma Releasing(open: Holdings, ext: set<Resource>, f: Fields, g: Fields, o: Owner)
    requires Balanced(open, ext, f) && SameBut(f, g, o) && Recorded(g, o).None?
    ensures Balanced(Without(open, Recorded(f, o)), ext, g)
  {
  }

  lemma Acquiring(open: Holdings, ext: set<Resource>, f: Fields, g: Fields, o: Owner, r: Resource)
    requires Balanced(open, ext, f) && SameBut(f, g, o)
    requires o != Others && Recorded(f, o).None? && Recorded(g, o) == Some(r) && r !in open
    ensures Balanced(open[r := o], ext, g)
  {
  }

  /** Overwriting a field that still records something: the books balance again only with that thing counted
      among what nobody here will release. */
  lemma Losing(open: Holdings, ext: set<Resource>, f: Fields, g: Fields, o: Owner)
    requires Balanced(open, ext, f) && SameBut(f, g, o) && Recorded(f, o).Some? && Recorded(g, o).None?
    ensures Balanced(open[Recorded(f, o).value := Others], ext + {Recorded(f, o).value}, g)
  {
    var r := Recorded(f, o).value;
    assert Holds(open, r, o);
  }

  /** Fields that record the same things balance the same books. */
  lemma SameBooks(open: Holdings, ext: set<Resource>, f: Fields, g: Fields)
    requires Balanced(open, ext, f) && forall p: Owner :: Recorded(g, p) == Recorded(f, p)
    ensures Balanced(open, ext, g)
  {
  }

  /** No field records anything; without a buffer group the slot table does not count. */
  predicate RecordsNothing(f: Fields) {
    && f.drmFd < 0 && f.packetBuf == 0 && f.ctx == 0 && f.packet == 0 && f.frmGrp == 0 && f.background == NO_FB
    && !f.lockInitialized && !f.condInitialized && f.frameThread == 0 && f.displayThread == 0
  }

  predicate OnlyOthers(open: Holdings, ext: set<Resource>) {
    open.Keys == ext && forall r :: r in open ==> open[r] == Others
  }

  /** A decoder that records nothing holds nothing, and the other way round. */
  lemma NothingLeft(open: Holdings, ext: set<Resource>, f: Fields)
    requires RecordsNothing(f)
    ensures Balanced(open, ext, f) <==> OnlyOthers(open, ext)
  {
    assert forall o: Owner :: Recorded(f, o).None?;
  }

  /** Once no thread is recorded, none is left to be joined. */
  lemma ThreadsAreJoined(open: Holdings, ext: set<Resource>, f: Fields)
    requires Balanced(open, ext, f) && f.frameThread == f.displayThread == 0
    ensures NoWorkers(open)
  {
    assert Recorded(f, FrameThread).None? && Recorded(f, DisplayThread).None?;
  }

  /** A slot with everything in it. */
  predicate IsComplete(s: FrameSlot) { s.handle != 0 && s.primeFd >= 0 && s.fbId != 0 }

  /** What no field records and no one else owns is not open. */
  lemma NotOpen(open: Holdings, ext: set<Resource>, f: Fields, r: Resource)
    requires Balanced(open, ext, f) && r !in ext && forall o: Owner :: Recorded(f, o) != Some(r)
    ensures r !in open
  {
  }

  /** The books are exact: as many resources are held as fields record one, one each. */
  lemma RecordedOnce(open: Holdings, ext: set<Resource>, f: Fields, o: Owner, p: Owner)
    requires Balanced(open, ext, f) && Recorded(f, o).Some? && Recorded(f, o) == Recorded(f, p)
    ensures o == p && Recorded(f, o).value !in ext
  {
    assert Holds(open, Recorded(f, o).value, o) && Holds(open, Recorded(f, p).value, p);
  }

  /** What a field records is open, noted for it. */
  lemma IsHeld(open: Holdings, ext: set<Resource>, f: Fields, o: Owner)
    requires Balanced(open, ext, f) && Recorded(f, o).Some?
    ensures Holds(open, Recorded(f, o).value, o)
  {
  }

  // The same for each of the changes the decoder makes.

  function SetSlot(f: Fields, i: nat, s: FrameSlot): Fields
    requires i < |f.slots|
  {
    f.(slots := f.slots[i := s])
  }

  function Nat(x: int): nat { if x < 0 then 0 else x }

  /** f with the field that holds o set to x. */
  function Put(f: Fields, o: Owner, x: int): Fields {
    match o
    case Others => f
    case InTransit => f
    case FrameGroup => f
    case SlotHandle(i) => if i < |f.slots| then SetSlot(f, i, f.slots[i].(handle := Nat(x))) else f
    case SlotFd(i) => if i < |f.slots| then SetSlot(f, i, f.slots[i].(primeFd := x)) else f
    case SlotFramebuffer(i) => if i < |f.slots| then SetSlot(f, i, f.slots[i].(fbId := Nat(x))) else f
    case BackgroundHandle => f.(background := f.background.(handle := Nat(x)))
    case BackgroundFramebuffer => f.(background := f.background.(fbId := Nat(x)))
    case BackgroundMapping => f.(background := f.background.(mapping := Nat(x)))
    case CardFd => f.(drmFd := x)
    case PacketBuffer => f.(packetBuf := Nat(x))
    case DecoderContext => f.(ctx := Nat(x))
    case DecoderPacket => f.(packet := Nat(x))
    case DecoderLock => f.(lockInitialized := x != 0)
    case DecoderCondition => f.(condInitialized := x != 0)
    case FrameThread => f.(frameThread := Nat(x))
    case DisplayThread => f.(displayThread := Nat(x))
  }

  /** Setting one field changes what that field records, and nothing else that is recorded. */
  lemma PutChangesOne(f: Fields, o: Owner, x: int)
    ensures SameBut(f, Put(f, o, x), o)
  {
  }

  /** The thing a field records is released and the field reset to x, which records nothing. */
  lemma Goes(open: Holdings, ext: set<Resource>, f: Fields, o: Owner, x: int)
    requires Balanced(open, ext, f) && Recorded(Put(f, o, x), o).None?
    ensures Balanced(Without(open, Recorded(f, o)), ext, Put(f, o, x))
  {
    PutChangesOne(f, o, x);
    Releasing(open, ext, f, Put(f, o, x), o);
  }

  /** Something new is acquired and the field set to x, which records it. */
  lemma Comes(open: Holdings, ext: set<Resource>, f: Fields, o: Owner, x: int, r: Resource)
    requires Balanced(open, ext, f) && Recorded(f, o).None? && Recorded(Put(f, o, x), o) == Some(r) && r !in open
    ensures Balanced(open[r := o], ext, Put(f, o, x))
  {
    PutChangesOne(f, o, x);
    Acquiring(open, ext, f, Put(f, o, x), o, r);
  }

  /** A field that still records something is reset: that thing is lost. */
  lemma IsLost(open: Holdings, ext: set<Resource>, f: Fields, o: Owner, x: int)
    requires Balanced(open, ext, f) && Recorded(f, o).Some? && Recorded(Put(f, o, x), o).None?
    ensures Balanced(open[Recorded(f, o).value := Others], ext + {Recorded(f, o).value}, Put(f, o, x))
  {
    PutChangesOne(f, o, x);
    Losing(open, ext, f, Put(f, o, x), o);
  }

  /** The group is given back once every slot is empty. */
  lemma GroupGoes(open: Holdings, ext: set<Resource>, f: Fields)
    requires Balanced(open, ext, f) && f.frmGrp != 0 && forall i :: 0 <= i < |f.slots| ==> IsEmpty(f.slots[i])
    ensures Holds(open, Group(f.frmGrp), FrameGroup)
    ensures Balanced(open - {Group(f.frmGrp)}, ext, f.(frmGrp := 0))
  {
    IsHeld(open, ext, f, FrameGroup);
    Releasing(open, ext, f, f.(frmGrp := 0), FrameGroup);
  }

  /** A new group comes with an empty table. */
  lemma GroupComes(open: Holdings, ext: set<Resource>, f: Fields, slots: seq<FrameSlot>, group: nat)
    requires Balanced(open, ext, f) && f.frmGrp == 0 && forall i :: 0 <= i < |slots| ==> IsEmpty(slots[i])
    requires group != 0 && Group(group) !in open
    ensures Balanced(open[Group(group) := FrameGroup], ext, f.(frmGrp := group, slots := slots))
  {
    Acquiring(open, ext, f, f.(frmGrp := group, slots := slots), FrameGroup, Group(group));
  }

  lemma FrameThreadIsLost(open: Holdings, ext: set<Resource>, f: Fields)
    requires Balanced(open, ext, f) && f.frameThread != 0
    ensures Holds(open, Thread(f.frameThread), FrameThread)
    ensures Balanced(open[Thread(f.frameThread) := Others], ext + {Thread(f.frameThread)}, f.(frameThread := 0))
  {
    IsHeld(open, ext, f, FrameThread);
    IsLost(open, ext, f, FrameThread, 0);
  }

  lemma DisplayThreadIsLost(open: Holdings, ext: set<Resource>, f: Fields)
    requires Balanced(open, ext, f) && f.displayThread != 0
    ensures Holds(open, Thread(f.displayThread), DisplayThread)
    ensures Balanced(open[Thread(f.displayThread) := Others], ext + {Thread(f.displayThread)}, f.(displayThread := 0))
  {
    IsHeld(open, ext, f, DisplayThread);
    IsLost(open, ext, f, DisplayThread, 0);
  }

  lemma BackgroundIsHeld(open: Holdings, ext: set<Resource>, f: Fields)
    requires Balanced(open, ext, f)
    ensures HoldsFb(open, f.background)
  {
    assert f.background.mapping != 0 ==> Recorded(f, BackgroundMapping).Some?;
    assert f.background.fbId != 0 ==> Recorded(f, BackgroundFramebuffer).Some?;
    assert f.background.handle != 0 ==> Recorded(f, BackgroundHandle).Some?;
  }

  lemma WithoutFbStages(open: Holdings, f: Fields)
    ensures WithoutFb(open, f.background) ==
            Without(Without(Without(open, Recorded(f, BackgroundMapping)), Recorded(f, BackgroundFramebuffer)),
                    Recorded(f, BackgroundHandle))
  {
    assert forall m: Holdings :: m - {} == m;
  }

  lemma BackgroundGoes(open: Holdings, ext: set<Resource>, f: Fields)
    requires Balanced(open, ext, f)
    ensures Balanced(WithoutFb(open, f.background), ext, f.(background := NO_FB))
  {
    var f1 := f.(background := f.background.(mapping := 0));
    var f2 := f1.(background := f1.background.(fbId := 0));
    var open1 := Without(open, Recorded(f, BackgroundMapping));
    Goes(open, ext, f, BackgroundMapping, 0);
    Goes(open1, ext, f1, BackgroundFramebuffer, 0);
    Goes(Without(open1, Recorded(f, BackgroundFramebuffer)), ext, f2, BackgroundHandle, 0);
    WithoutFbStages(open, f);
    assert f2.(background := f2.background.(handle := 0)) == f.(background := NO_FB);
  }

  lemma BackgroundComes(open: Holdings, ext: set<Resource>, f: Fields, fb: DumbFB)
    requires Balanced(open, ext, f) && f.background == NO_FB
    requires fb.fbId != 0 && fb.handle != 0 && fb.mapping != 0
    requires Handle(fb.handle) !in open && Framebuffer(fb.fbId) !in open && Mapping(fb.mapping) !in open
    ensures Balanced(WithFb(open, fb), ext, f.(background := fb))
  {
    var f1 := f.(background := f.background.(handle := fb.handle));
    var f2 := f1.(background := f1.background.(fbId := fb.fbId));
    var open1 := open[Handle(fb.handle) := BackgroundHandle];
    Comes(open, ext, f, BackgroundHandle, fb.handle, Handle(fb.handle));
    Comes(open1, ext, f1, BackgroundFramebuffer, fb.fbId, Framebuffer(fb.fbId));
    var open2 := open1[Framebuffer(fb.fbId) := BackgroundFramebuffer];
    Comes(open2, ext, f2, BackgroundMapping, fb.mapping, Mapping(fb.mapping));
    assert f2.(background := f2.background.(mapping := fb.mapping)) == f.(background := fb);
  }
}
