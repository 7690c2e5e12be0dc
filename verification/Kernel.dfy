/** The outside world that hands out resources.  Every acquisition may fail; a successful one hands out
    something that is not open yet and notes which field of the program is to hold it.  Only what is open,
    and noted for that field, can be released. */
module Kernel {
  datatype Resource =
    | Handle(handle: nat)              // dumb-buffer handle
    | Fd(fd: nat)                      // file descriptor: the dup of the card, or a prime descriptor
    | Framebuffer(id: nat)
    | Mapping(address: nat)
    | Block(block: nat)                // heap block
    | Context(ctx: nat)                // decoder context
    | Packet(packet: nat)
    | Group(group: nat)                // buffer group
    | Lock
    | Condition
    | Thread(thread: nat)

  /** The field that holds a resource; InTransit is a local variable, Others is the rest of the program. */
  datatype Owner =
    | Others
    | InTransit
    | SlotHandle(i: nat) | SlotFd(i: nat) | SlotFramebuffer(i: nat)
    | BackgroundHandle | BackgroundFramebuffer | BackgroundMapping
    | CardFd | PacketBuffer | DecoderContext | DecoderPacket | FrameGroup
    | DecoderLock | DecoderCondition | FrameThread | DisplayThread

  type Holdings = map<Resource, Owner>

  /** What a running frame or display thread works with all the time. */
  predicate NeedsNoThread(r: Resource) {
    r.Context? || r.Packet? || r.Block? || r.Lock? || r.Condition?
  }

  /** No frame or display thread is left to be joined. */
  predicate NoWorkers(open: Holdings) {
    forall r :: r in open && r.Thread? ==> open[r] != FrameThread && open[r] != DisplayThread
  }

  class Kernel {
    var open: Holdings
    ghost var refused: nat               // how often something asked for was not granted

    /** r, if it is not open yet and the world is willing. */
    method Acquire(r: Resource, o: Owner) returns (ok: bool)
      modifies this
      ensures if ok then r !in old(open) && open == old(open)[r := o] else open == old(open)
      ensures refused == old(refused) + (if ok then 0 else 1)
    {
      var willing: bool := *;
      ok := willing && r !in open;
      if ok {
        open := open[r := o];
      } else {
        refused := refused + 1;
      }
    }

    /** Anything else the world may grant or refuse: a lookup, a request, a commit. */
    method Ask() returns (ok: bool)
      modifies this`refused
      ensures refused == old(refused) + (if ok then 0 else 1)
    {
      ok := *;
      if !ok {
        refused := refused + 1;
      }
    }

    /** g_mutex_init and g_cond_init cannot fail. */
    method Enter(r: Resource, o: Owner)
      requires r !in open
      modifies this`open
      ensures open == old(open)[r := o]
    {
      open := open[r := o];
    }

    /** To release something twice, or something not open, or still in a thread's use, is impossible. */
    method Release(r: Resource, o: Owner)
      requires r in open && open[r] == o
      requires NeedsNoThread(r) ==> NoWorkers(open)
      modifies this`open
      ensures open == old(open) - {r}
    {
      open := open - {r};
    }

    /** The field that held r is overwritten: r stays open, and nobody here will ever release it. */
    method Forget(r: Resource, o: Owner)
      requires r in open && open[r] == o
      modifies this`open
      ensures open == old(open)[r := Others]
    {
      open := open[r := Others];
    }

    method Allocate(o: Owner) returns (block: nat)
      modifies this
      ensures block == 0 ==> open == old(open)
      ensures block != 0 ==> Block(block) !in old(open) && open == old(open)[Block(block) := o]
      ensures refused == old(refused) + (if block != 0 then 0 else 1)
    {
      var n: nat :| n > 0;
      var ok := Acquire(Block(n), o);
      block := if ok then n else 0;
    }

    method CreateContext(o: Owner) returns (ctx: nat)
      modifies this
      ensures ctx == 0 ==> open == old(open)
      ensures ctx != 0 ==> Context(ctx) !in old(open) && open == old(open)[Context(ctx) := o]
      ensures refused == old(refused) + (if ctx != 0 then 0 else 1)
    {
      var n: nat :| n > 0;
      var ok := Acquire(Context(n), o);
      ctx := if ok then n else 0;
    }

    method CreatePacket(o: Owner) returns (packet: nat)
      modifies this
      ensures packet == 0 ==> open == old(open)
      ensures packet != 0 ==> Packet(packet) !in old(open) && open == old(open)[Packet(packet) := o]
      ensures refused == old(refused) + (if packet != 0 then 0 else 1)
    {
      var n: nat :| n > 0;
      var ok := Acquire(Packet(n), o);
      packet := if ok then n else 0;
    }

    method OpenGroup(o: Owner) returns (group: nat)
      modifies this
      ensures group == 0 ==> open == old(open)
      ensures group != 0 ==> Group(group) !in old(open) && open == old(open)[Group(group) := o]
      ensures refused == old(refused) + (if group != 0 then 0 else 1)
    {
      var n: nat :| n > 0;
      var ok := Acquire(Group(n), o);
      group := if ok then n else 0;
    }

    method SpawnThread(o: Owner) returns (thread: nat)
      modifies this
      ensures thread == 0 ==> open == old(open)
      ensures thread != 0 ==> Thread(thread) !in old(open) && open == old(open)[Thread(thread) := o]
      ensures refused == old(refused) + (if thread != 0 then 0 else 1)
    {
      var n: nat :| n > 0;
      var ok := Acquire(Thread(n), o);
      thread := if ok then n else 0;
    }

    // The calls that need the card's descriptor, which must be open still.

    method CreateDumb(drm: int, o: Owner) returns (handle: nat)
      requires drm >= 0 && Fd(drm) in open
      modifies this
      ensures handle == 0 ==> open == old(open)
      ensures handle != 0 ==> Handle(handle) !in old(open) && open == old(open)[Handle(handle) := o]
      ensures refused == old(refused) + (if handle != 0 then 0 else 1)
    {
      var n: nat :| n > 0;
      var ok := Acquire(Handle(n), o);
      handle := if ok then n else 0;
    }

    method AddFramebuffer(drm: int, handle: nat, o: Owner) returns (id: nat)
      requires drm >= 0 && Fd(drm) in open && Handle(handle) in open
      modifies this
      ensures id == 0 ==> open == old(open)
      ensures id != 0 ==> Framebuffer(id) !in old(open) && open == old(open)[Framebuffer(id) := o]
      ensures refused == old(refused) + (if id != 0 then 0 else 1)
    {
      var n: nat :| n > 0;
      var ok := Acquire(Framebuffer(n), o);
      id := if ok then n else 0;
    }

    method Map(drm: int, handle: nat, o: Owner) returns (address: nat)
      requires drm >= 0 && Fd(drm) in open && Handle(handle) in open
      modifies this
      ensures address == 0 ==> open == old(open)
      ensures address != 0 ==> Mapping(address) !in old(open) && open == old(open)[Mapping(address) := o]
      ensures refused == old(refused) + (if address != 0 then 0 else 1)
    {
      var n: nat :| n > 0;
      var ok := Acquire(Mapping(n), o);
      address := if ok then n else 0;
    }

    method OpenFd(o: Owner) returns (fd: int)
      modifies this
      ensures fd < 0 ==> open == old(open)
      ensures fd >= 0 ==> Fd(fd) !in old(open) && open == old(open)[Fd(fd) := o]
      ensures refused == old(refused) + (if fd >= 0 then 0 else 1)
    {
      var n: nat :| true;
      var ok := Acquire(Fd(n), o);
      fd := if ok then n else -1;
    }

    /** Hands fd to the buffer group.  The library may answer with a descriptor of its own in its place, and
        then fd is still the caller's to close. */
    method CommitBuffer(group: nat, fd: nat, o: Owner) returns (ok: bool, kept: nat)
      requires Group(group) in open && Fd(fd) in open && open[Fd(fd)] == InTransit
      modifies this
      ensures !ok ==> open == old(open)
      ensures ok && kept == fd ==> open == old(open)[Fd(fd) := o]
      ensures ok && kept != fd ==> Fd(kept) !in old(open) && open == old(open)[Fd(kept) := o]
      ensures refused >= old(refused) && (!ok ==> refused > old(refused))
    {
      kept := fd;
      ok := Ask();
      if !ok {
        return;
      }
      var own: bool := *;
      if own {
        var other := OpenFd(o);
        if other >= 0 {
          kept := other;
          return;
        }
      }
      open := open[Fd(fd) := o];
    }

    method ReleaseOn(drm: int, r: Resource, o: Owner)
      requires drm >= 0 && Fd(drm) in open
      requires r in open && open[r] == o && !NeedsNoThread(r)
      modifies this`open
      ensures open == old(open) - {r}
    {
      Release(r, o);
    }
  }
}
