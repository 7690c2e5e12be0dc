/** Dumb framebuffers: staged acquisition with undo, and destruction. */
module DrmFramebuffer {
  import opened Kernel

  datatype DumbFB = DumbFB(fbId: nat, handle: nat, mapping: nat)

  /** The struct after a memset to zero. */
  const NO_FB: DumbFB := DumbFB(0, 0, 0)

  /** open, and the three resources of fb noted for the background's fields. */
  function WithFb(open: Holdings, fb: DumbFB): Holdings {
    open[Handle(fb.handle) := BackgroundHandle][Framebuffer(fb.fbId) := BackgroundFramebuffer]
        [Mapping(fb.mapping) := BackgroundMapping]
  }

  /** All or nothing: on success all three resources are held, on failure at any stage none is. */
  method CreateArgbFb(k: Kernel, drm: int) returns (ok: bool, fb: DumbFB)
    requires drm >= 0 && Fd(drm) in k.open
    modifies k
    ensures !ok ==> fb == NO_FB && k.open == old(k.open)
    ensures ok ==> fb.fbId != 0 && fb.handle != 0 && fb.mapping != 0 && k.open == WithFb(old(k.open), fb)
    ensures k.refused >= old(k.refused) && (!ok ==> k.refused > old(k.refused))
    ensures ok ==> Handle(fb.handle) !in old(k.open) && Framebuffer(fb.fbId) !in old(k.open)
                   && Mapping(fb.mapping) !in old(k.open)
  {
    fb := NO_FB;
    var handle := k.CreateDumb(drm, BackgroundHandle);
    if handle == 0 {
      return false, fb;
    }
    var id := k.AddFramebuffer(drm, handle, BackgroundFramebuffer);
    if id == 0 {
      k.ReleaseOn(drm, Handle(handle), BackgroundHandle);
      return false, fb;
    }
    var mappable := k.Ask();
    if !mappable {
      k.ReleaseOn(drm, Framebuffer(id), BackgroundFramebuffer);
      k.ReleaseOn(drm, Handle(handle), BackgroundHandle);
      return false, fb;
    }
    var address := k.Map(drm, handle, BackgroundMapping);
    if address == 0 {
      k.ReleaseOn(drm, Framebuffer(id), BackgroundFramebuffer);
      k.ReleaseOn(drm, Handle(handle), BackgroundHandle);
      return false, fb;
    }
    return true, DumbFB(id, handle, address);
  }

  /** Held, field by field: what fb records is open and noted for that field. */
  predicate HoldsFb(open: Holdings, fb: DumbFB) {
    && (fb.mapping != 0 ==> Mapping(fb.mapping) in open && open[Mapping(fb.mapping)] == BackgroundMapping)
    && (fb.fbId != 0 ==> Framebuffer(fb.fbId) in open && open[Framebuffer(fb.fbId)] == BackgroundFramebuffer)
    && (fb.handle != 0 ==> Handle(fb.handle) in open && open[Handle(fb.handle)] == BackgroundHandle)
  }

  function WithoutFb(open: Holdings, fb: DumbFB): Holdings {
    open - (if fb.mapping != 0 then {Mapping(fb.mapping)} else {})
         - (if fb.fbId != 0 then {Framebuffer(fb.fbId)} else {})
         - (if fb.handle != 0 then {Handle(fb.handle)} else {})
  }

  method DestroyDumbFb(k: Kernel, drm: int, fb: DumbFB) returns (cleared: DumbFB)
    requires HoldsFb(k.open, fb) && drm >= 0 && Fd(drm) in k.open
    modifies k`open
    ensures cleared == NO_FB
    ensures k.open == WithoutFb(old(k.open), fb)
  {
    if fb.mapping != 0 {
      k.Release(Mapping(fb.mapping), BackgroundMapping);
    }
    if fb.fbId != 0 {
      k.ReleaseOn(drm, Framebuffer(fb.fbId), BackgroundFramebuffer);
    }
    if fb.handle != 0 {
      k.ReleaseOn(drm, Handle(fb.handle), BackgroundHandle);
    }
    cleared := NO_FB;
  }
}
