/**
  The dma-buf callbacks that only dispatch to an optional driver hook
  (mmap, vmap, vunmap) and the kmap stubs that are not implemented.
 */
module Dispatch {
  import opened Wrappers
  import opened DmaTypes

  /** A callback's return value and the driver calls it made. */
  datatype Call<R> = Call(ret: R, calls: seq<Event>)

  /** `drm_gem_dmabuf_mmap`: the mmap hook's result, or -ENOSYS when there is no hook. */
  function DmabufMmap(hooks: Hooks): (r: Call<int>)
    ensures hooks.mmap.None? ==> r.ret == -ENOSYS && r.calls == []
    ensures hooks.mmap.Some? ==> r.ret == hooks.mmap.value && r.calls == [MmapCall]
    // the hook is consulted at most once, and only when it exists
    ensures |r.calls| <= 1 && (r.calls != [] <==> hooks.mmap.Some?)
  {
    match hooks.mmap
    case None => Call(-ENOSYS, [])
    case Some(rc) => Call(rc, [MmapCall])
  }

  /** `drm_gem_dmabuf_vmap`: the vmap hook's address, or NULL (not an error) when there is no hook. */
  function DmabufVmap(hooks: Hooks): (r: Call<Option<Addr>>)
    ensures hooks.vmap.None? ==> r.ret.None? && r.calls == []
    ensures hooks.vmap.Some? ==> r.ret == hooks.vmap.value && r.calls == [VmapCall]
    ensures r.ret.Some? ==> hooks.vmap == Some(r.ret)
  {
    match hooks.vmap
    case None => Call(None, [])
    case Some(addr) => Call(addr, [VmapCall])
  }

  /** `drm_gem_dmabuf_vunmap`: passes the address to the vunmap hook, or does nothing without one. */
  function DmabufVunmap(hooks: Hooks, vaddr: Option<Addr>): (r: Call<()>)
    ensures hooks.vunmap ==> r.calls == [VunmapCall(vaddr)]
    ensures !hooks.vunmap ==> r.calls == []
  {
    if hooks.vunmap then Call((), [VunmapCall(vaddr)]) else Call((), [])
  }

  /** `drm_gem_dmabuf_kmap_atomic`: not implemented, always NULL. */
  function DmabufKmapAtomic(pageNum: nat): (r: Call<Option<Addr>>)
    ensures r.ret.None? && r.calls == []
  {
    Call(None, [])
  }

  /** `drm_gem_dmabuf_kmap`: not implemented, always NULL. */
  function DmabufKmap(pageNum: nat): (r: Call<Option<Addr>>)
    ensures r.ret.None? && r.calls == []
  {
    Call(None, [])
  }

  /** `drm_gem_dmabuf_kunmap_atomic`: not implemented, does nothing. */
  function DmabufKunmapAtomic(pageNum: nat, addr: Option<Addr>): (r: Call<()>)
    ensures r.calls == []
  {
    Call((), [])
  }

  /** `drm_gem_dmabuf_kunmap`: not implemented, does nothing. */
  function DmabufKunmap(pageNum: nat, addr: Option<Addr>): (r: Call<()>)
    ensures r.calls == []
  {
    Call((), [])
  }

  /**
    Of the dispatching callbacks only mmap can report failure, and it
    reports "not supported" exactly when its hook is missing; a missing
    vmap hook yields a NULL mapping and a missing vunmap hook is silent.
   */
  lemma MissingHooksFallBack(hooks: Hooks, vaddr: Option<Addr>)
    requires hooks.mmap.None? && hooks.vmap.None? && !hooks.vunmap
    ensures DmabufMmap(hooks).ret == -ENOSYS
    ensures DmabufVmap(hooks).ret.None?
    ensures DmabufMmap(hooks).calls + DmabufVmap(hooks).calls + DmabufVunmap(hooks, vaddr).calls == []
  {
  }
}
