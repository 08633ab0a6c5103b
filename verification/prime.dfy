/**
  The GEM dma-buf attachment and mapping state machine: attach, map, unmap
  and detach. Each operation is a pure step from the current `attach->priv`
  to a new one, returning what the C function returns and the calls it made.
 */
module Prime {
  import opened Wrappers
  import opened DmaTypes
  import opened Trace

  /**
    `drm_gem_map_attach`. `allocOk` is whether kzalloc succeeds. On success
    the zeroed state (no table, `DMA_NONE`) is stored in `attach->priv`
    before the optional pin hook runs; a failing pin does not undo that.
   */
  function GemMapAttach(priv: Option<PrimeAttachment>, hooks: Hooks, allocOk: bool): (r: Outcome<int>)
    // allocation failure: -ENOMEM, nothing stored, nothing called
    ensures !allocOk ==> r.ret == -ENOMEM && r.priv == priv && r.trace == []
    // allocation success: a fresh, unmapped state is stored, whatever pin returns
    ensures allocOk ==> r.priv == Some(Fresh) && Valid(r.priv) && Held(r.priv) == 0
    ensures allocOk ==> |r.trace| > 0 && r.trace[0] == Alloc && Count(r.trace, StateAllocated) == 1
    // the only calls are kzalloc and, when its hook exists, pin
    ensures allocOk ==> r.trace == (if hooks.pin.Some? then [Alloc, Pin] else [Alloc])
    // no pin hook: success without calling pin
    ensures allocOk && hooks.pin.None? ==> r.ret == 0 && Count(r.trace, PinCalled) == 0
    // pin hook: called once, its result returned unchanged
    ensures allocOk && hooks.pin.Some? ==> r.ret == hooks.pin.value && Count(r.trace, PinCalled) == 1
    // attach never maps, unmaps, frees or unpins anything
    ensures Count(r.trace, SgtRequested) == 0 && Count(r.trace, TableObtained) == 0 && Count(r.trace, TableFreed) == 0
    ensures Count(r.trace, DmaMapCalled) == 0 && Count(r.trace, DmaMapped) == 0 && Count(r.trace, DmaUnmapped) == 0
    ensures Count(r.trace, UnpinCalled) == 0 && Count(r.trace, StateFreed) == 0
    ensures Valid(priv) ==> Valid(r.priv)
  {
    if !allocOk then
      Outcome(-ENOMEM, priv, [])
    else
      CountOne(Alloc);
      CountTwo(Alloc, Pin);
      match hooks.pin
      case None => Outcome(0, Some(Fresh), [Alloc])
      case Some(rc) => Outcome(rc, Some(Fresh), [Alloc, Pin])
  }

  /** The request reaches the driver: a valid direction on an attachment whose cache is empty. */
  predicate NeedsFreshMapping(priv: Option<PrimeAttachment>, dir: Direction) {
    dir != DmaNone && priv.Some? && priv.value.dir == DmaNone
  }

  /** The result of a cache hit: the cached pointer, whatever it is. */
  function CachedPtr(st: PrimeAttachment): SgtPtr {
    if st.sgt.Some? then Table(st.sgt.value) else NullTable
  }

  /**
    `drm_gem_map_dma_buf`. `sgt` is what `gem_prime_get_sg_table` returns
    on this call (the source calls it without a NULL check, so it is always
    present) and `dmaOk` is whether `dma_map_sg_attrs` succeeds.
   */
  function GemMapDmaBuf(priv: Option<PrimeAttachment>, dir: Direction,
                        sgt: Result<TableId, int>, dmaOk: bool): (r: Outcome<SgtPtr>)
    // bad direction or no attachment state: -EINVAL, no call, no change
    ensures (dir == DmaNone || priv.None?) ==> r == Outcome(ErrPtr(-EINVAL), priv, [])
    // cache hit: the cached table itself, no call, no change
    ensures dir != DmaNone && priv.Some? && priv.value.dir == dir ==>
              r.priv == priv && r.trace == [] && (Valid(priv) ==> r.ret == Table(priv.value.sgt.value))
    // a different direction is already mapped: -EBUSY, no call, no change
    ensures dir != DmaNone && priv.Some? && priv.value.dir != DmaNone && priv.value.dir != dir ==>
              r == Outcome(ErrPtr(-EBUSY), priv, [])
    // the driver is asked for a table exactly when the cache is empty
    ensures Count(r.trace, SgtRequested) == (if NeedsFreshMapping(priv, dir) then 1 else 0)
    ensures NeedsFreshMapping(priv, dir) ==> r.trace[0] == GetSgt(sgt)
    // get_sg_table failure: its error is passed through, nothing else happens
    ensures NeedsFreshMapping(priv, dir) && sgt.Failure? ==>
              r == Outcome(ErrPtr(sgt.error), priv, [GetSgt(sgt)])
    // DMA-map failure: the table is freed and -ENOMEM is returned
    ensures NeedsFreshMapping(priv, dir) && sgt.Success? && !dmaOk ==>
              r == Outcome(ErrPtr(-ENOMEM), priv, [GetSgt(sgt), DmaMap(sgt.value, dir, false), FreeTable(sgt.value)])
    // DMA-map success: table and direction cached together and the table returned
    ensures NeedsFreshMapping(priv, dir) && sgt.Success? && dmaOk ==>
              r.ret == Table(sgt.value) && r.priv == Some(PrimeAttachment(Some(sgt.value), dir))
    // every error path leaves attach->priv untouched
    ensures r.ret.ErrPtr? ==> r.priv == priv
    // the state only ever changes by caching a freshly mapped table
    ensures r.priv != priv ==>
              r.ret.Table? && r.priv == Some(PrimeAttachment(Some(r.ret.t), dir))
              && r.trace == [GetSgt(sgt), DmaMap(r.ret.t, dir, true)]
    // lockstep is kept, a NULL table is never handed out, and a handed-out table is the cached one
    ensures Valid(priv) ==> Valid(r.priv) && !r.ret.NullTable?
    ensures Valid(priv) && r.ret.Table? ==> r.priv == Some(PrimeAttachment(Some(r.ret.t), dir))
    // mapping never unmaps, pins, unpins, allocates or frees the state
    ensures Count(r.trace, DmaUnmapped) == 0 && Count(r.trace, PinCalled) == 0 && Count(r.trace, UnpinCalled) == 0
    ensures Count(r.trace, StateAllocated) == 0 && Count(r.trace, StateFreed) == 0
  {
    if dir == DmaNone || priv.None? then
      Outcome(ErrPtr(-EINVAL), priv, [])
    else
      var st := priv.value;
      if st.dir == dir then
        Outcome(CachedPtr(st), priv, [])
      else if st.dir != DmaNone then
        Outcome(ErrPtr(-EBUSY), priv, [])
      else
        match sgt
        case Failure(e) =>
          CountOne(GetSgt(sgt));
          Outcome(ErrPtr(e), priv, [GetSgt(sgt)])
        case Success(t) =>
          CountTwo(GetSgt(sgt), DmaMap(t, dir, dmaOk));
          CountThree(GetSgt(sgt), DmaMap(t, dir, dmaOk), FreeTable(t));
          if !dmaOk then
            Outcome(ErrPtr(-ENOMEM), priv, [GetSgt(sgt), DmaMap(t, dir, false), FreeTable(t)])
          else
            Outcome(Table(t), Some(st.(sgt := Some(t), dir := dir)), [GetSgt(sgt), DmaMap(t, dir, true)])
  }

  /**
    The table ledger of one mapping request on a lockstep state: a table
    obtained from the driver is either freed before returning or becomes the
    cached one, a successful DMA mapping always becomes the cached one, and
    the attachment state is neither allocated nor freed.
   */
  lemma MapLedger(priv: Option<PrimeAttachment>, dir: Direction, sgt: Result<TableId, int>, dmaOk: bool)
    ensures var r := GemMapDmaBuf(priv, dir, sgt, dmaOk);
            Valid(priv) ==>
            && Count(r.trace, TableObtained) == Count(r.trace, TableFreed) + Held(r.priv) - Held(priv)
            && Count(r.trace, DmaMapped) == Held(r.priv) - Held(priv)
            && Count(r.trace, StateAllocated) == 0 && Count(r.trace, StateFreed) == 0
  {
    if NeedsFreshMapping(priv, dir) {
      match sgt
      case Failure(_) =>
        CountOne(GetSgt(sgt));
      case Success(t) =>
        CountTwo(GetSgt(sgt), DmaMap(t, dir, dmaOk));
        CountThree(GetSgt(sgt), DmaMap(t, dir, dmaOk), FreeTable(t));
    }
  }

  /**
    `drm_gem_unmap_dma_buf`: deliberately does nothing; the mapping is only
    released by detach.
   */
  function GemUnmapDmaBuf(priv: Option<PrimeAttachment>, sgt: Option<TableId>, dir: Direction): (r: Outcome<()>)
    ensures r.priv == priv && Held(r.priv) == Held(priv)
    // it makes no call at all: nothing is obtained, mapped, unmapped, freed, pinned or unpinned
    ensures r.trace == []
    ensures Count(r.trace, DmaUnmapped) == 0 && Count(r.trace, TableFreed) == 0
  {
    Outcome((), priv, [])
  }

  /** The calls detach makes to release a cached table: unmap it if a direction is recorded, then free it. */
  function ReleaseTable(st: PrimeAttachment): (r: seq<Event>)
    ensures Count(r, TableFreed) == (if st.sgt.Some? then 1 else 0)
    ensures Count(r, DmaUnmapped) == (if st.sgt.Some? && st.dir != DmaNone then 1 else 0)
    ensures Count(r, StateFreed) == 0 && Count(r, UnpinCalled) == 0
    ensures Count(r, StateAllocated) == 0 && Count(r, PinCalled) == 0
    ensures Count(r, SgtRequested) == 0 && Count(r, TableObtained) == 0
    ensures Count(r, DmaMapCalled) == 0 && Count(r, DmaMapped) == 0
    // the calls act on the cached table: unmapped with the cached direction first, freed last
    ensures st.sgt.None? ==> r == []
    ensures st.sgt.Some? ==> |r| > 0 && r[|r| - 1] == FreeTable(st.sgt.value)
    ensures st.sgt.Some? && st.dir != DmaNone ==> |r| == 2 && r[0] == DmaUnmap(st.sgt.value, st.dir)
    ensures st.sgt.Some? && st.dir == DmaNone ==> |r| == 1
  {
    match st.sgt
    case None => []
    case Some(t) =>
      CountOne(FreeTable(t));
      CountTwo(DmaUnmap(t, st.dir), FreeTable(t));
      if st.dir != DmaNone then
        [DmaUnmap(t, st.dir), FreeTable(t)]
      else
        [FreeTable(t)]
  }

  /** The calls detach makes to release the attachment state, before unpinning. */
  function Release(priv: Option<PrimeAttachment>): (r: seq<Event>)
    // with no state there is nothing to release
    ensures priv.None? ==> r == []
    ensures Count(r, StateFreed) == (if priv.Some? then 1 else 0)
    ensures Count(r, TableFreed) == Held(priv)
    ensures Valid(priv) ==> Count(r, DmaUnmapped) == Held(priv)
    ensures Count(r, UnpinCalled) == 0 && Count(r, StateAllocated) == 0 && Count(r, PinCalled) == 0
    ensures Count(r, SgtRequested) == 0 && Count(r, TableObtained) == 0
    ensures Count(r, DmaMapCalled) == 0 && Count(r, DmaMapped) == 0
    ensures Valid(priv) && Held(priv) == 1 ==>
              r == [DmaUnmap(priv.value.sgt.value, priv.value.dir), FreeTable(priv.value.sgt.value), FreeState]
  {
    match priv
    case None => []
    case Some(st) =>
      var tr := ReleaseTable(st);
      CountSnoc(tr, FreeState);
      tr + [FreeState]
  }

  /**
    `drm_gem_map_detach`: unmaps and frees the cached table, frees the
    state, clears `attach->priv`, then calls the unpin hook if present. It
    returns nothing and cannot fail.
   */
  function GemMapDetach(priv: Option<PrimeAttachment>, hooks: Hooks): (r: Outcome<()>)
    ensures r.priv.None?
    // unpin is called exactly when the hook exists, and last
    ensures Count(r.trace, UnpinCalled) == (if hooks.unpin then 1 else 0)
    ensures hooks.unpin ==> r.trace[|r.trace| - 1] == Unpin
    // with no state, the optional unpin is the only call
    ensures priv.None? ==> r.trace == (if hooks.unpin then [Unpin] else [])
    // the state is freed exactly when there was one
    ensures Count(r.trace, StateFreed) == (if priv.Some? then 1 else 0)
    // the cached table is freed exactly once, and DMA-unmapped exactly once when the invariant holds
    ensures Count(r.trace, TableFreed) == Held(priv)
    ensures Valid(priv) ==> Count(r.trace, DmaUnmapped) == Held(priv)
    // cleanup order: unmap with the cached direction, free the table, free the state
    ensures Valid(priv) && Held(priv) == 1 ==>
              |r.trace| >= 3 && r.trace[0] == DmaUnmap(priv.value.sgt.value, priv.value.dir)
              && r.trace[1] == FreeTable(priv.value.sgt.value) && r.trace[2] == FreeState
    // detach starts no new work
    ensures Count(r.trace, StateAllocated) == 0 && Count(r.trace, PinCalled) == 0
    ensures Count(r.trace, SgtRequested) == 0 && Count(r.trace, TableObtained) == 0
    ensures Count(r.trace, DmaMapCalled) == 0 && Count(r.trace, DmaMapped) == 0
  {
    if priv.None? then
      CountOne(Unpin);
      Outcome((), None, if hooks.unpin then [Unpin] else [])
    else
      var release := Release(priv);
      if hooks.unpin then
        CountSnoc(release, Unpin);
        Outcome((), None, release + [Unpin])
      else
        Outcome((), None, release)
  }
}
