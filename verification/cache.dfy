/**
  A reference definition of the mapping cache as a tagged state, in which
  "a direction without a table" cannot be written down, and the proof that
  the two-field attachment state of `Prime` behaves exactly like it.
 */
module MappingCache {
  import opened Wrappers
  import opened DmaTypes
  import opened Prime

  /** At most one (direction, table) pair per attachment. */
  datatype CacheState = Unmapped | MappedAs(dir: Direction, table: TableId)

  /** A mapping is always made with a real direction. */
  predicate WellFormed(c: CacheState) {
    c.MappedAs? ==> c.dir != DmaNone
  }

  /** The tagged reading of a lockstep attachment state. */
  function View(st: PrimeAttachment): (c: CacheState)
    requires Lockstep(st)
    ensures WellFormed(c)
    ensures c.Unmapped? <==> st.sgt.None?
    ensures c.MappedAs? ==> st == PrimeAttachment(Some(c.table), c.dir)
  {
    if st.sgt.Some? then MappedAs(st.dir, st.sgt.value) else Unmapped
  }

  /** The two-field attachment state a tagged state is stored as. */
  function Store(c: CacheState): (st: PrimeAttachment)
    requires WellFormed(c)
    ensures Lockstep(st)
    ensures st.sgt.None? <==> c.Unmapped?
  {
    match c
    case Unmapped => Fresh
    case MappedAs(d, t) => PrimeAttachment(Some(t), d)
  }

  /** `View` and `Store` are inverse: the lockstep states are exactly the tagged ones. */
  lemma ViewStoreRoundTrip(c: CacheState, st: PrimeAttachment)
    ensures WellFormed(c) ==> View(Store(c)) == c
    ensures Lockstep(st) ==> Store(View(st)) == st
  {
  }

  /**
    The reference mapping step: a mapped cache answers its own direction
    with its table and refuses every other; an empty cache takes the
    driver's table if the DMA mapping succeeds.
   */
  function SpecMap(c: CacheState, dir: Direction, sgt: Result<TableId, int>, dmaOk: bool): (r: (SgtPtr, CacheState))
    requires dir != DmaNone
    ensures WellFormed(c) ==> WellFormed(r.1)
    // direction exclusivity: a mapped cache is never changed by a mapping request
    ensures c.MappedAs? ==> r.1 == c
    // a table is handed out exactly when the cache ends up mapped in the requested direction
    ensures r.0.Table? ==> r.1 == MappedAs(dir, r.0.t)
    ensures r.1.MappedAs? && r.1.dir == dir ==> r.0 == Table(r.1.table)
  {
    match c
    case MappedAs(d, t) =>
      if d == dir then (Table(t), c) else (ErrPtr(-EBUSY), c)
    case Unmapped =>
      match sgt
      case Failure(e) => (ErrPtr(e), Unmapped)
      case Success(t) => if dmaOk then (Table(t), MappedAs(dir, t)) else (ErrPtr(-ENOMEM), Unmapped)
  }

  /** What releasing a cache costs: unmap then free the table, or nothing. */
  function SpecTeardown(c: CacheState): (tr: seq<Event>)
    ensures c.Unmapped? <==> tr == []
  {
    match c
    case Unmapped => []
    case MappedAs(d, t) => [DmaUnmap(t, d), FreeTable(t)]
  }

  /** `drm_gem_map_dma_buf` on an attachment implements `SpecMap` on its tagged view. */
  lemma MapRefinesSpec(st: PrimeAttachment, dir: Direction, sgt: Result<TableId, int>, dmaOk: bool)
    requires Lockstep(st) && dir != DmaNone
    ensures var r := GemMapDmaBuf(Some(st), dir, sgt, dmaOk);
            var s := SpecMap(View(st), dir, sgt, dmaOk);
            r.ret == s.0 && r.priv.Some? && Lockstep(r.priv.value) && View(r.priv.value) == s.1
  {
  }

  /**
    `drm_gem_map_detach` on an attachment makes the reference teardown
    calls, then frees the state, then unpins if it can.
   */
  lemma DetachRefinesSpec(st: PrimeAttachment, hooks: Hooks)
    requires Lockstep(st)
    ensures GemMapDetach(Some(st), hooks).trace
            == SpecTeardown(View(st)) + [FreeState] + (if hooks.unpin then [Unpin] else [])
  {
  }
}
