/**
  The data model of the GEM PRIME attachment helpers: DMA directions, the
  per-attachment state record, the driver's optional capabilities, and the
  observable calls ("events") every operation makes into the driver and the
  platform DMA layer.
 */
module DmaTypes {
  import opened Wrappers

  // Linux errno values (asm-generic/errno-base.h and asm-generic/errno.h).
  // The helpers return them negated.
  const ENOMEM: int := 12
  const EBUSY: int := 16
  const EINVAL: int := 22
  const ENOSYS: int := 38

  /** `enum dma_data_direction`; `DmaNone` means "not mapped". */
  datatype Direction = Bidirectional | ToDevice | FromDevice | DmaNone

  /** An opaque handle standing for one allocated `struct sg_table`. */
  type TableId = nat

  /** A kernel virtual address (NULL is represented by `Option.None`). */
  type Addr = nat

  /**
    `struct drm_prime_attachment`: the cached table pointer (`None` is NULL)
    and the direction it was mapped with.
   */
  datatype PrimeAttachment = PrimeAttachment(sgt: Option<TableId>, dir: Direction)

  /** The state kzalloc produces and attach initialises: no table, `DMA_NONE`. */
  const Fresh: PrimeAttachment := PrimeAttachment(None, DmaNone)

  /** The two fields move together: a direction is recorded exactly when a table is cached. */
  predicate Lockstep(st: PrimeAttachment) {
    st.dir != DmaNone <==> st.sgt.Some?
  }

  /** The invariant on `attach->priv`: absent, or a state whose fields are in lockstep. */
  predicate Valid(priv: Option<PrimeAttachment>) {
    priv.Some? ==> Lockstep(priv.value)
  }

  /** How many tables the attachment currently owns (0 or 1). */
  function Held(priv: Option<PrimeAttachment>): nat {
    if priv.Some? && priv.value.sgt.Some? then 1 else 0
  }

  /**
    What `drm_gem_map_dma_buf` hands back: a table, a NULL pointer, or an
    `ERR_PTR` carrying a negative errno.
   */
  datatype SgtPtr = Table(t: TableId) | NullTable | ErrPtr(errno: int)

  /**
    The optional `drm_driver` hooks, each given by its presence and, where
    it returns something, by what it returns on this call.
    - pin:    `gem_prime_pin`; `Some(rc)` means present and returning rc
    - unpin:  `gem_prime_unpin` present
    - mmap:   `gem_prime_mmap`; `Some(rc)` means present and returning rc
    - vmap:   `gem_prime_vmap`; `Some(a)` means present and returning a
    - vunmap: `gem_prime_vunmap` present
   */
  datatype Hooks = Hooks(
    pin: Option<int>,
    unpin: bool,
    mmap: Option<int>,
    vmap: Option<Option<Addr>>,
    vunmap: bool)

  /** Each observable call into the allocator, the driver or the DMA layer. */
  datatype Event =
    | Alloc                                        // kzalloc of the attachment state
    | Pin                                          // gem_prime_pin
    | Unpin                                        // gem_prime_unpin
    | GetSgt(outcome: Result<TableId, int>)        // gem_prime_get_sg_table
    | DmaMap(table: TableId, dir: Direction, ok: bool)  // dma_map_sg_attrs and whether it succeeded
    | DmaUnmap(table: TableId, dir: Direction)     // dma_unmap_sg_attrs
    | FreeTable(table: TableId)                    // sg_free_table followed by kfree of the table
    | FreeState                                    // kfree of the attachment state
    | MmapCall                                     // gem_prime_mmap
    | VmapCall                                     // gem_prime_vmap
    | VunmapCall(addr: Option<Addr>)               // gem_prime_vunmap

  /**
    The result of one attachment operation: its return value, the new
    `attach->priv`, and the calls it made, in order.
   */
  datatype Outcome<R> = Outcome(ret: R, priv: Option<PrimeAttachment>, trace: seq<Event>)
}
