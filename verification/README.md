# GEM PRIME attachment helpers — a Dafny model

This project models the dma-buf export helpers of a DRM/GEM driver
(`amd/amdgpu/drm_compat.c`, a backport of the Linux 4.17 PRIME helpers).
An importer *attaches* to an exported buffer, asks for a DMA *mapping* of it
in some direction, may *unmap* it, and finally *detaches*. The exporter keeps
one `struct drm_prime_attachment` per attachment in `attach->priv`. That
record caches at most one (direction, `sg_table`) pair:

- A repeated request for the same direction returns the cached table.
- A request for a different direction is refused with `-EBUSY`.
- The table is released only at detach; `unmap_dma_buf` is a no-op.

The remaining callbacks (mmap, vmap, vunmap) check whether an optional
driver hook exists. The kmap family are stubs.

Modelling choices:

- **State.** `attach->priv` is an `Option<PrimeAttachment>`. `None` is NULL.
  The record keeps the source's two fields: `sgt` (`Option<TableId>`, with an
  opaque handle per table) and `dir`. The invariant `Lockstep` says that
  `dir != DmaNone` holds exactly when a table is cached. It is proved to be
  kept, not built into the type. The tagged form (`Unmapped | MappedAs(dir,
  table)`) is a separate reference machine in `MappingCache`. Two lemmas
  prove that the two-field state behaves like it.
- **Cache hit test.** The source treats a request as a cache hit whenever the
  cached direction equals the requested one. It does not also check that a
  table is present. The model follows the code: outside lockstep such a hit
  would return NULL. `Prime.GemMapDmaBuf` proves that under lockstep a hit
  never returns NULL.
- **Foreign calls become inputs.** Each operation takes the outcomes of the
  calls it makes:
  - whether kzalloc succeeds (`allocOk`);
  - what `gem_prime_get_sg_table` returns (a `Result`);
  - whether `dma_map_sg_attrs` succeeds (`dmaOk`);
  - a `Hooks` record of the optional driver hooks (pin result, unpin
    presence, mmap result, vmap result, vunmap presence).

  The source calls `gem_prime_get_sg_table` without a NULL check, so the
  model treats that hook as always present.
- **Observable behaviour.** Every operation is a pure function. It returns
  what the C function returns, the new `attach->priv`, and the calls it made,
  in order, as a trace of `Event`s: `Alloc`, `Pin`, `Unpin`, `GetSgt`,
  `DmaMap`, `DmaUnmap`, `FreeTable`, `FreeState`, and the hook calls.
  "Called exactly once" and "never called" are stated with `Trace.Count`.
- **Errors.** Errors are negative Linux errno values: `-ENOMEM` (12),
  `-EBUSY` (16), `-EINVAL` (22), `-ENOSYS` (38). What `map_dma_buf` returns
  is `SgtPtr`: a table, NULL, or an `ERR_PTR` code.
- **Whole lifetimes.** `Session.Lifecycle` runs attach on a fresh
  attachment, then any sequence of map/unmap requests, then detach. Detach
  runs even after a failed attach. The lifetime lemmas prove the following:
  - As many tables are freed as are obtained from the driver, and a table handed out to the importer is DMA-unmapped and freed by detach.
  - At most one DMA mapping is ever made, and detach undoes it exactly once.
  - Pin runs exactly when allocation succeeded and the hook exists.
  - Unpin runs exactly when its hook exists.

Files: `wrappers.dfy` (Option/Result), `types.dfy` (data model),
`trace.dfy` (event counting), `prime.dfy` (attach/map/unmap/detach),
`dispatch.dfy` (mmap/vmap/vunmap/kmap), `cache.dfy` (reference machine),
`session.dfy` (lifetimes).

## Model

| member | source | states |
|---|---|---|
| Prime.GemMapAttach | amd/amdgpu/drm_compat.c:34-52 | Allocation failure returns -ENOMEM and leaves `attach->priv` and the trace untouched. Otherwise a fresh state (no table, `DMA_NONE`) is stored, and it stays even when pin fails. Without a pin hook the result is 0 and pin is never called. With one, pin is called exactly once and its result is returned unchanged. After a successful allocation the calls are exactly kzalloc, then pin when its hook exists; no other hook is called. Attach makes no mapping, freeing or unpinning call, and it keeps the lockstep invariant. |
| Prime.GemMapDmaBuf | amd/amdgpu/drm_compat.c:102-138 | A `DMA_NONE` request or a missing state gives -EINVAL. A conflicting cached direction gives -EBUSY. In both cases no call is made and the state is unchanged. A cache hit returns the cached table and makes no call. The driver is asked for a table exactly when the cache is empty. A get_sg_table error is passed through. A DMA-map failure frees the table and returns -ENOMEM. On success the table and direction are cached together. Every error path leaves the state untouched, and the state changes only by caching a freshly mapped table. On a lockstep state, lockstep is kept, NULL is never returned, and a returned table is the cached one. |
| Prime.MapLedger | amd/amdgpu/drm_compat.c:123-137 | On a lockstep state, one map call obtains as many tables as it frees plus the change in the number held, and it makes exactly as many successful DMA mappings as the held count grows. |
| Prime.GemUnmapDmaBuf | amd/amdgpu/drm_compat.c:149-154 | The state, including the cached table, is unchanged. No call of any kind is made, so nothing is unmapped or freed. |
| Prime.ReleaseTable | amd/amdgpu/drm_compat.c:70-81 | With no cached table, no call is made. A cached table is freed exactly once, and freeing it is the last call. When a direction is recorded, the table is first DMA-unmapped exactly once with that direction, and then freed. No other kind of call is made. |
| Prime.Release | amd/amdgpu/drm_compat.c:69-84 | With no state, no call is made. The state is freed exactly when present, and the table is freed exactly when held. On a lockstep state with a table, the calls are exactly: unmap with the cached direction, free the table, free the state. |
| Prime.GemMapDetach | amd/amdgpu/drm_compat.c:62-88 | `attach->priv` becomes NULL. Unpin is called exactly when its hook exists, and it is the last call. With no state, the optional unpin is the only call. The state is freed exactly when present. The cached table is freed exactly once and, under lockstep, DMA-unmapped exactly once with the cached direction, in the order unmap, free table, free state. No pin, allocation, get_sg_table or DMA-map call is made. |
| Dispatch.DmabufMmap | amd/amdgpu/drm_compat.c:219-228 | With no mmap hook the result is -ENOSYS and no call is made. Otherwise the hook is called once and its result returned. |
| Dispatch.DmabufVmap | amd/amdgpu/drm_compat.c:240-249 | With no vmap hook the result is NULL (not an error) and no call is made. Otherwise the hook's address is returned after one call. |
| Dispatch.DmabufVunmap | amd/amdgpu/drm_compat.c:259-266 | The vunmap hook receives the address exactly when it exists; otherwise nothing happens. |
| Dispatch.DmabufKmapAtomic | amd/amdgpu/drm_compat.c:163-167 | Always NULL; no call is made. |
| Dispatch.DmabufKmap | amd/amdgpu/drm_compat.c:176-179 | Always NULL; no call is made. |
| Dispatch.DmabufKunmapAtomic | amd/amdgpu/drm_compat.c:189-193 | Makes no call. |
| Dispatch.DmabufKunmap | amd/amdgpu/drm_compat.c:203-207 | Makes no call. |
| Dispatch.MissingHooksFallBack | amd/amdgpu/drm_compat.c:219-266 | With every hook missing: mmap reports -ENOSYS, vmap reports NULL, and no hook is called. |
| MappingCache.View | amd/amdgpu/drm_compat.c:16-19 | A lockstep state reads as a well-formed tagged cache. It is empty exactly when no table is stored, and otherwise carries the stored table and direction. |
| MappingCache.Store | amd/amdgpu/drm_compat.c:16-19 | A well-formed tagged cache is stored as a lockstep state whose table is absent exactly when the cache is empty. |
| MappingCache.ViewStoreRoundTrip | amd/amdgpu/drm_compat.c:16-19 | `View` and `Store` are mutually inverse, so the lockstep states are exactly the tagged caches. |
| MappingCache.SpecMap | amd/amdgpu/drm_compat.c:112-137 | In the reference machine, a mapped cache is never changed by a map request (direction exclusivity). A table is returned only when the cache ends up mapped in the requested direction, and a cache mapped in that direction always returns its table. |
| MappingCache.SpecTeardown | amd/amdgpu/drm_compat.c:72-79 | Releasing a cache makes calls exactly when it is mapped. |
| MappingCache.MapRefinesSpec | amd/amdgpu/drm_compat.c:102-138 | On any lockstep state and valid direction, `drm_gem_map_dma_buf` returns what the reference machine returns and moves to the state it moves to. |
| MappingCache.DetachRefinesSpec | amd/amdgpu/drm_compat.c:62-88 | On any lockstep state, detach makes the reference teardown calls, then frees the state, then unpins if the hook exists. |
| Session.Handle | amd/amdgpu/drm_compat.c:102-154 | One map or unmap request keeps lockstep and keeps the table ledger. Once a table is cached it does no work and changes nothing. It never unmaps, pins, unpins, allocates or frees the state. |
| Session.ServeLedger | amd/amdgpu/drm_compat.c:102-154 | Over any run of requests from a lockstep state: lockstep is kept, and a state is present afterwards exactly when one was before. Every table obtained is freed or is the one now cached. The number of successful DMA mappings equals the growth of the held count, so there is at most one. Nothing is unmapped, pinned, unpinned, allocated or freed. |
| Session.ServeKeepsMapping | amd/amdgpu/drm_compat.c:112-121 | Once a table is cached, no sequence of requests changes the state or makes any call. |
| Session.ServeRepliesAreCached | amd/amdgpu/drm_compat.c:112-133 | Every table handed out during a run is the table cached at its end, recorded with the direction it was requested with. |
| Session.Lifecycle | amd/amdgpu/drm_compat.c:34-154 | After a full lifetime, `attach->priv` is NULL and every request got a reply. |
| Session.LifecycleBalanced | amd/amdgpu/drm_compat.c:34-138 | Over a lifetime: tables obtained equal tables freed, and successful DMA maps equal DMA unmaps, at most one. The state is freed exactly when it was allocated. Pin runs once exactly when allocation succeeded and the hook exists. Unpin runs once exactly when its hook exists. |
| Session.PinUnpinPaired | amd/amdgpu/drm_compat.c:48-51 | With both hooks present and allocation succeeding, pin and unpin each run exactly once. This counts calls whatever pin returns. |
| Session.UnpinAfterFailedPin | amd/amdgpu/drm_compat.c:48-87 | When allocation succeeds but pin fails, attach returns pin's error. The detach that follows still calls unpin once, as the last call of the lifetime, on an object whose pin failed. |
| Session.UnpinWithoutPin | amd/amdgpu/drm_compat.c:86-87 | With an unpin hook but no pin hook, or after allocation failed, detach still unpins once while pin never ran. |
| Session.HandedOutTableIsUnmapped | amd/amdgpu/drm_compat.c:72-79 | A table handed out during a lifetime is DMA-unmapped by detach with the direction it was requested with, and freed. It is the only unmap of the lifetime. |
| Session.RepeatedMapHitsCache | amd/amdgpu/drm_compat.c:112-114 | After a successful map, a second request for the same direction returns the same table, keeps the state, and makes no call. |
| Session.ConflictingMapIsBusy | amd/amdgpu/drm_compat.c:116-121 | After a successful map, a request for another valid direction returns -EBUSY, keeps the state, and makes no call. |
| Session.UnmapKeepsCache | amd/amdgpu/drm_compat.c:146-154 | An unmap after a successful map keeps the table cached, and the next same-direction request still hits the cache. |
| Session.ExampleLifetime | amd/amdgpu/drm_compat.c:34-138 | This lifetime runs attach with pin, then map to device, map to device again, map from device, then detach. The replies are the table, the same table, and -EBUSY. The calls are exactly: alloc, pin, get_sg_table, DMA map, DMA unmap, free table, free state, unpin. |

## Left out

- Memory management is not modelled. This covers kzalloc/kfree, `sg_free_table`, and the contents of an `sg_table` and its scatterlist. A table is an opaque handle, and its release is the single `FreeTable` event.
- The DMA/IOMMU mapping itself is an input. This covers `dma_map_sg_attrs` and `dma_unmap_sg_attrs` with `DMA_ATTR_SKIP_CPU_SYNC`, and the importer device they are keyed on. Only success or failure of the map is modelled.
- The driver hooks are inputs: pin, unpin, get_sg_table, mmap, vmap and vunmap. The `dma_buf`, `vm_area_struct`, `drm_gem_object` and `drm_device` arguments that only lead to those hooks are not modelled.
- The `WARN_ON` logging on the -EINVAL and -EBUSY paths is not modelled. The `ERR_PTR`/`IS_ERR` pointer encoding is replaced by the `SgtPtr` and `Result` datatypes. The -EINTR case that the doc-comment mentions is not raised by this code; it can only come back from `gem_prime_get_sg_table`, and any error from that hook is passed through.
- Concurrency is not modelled. The dma-buf framework serialises these calls with its own lock, and the functions do no locking of their own.
- The `LINUX_VERSION_CODE` guards, the unused `struct drm_prime_member`, and the compatibility macros and prototypes of `amd/amdgpu/drm_compat.h` are build configuration with no behaviour.
- `gem_prime_get_sg_table` is assumed to return either a table or a negative errno (an `ERR_PTR` value, -4095 to -1). A NULL return is not modelled. The source would dereference it at amd/amdgpu/drm_compat.c:126. A `Failure` carrying a non-negative code is not modelled either; `Failure(0)` would stand for NULL.
- Session.Lifecycle: the importer is assumed to call detach even when attach failed. With that assumption, a failed pin leaves nothing allocated after the lifetime, and unpin still runs once after a pin that failed (`Session.UnpinAfterFailedPin`). With no pin hook, or after allocation failed, unpin runs although pin never ran (`Session.UnpinWithoutPin`). When attach fails, the dma-buf core may instead free the attachment without calling detach. In that case the state allocated before a failed pin would leak, and unpin would not run. The caller's behaviour is not part of this model.
