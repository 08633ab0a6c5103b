/**
  Whole attachment lifetimes: attach, any number of map and unmap requests,
  then detach. The lemmas here relate the calls made over a lifetime:
  every table obtained is freed, every DMA mapping is undone exactly once,
  and at most one mapping is ever made.
 */
module Session {
  import opened Wrappers
  import opened DmaTypes
  import opened Trace
  import opened Prime

  /** A request an importer makes between attach and detach, with the outcomes of the calls it triggers. */
  datatype Request =
    | MapRequest(dir: Direction, sgt: Result<TableId, int>, dmaOk: bool)
    | UnmapRequest(table: Option<TableId>, dir: Direction)

  datatype Reply = MapReply(ptr: SgtPtr) | UnmapReply

  /** The replies to a run of requests, the final `attach->priv`, and all calls made. */
  datatype Served = Served(replies: seq<Reply>, priv: Option<PrimeAttachment>, trace: seq<Event>)

  /** One request, dispatched to `drm_gem_map_dma_buf` or `drm_gem_unmap_dma_buf`. */
  function Handle(priv: Option<PrimeAttachment>, req: Request): (r: Outcome<Reply>)
    ensures req.MapRequest? <==> r.ret.MapReply?
    ensures r.priv.Some? <==> priv.Some?
    // on a lockstep state: lockstep is kept and the table ledger moves with Held
    ensures Valid(priv) ==> Valid(r.priv) && Held(priv) <= Held(r.priv)
    ensures Valid(priv) ==> Count(r.trace, TableObtained) == Count(r.trace, TableFreed) + Held(r.priv) - Held(priv)
    ensures Valid(priv) ==> Count(r.trace, DmaMapped) == Held(r.priv) - Held(priv)
    // once a table is cached, no request does any work or changes the state
    ensures Valid(priv) && Held(priv) == 1 ==> r.priv == priv && r.trace == []
    ensures Count(r.trace, DmaUnmapped) == 0 && Count(r.trace, PinCalled) == 0 && Count(r.trace, UnpinCalled) == 0
    ensures Count(r.trace, StateAllocated) == 0 && Count(r.trace, StateFreed) == 0
  {
    match req
    case MapRequest(d, sgt, ok) =>
      var o := GemMapDmaBuf(priv, d, sgt, ok);
      MapLedger(priv, d, sgt, ok);
      Outcome(MapReply(o.ret), o.priv, o.trace)
    case UnmapRequest(t, d) =>
      var o := GemUnmapDmaBuf(priv, t, d);
      Outcome(UnmapReply, o.priv, o.trace)
  }

  /** A run of requests, served in order. */
  function Serve(priv: Option<PrimeAttachment>, reqs: seq<Request>): (s: Served)
    ensures |s.replies| == |reqs|
    decreases |reqs|
  {
    if reqs == [] then Served([], priv, [])
    else
      var h := Handle(priv, reqs[0]);
      var rest := Serve(h.priv, reqs[1..]);
      Served([h.ret] + rest.replies, rest.priv, h.trace + rest.trace)
  }

  /**
    Over any run of requests from a lockstep state: lockstep is kept, every
    table obtained from the driver is either freed or is the one now cached,
    every successful DMA mapping is the one now cached, and nothing is
    unmapped, pinned, unpinned, allocated or freed.
   */
  lemma {:induction false} ServeLedger(priv: Option<PrimeAttachment>, reqs: seq<Request>)
    requires Valid(priv)
    ensures var s := Serve(priv, reqs);
            && Valid(s.priv)
            && (s.priv.Some? <==> priv.Some?)
            && Held(priv) <= Held(s.priv)
            && Count(s.trace, TableObtained) == Count(s.trace, TableFreed) + Held(s.priv) - Held(priv)
            && Count(s.trace, DmaMapped) == Held(s.priv) - Held(priv)
            && Count(s.trace, DmaUnmapped) == 0
            && Count(s.trace, PinCalled) == 0 && Count(s.trace, UnpinCalled) == 0
            && Count(s.trace, StateAllocated) == 0 && Count(s.trace, StateFreed) == 0
    decreases |reqs|
  {
    if reqs != [] {
      var h := Handle(priv, reqs[0]);
      ServeLedger(h.priv, reqs[1..]);
      var rest := Serve(h.priv, reqs[1..]);
      forall k: Kind ensures Count(h.trace + rest.trace, k) == Count(h.trace, k) + Count(rest.trace, k) {
        CountAppend(h.trace, rest.trace, k);
      }
    }
  }

  /** Once a table is cached, no further request does any work or changes the state. */
  lemma {:induction false} ServeKeepsMapping(priv: Option<PrimeAttachment>, reqs: seq<Request>)
    requires Valid(priv) && Held(priv) == 1
    ensures Serve(priv, reqs).priv == priv && Serve(priv, reqs).trace == []
    decreases |reqs|
  {
    if reqs != [] {
      ServeKeepsMapping(priv, reqs[1..]);
    }
  }

  /**
    Every table handed to the importer during a run is the table cached at
    the end of it, recorded with the direction it was requested with.
   */
  lemma {:induction false} ServeRepliesAreCached(priv: Option<PrimeAttachment>, reqs: seq<Request>)
    requires Valid(priv)
    ensures var s := Serve(priv, reqs);
            forall i :: 0 <= i < |reqs| && s.replies[i].MapReply? && s.replies[i].ptr.Table? ==>
              s.priv == Some(PrimeAttachment(Some(s.replies[i].ptr.t), reqs[i].dir))
    decreases |reqs|
  {
    if reqs != [] {
      var s := Serve(priv, reqs);
      var h := Handle(priv, reqs[0]);
      var rest := Serve(h.priv, reqs[1..]);
      ServeRepliesAreCached(h.priv, reqs[1..]);
      if h.ret.MapReply? && h.ret.ptr.Table? {
        ServeKeepsMapping(h.priv, reqs[1..]);
      }
      forall i | 0 <= i < |reqs| && s.replies[i].MapReply? && s.replies[i].ptr.Table?
        ensures s.priv == Some(PrimeAttachment(Some(s.replies[i].ptr.t), reqs[i].dir))
      {
        if i > 0 {
          assert s.replies[i] == rest.replies[i - 1];
          assert reqs[i] == reqs[1..][i - 1];
        }
      }
    }
  }

  /** One attachment's life: attach, the replies to its requests, and the final `attach->priv`. */
  datatype Lifetime = Lifetime(attachRet: int, replies: seq<Reply>, priv: Option<PrimeAttachment>, trace: seq<Event>)

  /**
    Attach to a fresh attachment, serve the requests, detach. Detach runs
    even when attach failed, as the importer is expected to call it.
   */
  function Lifecycle(hooks: Hooks, allocOk: bool, reqs: seq<Request>): (l: Lifetime)
    ensures l.priv.None? && |l.replies| == |reqs|
  {
    var a := GemMapAttach(None, hooks, allocOk);
    var s := Serve(a.priv, reqs);
    var d := GemMapDetach(s.priv, hooks);
    Lifetime(a.ret, s.replies, d.priv, a.trace + s.trace + d.trace)
  }

  /**
    Over a whole lifetime: every table obtained is freed, every successful
    DMA mapping is unmapped exactly once and there is at most one, the state
    is freed iff it was allocated, pin runs once iff allocation succeeded
    and the hook exists, and unpin runs once iff its hook exists.
   */
  lemma LifecycleBalanced(hooks: Hooks, allocOk: bool, reqs: seq<Request>)
    ensures var tr := Lifecycle(hooks, allocOk, reqs).trace;
            && Count(tr, TableObtained) == Count(tr, TableFreed)
            && Count(tr, DmaMapped) == Count(tr, DmaUnmapped) <= 1
            && Count(tr, StateAllocated) == Count(tr, StateFreed) == (if allocOk then 1 else 0)
            && Count(tr, PinCalled) == (if allocOk && hooks.pin.Some? then 1 else 0)
            && Count(tr, UnpinCalled) == (if hooks.unpin then 1 else 0)
  {
    var a := GemMapAttach(None, hooks, allocOk);
    ServeLedger(a.priv, reqs);
    var s := Serve(a.priv, reqs);
    var d := GemMapDetach(s.priv, hooks);
    var tr := Lifecycle(hooks, allocOk, reqs).trace;
    assert tr == a.trace + s.trace + d.trace;
    forall k: Kind ensures Count(tr, k) == Count(a.trace, k) + Count(s.trace, k) + Count(d.trace, k) {
      CountAppend3(a.trace, s.trace, d.trace, k);
    }
    assert Held(a.priv) == 0;
  }

  /**
    Pin and unpin pair up one-to-one when both hooks exist and allocation
    succeeds. This counts calls whatever pin returns: a pin that fails is
    still followed by one unpin (`UnpinAfterFailedPin`).
   */
  lemma PinUnpinPaired(hooks: Hooks, reqs: seq<Request>)
    requires hooks.pin.Some? && hooks.unpin
    ensures var tr := Lifecycle(hooks, true, reqs).trace;
            Count(tr, PinCalled) == Count(tr, UnpinCalled) == 1
  {
    LifecycleBalanced(hooks, true, reqs);
  }

  /**
    A failed pin is not undone by attach: attach reports pin's error, and
    the detach the importer still calls unpins, as the last call of the
    lifetime, an object whose pin failed.
   */
  lemma UnpinAfterFailedPin(hooks: Hooks, reqs: seq<Request>)
    requires hooks.pin.Some? && hooks.pin.value != 0 && hooks.unpin
    ensures var l := Lifecycle(hooks, true, reqs);
            && l.attachRet == hooks.pin.value
            && Count(l.trace, PinCalled) == 1 && Count(l.trace, UnpinCalled) == 1
            && |l.trace| > 0 && l.trace[|l.trace| - 1] == Unpin
  {
    LifecycleBalanced(hooks, true, reqs);
    var a := GemMapAttach(None, hooks, true);
    var s := Serve(a.priv, reqs);
    var d := GemMapDetach(s.priv, hooks);
    var tr := a.trace + s.trace + d.trace;
    assert tr[|tr| - 1] == d.trace[|d.trace| - 1];
  }

  /**
    Detach unpins even when pin never ran: with an unpin hook and no pin
    hook, or after attach could not allocate, unpin runs once and pin never.
   */
  lemma UnpinWithoutPin(hooks: Hooks, allocOk: bool, reqs: seq<Request>)
    requires hooks.unpin && (hooks.pin.None? || !allocOk)
    ensures var tr := Lifecycle(hooks, allocOk, reqs).trace;
            Count(tr, PinCalled) == 0 && Count(tr, UnpinCalled) == 1
  {
    LifecycleBalanced(hooks, allocOk, reqs);
  }

  /** A table handed out during a lifetime is DMA-unmapped by detach, with the direction it was requested with, and freed. */
  lemma HandedOutTableIsUnmapped(hooks: Hooks, allocOk: bool, reqs: seq<Request>, i: nat)
    requires i < |reqs|
    requires var reply := Lifecycle(hooks, allocOk, reqs).replies[i]; reply.MapReply? && reply.ptr.Table?
    ensures var l := Lifecycle(hooks, allocOk, reqs);
            && DmaUnmap(l.replies[i].ptr.t, reqs[i].dir) in l.trace && Count(l.trace, DmaUnmapped) == 1
            && FreeTable(l.replies[i].ptr.t) in l.trace
  {
    var a := GemMapAttach(None, hooks, allocOk);
    var s := Serve(a.priv, reqs);
    ServeRepliesAreCached(a.priv, reqs);
    ServeLedger(a.priv, reqs);
    var d := GemMapDetach(s.priv, hooks);
    var l := Lifecycle(hooks, allocOk, reqs);
    assert l.replies == s.replies && l.trace == a.trace + s.trace + d.trace;
    var t := s.replies[i].ptr.t;
    assert s.priv == Some(PrimeAttachment(Some(t), reqs[i].dir));
    assert d.trace[0] == DmaUnmap(t, reqs[i].dir);
    assert l.trace[|a.trace| + |s.trace|] == d.trace[0];
    assert l.trace[|a.trace| + |s.trace| + 1] == d.trace[1] == FreeTable(t);
    CountAppend3(a.trace, s.trace, d.trace, DmaUnmapped);
  }

  /** Two requests for the same direction: the second returns the first's table and makes no call. */
  lemma RepeatedMapHitsCache(priv: Option<PrimeAttachment>, dir: Direction,
                             sgt1: Result<TableId, int>, ok1: bool, sgt2: Result<TableId, int>, ok2: bool)
    requires Valid(priv)
    requires GemMapDmaBuf(priv, dir, sgt1, ok1).ret.Table?
    ensures var r1 := GemMapDmaBuf(priv, dir, sgt1, ok1);
            var r2 := GemMapDmaBuf(r1.priv, dir, sgt2, ok2);
            r2.ret == r1.ret && r2.priv == r1.priv && r2.trace == []
  {
  }

  /** After a successful mapping, a request for another direction fails with -EBUSY and changes nothing. */
  lemma ConflictingMapIsBusy(priv: Option<PrimeAttachment>, dir1: Direction, dir2: Direction,
                             sgt1: Result<TableId, int>, ok1: bool, sgt2: Result<TableId, int>, ok2: bool)
    requires Valid(priv) && dir2 != DmaNone && dir1 != dir2
    requires GemMapDmaBuf(priv, dir1, sgt1, ok1).ret.Table?
    ensures var r1 := GemMapDmaBuf(priv, dir1, sgt1, ok1);
            var r2 := GemMapDmaBuf(r1.priv, dir2, sgt2, ok2);
            r2.ret == ErrPtr(-EBUSY) && r2.priv == r1.priv && r2.trace == []
  {
  }

  /** Unmapping does not release the cache: a later request for the same direction still hits it. */
  lemma UnmapKeepsCache(priv: Option<PrimeAttachment>, dir: Direction, sgt: Result<TableId, int>, ok: bool,
                        table: Option<TableId>, udir: Direction, sgt2: Result<TableId, int>, ok2: bool)
    requires Valid(priv)
    requires GemMapDmaBuf(priv, dir, sgt, ok).ret.Table?
    ensures var r1 := GemMapDmaBuf(priv, dir, sgt, ok);
            var u := GemUnmapDmaBuf(r1.priv, table, udir);
            var r2 := GemMapDmaBuf(u.priv, dir, sgt2, ok2);
            u.priv == r1.priv && Held(u.priv) == 1 && r2.ret == r1.ret && r2.trace == []
  {
  }

  /**
    The walk-through of one attachment: attach with a pin hook, map to the
    device, map again to the device (cache hit), map from the device
    (refused), detach.
   */
  lemma ExampleLifetime()
    ensures var hooks := Hooks(Some(0), true, None, None, false);
            var reqs := [MapRequest(ToDevice, Success(7), true),
                         MapRequest(ToDevice, Success(8), true),
                         MapRequest(FromDevice, Success(9), true)];
            var l := Lifecycle(hooks, true, reqs);
            && l.attachRet == 0
            && l.replies == [MapReply(Table(7)), MapReply(Table(7)), MapReply(ErrPtr(-EBUSY))]
            && l.trace == [Alloc, Pin, GetSgt(Success(7)), DmaMap(7, ToDevice, true),
                           DmaUnmap(7, ToDevice), FreeTable(7), FreeState, Unpin]
  {
  }
}
