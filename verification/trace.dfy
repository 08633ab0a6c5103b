/** Counting calls of a given kind in an event trace. */
module Trace {
  import opened Wrappers
  import opened DmaTypes

  /** The kinds of call the lifecycle properties talk about. */
  datatype Kind =
    | StateAllocated
    | PinCalled
    | UnpinCalled
    | SgtRequested
    | TableObtained
    | DmaMapCalled
    | DmaMapped
    | DmaUnmapped
    | TableFreed
    | StateFreed

  predicate Is(e: Event, k: Kind) {
    match k
    case StateAllocated => e.Alloc?
    case PinCalled => e.Pin?
    case UnpinCalled => e.Unpin?
    case SgtRequested => e.GetSgt?
    case TableObtained => e.GetSgt? && e.outcome.Success?
    case DmaMapCalled => e.DmaMap?
    case DmaMapped => e.DmaMap? && e.ok
    case DmaUnmapped => e.DmaUnmap?
    case TableFreed => e.FreeTable?
    case StateFreed => e.FreeState?
  }

  /** 1 if `e` is of kind `k`, else 0. */
  function Bit(e: Event, k: Kind): nat {
    if Is(e, k) then 1 else 0
  }

  /** The number of events of kind `k` in `tr`. */
  function Count(tr: seq<Event>, k: Kind): (n: nat)
    ensures n <= |tr|
  {
    if tr == [] then 0
    else (if Is(tr[0], k) then 1 else 0) + Count(tr[1..], k)
  }

  /** Counting distributes over concatenation of traces. */
  lemma {:induction false} CountAppend(a: seq<Event>, b: seq<Event>, k: Kind)
    ensures Count(a + b, k) == Count(a, k) + Count(b, k)
  {
    if a == [] {
      assert a + b == b;
    } else {
      assert (a + b)[0] == a[0];
      assert (a + b)[1..] == a[1..] + b;
      CountAppend(a[1..], b, k);
    }
  }

  /** Counting over a three-part trace, the shape of a whole attachment lifetime. */
  lemma CountAppend3(a: seq<Event>, b: seq<Event>, c: seq<Event>, k: Kind)
    ensures Count(a + b + c, k) == Count(a, k) + Count(b, k) + Count(c, k)
  {
    CountAppend(a + b, c, k);
    CountAppend(a, b, k);
  }

  /** Counting over a trace that starts with `e`. */
  lemma CountCons(e: Event, tr: seq<Event>, k: Kind)
    ensures Count([e] + tr, k) == Bit(e, k) + Count(tr, k)
  {
    assert ([e] + tr)[1..] == tr;
  }

  /** Counting over a trace that ends with `e`, for every kind at once. */
  lemma CountSnoc(tr: seq<Event>, e: Event)
    ensures forall k :: Count(tr + [e], k) == Count(tr, k) + Bit(e, k)
  {
    forall k: Kind ensures Count(tr + [e], k) == Count(tr, k) + Bit(e, k) {
      CountAppend(tr, [e], k);
      CountCons(e, [], k);
      assert [e] + [] == [e];
    }
  }

  /** Counting over a one-event trace. */
  lemma CountOne(e1: Event)
    ensures forall k :: Count([e1], k) == Bit(e1, k)
  {
    forall k: Kind ensures Count([e1], k) == Bit(e1, k) {
      CountCons(e1, [], k);
      assert [e1] + [] == [e1];
    }
  }

  /** Counting over a two-event trace, event by event. */
  lemma CountTwo(e1: Event, e2: Event)
    ensures forall k :: Count([e1, e2], k) == Bit(e1, k) + Bit(e2, k)
  {
    CountOne(e2);
    forall k: Kind ensures Count([e1, e2], k) == Bit(e1, k) + Bit(e2, k) {
      CountCons(e1, [e2], k);
      assert [e1] + [e2] == [e1, e2];
    }
  }

  /** Counting over a three-event trace, event by event. */
  lemma CountThree(e1: Event, e2: Event, e3: Event)
    ensures forall k :: Count([e1, e2, e3], k) == Bit(e1, k) + Bit(e2, k) + Bit(e3, k)
  {
    CountTwo(e2, e3);
    forall k: Kind ensures Count([e1, e2, e3], k) == Bit(e1, k) + Bit(e2, k) + Bit(e3, k) {
      CountCons(e1, [e2, e3], k);
      assert [e1] + [e2, e3] == [e1, e2, e3];
    }
  }
}
