/**
 * Which callbacks the Scroller runs, and in which order, when its handlers
 * are dispatched: the per-frame fan-out of `_handlers` with its direction
 * gating, and the routing of intersection entries to the per-target lists.
 * Generic in the callback type `C` and the node identity type `N`.
 */
module ScrollDispatch {

  /** An entry of `_handlers`: pushed by `onScroll`, `onScrollForward` or `onScrollBackward`. */
  datatype Handler<C> = Plain(cb: C) | Forward(cb: C) | Backward(cb: C)

  /** The closure of a handler calls its callback when the position moved from `prev` to `cur`. */
  predicate Fires<C>(h: Handler<C>, prev: int, cur: int) {
    match h
    case Plain(_) => true
    case Forward(_) => prev < cur
    case Backward(_) => prev > cur
  }

  /** The callbacks one animation frame runs (`_handlers.forEach`), in registration order. */
  function FrameCalls<C>(hs: seq<Handler<C>>, prev: int, cur: int): (calls: seq<C>)
    ensures |calls| <= |hs|
  {
    if hs == [] then []
    else
      var init := FrameCalls(hs[..|hs| - 1], prev, cur);
      var h := hs[|hs| - 1];
      if Fires(h, prev, cur) then init + [h.cb] else init
  }

  /** Handlers registered later run later: the calls of a frame follow the registration order. */
  lemma {:induction false} FrameCallsAppend<C>(a: seq<Handler<C>>, b: seq<Handler<C>>, prev: int, cur: int)
    ensures FrameCalls(a + b, prev, cur) == FrameCalls(a, prev, cur) + FrameCalls(b, prev, cur)
    decreases |b|
  {
    if b == [] {
      assert a + b == a;
    } else {
      var b' := b[..|b| - 1];
      assert (a + b)[..|a + b| - 1] == a + b';
      assert (a + b)[|a + b| - 1] == b[|b| - 1];
      FrameCallsAppend(a, b', prev, cur);
    }
  }

  /**
   * How often a frame runs a callback: once per plain registration, once per
   * forward registration iff the position grew, once per backward
   * registration iff it shrank; at an unchanged position only plain ones.
   */
  lemma {:induction false} FrameCallsCount<C>(hs: seq<Handler<C>>, prev: int, cur: int, x: C)
    ensures multiset(FrameCalls(hs, prev, cur))[x] ==
      multiset(hs)[Plain(x)] +
      (if prev < cur then multiset(hs)[Forward(x)] else 0) +
      (if prev > cur then multiset(hs)[Backward(x)] else 0)
    decreases |hs|
  {
    if hs != [] {
      var init := hs[..|hs| - 1];
      FrameCallsCount(init, prev, cur, x);
      assert hs == init + [hs[|hs| - 1]];
    }
  }

  // ---------------------------------------------------------------------------
  // intersection entries
  // ---------------------------------------------------------------------------

  /** What an `IntersectionObserverEntry` carries that the dispatch reads. */
  datatype Entry<N> = Entry(target: N, isIntersecting: bool, intersectionRatio: real)

  /** An entry of `_scrollInHandlers`, `_scrollOutHandlers` or `_observeHandlers`. */
  datatype TargetHandler<N, C> = TargetHandler(target: N, cb: C)

  /** One callback run with the entry it was given. */
  datatype Call<N, C> = Call(cb: C, entry: Entry<N>)

  /** The ratio above which an intersecting entry counts as scrolled in (fixed against early firing). */
  const ScrollInRatio: real := 0.1

  predicate ScrollsIn<N>(e: Entry<N>) {
    e.isIntersecting && e.intersectionRatio > ScrollInRatio
  }

  /** `list.filter(h => h.target.origNode() === entry.target).forEach(h => h.handler(entry))`. */
  function ForTarget<N(==), C>(hs: seq<TargetHandler<N, C>>, e: Entry<N>): (calls: seq<Call<N, C>>)
    ensures |calls| <= |hs|
    ensures forall i :: 0 <= i < |calls| ==> calls[i].entry == e
  {
    if hs == [] then []
    else
      var init := ForTarget(hs[..|hs| - 1], e);
      var h := hs[|hs| - 1];
      if h.target == e.target then init + [Call(h.cb, e)] else init
  }

  /** One entry: the intersected handlers of its target, then either the scroll-in or the scroll-out ones. */
  function EntryCalls<N(==), C>(observe: seq<TargetHandler<N, C>>, scrollIn: seq<TargetHandler<N, C>>,
                                scrollOut: seq<TargetHandler<N, C>>, e: Entry<N>): seq<Call<N, C>>
  {
    ForTarget(observe, e) + (if ScrollsIn(e) then ForTarget(scrollIn, e) else ForTarget(scrollOut, e))
  }

  /** A batch of entries (`entries.forEach`), in the order the observer delivers them. */
  function BatchCalls<N(==), C>(observe: seq<TargetHandler<N, C>>, scrollIn: seq<TargetHandler<N, C>>,
                                scrollOut: seq<TargetHandler<N, C>>, entries: seq<Entry<N>>): seq<Call<N, C>>
  {
    if entries == [] then []
    else BatchCalls(observe, scrollIn, scrollOut, entries[..|entries| - 1]) +
         EntryCalls(observe, scrollIn, scrollOut, entries[|entries| - 1])
  }

  /** A registration for the entry's node runs once per entry; one for another node never. */
  lemma {:induction false} ForTargetCount<N, C>(hs: seq<TargetHandler<N, C>>, e: Entry<N>, x: C)
    ensures multiset(ForTarget(hs, e))[Call(x, e)] == multiset(hs)[TargetHandler(e.target, x)]
    decreases |hs|
  {
    if hs != [] {
      var init := hs[..|hs| - 1];
      ForTargetCount(init, e, x);
      assert hs == init + [hs[|hs| - 1]];
    }
  }

  /** The handlers of one node run in the order they were registered. */
  lemma {:induction false} ForTargetAppend<N, C>(a: seq<TargetHandler<N, C>>, b: seq<TargetHandler<N, C>>, e: Entry<N>)
    ensures ForTarget(a + b, e) == ForTarget(a, e) + ForTarget(b, e)
    decreases |b|
  {
    if b == [] {
      assert a + b == a;
    } else {
      var b' := b[..|b| - 1];
      assert (a + b)[..|a + b| - 1] == a + b';
      assert (a + b)[|a + b| - 1] == b[|b| - 1];
      ForTargetAppend(a, b', e);
    }
  }

  /**
   * For one entry, each intersected registration of its node runs once, and
   * exactly one of the two families runs: scroll-in iff the entry is
   * intersecting above the ratio, scroll-out otherwise.
   */
  lemma EntryCallsCount<N, C>(observe: seq<TargetHandler<N, C>>, scrollIn: seq<TargetHandler<N, C>>,
                                      scrollOut: seq<TargetHandler<N, C>>, e: Entry<N>, x: C)
    ensures multiset(EntryCalls(observe, scrollIn, scrollOut, e))[Call(x, e)] ==
      multiset(observe)[TargetHandler(e.target, x)] +
      (if ScrollsIn(e) then multiset(scrollIn)[TargetHandler(e.target, x)]
       else multiset(scrollOut)[TargetHandler(e.target, x)])
  {
    ForTargetCount(observe, e, x);
    ForTargetCount(scrollIn, e, x);
    ForTargetCount(scrollOut, e, x);
  }

  /** The intersected handlers of an entry run before its scroll-in or scroll-out handlers. */
  lemma IntersectedFirst<N, C>(observe: seq<TargetHandler<N, C>>, scrollIn: seq<TargetHandler<N, C>>,
                                   scrollOut: seq<TargetHandler<N, C>>, e: Entry<N>)
    ensures var k := |ForTarget(observe, e)|;
      EntryCalls(observe, scrollIn, scrollOut, e)[..k] == ForTarget(observe, e)
  {
  }

  /** Entries are handled one after another: a batch is the concatenation of its parts. */
  lemma {:induction false} BatchCallsAppend<N, C>(observe: seq<TargetHandler<N, C>>, scrollIn: seq<TargetHandler<N, C>>,
                                                      scrollOut: seq<TargetHandler<N, C>>, a: seq<Entry<N>>, b: seq<Entry<N>>)
    ensures BatchCalls(observe, scrollIn, scrollOut, a + b) ==
      BatchCalls(observe, scrollIn, scrollOut, a) + BatchCalls(observe, scrollIn, scrollOut, b)
    decreases |b|
  {
    if b == [] {
      assert a + b == a;
    } else {
      var b' := b[..|b| - 1];
      assert (a + b)[..|a + b| - 1] == a + b';
      assert (a + b)[|a + b| - 1] == b[|b| - 1];
      BatchCallsAppend(observe, scrollIn, scrollOut, a, b');
      var last := EntryCalls(observe, scrollIn, scrollOut, b[|b| - 1]);
      assert BatchCalls(observe, scrollIn, scrollOut, a + b) ==
        BatchCalls(observe, scrollIn, scrollOut, a + b') + last;
      assert BatchCalls(observe, scrollIn, scrollOut, b) ==
        BatchCalls(observe, scrollIn, scrollOut, b') + last;
    }
  }
}
