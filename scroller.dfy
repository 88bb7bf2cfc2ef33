/**
 * The Scroller and ScrollAnimation of floatz: a scroll container's handler
 * registries, the frame-throttled fan-out of scroll events with direction
 * gating, the debounced start/end detector, the intersection dispatch and the
 * frame-by-frame scroll animation behind `scrollTo`.
 *
 * Browser events become methods that the environment calls: `ScrollEvent`
 * (a native scroll event), `ScrollFrame` (the frame the throttle requested),
 * `EndScrollTimeoutFires` and `ResetTimeoutFires` (the two 100 ms timeouts),
 * `IntersectionEntries` (a batch delivered by the observer) and
 * `ScrollAnimation.Frame` (an animation frame with its timestamp). Callback
 * bodies are not modelled; a method returns the callbacks it ran, in order.
 */
module Scroll {
  import opened Wrappers
  import opened ScrollDispatch

  /** The scroll orientation; anything but VERTICAL is treated as horizontal. */
  datatype Orientation = Horizontal | Vertical

  /** Identity of a DOM node, as compared by `origNode() === entry.target`. */
  type Node = nat

  /** The three hooks a ScrollPlugin offers to the scroller. */
  datatype Hook = OnScroll | OnScrollBackward | OnScrollForward

  /** A callback the scroller may run: one passed by a caller, or a hook of a registered plugin. */
  datatype Callback = Custom(id: nat) | PluginHook(plugin: ScrollPlugin, hook: Hook)

  /** `plugin instanceof ScrollPlugin` decides between these two kinds of argument. */
  datatype PluginArg = AScrollPlugin(plugin: ScrollPlugin) | NotAPlugin

  /** An easing function `(elapsed, start, distance, duration) -> position`; the library's own are not part of this model. */
  type Easing = (int, int, int, int) -> int

  /** The bounding client rectangle edges the animation reads. */
  datatype Rect = Rect(top: int, left: int)

  /** A `scrollTo` target: a pixel position, an element, or a selector with the elements it matches. */
  datatype Target = Position(px: int) | Element(rect: Rect) | Selector(matches: seq<Rect>)

  /** A target after `ScrollAnimation.element`: a position, or the element to scroll to. */
  datatype Resolved = AtPosition(px: int) | AtElement(rect: Rect)

  /** The constructor options the model reads; an absent one takes its default. */
  datatype ScrollerOptions = ScrollerOptions(orientation: Option<Orientation>, offset: Option<int>,
                                             threshold: Option<seq<real>>)

  /** The options of one `scrollTo` call. */
  datatype ScrollToOptions = ScrollToOptions(duration: Option<int>, easing: Option<Easing>,
                                             complete: Option<Callback>)

  /** What `scrollPos(position)` returns: the position when used as a getter, the scroller for chaining as a setter. */
  datatype PosResult = Pos(px: int) | Chained

  /** What `offset(value)` returns: the stored offset as a getter, the scroller for chaining as a setter. */
  datatype OffsetResult = OffsetValue(offset: int) | OffsetChained

  /** A run of the start handlers or of the end handlers by the start/end detector. */
  datatype Phase = Start | End

  const PluginMustExtend: string := "Plugin must extend class ScrollPlugin"
  const NoUniqueElement: string := "selector does not match exactly one element"

  /** Default intersection thresholds: fire at every tenth of visibility, including 0 and 100%. */
  const DefaultThreshold: seq<real> := [0.0, 0.1, 0.2, 0.3, 0.4, 0.5, 0.6, 0.7, 0.8, 0.9, 1.0]

  /** Default animation duration in milliseconds. */
  const DefaultDuration: int := 600

  /** `options.duration || 600`: an absent or zero duration takes the default. */
  function DurationOf(d: Option<int>): (r: int)
    ensures d.Some? && d.value != 0 ==> r == d.value
    ensures d.None? || d.value == 0 ==> r == DefaultDuration
  {
    if d.Some? && d.value != 0 then d.value else DefaultDuration
  }

  /** `ScrollAnimation.element`: a selector goes through `DOM.queryUnique`, which fails unless exactly one element matches. */
  function Resolve(target: Target): (r: Option<Resolved>)
    ensures r.None? <==> target.Selector? && |target.matches| != 1
  {
    match target
    case Position(px) => Some(AtPosition(px))
    case Element(rect) => Some(AtElement(rect))
    case Selector(ms) => if |ms| == 1 then Some(AtElement(ms[0])) else None
  }

  /** `ScrollAnimation.stopPos`: the number itself, or the element's top (vertical) or left edge plus the start position. */
  function StopPos(target: Resolved, orientation: Orientation, start: int): int {
    match target
    case AtPosition(px) => px
    case AtElement(rect) => (if orientation == Vertical then rect.top else rect.left) + start
  }

  /** The three handlers `plugin(p)` registers: scroll, then backward, then forward. */
  function PluginHandlers(p: ScrollPlugin): seq<Handler<Callback>> {
    [Plain(PluginHook(p, Hook.OnScroll)), Backward(PluginHook(p, Hook.OnScrollBackward)), Forward(PluginHook(p, Hook.OnScrollForward))]
  }

  /** The registrations `onScrollIn/Out/Intersected(targets, cb)` pushes, one per target. */
  function Registrations(targets: seq<Node>, cb: Callback): (rs: seq<TargetHandler<Node, Callback>>)
    ensures |rs| == |targets|
    ensures forall i :: 0 <= i < |rs| ==> rs[i] == TargetHandler(targets[i], cb)
  {
    seq(|targets|, i requires 0 <= i < |targets| => TargetHandler(targets[i], cb))
  }

  predicate HasPlain(hs: seq<Handler<Callback>>) {
    exists i :: 0 <= i < |hs| && hs[i].Plain?
  }

  lemma HasPlainSnoc(hs: seq<Handler<Callback>>, h: Handler<Callback>)
    ensures HasPlain(hs + [h]) <==> HasPlain(hs) || h.Plain?
  {
    if HasPlain(hs) {
      var i :| 0 <= i < |hs| && hs[i].Plain?;
      assert (hs + [h])[i] == hs[i];
    }
    if h.Plain? {
      assert (hs + [h])[|hs|] == h;
    }
    if HasPlain(hs + [h]) {
      var i :| 0 <= i < |hs + [h]| && (hs + [h])[i].Plain?;
      if i < |hs| {
        assert hs[i] == (hs + [h])[i];
      }
    }
  }

  /** Runs callbacks one after another, as `list.forEach(handler => handler(scroller))` does. */
  method RunEach(hs: seq<Callback>) returns (calls: seq<Callback>)
    ensures calls == hs
  {
    calls := [];
    var i := 0;
    while i < |hs|
      invariant 0 <= i <= |hs|
      invariant calls == hs[..i]
    {
      calls := calls + [hs[i]];
      i := i + 1;
    }
  }

  /** Runs the handlers registered for the entry's node, in registration order, each with the entry. */
  method RunForTarget(hs: seq<TargetHandler<Node, Callback>>, e: Entry<Node>) returns (calls: seq<Call<Node, Callback>>)
    ensures calls == ForTarget(hs, e)
  {
    calls := [];
    var i := 0;
    while i < |hs|
      invariant 0 <= i <= |hs|
      invariant calls == ForTarget(hs[..i], e)
    {
      assert hs[..i + 1][..i] == hs[..i];
      if hs[i].target == e.target {
        calls := calls + [Call(hs[i].cb, e)];
      }
      i := i + 1;
    }
    assert hs[..i] == hs;
  }

  /** Start runs and end runs of the detector alternate, beginning with a start run. */
  ghost predicate PhasesAlternate(phases: seq<Phase>) {
    forall i :: 0 <= i < |phases| ==> phases[i] == if i % 2 == 0 then Start else End
  }

  /** Everything of a Scroller but its constants. */
  datatype ScrollerState = ScrollerState(
    plugins: seq<ScrollPlugin>, handlers: seq<Handler<Callback>>,
    scrollStartHandlers: seq<Callback>, scrollEndHandlers: seq<Callback>,
    scrollInHandlers: seq<TargetHandler<Node, Callback>>, scrollOutHandlers: seq<TargetHandler<Node, Callback>>,
    observeHandlers: seq<TargetHandler<Node, Callback>>,
    scrollListeners: nat, startEndListeners: nat, endScrollTimeout: bool, scrolling: bool,
    prevScrollPos: int, isScrollToAction: bool, observers: nat, observed: seq<Node>,
    pendingResets: nat, phases: seq<Phase>)

  /** The element whose `scrollTop` / `scrollLeft` is read and written. */
  class Scrollable {
    var scrollTop: int
    var scrollLeft: int

    constructor (scrollTop: int, scrollLeft: int)
      ensures this.scrollTop == scrollTop && this.scrollLeft == scrollLeft
    {
      this.scrollTop := scrollTop;
      this.scrollLeft := scrollLeft;
    }
  }

  /** What a plugin's `scroller(s)` returns: the plugin for chaining as a setter, the stored scroller (possibly none) as a getter. */
  datatype ScrollerAccess = PluginChained | StoredScroller(current: Scroller?)

  /** The base class of scroller plugins; its three hooks do nothing unless a subclass overrides them. */
  class ScrollPlugin {
    var scroller: Scroller?

    constructor ()
      ensures scroller == null
    {
      scroller := null;
    }

    /** `scroller(s)`: a setter for a scroller, a getter otherwise. */
    method AccessScroller(s: Scroller?) returns (r: ScrollerAccess)
      modifies this
      ensures s != null ==> scroller == s && r == PluginChained
      ensures s == null ==> scroller == old(scroller) && r == StoredScroller(scroller)
    {
      if s != null {
        scroller := s;
        r := PluginChained;
      } else {
        r := StoredScroller(scroller);
      }
    }
  }

  /**
   * The mutable part of `_options`, the object a scroller hands to every
   * animation it starts: `offset(value)` and `scrollTo` write it, each
   * animation frame reads it.
   */
  class ScrollOptions {
    var offset: int
    var duration: int
    var easing: Easing
    /** The `options.complete` that the completion closure of the latest `scrollTo` calls. */
    var userComplete: Option<Callback>

    constructor (offset: int, duration: int, easing: Easing)
      ensures this.offset == offset && this.duration == duration && this.easing == easing && userComplete == None
    {
      this.offset := offset;
      this.duration := duration;
      this.easing := easing;
      userComplete := None;
    }
  }

  class Scroller {
    /** `_options.scrollable`. */
    const scrollable: Scrollable
    const orientation: Orientation
    /** `_options.intersection.threshold`, handed to the observer. */
    const threshold: seq<real>
    /** The default easing (`Easing.easeInOutQuad`). */
    const defaultEasing: Easing

    const options: ScrollOptions

    var plugins: seq<ScrollPlugin>
    var handlers: seq<Handler<Callback>>
    var scrollStartHandlers: seq<Callback>
    var scrollEndHandlers: seq<Callback>
    var scrollInHandlers: seq<TargetHandler<Node, Callback>>
    var scrollOutHandlers: seq<TargetHandler<Node, Callback>>
    var observeHandlers: seq<TargetHandler<Node, Callback>>

    /** Native scroll listeners added by `onScroll` (`_scrollHandler` is set with the first). */
    var scrollListeners: nat
    /** Native scroll listeners added by `_registerScrollStartEndHandler`. */
    var startEndListeners: nat
    /** The detector's `endScrollTimeout !== null`. */
    var endScrollTimeout: bool
    /** `_scrolling`: a frame has been requested and has not run yet. */
    var scrolling: bool
    var prevScrollPos: int
    var isScrollToAction: bool
    /** Intersection observers created (`_observer` is set by the first). */
    var observers: nat
    /** The nodes passed to `observe`, one entry per call. */
    var observed: seq<Node>
    /** Timeouts that will reset `_isScrollToAction`, scheduled and not yet fired. */
    var pendingResets: nat
    /** The start and end runs made by the start/end detector so far. */
    ghost var phases: seq<Phase>

    ghost function State(): ScrollerState
      reads this
    {
      ScrollerState(plugins, handlers, scrollStartHandlers, scrollEndHandlers,
                    scrollInHandlers, scrollOutHandlers, observeHandlers, scrollListeners, startEndListeners,
                    endScrollTimeout, scrolling, prevScrollPos, isScrollToAction, observers, observed,
                    pendingResets, phases)
    }

    /**
     * One native listener for the frame throttle, present exactly when a
     * plain scroll handler is registered; one for the start/end detector,
     * present exactly when a start or end handler is; at most one observer;
     * the detector's timeout pending exactly after a start run not yet
     * followed by its end run.
     */
    ghost predicate Valid()
      reads this
    {
      scrollListeners == (if HasPlain(handlers) then 1 else 0) &&
      startEndListeners == (if scrollStartHandlers == [] && scrollEndHandlers == [] then 0 else 1) &&
      (endScrollTimeout ==> startEndListeners == 1) &&
      PhasesAlternate(phases) && (endScrollTimeout <==> |phases| % 2 == 1) &&
      observers <= 1 &&
      (observers == 0 ==> observed == [] && scrollInHandlers == [] && scrollOutHandlers == [] && observeHandlers == [])
    }

    /** `scrollPos()` as a getter: `scrollTop` when vertical, `scrollLeft` otherwise. */
    function Position(): int
      reads scrollable
    {
      if orientation == Vertical then scrollable.scrollTop else scrollable.scrollLeft
    }

    /** `new Scroller(container, options)`, the container already resolved to its scrollable element. */
    constructor (scrollable: Scrollable, options: ScrollerOptions, easeInOutQuad: Easing)
      ensures Valid() && this.scrollable == scrollable && defaultEasing == easeInOutQuad
      ensures orientation == options.orientation.GetOr(Vertical)
      ensures fresh(this.options)
      ensures this.options.offset == options.offset.GetOr(0) && this.options.duration == DefaultDuration
      ensures this.options.easing == easeInOutQuad && this.options.userComplete == None
      ensures threshold == options.threshold.GetOr(DefaultThreshold)
      ensures plugins == [] && handlers == [] && scrollStartHandlers == [] && scrollEndHandlers == []
      ensures scrollInHandlers == [] && scrollOutHandlers == [] && observeHandlers == []
      ensures scrollListeners == 0 && startEndListeners == 0 && observers == 0 && observed == []
      ensures !scrolling && !isScrollToAction && !endScrollTimeout && pendingResets == 0
      ensures prevScrollPos == Position()
    {
      this.scrollable := scrollable;
      orientation := options.orientation.GetOr(Vertical);
      threshold := options.threshold.GetOr(DefaultThreshold);
      defaultEasing := easeInOutQuad;
      // Only the offset is set here; the duration and easing are presets that
      // `scrollTo` overwrites before any animation reads them.
      this.options := new ScrollOptions(options.offset.GetOr(0), DefaultDuration, easeInOutQuad);
      plugins, handlers := [], [];
      scrollStartHandlers, scrollEndHandlers := [], [];
      scrollInHandlers, scrollOutHandlers, observeHandlers := [], [], [];
      scrollListeners, startEndListeners := 0, 0;
      endScrollTimeout, scrolling, isScrollToAction := false, false, false;
      observers, observed, pendingResets := 0, [], 0;
      phases := [];
      new;
      prevScrollPos := Position();
    }

    /** `scrollPos(position)`: a truthy position is written along the axis; `undefined` and 0 read. */
    method ScrollPos(position: Option<int>) returns (r: PosResult)
      modifies scrollable
      ensures position.Some? && position.value != 0 ==> r == Chained && Position() == position.value
      ensures position.Some? && position.value != 0 ==>
        if orientation == Vertical then scrollable.scrollLeft == old(scrollable.scrollLeft)
        else scrollable.scrollTop == old(scrollable.scrollTop)
      ensures position.None? || position.value == 0 ==> r == Pos(Position()) && unchanged(scrollable)
    {
      if position.Some? && position.value != 0 {
        if orientation == Vertical {
          scrollable.scrollTop := position.value;
        } else {
          scrollable.scrollLeft := position.value;
        }
        r := Chained;
      } else {
        r := Pos(Position());
      }
    }

    /** `offset(value)`: a getter for `undefined`, otherwise a setter (0 included). */
    method Offset(value: Option<int>) returns (r: OffsetResult)
      modifies options
      ensures value.None? ==> r == OffsetValue(options.offset) && unchanged(options)
      ensures value.Some? ==> r == OffsetChained && options.offset == value.value
      ensures options.duration == old(options.duration) && options.easing == old(options.easing)
      ensures options.userComplete == old(options.userComplete)
    {
      if value.None? {
        r := OffsetValue(options.offset);
      } else {
        options.offset := value.value;
        r := OffsetChained;
      }
    }

    /** `onScroll(handler)`: the first call adds the native throttle listener; every call pushes a plain handler. */
    method OnScroll(cb: Callback)
      requires Valid()
      modifies this
      ensures Valid()
      ensures State() == old(State()).(handlers := old(handlers) + [Plain(cb)], scrollListeners := 1)
    {
      HasPlainSnoc(handlers, Plain(cb));
      if scrollListeners == 0 {
        scrollListeners := scrollListeners + 1;
      }
      handlers := handlers + [Plain(cb)];
    }

    /** `onScrollForward(handler)`: pushes a gated handler and adds no listener. */
    method OnScrollForward(cb: Callback)
      requires Valid()
      modifies this
      ensures Valid()
      ensures State() == old(State()).(handlers := old(handlers) + [Forward(cb)])
    {
      HasPlainSnoc(handlers, Forward(cb));
      handlers := handlers + [Forward(cb)];
    }

    /** `onScrollBackward(handler)`: pushes a gated handler and adds no listener. */
    method OnScrollBackward(cb: Callback)
      requires Valid()
      modifies this
      ensures Valid()
      ensures State() == old(State()).(handlers := old(handlers) + [Backward(cb)])
    {
      HasPlainSnoc(handlers, Backward(cb));
      handlers := handlers + [Backward(cb)];
    }

    /** `plugin(p)`: refuses anything but a ScrollPlugin; otherwise binds it and wires its three hooks. */
    method Plugin(arg: PluginArg) returns (r: Outcome)
      requires Valid()
      modifies this, if arg.AScrollPlugin? then {arg.plugin} else {}
      ensures Valid()
      ensures arg.NotAPlugin? ==> r == Fail(PluginMustExtend) && State() == old(State())
      ensures arg.AScrollPlugin? ==>
        r == Pass && arg.plugin.scroller == this &&
        State() == old(State()).(plugins := old(plugins) + [arg.plugin],
                                 handlers := old(handlers) + PluginHandlers(arg.plugin),
                                 scrollListeners := 1)
    {
      if arg.NotAPlugin? {
        return Fail(PluginMustExtend);
      }
      var p := arg.plugin;
      var _ := p.AccessScroller(this);
      plugins := plugins + [p];
      OnScroll(PluginHook(p, Hook.OnScroll));
      OnScrollBackward(PluginHook(p, Hook.OnScrollBackward));
      OnScrollForward(PluginHook(p, Hook.OnScrollForward));
      r := Pass;
    }

    /** `_registerScrollStartEndHandler`: adds the detector's listener only while both lists are empty. */
    method RegisterScrollStartEndHandler()
      modifies this
      ensures State() == old(State()).(startEndListeners :=
        if old(scrollStartHandlers) == [] && old(scrollEndHandlers) == [] then old(startEndListeners) + 1
        else old(startEndListeners))
    {
      if scrollEndHandlers == [] && scrollStartHandlers == [] {
        startEndListeners := startEndListeners + 1;
      }
    }

    /** `onScrollStart(handler)`. */
    method OnScrollStart(cb: Callback)
      requires Valid()
      modifies this
      ensures Valid()
      ensures State() == old(State()).(scrollStartHandlers := old(scrollStartHandlers) + [cb], startEndListeners := 1)
    {
      RegisterScrollStartEndHandler();
      scrollStartHandlers := scrollStartHandlers + [cb];
    }

    /** `onScrollEnd(handler)`. */
    method OnScrollEnd(cb: Callback)
      requires Valid()
      modifies this
      ensures Valid()
      ensures State() == old(State()).(scrollEndHandlers := old(scrollEndHandlers) + [cb], startEndListeners := 1)
    {
      RegisterScrollStartEndHandler();
      scrollEndHandlers := scrollEndHandlers + [cb];
    }

    /** `_runScrollStartHandlers`. */
    method RunScrollStartHandlers() returns (calls: seq<Callback>)
      ensures calls == scrollStartHandlers
    {
      calls := RunEach(scrollStartHandlers);
    }

    /** `_runScrollEndHandlers`. */
    method RunScrollEndHandlers() returns (calls: seq<Callback>)
      ensures calls == scrollEndHandlers
    {
      calls := RunEach(scrollEndHandlers);
    }

    /** `_initIntersectionObserver(targets)`: creates the observer once, then observes every target (no de-duplication). */
    method InitIntersectionObserver(targets: seq<Node>)
      modifies this
      ensures State() == old(State()).(observers := if old(observers) == 0 then 1 else old(observers),
                                       observed := old(observed) + targets)
    {
      if observers == 0 {
        observers := observers + 1;
      }
      var i := 0;
      while i < |targets|
        invariant 0 <= i <= |targets|
        invariant State() == old(State()).(observers := if old(observers) == 0 then 1 else old(observers),
                                           observed := old(observed) + targets[..i])
      {
        assert targets[..i + 1] == targets[..i] + [targets[i]];
        observed := observed + [targets[i]];
        i := i + 1;
      }
      assert targets[..i] == targets;
    }

    /** `onScrollIn(targets, handler)`. */
    method OnScrollIn(targets: seq<Node>, cb: Callback)
      requires Valid()
      modifies this
      ensures Valid()
      ensures State() == old(State()).(observers := 1, observed := old(observed) + targets,
                                       scrollInHandlers := old(scrollInHandlers) + Registrations(targets, cb))
    {
      InitIntersectionObserver(targets);
      scrollInHandlers := scrollInHandlers + Registrations(targets, cb);
    }

    /** `onScrollOut(targets, handler)`. */
    method OnScrollOut(targets: seq<Node>, cb: Callback)
      requires Valid()
      modifies this
      ensures Valid()
      ensures State() == old(State()).(observers := 1, observed := old(observed) + targets,
                                       scrollOutHandlers := old(scrollOutHandlers) + Registrations(targets, cb))
    {
      InitIntersectionObserver(targets);
      scrollOutHandlers := scrollOutHandlers + Registrations(targets, cb);
    }

    /** `onScrollIntersected(targets, handler)`. */
    method OnScrollIntersected(targets: seq<Node>, cb: Callback)
      requires Valid()
      modifies this
      ensures Valid()
      ensures State() == old(State()).(observers := 1, observed := old(observed) + targets,
                                       observeHandlers := old(observeHandlers) + Registrations(targets, cb))
    {
      InitIntersectionObserver(targets);
      observeHandlers := observeHandlers + Registrations(targets, cb);
    }

    /** The observer's callback for a batch of entries: per entry, intersected handlers, then scroll-in or scroll-out. */
    method IntersectionEntries(entries: seq<Entry<Node>>) returns (calls: seq<Call<Node, Callback>>)
      requires observers > 0
      ensures calls == BatchCalls(observeHandlers, scrollInHandlers, scrollOutHandlers, entries)
    {
      calls := [];
      var i := 0;
      while i < |entries|
        invariant 0 <= i <= |entries|
        invariant calls == BatchCalls(observeHandlers, scrollInHandlers, scrollOutHandlers, entries[..i])
      {
        var e := entries[i];
        var observedCalls := RunForTarget(observeHandlers, e);
        var familyCalls;
        if ScrollsIn(e) {
          familyCalls := RunForTarget(scrollInHandlers, e);
        } else {
          familyCalls := RunForTarget(scrollOutHandlers, e);
        }
        assert entries[..i + 1][..i] == entries[..i];
        calls := calls + (observedCalls + familyCalls);
        i := i + 1;
      }
      assert entries[..i] == entries;
    }

    /** The throttle listener of `onScroll`: requests a frame unless one is pending. */
    method ThrottleListener()
      requires Valid()
      modifies this
      ensures Valid()
      ensures State() == old(State()).(scrolling := old(scrolling) || old(scrollListeners) > 0)
    {
      if scrollListeners > 0 && !scrolling {
        scrolling := true;
      }
    }

    /**
     * The listener of `_registerScrollStartEndHandler`: ignores the event
     * during a `scrollTo`; otherwise runs the start handlers when no end
     * timeout is pending, and (re-)arms the end timeout.
     */
    method StartEndListener() returns (calls: seq<Callback>)
      requires Valid()
      modifies this
      ensures Valid()
      ensures var detects := old(startEndListeners) > 0 && !old(isScrollToAction);
              var starts := detects && !old(endScrollTimeout);
        calls == (if starts then old(scrollStartHandlers) else []) &&
        State() == old(State()).(endScrollTimeout := old(endScrollTimeout) || detects,
                                 phases := old(phases) + if starts then [Start] else [])
    {
      calls := [];
      if startEndListeners > 0 && !isScrollToAction {
        if !endScrollTimeout {
          calls := RunScrollStartHandlers();
          phases := phases + [Start];
        }
        endScrollTimeout := true;
      }
    }

    /** A native scroll event reaches both listeners; they touch disjoint state, so their order does not matter. */
    method ScrollEvent() returns (calls: seq<Callback>)
      requires Valid()
      modifies this
      ensures Valid()
      ensures var detects := old(startEndListeners) > 0 && !old(isScrollToAction);
              var starts := detects && !old(endScrollTimeout);
        calls == (if starts then old(scrollStartHandlers) else []) &&
        State() == old(State()).(scrolling := old(scrolling) || old(scrollListeners) > 0,
                                 endScrollTimeout := old(endScrollTimeout) || detects,
                                 phases := old(phases) + if starts then [Start] else [])
    {
      ThrottleListener();
      calls := StartEndListener();
    }

    /** The requested frame: every handler once in registration order, then the snapshot, then the flag. */
    method ScrollFrame() returns (calls: seq<Callback>)
      requires Valid() && scrolling
      modifies this
      ensures Valid()
      ensures calls == FrameCalls(old(handlers), old(prevScrollPos), Position())
      ensures State() == old(State()).(prevScrollPos := Position(), scrolling := false)
    {
      calls := [];
      var i := 0;
      while i < |handlers|
        invariant 0 <= i <= |handlers|
        invariant calls == FrameCalls(handlers[..i], prevScrollPos, Position())
      {
        var h := handlers[i];
        // each closure re-reads the position and compares it with the unchanged snapshot
        assert handlers[..i + 1][..i] == handlers[..i];
        if Fires(h, prevScrollPos, Position()) {
          calls := calls + [h.cb];
        }
        i := i + 1;
      }
      assert handlers[..i] == handlers;
      prevScrollPos := Position();
      scrolling := false;
    }

    /** The detector's timeout expires: the end handlers run and the slot is cleared. */
    method EndScrollTimeoutFires() returns (calls: seq<Callback>)
      requires Valid() && endScrollTimeout
      modifies this
      ensures Valid()
      ensures calls == old(scrollEndHandlers)
      ensures State() == old(State()).(endScrollTimeout := false, phases := old(phases) + [End])
    {
      calls := RunScrollEndHandlers();
      phases := phases + [End];
      endScrollTimeout := false;
    }

    /** The timeout scheduled by a completion with `options.complete` expires. */
    method ResetTimeoutFires()
      requires Valid() && pendingResets > 0
      modifies this
      ensures Valid()
      ensures State() == old(State()).(isScrollToAction := false, pendingResets := old(pendingResets) - 1)
    {
      isScrollToAction := false;
      pendingResets := pendingResets - 1;
    }

    /** `_options.complete()`: the end handlers, then the caller's `complete` with a delayed reset of the flag. */
    method Complete() returns (calls: seq<Callback>)
      requires Valid()
      modifies this
      ensures Valid()
      ensures calls == old(scrollEndHandlers) + (if options.userComplete.Some? then [options.userComplete.value] else [])
      ensures State() == old(State()).(pendingResets := old(pendingResets) + if options.userComplete.Some? then 1 else 0)
    {
      calls := RunScrollEndHandlers();
      if options.userComplete.Some? {
        calls := calls + [options.userComplete.value];
        pendingResets := pendingResets + 1;
      }
    }

    /** The first statements of `scrollTo`: the shared options and the flag. */
    method SetScrollToOptions(given: ScrollToOptions)
      requires Valid()
      modifies this, options
      ensures Valid() && State() == old(State()).(isScrollToAction := true)
      ensures options.offset == old(options.offset) && options.duration == DurationOf(given.duration)
      ensures options.easing == given.easing.GetOr(defaultEasing) && options.userComplete == given.complete
    {
      options.duration := DurationOf(given.duration);
      options.easing := given.easing.GetOr(defaultEasing);
      options.userComplete := given.complete;
      isScrollToAction := true;
    }

    /**
     * `scrollTo(target, options)`: stores duration, easing and completion in
     * the shared options, raises the flag, runs the start handlers and then
     * starts the animation. An unresolvable selector fails only after that.
     */
    method ScrollTo(target: Target, given: ScrollToOptions) returns (r: Result<ScrollAnimation>, calls: seq<Callback>)
      requires Valid()
      modifies this, options
      ensures Valid() && State() == old(State()).(isScrollToAction := true)
      ensures options.offset == old(options.offset) && options.duration == DurationOf(given.duration)
      ensures options.easing == given.easing.GetOr(defaultEasing) && options.userComplete == given.complete
      ensures calls == old(scrollStartHandlers)
      ensures Resolve(target).None? ==> r == Err(NoUniqueElement)
      ensures Resolve(target).Some? ==>
        r.Ok? && fresh(r.value) && r.value.scroller == this && r.value.framePending &&
        r.value.start == Position() && r.value.stop == StopPos(Resolve(target).value, orientation, Position()) &&
        r.value.timeStart == 0
    {
      SetScrollToOptions(given);
      calls := RunScrollStartHandlers();
      var resolved := Resolve(target);
      if resolved.None? {
        r := Err(NoUniqueElement);
      } else {
        var animation := new ScrollAnimation(this, resolved.value);
        r := Ok(animation);
      }
    }
  }

  /** One `scrollTo` animation, driven by the frames it requests. */
  class ScrollAnimation {
    const scroller: Scroller
    const start: int
    const stop: int
    var distance: int
    /** `_timeStart`; 0 stands for the falsy values `null` and `false` that the source also uses. */
    var timeStart: int
    var timeElapsed: int
    var next: int
    /** An animation frame has been requested and has not run yet. */
    var framePending: bool

    /** `new ScrollAnimation(container, target, options)`: start and stop positions, then the first frame request. */
    constructor (scroller: Scroller, target: Resolved)
      ensures this.scroller == scroller
      ensures start == scroller.Position() && stop == StopPos(target, scroller.orientation, start)
      ensures framePending && timeStart == 0 && distance == 0
    {
      this.scroller := scroller;
      var s := scroller.Position();
      start := s;
      stop := StopPos(target, scroller.orientation, s);
      distance, timeStart, timeElapsed, next := 0, 0, 0, 0;
      framePending := true;
    }

    /** `scroll(position)`: writes the position along the scroller's axis. */
    method Scroll(position: int)
      modifies scroller.scrollable
      ensures scroller.Position() == position
      ensures if scroller.orientation == Vertical then scroller.scrollable.scrollLeft == old(scroller.scrollable.scrollLeft)
              else scroller.scrollable.scrollTop == old(scroller.scrollable.scrollTop)
    {
      if scroller.orientation == Vertical {
        scroller.scrollable.scrollTop := position;
      } else {
        scroller.scrollable.scrollLeft := position;
      }
    }

    /** `done()`: the exact final write, the time reset, the completion. */
    method Done() returns (calls: seq<Callback>)
      requires scroller.Valid()
      modifies this, scroller, scroller.scrollable
      ensures scroller.Valid()
      ensures scroller.Position() == start + distance
      ensures if scroller.orientation == Vertical then scroller.scrollable.scrollLeft == old(scroller.scrollable.scrollLeft)
              else scroller.scrollable.scrollTop == old(scroller.scrollable.scrollTop)
      ensures timeStart == 0 && distance == old(distance) && timeElapsed == old(timeElapsed) && next == old(next)
      ensures framePending == old(framePending)
      ensures calls == old(scroller.scrollEndHandlers) +
        (if scroller.options.userComplete.Some? then [scroller.options.userComplete.value] else [])
      ensures scroller.State() == old(scroller.State()).(pendingResets :=
        old(scroller.pendingResets) + if scroller.options.userComplete.Some? then 1 else 0)
    {
      Scroll(start + distance);
      timeStart := 0;
      calls := scroller.Complete();
    }

    /** The part of `animate(t)` before the decision to continue: time, distance, eased position and its write. */
    method Advance(t: int)
      modifies this, scroller.scrollable
      ensures var t0 := if old(timeStart) == 0 then t else old(timeStart);
        timeStart == t0 && timeElapsed == t - t0 && distance == stop - start + scroller.options.offset &&
        next == scroller.options.easing(timeElapsed, start, distance, scroller.options.duration)
      ensures framePending == old(framePending)
      ensures scroller.Position() == next
      ensures if scroller.orientation == Vertical then scroller.scrollable.scrollLeft == old(scroller.scrollable.scrollLeft)
              else scroller.scrollable.scrollTop == old(scroller.scrollable.scrollTop)
    {
      if timeStart == 0 {
        timeStart := t;
      }
      timeElapsed := t - timeStart;
      distance := stop - start + scroller.options.offset;
      next := scroller.options.easing(timeElapsed, start, distance, scroller.options.duration);
      Scroll(next);
    }

    /**
     * `animate(t)`: fixes the start time on the first frame, recomputes the
     * distance from the live offset, writes the eased position, and either
     * requests the next frame (elapsed < duration) or finishes.
     */
    method Frame(t: int) returns (calls: seq<Callback>)
      requires framePending && scroller.Valid()
      modifies this, scroller, scroller.scrollable
      ensures scroller.Valid()
      ensures var t0 := if old(timeStart) == 0 then t else old(timeStart);
        timeElapsed == t - t0 &&
        distance == stop - start + scroller.options.offset &&
        next == scroller.options.easing(timeElapsed, start, distance, scroller.options.duration) &&
        (timeElapsed < scroller.options.duration ==>
          framePending && timeStart == t0 && calls == [] &&
          scroller.Position() == next && scroller.State() == old(scroller.State())) &&
        (timeElapsed >= scroller.options.duration ==>
          !framePending && timeStart == 0 &&
          scroller.Position() == start + distance == stop + scroller.options.offset &&
          calls == old(scroller.scrollEndHandlers) +
            (if scroller.options.userComplete.Some? then [scroller.options.userComplete.value] else []) &&
          scroller.State() == old(scroller.State()).(pendingResets :=
            old(scroller.pendingResets) + if scroller.options.userComplete.Some? then 1 else 0))
      ensures if scroller.orientation == Vertical then scroller.scrollable.scrollLeft == old(scroller.scrollable.scrollLeft)
              else scroller.scrollable.scrollTop == old(scroller.scrollable.scrollTop)
    {
      framePending := false;
      Advance(t);
      if timeElapsed < scroller.options.duration {
        framePending := true;
        calls := [];
      } else {
        calls := Done();
      }
    }
  }

  /**
   * The horizontal container test: scrolling to the second 750 px section
   * with a duration of 100 ends at position 750, whatever the easing and
   * the frame timestamps, once a frame arrives 100 ms after the first.
   * (The test imports `Direction`, which the scroller module does not
   * export, so it does not load as written; its scrollers would be
   * vertical, because `direction` is not an option the constructor reads.
   * The scenario chooses the section's edge 750 on both axes.)
   */
  method SecondSectionScenario(ease: Easing, t0: int, later: nat) returns (pos: int)
    requires t0 != 0
    ensures pos == 750
  {
    var container := new Scrollable(0, 0);
    var scroller := new Scroller(container, ScrollerOptions(None, None, None), ease);
    var r, _ := scroller.ScrollTo(Selector([Rect(750, 750)]), ScrollToOptions(Some(100), None, None));
    var animation := r.value;
    var _ := animation.Frame(t0);
    var _ := animation.Frame(t0 + 100 + later);
    pos := scroller.Position();
  }
}
