# floatz scroller and classList polyfill, modelled in Dafny

This project models two pieces of the floatz front-end library and proves properties of them.

The first is the **Scroller** (`floatz.scroll.scroller.js`). It is the event core behind scroll-driven pages:
- registries of scroll, forward, backward, start, end, scroll-in, scroll-out and intersected handlers;
- a frame throttle that runs every scroll handler once per animation frame and gates forward and backward handlers on a position snapshot;
- a debounced start/end detector that ignores programmatic scrolling;
- the intersection-observer dispatch, which picks scroll-in or scroll-out by a 10% visibility threshold;
- `scrollTo` together with its **ScrollAnimation**, which eases towards the target frame by frame and finishes with an exact write.

The second is the **classList polyfill** (`classlist.js`). It offers `add`, `remove`, `toggle`, `contains`, `item` and `replace` on an element's whitespace-separated `className`. It works with a regular expression `(^|\s+)name(\s+|$)` and a trim.

## Layout

| file | module | contents |
|---|---|---|
| `wrappers.dfy` | `Wrappers` | `Option`, `Result`, `Outcome` |
| `tokens.dfy` | `ClassTokens` | ECMAScript `\s`, the token abstraction `Tokens(className)`, `trim`, `split(/\s+/)` |
| `classlist.dfy` | `ClassListPolyfill` | the regular-expression match with the engine's backtracking, the per-name operations and their token-level meaning, classes `Element` and `ClassList` |
| `dispatch.dfy` | `ScrollDispatch` | which callbacks one frame or one intersection batch runs, as pure functions with counting lemmas |
| `scroller.dfy` | `Scroll` | classes `Scrollable`, `ScrollPlugin`, `ScrollOptions`, `Scroller`, `ScrollAnimation` and the horizontal-container scenario |

Modelling decisions:
- **Events as methods.** The environment calls the browser events as methods:
  - `ScrollEvent` is a native scroll event;
  - `ScrollFrame` is the frame the throttle requested;
  - `EndScrollTimeoutFires` and `ResetTimeoutFires` are the two 100 ms timeouts;
  - `IntersectionEntries` is one observer batch;
  - `ScrollAnimation.Frame(t)` is an animation frame with its timestamp.

  Pending work is explicit. `scrolling` marks a requested throttle frame, `endScrollTimeout` the debounce slot, `pendingResets` the scheduled flag resets and `framePending` the animation's next frame.
- **Callbacks.** Callback bodies are not modelled. Every method that runs callbacks returns them in the order they run.
  Registered closures become descriptors:
  - `Plain`, `Forward` and `Backward` for the scroll handlers;
  - `TargetHandler(target, cb)` for the observer lists.

  A plugin hook is `PluginHook(plugin, hook)`.
- **The shared options object.** The mutable part of the scroller's `_options` is an object of its own, `ScrollOptions`: `offset`, `duration`, `easing`, and the user's `complete`. The scroller holds it as `options`; `offset(value)` and `scrollTo` write it, and the animation reads it live on every frame, as the source does through the shared object. The source keeps the caller's own options object and also writes `scrollable`, `orientation` and the intersection settings into it. The model takes those three as constants of `Scroller`, which holds only while nobody else writes the object (see `Scroll.Scroller.constructor` under "## Left out").
- **Falsy start time.** `timeStart == 0` stands for every falsy `_timeStart`: the initial `null`, the `false` that `done` stores, and a timestamp of 0. A first frame at time 0 is therefore followed by a frame that takes the start time again, as in the source.
- **Class names.** `className` is a `string`. `Tokens(className)` is the abstraction: the maximal runs of non-whitespace characters, where whitespace is ECMAScript's `\s`. Every operation is proved against it.

## Model

| member | source | states |
|---|---|---|
| ClassTokens.Tokens | src/main/javascript/polyfills/classlist.js:10-12 | every element of the token list of a class name is a non-empty, whitespace-free token |
| ClassTokens.Trim | src/main/javascript/polyfills/classlist.js:7-9 | the result has no whitespace at either end and is no longer than the input |
| ClassTokens.TrimParts | src/main/javascript/polyfills/classlist.js:7-9 | the trimmed string is a slice of the input, and only whitespace lies around it |
| ClassTokens.TrimOfTrimmed | src/main/javascript/polyfills/classlist.js:7-9 | trimming a trimmed string changes nothing |
| ClassTokens.TrimTokens | src/main/javascript/polyfills/classlist.js:7-9 | trimming never changes the token list |
| ClassTokens.SplitWs | src/main/javascript/polyfills/classlist.js:62 | `split(/\s+/)` yields at least one piece, and no piece contains whitespace |
| ClassTokens.SplitTrimmed | src/main/javascript/polyfills/classlist.js:62 | on a non-empty trimmed string, `split(/\s+/)` is exactly the token list |
| ClassListPolyfill.NameThenBoundary | src/main/javascript/polyfills/classlist.js:11 | the definition of `name(\s+|$)` at a position: the literal name, then the greedy whitespace run or the string end; a match ends no earlier than the name |
| ClassListPolyfill.GiveBack | src/main/javascript/polyfills/classlist.js:11 | the definition of the engine giving back characters of the leading `\s+` one at a time, longest run first; a match ends after the run's first character |
| ClassListPolyfill.MatchAt | src/main/javascript/polyfills/classlist.js:10-12 | the definition of the whole pattern at one start position: `^` first (position 0 only), then `\s+` with backtracking; a match never ends before its start |
| ClassListPolyfill.GiveBackInRun | src/main/javascript/polyfills/classlist.js:11 | a class name (non-empty, whitespace-free) never matches after a proper part of a whitespace run |
| ClassListPolyfill.MatchAtOfToken | src/main/javascript/polyfills/classlist.js:10-12 | for a class name, backtracking never changes the outcome: only the whole whitespace run before the name is tried |
| ClassListPolyfill.EmptyNameGivesBack | src/main/javascript/polyfills/classlist.js:10-57 | with the empty name the engine gives back part of a whitespace run: `contains("")` holds on `"a  b"`, and `remove("")` turns it into `"a b"` |
| ClassListPolyfill.HasClass | src/main/javascript/polyfills/classlist.js:55-57 | the definition of `contains`: the search from position 0 finds a match; its meaning is proved by HasClassIffTokenAt and HasClassIffTokens |
| ClassListPolyfill.Search | src/main/javascript/polyfills/classlist.js:10-12 | the regular-expression search finds the leftmost position where the pattern matches; no position before it matches, and `None` means no position matches |
| ClassListPolyfill.MatchParts | src/main/javascript/polyfills/classlist.js:10-12 | a match is whitespace (or the string start), then the name, then whitespace (or the string end) |
| ClassListPolyfill.HasClassIffTokenAt | src/main/javascript/polyfills/classlist.js:10-12 | the pattern matches iff the name stands somewhere delimited by whitespace or the string ends |
| ClassListPolyfill.HasClassIffTokens | src/main/javascript/polyfills/classlist.js:55-57 | `contains(name)` holds iff `name` is one of the whitespace-delimited tokens |
| ClassListPolyfill.AddClass | src/main/javascript/polyfills/classlist.js:33-35 | the definition of one `add` step: unchanged when contained, otherwise the trimmed concatenation with a blank; its meaning is proved by AddClassTokens |
| ClassListPolyfill.ReplaceFirstMatch | src/main/javascript/polyfills/classlist.js:43 | the definition of `replace` without the `g` flag: only the leftmost match becomes one blank; its meaning is proved by MatchSplitsTokens |
| ClassListPolyfill.RemoveClass | src/main/javascript/polyfills/classlist.js:43 | the definition of one `remove` step: the replacement, then a trim that happens even without a match; its meaning is proved by RemoveClassTokens |
| ClassListPolyfill.AddAll | src/main/javascript/polyfills/classlist.js:31-37 | the definition of `add(...names)` as `add` steps left to right; its meaning is proved by AddAllTokens |
| ClassListPolyfill.RemoveAll | src/main/javascript/polyfills/classlist.js:41-45 | the definition of `remove(...names)` as `remove` steps left to right; its meaning is proved by RemoveAllTokens |
| ClassListPolyfill.RemoveFirstAt | src/main/javascript/polyfills/classlist.js:43 | removing the first copy of a present token deletes exactly the first index holding it, and the multiset loses one copy |
| ClassListPolyfill.MatchSplitsTokens | src/main/javascript/polyfills/classlist.js:43 | the leftmost match cuts the token list into the tokens before it, the name, and the tokens after it; the name is not among the tokens before |
| ClassListPolyfill.RemoveClassTokens | src/main/javascript/polyfills/classlist.js:41-45 | one `remove` step removes exactly the first occurrence of the name from the token list; the other tokens keep their order |
| ClassListPolyfill.RemoveClassRemoves | src/main/javascript/polyfills/classlist.js:41-45 | a name that occurred at most once is no longer contained after removal |
| ClassListPolyfill.AddClassTokens | src/main/javascript/polyfills/classlist.js:31-37 | adding a present name leaves `className` unchanged; adding an absent one appends it to the tokens; afterwards the name is contained |
| ClassListPolyfill.AddClassIdempotent | src/main/javascript/polyfills/classlist.js:31-37 | adding a name twice gives the same string as adding it once |
| ClassListPolyfill.AddAllTokens | src/main/javascript/polyfills/classlist.js:31-37 | `add(...names)` turns the token list into the old tokens followed by each name not yet present, left to right |
| ClassListPolyfill.RemoveAllTokens | src/main/javascript/polyfills/classlist.js:41-45 | `remove(...names)` removes the first occurrence of each name in turn, left to right |
| ClassListPolyfill.AppendNewProperties | src/main/javascript/polyfills/classlist.js:31-37 | adding keeps the old tokens as a prefix; afterwards a token is present iff it was present before or was added; no duplicates are introduced |
| ClassListPolyfill.AddAllTrimmed | src/main/javascript/polyfills/classlist.js:31-37 | `add` keeps a trimmed `className` trimmed |
| ClassListPolyfill.AddAllChangedTrimmed | src/main/javascript/polyfills/classlist.js:31-37 | from any `className`, trimmed or not, an `add` that changes it leaves it trimmed |
| ClassListPolyfill.RemoveAllTrimmed | src/main/javascript/polyfills/classlist.js:41-45 | `remove` with at least one name always leaves a trimmed `className` |
| ClassListPolyfill.AddTwiceOnce | src/main/javascript/polyfills/classlist.js:31-37 | `add("a", "a")` gives the same string as `add("a")` |
| ClassListPolyfill.ItemAt | src/main/javascript/polyfills/classlist.js:61-63 | `item(index)` is null or a non-empty, whitespace-free piece of the split; an empty piece and an index out of range both give null |
| ClassListPolyfill.ItemOfTrimmed | src/main/javascript/polyfills/classlist.js:61-63 | on a trimmed `className`, `item(i)` is the i-th token, or null when `i` is out of range |
| ClassListPolyfill.ToggleClass | src/main/javascript/polyfills/classlist.js:49-51 | the definition of `toggle`: a contained name is removed with answer false, any other is added with answer true; its meaning is proved by ToggleMembership and ToggleDuplicate |
| ClassListPolyfill.ToggleMembership | src/main/javascript/polyfills/classlist.js:49-51 | after `toggle`, the name is contained iff `toggle` returned true, provided the name occurred at most once |
| ClassListPolyfill.ToggleDuplicate | src/main/javascript/polyfills/classlist.js:49-51 | with a duplicated name, `toggle` returns false yet the name is still contained (`"a a"` becomes `"a"`) |
| ClassListPolyfill.ReplaceClass | src/main/javascript/polyfills/classlist.js:68-70 | the definition of `replace`: `remove(oldName)` then `add(newName)`, unconditionally; its meaning is proved by ReplaceClassTokens |
| ClassListPolyfill.ReplaceClassTokens | src/main/javascript/polyfills/classlist.js:68-70 | after `replace`, the new name is contained; the tokens are those of removing the first copy of the old name and then adding the new one, even when the old name was absent |
| ClassListPolyfill.ClassList.constructor | src/main/javascript/polyfills/classlist.js:23-25 | a class list is a view on the given element; views on one element share its `className` |
| ClassListPolyfill.ClassList.Contains | src/main/javascript/polyfills/classlist.js:55-57 | `contains(name)` is true iff `name` is a token of `className` |
| ClassListPolyfill.ClassList.Item | src/main/javascript/polyfills/classlist.js:61-63 | `item(index)` is a token or null; on a trimmed `className` it is the index-th token |
| ClassListPolyfill.ClassList.Add | src/main/javascript/polyfills/classlist.js:31-37 | the loop leaves `className` as the names folded in left to right; in token terms, the new names are appended once each; trimmed stays trimmed, and any changed result is trimmed |
| ClassListPolyfill.ClassList.Remove | src/main/javascript/polyfills/classlist.js:41-45 | the loop removes the first occurrence of each name in turn; the result is trimmed |
| ClassListPolyfill.ClassList.Toggle | src/main/javascript/polyfills/classlist.js:49-51 | removes a contained name and returns false, otherwise adds it and returns true; membership afterwards equals the result when the name occurred at most once |
| ClassListPolyfill.ClassList.Replace | src/main/javascript/polyfills/classlist.js:68-70 | remove then add, unconditionally; the new name is contained afterwards |
| ScrollDispatch.Fires | src/main/javascript/scroll/floatz.scroll.scroller.js:171-203 | the definition of the pushed closures' guards: a plain handler always calls, a forward one iff prev < current, a backward one iff prev > current; counted by FrameCallsCount |
| ScrollDispatch.FrameCalls | src/main/javascript/scroll/floatz.scroll.scroller.js:157-159 | the definition of the callbacks one frame runs, in registration order, never more than the handlers; the count per callback is proved by FrameCallsCount |
| ScrollDispatch.FrameCallsAppend | src/main/javascript/scroll/floatz.scroll.scroller.js:157-159 | the callbacks of a frame are those of earlier registrations followed by those of later ones (registration order) |
| ScrollDispatch.FrameCallsCount | src/main/javascript/scroll/floatz.scroll.scroller.js:157-205 | in one frame a callback runs once per plain registration, once per forward registration iff prev < current, and once per backward registration iff prev > current; at equal positions neither gated kind runs |
| ScrollDispatch.ForTarget | src/main/javascript/scroll/floatz.scroll.scroller.js:712-715 | the definition of the handlers registered for the entry's node, called with the entry in registration order, never more than the registrations; the count per handler is proved by ForTargetCount |
| ScrollDispatch.ForTargetCount | src/main/javascript/scroll/floatz.scroll.scroller.js:712-715 | a handler runs for an entry exactly as many times as it was registered for the entry's node |
| ScrollDispatch.ForTargetAppend | src/main/javascript/scroll/floatz.scroll.scroller.js:712-715 | filtered handlers run in registration order |
| ScrollDispatch.EntryCalls | src/main/javascript/scroll/floatz.scroll.scroller.js:711-733 | the definition of one entry's calls: the intersected handlers of its node, then the scroll-in or the scroll-out ones; counted by EntryCallsCount |
| ScrollDispatch.BatchCalls | src/main/javascript/scroll/floatz.scroll.scroller.js:707-735 | the definition of a batch as its entries' calls in delivery order; proved by BatchCallsAppend |
| ScrollDispatch.EntryCallsCount | src/main/javascript/scroll/floatz.scroll.scroller.js:707-735 | per entry, the intersected handlers run, plus the scroll-in handlers iff `isIntersecting && intersectionRatio > 0.1`, otherwise the scroll-out handlers; exactly one family runs |
| ScrollDispatch.IntersectedFirst | src/main/javascript/scroll/floatz.scroll.scroller.js:711-718 | the intersected handlers of an entry run before either family |
| ScrollDispatch.BatchCallsAppend | src/main/javascript/scroll/floatz.scroll.scroller.js:707 | a batch is processed entry by entry, in order |
| Scroll.DurationOf | src/main/javascript/scroll/floatz.scroll.scroller.js:318 | the definition of `duration || 600`: the given duration unless it is absent or 0, in which case it is 600 |
| Scroll.Resolve | src/main/javascript/scroll/floatz.scroll.scroller.js:504-519 | a target fails to resolve exactly when it is a selector that does not match exactly one element |
| Scroll.StopPos | src/main/javascript/scroll/floatz.scroll.scroller.js:483-495 | the definition of `stopPos`: a numeric target is the stop itself; an element's stop is its top (vertical) or left edge plus the start; used by ScrollAnimation.constructor |
| Scroll.PluginHandlers | src/main/javascript/scroll/floatz.scroll.scroller.js:100-108 | the definition of the three handlers `plugin(p)` registers: the plugin's scroll hook as a plain handler, then its backward and its forward hook, gated; used by Scroller.Plugin |
| Scroll.Registrations | src/main/javascript/scroll/floatz.scroll.scroller.js:253-259 | the definition of the registrations `onScrollIn`/`onScrollOut`/`onScrollIntersected` push: one per target, in order, each with the handler |
| Scroll.HasPlainSnoc | src/main/javascript/scroll/floatz.scroll.scroller.js:151-205 | a plain handler is registered after a push iff it was before or the pushed one is plain |
| Scroll.RunEach | src/main/javascript/scroll/floatz.scroll.scroller.js:679-691 | `forEach` runs the callbacks in order, each once |
| Scroll.RunForTarget | src/main/javascript/scroll/floatz.scroll.scroller.js:712-715 | the loop runs exactly the filtered handlers of the dispatch function, in order |
| Scroll.ScrollPlugin.constructor | src/main/javascript/scroll/floatz.scroll.scroller.js:595-598 | a new plugin has no scroller |
| Scroll.ScrollPlugin.AccessScroller | src/main/javascript/scroll/floatz.scroll.scroller.js:606-613 | a non-null argument is stored and the call returns the plugin for chaining; otherwise the stored scroller, possibly none, is returned and nothing changes |
| Scroll.Scroller.constructor | src/main/javascript/scroll/floatz.scroll.scroller.js:44-85 | defaults: orientation vertical, offset 0, the eleven-step threshold list, empty registries, no listeners, no observer, flags false, and `prevScrollPos` equal to the current position |
| Scroll.Scroller.Position | src/main/javascript/scroll/floatz.scroll.scroller.js:360 | the definition of `scrollPos()` as a getter: `scrollTop` when vertical, `scrollLeft` otherwise; ScrollPos proves that a write reads back |
| Scroll.Scroller.ScrollPos | src/main/javascript/scroll/floatz.scroll.scroller.js:350-362 | a truthy position is written to `scrollTop` (vertical) or `scrollLeft` and then reads back, and the other axis is untouched; `undefined` and 0 only read |
| Scroll.ScrollOptions.constructor | src/main/javascript/scroll/floatz.scroll.scroller.js:45-47 | the shared options start with the given offset, the given duration and easing, and no completion |
| Scroll.Scroller.Offset | src/main/javascript/scroll/floatz.scroll.scroller.js:136-143 | `undefined` reads the shared offset and changes nothing; any other value, 0 included, sets it and chains; the other options are kept |
| Scroll.Scroller.OnScroll | src/main/javascript/scroll/floatz.scroll.scroller.js:151-175 | pushes a plain handler; only the first call installs the native listener |
| Scroll.Scroller.OnScrollForward | src/main/javascript/scroll/floatz.scroll.scroller.js:183-190 | pushes a forward-gated handler and installs no listener |
| Scroll.Scroller.OnScrollBackward | src/main/javascript/scroll/floatz.scroll.scroller.js:198-205 | pushes a backward-gated handler and installs no listener |
| Scroll.Scroller.Plugin | src/main/javascript/scroll/floatz.scroll.scroller.js:93-110 | a non-plugin fails with "Plugin must extend class ScrollPlugin" and changes nothing; a plugin is bound to this scroller, appended, and exactly its scroll, backward and forward hooks are appended, in that order |
| Scroll.Scroller.RegisterScrollStartEndHandler | src/main/javascript/scroll/floatz.scroll.scroller.js:650-654 | the detector's listener is installed only while both the start and the end lists are empty |
| Scroll.Scroller.OnScrollStart | src/main/javascript/scroll/floatz.scroll.scroller.js:213-219 | appends a start handler; one detector listener exists afterwards |
| Scroll.Scroller.OnScrollEnd | src/main/javascript/scroll/floatz.scroll.scroller.js:227-233 | appends an end handler; one detector listener exists afterwards |
| Scroll.Scroller.RunScrollStartHandlers | src/main/javascript/scroll/floatz.scroll.scroller.js:679-684 | runs the start handlers in registration order |
| Scroll.Scroller.RunScrollEndHandlers | src/main/javascript/scroll/floatz.scroll.scroller.js:686-691 | runs the end handlers in registration order |
| Scroll.Scroller.InitIntersectionObserver | src/main/javascript/scroll/floatz.scroll.scroller.js:703-748 | the observer is created only once; every target is observed again on every call |
| Scroll.Scroller.OnScrollIn | src/main/javascript/scroll/floatz.scroll.scroller.js:250-261 | an observer exists afterwards, and one scroll-in registration per target is appended |
| Scroll.Scroller.OnScrollOut | src/main/javascript/scroll/floatz.scroll.scroller.js:278-288 | an observer exists afterwards, and one scroll-out registration per target is appended |
| Scroll.Scroller.OnScrollIntersected | src/main/javascript/scroll/floatz.scroll.scroller.js:298-308 | an observer exists afterwards, and one intersected registration per target is appended |
| Scroll.Scroller.IntersectionEntries | src/main/javascript/scroll/floatz.scroll.scroller.js:706-735 | a batch runs exactly the calls of the dispatch function, entry by entry |
| Scroll.Scroller.ThrottleListener | src/main/javascript/scroll/floatz.scroll.scroller.js:153-167 | a scroll event requests a frame only when a throttle listener exists and no frame is pending; nothing else changes |
| Scroll.Scroller.StartEndListener | src/main/javascript/scroll/floatz.scroll.scroller.js:656-677 | during a `scrollTo` the detector ignores the event; otherwise, with no pending timeout, the start handlers run and a start run is recorded; the timeout is (re-)armed |
| Scroll.Scroller.ScrollEvent | src/main/javascript/scroll/floatz.scroll.scroller.js:650-677 | one native scroll event has the combined effect of both listeners: the throttle's frame request and the detector's start run and timeout |
| Scroll.Scroller.ScrollFrame | src/main/javascript/scroll/floatz.scroll.scroller.js:156-164 | the frame runs the handlers against the unchanged snapshot, then stores the new position and clears the throttle flag |
| Scroll.Scroller.EndScrollTimeoutFires | src/main/javascript/scroll/floatz.scroll.scroller.js:667-673 | expiry runs the end handlers and clears the slot; start and end runs keep alternating, starting with a start run |
| Scroll.Scroller.ResetTimeoutFires | src/main/javascript/scroll/floatz.scroll.scroller.js:324-326 | the scheduled reset clears the programmatic-scroll flag |
| Scroll.Scroller.Complete | src/main/javascript/scroll/floatz.scroll.scroller.js:320-328 | completion runs the end handlers, then the caller's `complete`; a flag reset is scheduled only when `complete` was given |
| Scroll.Scroller.SetScrollToOptions | src/main/javascript/scroll/floatz.scroll.scroller.js:318-329 | the shared options get the duration (default 600), the easing (default the scroller's) and the completion; the offset is kept; the programmatic-scroll flag is raised |
| Scroll.Scroller.ScrollTo | src/main/javascript/scroll/floatz.scroll.scroller.js:317-333 | stores the duration (default 600), easing and completion, raises the flag and runs the start handlers; then either starts an animation from the current position towards the resolved stop, or fails for an unresolvable selector after those effects |
| Scroll.ScrollAnimation.constructor | src/main/javascript/scroll/floatz.scroll.scroller.js:431-495 | the start is the current position; the stop is the numeric target, or the element's top (vertical) or left edge plus the start; the first frame is requested |
| Scroll.ScrollAnimation.Scroll | src/main/javascript/scroll/floatz.scroll.scroller.js:563-569 | writes the position along the scroller's axis only |
| Scroll.ScrollAnimation.Advance | src/main/javascript/scroll/floatz.scroll.scroller.js:530-545 | the first frame fixes the start time; the distance is recomputed from the live offset; the eased position is written |
| Scroll.ScrollAnimation.Done | src/main/javascript/scroll/floatz.scroll.scroller.js:574-583 | writes exactly `start + distance`, resets the start time, and runs the completion once |
| Scroll.ScrollAnimation.Frame | src/main/javascript/scroll/floatz.scroll.scroller.js:527-556 | each frame writes the eased position and requests another frame while elapsed < duration; otherwise the final position is exactly `start + distance` (= stop + offset) and the end handlers and `complete` run once |
| Scroll.SecondSectionScenario | src/test/javascript/scroll/floatz.scroll.scroller.container.horizontal.test.js:68-80 | `scrollTo("#second", {duration: 100})` ends at scroll position 750, whatever the easing, once a frame arrives 100 ms after the first |

`Scroller.Valid()` holds before and after each of those methods. It states:
- one throttle listener exists exactly when a plain scroll handler is registered;
- one detector listener exists exactly when a start or end handler is registered;
- there is at most one observer;
- the detector's start runs and end runs alternate, starting with a start run, and the debounce timeout is pending exactly after a start run whose end run has not happened yet.

## Code followed over its documentation

- **Two native listeners.** The throttle of `onScroll` and the start/end detector each install their own native scroll listener (floatz.scroll.scroller.js:168, 654). Both are modelled.
- **No de-duplication of `observe`.** `observe` is called for every target on every registration (floatz.scroll.scroller.js:744-748). The model records each call.
- **The flag reset needs a `complete`.** `_isScrollToAction` is reset only when the caller of `scrollTo` passed `options.complete` (floatz.scroll.scroller.js:322-327). Otherwise the flag stays raised, and the detector ignores later manual scrolling. The model keeps this behaviour.
- **The test's scrollers would be vertical.** The horizontal-container test imports `Direction`, which the scroller module does not export, so as written the test does not load. It also passes `direction`, which the constructor does not read, so its scrollers would be vertical. The scenario gives the target element the edge 750 on both axes.

## Left out

- Browser geometry (`getBoundingClientRect`, `innerWidth`/`innerHeight`, `scrollWidth`/`scrollHeight`). Rect edges and entry values are inputs. `container()`, `options()`, `orientation()`, `scrollSize()` and `viewportSize()` are plain accessors or geometry reads, so they have no members; `prevScrollPos()` and `isScrollToAction()` are read as the fields `prevScrollPos` and `isScrollToAction`.
- Scroll.Scroller.constructor: does not model aliasing of the caller's options object. The source stores that very object (floatz.scroll.scroller.js:45) and writes `orientation`, `offset` and `scrollable` into it. `scrollTo` writes `duration`, `easing` and `complete` into it, and `options()` hands it out. Two scrollers built on one object, or a caller that changes it later or through `options()`, see each other's writes in the source. In the model each scroller gets a fresh `ScrollOptions` and fixed `scrollable` and `orientation`, because following a third party's writes would need the whole caller-side object graph in every frame.
- Scroll.ScrollPlugin.constructor: does not store the plugin's `options` argument (floatz.scroll.scroller.js:597), and the plugin's `options()` getter has no member, because the base plugin never reads them; only the plugin files, which are outside this core, do.
- Container resolution in the constructor (window, `DOMElement`, selector string). The constructor takes the scrollable element directly. The intersection `root` and `rootMargin` options are passed through to the browser and are not modelled.
- `DOM.queryUnique` is not part of this model. The model takes selector resolution as "succeeds iff exactly one element matches", and its failure message is the model's own.
- Scheduling and real time. `requestAnimationFrame` and `setTimeout` become pending flags plus event methods, and timestamps are integer parameters. Positions are integers, not floating-point pixels, and `0.1` is an exact Dafny `real`.
- Easing functions. `Easing.easeInOutQuad` is not part of this model. Easing is an arbitrary function parameter, and nothing is claimed about its values.
- Callback bodies. They cannot re-enter the scroller in the model: a handler that registers another handler or calls `scrollTo` while running is not modelled. Overlapping animations are not modelled either; each `ScrollAnimation` is driven on its own.
- The prototype installation of the polyfill (classlist.js:75-91) and the `forEach` helper (classlist.js:13-17), which becomes the `Add`/`Remove` loops.
- ClassListPolyfill.ClassList.Contains: states the token meaning only for non-empty names without whitespace; `EmptyNameGivesBack` shows what the empty name does. `regExp` does not escape its argument, and the model matches the name literally, so names containing any of `\ ^ $ . | ? * + ( ) [ ] { }` are not modelled faithfully.
- ClassListPolyfill.ClassList.Item: states the "i-th token" meaning only for a trimmed `className` (what `add` and `remove` leave behind). On a `className` with leading whitespace, `split` yields an empty first piece, which `item` turns into null.
- ClassListPolyfill.ToggleMembership: holds only when the name occurs at most once. `ToggleDuplicate` shows that it fails otherwise, because `remove` deletes only the first copy.
- Log messages (`console.debug` calls and log prefixes) and the plugin files `floatz.scroll.plugin.menu.js`, `floatz.scroll.plugin.nav.js` and `floatz.scroll.plugin.popupmenu.js`, which are DOM glue outside this core.
