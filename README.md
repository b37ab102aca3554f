# Full-page scroll controller

A model of `FullPageScroll`, the controller of a marketing site that snaps
the viewport between full-screen sections. It keeps an index
`activeScreen` into the fixed, non-empty sequence of screen ids, and a
cached `screenName` that is always the id at that index. Two triggers move
the index:

- a wheel event, which steps one screen forward or back, clamped at both ends;
- a change of the URL hash, which selects the first screen with that id, or screen 0.

A display update then runs four steps in a fixed order:

1. Record the current and previous screen names on the document body.
2. Show the active screen and hide the rest, either at once or through a
   timer when the screen's delay condition is met.
3. Highlight the menu link to the active screen.
4. Dispatch one `screenChanged` event.

The project has two modules:

- `ScrollSpec` (`scroll_spec.dfy`) holds the model on values. `Markup` is
  what is read once: screen ids, each screen's `data-delay` and
  `data-delay-prev-screen` (empty string for absent), and the menu links'
  `data-href`. `Page` is everything the controller changes. There is one
  function per step (`LogScreenOf`, `VisibilityOf`, `MenuOf`, `EmitOf`,
  `DisplayOf`, `ScrollOf`, `HashChangeOf`). The lemmas state what those
  steps promise.
- `ScrollController` (`scroll_controller.dfy`) holds the class
  `FullPageScroll`. The screen and menu class flags are arrays updated in
  place by loops, and the body dataset, the event log and the pending
  timer swaps are fields. Every method's `ensures` ties the new
  `PageView()` to the matching `ScrollSpec` function of the old one.
  `Valid()` is the invariant every method keeps: index in range, cached
  name equal to `ids[activeScreen]`, one flag per element.

Inputs from the browser become parameters. The document at construction
becomes a `Document` value. The URL hash becomes a `string`. A wheel event
becomes its three integer fields `deltaY`, `wheelDelta` and `detail`, with
a missing field read as 0.

## Model

| member | source | states |
|---|---|---|
| ScrollController.FullPageScroll.constructor | source/js/modules/full-page-scroll.js:4-18 | starts at screen 0 with the cached name equal to the first screen's id; the invariant holds and nothing has been sent |
| ScrollSpec.InitialPage | source/js/modules/full-page-scroll.js:14-15 | the start state is at index 0, satisfies the invariant, and has no events and no pending swaps |
| ScrollController.FullPageScroll.Init | source/js/modules/full-page-scroll.js:20-30 | start-up syncs the display with the current hash, exactly as a hash change does |
| ScrollSpec.ToInt32 | source/js/modules/full-page-scroll.js:33 | the operand of `>>` is wrapped into the signed 32-bit range: congruent modulo 2^32 and unchanged when already in range |
| ScrollSpec.RawDelta | source/js/modules/full-page-scroll.js:33 | the first non-zero of `deltaY`, `-wheelDelta` and `detail`, else `detail`; zero exactly when all three fields are zero |
| ScrollSpec.ShiftStep | source/js/modules/full-page-scroll.js:33 | the step `d >> 10`, with 0 replaced by 1, is never 0; it is positive exactly when the 32-bit delta is non-negative; it is 1 for 0..1023; otherwise it is the delta divided by 1024, rounded down |
| ScrollController.FullPageScroll.OnScroll | source/js/modules/full-page-scroll.js:32-41 | the new page is `ScrollOf` of the old one; the invariant is kept |
| ScrollSpec.ScrollOf | source/js/modules/full-page-scroll.js:32-41 | a scroll keeps the index in range and the cached name equal to the id at the index |
| ScrollSpec.ScrollMovesOrIsSilent | source/js/modules/full-page-scroll.js:34-40 | a scroll lands on the clamped neighbour; if that is the current screen nothing changes and nothing is sent, otherwise exactly one event naming the new screen is appended |
| ScrollSpec.ScrollsStayConsistent | source/js/modules/full-page-scroll.js:32-41 | over any run of wheel events the index stays in range, the cached name stays right, and the event log only grows |
| ScrollController.FullPageScroll.ReCalculateActiveScreenPosition | source/js/modules/full-page-scroll.js:107-118 | the index moves to `NextPosition` of the old one and the cached name follows it; nothing else changes |
| ScrollSpec.NextPosition | source/js/modules/full-page-scroll.js:107-115 | the new index is in range and is either the old index or its neighbour in the step's direction; it stays put exactly when stepping forward from the last screen or backward from screen 0 |
| ScrollController.FullPageScroll.OnUrlHashChanged | source/js/modules/full-page-scroll.js:43-50 | the new page is `HashChangeOf` of the old one; the invariant is kept |
| ScrollSpec.FirstIndex | source/js/modules/full-page-scroll.js:44-46 | the result is -1 exactly when the key is absent; otherwise it is the first index holding the key |
| ScrollSpec.HashKey | source/js/modules/full-page-scroll.js:45 | the hash with its first character removed; the empty hash gives the empty key |
| ScrollSpec.HashChangeOf | source/js/modules/full-page-scroll.js:43-50 | a hash change keeps the index in range and the cached name equal to the id at the index |
| ScrollSpec.HashChangeSelectsFirstMatch | source/js/modules/full-page-scroll.js:43-50 | the index becomes the first screen whose id is the hash minus its first character, or 0 when none is; exactly one event is sent even when the index did not change |
| ScrollController.FullPageScroll.ChangePageDisplay | source/js/modules/full-page-scroll.js:52-57 | the new page is `DisplayOf` of the old one: log, visibility, menu, event, in that order |
| ScrollSpec.DisplayOf | source/js/modules/full-page-scroll.js:52-57 | a display update keeps the invariant and does not move the index |
| ScrollController.FullPageScroll.LogScreen | source/js/modules/full-page-scroll.js:120-126 | only the two body fields change, as `LogScreenOf` says |
| ScrollSpec.LogScreenOf | source/js/modules/full-page-scroll.js:120-126 | only the two body fields change; the body name becomes the cached name; the previous name takes the old body name when that was non-empty and is kept otherwise, so it is empty only if both were |
| ScrollSpec.DisplayRecordsNames | source/js/modules/full-page-scroll.js:120-126 | the body name becomes the active screen's id; the old body name moves to the previous-name slot only when it was non-empty |
| ScrollController.FullPageScroll.ChangeVisibilityDisplay | source/js/modules/full-page-scroll.js:59-83 | either one pending swap is logged and no flag changes, or every screen flag is rewritten so only the active screen is shown and active |
| ScrollSpec.Deferred | source/js/modules/full-page-scroll.js:76 | a swap is deferred only for a screen with a delay and only when the previous screen name is non-empty |
| ScrollSpec.VisibilityOf | source/js/modules/full-page-scroll.js:59-83 | only the screen flags and the pending swaps change; when deferred one swap is logged and no flag changes, otherwise the active screen is the only one not hidden and the only one active |
| ScrollSpec.DisplaySwapsVisibility | source/js/modules/full-page-scroll.js:59-83 | the swap is deferred exactly when the screen has a delay and a previous-screen condition equal to the freshly recorded previous name, and then no flag changes; otherwise the active screen is the only one not hidden and the only one active |
| ScrollController.FullPageScroll.ChangeActiveMenuItem | source/js/modules/full-page-scroll.js:85-93 | only the menu flags change, as `MenuOf` says |
| ScrollSpec.MenuOf | source/js/modules/full-page-scroll.js:85-93 | only the menu flags change; when some link points to the active screen, exactly the links that are the first such are highlighted; otherwise the flags are left as they were |
| ScrollSpec.DisplayHighlightsMenu | source/js/modules/full-page-scroll.js:85-93 | when some link points to the active screen, the first such link is the only one highlighted; when none does, every menu flag is left as it was |
| ScrollController.FullPageScroll.EmitChangeDisplayEvent | source/js/modules/full-page-scroll.js:95-105 | only the event log changes: one `screenChanged` record is appended |
| ScrollSpec.EmitOf | source/js/modules/full-page-scroll.js:95-105 | only the event log changes; the old log is kept as a prefix and one record carrying the active index and cached name is added |
| ScrollSpec.DisplayEmitsEvent | source/js/modules/full-page-scroll.js:95-105 | each display update appends exactly one event, carrying the active index and that screen's id |

## Left out

- Throttling of wheel events (`lodash/throttle`, 2000 ms, leading and trailing edge) is not modelled. Each handled wheel event is one `OnScroll` call, and `Scrolls` is a run of such calls.
- Listener registration for `wheel`, `mousewheel`, `DOMMouseScroll` and `popstate` is browser plumbing and is not modelled. `Init` keeps only the initial hash sync.
- The timer that runs a deferred swap is not modelled. Each `setTimeout` call becomes one `PendingSwap` entry (screen index and delay string). So the model does not show the swap running later, nor overlapping timers racing.
- The DOM queries (`.screen:not(.screen--result)`, `.page-header__menu .js-menu-link`) are not modelled. Their results are given as the `Document` value's sequences.
- `CustomEvent` construction and dispatch are not modelled. Each dispatch becomes an appended `ScreenChanged(screenId, screenName)` record. The screen element in the payload is the element at `screenId` and is not recorded.
- ShiftStep: fractional and NaN wheel deltas are not modelled, because the fields are integers. JavaScript falsiness of the fields is modelled as "equal to 0", which matches an absent field, since `undefined >> 10` is 0.
- A menu link without `data-href` is modelled as `""`. This differs from the source only when a screen's id is also empty.
- If the document has no screens, the source constructor throws. The model instead requires at least one screen.
