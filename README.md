# BidirectionalList scroll coordination, in Dafny

`BidirectionalList` is a React Native list that wraps a windowed list widget and
adds two things around the widget's `scrollToIndex` and `scrollToItem`: it detects
when a programmatic scroll has completed (the widget has no such event), and it
recovers when the widget reports that it could not scroll to an index. On a
failure the component scrolls to an estimated offset. It then retries the stored
request after a delay. It calls the caller's `onScrollEnd` once the scroll settles.
When `fadeInAfterScroll` is set, it hides the list before a scroll and fades it back
in afterwards, then calls `onFadeInEnd`.

This project models that coordination logic: the refs kept by the component, and
the handlers that update them.

- `types.dfy` (module `ScrollTypes`) holds the values involved: scroll options,
  the stored request, the failure report, the props and the commands the
  component emits.
- `transitions.dfy` (module `ScrollSpec`) gives each handler as a function from the old
  state to the new state and the commands it emits. Its contracts state what
  each handler does.
- `traces.dfy` (module `ScrollTraces`) delivers events from a nondeterministic
  environment: calls on the imperative handle, completion checks, failure reports,
  retry timers and the end of a fade. It proves properties over arbitrary event
  sequences, plus a few concrete scenarios.
- `coordinator.dfy` (module `ScrollCoordinator`) is the component itself: a class
  whose fields are the refs and whose methods are the handlers. Each method
  updates the fields in place, and its contract ties the new fields and the
  appended commands to the matching `ScrollSpec` function.

Deferred work is explicit state:
- the zero-delay completion checks are a counter, since they have no handle;
- the retry timers are a set of handles, with the handle kept in `scrollTimeout`
  beside it;
- `clearTimeout` removes a handle from that set.

The environment may deliver any pending callback at any time.

Four behaviours of the code shape the model:

- A new failure overwrites the stored retry handle (src/BidirectionalList.tsx:141)
  without calling `clearTimeout` on the earlier one, so both timers stay
  pending. Every retry timer has the same delay (:150), so the earlier one
  fires first. A reset (:65-66) cancels only the stored, later timer. If a
  reset comes before the earlier timer fires, that timer still re-issues
  whatever request is stored at that point (`ScrollTraces.RetryRestartsRunningFade`).
- Among the scroll calls, only the handle's `scrollToIndex` passes the reset
  test at :101-103. The handle's `scrollToItem`, and the internal
  `scrollToItem` it delegates to, never reset (:116-128). An armed completion
  check also resets (:78), and so it too cancels the stored timer.
- The handle's opacity test (:173-179) reads only the three flags
  `isScrolling`, `isRecursiveScrolling` and `shouldTriggerScrollEnd`. It does not
  look at pending retry timers.
- The fade's completion callback (:85-87) ignores its `finished` argument. The
  animation library calls it with `finished: false` when a running fade is
  stopped, so a stopped fade also calls `onFadeInEnd`. A fade is stopped by
  `setValue(0)` in `resetOpacity` (:132) and by a new timing animation started
  on the same value (:80-85). The model emits that `onFadeInEnd` at the point
  where the fade is stopped, before the opacity command that stops it
  (`ScrollTraces.RetryRestartsRunningFade`, `ScrollTraces.LeakedRetryAfterThirdScroll`).

## Model

| member | source | states |
|---|---|---|
| `ScrollTypes.ConfigOf` | src/BidirectionalList.tsx:31-36 | `fadeInDuration` defaults to 100 when absent; a missing `fadeInAfterScroll` counts as false; `animatedScroll` is passed on as given |
| `ScrollSpec.Init` | src/BidirectionalList.tsx:44-62 | all three flags start false, with no stored request and no stored handle; after the layout effect the opacity is 0 with fade-in and 1 without |
| `ScrollSpec.ResetScrollState` | src/BidirectionalList.tsx:64-71 | the three flags become false; the stored retry timer is cancelled and every other pending timer survives; request, handle, opacity and pending checks are unchanged |
| `ScrollSpec.CompletionCheck` | src/BidirectionalList.tsx:73-90 | when disarmed it emits nothing and changes nothing but consuming itself; when armed it emits `onScrollEnd` first; with fade-in, a fade still running then ends with `onFadeInEnd`, and a new fade starts; it leaves the component idle with the stored timer cancelled, every other timer pending, and the request, stored handle and timer counter kept |
| `ScrollSpec.ScrollToIndex` | src/BidirectionalList.tsx:99-114 | arms the completion and marks scrolling; stores the caller's options with `animated` defaulted to `animatedScroll` only when absent; emits exactly one widget `scrollToIndex` with them and schedules one check; cancels the stored retry exactly when not recursive and already scrolling |
| `ScrollSpec.ScrollToItem` | src/BidirectionalList.tsx:116-128 | the same as `ScrollToIndex` for an item request, except that no retry timer is ever cancelled |
| `ScrollSpec.ResetOpacity` | src/BidirectionalList.tsx:130-134 | with fade-in the opacity becomes 0 and that is the only state change, and a fade still running first ends with `onFadeInEnd`; without fade-in nothing changes |
| `ScrollSpec.ScrollToIndexFailed` | src/BidirectionalList.tsx:136-152 | disarms the completion; emits the offset scroll to `averageItemLength * index` with `animatedScroll`, then forwards the event to the caller last; the new timer becomes the stored handle while earlier timers stay pending; request, flags and opacity are unchanged |
| `ScrollSpec.RetryFires` | src/BidirectionalList.tsx:141-150 | sets `isRecursiveScrolling` and consumes the timer; with no stored request nothing else changes; otherwise it re-arms and re-issues the stored request unchanged, an item request as `scrollToItem` and an index request as `scrollToIndex`; the opacity is never touched |
| `ScrollSpec.HandleScrollToIndex` | src/BidirectionalList.tsx:170-184 | opacity goes to 0 exactly when fade-in is set and all three flags were false, and a fade that this stops emits `onFadeInEnd` first; the call always ends armed, scrolling and not recursive; it always cancels the stored retry timer, and it stores and emits the defaulted options |
| `ScrollSpec.HandleScrollToItem` | src/BidirectionalList.tsx:185-198 | the same opacity rule and flags as `HandleScrollToIndex`, but no retry timer is cancelled |
| `ScrollSpec.FadeInEnd` | src/BidirectionalList.tsx:85-87 | a fade that runs to its end reaches opacity 1 and calls `onFadeInEnd` once; otherwise nothing happens |
| `ScrollTraces.DeliverOpacity` | src/BidirectionalList.tsx:173-193 | across all event kinds, only a handle call from the idle state with fade-in set can drop the opacity to 0; a retry never changes the opacity |
| `ScrollTraces.InitInv` | src/BidirectionalList.tsx:44-62 | the initial state satisfies the invariant `Inv` |
| `ScrollTraces.DeliverPreservesInv` | src/BidirectionalList.tsx:64-198 | every event preserves `Inv`: handles are issued in increasing order; an armed completion implies scrolling; the stored request already carries its defaulted `animated`; without fade-in the opacity stays 1 |
| `ScrollTraces.RunPreservesInv` | src/BidirectionalList.tsx:64-198 | any sequence of events preserves `Inv` |
| `ScrollTraces.ReachableInv` | src/BidirectionalList.tsx:44-198 | every state reachable from the initial one satisfies `Inv` |
| `ScrollTraces.FailureTimerIsFresh` | src/BidirectionalList.tsx:141 | in a reachable state, the timer the failure handler schedules is not one already pending |
| `ScrollTraces.RetryReissuesStoredRequest` | src/BidirectionalList.tsx:141-150 | in a reachable state, a retry keeps the stored request and emits exactly that request again |
| `ScrollTraces.DeliverAccounting` | src/BidirectionalList.tsx:73-134 | per event: `onScrollEnd` calls plus the armed flag never exceed widget scrolls plus the earlier armed flag; fades equal `onScrollEnd` calls with fade-in and are absent without it; `onFadeInEnd` calls plus a running fade after the event equal fades plus a running fade before it |
| `ScrollTraces.RunAccounting` | src/BidirectionalList.tsx:73-134 | the same accounting holds over any sequence of events |
| `ScrollTraces.ScrollEndsNeverOutnumberScrolls` | src/BidirectionalList.tsx:73-134 | from the initial state, there are never more `onScrollEnd` calls than widget scroll commands; a fade starts once per `onScrollEnd` exactly when fade-in is set; every fade started has called `onFadeInEnd` exactly once, except one that is still running |
| `ScrollTraces.StaleChecksAreSilent` | src/BidirectionalList.tsx:73-77 | completion checks with no scroll call between them emit at most one `onScrollEnd`, and none once the flag is false |
| `ScrollTraces.ScrollWithoutFailureEndsOnce` | src/BidirectionalList.tsx:73-111 | a handle `scrollToIndex` with no failure, followed by two checks: exactly one `onScrollEnd` (plus the fade when configured), then idle; a fade running beforehand ends with `onFadeInEnd`, at the opacity reset when the component was idle and otherwise when the new fade starts |
| `ScrollTraces.FailedScrollIsRetried` | src/BidirectionalList.tsx:136-152 | a handle `scrollToIndex` that fails once: the offset scroll and the forwarded failure follow at once; the pending check emits no `onScrollEnd`; the retry re-issues the identical request as a recursive scroll |
| `ScrollTraces.FailureAtFiftyScrollsToOffset` | src/BidirectionalList.tsx:136-152 | from the initial state, a handle `scrollToIndex` to index 50 that fails with average item length 80: the request is stored with `animated` defaulted, the list scrolls to offset 4000 with `animatedScroll`, the failure is forwarded, and retry timer 0 is the stored pending handle |
| `ScrollTraces.TwoQuickScrollsEndOnce` | src/BidirectionalList.tsx:170-184 | two quick handle `scrollToIndex` calls with fade-in: one opacity reset, both widget scrolls, one `onScrollEnd` and one fade; the second check is stale |
| `ScrollTraces.ItemRetriesAccumulate` | src/BidirectionalList.tsx:141 | after two item scrolls that both fail, two retry timers are pending; fired back to back in the order they were scheduled, each re-issues the second request; a later handle `scrollToIndex` cancels only the stored one |
| `ScrollTraces.TwoFailedItemScrolls` | src/BidirectionalList.tsx:136-152 | two handle `scrollToItem` calls from the initial state, each followed by a failure: the exact commands, and a state with both retry timers pending and the second request stored |
| `ScrollTraces.LeakedRetryAfterThirdScroll` | src/BidirectionalList.tsx:73-90 | after `TwoFailedItemScrolls`, with fade-in: a third item scroll on the handle and its check end the scroll, start a fade and cancel only the stored timer; the earlier timer then re-issues the third request, and its check ends the scroll again, stops the running fade with `onFadeInEnd` and starts a new one |
| `ScrollTraces.RetryRestartsRunningFade` | src/BidirectionalList.tsx:80-87 | the two runs above in sequence, with timers firing in the order they were scheduled: a leaked retry that bypasses the handle restarts a running fade, whose `onFadeInEnd` comes between the second `onScrollEnd` and the new fade |
| `ScrollCoordinator.Coordinator.constructor` | src/BidirectionalList.tsx:44-62 | the fields start as `ScrollSpec.Init` of the props with an empty log, and the invariant holds |
| `ScrollCoordinator.Coordinator.ResetScrollState` | src/BidirectionalList.tsx:64-71 | the fields become `ScrollSpec.ResetScrollState` of the old fields; nothing is emitted; the invariant is kept |
| `ScrollCoordinator.Coordinator.TriggerScrollEnd` | src/BidirectionalList.tsx:73-74 | one more completion check is pending and nothing else changes; the invariant is kept |
| `ScrollCoordinator.Coordinator.CompletionCheck` | src/BidirectionalList.tsx:74-90 | the fields and appended commands are those of `ScrollSpec.CompletionCheck`; the invariant is kept |
| `ScrollCoordinator.Coordinator.ScrollToIndex` | src/BidirectionalList.tsx:99-114 | the fields and appended commands are those of `ScrollSpec.ScrollToIndex`; the invariant is kept |
| `ScrollCoordinator.Coordinator.ScrollToItem` | src/BidirectionalList.tsx:116-128 | the fields and appended commands are those of `ScrollSpec.ScrollToItem`; the invariant is kept |
| `ScrollCoordinator.Coordinator.ResetOpacity` | src/BidirectionalList.tsx:130-134 | the fields and appended commands are those of `ScrollSpec.ResetOpacity`; the invariant is kept |
| `ScrollCoordinator.Coordinator.HandleOnScrollToIndexFailed` | src/BidirectionalList.tsx:136-152 | the fields and appended commands are those of `ScrollSpec.ScrollToIndexFailed`; the invariant is kept |
| `ScrollCoordinator.Coordinator.RetryTimerFires` | src/BidirectionalList.tsx:141-150 | the fields and appended commands are those of `ScrollSpec.RetryFires`; the invariant is kept |
| `ScrollCoordinator.Coordinator.HandleScrollToIndex` | src/BidirectionalList.tsx:170-184 | the fields and appended commands are those of `ScrollSpec.HandleScrollToIndex`; the invariant is kept |
| `ScrollCoordinator.Coordinator.HandleScrollToItem` | src/BidirectionalList.tsx:185-198 | the fields and appended commands are those of `ScrollSpec.HandleScrollToItem`; the invariant is kept |
| `ScrollCoordinator.Coordinator.FadeInEnd` | src/BidirectionalList.tsx:85-87 | the fields and appended commands are those of `ScrollSpec.FadeInEnd`; the invariant is kept |

## Left out

- React rendering and JSX (src/BidirectionalList.tsx:204-216) and the `forwardRef` typing (:218-222) are out of scope: they are presentation only.
- The `useCallback` dependency arrays are left out. Each handler sees the current props and refs. Stale closures are not modelled because the props are fixed for one instance.
- Spreading the widget's own API into the handle (:166-169) is left out, and so are the `?.` cases of a missing widget ref. Widget calls appear only as commands in the log.
- The widget itself is not modelled: when it fails and how it measures items. Its failure report is an environment event that may arrive at any time.
- The widget reports a failure from inside its `scrollToIndex` call, so the handler runs before :110-111. The model delivers the report as a separate event. The failure handler touches neither `isScrolling` nor the completion checks, so the two orders reach the same state. This equivalence is not proved.
- Timer delays are left out: the zero delay of the completion check and `scrollTimeoutDuration`. Pending callbacks may run in any order, so `scrollTimeoutDuration` is not part of the model's props.
- Retry timers all share the delay `scrollTimeoutDuration` (:150), so in the component they fire in the order they were scheduled. The model drops that order: any pending timer may fire at any time. The lemmas over arbitrary event sequences therefore also cover orders the component cannot produce. The concrete scenarios from the initial state fire their timers in scheduling order.
- The fade animation's easing curve, duration timing and native driver (:80-87) are floating-point animation. The fade is the opacity state `FadingToOne`, the `FadeStart` command, and a later environment event that ends it.
- The animation library may run the completion callback of a stopped fade some time after the stop. The model places that `onFadeInEnd` at the stop itself, just before the opacity command that stopped the fade.
- Re-entrant calls are not modelled. A caller's callback (`onScrollEnd`, `onScrollToIndexFailed`, `onFadeInEnd`) may call the handle while a handler is still running; the model treats each callback as a log entry, and treats any call made from it as a later event. One consequence is not captured: a scroll started inside `onScrollEnd` would have its armed flag cleared by :77.
- Optional callbacks (`onScrollEnd`, `onScrollToIndexFailed`, `onFadeInEnd`) are always logged at the point where the component calls them. When the caller has not supplied one, that log entry stands for a call that does nothing.
- `EstimatedOffset` is the exact product of `averageItemLength` and `index`, not a floating-point one.
- Indices and durations are unbounded integers.
- Pagination callbacks and pass-through props (`...rest`) are left out: they only forward to the wrapped list.
- example/src/App.tsx is not part of this model: it is a demo screen with no coordination logic.
