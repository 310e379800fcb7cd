/**
 * One mounted list component: its refs are the fields of `Coordinator`, its
 * handlers the methods. Each method states its new state and its emitted
 * commands through the matching function of `ScrollSpec`, and the public
 * handlers keep the invariant of `ScrollTraces`.
 */
module ScrollCoordinator {
  import opened ScrollTypes
  import opened ScrollSpec
  import opened ScrollTraces

  class Coordinator<T> {
    /** The component's props, fixed for this instance. */
    const props: Config

    var shouldTriggerScrollEnd: bool
    var isScrolling: bool
    var isRecursiveScrolling: bool
    var scrollToOptions: Option<Request<T>>
    var scrollTimeout: Option<nat>

    // The event loop's view of this instance: deferred callbacks still to run.
    var pendingRetries: set<nat>
    var nextTimer: nat
    var pendingChecks: nat

    var opacity: Opacity

    /** Every call made on the widget, the caller's callbacks and the animated opacity, in order. */
    ghost var log: seq<Command<T>>

    ghost function Abs(): State<T>
      reads this
    {
      State(shouldTriggerScrollEnd, isScrolling, isRecursiveScrolling, scrollToOptions,
            scrollTimeout, pendingRetries, nextTimer, pendingChecks, opacity)
    }

    ghost predicate Valid()
      reads this
    {
      Inv(props, Abs())
    }

    /** The refs' initial values, then the layout effect that sets the opacity. */
    constructor (fadeInAfterScroll: Option<bool>, animatedScroll: Option<bool>, fadeInDuration: Option<int>)
      ensures props == ConfigOf(fadeInAfterScroll, animatedScroll, fadeInDuration)
      ensures Valid() && Abs() == Init(props) && log == []
    {
      props := ConfigOf(fadeInAfterScroll, animatedScroll, fadeInDuration);
      shouldTriggerScrollEnd := false;
      isScrolling := false;
      isRecursiveScrolling := false;
      scrollToOptions := None;
      scrollTimeout := None;
      pendingRetries := {};
      nextTimer := 0;
      pendingChecks := 0;
      log := [];
      new;
      if props.fadeInAfterScroll {
        opacity := Zero;
      } else {
        opacity := One;
      }
      InitInv<T>(props);
    }

    /** `resetScrollState`; like the next four, one step inside a handler, on a valid state. */
    method ResetScrollState()
      requires Valid()
      modifies this
      ensures Valid()
      ensures Abs() == ScrollSpec.ResetScrollState(old(Abs())) && log == old(log)
    {
      if scrollTimeout.Some? {
        pendingRetries := pendingRetries - {scrollTimeout.value};
      }
      isScrolling := false;
      isRecursiveScrolling := false;
      shouldTriggerScrollEnd := false;
    }

    /** `triggerScrollEnd`: schedules one completion check. */
    method TriggerScrollEnd()
      requires Valid()
      modifies this
      ensures Valid()
      ensures Abs() == ScrollSpec.TriggerScrollEnd(old(Abs())) && log == old(log)
    {
      pendingChecks := pendingChecks + 1;
    }

    /** The callback that `TriggerScrollEnd` scheduled, when the event loop runs it. */
    method CompletionCheck()
      requires Valid() && pendingChecks > 0
      modifies this
      ensures Valid()
      ensures Abs() == ScrollSpec.CompletionCheck(props, old(Abs())).state
      ensures log == old(log) + ScrollSpec.CompletionCheck(props, old(Abs())).cmds
    {
      ghost var s := Abs();
      ghost var log0 := log;
      ghost var r := ScrollSpec.CompletionCheck(props, s);
      pendingChecks := pendingChecks - 1;
      if shouldTriggerScrollEnd {
        log := log + [OnScrollEnd];
        shouldTriggerScrollEnd := false;
        ResetScrollState();
        if props.fadeInAfterScroll {
          ghost var stopped := StopFade(Abs());
          if opacity == FadingToOne {
            log := log + [OnFadeInEnd];
          }
          assert log == log0 + [OnScrollEnd] + stopped;
          opacity := FadingToOne;
          log := log + [FadeStart(props.fadeInDuration)];
          assert log == log0 + ([OnScrollEnd] + stopped + [FadeStart(props.fadeInDuration)]);
        }
      }
      assert Abs() == r.state && log == log0 + r.cmds;
    }

    /** The component's own `scrollToIndex`. */
    method ScrollToIndex(p: IndexParams)
      requires Valid()
      modifies this
      ensures Valid()
      ensures Abs() == ScrollSpec.ScrollToIndex(props, old(Abs()), p).state
      ensures log == old(log) + ScrollSpec.ScrollToIndex(props, old(Abs()), p).cmds
    {
      if !isRecursiveScrolling && isScrolling {
        ResetScrollState();
      }
      shouldTriggerScrollEnd := true;
      var stored := p.(animated := Coalesce(p.animated, props.animatedScroll));
      scrollToOptions := Some(ByIndex(stored));
      log := log + [WidgetScrollToIndex(stored)];
      isScrolling := true;
      TriggerScrollEnd();
    }

    /** The component's own `scrollToItem`. */
    method ScrollToItem(q: ItemParams<T>)
      requires Valid()
      modifies this
      ensures Valid()
      ensures Abs() == ScrollSpec.ScrollToItem(props, old(Abs()), q).state
      ensures log == old(log) + ScrollSpec.ScrollToItem(props, old(Abs()), q).cmds
    {
      shouldTriggerScrollEnd := true;
      var stored := q.(animated := Coalesce(q.animated, props.animatedScroll));
      scrollToOptions := Some(ByItem(stored));
      log := log + [WidgetScrollToItem(stored)];
      isScrolling := true;
      TriggerScrollEnd();
    }

    /** `resetOpacity`. */
    method ResetOpacity()
      requires Valid()
      modifies this
      ensures Valid()
      ensures Abs() == ScrollSpec.ResetOpacity(props, old(Abs())).state
      ensures log == old(log) + ScrollSpec.ResetOpacity(props, old(Abs())).cmds
    {
      if props.fadeInAfterScroll {
        if opacity == FadingToOne {
          log := log + [OnFadeInEnd];
        }
        opacity := Zero;
        log := log + [OpacityToZero];
      }
    }

    /** The widget's `onScrollToIndexFailed`. */
    method HandleOnScrollToIndexFailed(info: FailureInfo)
      requires Valid()
      modifies this
      ensures Valid()
      ensures Abs() == ScrollToIndexFailed(props, old(Abs()), info).state
      ensures log == old(log) + ScrollToIndexFailed(props, old(Abs()), info).cmds
    {
      ghost var s := Abs();
      shouldTriggerScrollEnd := false;
      var offset := EstimatedOffset(info);
      log := log + [WidgetScrollToOffset(offset, props.animatedScroll)];
      scrollTimeout := Some(nextTimer);
      pendingRetries := pendingRetries + {nextTimer};
      nextTimer := nextTimer + 1;
      log := log + [OnScrollToIndexFailed(info)];
      DeliverPreservesInv(props, s, IndexFailed(info));
    }

    /** The retry timer `id` that `HandleOnScrollToIndexFailed` scheduled fires. */
    method RetryTimerFires(id: nat)
      requires Valid() && id in pendingRetries
      modifies this
      ensures Valid()
      ensures Abs() == RetryFires(props, old(Abs()), id).state
      ensures log == old(log) + RetryFires(props, old(Abs()), id).cmds
    {
      ghost var s := Abs();
      pendingRetries := pendingRetries - {id};
      isRecursiveScrolling := true;
      if scrollToOptions.Some? {
        match scrollToOptions.value
        case ByItem(q) => ScrollToItem(q);
        case ByIndex(p) => ScrollToIndex(p);
      }
      DeliverPreservesInv(props, s, RetryDue(id));
    }

    /** `scrollToIndex` on the imperative handle. */
    method HandleScrollToIndex(p: IndexParams)
      requires Valid()
      modifies this
      ensures Valid()
      ensures Abs() == ScrollSpec.HandleScrollToIndex(props, old(Abs()), p).state
      ensures log == old(log) + ScrollSpec.HandleScrollToIndex(props, old(Abs()), p).cmds
    {
      ghost var s := Abs();
      if !isScrolling && !isRecursiveScrolling && !shouldTriggerScrollEnd {
        ResetOpacity();
      }
      isScrolling := true;
      isRecursiveScrolling := false;
      ScrollToIndex(p);
      DeliverPreservesInv(props, s, CallScrollToIndex(p));
    }

    /** `scrollToItem` on the imperative handle. */
    method HandleScrollToItem(q: ItemParams<T>)
      requires Valid()
      modifies this
      ensures Valid()
      ensures Abs() == ScrollSpec.HandleScrollToItem(props, old(Abs()), q).state
      ensures log == old(log) + ScrollSpec.HandleScrollToItem(props, old(Abs()), q).cmds
    {
      ghost var s := Abs();
      if !isScrolling && !isRecursiveScrolling && !shouldTriggerScrollEnd {
        ResetOpacity();
      }
      isScrolling := true;
      isRecursiveScrolling := false;
      ScrollToItem(q);
      DeliverPreservesInv(props, s, CallScrollToItem(q));
    }

    /** The completion callback of the fade started by `CompletionCheck`. */
    method FadeInEnd()
      requires Valid()
      modifies this
      ensures Valid()
      ensures Abs() == ScrollSpec.FadeInEnd(old(Abs())).state
      ensures log == old(log) + ScrollSpec.FadeInEnd(old(Abs())).cmds
    {
      ghost var s := Abs();
      if opacity == FadingToOne {
        opacity := One;
        log := log + [OnFadeInEnd];
      }
      DeliverPreservesInv(props, s, FadeDone);
    }
  }
}
