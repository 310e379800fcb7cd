/**
 * The scroll-coordination state of one list component and, for each of its
 * handlers, the new state and the commands the handler emits. Deferred work is
 * bookkeeping in the state: the zero-delay completion checks that
 * `triggerScrollEnd` schedules (they have no handle), and the retry timers the
 * failure handler schedules (they have handles, one of which is kept in
 * `scrollTimeout`).
 */
module ScrollSpec {
  import opened ScrollTypes

  /** The animated opacity of the list, abstracted from its real value. */
  datatype Opacity = Zero | FadingToOne | One

  datatype State<T> = State(
    shouldTriggerScrollEnd: bool,
    isScrolling: bool,
    isRecursiveScrolling: bool,
    request: Option<Request<T>>,   // scrollToOptions
    scrollTimeout: Option<nat>,    // the stored retry-timer handle
    pendingRetries: set<nat>,      // retry timers scheduled and neither fired nor cleared
    nextTimer: nat,                // the handle the next retry timer gets
    pendingChecks: nat,            // completion checks scheduled and not yet run
    opacity: Opacity)

  /** What one handler leaves behind: the new state and the commands it emitted, in order. */
  datatype Step<T> = Step(state: State<T>, cmds: seq<Command<T>>)

  /** No scroll is recognised as in progress, retried or awaiting its completion. */
  predicate Idle<T>(s: State<T>)
  {
    !s.isScrolling && !s.isRecursiveScrolling && !s.shouldTriggerScrollEnd
  }

  /** The refs as first rendered, after the layout effect has set the opacity. */
  function Init<T>(cfg: Config): (s: State<T>)
    ensures Idle(s) && s.request.None? && s.scrollTimeout.None?
    ensures s.pendingRetries == {} && s.pendingChecks == 0
    ensures cfg.fadeInAfterScroll ==> s.opacity == Zero
    ensures !cfg.fadeInAfterScroll ==> s.opacity == One
  {
    State(false, false, false, None, None, {}, 0, 0, if cfg.fadeInAfterScroll then Zero else One)
  }

  /** `resetScrollState`: clears the three flags and cancels the stored retry timer. */
  function ResetScrollState<T>(s: State<T>): (r: State<T>)
    ensures Idle(r)
    ensures s.scrollTimeout.Some? ==> s.scrollTimeout.value !in r.pendingRetries
    ensures r.pendingRetries <= s.pendingRetries
    ensures forall id :: id in s.pendingRetries && s.scrollTimeout != Some(id) ==> id in r.pendingRetries
    ensures r == s.(isScrolling := false, isRecursiveScrolling := false, shouldTriggerScrollEnd := false,
                    pendingRetries := r.pendingRetries)
  {
    var retries := if s.scrollTimeout.Some? then s.pendingRetries - {s.scrollTimeout.value} else s.pendingRetries;
    s.(isScrolling := false, isRecursiveScrolling := false, shouldTriggerScrollEnd := false,
       pendingRetries := retries)
  }

  /** `triggerScrollEnd`: schedules one more completion check. */
  function TriggerScrollEnd<T>(s: State<T>): State<T>
  {
    s.(pendingChecks := s.pendingChecks + 1)
  }

  /**
   * What stopping the opacity animation reports: the fade callback ignores its
   * `finished` argument, so a fade that is still running calls `onFadeInEnd`
   * when it is stopped, whether by `setValue` or by a new timing animation
   * started on the same value.
   */
  function StopFade<T>(s: State<T>): seq<Command<T>>
  {
    if s.opacity == FadingToOne then [OnFadeInEnd] else []
  }

  /** The zero-delay completion check that `triggerScrollEnd` schedules, when it runs. */
  function CompletionCheck<T>(cfg: Config, s: State<T>): (r: Step<T>)
    requires s.pendingChecks > 0
    ensures r.state.pendingChecks == s.pendingChecks - 1
    ensures !s.shouldTriggerScrollEnd ==> r.cmds == [] && r.state == s.(pendingChecks := s.pendingChecks - 1)
    ensures s.shouldTriggerScrollEnd ==>
      && Idle(r.state)
      && r.cmds == [OnScrollEnd] + (if cfg.fadeInAfterScroll then StopFade(s) + [FadeStart(cfg.fadeInDuration)] else [])
      && r.state.opacity == (if cfg.fadeInAfterScroll then FadingToOne else s.opacity)
      && (s.scrollTimeout.Some? ==> s.scrollTimeout.value !in r.state.pendingRetries)
      && r.state.pendingRetries == ResetScrollState(s).pendingRetries
      && r.state.request == s.request && r.state.scrollTimeout == s.scrollTimeout
      && r.state.nextTimer == s.nextTimer
  {
    var s0 := s.(pendingChecks := s.pendingChecks - 1);
    if !s0.shouldTriggerScrollEnd then
      Step(s0, [])
    else
      var s1 := ResetScrollState(s0.(shouldTriggerScrollEnd := false));
      if cfg.fadeInAfterScroll then
        Step(s1.(opacity := FadingToOne), [OnScrollEnd] + StopFade(s1) + [FadeStart(cfg.fadeInDuration)])
      else
        Step(s1, [OnScrollEnd])
  }

  /** The component's own `scrollToIndex`, as the handle and the retry timer call it. */
  function ScrollToIndex<T>(cfg: Config, s: State<T>, p: IndexParams): (r: Step<T>)
    ensures r.state.shouldTriggerScrollEnd && r.state.isScrolling
    ensures r.state.isRecursiveScrolling == s.isRecursiveScrolling
    ensures r.state.request.Some? && r.state.request.value.ByIndex?
    ensures IndexDefaulted(r.state.request.value.params, p, cfg.animatedScroll)
    ensures r.cmds == [WidgetScrollToIndex(r.state.request.value.params)]
    ensures r.state.pendingChecks == s.pendingChecks + 1
    ensures !s.isRecursiveScrolling && s.isScrolling ==> r.state.pendingRetries == ResetScrollState(s).pendingRetries
    ensures s.isRecursiveScrolling || !s.isScrolling ==> r.state.pendingRetries == s.pendingRetries
    ensures r.state.opacity == s.opacity && r.state.scrollTimeout == s.scrollTimeout && r.state.nextTimer == s.nextTimer
  {
    var s1 := if !s.isRecursiveScrolling && s.isScrolling then ResetScrollState(s) else s;
    var stored := p.(animated := Coalesce(p.animated, cfg.animatedScroll));
    var s2 := s1.(shouldTriggerScrollEnd := true, request := Some(ByIndex(stored)), isScrolling := true);
    Step(TriggerScrollEnd(s2), [WidgetScrollToIndex(stored)])
  }

  /** The component's own `scrollToItem`: like `scrollToIndex`, but it never resets the scroll state. */
  function ScrollToItem<T>(cfg: Config, s: State<T>, q: ItemParams<T>): (r: Step<T>)
    ensures r.state.shouldTriggerScrollEnd && r.state.isScrolling
    ensures r.state.isRecursiveScrolling == s.isRecursiveScrolling
    ensures r.state.request.Some? && r.state.request.value.ByItem?
    ensures ItemDefaulted(r.state.request.value.itemParams, q, cfg.animatedScroll)
    ensures r.cmds == [WidgetScrollToItem(r.state.request.value.itemParams)]
    ensures r.state.pendingChecks == s.pendingChecks + 1
    ensures r.state.pendingRetries == s.pendingRetries
    ensures r.state.opacity == s.opacity && r.state.scrollTimeout == s.scrollTimeout && r.state.nextTimer == s.nextTimer
  {
    var stored := q.(animated := Coalesce(q.animated, cfg.animatedScroll));
    var s1 := s.(shouldTriggerScrollEnd := true, request := Some(ByItem(stored)), isScrolling := true);
    Step(TriggerScrollEnd(s1), [WidgetScrollToItem(stored)])
  }

  /**
   * `resetOpacity`: hides the list when fading in after a scroll is configured;
   * `setValue(0)` first stops a fade that is still running.
   */
  function ResetOpacity<T>(cfg: Config, s: State<T>): (r: Step<T>)
    ensures cfg.fadeInAfterScroll ==> r.state == s.(opacity := Zero) && r.cmds == StopFade(s) + [OpacityToZero]
    ensures !cfg.fadeInAfterScroll ==> r.state == s && r.cmds == []
  {
    if cfg.fadeInAfterScroll then Step(s.(opacity := Zero), StopFade(s) + [OpacityToZero]) else Step(s, [])
  }

  /**
   * `handleOnScrollToIndexFailed`: disarms the completion event, scrolls to the
   * estimated offset, schedules a retry whose handle replaces the stored one
   * without clearing it, and forwards the event to the caller last.
   */
  function ScrollToIndexFailed<T>(cfg: Config, s: State<T>, info: FailureInfo): (r: Step<T>)
    ensures !r.state.shouldTriggerScrollEnd
    ensures r.cmds == [WidgetScrollToOffset(EstimatedOffset(info), cfg.animatedScroll),
                       OnScrollToIndexFailed(info)]
    ensures r.state.scrollTimeout == Some(s.nextTimer) && r.state.nextTimer > s.nextTimer
    ensures r.state.pendingRetries == s.pendingRetries + {s.nextTimer}
    ensures r.state.request == s.request && r.state.opacity == s.opacity && r.state.pendingChecks == s.pendingChecks
    ensures r.state.isScrolling == s.isScrolling && r.state.isRecursiveScrolling == s.isRecursiveScrolling
  {
    var offset := EstimatedOffset(info);
    var id := s.nextTimer;
    var s1 := s.(shouldTriggerScrollEnd := false, scrollTimeout := Some(id),
                 pendingRetries := s.pendingRetries + {id}, nextTimer := id + 1);
    Step(s1, [WidgetScrollToOffset(offset, cfg.animatedScroll), OnScrollToIndexFailed(info)])
  }

  /**
   * The retry timer `id` fires: it marks the scroll as recursive and re-issues
   * the stored request, by item when it is an item request and by index otherwise.
   */
  function RetryFires<T>(cfg: Config, s: State<T>, id: nat): (r: Step<T>)
    requires id in s.pendingRetries
    ensures r.state.isRecursiveScrolling
    ensures r.state.pendingRetries == s.pendingRetries - {id}
    ensures r.state.opacity == s.opacity && r.state.scrollTimeout == s.scrollTimeout
    ensures s.request.None? ==>
      r.cmds == [] && r.state == s.(isRecursiveScrolling := true, pendingRetries := s.pendingRetries - {id})
    ensures s.request.Some? ==>
      r.state.shouldTriggerScrollEnd && r.state.isScrolling && r.state.pendingChecks == s.pendingChecks + 1
    ensures s.request.Some? && Resolved(s.request.value, cfg.animatedScroll) ==>
      r.state.request == s.request && r.cmds == [Issue(s.request.value)]
  {
    var s0 := s.(pendingRetries := s.pendingRetries - {id}, isRecursiveScrolling := true);
    match s0.request
    case None => Step(s0, [])
    case Some(ByItem(q)) => ScrollToItem(cfg, s0, q)
    case Some(ByIndex(p)) => ScrollToIndex(cfg, s0, p)
  }

  /** The handle's `scrollToIndex`, the one the caller uses. */
  function HandleScrollToIndex<T>(cfg: Config, s: State<T>, p: IndexParams): (r: Step<T>)
    ensures r.state.opacity == (if cfg.fadeInAfterScroll && Idle(s) then Zero else s.opacity)
    ensures r.state.shouldTriggerScrollEnd && r.state.isScrolling && !r.state.isRecursiveScrolling
    ensures s.scrollTimeout.Some? ==> s.scrollTimeout.value !in r.state.pendingRetries
    ensures r.state.pendingRetries == ResetScrollState(s).pendingRetries
    ensures r.state.request.Some? && r.state.request.value.ByIndex?
    ensures IndexDefaulted(r.state.request.value.params, p, cfg.animatedScroll)
    ensures r.cmds == (if cfg.fadeInAfterScroll && Idle(s) then StopFade(s) + [OpacityToZero] else [])
                      + [WidgetScrollToIndex(r.state.request.value.params)]
    ensures r.state.pendingChecks == s.pendingChecks + 1
    ensures r.state.scrollTimeout == s.scrollTimeout && r.state.nextTimer == s.nextTimer
  {
    var s0 := if Idle(s) then ResetOpacity(cfg, s) else Step(s, []);
    var s1 := s0.state.(isScrolling := true, isRecursiveScrolling := false);
    var call := ScrollToIndex(cfg, s1, p);
    Step(call.state, s0.cmds + call.cmds)
  }

  /** The handle's `scrollToItem`: it arms the scroll but, unlike `scrollToIndex`, cancels no retry timer. */
  function HandleScrollToItem<T>(cfg: Config, s: State<T>, q: ItemParams<T>): (r: Step<T>)
    ensures r.state.opacity == (if cfg.fadeInAfterScroll && Idle(s) then Zero else s.opacity)
    ensures r.state.shouldTriggerScrollEnd && r.state.isScrolling && !r.state.isRecursiveScrolling
    ensures r.state.pendingRetries == s.pendingRetries
    ensures r.state.request.Some? && r.state.request.value.ByItem?
    ensures ItemDefaulted(r.state.request.value.itemParams, q, cfg.animatedScroll)
    ensures r.cmds == (if cfg.fadeInAfterScroll && Idle(s) then StopFade(s) + [OpacityToZero] else [])
                      + [WidgetScrollToItem(r.state.request.value.itemParams)]
    ensures r.state.pendingChecks == s.pendingChecks + 1
    ensures r.state.scrollTimeout == s.scrollTimeout && r.state.nextTimer == s.nextTimer
  {
    var s0 := if Idle(s) then ResetOpacity(cfg, s) else Step(s, []);
    var s1 := s0.state.(isScrolling := true, isRecursiveScrolling := false);
    var call := ScrollToItem(cfg, s1, q);
    Step(call.state, s0.cmds + call.cmds)
  }

  /** The fade started after a completed scroll finishes and calls `onFadeInEnd`. */
  function FadeInEnd<T>(s: State<T>): (r: Step<T>)
    ensures s.opacity == FadingToOne ==> r.state == s.(opacity := One) && r.cmds == [OnFadeInEnd]
    ensures s.opacity != FadingToOne ==> r.state == s && r.cmds == []
  {
    if s.opacity == FadingToOne then Step(s.(opacity := One), [OnFadeInEnd]) else Step(s, [])
  }
}
