/**
 * The component driven by its environment: the caller's calls on the handle,
 * and the deferred callbacks (completion checks, the widget's failure report,
 * retry timers, the end of a fade) delivered in any order. Properties that
 * span many events are proved here over arbitrary event sequences.
 */
module ScrollTraces {
  import opened ScrollTypes
  import opened ScrollSpec

  datatype Event<T> =
    | CallScrollToIndex(params: IndexParams)       // the caller, through the imperative handle
    | CallScrollToItem(itemParams: ItemParams<T>)  // the caller, through the imperative handle
    | CheckDue                                     // one scheduled completion check runs
    | IndexFailed(info: FailureInfo)               // the widget reports a failed scroll to an index
    | RetryDue(id: nat)                            // the retry timer with handle `id` fires
    | FadeDone                                     // the running fade reaches full opacity

  /**
   * One event. A deferred callback that is not pending (a completion check when
   * none is scheduled, a timer that was cleared or has fired, the end of a fade
   * when none runs) is never delivered, so it changes nothing here.
   */
  function Deliver<T>(cfg: Config, s: State<T>, ev: Event<T>): Step<T>
  {
    match ev
    case CallScrollToIndex(p) => HandleScrollToIndex(cfg, s, p)
    case CallScrollToItem(q) => HandleScrollToItem(cfg, s, q)
    case CheckDue => if s.pendingChecks > 0 then CompletionCheck(cfg, s) else Step(s, [])
    case IndexFailed(info) => ScrollToIndexFailed(cfg, s, info)
    case RetryDue(id) => if id in s.pendingRetries then RetryFires(cfg, s, id) else Step(s, [])
    case FadeDone => FadeInEnd(s)
  }

  /**
   * Across all event kinds, only a handle call from the idle state with fade-in
   * configured hides the list, and a retry never changes the opacity.
   */
  lemma DeliverOpacity<T>(cfg: Config, s: State<T>, ev: Event<T>)
    ensures var r := Deliver(cfg, s, ev);
      && (r.state.opacity == Zero && s.opacity != Zero ==>
            (ev.CallScrollToIndex? || ev.CallScrollToItem?) && Idle(s) && cfg.fadeInAfterScroll)
      && (OpacityToZero in r.cmds ==> (ev.CallScrollToIndex? || ev.CallScrollToItem?) && Idle(s))
      && (ev.RetryDue? ==> r.state.opacity == s.opacity)
  {
  }

  /** A sequence of events, delivered in order; the commands are concatenated. */
  function Run<T>(cfg: Config, s: State<T>, evs: seq<Event<T>>): Step<T>
    decreases |evs|
  {
    if evs == [] then Step(s, [])
    else
      var first := Deliver(cfg, s, evs[0]);
      var rest := Run(cfg, first.state, evs[1..]);
      Step(rest.state, first.cmds + rest.cmds)
  }

  /**
   * What holds of every reachable state: handles are issued in increasing order,
   * an armed completion belongs to a scroll in progress, the stored request
   * already carries its defaulted `animated`, and without fade-in the list stays
   * fully opaque.
   */
  ghost predicate Inv<T>(cfg: Config, s: State<T>)
  {
    && (forall id :: id in s.pendingRetries ==> id < s.nextTimer)
    && (s.scrollTimeout.Some? ==> s.scrollTimeout.value < s.nextTimer)
    && (s.shouldTriggerScrollEnd ==> s.isScrolling)
    && (s.request.Some? ==> Resolved(s.request.value, cfg.animatedScroll))
    && (!cfg.fadeInAfterScroll ==> s.opacity == One)
  }

  lemma InitInv<T>(cfg: Config)
    ensures Inv(cfg, Init<T>(cfg))
  {
  }

  lemma DeliverPreservesInv<T>(cfg: Config, s: State<T>, ev: Event<T>)
    requires Inv(cfg, s)
    ensures Inv(cfg, Deliver(cfg, s, ev).state)
  {
  }

  lemma {:induction false} RunPreservesInv<T>(cfg: Config, s: State<T>, evs: seq<Event<T>>)
    requires Inv(cfg, s)
    ensures Inv(cfg, Run(cfg, s, evs).state)
    decreases |evs|
  {
    if evs != [] {
      DeliverPreservesInv(cfg, s, evs[0]);
      RunPreservesInv(cfg, Deliver(cfg, s, evs[0]).state, evs[1..]);
    }
  }

  /** Every reachable state satisfies the invariant. */
  lemma ReachableInv<T>(cfg: Config, evs: seq<Event<T>>)
    ensures Inv(cfg, Run(cfg, Init<T>(cfg), evs).state)
  {
    InitInv<T>(cfg);
    RunPreservesInv(cfg, Init<T>(cfg), evs);
  }

  /** In a reachable state the failure handler's new timer is one that is not already pending. */
  lemma FailureTimerIsFresh<T>(cfg: Config, s: State<T>, info: FailureInfo)
    requires Inv(cfg, s)
    ensures var r := ScrollToIndexFailed(cfg, s, info).state;
      r.scrollTimeout.Some? && r.scrollTimeout.value !in s.pendingRetries && r.scrollTimeout.value in r.pendingRetries
  {
  }

  /**
   * In a reachable state a retry re-issues the stored request exactly as it was
   * stored: defaulting `animated` a second time changes nothing.
   */
  lemma RetryReissuesStoredRequest<T>(cfg: Config, s: State<T>, id: nat)
    requires Inv(cfg, s) && id in s.pendingRetries && s.request.Some?
    ensures var r := RetryFires(cfg, s, id);
      r.state.request == s.request && r.cmds == [Issue(s.request.value)]
  {
  }

  // ---------------------------------------------------------------------------
  // Counting commands in the emitted log

  datatype Kind = Ends | Scrolls | Fades | FadeEnds

  predicate Is<T>(c: Command<T>, k: Kind)
  {
    match k
    case Ends => c.OnScrollEnd?
    case Scrolls => c.WidgetScrollToIndex? || c.WidgetScrollToItem?
    case Fades => c.FadeStart?
    case FadeEnds => c.OnFadeInEnd?
  }

  function Count<T>(cmds: seq<Command<T>>, k: Kind): nat
  {
    if cmds == [] then 0 else (if Is(cmds[0], k) then 1 else 0) + Count(cmds[1..], k)
  }

  lemma {:induction false} CountAppend<T>(a: seq<Command<T>>, b: seq<Command<T>>, k: Kind)
    ensures Count(a + b, k) == Count(a, k) + Count(b, k)
  {
    if a == [] {
      assert a + b == b;
    } else {
      assert (a + b)[1..] == a[1..] + b;
      CountAppend(a[1..], b, k);
    }
  }

  /** 1 when a completion event is armed. */
  function Armed<T>(s: State<T>): nat
  {
    if s.shouldTriggerScrollEnd then 1 else 0
  }

  /** 1 when a fade is running. */
  function Fading<T>(s: State<T>): nat
  {
    if s.opacity == FadingToOne then 1 else 0
  }

  /** The accounting that one event keeps; `RunAccounting` sums it over a sequence. */
  ghost predicate Accounted<T>(cfg: Config, s: State<T>, r: Step<T>)
  {
    && Count(r.cmds, Ends) + Armed(r.state) <= Count(r.cmds, Scrolls) + Armed(s)
    && Count(r.cmds, Fades) == (if cfg.fadeInAfterScroll then Count(r.cmds, Ends) else 0)
    && Count(r.cmds, FadeEnds) + Fading(r.state) == Count(r.cmds, Fades) + Fading(s)
  }

  /** `Count` of at most three commands, spelled out. */
  lemma CountShort<T>(cmds: seq<Command<T>>, k: Kind)
    requires |cmds| <= 3
    ensures Count(cmds, k) == (if |cmds| >= 1 && Is(cmds[0], k) then 1 else 0)
                            + (if |cmds| >= 2 && Is(cmds[1], k) then 1 else 0)
                            + (if |cmds| == 3 && Is(cmds[2], k) then 1 else 0)
  {
  }

  /** `CountShort` for every kind at once. */
  lemma CountShortAll<T>(cmds: seq<Command<T>>)
    requires |cmds| <= 3
    ensures forall k: Kind :: Count(cmds, k) == (if |cmds| >= 1 && Is(cmds[0], k) then 1 else 0)
                                             + (if |cmds| >= 2 && Is(cmds[1], k) then 1 else 0)
                                             + (if |cmds| == 3 && Is(cmds[2], k) then 1 else 0)
  {
    forall k: Kind
      ensures Count(cmds, k) == (if |cmds| >= 1 && Is(cmds[0], k) then 1 else 0)
                              + (if |cmds| >= 2 && Is(cmds[1], k) then 1 else 0)
                              + (if |cmds| == 3 && Is(cmds[2], k) then 1 else 0)
    {
      CountShort(cmds, k);
    }
  }

  lemma CallIndexAccounting<T>(cfg: Config, s: State<T>, p: IndexParams)
    ensures Accounted(cfg, s, Deliver(cfg, s, CallScrollToIndex(p)))
  {
    CountShortAll(HandleScrollToIndex(cfg, s, p).cmds);
  }

  lemma CallItemAccounting<T>(cfg: Config, s: State<T>, q: ItemParams<T>)
    ensures Accounted(cfg, s, Deliver(cfg, s, CallScrollToItem(q)))
  {
    CountShortAll(HandleScrollToItem(cfg, s, q).cmds);
  }

  lemma CheckAccounting<T>(cfg: Config, s: State<T>)
    ensures Accounted(cfg, s, Deliver(cfg, s, CheckDue))
  {
    if s.pendingChecks > 0 && s.shouldTriggerScrollEnd {
      ArmedCheckAccounting(cfg, s);
    }
  }

  lemma ArmedCheckAccounting<T>(cfg: Config, s: State<T>)
    requires s.pendingChecks > 0 && s.shouldTriggerScrollEnd
    ensures Accounted(cfg, s, CompletionCheck(cfg, s))
  {
    var r := CompletionCheck(cfg, s);
    if !cfg.fadeInAfterScroll {
      assert r.cmds == [OnScrollEnd] && r.state.opacity == s.opacity;
    } else if s.opacity == FadingToOne {
      assert r.cmds == [OnScrollEnd, OnFadeInEnd, FadeStart(cfg.fadeInDuration)];
    } else {
      assert r.cmds == [OnScrollEnd, FadeStart(cfg.fadeInDuration)];
    }
    CountShortAll(r.cmds);
  }

  lemma FailureAccounting<T>(cfg: Config, s: State<T>, info: FailureInfo)
    ensures Accounted(cfg, s, Deliver(cfg, s, IndexFailed(info)))
  {
    CountShortAll(ScrollToIndexFailed(cfg, s, info).cmds);
  }

  lemma RetryAccounting<T>(cfg: Config, s: State<T>, id: nat)
    ensures Accounted(cfg, s, Deliver(cfg, s, RetryDue(id)))
  {
    CountShortAll(Deliver(cfg, s, RetryDue(id)).cmds);
  }

  lemma FadeAccounting<T>(cfg: Config, s: State<T>)
    ensures Accounted(cfg, s, Deliver(cfg, s, FadeDone))
  {
    CountShortAll(FadeInEnd(s).cmds);
  }

  lemma DeliverAccounting<T>(cfg: Config, s: State<T>, ev: Event<T>)
    ensures Accounted(cfg, s, Deliver(cfg, s, ev))
  {
    match ev
    case CallScrollToIndex(p) => CallIndexAccounting(cfg, s, p);
    case CallScrollToItem(q) => CallItemAccounting(cfg, s, q);
    case CheckDue => CheckAccounting(cfg, s);
    case IndexFailed(info) => FailureAccounting(cfg, s, info);
    case RetryDue(id) => RetryAccounting(cfg, s, id);
    case FadeDone => FadeAccounting(cfg, s);
  }

  /**
   * Over any sequence of events: every `onScrollEnd` is paid for by a widget
   * scroll command (or by the completion armed at the start), every fade starts
   * with an `onScrollEnd` exactly when fade-in is configured, and every fade
   * started ends with exactly one `onFadeInEnd`, whether it finishes or is
   * stopped, unless it is still running at the end.
   */
  lemma {:induction false} RunAccounting<T>(cfg: Config, s: State<T>, evs: seq<Event<T>>)
    ensures Accounted(cfg, s, Run(cfg, s, evs))
    decreases |evs|
  {
    if evs != [] {
      var first := Deliver(cfg, s, evs[0]);
      var rest := Run(cfg, first.state, evs[1..]);
      DeliverAccounting(cfg, s, evs[0]);
      RunAccounting(cfg, first.state, evs[1..]);
      CountAppend(first.cmds, rest.cmds, Ends);
      CountAppend(first.cmds, rest.cmds, Scrolls);
      CountAppend(first.cmds, rest.cmds, Fades);
      CountAppend(first.cmds, rest.cmds, FadeEnds);
    }
  }

  /**
   * From the initial state, whatever the environment does: there are never more
   * `onScrollEnd` calls than widget scrolls, a fade starts only with fade-in
   * configured and then once per `onScrollEnd`, and every fade but one still
   * running is matched by exactly one `onFadeInEnd`.
   */
  lemma ScrollEndsNeverOutnumberScrolls<T>(cfg: Config, evs: seq<Event<T>>)
    ensures var r := Run(cfg, Init<T>(cfg), evs);
      && Count(r.cmds, Ends) <= Count(r.cmds, Scrolls)
      && Count(r.cmds, Fades) == (if cfg.fadeInAfterScroll then Count(r.cmds, Ends) else 0)
      && Count(r.cmds, FadeEnds) + Fading(r.state) == Count(r.cmds, Fades)
  {
    RunAccounting(cfg, Init<T>(cfg), evs);
  }

  /**
   * Completion checks alone (no scroll call in between) emit at most one
   * `onScrollEnd`, and none at all once the completion is disarmed: a stale
   * check is a no-op.
   */
  lemma {:induction false} StaleChecksAreSilent<T>(cfg: Config, s: State<T>, evs: seq<Event<T>>)
    requires forall i :: 0 <= i < |evs| ==> evs[i].CheckDue?
    ensures var r := Run(cfg, s, evs);
      && Count(r.cmds, Ends) <= Armed(s)
      && (!s.shouldTriggerScrollEnd ==> r.cmds == [] && r.state.request == s.request && r.state.opacity == s.opacity)
    decreases |evs|
  {
    if evs != [] {
      var first := Deliver(cfg, s, evs[0]);
      StaleChecksAreSilent(cfg, first.state, evs[1..]);
      CountShort(first.cmds, Ends);
      CountAppend(first.cmds, Run(cfg, first.state, evs[1..]).cmds, Ends);
    }
  }

  // ---------------------------------------------------------------------------
  // Short runs, one event at a time

  /** `Run` on a sequence that starts with `ev`. */
  lemma RunCons<T>(cfg: Config, s: State<T>, ev: Event<T>, rest: seq<Event<T>>)
    ensures var first := Deliver(cfg, s, ev);
      var r := Run(cfg, first.state, rest);
      Run(cfg, s, [ev] + rest) == Step(r.state, first.cmds + r.cmds)
  {
    assert ([ev] + rest)[0] == ev;
    assert ([ev] + rest)[1..] == rest;
  }

  lemma RunTwo<T>(cfg: Config, s: State<T>, e1: Event<T>, e2: Event<T>)
    ensures var d1 := Deliver(cfg, s, e1);
      var d2 := Deliver(cfg, d1.state, e2);
      Run(cfg, s, [e1, e2]) == Step(d2.state, d1.cmds + d2.cmds)
  {
    var d1 := Deliver(cfg, s, e1);
    var d2 := Deliver(cfg, d1.state, e2);
    RunCons(cfg, d1.state, e2, []);
    assert [e2] + [] == [e2];
    RunCons(cfg, s, e1, [e2]);
    assert [e1] + [e2] == [e1, e2];
    assert d2.cmds + [] == d2.cmds;
  }

  lemma RunThree<T>(cfg: Config, s: State<T>, e1: Event<T>, e2: Event<T>, e3: Event<T>)
    ensures var d1 := Deliver(cfg, s, e1);
      var d2 := Deliver(cfg, d1.state, e2);
      var d3 := Deliver(cfg, d2.state, e3);
      Run(cfg, s, [e1, e2, e3]) == Step(d3.state, d1.cmds + d2.cmds + d3.cmds)
  {
    var d1 := Deliver(cfg, s, e1);
    RunTwo(cfg, d1.state, e2, e3);
    RunCons(cfg, s, e1, [e2, e3]);
    assert [e1] + [e2, e3] == [e1, e2, e3];
    var d2 := Deliver(cfg, d1.state, e2);
    Assoc(d1.cmds, d2.cmds, Deliver(cfg, d2.state, e3).cmds);
  }

  lemma RunFour<T>(cfg: Config, s: State<T>, e1: Event<T>, e2: Event<T>, e3: Event<T>, e4: Event<T>)
    ensures var d1 := Deliver(cfg, s, e1);
      var d2 := Deliver(cfg, d1.state, e2);
      var d3 := Deliver(cfg, d2.state, e3);
      var d4 := Deliver(cfg, d3.state, e4);
      Run(cfg, s, [e1, e2, e3, e4]) == Step(d4.state, d1.cmds + d2.cmds + d3.cmds + d4.cmds)
  {
    var d1 := Deliver(cfg, s, e1);
    var d2 := Deliver(cfg, d1.state, e2);
    var d3 := Deliver(cfg, d2.state, e3);
    var d4 := Deliver(cfg, d3.state, e4);
    RunThree(cfg, d1.state, e2, e3, e4);
    RunCons(cfg, s, e1, [e2, e3, e4]);
    assert [e1] + [e2, e3, e4] == [e1, e2, e3, e4];
    Assoc(d1.cmds, d2.cmds + d3.cmds, d4.cmds);
    Assoc(d1.cmds, d2.cmds, d3.cmds);
  }

  lemma Assoc<A>(a: seq<A>, b: seq<A>, c: seq<A>)
    ensures a + (b + c) == a + b + c
  {
  }

  // ---------------------------------------------------------------------------
  // Scenarios

  /**
   * A scroll to an index that fails once: the offset estimate is issued at
   * once, the pending completion check stays silent, and the retry timer
   * re-issues the same stored request, marked recursive.
   */
  lemma FailedScrollIsRetried<T>(cfg: Config, s: State<T>, p: IndexParams, info: FailureInfo)
    ensures var stored := p.(animated := Coalesce(p.animated, cfg.animatedScroll));
      var r := Run(cfg, s, [CallScrollToIndex(p), IndexFailed(info), CheckDue, RetryDue(s.nextTimer)]);
      && r.cmds == (if cfg.fadeInAfterScroll && Idle(s) then StopFade(s) + [OpacityToZero] else [])
                   + [WidgetScrollToIndex(stored)]
                   + [WidgetScrollToOffset(EstimatedOffset(info), cfg.animatedScroll), OnScrollToIndexFailed(info)]
                   + [WidgetScrollToIndex(stored)]
      && r.state.isRecursiveScrolling && r.state.shouldTriggerScrollEnd
      && r.state.request == Some(ByIndex(stored))
  {
    var stored := p.(animated := Coalesce(p.animated, cfg.animatedScroll));
    var h := HandleScrollToIndex(cfg, s, p);
    var f := ScrollToIndexFailed(cfg, h.state, info);
    var c := Deliver(cfg, f.state, CheckDue);
    var t := RetryFires(cfg, c.state, s.nextTimer);
    assert Deliver(cfg, s, CallScrollToIndex(p)) == h;
    assert Deliver(cfg, h.state, IndexFailed(info)) == f;
    assert c.cmds == [] && c.state.request == Some(ByIndex(stored)) && s.nextTimer in c.state.pendingRetries;
    assert Deliver(cfg, c.state, RetryDue(s.nextTimer)) == t;
    assert t.cmds == [WidgetScrollToIndex(stored)];
    RunFour(cfg, s, CallScrollToIndex(p), IndexFailed(info), CheckDue, RetryDue(s.nextTimer));
    assert h.cmds + f.cmds + c.cmds == h.cmds + f.cmds;
  }

  /** The completion check that follows a handle `scrollToIndex`. */
  lemma CheckAfterHandleScroll<T>(cfg: Config, s: State<T>, p: IndexParams)
    ensures var h := HandleScrollToIndex(cfg, s, p);
      var c := CompletionCheck(cfg, h.state);
      && c.cmds == [OnScrollEnd] + (if cfg.fadeInAfterScroll then (if Idle(s) then [] else StopFade(s)) + [FadeStart(cfg.fadeInDuration)] else [])
      && Idle(c.state) && c.state.request == h.state.request
  {
    var h := HandleScrollToIndex(cfg, s, p);
    assert h.state.shouldTriggerScrollEnd && h.state.pendingChecks > 0;
    assert cfg.fadeInAfterScroll ==> StopFade(h.state) == (if Idle(s) then [] else StopFade(s));
  }

  /**
   * A scroll on the handle that no failure interrupts: the next completion
   * check emits `onScrollEnd` once (followed by the fade when configured) and
   * returns the component to idle; a further check is then silent. A fade still
   * running when the scroll starts ends early, with its `onFadeInEnd`: when the
   * opacity is reset if the component was idle, else when the new fade starts.
   */
  lemma ScrollWithoutFailureEndsOnce<T>(cfg: Config, s: State<T>, p: IndexParams)
    ensures var stored := p.(animated := Coalesce(p.animated, cfg.animatedScroll));
      var r := Run(cfg, s, [CallScrollToIndex(p), CheckDue, CheckDue]);
      && r.cmds == (if cfg.fadeInAfterScroll && Idle(s) then StopFade(s) + [OpacityToZero] else [])
                   + [WidgetScrollToIndex(stored)]
                   + ([OnScrollEnd] + (if cfg.fadeInAfterScroll then (if Idle(s) then [] else StopFade(s)) + [FadeStart(cfg.fadeInDuration)] else []))
      && Idle(r.state) && r.state.request == Some(ByIndex(stored))
  {
    var h := HandleScrollToIndex(cfg, s, p);
    var c := CompletionCheck(cfg, h.state);
    CheckAfterHandleScroll(cfg, s, p);
    assert Deliver(cfg, s, CallScrollToIndex(p)) == h;
    assert Deliver(cfg, h.state, CheckDue) == c;
    var d := Deliver(cfg, c.state, CheckDue);
    assert d.cmds == [] && Idle(d.state) && d.state.request == c.state.request;
    RunThree(cfg, s, CallScrollToIndex(p), CheckDue, CheckDue);
    assert h.cmds + c.cmds + d.cmds == h.cmds + c.cmds;
  }

  /**
   * From the initial state, a scroll to index 50 that the widget reports as
   * failed, with items 80 units long on average: the list is sent to offset
   * 4000 with the component's `animatedScroll`, the failure is passed on to the
   * caller, the request stays stored for the retry timer 0.
   */
  lemma FailureAtFiftyScrollsToOffset<T>(cfg: Config, highest: int)
    ensures var p := IndexParams(50, None, None, None);
      var info := FailureInfo(50, highest, 80.0);
      var r := Run(cfg, Init<T>(cfg), [CallScrollToIndex(p), IndexFailed(info)]);
      && r.cmds == (if cfg.fadeInAfterScroll then [OpacityToZero] else [])
                   + [WidgetScrollToIndex(IndexParams(50, None, None, cfg.animatedScroll))]
                   + [WidgetScrollToOffset(4000.0, cfg.animatedScroll), OnScrollToIndexFailed(info)]
      && r.state.request == Some(ByIndex(IndexParams(50, None, None, cfg.animatedScroll)))
      && r.state.scrollTimeout == Some(0) && r.state.pendingRetries == {0}
      && !r.state.shouldTriggerScrollEnd && r.state.isScrolling
  {
    var p := IndexParams(50, None, None, None);
    var sp := IndexParams(50, None, None, cfg.animatedScroll);
    var info := FailureInfo(50, highest, 80.0);
    var o := if cfg.fadeInAfterScroll then Zero else One;
    var t1 := State(true, true, false, Some(ByIndex(sp)), None, {}, 0, 1, o);
    var t2 := State(false, true, false, Some(ByIndex(sp)), Some(0), {0}, 1, 1, o);
    assert EstimatedOffset(info) == 4000.0;
    assert Deliver(cfg, Init<T>(cfg), CallScrollToIndex(p))
        == Step(t1, (if cfg.fadeInAfterScroll then [OpacityToZero] else []) + [WidgetScrollToIndex(sp)]);
    assert Deliver(cfg, t1, IndexFailed(info))
        == Step(t2, [WidgetScrollToOffset(4000.0, cfg.animatedScroll), OnScrollToIndexFailed(info)]);
    RunTwo(cfg, Init<T>(cfg), CallScrollToIndex(p), IndexFailed(info));
  }

  /**
   * Two quick calls of the handle's `scrollToIndex` with fade-in configured: the
   * opacity is reset once, for the first call only; the first completion check
   * reports the end of the second scroll, and the second check is stale.
   */
  lemma TwoQuickScrollsEndOnce<T>(cfg: Config, p1: IndexParams, p2: IndexParams)
    requires cfg.fadeInAfterScroll
    ensures var r := Run(cfg, Init<T>(cfg), [CallScrollToIndex(p1), CallScrollToIndex(p2), CheckDue, CheckDue]);
      && r.cmds == [OpacityToZero, WidgetScrollToIndex(p1.(animated := Coalesce(p1.animated, cfg.animatedScroll)))]
                   + [WidgetScrollToIndex(p2.(animated := Coalesce(p2.animated, cfg.animatedScroll)))]
                   + [OnScrollEnd, FadeStart(cfg.fadeInDuration)]
      && Idle(r.state) && r.state.opacity == FadingToOne && r.state.pendingChecks == 0
  {
    var sp1 := p1.(animated := Coalesce(p1.animated, cfg.animatedScroll));
    var sp2 := p2.(animated := Coalesce(p2.animated, cfg.animatedScroll));
    var t1 := State(true, true, false, Some(ByIndex(sp1)), None, {}, 0, 1, Zero);
    var t2 := State(true, true, false, Some(ByIndex(sp2)), None, {}, 0, 2, Zero);
    var t3 := State(false, false, false, Some(ByIndex(sp2)), None, {}, 0, 1, FadingToOne);
    var t4 := t3.(pendingChecks := 0);
    var c1 := [OpacityToZero, WidgetScrollToIndex(sp1)];
    var c2 := [WidgetScrollToIndex(sp2)];
    var c3 := [OnScrollEnd, FadeStart(cfg.fadeInDuration)];
    assert Deliver(cfg, Init<T>(cfg), CallScrollToIndex(p1)) == Step(t1, c1);
    assert Deliver(cfg, t1, CallScrollToIndex(p2)) == Step(t2, c2);
    assert Deliver(cfg, t2, CheckDue) == Step(t3, c3);
    assert Deliver(cfg, t3, CheckDue) == Step(t4, []);
    RunFour(cfg, Init<T>(cfg), CallScrollToIndex(p1), CallScrollToIndex(p2), CheckDue, CheckDue);
    assert c1 + c2 + c3 + [] == c1 + c2 + c3;
  }

  /**
   * The failure handler overwrites the stored retry handle without clearing the
   * old timer, and the handle's `scrollToItem` cancels nothing: after two item
   * scrolls that both fail, two retry timers are pending; fired back to back in
   * the order they were scheduled, each re-issues the second request. A later `scrollToIndex` on the handle cancels only the
   * stored one.
   */
  lemma ItemRetriesAccumulate<T>(cfg: Config, q1: ItemParams<T>, q2: ItemParams<T>, f1: FailureInfo, f2: FailureInfo, p: IndexParams)
    ensures var stored := q2.(animated := Coalesce(q2.animated, cfg.animatedScroll));
      var r := Run(cfg, Init<T>(cfg), [CallScrollToItem(q1), IndexFailed(f1), CallScrollToItem(q2), IndexFailed(f2)]);
      && r.state.pendingRetries == {0, 1} && r.state.scrollTimeout == Some(1)
      && RetryFires(cfg, r.state, 0).cmds == [WidgetScrollToItem(stored)]
      && RetryFires(cfg, RetryFires(cfg, r.state, 0).state, 1).cmds == [WidgetScrollToItem(stored)]
      && HandleScrollToIndex(cfg, r.state, p).state.pendingRetries == {0}
  {
    TwoFailedItemScrolls(cfg, q1, q2, f1, f2);
  }

  /** Two item scrolls on the handle from the initial state, each reported as failed. */
  lemma TwoFailedItemScrolls<T>(cfg: Config, q1: ItemParams<T>, q2: ItemParams<T>, f1: FailureInfo, f2: FailureInfo)
    ensures var st1 := q1.(animated := Coalesce(q1.animated, cfg.animatedScroll));
      var st2 := q2.(animated := Coalesce(q2.animated, cfg.animatedScroll));
      Run(cfg, Init<T>(cfg), [CallScrollToItem(q1), IndexFailed(f1), CallScrollToItem(q2), IndexFailed(f2)])
      == Step(State(false, true, false, Some(ByItem(st2)), Some(1), {0, 1}, 2, 2, if cfg.fadeInAfterScroll then Zero else One),
              (if cfg.fadeInAfterScroll then [OpacityToZero] else []) + [WidgetScrollToItem(st1)]
              + [WidgetScrollToOffset(EstimatedOffset(f1), cfg.animatedScroll), OnScrollToIndexFailed(f1)]
              + [WidgetScrollToItem(st2)]
              + [WidgetScrollToOffset(EstimatedOffset(f2), cfg.animatedScroll), OnScrollToIndexFailed(f2)])
  {
    var st1 := q1.(animated := Coalesce(q1.animated, cfg.animatedScroll));
    var st2 := q2.(animated := Coalesce(q2.animated, cfg.animatedScroll));
    var o := if cfg.fadeInAfterScroll then Zero else One;
    var t1 := State(true, true, false, Some(ByItem(st1)), None, {}, 0, 1, o);
    var t2 := State(false, true, false, Some(ByItem(st1)), Some(0), {0}, 1, 1, o);
    var t3 := State(true, true, false, Some(ByItem(st2)), Some(0), {0}, 1, 2, o);
    var t4 := State(false, true, false, Some(ByItem(st2)), Some(1), {0, 1}, 2, 2, o);
    assert Deliver(cfg, Init<T>(cfg), CallScrollToItem(q1))
        == Step(t1, (if cfg.fadeInAfterScroll then [OpacityToZero] else []) + [WidgetScrollToItem(st1)]);
    assert Deliver(cfg, t1, IndexFailed(f1))
        == Step(t2, [WidgetScrollToOffset(EstimatedOffset(f1), cfg.animatedScroll), OnScrollToIndexFailed(f1)]);
    assert Deliver(cfg, t2, CallScrollToItem(q2)) == Step(t3, [WidgetScrollToItem(st2)]);
    assert Deliver(cfg, t3, IndexFailed(f2))
        == Step(t4, [WidgetScrollToOffset(EstimatedOffset(f2), cfg.animatedScroll), OnScrollToIndexFailed(f2)]);
    RunFour(cfg, Init<T>(cfg), CallScrollToItem(q1), IndexFailed(f1), CallScrollToItem(q2), IndexFailed(f2));
  }

  /**
   * After `TwoFailedItemScrolls`, with fade-in configured: a third item scroll
   * on the handle, its completion check, then the leaked earlier retry timer and
   * its check. The third scroll's completion cancels only the stored timer, so
   * the earlier one still fires and re-issues the third request.
   */
  lemma LeakedRetryAfterThirdScroll<T>(cfg: Config, st2: ItemParams<T>, q3: ItemParams<T>)
    requires cfg.fadeInAfterScroll
    ensures var st3 := q3.(animated := Coalesce(q3.animated, cfg.animatedScroll));
      Run(cfg, State(false, true, false, Some(ByItem(st2)), Some(1), {0, 1}, 2, 2, Zero),
          [CallScrollToItem(q3), CheckDue, RetryDue(0), CheckDue])
      == Step(State(false, false, false, Some(ByItem(st3)), Some(1), {}, 2, 2, FadingToOne),
              [WidgetScrollToItem(st3)] + [OnScrollEnd, FadeStart(cfg.fadeInDuration)]
              + [WidgetScrollToItem(st3)] + [OnScrollEnd, OnFadeInEnd, FadeStart(cfg.fadeInDuration)])
  {
    var st3 := q3.(animated := Coalesce(q3.animated, cfg.animatedScroll));
    assert st3.(animated := Coalesce(st3.animated, cfg.animatedScroll)) == st3;
    var t4 := State(false, true, false, Some(ByItem(st2)), Some(1), {0, 1}, 2, 2, Zero);
    var t5 := State(true, true, false, Some(ByItem(st3)), Some(1), {0, 1}, 2, 3, Zero);
    var t6 := State(false, false, false, Some(ByItem(st3)), Some(1), {0}, 2, 2, FadingToOne);
    var t7 := State(true, true, true, Some(ByItem(st3)), Some(1), {}, 2, 3, FadingToOne);
    var t8 := State(false, false, false, Some(ByItem(st3)), Some(1), {}, 2, 2, FadingToOne);
    assert Deliver(cfg, t4, CallScrollToItem(q3)) == Step(t5, [WidgetScrollToItem(st3)]);
    assert Deliver(cfg, t5, CheckDue) == Step(t6, [OnScrollEnd, FadeStart(cfg.fadeInDuration)]);
    assert Deliver(cfg, t6, RetryDue(0)) == Step(t7, [WidgetScrollToItem(st3)]);
    assert Deliver(cfg, t7, CheckDue) == Step(t8, [OnScrollEnd, OnFadeInEnd, FadeStart(cfg.fadeInDuration)]);
    RunFour(cfg, t4, CallScrollToItem(q3), CheckDue, RetryDue(0), CheckDue);
  }

  /**
   * With fade-in configured, two failed item scrolls leave two retry timers,
   * and only the later one is stored. A third item scroll ends normally and its
   * completion starts a fade and cancels the stored timer. The earlier timer
   * then re-issues the third request without passing through the handle, so its
   * completion starts a second fade over the running one, which ends early with
   * its `onFadeInEnd` between the second `onScrollEnd` and the new fade.
   */
  lemma RetryRestartsRunningFade<T>(cfg: Config, q1: ItemParams<T>, q2: ItemParams<T>, f1: FailureInfo, f2: FailureInfo, q3: ItemParams<T>)
    requires cfg.fadeInAfterScroll
    ensures var st3 := q3.(animated := Coalesce(q3.animated, cfg.animatedScroll));
      var m := Run(cfg, Init<T>(cfg), [CallScrollToItem(q1), IndexFailed(f1), CallScrollToItem(q2), IndexFailed(f2)]);
      var r := Run(cfg, m.state, [CallScrollToItem(q3), CheckDue, RetryDue(0), CheckDue]);
      && r.cmds == [WidgetScrollToItem(st3)] + [OnScrollEnd, FadeStart(cfg.fadeInDuration)]
                   + [WidgetScrollToItem(st3)] + [OnScrollEnd, OnFadeInEnd, FadeStart(cfg.fadeInDuration)]
      && Idle(r.state) && r.state.opacity == FadingToOne && r.state.pendingRetries == {}
  {
    TwoFailedItemScrolls(cfg, q1, q2, f1, f2);
    LeakedRetryAfterThirdScroll(cfg, q2.(animated := Coalesce(q2.animated, cfg.animatedScroll)), q3);
  }
}
