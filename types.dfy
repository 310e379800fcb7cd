/** Values exchanged between the list component, its caller and the wrapped windowed list. */
module ScrollTypes {

  /** An optional value; `None` stands for a property that is `undefined` (or `null`). */
  datatype Option<T> = None | Some(value: T)

  /** Nullish coalescing, `a ?? d`. */
  function Coalesce<A>(a: Option<A>, d: Option<A>): Option<A>
  {
    if a.Some? then a else d
  }

  /** The argument of the widget's `scrollToIndex`. */
  datatype IndexParams = IndexParams(
    index: int,
    viewOffset: Option<real>,
    viewPosition: Option<real>,
    animated: Option<bool>)

  /** The argument of the widget's `scrollToItem`; the item is compared by identity only. */
  datatype ItemParams<T> = ItemParams(
    item: T,
    viewPosition: Option<real>,
    animated: Option<bool>)

  /** The last scroll request kept in `scrollToOptions`: an item request is the one that has an `item` key. */
  datatype Request<T> = ByIndex(params: IndexParams) | ByItem(itemParams: ItemParams<T>)
  {
    function Animated(): Option<bool>
    {
      match this
      case ByIndex(p) => p.animated
      case ByItem(q) => q.animated
    }
  }

  /** `stored` is the caller's `given` index options with `animated` replaced by `given.animated ?? animatedScroll`. */
  ghost predicate IndexDefaulted(stored: IndexParams, given: IndexParams, animatedScroll: Option<bool>)
  {
    && stored.(animated := given.animated) == given
    && stored.animated == (if given.animated.Some? then given.animated else animatedScroll)
  }

  /** The same defaulting for item options. */
  ghost predicate ItemDefaulted<T>(stored: ItemParams<T>, given: ItemParams<T>, animatedScroll: Option<bool>)
  {
    && stored.(animated := given.animated) == given
    && stored.animated == (if given.animated.Some? then given.animated else animatedScroll)
  }

  /** A request whose `animated` would not change if it were defaulted once more. */
  predicate Resolved<T>(req: Request<T>, animatedScroll: Option<bool>)
  {
    req.Animated().Some? || animatedScroll.None?
  }

  /** What the widget reports to `onScrollToIndexFailed`. */
  datatype FailureInfo = FailureInfo(index: int, highestMeasuredFrameIndex: int, averageItemLength: real)

  /**
   * The offset the failure handler scrolls to: the widget's average item length
   * times the index it failed to reach (an exact product here).
   */
  function EstimatedOffset(info: FailureInfo): real
  {
    info.averageItemLength * (info.index as real)
  }

  /** The component's own props, fixed for one instance. */
  datatype Config = Config(fadeInAfterScroll: bool, animatedScroll: Option<bool>, fadeInDuration: int)

  /**
   * The props as the caller passes them, with the defaults of the component's
   * parameter list applied: a missing `fadeInDuration` is 100 and a missing
   * `fadeInAfterScroll` is falsy.
   */
  function ConfigOf(fadeInAfterScroll: Option<bool>, animatedScroll: Option<bool>, fadeInDuration: Option<int>): (c: Config)
    ensures c.fadeInAfterScroll <==> fadeInAfterScroll == Some(true)
    ensures c.animatedScroll == animatedScroll
    ensures fadeInDuration.None? ==> c.fadeInDuration == 100
    ensures fadeInDuration.Some? ==> c.fadeInDuration == fadeInDuration.value
  {
    Config(
      fadeInAfterScroll == Some(true),
      animatedScroll,
      match fadeInDuration case Some(d) => d case None => 100)
  }

  /**
   * Everything the component does that is observable from outside: calls on the
   * widget, calls of the caller's callbacks, and changes to the animated opacity.
   */
  datatype Command<T> =
    | WidgetScrollToIndex(indexParams: IndexParams)
    | WidgetScrollToItem(params: ItemParams<T>)
    | WidgetScrollToOffset(offset: real, offsetAnimated: Option<bool>)
    | OnScrollEnd
    | OpacityToZero
    | FadeStart(duration: int)
    | OnFadeInEnd
    | OnScrollToIndexFailed(info: FailureInfo)

  /** The widget command that re-issues a stored request. */
  function Issue<T>(req: Request<T>): Command<T>
  {
    match req
    case ByIndex(p) => WidgetScrollToIndex(p)
    case ByItem(q) => WidgetScrollToItem(q)
  }
}
