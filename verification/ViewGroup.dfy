/**
 * The popup view group (`ReactionViewGroup.kt`): it holds one `ReactionView`
 * per configured reaction, places itself next to the view that opened it,
 * lays out its background and icons, and turns touches into selections. Its
 * state and animation fields change only through the setter modelled by
 * `States.Assign`. Animation time is replaced by explicit progress and end
 * events, each delivered with what its animation captured when it was built.
 */
module ViewGroup {
  import opened Common
  import opened Model
  import opened ReactionViews
  import opened Geometry
  import opened States

  /** What the application's listeners have been told, in order. */
  datatype Notification =
    | ReactionSelected(position: int)
    | PopupStateChanged(isShowing: bool)
    | PopupDismissed

  datatype MotionAction = ActionDown | ActionUp | ActionMove | ActionCancel | ActionOther(code: int)

  /** A touch event; raw coordinates already rounded to whole pixels. */
  datatype MotionEvent = MotionEvent(action: MotionAction, rawX: int, rawY: int)

  /** The location caches of the icons, in order. */
  function Caches(views: seq<ReactionView>): (c: seq<Point>)
    reads views`cached
    ensures |c| == |views|
    decreases |views|
  {
    if views == [] then [] else [views[0].cached] + Caches(views[1..])
  }

  /** The caches are `c` exactly when every icon's cache holds the matching element of `c`. */
  lemma {:induction false} CachesAre(views: seq<ReactionView>, c: seq<Point>)
    requires |c| == |views|
    ensures Caches(views) == c <==> forall i :: 0 <= i < |views| ==> views[i].cached == c[i]
    decreases |views|
  {
    if views != [] {
      CachesAre(views[1..], c[1..]);
      assert forall i :: 1 <= i < |views| ==> views[i] == views[1..][i - 1] && c[i] == c[1..][i - 1];
      assert c == [c[0]] + c[1..];
    }
  }

  /** The caches after the first `count` icons had their `location` read, in order. */
  function AfterReads(cached: seq<Point>, onScreen: seq<Point>, count: int): (c: seq<Point>)
    requires |onScreen| == |cached|
    ensures |c| == |cached|
    ensures forall i :: 0 <= i < |cached| && i < count ==> c[i] == ReadLocation(cached[i], onScreen[i])
    ensures forall i :: 0 <= i < |cached| && count <= i ==> c[i] == cached[i]
  {
    seq(|cached|, i requires 0 <= i < |cached| => if i < count then ReadLocation(cached[i], onScreen[i]) else cached[i])
  }

  /** The hit boxes of the icons, each read through its `location` with the given screen position. */
  function HitBoxes(views: seq<ReactionView>, onScreen: seq<Point>, m: Metrics): (boxes: seq<Box>)
    requires |onScreen| == |views|
    reads views`cached, views`measuredWidth, views`measuredHeight
    ensures |boxes| == |views|
    decreases |views|
  {
    if views == [] then []
    else
      [HitBox(ReadLocation(views[0].cached, onScreen[0]), views[0].measuredWidth, views[0].measuredHeight, m)]
      + HitBoxes(views[1..], onScreen[1..], m)
  }

  /** Each icon's hit box is read from its own cache, screen position and measured size. */
  lemma {:induction false} HitBoxesAre(views: seq<ReactionView>, onScreen: seq<Point>, m: Metrics)
    requires |onScreen| == |views|
    ensures forall i :: 0 <= i < |views| ==>
      HitBoxes(views, onScreen, m)[i]
      == HitBox(ReadLocation(views[i].cached, onScreen[i]), views[i].measuredWidth, views[i].measuredHeight, m)
    decreases |views|
  {
    if views != [] {
      HitBoxesAre(views[1..], onScreen[1..], m);
      assert forall i :: 1 <= i < |views| ==> views[i] == views[1..][i - 1] && onScreen[i] == onScreen[1..][i - 1];
    }
  }

  /** The first box holding the point is the one found after passing over boxes that do not. */
  lemma FirstHitAt(boxes: seq<Box>, x: int, y: int, i: nat)
    requires i < |boxes| && Contains(boxes[i], x, y)
    requires forall j :: 0 <= j < i ==> !Contains(boxes[j], x, y)
    ensures FirstHit(boxes, x, y) == Some(i)
  {
  }

  /** How many icons `getIntersectedIcon` reads, out of `n`, before it stops with `hit`. */
  function ReadCount(hit: Option<nat>, n: nat): int {
    if hit.Some? then hit.value + 1 else n
  }

  /** The measured widths of the icons, in order. */
  function MeasuredWidths(views: seq<ReactionView>): (w: seq<int>)
    reads views`measuredWidth
    ensures |w| == |views|
    ensures forall i :: 0 <= i < |views| ==> w[i] == views[i].measuredWidth
    decreases |views|
  {
    if views == [] then [] else [views[0].measuredWidth] + MeasuredWidths(views[1..])
  }

  class ReactionViewGroup {
    const config: ReactionsConfig
    /** The paddings, divider and icon and popup sizes fixed at construction. */
    const metrics: Metrics
    /** One icon per configured reaction, in order. */
    const reactions: seq<ReactionView>
    /** Where each icon sits in `reactions`; it makes the icons pairwise distinct. */
    ghost const positions: map<ReactionView, int>

    /** The group's own size, as the platform last reported it. */
    var width: int
    var height: int
    var firstClick: Point
    var parentLocation: Point
    var parentSize: Size
    var dialogX: int
    var dialogY: int

    var currentState: Option<ViewState>
    var currentAnimator: Option<Animator>
    /** The layout size (width and height) of each icon. */
    var iconSizes: seq<int>
    /** The background's layout height. */
    var backgroundHeight: int
    /** The height the last background resize animation heads for. */
    var backgroundResizeTarget: Option<int>
    var backgroundFrame: Frame
    var textVisible: bool
    var text: Option<string>

    var isFirstTouchAlwaysInsideButton: bool
    var isIgnoringFirstReaction: bool
    var isAnimating: bool
    var visible: bool
    var showPoint: Option<Point>

    /** The listeners the application installed; only whether the last two are set matters. */
    var reactionSelectedListener: Option<int -> bool>
    var hasPopupStateChangeListener: bool
    var hasDismissListener: bool
    var notifications: seq<Notification>

    /** Each icon is recorded at its own position, so no icon occurs twice. */
    ghost predicate IconsIndexed() {
      forall i :: 0 <= i < |reactions| ==> reactions[i] in positions && positions[reactions[i]] == i
    }

    /** One distinct icon, built from its own reaction, per configured reaction. */
    ghost predicate ViewsValid() {
      && 1 <= |reactions| == |config.reactions|
      && (forall i :: 0 <= i < |reactions| ==> reactions[i].reaction == config.reactions[i] && reactions[i].Built())
      && IconsIndexed()
    }

    /** What the state setter reads and writes. */
    function CurrentScene(): Scene
      reads this`currentState, this`currentAnimator, this`textVisible, this`iconSizes,
            this`backgroundHeight, this`backgroundResizeTarget, this`isAnimating
    {
      Scene(currentState, currentAnimator, textVisible, iconSizes, backgroundHeight, backgroundResizeTarget, isAnimating)
    }

    ghost predicate Valid()
      reads this`currentState, this`currentAnimator, this`textVisible, this`iconSizes,
            this`backgroundHeight, this`backgroundResizeTarget, this`isAnimating
    {
      ViewsValid() && SceneValid(CurrentScene(), |reactions|)
    }

    /** The position reported to the selection listener: the first configured reaction equal to the hit one. */
    function Position(hit: Option<nat>): (p: int)
      requires hit.Some? ==> hit.value < |config.reactions|
      ensures -1 <= p < |config.reactions|
      ensures hit.None? ==> p == -1
      ensures hit.Some? ==> 0 <= p <= hit.value && config.reactions[p] == config.reactions[hit.value]
      ensures hit.Some? ==> forall j :: 0 <= j < p ==> config.reactions[j] != config.reactions[hit.value]
    {
      if hit.None? then -1 else IndexOf(config.reactions, config.reactions[hit.value])
    }

    /**
     * When no two configured reactions are equal (as with reactions built from
     * resource ids) the listener receives exactly the hit icon's index.
     */
    lemma PositionIsHitIndex(k: nat)
      requires Distinct(config.reactions) && k < |config.reactions|
      ensures Position(Some(k)) == k
    {
      IndexOfDistinct(config.reactions, k);
    }

    // ------------------------------------------------------------ construction

    constructor (config: ReactionsConfig, iconDivider: Option<int>)
      requires |config.reactions| >= 1
      ensures Valid()
      ensures this.config == config && metrics == PopupMetrics(config, iconDivider)
      ensures forall i :: 0 <= i < |reactions| ==> fresh(reactions[i]) && reactions[i].cached == Point(0, 0)
      ensures currentState == None && currentAnimator == None
      ensures iconSizes == SizeTargets(metrics, |reactions|, None)
      ensures backgroundHeight == metrics.dialogHeight && backgroundResizeTarget == None
      ensures !textVisible && text == None
      ensures isFirstTouchAlwaysInsideButton && !isIgnoringFirstReaction && !isAnimating
      ensures visible && showPoint == None && dialogX == 0 && dialogY == 0
      ensures reactionSelectedListener == None && !hasPopupStateChangeListener && !hasDismissListener
      ensures notifications == []
    {
      var views: seq<ReactionView> := [];
      ghost var index: map<ReactionView, int> := map[];
      var i := 0;
      while i < |config.reactions|
        invariant 0 <= i <= |config.reactions| && |views| == i
        invariant forall j :: 0 <= j < i ==>
          fresh(views[j]) && views[j].reaction == config.reactions[j] && views[j].Built() && views[j].cached == Point(0, 0)
        invariant forall j :: 0 <= j < i ==> views[j] in index && index[views[j]] == j
      {
        var v := new ReactionView(config.reactions[i]);
        views := views + [v];
        index := index[v := i];
        i := i + 1;
      }
      var m := PopupMetrics(config, iconDivider);
      this.config := config;
      metrics := m;
      reactions := views;
      positions := index;
      width, height := 0, 0;
      firstClick, parentLocation, parentSize := Point(0, 0), Point(0, 0), Size(0, 0);
      dialogX, dialogY := 0, 0;
      currentState, currentAnimator := None, None;
      iconSizes := SizeTargets(m, |views|, None);
      backgroundHeight, backgroundResizeTarget := m.dialogHeight, None;
      backgroundFrame := Frame(0, 0, 0, 0);
      textVisible, text := false, None;
      isFirstTouchAlwaysInsideButton, isIgnoringFirstReaction, isAnimating := true, false, false;
      visible, showPoint := true, None;
      reactionSelectedListener, hasPopupStateChangeListener, hasDismissListener := None, false, false;
      notifications := [];
    }

    // ------------------------------------------------------------ setters

    /** The `currentAnimator` setter: the new animation replaces the old one and hides the text. */
    method SetAnimator(a: Animator)
      modifies this`currentAnimator, this`textVisible
      ensures currentAnimator == Some(a) && !textVisible
    {
      currentAnimator := Some(a);
      textVisible := false;
    }

    /** The `currentState` setter. */
    method SetState(value: Option<ViewState>)
      requires Valid()
      requires value.Some? ==> StateFits(value.value, |reactions|)
      modifies this`currentState, this`currentAnimator, this`textVisible, this`iconSizes,
               this`backgroundHeight, this`backgroundResizeTarget, this`isAnimating
      ensures Valid()
      ensures CurrentScene() == Assign(old(CurrentScene()), value, metrics, config.dismissAnimationEnabled)
    {
      AssignKeepsSceneValid(CurrentScene(), value, metrics, config.dismissAnimationEnabled, |reactions|);
      if IsRepeat(currentState, value) {
        return;
      }
      currentState := value;
      match value {
        case None =>
        case Some(s) =>
          match s {
            case Appear(_) => AnimTranslationY(s);
            case Disappear(_, _) => AnimTranslationY(s);
            case WaitingSelection =>
              backgroundResizeTarget := Some(metrics.mediumIconSize);
              AnimSize(None);
            case Selected(v) =>
              backgroundResizeTarget := Some(metrics.smallIconSize);
              AnimSize(Some(v));
          }
      }
    }

    /** Every icon and the background back to the medium size, as the appear animation's preparation does. */
    method ResetSizes()
      modifies this`iconSizes, this`backgroundHeight
      ensures iconSizes == SizeTargets(metrics, |old(iconSizes)|, None) && backgroundHeight == metrics.mediumIconSize
    {
      backgroundHeight := metrics.mediumIconSize;
      var i := 0;
      while i < |iconSizes|
        invariant 0 <= i <= |iconSizes| == |old(iconSizes)|
        invariant backgroundHeight == metrics.mediumIconSize
        invariant forall j :: 0 <= j < i ==> iconSizes[j] == metrics.mediumIconSize
      {
        iconSizes := iconSizes[i := metrics.mediumIconSize];
        i := i + 1;
      }
      assert forall j :: 0 <= j < |iconSizes| ==> iconSizes[j] == SizeTargets(metrics, |old(iconSizes)|, None)[j];
    }

    /** `animTranslationY`: prepares the views and starts the slide of a boundary state. */
    method AnimTranslationY(boundary: ViewState)
      requires boundary.Appear? || boundary.Disappear?
      modifies this`currentAnimator, this`textVisible, this`iconSizes, this`backgroundHeight, this`isAnimating
      ensures currentAnimator == Some(BoundaryAnimator(boundary)) && !textVisible
      ensures boundary.Appear? ==>
        iconSizes == SizeTargets(metrics, |old(iconSizes)|, None) && backgroundHeight == metrics.mediumIconSize
      ensures boundary.Disappear? ==> iconSizes == old(iconSizes) && backgroundHeight == old(backgroundHeight)
      ensures isAnimating == (old(isAnimating) || (boundary.Disappear? && boundary.selectedView.Some? && config.dismissAnimationEnabled))
    {
      if boundary.Appear? {
        ResetSizes();
      }
      if boundary.Disappear? && boundary.selectedView.Some? && config.dismissAnimationEnabled {
        isAnimating := true;
      }
      SetAnimator(BoundaryAnimator(boundary));
    }

    /** `animSize`: starts moving every icon from its current size towards its target. */
    method AnimSize(selected: Option<nat>)
      modifies this`currentAnimator, this`textVisible
      ensures currentAnimator == Some(SizeAnimator(selected, SizePaths(metrics, iconSizes, selected))) && !textVisible
    {
      var paths := SizePaths(metrics, iconSizes, selected);
      SetAnimator(SizeAnimator(selected, paths));
    }

    // ------------------------------------------------------------ placement and layout

    /** `onSizeChanged`: places the popup for the group's new size. */
    method OnSizeChanged(w: int, h: int)
      modifies this`width, this`height, this`dialogX, this`dialogY
      ensures width == w && height == h
      ensures dialogX == DialogX(config, metrics, firstClick, parentLocation, parentSize, w)
      ensures dialogY == DialogY(config, metrics, parentLocation, parentSize)
    {
      width, height := w, h;
      var x := GravityX(config, metrics, firstClick, parentLocation, parentSize, w);
      if x < 0 || x + metrics.dialogWidth >= w {
        x := Max(0, TruncDiv(w - metrics.dialogWidth, 2));
      }
      dialogX := x;
      var y := parentLocation.y - (metrics.dialogHeight + config.upwardPopupMargin);
      if y < config.downwardPopupPoint {
        y := parentLocation.y + parentSize.height + config.downwardPopupMargin;
      }
      dialogY := y;
    }

    /** `onMeasure`: every icon is measured to its layout size. */
    method MeasureChildren()
      requires Valid()
      modifies reactions`childMeasuredWidth, reactions`childMeasuredHeight,
               reactions`measuredWidth, reactions`measuredHeight
      ensures forall i :: 0 <= i < |reactions| ==>
        && reactions[i].Valid()
        && reactions[i].measuredWidth == iconSizes[i] && reactions[i].measuredHeight == iconSizes[i]
    {
      var i := 0;
      while i < |reactions|
        invariant 0 <= i <= |reactions|
        invariant forall j :: 0 <= j < i ==>
          && reactions[j].Valid()
          && reactions[j].measuredWidth == iconSizes[j] && reactions[j].measuredHeight == iconSizes[j]
      {
        var v := reactions[i];
        assert forall j :: 0 <= j < |reactions| && j != i ==> reactions[j] != v;
        v.OnMeasure(iconSizes[i], iconSizes[i]);
        i := i + 1;
      }
    }

    /**
     * `onLayout`: the background spans the popup and keeps its bottom edge;
     * icons are laid out left to right from the popup's padding, bottoms on
     * the popup's inner bottom, each clamped into the group's own bounds.
     */
    method OnLayout(bounds: Frame, translationX: int, translationY: int)
      requires IconsIndexed()
      modifies this`backgroundFrame, reactions`frame
      ensures backgroundFrame == BackgroundFrame(metrics, dialogX, dialogY, backgroundHeight, translationX, translationY)
      ensures forall i :: 0 <= i < |reactions| ==>
        reactions[i].frame == IconFrame(metrics, dialogX, dialogY,
                                        RowOffset(MeasuredWidths(reactions)[..i], metrics.iconDivider),
                                        reactions[i].measuredWidth, reactions[i].measuredHeight, bounds)
    {
      backgroundFrame := Frame(dialogX + translationX,
                               dialogY + metrics.mediumIconSize - backgroundHeight + translationY,
                               dialogX + metrics.dialogWidth + translationX,
                               dialogY + metrics.dialogHeight + translationY);
      LayoutIcons(bounds);
    }

    /** The icon half of `onLayout`: each icon right of the previous one, a divider apart. */
    method LayoutIcons(bounds: Frame)
      requires IconsIndexed()
      modifies reactions`frame
      ensures forall i :: 0 <= i < |reactions| ==>
        reactions[i].frame == IconFrame(metrics, dialogX, dialogY,
                                        RowOffset(MeasuredWidths(reactions)[..i], metrics.iconDivider),
                                        reactions[i].measuredWidth, reactions[i].measuredHeight, bounds)
    {
      var widths := MeasuredWidths(reactions);
      var prevX := 0;
      var i := 0;
      while i < |reactions|
        invariant 0 <= i <= |reactions|
        invariant prevX == RowOffset(widths[..i], metrics.iconDivider)
        invariant forall j :: 0 <= j < i ==>
          reactions[j].frame == IconFrame(metrics, dialogX, dialogY, RowOffset(widths[..j], metrics.iconDivider),
                                          widths[j], reactions[j].measuredHeight, bounds)
      {
        var v := reactions[i];
        var w, h := v.measuredWidth, v.measuredHeight;
        assert w == widths[i];
        LayoutIcon(v, i, IconFrame(metrics, dialogX, dialogY, prevX, w, h, bounds));
        RowOffsetStep(widths, i, metrics.iconDivider);
        prevX := prevX + w + metrics.iconDivider;
        i := i + 1;
      }
      assert MeasuredWidths(reactions) == widths;
    }

    /** `reactions[i].layout`: only that icon's frame changes. */
    method LayoutIcon(v: ReactionView, i: nat, f: Frame)
      requires IconsIndexed() && i < |reactions| && v == reactions[i]
      modifies v`frame
      ensures v.frame == f
      ensures forall j :: 0 <= j < |reactions| && j != i ==> reactions[j].frame == old(reactions[j].frame)
    {
      assert forall j :: 0 <= j < |reactions| && j != i ==> reactions[j] != v;
      v.Layout(f);
    }

    // ------------------------------------------------------------ show and dismiss

    /**
     * `show`: remembers the touch point and the parent's place and size,
     * starts ignoring the first reaction, places the popup and makes it appear.
     */
    method Show(event: MotionEvent, parentLocation: Point, parentSize: Size)
      requires Valid()
      modifies this`showPoint, this`firstClick, this`parentLocation, this`parentSize,
               this`isFirstTouchAlwaysInsideButton, this`isIgnoringFirstReaction,
               this`width, this`height, this`dialogX, this`dialogY, this`visible,
               this`currentState, this`currentAnimator, this`textVisible, this`iconSizes,
               this`backgroundHeight, this`backgroundResizeTarget, this`isAnimating
      ensures Valid()
      ensures showPoint == Some(Point(event.rawX, event.rawY)) && firstClick == Point(event.rawX, event.rawY)
      ensures this.parentLocation == parentLocation && this.parentSize == parentSize
      ensures isFirstTouchAlwaysInsideButton && isIgnoringFirstReaction && visible
      ensures width == old(width) && height == old(height)
      ensures dialogX == DialogX(config, metrics, firstClick, parentLocation, parentSize, width)
      ensures dialogY == DialogY(config, metrics, parentLocation, parentSize)
      ensures CurrentScene() ==
        Assign(old(CurrentScene()), Some(Appear(Path(metrics.dialogHeight, 0))), metrics, config.dismissAnimationEnabled)
    {
      Place(event, parentLocation, parentSize);
      SetState(Some(Appear(Path(metrics.dialogHeight, 0))));
    }

    /** The placement half of `show`: the touch point and parent are remembered and the popup placed. */
    method Place(event: MotionEvent, parentLocation: Point, parentSize: Size)
      modifies this`showPoint, this`firstClick, this`parentLocation, this`parentSize,
               this`isFirstTouchAlwaysInsideButton, this`isIgnoringFirstReaction,
               this`width, this`height, this`dialogX, this`dialogY, this`visible
      ensures showPoint == Some(Point(event.rawX, event.rawY)) && firstClick == Point(event.rawX, event.rawY)
      ensures this.parentLocation == parentLocation && this.parentSize == parentSize
      ensures isFirstTouchAlwaysInsideButton && isIgnoringFirstReaction && visible
      ensures width == old(width) && height == old(height)
      ensures dialogX == DialogX(config, metrics, firstClick, parentLocation, parentSize, width)
      ensures dialogY == DialogY(config, metrics, parentLocation, parentSize)
    {
      showPoint, firstClick := Some(Point(event.rawX, event.rawY)), Point(event.rawX, event.rawY);
      this.parentLocation, this.parentSize := parentLocation, parentSize;
      isFirstTouchAlwaysInsideButton, isIgnoringFirstReaction := true, true;
      OnSizeChanged(width, height);
      visible := true;
    }

    /** `dismiss`: tells the state listener the popup is closing, then slides it out unless it is already gone. */
    method Dismiss()
      requires Valid()
      modifies this`notifications,
               this`currentState, this`currentAnimator, this`textVisible, this`iconSizes,
               this`backgroundHeight, this`backgroundResizeTarget, this`isAnimating
      ensures Valid()
      ensures notifications == old(notifications) + (if hasPopupStateChangeListener then [PopupStateChanged(false)] else [])
      ensures CurrentScene() == DismissScene(old(CurrentScene()), metrics, config.dismissAnimationEnabled)
    {
      if hasPopupStateChangeListener {
        notifications := notifications + [PopupStateChanged(false)];
      }
      if currentState == None {
        return;
      }
      SetState(Some(DisappearFrom(currentState.value, metrics.dialogHeight)));
    }

    /** `onDismissed`: hides the popup, forgets its state and tells the dismiss listener. */
    method OnDismissed()
      requires Valid()
      modifies this`visible, this`showPoint, this`notifications,
               this`currentState, this`currentAnimator, this`textVisible, this`iconSizes,
               this`backgroundHeight, this`backgroundResizeTarget, this`isAnimating
      ensures Valid()
      ensures !visible && showPoint == None
      ensures CurrentScene() == old(CurrentScene()).(state := None)
      ensures notifications == old(notifications) + (if hasDismissListener then [PopupDismissed] else [])
    {
      visible := false;
      SetState(None);
      if hasDismissListener {
        notifications := notifications + [PopupDismissed];
      }
      showPoint := None;
    }

    /** `resetChildrenToNormalSize`. */
    method ResetChildrenToNormalSize()
      requires Valid()
      modifies this`currentState, this`currentAnimator, this`textVisible, this`iconSizes,
               this`backgroundHeight, this`backgroundResizeTarget, this`isAnimating
      ensures Valid()
      ensures CurrentScene() == Assign(old(CurrentScene()), Some(WaitingSelection), metrics, config.dismissAnimationEnabled)
    {
      SetState(Some(WaitingSelection));
    }

    // ------------------------------------------------------------ animation events

    /**
     * The end of a boundary animation that captured `boundary`: appearing
     * leads to waiting for a selection; disappearing closes the popup unless
     * the shoot of a selected view will do so.
     */
    method OnBoundaryAnimationEnd(boundary: ViewState)
      requires Valid() && (boundary.Appear? || boundary.Disappear?)
      modifies this`visible, this`showPoint, this`notifications,
               this`currentState, this`currentAnimator, this`textVisible, this`iconSizes,
               this`backgroundHeight, this`backgroundResizeTarget, this`isAnimating
      ensures Valid()
      ensures boundary.Appear? ==>
        && CurrentScene() == Assign(old(CurrentScene()), Some(WaitingSelection), metrics, config.dismissAnimationEnabled)
        && visible == old(visible) && showPoint == old(showPoint) && notifications == old(notifications)
      ensures boundary.Disappear? && (boundary.selectedView.None? || !config.dismissAnimationEnabled) ==>
        && !visible && showPoint == None
        && CurrentScene() == old(CurrentScene()).(state := None)
        && notifications == old(notifications) + (if hasDismissListener then [PopupDismissed] else [])
      ensures boundary.Disappear? && boundary.selectedView.Some? && config.dismissAnimationEnabled ==>
        unchanged(this)
    {
      if boundary.Appear? {
        SetState(Some(WaitingSelection));
      } else if boundary.selectedView.None? || !config.dismissAnimationEnabled {
        OnDismissed();
      }
    }

    /** The end of the selected view's shoot: touches are accepted again and the popup closes. */
    method OnShootEnd()
      requires Valid()
      modifies this`visible, this`showPoint, this`notifications,
               this`currentState, this`currentAnimator, this`textVisible, this`iconSizes,
               this`backgroundHeight, this`backgroundResizeTarget, this`isAnimating
      ensures Valid()
      ensures !isAnimating && !visible && showPoint == None
      ensures CurrentScene() == old(CurrentScene()).(state := None, isAnimating := false)
      ensures notifications == old(notifications) + (if hasDismissListener then [PopupDismissed] else [])
    {
      isAnimating := false;
      OnDismissed();
    }

    /** One frame of a resize animation: every icon takes its size along its path. */
    method OnSizeAnimationProgress(paths: seq<Path>, progress: real)
      requires Valid() && |paths| == |reactions|
      modifies this`iconSizes
      ensures Valid()
      ensures CurrentScene() == old(CurrentScene()).(iconSizes := SizesAt(paths, progress))
    {
      var i := 0;
      while i < |reactions|
        invariant 0 <= i <= |reactions| == |iconSizes|
        invariant forall j :: 0 <= j < i ==> iconSizes[j] == ProgressMove(paths[j].from, paths[j].to, progress)
      {
        iconSizes := iconSizes[i := ProgressMove(paths[i].from, paths[i].to, progress)];
        i := i + 1;
      }
      assert iconSizes == SizesAt(paths, progress);
    }

    /**
     * The end of a resize animation that captured `selected`: the selected
     * icon's text, when the provider has one, is shown. A failing provider
     * throws, and the error is returned.
     */
    method OnSizeAnimationEnd(selected: Option<nat>) returns (thrown: Option<ConfigError>)
      requires Valid() && (selected.Some? ==> selected.value < |reactions|)
      modifies this`text, this`textVisible
      ensures Valid()
      ensures selected.None? ==> thrown == None && text == old(text) && textVisible == old(textVisible)
      ensures selected.Some? ==>
        match ProvideText(config.reactionTextProvider, selected.value)
        case Failure(e) => thrown == Some(e) && text == old(text) && textVisible == old(textVisible)
        case Success(None) => thrown == None && text == old(text) && textVisible == old(textVisible)
        case Success(Some(t)) => thrown == None && text == Some(t) && textVisible
    {
      thrown := None;
      if selected.None? {
        return;
      }
      var v := selected.value;
      var position := IndexOf(reactions, reactions[v]);
      IndexOfDistinct(reactions, v);
      match ProvideText(config.reactionTextProvider, position) {
        case Failure(e) => thrown := Some(e);
        case Success(None) =>
        case Success(Some(t)) =>
          text := Some(t);
          textVisible := true;
      }
    }

    // ------------------------------------------------------------ touch

    /** Whether the selection listener asks to keep the popup open after `position` is reported. */
    predicate KeepsOpen(position: int)
      reads this`reactionSelectedListener
    {
      reactionSelectedListener.Some? && !reactionSelectedListener.value(position)
    }

    /** What the listeners are told when an up reports `position`: the selection, then the closing if it closes. */
    function SelectionNotices(position: int): (n: seq<Notification>)
      reads this`reactionSelectedListener, this`hasPopupStateChangeListener
      ensures reactionSelectedListener.None? ==> n == (if hasPopupStateChangeListener then [PopupStateChanged(false)] else [])
      ensures reactionSelectedListener.Some? ==> |n| >= 1 && n[0] == ReactionSelected(position)
      ensures PopupStateChanged(false) in n <==> !KeepsOpen(position) && hasPopupStateChangeListener
    {
      (if reactionSelectedListener.Some? then [ReactionSelected(position)] else [])
      + (if !KeepsOpen(position) && hasPopupStateChangeListener then [PopupStateChanged(false)] else [])
    }

    /** Stores the two flags that follow the first touch. */
    method SetTouchFlags(inside: bool, ignoring: bool)
      modifies this`isFirstTouchAlwaysInsideButton, this`isIgnoringFirstReaction
      ensures isFirstTouchAlwaysInsideButton == inside && isIgnoringFirstReaction == ignoring
    {
      isFirstTouchAlwaysInsideButton, isIgnoringFirstReaction := inside, ignoring;
    }

    /** `inInsideParentView`. */
    predicate InInsideParentView(event: MotionEvent)
      reads this`parentLocation, this`parentSize
    {
      InsideParent(event.rawX, event.rawY, parentLocation, parentSize)
    }

    /**
     * What a down or a move leaves behind: the inside-the-parent flag can
     * only fall; the first reaction stays ignored while the finger stays
     * inside the parent or right below the first icon; otherwise, unless the
     * popup is appearing, the icon under the finger is tracked.
     */
    twostate predicate DownOrMoveDone(event: MotionEvent, first: ViewBounds, onScreen: seq<Point>)
      requires |onScreen| == |reactions|
      reads this, reactions`cached
    {
      var inside := old(isFirstTouchAlwaysInsideButton) && InInsideParentView(event);
      var ignoring := old(isIgnoringFirstReaction) &&
        (BelowFirstReaction(event.rawX, event.rawY, first, metrics.dialogHeight) || inside);
      var tracked := !ignoring && !(old(currentState).Some? && old(currentState).value.Appear?);
      && isFirstTouchAlwaysInsideButton == inside
      && isIgnoringFirstReaction == ignoring
      && notifications == old(notifications)
      && (tracked ==> Tracked(event, onScreen))
      && (!tracked ==> CurrentScene() == old(CurrentScene()) && Caches(reactions) == old(Caches(reactions)))
    }

    /**
     * What tracking leaves behind: the state follows the first icon whose hit
     * box holds the finger, and the icons up to it have had their location read.
     */
    twostate predicate Tracked(event: MotionEvent, onScreen: seq<Point>)
      requires |onScreen| == |reactions|
      reads this, reactions`cached
    {
      var hit := FirstHit(old(HitBoxes(reactions, onScreen, metrics)), event.rawX, event.rawY);
      && CurrentScene() == TrackScene(old(CurrentScene()), hit, metrics, config.dismissAnimationEnabled)
      && Caches(reactions) == AfterReads(old(Caches(reactions)), onScreen, ReadCount(hit, |reactions|))
    }

    /**
     * What an up leaves behind: the first reaction is no longer ignored; if
     * the finger never left the parent nothing else changes, otherwise the
     * icon under it is reported and the listener's answer decides.
     */
    twostate predicate UpDone(event: MotionEvent, onScreen: seq<Point>)
      requires ViewsValid() && |onScreen| == |reactions|
      reads this, reactions`cached
    {
      var inside := old(isFirstTouchAlwaysInsideButton) && InInsideParentView(event);
      var hit := FirstHit(old(HitBoxes(reactions, onScreen, metrics)), event.rawX, event.rawY);
      var position := Position(hit);
      && !isIgnoringFirstReaction && !isFirstTouchAlwaysInsideButton
      && (inside ==>
            && CurrentScene() == old(CurrentScene()) && Caches(reactions) == old(Caches(reactions))
            && notifications == old(notifications))
      && (!inside ==> Released(event, onScreen))
    }

    /** `reactions[i].location`: only that icon's cache may change. */
    method ReadIconLocation(v: ReactionView, i: nat, onScreen: Point) returns (p: Point)
      requires IconsIndexed() && i < |reactions| && v == reactions[i]
      modifies v`cached
      ensures p == ReadLocation(old(v.cached), onScreen) && v.cached == p
      ensures forall j :: 0 <= j < |reactions| && j != i ==> reactions[j].cached == old(reactions[j].cached)
    {
      assert forall j :: 0 <= j < |reactions| && j != i ==> reactions[j] != v;
      p := v.Location(onScreen);
    }

    /**
     * `getIntersectedIcon`: the first icon whose hit box holds the point,
     * reading (and so possibly caching) the location of every icon up to it.
     */
    method GetIntersectedIcon(x: int, y: int, onScreen: seq<Point>) returns (hit: Option<nat>)
      requires IconsIndexed() && |onScreen| == |reactions|
      modifies reactions`cached
      ensures hit == FirstHit(old(HitBoxes(reactions, onScreen, metrics)), x, y)
      ensures hit.Some? ==> hit.value < |reactions|
      ensures forall j :: 0 <= j < |reactions| && j < ReadCount(hit, |reactions|) ==>
        reactions[j].cached == ReadLocation(old(reactions[j].cached), onScreen[j])
      ensures forall j :: 0 <= j < |reactions| && ReadCount(hit, |reactions|) <= j ==>
        reactions[j].cached == old(reactions[j].cached)
    {
      ghost var boxes := HitBoxes(reactions, onScreen, metrics);
      HitBoxesAre(reactions, onScreen, metrics);
      hit := None;
      var i := 0;
      while i < |reactions|
        invariant 0 <= i <= |reactions|
        invariant forall j :: 0 <= j < i ==> !Contains(boxes[j], x, y)
        invariant forall j :: 0 <= j < i ==> reactions[j].cached == ReadLocation(old(reactions[j].cached), onScreen[j])
        invariant forall j :: i <= j < |reactions| ==> reactions[j].cached == old(reactions[j].cached)
      {
        var v := reactions[i];
        var location := ReadIconLocation(v, i, onScreen[i]);
        if Contains(HitBox(location, v.measuredWidth, v.measuredHeight, metrics), x, y) {
          hit := Some(i);
          FirstHitAt(boxes, x, y, i);
          return;
        }
        i := i + 1;
      }
    }

    /** Down or move over an icon row that is not being ignored: track the icon under the finger. */
    method Track(event: MotionEvent, onScreen: seq<Point>)
      requires Valid() && |onScreen| == |reactions|
      modifies reactions`cached,
               this`currentState, this`currentAnimator, this`textVisible, this`iconSizes,
               this`backgroundHeight, this`backgroundResizeTarget, this`isAnimating
      ensures Valid()
      ensures Tracked(event, onScreen)
    {
      ghost var before := Caches(reactions);
      CachesAre(reactions, before);
      var view := GetIntersectedIcon(event.rawX, event.rawY, onScreen);
      CachesAre(reactions, AfterReads(before, onScreen, ReadCount(view, |reactions|)));
      if view.None? {
        SetState(Some(WaitingSelection));
      } else if currentState != Some(Selected(view.value)) {
        SetState(Some(Selected(view.value)));
      }
    }

    /**
     * The selection listener's answer for `position`: it is told first, and
     * the popup waits for another selection when it answers false, and is
     * dismissed otherwise (or when there is no listener).
     */
    method AnswerSelection(position: int)
      requires Valid()
      modifies this`notifications,
               this`currentState, this`currentAnimator, this`textVisible, this`iconSizes,
               this`backgroundHeight, this`backgroundResizeTarget, this`isAnimating
      ensures Valid()
      ensures CurrentScene() == ReleaseScene(old(CurrentScene()), KeepsOpen(position), metrics, config.dismissAnimationEnabled)
      ensures notifications == old(notifications) + SelectionNotices(position)
    {
      if reactionSelectedListener.Some? {
        notifications := notifications + [ReactionSelected(position)];
      }
      if KeepsOpen(position) {
        SetState(Some(WaitingSelection));
      } else {
        Dismiss();
      }
    }

    /**
     * The position of the reaction under the finger in the configured list
     * (-1 when there is none), reading icon locations up to the hit one.
     */
    method ReleasedPosition(event: MotionEvent, onScreen: seq<Point>) returns (position: int)
      requires ViewsValid() && |onScreen| == |reactions|
      modifies reactions`cached
      ensures var hit := FirstHit(old(HitBoxes(reactions, onScreen, metrics)), event.rawX, event.rawY);
        && position == Position(hit)
        && Caches(reactions) == AfterReads(old(Caches(reactions)), onScreen, ReadCount(hit, |reactions|))
    {
      ghost var before := Caches(reactions);
      CachesAre(reactions, before);
      var view := GetIntersectedIcon(event.rawX, event.rawY, onScreen);
      CachesAre(reactions, AfterReads(before, onScreen, ReadCount(view, |reactions|)));
      position := if view.Some? then IndexOf(config.reactions, reactions[view.value].reaction) else -1;
    }

    /**
     * What releasing leaves behind: the icons up to the hit one have had their
     * location read, the listeners are told the hit position, and the popup
     * waits again or closes as the selection listener decides.
     */
    twostate predicate Released(event: MotionEvent, onScreen: seq<Point>)
      requires ViewsValid() && |onScreen| == |reactions|
      reads this, reactions`cached
    {
      var hit := FirstHit(old(HitBoxes(reactions, onScreen, metrics)), event.rawX, event.rawY);
      var position := Position(hit);
      && Caches(reactions) == AfterReads(old(Caches(reactions)), onScreen, ReadCount(hit, |reactions|))
      && CurrentScene() == ReleaseScene(old(CurrentScene()), KeepsOpen(position), metrics, config.dismissAnimationEnabled)
      && notifications == old(notifications) + SelectionNotices(position)
    }

    /** Up away from the parent: report the icon under the finger, then wait again or close as the listener decides. */
    method Release(event: MotionEvent, onScreen: seq<Point>)
      requires Valid() && |onScreen| == |reactions|
      modifies reactions`cached, this`notifications,
               this`currentState, this`currentAnimator, this`textVisible, this`iconSizes,
               this`backgroundHeight, this`backgroundResizeTarget, this`isAnimating
      ensures Valid()
      ensures Released(event, onScreen)
    {
      var position := ReleasedPosition(event, onScreen);
      AnswerSelection(position);
    }

    /** A down or a move that is tracked: the flags are stored and the icon under the finger is tracked. */
    method StoreFlagsAndTrack(event: MotionEvent, onScreen: seq<Point>, inside: bool)
      requires Valid() && |onScreen| == |reactions|
      modifies this`isFirstTouchAlwaysInsideButton, this`isIgnoringFirstReaction, reactions`cached,
               this`currentState, this`currentAnimator, this`textVisible, this`iconSizes,
               this`backgroundHeight, this`backgroundResizeTarget, this`isAnimating
      ensures Valid()
      ensures isFirstTouchAlwaysInsideButton == inside && !isIgnoringFirstReaction
      ensures Tracked(event, onScreen)
    {
      // Tracking reads neither flag, so they may be stored after it.
      Track(event, onScreen);
      SetTouchFlags(inside, false);
    }

    /**
     * A down or a move: the inside-the-parent flag can only fall; the first
     * reaction stays ignored while the finger stays inside the parent or
     * right below the first icon; otherwise, unless the popup is appearing,
     * the icon under the finger is tracked.
     */
    method TouchDownOrMove(event: MotionEvent, first: ViewBounds, onScreen: seq<Point>)
      requires Valid() && |onScreen| == |reactions|
      modifies this`isFirstTouchAlwaysInsideButton, this`isIgnoringFirstReaction, reactions`cached,
               this`currentState, this`currentAnimator, this`textVisible, this`iconSizes,
               this`backgroundHeight, this`backgroundResizeTarget, this`isAnimating
      ensures Valid()
      ensures DownOrMoveDone(event, first, onScreen)
    {
      var inside := isFirstTouchAlwaysInsideButton && InInsideParentView(event);
      var below := BelowFirstReaction(event.rawX, event.rawY, first, metrics.dialogHeight);
      var ignoring := isIgnoringFirstReaction && (below || inside);
      // Nothing is tracked while the popup appears.
      if ignoring || (currentState.Some? && currentState.value.Appear?) {
        SetTouchFlags(inside, ignoring);
      } else {
        StoreFlagsAndTrack(event, onScreen, inside);
      }
    }

    /**
     * An up: the first reaction is no longer ignored; if the finger never
     * left the parent nothing else happens, otherwise the icon under it is
     * reported and the listener's answer decides.
     */
    method TouchUp(event: MotionEvent, onScreen: seq<Point>)
      requires Valid() && |onScreen| == |reactions|
      modifies this`isFirstTouchAlwaysInsideButton, this`isIgnoringFirstReaction, this`notifications,
               this`currentState, this`currentAnimator, this`textVisible, this`iconSizes,
               this`backgroundHeight, this`backgroundResizeTarget, this`isAnimating, reactions`cached
      ensures Valid()
      ensures !isIgnoringFirstReaction && !isFirstTouchAlwaysInsideButton
      ensures old(isFirstTouchAlwaysInsideButton) && InInsideParentView(event) ==>
        && CurrentScene() == old(CurrentScene()) && Caches(reactions) == old(Caches(reactions))
        && notifications == old(notifications)
      ensures !(old(isFirstTouchAlwaysInsideButton) && InInsideParentView(event)) ==> Released(event, onScreen)
    {
      if isFirstTouchAlwaysInsideButton && InInsideParentView(event) {
        SetTouchFlags(false, false);
      } else {
        ReleaseAway(event, onScreen);
      }
    }

    /** An up away from the parent: the first reaction is no longer ignored, and the hit icon is released. */
    method ReleaseAway(event: MotionEvent, onScreen: seq<Point>)
      requires Valid() && |onScreen| == |reactions|
      modifies this`isFirstTouchAlwaysInsideButton, this`isIgnoringFirstReaction, this`notifications,
               this`currentState, this`currentAnimator, this`textVisible, this`iconSizes,
               this`backgroundHeight, this`backgroundResizeTarget, this`isAnimating, reactions`cached
      ensures Valid()
      ensures !isIgnoringFirstReaction && !isFirstTouchAlwaysInsideButton
      ensures Released(event, onScreen)
    {
      // Releasing reads neither flag, so they may be cleared before it.
      SetTouchFlags(false, false);
      Release(event, onScreen);
    }

    /**
     * `onTouchEvent`. While the selected view is being shot away nothing
     * happens and the event is not consumed. The inside-the-parent flag can
     * only fall; the first reaction stays ignored while the finger stays
     * inside the parent or right below the first icon; tracking never
     * interrupts the appear animation; an up ends the ignoring and, away from
     * the parent, reports the hit reaction and closes the popup unless the
     * listener declines.
     */
    method OnTouchEvent(event: MotionEvent, first: ViewBounds, onScreen: seq<Point>) returns (consumed: bool)
      requires Valid() && |onScreen| == |reactions|
      modifies this`isFirstTouchAlwaysInsideButton, this`isIgnoringFirstReaction, this`notifications,
               this`currentState, this`currentAnimator, this`textVisible, this`iconSizes,
               this`backgroundHeight, this`backgroundResizeTarget, this`isAnimating, reactions`cached
      ensures Valid()
      ensures consumed == !old(isAnimating)
      ensures old(isAnimating) ==> unchanged(this) && Caches(reactions) == old(Caches(reactions))
      ensures !old(isAnimating) && (event.action == ActionDown || event.action == ActionMove) ==>
        DownOrMoveDone(event, first, onScreen)
      ensures !old(isAnimating) && event.action == ActionUp ==> UpDone(event, onScreen)
      ensures !old(isAnimating) && (event.action == ActionCancel || event.action.ActionOther?) ==>
        && isFirstTouchAlwaysInsideButton == (old(isFirstTouchAlwaysInsideButton) && InInsideParentView(event))
        && isIgnoringFirstReaction == old(isIgnoringFirstReaction)
        && notifications == old(notifications) && Caches(reactions) == old(Caches(reactions))
      ensures !old(isAnimating) && event.action == ActionCancel ==>
        CurrentScene() == Assign(old(CurrentScene()), Some(WaitingSelection), metrics, config.dismissAnimationEnabled)
      ensures !old(isAnimating) && event.action.ActionOther? ==> CurrentScene() == old(CurrentScene())
    {
      if isAnimating {
        return false;
      }
      consumed := true;
      match event.action {
        case ActionDown | ActionMove => TouchDownOrMove(event, first, onScreen);
        case ActionUp => TouchUp(event, onScreen);
        case ActionCancel => TouchCancel(event);
        case ActionOther(_) => SetTouchFlags(isFirstTouchAlwaysInsideButton && InInsideParentView(event), isIgnoringFirstReaction);
      }
    }

    /** A cancel: the inside-the-parent flag can only fall, and the popup waits for a selection again. */
    method TouchCancel(event: MotionEvent)
      requires Valid()
      modifies this`isFirstTouchAlwaysInsideButton, this`isIgnoringFirstReaction,
               this`currentState, this`currentAnimator, this`textVisible, this`iconSizes,
               this`backgroundHeight, this`backgroundResizeTarget, this`isAnimating
      ensures Valid()
      ensures isFirstTouchAlwaysInsideButton == (old(isFirstTouchAlwaysInsideButton) && InInsideParentView(event))
      ensures isIgnoringFirstReaction == old(isIgnoringFirstReaction)
      ensures CurrentScene() == Assign(old(CurrentScene()), Some(WaitingSelection), metrics, config.dismissAnimationEnabled)
    {
      var inside := isFirstTouchAlwaysInsideButton && InInsideParentView(event);
      SetState(Some(WaitingSelection));
      SetTouchFlags(inside, isIgnoringFirstReaction);
    }
  }
}
