/**
 * The popup's state machine (`ReactionViewState` and the `currentState`
 * setter of `ReactionViewGroup.kt`), on values:
 *
 *   (none) --show--> Appear --appear ends--> WaitingSelection <--> Selected(v)
 *   any --dismiss--> Disappear --disappear (or shoot) ends--> (none)
 *
 * Every transition goes through the setter, which starts the animation that
 * belongs to the new state. A `Scene` gathers what the setter reads and
 * writes, so that each transition is a function from scene to scene. Views
 * are named by their position in the popup's list of icons.
 */
module States {
  import opened Common
  import opened Geometry

  /** `ReactionViewState`; `Appear` and `Disappear` are the boundary states. */
  datatype ViewState =
    | Appear(path: Path)
    | Disappear(selectedView: Option<nat>, path: Path)
    | WaitingSelection
    | Selected(view: nat)

  /** The animation held in `currentAnimator`, with what its listeners captured. */
  datatype Animator =
    | BoundaryAnimator(boundary: ViewState)
    | SizeAnimator(selected: Option<nat>, paths: seq<Path>)

  /** What the setter reads and writes. */
  datatype Scene = Scene(
    state: Option<ViewState>,
    animator: Option<Animator>,
    textVisible: bool,
    iconSizes: seq<int>,              // the layout size of each icon
    backgroundHeight: int,            // the background's layout height
    backgroundResizeTarget: Option<int>,
    isAnimating: bool)

  /**
   * Whether the setter ignores an assignment. States are compared by
   * reference: only `null` and the `WaitingSelection` object can equal the
   * current state, every other state being a new object.
   */
  predicate IsRepeat(current: Option<ViewState>, value: Option<ViewState>) {
    value == current && (value == None || value == Some(WaitingSelection))
  }

  /** Every view a state names is one of the `n` icons. */
  predicate StateFits(state: ViewState, n: nat) {
    match state
    case Selected(v) => v < n
    case Disappear(selected, _) => selected.Some? ==> selected.value < n
    case _ => true
  }

  /** The animation each state starts, as far as it depends on the state alone. */
  predicate AnimatorMatches(state: ViewState, animator: Animator) {
    match state
    case Appear(_) => animator == BoundaryAnimator(state)
    case Disappear(_, _) => animator == BoundaryAnimator(state)
    case WaitingSelection => animator.SizeAnimator? && animator.selected == None
    case Selected(v) => animator.SizeAnimator? && animator.selected == Some(v)
  }

  /** A scene of `n` icons whose running animation is the one its state started. */
  predicate SceneValid(s: Scene, n: nat) {
    && |s.iconSizes| == n
    && (s.state.Some? ==> StateFits(s.state.value, n))
    && (s.state.Some? ==> s.animator.Some? && AnimatorMatches(s.state.value, s.animator.value))
    && (s.animator.Some? && s.animator.value.SizeAnimator? ==> |s.animator.value.paths| == n)
  }

  /**
   * `currentState = value`. Appearing resets every icon and the background
   * to the medium size and slides in; disappearing slides out and, when
   * enabled, shoots the selected view away (blocking touches meanwhile);
   * waiting and selecting resize the icons from their current sizes and the
   * background towards medium or small. Starting any animation hides the text.
   */
  function Assign(s: Scene, value: Option<ViewState>, m: Metrics, dismissAnimationEnabled: bool): (r: Scene)
    ensures IsRepeat(s.state, value) ==> r == s
    ensures !IsRepeat(s.state, value) ==> r.state == value
    ensures |r.iconSizes| == |s.iconSizes|
    ensures value.Some? && !IsRepeat(s.state, value) ==>
      !r.textVisible && r.animator.Some? && AnimatorMatches(value.value, r.animator.value)
    ensures value == None ==> r == s.(state := None)
  {
    if IsRepeat(s.state, value) then s
    else
      match value
      case None => s.(state := None)
      case Some(v) =>
        match v
        case Appear(_) =>
          s.(state := value, animator := Some(BoundaryAnimator(v)), textVisible := false,
             iconSizes := SizeTargets(m, |s.iconSizes|, None), backgroundHeight := m.mediumIconSize)
        case Disappear(selected, _) =>
          s.(state := value, animator := Some(BoundaryAnimator(v)), textVisible := false,
             isAnimating := s.isAnimating || (selected.Some? && dismissAnimationEnabled))
        case WaitingSelection =>
          s.(state := value, animator := Some(SizeAnimator(None, SizePaths(m, s.iconSizes, None))),
             textVisible := false, backgroundResizeTarget := Some(m.mediumIconSize))
        case Selected(k) =>
          s.(state := value, animator := Some(SizeAnimator(Some(k), SizePaths(m, s.iconSizes, Some(k)))),
             textVisible := false, backgroundResizeTarget := Some(m.smallIconSize))
  }

  /** The setter keeps a scene well formed, whatever state it is given among the `n` icons. */
  lemma AssignKeepsSceneValid(s: Scene, value: Option<ViewState>, m: Metrics, dismissAnimationEnabled: bool, n: nat)
    requires SceneValid(s, n)
    requires value.Some? ==> StateFits(value.value, n)
    ensures SceneValid(Assign(s, value, m, dismissAnimationEnabled), n)
  {
  }

  /**
   * Only a shoot sets the blocking flag: it rises exactly when a `Disappear`
   * with a selected view is assigned while shooting is enabled.
   */
  lemma OnlyShootBlocks(s: Scene, value: Option<ViewState>, m: Metrics, dismissAnimationEnabled: bool)
    ensures var r := Assign(s, value, m, dismissAnimationEnabled);
      r.isAnimating <==>
        (s.isAnimating ||
         (!IsRepeat(s.state, value) && value.Some? && value.value.Disappear? &&
          value.value.selectedView.Some? && dismissAnimationEnabled))
  {
  }

  /**
   * The resize animation a waiting or selected state starts runs from the
   * sizes the icons had to the targets of that state: medium for all when
   * waiting, large for the selected icon and small for the others.
   */
  lemma ResizeHeadsForTargets(s: Scene, value: ViewState, m: Metrics, dismissAnimationEnabled: bool)
    requires value.WaitingSelection? || value.Selected?
    requires !IsRepeat(s.state, Some(value))
    ensures var r, selected := Assign(s, Some(value), m, dismissAnimationEnabled),
                               if value.Selected? then Some(value.view) else None;
      && r.animator.Some? && r.animator.value.SizeAnimator?
      && SizesAt(r.animator.value.paths, 0.0) == s.iconSizes
      && SizesAt(r.animator.value.paths, 1.0) == SizeTargets(m, |s.iconSizes|, selected)
  {
  }

  /**
   * Once the appear animation has ended, the waiting animation it leads to
   * keeps every icon at the medium size all along.
   */
  lemma AppearSettlesAtMedium(s: Scene, p: Path, m: Metrics, dismissAnimationEnabled: bool, progress: real)
    ensures var appeared := Assign(s, Some(Appear(p)), m, dismissAnimationEnabled);
      var r := Assign(appeared, Some(WaitingSelection), m, dismissAnimationEnabled);
      && r.state == Some(WaitingSelection)
      && r.iconSizes == SizeTargets(m, |s.iconSizes|, None)
      && r.animator.Some? && r.animator.value.SizeAnimator?
      && SizesAt(r.animator.value.paths, progress) == r.iconSizes
  {
  }

  /** A path that goes nowhere stays put. */
  lemma StillPath(x: int, progress: real)
    ensures ProgressMove(x, x, progress) == x
  {
  }

  /** The sizes a resize animation sets at `progress`. */
  function SizesAt(paths: seq<Path>, progress: real): (sizes: seq<int>)
    ensures |sizes| == |paths|
    ensures forall i :: 0 <= i < |paths| ==> sizes[i] == ProgressMove(paths[i].from, paths[i].to, progress)
  {
    seq(|paths|, i requires 0 <= i < |paths| => ProgressMove(paths[i].from, paths[i].to, progress))
  }

  /**
   * A resize animation starts from the sizes it captured, ends exactly on the
   * targets of its selection, and stays between the two on the way.
   */
  lemma {:induction false} ResizeRunsFromSizesToTargets(m: Metrics, sizes: seq<int>, selected: Option<nat>, progress: real)
    requires 0.0 <= progress <= 1.0
    ensures var paths, targets := SizePaths(m, sizes, selected), SizeTargets(m, |sizes|, selected);
      && SizesAt(paths, 0.0) == sizes
      && SizesAt(paths, 1.0) == targets
      && forall i :: 0 <= i < |sizes| ==>
           Min(sizes[i], targets[i]) <= SizesAt(paths, progress)[i] <= Max(sizes[i], targets[i])
  {
    var paths, targets := SizePaths(m, sizes, selected), SizeTargets(m, |sizes|, selected);
    assert SizesAt(paths, 0.0) == sizes by {
      forall i | 0 <= i < |sizes| ensures SizesAt(paths, 0.0)[i] == sizes[i] {
        assert paths[i] == Path(sizes[i], TargetSize(m, selected, i));
      }
    }
    assert SizesAt(paths, 1.0) == targets by {
      forall i | 0 <= i < |sizes| ensures SizesAt(paths, 1.0)[i] == targets[i] {
        assert paths[i] == Path(sizes[i], TargetSize(m, selected, i));
      }
    }
    forall i | 0 <= i < |sizes|
      ensures Min(sizes[i], targets[i]) <= SizesAt(paths, progress)[i] <= Max(sizes[i], targets[i])
    {
      assert paths[i] == Path(sizes[i], TargetSize(m, selected, i));
    }
  }

  /** The state `dismiss` moves to: it keeps the selected view only when one is selected. */
  function DisappearFrom(state: ViewState, dialogHeight: int): (s: ViewState)
    ensures s.Disappear? && s.path == Path(0, dialogHeight)
    ensures s.selectedView.Some? <==> state.Selected?
    ensures state.Selected? ==> s.selectedView == Some(state.view)
  {
    Disappear(if state.Selected? then Some(state.view) else None, Path(0, dialogHeight))
  }

  /**
   * `dismiss`, on the scene: nothing when the popup is not showing, otherwise
   * a slide out that carries the selected view, if any. Every call while
   * showing restarts the slide, so dismissing is not idempotent.
   */
  function DismissScene(s: Scene, m: Metrics, dismissAnimationEnabled: bool): (r: Scene)
    ensures s.state.None? ==> r == s
    ensures s.state.Some? ==> r.state == Some(DisappearFrom(s.state.value, m.dialogHeight))
    ensures s.state.Some? ==> r.animator == Some(BoundaryAnimator(r.state.value)) && !r.textVisible
    ensures r.isAnimating <==> s.isAnimating || (s.state.Some? && s.state.value.Selected? && dismissAnimationEnabled)
    ensures r.iconSizes == s.iconSizes && r.backgroundHeight == s.backgroundHeight
  {
    if s.state.None? then s
    else Assign(s, Some(DisappearFrom(s.state.value, m.dialogHeight)), m, dismissAnimationEnabled)
  }

  /** A second `dismiss` forgets the selection the first one carried and starts the slide over. */
  lemma DismissTwiceDropsSelection(s: Scene, m: Metrics, dismissAnimationEnabled: bool)
    requires s.state.Some?
    ensures var twice := DismissScene(DismissScene(s, m, dismissAnimationEnabled), m, dismissAnimationEnabled);
      twice.state == Some(Disappear(None, Path(0, m.dialogHeight)))
  {
  }

  /**
   * An up away from the parent, once the selection listener has answered:
   * wait for another selection when it asks to keep the popup open,
   * otherwise dismiss.
   */
  function ReleaseScene(s: Scene, keepOpen: bool, m: Metrics, dismissAnimationEnabled: bool): (r: Scene)
    ensures keepOpen ==> r.state == Some(WaitingSelection) && r.isAnimating == s.isAnimating
    ensures !keepOpen && s.state.None? ==> r == s
    ensures !keepOpen && s.state.Some? ==> r.state.Some? && r.state.value.Disappear?
    ensures r.iconSizes == s.iconSizes
  {
    if keepOpen then Assign(s, Some(WaitingSelection), m, dismissAnimationEnabled)
    else DismissScene(s, m, dismissAnimationEnabled)
  }

  /** Down or move over `hit`: wait when no icon is hit, otherwise select the hit icon unless it already is. */
  function TrackScene(s: Scene, hit: Option<nat>, m: Metrics, dismissAnimationEnabled: bool): (r: Scene)
    ensures hit.None? ==> r.state == Some(WaitingSelection)
    ensures hit.Some? ==> r.state == Some(Selected(hit.value))
    ensures hit.Some? && s.state == Some(Selected(hit.value)) ==> r == s
    ensures r.isAnimating == s.isAnimating && r.iconSizes == s.iconSizes
  {
    if hit.None? then Assign(s, Some(WaitingSelection), m, dismissAnimationEnabled)
    else if s.state != Some(Selected(hit.value)) then Assign(s, Some(Selected(hit.value)), m, dismissAnimationEnabled)
    else s
  }

  /** Moving over the same icon (or over none) again changes nothing: no animation restarts. */
  lemma TrackIsIdempotent(s: Scene, hit: Option<nat>, m: Metrics, dismissAnimationEnabled: bool)
    ensures var once := TrackScene(s, hit, m, dismissAnimationEnabled);
      TrackScene(once, hit, m, dismissAnimationEnabled) == once
  {
  }
}
