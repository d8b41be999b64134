/**
 * The integer geometry of `ReactionViewGroup.kt`: the popup's size and icon
 * sizes fixed at construction, its placement on screen (`onSizeChanged`), the
 * frames of the background and of the icons (`onLayout`), the icons' hit
 * boxes, the size targets of the resize animation and `progressMove`.
 */
module Geometry {
  import opened Common
  import opened Model

  // ---------------------------------------------------------------- popup size

  /** `max(1, nIcons - 1)`: the dividers counted in the popup width. */
  function DividerCount(nIcons: int): (d: int)
    ensures d >= 1 && d >= nIcons - 1
    ensures nIcons < 2 ==> d == 1
    ensures nIcons >= 2 ==> d == nIcons - 1
  {
    Max(1, nIcons - 1)
  }

  /** The sizes the popup fixes at construction. */
  datatype Metrics = Metrics(
    horizontalPadding: int,
    verticalPadding: int,
    iconDivider: int,
    smallIconSize: int,
    mediumIconSize: int,
    largeIconSize: int,
    dialogWidth: int,
    dialogHeight: int)

  /**
   * The constructor's arithmetic. `iconDivider` is the divider the
   * configuration may set; without one it is the horizontal padding.
   */
  function PopupMetrics(config: ReactionsConfig, iconDivider: Option<int>): (m: Metrics)
    ensures m.horizontalPadding == config.horizontalMargin && m.verticalPadding == config.verticalMargin
    ensures iconDivider.Some? ==> m.iconDivider == iconDivider.value
    ensures iconDivider.None? ==> m.iconDivider == config.horizontalMargin
    ensures m.mediumIconSize == config.reactionSize
    ensures m.dialogHeight == m.mediumIconSize + 2 * m.verticalPadding
    // [padding][medium][divider][medium]...[medium][padding], at least one divider
    ensures m.dialogWidth ==
      2 * m.horizontalPadding + m.mediumIconSize * |config.reactions| + m.iconDivider * DividerCount(|config.reactions|)
    // the large icon is the medium one scaled, the fraction dropped
    ensures m.largeIconSize == Truncate(config.scaleFactor * config.reactionSize as real)
    // the small icons share what one large icon leaves of the medium row, rounded toward zero
    ensures var d, rest := DividerCount(|config.reactions|), m.mediumIconSize * |config.reactions| - m.largeIconSize;
      (rest >= 0 ==> 0 <= rest - m.smallIconSize * d < d) &&
      (rest < 0 ==> -d < rest - m.smallIconSize * d <= 0)
  {
    var horizontalPadding := config.horizontalMargin;
    var verticalPadding := config.verticalMargin;
    var divider := iconDivider.GetOr(horizontalPadding);
    var medium := config.reactionSize;
    var large := Truncate(config.scaleFactor * config.reactionSize as real);
    var nIcons := |config.reactions|;
    var nDividers := DividerCount(nIcons);
    var dialogWidth := horizontalPadding * 2 + medium * nIcons + divider * nDividers;
    var rest := dialogWidth - horizontalPadding * 2 - large - divider * nDividers;
    assert rest == medium * nIcons - large;
    var small := TruncDiv(rest, nDividers);
    Metrics(horizontalPadding, verticalPadding, divider, small, medium, large,
            dialogWidth, medium + 2 * verticalPadding)
  }

  /**
   * With two icons or more, and a large icon no wider than the whole medium
   * row, one large icon and the small ones fit the popup, wasting less than
   * one pixel per divider.
   */
  lemma PackingFits(config: ReactionsConfig, iconDivider: Option<int>)
    requires |config.reactions| >= 2
    requires var m := PopupMetrics(config, iconDivider); m.largeIconSize <= |config.reactions| * m.mediumIconSize
    ensures var m, n := PopupMetrics(config, iconDivider), |config.reactions|;
      var packed := 2 * m.horizontalPadding + m.largeIconSize + m.smallIconSize * (n - 1) + m.iconDivider * (n - 1);
      packed <= m.dialogWidth < packed + (n - 1)
  {
  }

  /** With a single icon the "small" size is medium minus large, negative whenever the scale factor is above 1. */
  lemma SingleIconSmallSize(config: ReactionsConfig, iconDivider: Option<int>)
    requires |config.reactions| == 1
    ensures var m := PopupMetrics(config, iconDivider);
      m.smallIconSize == m.mediumIconSize - m.largeIconSize &&
      m.dialogWidth == 2 * m.horizontalPadding + m.mediumIconSize + m.iconDivider
  {
  }

  // ---------------------------------------------------------------- placement

  datatype Size = Size(width: int, height: int)

  /** The horizontal position each gravity asks for, with the gravity's own fallback. */
  function GravityX(config: ReactionsConfig, m: Metrics, firstClick: Point, parentLocation: Point,
                    parentSize: Size, width: int): int
  {
    match config.popupGravity
    case Default =>        // slightly right of the touch point
      firstClick.x - m.horizontalPadding - TruncDiv(m.mediumIconSize, 2)
    case ParentLeft =>     // falls back to the screen's right side
      if parentLocation.x + m.dialogWidth > width then width - m.dialogWidth - config.popupMargin
      else parentLocation.x
    case ParentRight =>    // falls back to the screen's left side
      var x := parentLocation.x + parentSize.width - m.dialogWidth;
      if x < 0 then config.popupMargin else x
    case ScreenLeft => config.popupMargin
    case ScreenRight => width - m.dialogWidth - config.popupMargin
    case Center => TruncDiv(width - m.dialogWidth, 2)
  }

  /**
   * `dialogX` after `onSizeChanged`: the gravity's position when the popup
   * starts on screen and ends strictly before the right edge, otherwise
   * centred and clamped at 0.
   */
  function DialogX(config: ReactionsConfig, m: Metrics, firstClick: Point, parentLocation: Point,
                   parentSize: Size, width: int): (x: int)
    ensures x >= 0
    ensures m.dialogWidth <= width ==> x + m.dialogWidth <= width
    ensures var gx := GravityX(config, m, firstClick, parentLocation, parentSize, width);
      (0 <= gx && gx + m.dialogWidth < width ==> x == gx) &&
      (!(0 <= gx && gx + m.dialogWidth < width) ==> x == Max(0, TruncDiv(width - m.dialogWidth, 2)))
  {
    var x := GravityX(config, m, firstClick, parentLocation, parentSize, width);
    if x < 0 || x + m.dialogWidth >= width then Max(0, TruncDiv(width - m.dialogWidth, 2)) else x
  }

  /**
   * `dialogY` after `onSizeChanged`: above the parent unless that is above
   * `downwardPopupPoint`, in which case below it.
   */
  function DialogY(config: ReactionsConfig, m: Metrics, parentLocation: Point, parentSize: Size): (y: int)
    ensures var up := parentLocation.y - (m.dialogHeight + config.upwardPopupMargin);
      (up >= config.downwardPopupPoint ==> y == up) &&
      (up < config.downwardPopupPoint ==> y == parentLocation.y + parentSize.height + config.downwardPopupMargin)
  {
    var y := parentLocation.y - (m.dialogHeight + config.upwardPopupMargin);
    if y < config.downwardPopupPoint then parentLocation.y + parentSize.height + config.downwardPopupMargin else y
  }

  /**
   * With non-negative margins the popup never covers its parent: it ends
   * above the parent's top or starts below its bottom.
   */
  lemma PopupClearsParent(config: ReactionsConfig, m: Metrics, parentLocation: Point, parentSize: Size)
    requires config.upwardPopupMargin >= 0 && config.downwardPopupMargin >= 0
    ensures var y := DialogY(config, m, parentLocation, parentSize);
      y + m.dialogHeight <= parentLocation.y || y >= parentLocation.y + parentSize.height
  {
  }

  /** Each gravity is honoured exactly whenever its position fits on the screen. */
  lemma GravityHonouredWhenItFits(config: ReactionsConfig, m: Metrics, firstClick: Point,
                                  parentLocation: Point, parentSize: Size, width: int)
    ensures var x := DialogX(config, m, firstClick, parentLocation, parentSize, width);
      && ((config.popupGravity == ParentLeft && 0 <= parentLocation.x && parentLocation.x + m.dialogWidth < width)
          ==> x == parentLocation.x)
      && ((config.popupGravity == ParentRight && 0 <= parentLocation.x + parentSize.width - m.dialogWidth
           && parentLocation.x + parentSize.width < width)
          ==> x + m.dialogWidth == parentLocation.x + parentSize.width)
      && ((config.popupGravity == ScreenLeft && 0 <= config.popupMargin && config.popupMargin + m.dialogWidth < width)
          ==> x == config.popupMargin)
      && ((config.popupGravity == ScreenRight && 0 < config.popupMargin && m.dialogWidth + config.popupMargin <= width)
          ==> x + m.dialogWidth + config.popupMargin == width)
      && (var touch := firstClick.x - m.horizontalPadding - TruncDiv(m.mediumIconSize, 2);
          (config.popupGravity == Default && 0 <= touch && touch + m.dialogWidth < width) ==> x == touch)
      && (config.popupGravity == Center ==> x == Max(0, TruncDiv(width - m.dialogWidth, 2)))
  {
  }

  /**
   * When the parent-aligned position does not fit, `PARENT_LEFT` falls back to
   * the screen's right side and `PARENT_RIGHT` to its left side.
   */
  lemma ParentGravityFallsBackToScreen(config: ReactionsConfig, m: Metrics, firstClick: Point,
                                       parentLocation: Point, parentSize: Size, width: int)
    ensures var x := DialogX(config, m, firstClick, parentLocation, parentSize, width);
      && ((config.popupGravity == ParentLeft && parentLocation.x + m.dialogWidth > width
           && 0 < config.popupMargin && m.dialogWidth + config.popupMargin <= width)
          ==> x + m.dialogWidth + config.popupMargin == width)
      && ((config.popupGravity == ParentRight && parentLocation.x + parentSize.width - m.dialogWidth < 0
           && 0 <= config.popupMargin && config.popupMargin + m.dialogWidth < width)
          ==> x == config.popupMargin)
  {
  }

  // ---------------------------------------------------------------- layout

  function Sum(s: seq<int>): int
    decreases |s|
  {
    if s == [] then 0 else Sum(s[..|s| - 1]) + s[|s| - 1]
  }

  /** The horizontal offset `prevX` reaches after laying out icons of the given widths. */
  function RowOffset(widths: seq<int>, divider: int): int
    decreases |widths|
  {
    if widths == [] then 0
    else RowOffset(widths[..|widths| - 1], divider) + widths[|widths| - 1] + divider
  }

  /** One more icon moves the offset on by its width and one divider. */
  lemma RowOffsetStep(widths: seq<int>, i: nat, divider: int)
    requires i < |widths|
    ensures RowOffset(widths[..i + 1], divider) == RowOffset(widths[..i], divider) + widths[i] + divider
  {
    assert widths[..i + 1][..i] == widths[..i];
  }

  /** The offset is every width laid so far plus one divider after each of them. */
  lemma {:induction false} RowOffsetIsSum(widths: seq<int>, divider: int)
    ensures RowOffset(widths, divider) == Sum(widths) + |widths| * divider
    decreases |widths|
  {
    if widths != [] {
      RowOffsetIsSum(widths[..|widths| - 1], divider);
    }
  }

  /**
   * The background's frame: it spans the popup width, and its bottom edge
   * stays at the popup's bottom whatever its current height.
   */
  function BackgroundFrame(m: Metrics, dialogX: int, dialogY: int, backgroundHeight: int,
                           translationX: int, translationY: int): (f: Frame)
    ensures f.left == dialogX + translationX && f.right - f.left == m.dialogWidth
    ensures f.bottom == dialogY + m.dialogHeight + translationY
    ensures f.bottom - f.top == backgroundHeight + (m.dialogHeight - m.mediumIconSize)
  {
    Frame(dialogX + translationX,
          dialogY + m.mediumIconSize - backgroundHeight + translationY,
          dialogX + m.dialogWidth + translationX,
          dialogY + m.dialogHeight + translationY)
  }

  /** Resizing the background moves only its top edge. */
  lemma BackgroundBottomFixed(m: Metrics, dialogX: int, dialogY: int, h1: int, h2: int, tx: int, ty: int)
    ensures var f1, f2 := BackgroundFrame(m, dialogX, dialogY, h1, tx, ty), BackgroundFrame(m, dialogX, dialogY, h2, tx, ty);
      f1.left == f2.left && f1.right == f2.right && f1.bottom == f2.bottom && f1.top - f2.top == h2 - h1
  {
  }

  /** Where an icon goes before clamping: after `prevX`, bottom-aligned one padding above the popup's bottom. */
  function IconPlace(m: Metrics, dialogX: int, dialogY: int, prevX: int, width: int, height: int): (f: Frame)
    ensures f.left == dialogX + m.horizontalPadding + prevX && f.right - f.left == width
    ensures f.bottom == dialogY + m.dialogHeight - m.verticalPadding && f.bottom - f.top == height
  {
    var bottom := dialogY + m.dialogHeight - m.verticalPadding;
    var left := dialogX + m.horizontalPadding + prevX;
    Frame(left, bottom - height, left + width, bottom)
  }

  /**
   * The frame handed to `layout`: each edge coerced into the group's own
   * bounds (left and top also kept at most right and bottom).
   */
  function ClampFrame(f: Frame, bounds: Frame): (c: Frame)
    ensures bounds.left <= f.left <= f.right <= bounds.right && bounds.top <= f.top <= f.bottom <= bounds.bottom
            ==> c == f
    ensures c.right == Min(f.right, bounds.right) && c.bottom == Min(f.bottom, bounds.bottom)
    ensures c.left <= f.right && c.top <= f.bottom
    ensures bounds.left <= f.right ==> bounds.left <= c.left
    ensures bounds.top <= f.bottom ==> bounds.top <= c.top
    ensures f.left <= f.right ==> f.left <= c.left
    ensures f.top <= f.bottom ==> f.top <= c.top
    ensures bounds.left <= f.left <= f.right ==> c.left == f.left
    ensures f.left < bounds.left <= f.right ==> c.left == bounds.left
    ensures bounds.left > f.right || f.left > f.right ==> c.left == f.right
    ensures bounds.top <= f.top <= f.bottom ==> c.top == f.top
    ensures f.top < bounds.top <= f.bottom ==> c.top == bounds.top
    ensures bounds.top > f.bottom || f.top > f.bottom ==> c.top == f.bottom
  {
    Frame(Min(Max(f.left, bounds.left), f.right),
          Min(Max(f.top, bounds.top), f.bottom),
          Min(f.right, bounds.right),
          Min(f.bottom, bounds.bottom))
  }

  function IconFrame(m: Metrics, dialogX: int, dialogY: int, prevX: int, width: int, height: int,
                     bounds: Frame): Frame
  {
    ClampFrame(IconPlace(m, dialogX, dialogY, prevX, width, height), bounds)
  }

  // ---------------------------------------------------------------- sizes

  /** The target of one icon in the resize animation. */
  function TargetSize(m: Metrics, selected: Option<nat>, i: nat): int
  {
    match selected
    case None => m.mediumIconSize
    case Some(v) => if v == i then m.largeIconSize else m.smallIconSize
  }

  function SizeTargets(m: Metrics, n: nat, selected: Option<nat>): (t: seq<int>)
    ensures |t| == n
    ensures forall i :: 0 <= i < n ==> t[i] == TargetSize(m, selected, i)
  {
    seq(n, i requires 0 <= i < n => TargetSize(m, selected, i))
  }

  /** A linear path, from `from` at progress 0 to `to` at progress 1. */
  datatype Path = Path(from: int, to: int)

  /** `animSize`'s paths: every icon from its current size to its target. */
  function SizePaths(m: Metrics, sizes: seq<int>, selected: Option<nat>): (paths: seq<Path>)
    ensures |paths| == |sizes|
    ensures forall i :: 0 <= i < |sizes| ==>
      paths[i].from == sizes[i] && paths[i].to == TargetSize(m, selected, i)
  {
    seq(|sizes|, i requires 0 <= i < |sizes| => Path(sizes[i], TargetSize(m, selected, i)))
  }

  /**
   * `progressMove`: `from` plus the fraction `progress` of the way to `to`,
   * the fraction dropped toward zero. It starts at `from`, ends at `to` and
   * never leaves the segment between them.
   */
  function ProgressMove(from: int, to: int, progress: real): (r: int)
    ensures progress == 0.0 ==> r == from
    ensures progress == 1.0 ==> r == to
    ensures 0.0 <= progress <= 1.0 ==> Min(from, to) <= r <= Max(from, to)
  {
    var delta := (to - from) as real * progress;
    if 0.0 <= progress <= 1.0 then
      ScaledWithin((to - from) as real, progress);
      from + Truncate(delta)
    else
      from + Truncate(delta)
  }

  /** A fraction of `a` lies between 0 and `a`. */
  lemma ScaledWithin(a: real, p: real)
    requires 0.0 <= p <= 1.0
    ensures a >= 0.0 ==> 0.0 <= a * p <= a
    ensures a < 0.0 ==> a <= a * p <= 0.0
  {
  }

  /** Summing the targets: medium for every icon without a selection, one large and small ones with it. */
  lemma {:induction false} SumTargetsPrefix(m: Metrics, n: nat, selected: Option<nat>, k: nat)
    requires k <= n
    ensures var t := SizeTargets(m, n, selected)[..k];
      (selected.None? ==> Sum(t) == k * m.mediumIconSize) &&
      (selected.Some? && selected.value < k ==> Sum(t) == m.largeIconSize + (k - 1) * m.smallIconSize) &&
      (selected.Some? && selected.value >= k ==> Sum(t) == k * m.smallIconSize)
  {
    if k > 0 {
      var t := SizeTargets(m, n, selected);
      assert t[..k][..k - 1] == t[..k - 1];
      SumTargetsPrefix(m, n, selected, k - 1);
    }
  }

  /**
   * With no selection the icons fill the popup from padding to padding (a
   * lone icon leaves one extra divider on its right).
   */
  lemma UniformRowFillsPopup(config: ReactionsConfig, iconDivider: Option<int>, dialogX: int)
    requires |config.reactions| >= 1
    ensures var m, n := PopupMetrics(config, iconDivider), |config.reactions|;
      var widths := SizeTargets(m, n, None);
      var last := IconPlace(m, dialogX, 0, RowOffset(widths[..n - 1], m.iconDivider), widths[n - 1], widths[n - 1]);
      last.right + m.horizontalPadding + (if n == 1 then m.iconDivider else 0) == dialogX + m.dialogWidth
  {
    UniformRowRight(PopupMetrics(config, iconDivider), |config.reactions|, dialogX);
  }

  /** The right edge of the last of `n` medium icons laid out from the padding. */
  lemma UniformRowRight(m: Metrics, n: nat, dialogX: int)
    requires n >= 1
    ensures var widths := SizeTargets(m, n, None);
      IconPlace(m, dialogX, 0, RowOffset(widths[..n - 1], m.iconDivider), widths[n - 1], widths[n - 1]).right
        == dialogX + m.horizontalPadding + m.mediumIconSize * n + m.iconDivider * (n - 1)
  {
    SumTargetsPrefix(m, n, None, n - 1);
    RowOffsetIsSum(SizeTargets(m, n, None)[..n - 1], m.iconDivider);
    assert (n - 1) * m.mediumIconSize + (n - 1) * m.iconDivider + m.mediumIconSize
        == m.mediumIconSize * n + m.iconDivider * (n - 1);
  }

  /** The right edge of the last icon: the padding, every icon's width and one divider between each two. */
  lemma LastIconRight(m: Metrics, dialogX: int, widths: seq<int>)
    requires |widths| >= 1
    ensures var n := |widths|;
      IconPlace(m, dialogX, 0, RowOffset(widths[..n - 1], m.iconDivider), widths[n - 1], widths[n - 1]).right
        == dialogX + m.horizontalPadding + Sum(widths) + (n - 1) * m.iconDivider
  {
    var n := |widths|;
    RowOffsetIsSum(widths[..n - 1], m.iconDivider);
    assert Sum(widths) == Sum(widths[..n - 1]) + widths[n - 1];
  }

  /** The selected row's right edge, one padding included, is where the packed sizes put it. */
  lemma SelectedRowRight(m: Metrics, n: nat, v: nat, dialogX: int)
    requires n >= 2 && v < n
    ensures var widths := SizeTargets(m, n, Some(v));
      var last := IconPlace(m, dialogX, 0, RowOffset(widths[..n - 1], m.iconDivider), widths[n - 1], widths[n - 1]);
      last.right + m.horizontalPadding
        == dialogX + 2 * m.horizontalPadding + m.largeIconSize + m.smallIconSize * (n - 1) + m.iconDivider * (n - 1)
  {
    var widths := SizeTargets(m, n, Some(v));
    SumTargetsPrefix(m, n, Some(v), n);
    assert widths[..n] == widths;
    LastIconRight(m, dialogX, widths);
  }

  /**
   * With a selection (and a large icon no wider than the medium row) the
   * icons still end at least one padding before the popup's right edge,
   * short of it by less than one pixel per divider.
   */
  lemma SelectedRowFits(config: ReactionsConfig, iconDivider: Option<int>, dialogX: int, v: nat)
    requires |config.reactions| >= 2 && v < |config.reactions|
    requires var m := PopupMetrics(config, iconDivider); m.largeIconSize <= |config.reactions| * m.mediumIconSize
    ensures var m, n := PopupMetrics(config, iconDivider), |config.reactions|;
      var widths := SizeTargets(m, n, Some(v));
      var last := IconPlace(m, dialogX, 0, RowOffset(widths[..n - 1], m.iconDivider), widths[n - 1], widths[n - 1]);
      last.right + m.horizontalPadding <= dialogX + m.dialogWidth < last.right + m.horizontalPadding + (n - 1)
  {
    SelectedRowRight(PopupMetrics(config, iconDivider), |config.reactions|, v, dialogX);
    PackingFits(config, iconDivider);
  }

  // ---------------------------------------------------------------- hit test

  /** An inclusive rectangle of the screen. */
  datatype Box = Box(left: int, top: int, right: int, bottom: int)

  predicate Contains(b: Box, x: int, y: int) {
    b.left <= x <= b.right && b.top <= y <= b.bottom
  }

  /**
   * The region that selects an icon: its box widened by the horizontal
   * padding to the left and above, by the divider to the right, and by the
   * popup height plus the divider below.
   */
  function HitBox(location: Point, measuredWidth: int, measuredHeight: int, m: Metrics): (b: Box)
    ensures b.left == location.x - m.horizontalPadding && b.right == location.x + measuredWidth + m.iconDivider
    ensures b.top == location.y - m.horizontalPadding
    ensures b.bottom == location.y + measuredHeight + m.dialogHeight + m.iconDivider
  {
    Box(location.x - m.horizontalPadding, location.y - m.horizontalPadding,
        location.x + measuredWidth + m.iconDivider, location.y + measuredHeight + m.dialogHeight + m.iconDivider)
  }

  /** `firstOrNull`: the first icon, in list order, whose box contains the point. */
  function FirstHit(boxes: seq<Box>, x: int, y: int): (r: Option<nat>)
    ensures r.Some? ==> r.value < |boxes| && Contains(boxes[r.value], x, y)
    ensures r.Some? ==> forall j :: 0 <= j < r.value ==> !Contains(boxes[j], x, y)
    ensures r.None? <==> forall j :: 0 <= j < |boxes| ==> !Contains(boxes[j], x, y)
  {
    if boxes == [] then None
    else if Contains(boxes[0], x, y) then Some(0)
    else match FirstHit(boxes[1..], x, y)
      case None => None
      case Some(k) => Some(k + 1)
  }

  /** Whether a point lies within the parent view's bounds, edges included. */
  predicate InsideParent(x: int, y: int, parentLocation: Point, parentSize: Size) {
    parentLocation.x <= x <= parentLocation.x + parentSize.width &&
    parentLocation.y <= y <= parentLocation.y + parentSize.height
  }

  /** The first icon's `x`, `right`, `y` and `height` as the platform reports them. */
  datatype ViewBounds = ViewBounds(x: int, right: int, y: int, height: int)

  /** Whether a point lies in the popup-high band right below the first icon. */
  predicate BelowFirstReaction(x: int, y: int, first: ViewBounds, dialogHeight: int) {
    first.x <= x <= first.right &&
    first.y + first.height <= y <= first.y + first.height + dialogHeight
  }
}
