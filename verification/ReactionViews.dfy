/**
 * One icon of the popup (`ReactionView.kt`): a frame around the single child
 * view its reaction builds, whose measured size is the child's, and whose
 * on-screen location is cached lazily and refreshed only while a cached
 * coordinate is still 0.
 */
module ReactionViews {
  import opened Common
  import opened Model

  /** The view `reaction.onView(context)` returned. */
  datatype ChildView = ChildView(createdBy: ViewFactory)

  /** What a read of `location` gives: the cache if both coordinates are set, else the screen position. */
  function ReadLocation(cached: Point, onScreen: Point): (p: Point)
    ensures cached.x != 0 && cached.y != 0 ==> p == cached
    ensures (cached.x == 0 || cached.y == 0) ==> p == onScreen
  {
    if cached.x == 0 || cached.y == 0 then onScreen else cached
  }

  /** The points a sequence of reads returns, the screen position being `onScreen[k]` at the k-th read. */
  function ReadsFrom(cached: Point, onScreen: seq<Point>): (r: seq<Point>)
    ensures |r| == |onScreen|
    ensures onScreen != [] ==> r[0] == ReadLocation(cached, onScreen[0])
    ensures forall k :: 0 < k < |r| ==> r[k] == ReadLocation(r[k - 1], onScreen[k])
    decreases |onScreen|
  {
    if onScreen == [] then []
    else
      var p := ReadLocation(cached, onScreen[0]);
      [p] + ReadsFrom(p, onScreen[1..])
  }

  /**
   * Once a location with both coordinates non-zero is cached, every later
   * read returns it, wherever the view has moved since.
   */
  lemma {:induction false} CacheNeverUpdates(cached: Point, onScreen: seq<Point>)
    requires cached.x != 0 && cached.y != 0
    ensures forall k :: 0 <= k < |onScreen| ==> ReadsFrom(cached, onScreen)[k] == cached
  {
    if onScreen != [] {
      CacheNeverUpdates(cached, onScreen[1..]);
    }
  }

  /**
   * Reads keep following the screen until the first read that sees both
   * coordinates non-zero; from then on they all return that point.
   */
  lemma {:induction false} CacheSticksAtFirstSetRead(cached: Point, onScreen: seq<Point>, k: nat)
    requires cached.x == 0 || cached.y == 0
    requires k < |onScreen| && onScreen[k].x != 0 && onScreen[k].y != 0
    requires forall j :: 0 <= j < k ==> onScreen[j].x == 0 || onScreen[j].y == 0
    ensures forall j :: 0 <= j <= k ==> ReadsFrom(cached, onScreen)[j] == onScreen[j]
    ensures forall j :: k <= j < |onScreen| ==> ReadsFrom(cached, onScreen)[j] == onScreen[k]
    decreases k
  {
    var p := ReadLocation(cached, onScreen[0]);
    assert p == onScreen[0];
    if k == 0 {
      CacheNeverUpdates(p, onScreen[1..]);
    } else {
      CacheSticksAtFirstSetRead(p, onScreen[1..], k - 1);
    }
  }

  class ReactionView {
    /** The reaction this icon shows, fixed at construction. */
    const reaction: Reaction
    /** The view built once from `reaction.onView`. */
    const child: ChildView
    /** The views added to this frame. */
    const children: seq<ChildView>

    /** The cached `Point` behind the `location` property. */
    var cached: Point
    var childMeasuredWidth: int
    var childMeasuredHeight: int
    var measuredWidth: int
    var measuredHeight: int
    /** Where the last layout pass put this view. */
    var frame: Frame

    /** The frame holds exactly the one child its reaction built. */
    ghost predicate Built() {
      children == [child] && child == ChildView(reaction.onView)
    }

    /** Built, and measured to its child's size. */
    ghost predicate Valid()
      reads this`childMeasuredWidth, this`childMeasuredHeight, this`measuredWidth, this`measuredHeight
    {
      && Built()
      && measuredWidth == childMeasuredWidth
      && measuredHeight == childMeasuredHeight
    }

    constructor (reaction: Reaction)
      ensures Valid()
      ensures this.reaction == reaction && children == [ChildView(reaction.onView)]
      ensures cached == Point(0, 0) && measuredWidth == 0 && measuredHeight == 0
    {
      this.reaction := reaction;
      child := ChildView(reaction.onView);
      children := [ChildView(reaction.onView)];
      cached := Point(0, 0);
      childMeasuredWidth, childMeasuredHeight := 0, 0;
      measuredWidth, measuredHeight := 0, 0;
      frame := Frame(0, 0, 0, 0);
    }

    /**
     * The `location` getter. `onScreen` is what `getLocationOnScreen` reports
     * now; it is consulted only when a cached coordinate is 0, and then it
     * overwrites the cache before being returned.
     */
    method Location(onScreen: Point) returns (p: Point)
      modifies this`cached
      ensures old(cached).x != 0 && old(cached).y != 0 ==> p == old(cached)
      ensures (old(cached).x == 0 || old(cached).y == 0) ==> p == onScreen
      ensures cached == p
    {
      if cached.x == 0 || cached.y == 0 {
        cached := onScreen;
      }
      p := cached;
    }

    /**
     * A measure pass: the child is measured (to the size the platform gives
     * it) and this view takes exactly the child's measured size.
     */
    method OnMeasure(childWidth: int, childHeight: int)
      requires Built()
      modifies this`childMeasuredWidth, this`childMeasuredHeight, this`measuredWidth, this`measuredHeight
      ensures Valid()
      ensures measuredWidth == childMeasuredWidth == childWidth
      ensures measuredHeight == childMeasuredHeight == childHeight
    {
      childMeasuredWidth, childMeasuredHeight := childWidth, childHeight;
      measuredWidth, measuredHeight := childMeasuredWidth, childMeasuredHeight;
    }

    /** `View.layout`: records the frame the parent chose. */
    method Layout(f: Frame)
      modifies this`frame
      ensures frame == f
    {
      frame := f;
    }
  }
}
