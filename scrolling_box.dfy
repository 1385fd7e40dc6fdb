/*
 * ScrollingBox: a column whose children live in a zero-height "flat" box.
 * The children overflow the flat box, and scrolling moves the flat box up
 * by a fraction (scrollY) of the content height.
 */
module Scrolling {
  import opened Wrappers
  import opened XmlAttributes
  import opened Animations
  import opened Views
  import opened Boxes

  const AutoHeightMessage := "Cannot use brls::View::AUTO as height in a ScrollingBox child"

  /** The tag startScrolling kills and animates with: the address of scrollY. */
  function ScrollTag(owner: object): Tag { AddressTag(Subject(owner, ScrollY)) }

  function Abs(x: real): (r: real)
    ensures r >= 0.0 && (r == x || r == -x)
  {
    if x < 0.0 then -x else x
  }

  /** C++ float-to-int conversion: the fractional part is dropped, towards zero. */
  function TruncToInt(x: real): (r: int)
    ensures x >= 0.0 ==> 0.0 <= r as real <= x < r as real + 1.0
    ensures x < 0.0 ==> x <= r as real <= 0.0 && r as real - 1.0 < x
  {
    if x >= 0.0 then x.Floor else -((-x).Floor)
  }

  /** The layout results of some views, in order. */
  function Layouts(views: seq<View>): (r: seq<Layout>)
    reads views
    ensures |r| == |views| && forall i :: 0 <= i < |views| ==> r[i] == views[i].layout
  {
    if |views| == 0 then [] else [views[0].layout] + Layouts(views[1..])
  }

  /** getContentHeight: from the first child's top to the last child's bottom margin; 0 without children. */
  function ContentSpan(ls: seq<Layout>): real
  {
    if |ls| == 0 then 0.0
    else ls[|ls| - 1].top + (ls[|ls| - 1].height + ls[|ls| - 1].marginBottom) - ls[0].top
  }

  /** The room a child takes in the column: its height and bottom margin. */
  function Extent(l: Layout): real
  {
    l.height + l.marginBottom
  }

  function Extents(ls: seq<Layout>): (r: seq<real>)
    ensures |r| == |ls| && forall i :: 0 <= i < |ls| ==> r[i] == Extent(ls[i])
  {
    if |ls| == 0 then [] else Extents(ls[..|ls| - 1]) + [Extent(ls[|ls| - 1])]
  }

  /** Children laid out one below the other, each starting where the previous one's bottom margin ends. */
  predicate Stacked(ls: seq<Layout>)
  {
    forall i :: 0 < i < |ls| ==> ls[i].top == ls[i - 1].top + Extent(ls[i - 1])
  }

  /** For stacked children the content height is the sum of their extents. */
  lemma {:induction false} StackedContentSpan(ls: seq<Layout>)
    requires Stacked(ls)
    ensures ContentSpan(ls) == Sum(Extents(ls))
    decreases |ls|
  {
    if |ls| > 1 {
      var n := |ls| - 1;
      StackedPrefix(ls);
      StackedContentSpan(ls[..n]);
      SpanStep(ls);
      ExtentsStep(ls);
    } else if |ls| == 1 {
      assert Extents(ls) == [Extent(ls[0])];
      assert Sum([Extent(ls[0])]) == Sum([]) + Extent(ls[0]);
    }
  }

  lemma StackedPrefix(ls: seq<Layout>)
    requires Stacked(ls) && |ls| > 0
    ensures Stacked(ls[..|ls| - 1])
  {
    var front := ls[..|ls| - 1];
    forall i | 0 < i < |front| ensures front[i].top == front[i - 1].top + Extent(front[i - 1]) {
      assert front[i] == ls[i] && front[i - 1] == ls[i - 1];
    }
  }

  /** Appending a stacked child grows the content by the child's extent. */
  lemma SpanStep(ls: seq<Layout>)
    requires Stacked(ls) && |ls| > 1
    ensures ContentSpan(ls) == ContentSpan(ls[..|ls| - 1]) + Extent(ls[|ls| - 1])
  {
    var n := |ls| - 1;
    var front := ls[..n];
    assert front[n - 1] == ls[n - 1] && front[0] == ls[0];
    assert ls[n].top == ls[n - 1].top + Extent(ls[n - 1]);
  }

  lemma ExtentsStep(ls: seq<Layout>)
    requires |ls| > 0
    ensures Sum(Extents(ls)) == Sum(Extents(ls[..|ls| - 1])) + Extent(ls[|ls| - 1])
  {
    var n := |ls| - 1;
    assert Extents(ls) == Extents(ls[..n]) + [Extent(ls[n])];
    assert (Extents(ls[..n]) + [Extent(ls[n])])[..n] == Extents(ls[..n]);
  }

  /**
   * The scroll offset updateScrolling wants, in pixels from the natural
   * position: it moves the focused view's middle to middleY, then stops at
   * the bottom (the content's end may not rise above bottomY) and at the
   * top (the content's start may not come down past the area's top).
   */
  function ClampedOffset(scrollY: real, content: real, selectionMiddle: int, middleY: real,
                         top: real, bottomY: real, areaHeight: real): (offset: real)
    ensures offset <= 0.0
  {
    var wanted := -(scrollY * content) - (selectionMiddle as real - middleY);
    var bottomClamped := if top + wanted + content < bottomY then areaHeight - content else wanted;
    if bottomClamped > 0.0 then 0.0 else bottomClamped
  }

  /** updateScrolling's new scrollY: the clamped offset as a fraction of the content height. */
  function ScrollTarget(scrollY: real, content: real, selectionMiddle: int, middleY: real,
                        top: real, bottomY: real, areaHeight: real): (r: real)
    requires content > 0.0
    ensures r >= 0.0
    ensures r * content == -ClampedOffset(scrollY, content, selectionMiddle, middleY, top, bottomY, areaHeight)
  {
    Abs(ClampedOffset(scrollY, content, selectionMiddle, middleY, top, bottomY, areaHeight)) / content
  }

  /**
   * With prebaked boundaries (bottomY is the area's bottom) and a
   * non-negative area, the new scrollY is a fraction in [0, 1].
   */
  lemma ScrollTargetInUnit(scrollY: real, content: real, selectionMiddle: int, middleY: real,
                           top: real, areaHeight: real)
    requires content > 0.0 && areaHeight >= 0.0
    ensures 0.0 <= ScrollTarget(scrollY, content, selectionMiddle, middleY, top, top + areaHeight, areaHeight) <= 1.0
  {
    var offset := ClampedOffset(scrollY, content, selectionMiddle, middleY, top, top + areaHeight, areaHeight);
    assert -content <= offset;
    var r := ScrollTarget(scrollY, content, selectionMiddle, middleY, top, top + areaHeight, areaHeight);
    assert r * content <= 1.0 * content;
  }

  /** Content that fits in the area never scrolls. */
  lemma FittingContentStaysAtTop(scrollY: real, content: real, selectionMiddle: int, middleY: real,
                                 top: real, areaHeight: real)
    requires 0.0 < content <= areaHeight
    ensures ScrollTarget(scrollY, content, selectionMiddle, middleY, top, top + areaHeight, areaHeight) == 0.0
  {
    var offset := ClampedOffset(scrollY, content, selectionMiddle, middleY, top, top + areaHeight, areaHeight);
    assert offset == 0.0;
  }

  /** Content taller than the area always reaches the area's bottom after scrolling. */
  lemma TallContentFillsArea(scrollY: real, content: real, selectionMiddle: int, middleY: real,
                             top: real, areaHeight: real)
    requires content >= areaHeight
    ensures top + ClampedOffset(scrollY, content, selectionMiddle, middleY, top, top + areaHeight, areaHeight) + content
      >= top + areaHeight
  {
  }

  /**
   * Away from both boundaries the focused view's middle lands exactly on
   * middleY: the flat box moves by the distance between the two.
   */
  lemma ScrollCentresSelection(scrollY: real, content: real, selectionMiddle: int, middleY: real,
                               top: real, areaHeight: real)
    requires content > 0.0
    requires var wanted := -(scrollY * content) - (selectionMiddle as real - middleY);
      areaHeight - content <= wanted <= 0.0
    ensures var r := ScrollTarget(scrollY, content, selectionMiddle, middleY, top, top + areaHeight, areaHeight);
      selectionMiddle as real + (-(r * content) - -(scrollY * content)) == middleY
  {
  }

  /** The focused view's middle on screen, as the int updateScrolling stores it in. */
  function SelectionMiddle(focusedChain: seq<View>): int
    requires IsParentChain(focusedChain)
    reads focusedChain
  {
    TruncToInt(GetY(focusedChain) + GetHeight(focusedChain[0], true) / 2.0)
  }

  /** Five rows of height 100 stacked from y = 0. */
  function FiveRows(): seq<Layout>
  {
    [Layout(0.0, 0.0, 400.0, 100.0, 0.0, 0.0, 0.0),
     Layout(0.0, 100.0, 400.0, 100.0, 0.0, 0.0, 0.0),
     Layout(0.0, 200.0, 400.0, 100.0, 0.0, 0.0, 0.0),
     Layout(0.0, 300.0, 400.0, 100.0, 0.0, 0.0, 0.0),
     Layout(0.0, 400.0, 400.0, 100.0, 0.0, 0.0, 0.0)]
  }

  /**
   * Five 100-high rows in a 300-high area at y = 0, not yet scrolled:
   * focusing the last row scrolls to the bottom (200 of 500 pixels), and
   * focusing the first row stays at the top.
   */
  lemma FiveRowsScroll()
    ensures ContentSpan(FiveRows()) == 500.0
    ensures TruncToInt(400.0 + 100.0 / 2.0) == 450
    ensures ScrollTarget(0.0, 500.0, 450, 150.0, 0.0, 300.0, 300.0) == 0.4
    ensures ScrollTarget(0.0, 500.0, 50, 150.0, 0.0, 300.0, 300.0) == 0.0
  {
    var rows := FiveRows();
    assert ContentSpan(rows) == rows[4].top + (rows[4].height + rows[4].marginBottom) - rows[0].top;
    assert ClampedOffset(0.0, 500.0, 450, 150.0, 0.0, 300.0, 300.0) == -200.0;
    assert ClampedOffset(0.0, 500.0, 50, 150.0, 0.0, 300.0, 300.0) == 0.0;
  }

  class ScrollingBox {
    /** The ScrollingBox as a Box: a column whose only child is the flat box. */
    const box: Box
    /** The internal box every user child goes to. */
    const flatBox: Box
    var updateScrollingOnNextFrame: bool
    /** Prebaked y + height / 2 of the scrolling area. */
    var middleY: real
    /** Prebaked y + height of the scrolling area. */
    var bottomY: real
    /** How far the content is scrolled, as a fraction of its height. */
    var scrollY: real

    ghost predicate Valid()
      reads this, box, box.children, flatBox, flatBox.children
    {
      && box != flatBox && box.node != flatBox.node
      && box.children == [flatBox.node]
      && flatBox.node.parent == box.node && flatBox.node.parentUserdata == Position(0)
      && box.Valid() && flatBox.Valid()
      && !box.cullingFromParent && flatBox.cullingFromParent
      && !flatBox.node.culled
    }

    /** A column holding the zero-height, never culled flat box; not scrolled. */
    constructor ()
      ensures Valid() && fresh(box) && fresh(flatBox) && fresh(box.node) && fresh(flatBox.node)
      ensures box.axis == Column && flatBox.axis == Column && flatBox.children == []
      ensures flatBox.node.height == Points(0.0)
      ensures scrollY == 0.0 && middleY == 0.0 && bottomY == 0.0 && !updateScrollingOnNextFrame
    {
      var b := new Box(Column);
      var f := new Box.Internal();
      f.node.SetHeight(Points(0.0));
      var _ := b.AddView(f.node);
      box := b;
      flatBox := f;
      updateScrollingOnNextFrame := false;
      middleY := 0.0;
      bottomY := 0.0;
      scrollY := 0.0;
    }

    /**
     * addView: a child with an automatic height is refused, since the
     * content height must be known; any other goes to the flat box.
     */
    method AddView(v: View) returns (r: Result<Notification, string>)
      requires Valid() && (v.height != Auto ==> v.parent == null)
      modifies flatBox`children, v`parent, v`parentUserdata
      ensures r.Failure? <==> old(v.height) == Auto
      ensures r.Failure? ==> r.error == AutoHeightMessage && flatBox.children == old(flatBox.children)
      ensures r.Success? ==> flatBox.children == old(flatBox.children) + [v] && v.parent == flatBox.node
      ensures r.Success? ==> r.value == Notification(v, Lifecycle.WillAppear(false))
      ensures box.children == old(box.children) && Valid()
    {
      if v.height == Auto {
        return Failure(AutoHeightMessage);
      }
      var note := flatBox.AddView(v);
      r := Success(note);
    }

    /** handleXMLTag: the created view goes through this ScrollingBox's addView. */
    method HandleXMLTag(created: View) returns (r: Result<Notification, string>)
      requires Valid() && (created.height != Auto ==> created.parent == null)
      modifies flatBox`children, created`parent, created`parentUserdata
      ensures r.Failure? <==> old(created.height) == Auto
      ensures r.Success? ==> flatBox.children == old(flatBox.children) + [created]
      ensures r.Failure? ==> flatBox.children == old(flatBox.children)
      ensures Valid()
    {
      r := AddView(created);
    }

    /** getContentHeight over the flat box's children. */
    function ContentHeight(): real
      reads flatBox, flatBox.children
    {
      ContentSpan(Layouts(flatBox.children))
    }

    /** getScrollingAreaTopBoundary: the box's y plus its top padding. */
    function TopBoundary(chain: seq<View>): real
      requires IsParentChain(chain) && chain[0] == box.node
      reads chain
    {
      GetY(chain) + box.node.layout.paddingTop
    }

    /** getScrollingAreaHeight: the box's height without its vertical padding. */
    function AreaHeight(): real
      reads box.node
    {
      GetHeight(box.node, true) - box.node.layout.paddingTop - box.node.layout.paddingBottom
    }

    /** middleY and bottomY match the scrolling area described by `chain`. */
    ghost predicate Prebaked(chain: seq<View>)
      requires IsParentChain(chain) && chain[0] == box.node
      reads this, chain, box.node
    {
      middleY == TopBoundary(chain) + AreaHeight() / 2.0 && bottomY == TopBoundary(chain) + AreaHeight()
    }

    method PrebakeScrolling(chain: seq<View>)
      requires IsParentChain(chain) && chain[0] == box.node
      modifies this`middleY, this`bottomY
      ensures Prebaked(chain)
    {
      var y := TopBoundary(chain);
      var height := AreaHeight();
      middleY := y + height / 2.0;
      bottomY := y + height;
    }

    /**
     * startScrolling: nothing happens when the value is already scrollY.
     * Otherwise the running scroll tween stops; animated, a new tween
     * towards the value starts and scrollY is left to it; not animated,
     * scrollY takes the value at once.
     */
    method StartScrolling(animated: bool, newScroll: real, sched: Scheduler)
      modifies this`scrollY, sched`entries
      ensures newScroll == old(scrollY) ==> scrollY == old(scrollY) && sched.entries == old(sched.entries)
      ensures newScroll != old(scrollY) && animated ==>
        scrollY == old(scrollY) && sched.entries == Restart(old(sched.entries), Tween(ScrollTag(this), Subject(this, ScrollY), newScroll))
      ensures newScroll != old(scrollY) && !animated ==>
        scrollY == newScroll && sched.entries == KillByTag(old(sched.entries), ScrollTag(this))
    {
      if newScroll == scrollY {
        return;
      }
      sched.Kill(ScrollTag(this));
      if animated {
        sched.Push(Tween(ScrollTag(this), Subject(this, ScrollY), newScroll));
      } else {
        scrollY := newScroll;
      }
    }

    /** Where scrollY puts the flat box: up by that fraction of the content height. */
    function ScrollOffset(): real
      reads this, flatBox, flatBox.children
    {
      -(scrollY * ContentHeight())
    }

    /** scrollAnimationTick: the flat box's top position becomes the offset scrollY calls for. */
    method ScrollAnimationTick()
      modifies flatBox.node`positionTop
      ensures flatBox.node.positionTop == Some(old(ScrollOffset()))
    {
      var offset := ScrollOffset();
      flatBox.node.positionTop := Some(offset);
    }

    /**
     * updateScrolling's target for the focused view at the head of
     * `focusedChain`: its middle, truncated to an int, brought to the
     * prebaked middleY within the boundaries.
     */
    function NewScroll(focusedChain: seq<View>, chain: seq<View>): real
      requires IsParentChain(chain) && chain[0] == box.node && IsParentChain(focusedChain)
      requires ContentHeight() > 0.0
      reads this, flatBox, flatBox.children, box.node, chain, focusedChain
    {
      ScrollTarget(scrollY, ContentHeight(), SelectionMiddle(focusedChain), middleY, TopBoundary(chain), bottomY, AreaHeight())
    }

    /** On a prebaked, non-negative area the target is a fraction in [0, 1]. */
    lemma NewScrollInUnit(focusedChain: seq<View>, chain: seq<View>)
      requires IsParentChain(chain) && chain[0] == box.node && IsParentChain(focusedChain)
      requires ContentHeight() > 0.0 && Prebaked(chain) && AreaHeight() >= 0.0
      ensures 0.0 <= NewScroll(focusedChain, chain) <= 1.0
    {
      ScrollTargetInUnit(scrollY, ContentHeight(), SelectionMiddle(focusedChain), middleY, TopBoundary(chain), AreaHeight());
    }

    /**
     * updateScrolling: nothing to do without children; otherwise start
     * scrolling towards NewScroll, animated or not.
     */
    method UpdateScrolling(animated: bool, focusedChain: seq<View>, chain: seq<View>, sched: Scheduler)
      returns (updated: bool)
      requires IsParentChain(chain) && chain[0] == box.node && IsParentChain(focusedChain)
      requires |flatBox.children| > 0 ==> ContentHeight() > 0.0
      modifies this`scrollY, sched`entries
      ensures updated <==> |flatBox.children| > 0
      ensures !updated ==> scrollY == old(scrollY) && sched.entries == old(sched.entries)
      ensures updated && animated ==> scrollY == old(scrollY)
      ensures updated && !animated ==> scrollY == old(NewScroll(focusedChain, chain))
      ensures updated && old(NewScroll(focusedChain, chain)) != old(scrollY) ==>
        sched.entries == (if animated then Restart(old(sched.entries), Tween(ScrollTag(this), Subject(this, ScrollY), old(NewScroll(focusedChain, chain))))
                          else KillByTag(old(sched.entries), ScrollTag(this)))
      ensures updated && old(NewScroll(focusedChain, chain)) == old(scrollY) ==> sched.entries == old(sched.entries)
      ensures updated && !animated && old(Prebaked(chain)) && old(AreaHeight()) >= 0.0 ==> 0.0 <= scrollY <= 1.0
    {
      if |flatBox.children| == 0 {
        return false;
      }
      var target := NewScroll(focusedChain, chain);
      if Prebaked(chain) && AreaHeight() >= 0.0 {
        NewScrollInUnit(focusedChain, chain);
      }
      StartScrolling(animated, target, sched);
      return true;
    }

    /**
     * willAppear: prebake the area; when resetting, go back to the top at
     * once and retry scrolling to the focus on the next frame; then the
     * children are told.
     */
    method WillAppear(resetState: bool, chain: seq<View>, sched: Scheduler) returns (sent: seq<Notification>)
      requires IsParentChain(chain) && chain[0] == box.node
      modifies this`middleY, this`bottomY, this`scrollY, this`updateScrollingOnNextFrame, sched`entries
      ensures Prebaked(chain)
      ensures resetState ==> scrollY == 0.0 && updateScrollingOnNextFrame
      ensures resetState && old(scrollY) != 0.0 ==> sched.entries == KillByTag(old(sched.entries), ScrollTag(this))
      ensures !resetState ==> scrollY == old(scrollY) && updateScrollingOnNextFrame == old(updateScrollingOnNextFrame)
      ensures !resetState || old(scrollY) == 0.0 ==> sched.entries == old(sched.entries)
      ensures sent == Broadcast(box.children, Lifecycle.WillAppear(resetState))
    {
      PrebakeScrolling(chain);
      if resetState {
        StartScrolling(false, 0.0, sched);
        updateScrollingOnNextFrame := true;
      }
      sent := box.WillAppear(resetState);
    }

    /**
     * The first step of draw: a pending scroll update is retried,
     * non-animated, and stays pending until it succeeds, that is until the
     * flat box has children.
     */
    method RetryScrolling(chain: seq<View>, focusedChain: seq<View>, sched: Scheduler)
      requires IsParentChain(chain) && chain[0] == box.node && IsParentChain(focusedChain)
      requires |flatBox.children| > 0 ==> ContentHeight() > 0.0
      modifies this`scrollY, this`updateScrollingOnNextFrame, sched`entries
      ensures updateScrollingOnNextFrame == (old(updateScrollingOnNextFrame) && |flatBox.children| == 0)
      ensures !old(updateScrollingOnNextFrame) || |flatBox.children| == 0 ==>
        scrollY == old(scrollY) && sched.entries == old(sched.entries)
      ensures old(updateScrollingOnNextFrame) && |flatBox.children| > 0 ==> scrollY == old(NewScroll(focusedChain, chain))
    {
      if updateScrollingOnNextFrame {
        var updated := UpdateScrolling(false, focusedChain, chain, sched);
        if updated {
          updateScrollingOnNextFrame := false;
        }
      }
    }

    /**
     * draw: the pending scroll update is retried, then the Box draws, which
     * frames exactly the flat box.
     */
    method Draw(chain: seq<View>, focusedChain: seq<View>, sched: Scheduler) returns (framed: seq<View>)
      requires Valid() && IsParentChain(chain) && chain[0] == box.node && IsParentChain(focusedChain)
      requires |flatBox.children| > 0 ==> ContentHeight() > 0.0
      modifies this`scrollY, this`updateScrollingOnNextFrame, sched`entries
      ensures updateScrollingOnNextFrame == (old(updateScrollingOnNextFrame) && |flatBox.children| == 0)
      ensures !old(updateScrollingOnNextFrame) ==> scrollY == old(scrollY) && sched.entries == old(sched.entries)
      ensures framed == [flatBox.node]
    {
      RetryScrolling(chain, focusedChain, sched);
      FlatBoxAlwaysFramed(chain);
      framed := box.Draw(chain);
    }

    /** The flat box is never culled, so the box's own draw always frames it. */
    lemma FlatBoxAlwaysFramed(chain: seq<View>)
      requires Valid() && IsParentChain(chain) && chain[0] == box.node
      ensures Framed(box.children, chain, box.CullingBounds(chain)) == [flatBox.node]
    {
      var bounds := box.CullingBounds(chain);
      assert Drawn(flatBox.node, chain, bounds);
      assert box.children[..0] == [];
    }

    /**
     * The flat box culls its children against the ScrollingBox's own
     * rectangle, not its own zero-height one.
     */
    lemma FlatBoxCullsToScrollingBox(chain: seq<View>)
      requires Valid() && IsParentChain(chain) && chain[0] == box.node
      ensures IsParentChain([flatBox.node] + chain)
      ensures flatBox.CullingBounds([flatBox.node] + chain) == box.CullingBounds(chain)
    {
      ParentChainCons(flatBox.node, chain);
      assert ([flatBox.node] + chain)[1..] == chain;
    }

    /**
     * onChildFocusGained: scroll, animated, to the newly focused view, then
     * pass the call on to the parent naming this box as the direct child.
     */
    method OnChildFocusGained(focused: View, focusedChain: seq<View>, chain: seq<View>, sched: Scheduler)
      returns (passed: Option<FocusNote>)
      requires Valid() && IsParentChain(chain) && chain[0] == box.node && IsParentChain(focusedChain)
      requires |flatBox.children| > 0 ==> ContentHeight() > 0.0
      modifies this`scrollY, sched`entries
      ensures scrollY == old(scrollY)
      ensures |flatBox.children| == 0 ==> sched.entries == old(sched.entries)
      ensures |flatBox.children| > 0 && old(NewScroll(focusedChain, chain)) != old(scrollY) ==>
        sched.entries == Restart(old(sched.entries), Tween(ScrollTag(this), Subject(this, ScrollY), old(NewScroll(focusedChain, chain))))
      ensures |flatBox.children| > 0 && old(NewScroll(focusedChain, chain)) == old(scrollY) ==> sched.entries == old(sched.entries)
      ensures passed.Some? <==> box.node.parent != null
      ensures passed.Some? ==> passed.value == FocusNote(box.node.parent, box.node, focused)
      ensures passed.Some? ==> [passed.value] == ChildFocusNotes(chain, focused)[..1]
    {
      var _ := UpdateScrolling(true, focusedChain, chain, sched);
      HasParentIffLonger(chain);
      if box.node.parent != null {
        ParentChainTail(chain);
        passed := Some(FocusNote(box.node.parent, box.node, focused));
      } else {
        passed := None;
      }
    }
  }
}
