/*
 * The legacy BoxLayout: a list of children laid out one after the other
 * along an orientation, with its own focus walk and a remembered default
 * focus. Each child sits in a list entry; the child's parent userdata
 * identifies that entry, as the C++ list iterator does.
 */
module BoxLayouts {
  import opened Wrappers
  import opened Views
  import opened Focus
  import opened Boxes

  datatype Orientation = Horizontal | Vertical

  const U32: int := 0x1_0000_0000

  /** One entry of the children list: the view and whether it fills the remaining space. */
  class BoxLayoutChild {
    const view: View
    const fill: bool

    constructor (view: View, fill: bool)
      ensures this.view == view && this.fill == fill
    {
      this.view := view;
      this.fill := fill;
    }
  }

  /** No list entry occurs twice. */
  predicate Distinct(children: seq<BoxLayoutChild>)
  {
    forall i, j :: 0 <= i < j < |children| ==> children[i] != children[j]
  }

  /** `e` is one of the entries. */
  predicate Holds(children: seq<BoxLayoutChild>, e: object)
  {
    exists i :: 0 <= i < |children| && children[i] == e
  }

  /** std::distance from the first entry to `e`: the position of the first entry that is `e`. */
  function EntryIndex(children: seq<BoxLayoutChild>, e: object): (r: nat)
    requires Holds(children, e)
    ensures r < |children| && children[r] == e
    ensures forall j :: 0 <= j < r ==> children[j] != e
  {
    if children[0] == e then 0
    else
      assert Holds(children[1..], e) by {
        var i :| 0 <= i < |children| && children[i] == e;
        assert children[1..][i - 1] == e;
      }
      1 + EntryIndex(children[1..], e)
  }

  /** In a list without repeated entries, an entry's index is the only place it occurs. */
  lemma EntryIndexUnique(children: seq<BoxLayoutChild>, i: nat)
    requires Distinct(children) && i < |children|
    ensures Holds(children, children[i]) && EntryIndex(children, children[i]) == i
  {
    assert children[i] == children[i];
  }

  /** The views of the entries, in order. */
  function EntryViews(children: seq<BoxLayoutChild>): (r: seq<View>)
    ensures |r| == |children| && forall i :: 0 <= i < |children| ==> r[i] == children[i].view
  {
    if |children| == 0 then [] else [children[0].view] + EntryViews(children[1..])
  }

  /** Removing the first entry drops the first of the views the entries hold. */
  lemma EntryViewsDropFirst(children: seq<BoxLayoutChild>, views: seq<View>, k: nat)
    requires 0 < |children| && k <= |views| && EntryViews(children) == views[k..]
    ensures k < |views| && children[0].view == views[k]
    ensures EntryViews(children[..0] + children[1..]) == views[k + 1..]
  {
    assert children[..0] + children[1..] == children[1..];
    assert views[k..][1..] == views[k + 1..];
  }

  lemma DistinctRemove(children: seq<BoxLayoutChild>, k: nat)
    requires Distinct(children) && k < |children|
    ensures Distinct(children[..k] + children[k + 1..])
  {
    var r := children[..k] + children[k + 1..];
    forall i, j | 0 <= i < j < |r| ensures r[i] != r[j] {
      var i' := if i < k then i else i + 1;
      var j' := if j < k then j else j + 1;
      assert r[i] == children[i'] && r[j] == children[j'];
    }
  }

  /**
   * The ring a std::list forms with its end sentinel: position |children|
   * is end(), the step after the last entry is end(), and the step before
   * the first entry is end() as well.
   */
  function RingStep(n: nat, it: nat, offset: int): (r: nat)
    requires it <= n && (offset == 1 || offset == -1)
    ensures r <= n
    ensures offset == 1 ==> r == if it == n then 0 else it + 1
    ensures offset == -1 ==> r == if it == 0 then n else it - 1
  {
    if offset == 1 then (if it == n then 0 else it + 1)
    else if it == 0 then n else it - 1
  }

  /**
   * One step of the std::next walk reads as one step of Scan: from a
   * position, the ring's next slot is where Scan goes on, and end() is
   * where Scan leaves the children.
   */
  lemma RingStepScans(foci: seq<View?>, i: nat, offset: int)
    requires i < |foci| && (offset == 1 || offset == -1)
    ensures var next := RingStep(|foci|, i, offset);
      Scan(foci, i + offset, offset) == if next == |foci| then None else Scan(foci, next, offset)
    ensures foci[i] == null ==> Scan(foci, i, offset) == Scan(foci, i + offset, offset)
  {
  }

  /**
   * The walk of getNextFocus over the list seen as a ring with end() as
   * its extra slot: from the current entry it steps on, reading each
   * entry's answer, until an answer or end() is met. It finds what Scan
   * finds from the neighbour of the current entry.
   */
  method WalkRing(foci: seq<View?>, position: nat, offset: int) returns (r: View?)
    requires position < |foci| && (offset == 1 || offset == -1)
    ensures r == match Scan(foci, position + offset, offset) case None => null case Some(k) => foci[k]
  {
    var n := |foci|;
    ghost var start := position + offset;
    RingStepScans(foci, position, offset);
    var it: nat := RingStep(n, position, offset);
    ghost var last := 0;
    r := null;
    while r == null && it != n
      invariant it <= n
      invariant r == null ==> Scan(foci, start, offset) == (if it == n then None else Scan(foci, it, offset))
      invariant r != null ==> last < n && Scan(foci, start, offset) == Some(last) && r == foci[last]
      decreases if offset == 1 then n - it else if it == n then 0 else it + 1
    {
      RingStepScans(foci, it, offset);
      r := foci[it];
      last := it;
      it := RingStep(n, it, offset);
    }
  }

  /** What the child list occupies on the main axis at one child: its height after layout, and the customSpacing hook's answer. */
  datatype ChildMetrics = ChildMetrics(height: nat, customSpacing: Option<int>, collapsed: bool, hidden: bool)

  /** The (int) cast of an unsigned 32-bit value. */
  function AsSigned(u: nat): (r: int)
    requires u < U32
    ensures -0x8000_0000 <= r < 0x8000_0000
    ensures r % U32 == u % U32
  {
    if u < 0x8000_0000 then u else u - U32
  }

  /** The spacing after a child: the hook's value or the layout's own, and none after a collapsed child. */
  function ChildSpacing(m: ChildMetrics, spacing: nat): int
    requires spacing < U32
  {
    if m.collapsed then 0
    else match m.customSpacing
      case Some(s) => s
      case None => AsSigned(spacing)
  }

  /** How far the next child starts below this one. */
  function Advance(m: ChildMetrics, spacing: nat): int
    requires spacing < U32
  {
    ChildSpacing(m, spacing) + m.height
  }

  /** The advances of all children, added from the first. */
  function TotalAdvance(ms: seq<ChildMetrics>, spacing: nat): int
    requires spacing < U32
  {
    if |ms| == 0 then 0 else TotalAdvance(ms[..|ms| - 1], spacing) + Advance(ms[|ms| - 1], spacing)
  }

  /** The advances of the children that are not hidden, unbounded. */
  function VisibleAdvance(ms: seq<ChildMetrics>, spacing: nat): int
    requires spacing < U32
  {
    if |ms| == 0 then 0
    else VisibleAdvance(ms[..|ms| - 1], spacing) + (if ms[|ms| - 1].hidden then 0 else Advance(ms[|ms| - 1], spacing))
  }

  /** The children that are not hidden, in order. */
  function Shown(ms: seq<ChildMetrics>): (r: seq<ChildMetrics>)
    ensures |r| <= |ms| && forall i :: 0 <= i < |r| ==> !r[i].hidden
  {
    if |ms| == 0 then []
    else Shown(ms[..|ms| - 1]) + (if ms[|ms| - 1].hidden then [] else [ms[|ms| - 1]])
  }

  /** entriesHeight counts exactly the children that are not hidden. */
  lemma {:induction false} VisibleAdvanceOfShown(ms: seq<ChildMetrics>, spacing: nat)
    requires spacing < U32
    ensures VisibleAdvance(ms, spacing) == TotalAdvance(Shown(ms), spacing)
    decreases |ms|
  {
    if |ms| > 0 {
      var n := |ms| - 1;
      VisibleAdvanceOfShown(ms[..n], spacing);
      var s := Shown(ms[..n]);
      if !ms[n].hidden {
        assert Shown(ms) == s + [ms[n]];
        assert (s + [ms[n]])[..|s|] == s;
        assert TotalAdvance(s + [ms[n]], spacing) == TotalAdvance(s, spacing) + Advance(ms[n], spacing);
      } else {
        assert Shown(ms) == s;
      }
    }
  }

  /** Without hidden children entriesHeight is the whole advance. */
  lemma {:induction false} NoHiddenVisibleIsTotal(ms: seq<ChildMetrics>, spacing: nat)
    requires spacing < U32
    requires forall i :: 0 <= i < |ms| ==> !ms[i].hidden
    ensures VisibleAdvance(ms, spacing) == TotalAdvance(ms, spacing)
    decreases |ms|
  {
    if |ms| > 0 {
      NoHiddenVisibleIsTotal(ms[..|ms| - 1], spacing);
    }
  }

  /** A collapsed child advances by its height alone, whatever the spacing. */
  lemma CollapsedAdvance(m: ChildMetrics, spacing: nat)
    requires spacing < U32 && m.collapsed
    ensures Advance(m, spacing) == m.height
  {
  }

  /** With non-negative spacings the children's tops never go up. */
  lemma {:induction false} TotalAdvanceMonotone(ms: seq<ChildMetrics>, spacing: nat, i: nat, j: nat)
    requires spacing < U32 && i <= j <= |ms|
    requires forall k :: 0 <= k < |ms| ==> ChildSpacing(ms[k], spacing) >= 0
    ensures TotalAdvance(ms[..i], spacing) <= TotalAdvance(ms[..j], spacing)
    decreases j
  {
    if i < j {
      TotalAdvanceMonotone(ms, spacing, i, j - 1);
      assert ms[..j][..j - 1] == ms[..j - 1];
      assert ms[..j][j - 1] == ms[j - 1];
    }
  }

  lemma TotalAdvanceStep(ms: seq<ChildMetrics>, spacing: nat, i: nat)
    requires spacing < U32 && i < |ms|
    ensures TotalAdvance(ms[..i + 1], spacing) == TotalAdvance(ms[..i], spacing) + Advance(ms[i], spacing)
    ensures VisibleAdvance(ms[..i + 1], spacing) ==
      VisibleAdvance(ms[..i], spacing) + (if ms[i].hidden then 0 else Advance(ms[i], spacing))
  {
    assert ms[..i + 1][..i] == ms[..i];
  }

  lemma ModStep(a: int, b: int)
    ensures (a % U32 + b) % U32 == (a + b) % U32
  {
    var q := a / U32;
    assert a == q * U32 + a % U32;
    assert a + b == (a % U32 + b) + q * U32;
  }

  class BoxLayout {
    /** The BoxLayout's own view. */
    const node: View
    var orientation: Orientation
    const originalDefaultFocus: nat
    var defaultFocusedIndex: nat
    var children: seq<BoxLayoutChild>
    var rememberFocus: bool
    var childFocused: bool
    var spacing: nat
    var marginTop: nat
    var marginRight: nat
    var marginBottom: nat
    var marginLeft: nat

    /** Every entry is its own list node: none occurs twice. */
    ghost predicate Valid()
      reads this
    {
      Distinct(children) && spacing < U32
    }

    /** BoxLayout(orientation, defaultFocus): both the default and the original default focus are the given index. */
    constructor (orientation: Orientation, defaultFocus: nat)
      ensures this.orientation == orientation && children == []
      ensures originalDefaultFocus == defaultFocus && defaultFocusedIndex == defaultFocus
      ensures fresh(node) && Valid()
    {
      node := new View();
      this.orientation := orientation;
      originalDefaultFocus := defaultFocus;
      defaultFocusedIndex := defaultFocus;
      children := [];
      rememberFocus := false;
      childFocused := false;
      spacing := 0;
      marginTop := 0;
      marginRight := 0;
      marginBottom := 0;
      marginLeft := 0;
    }

    method SetSpacing(s: nat)
      requires s < U32
      modifies this`spacing
      ensures spacing == s
    {
      spacing := s;
    }

    method SetMargins(top: nat, right: nat, bottom: nat, left: nat)
      modifies this`marginTop, this`marginRight, this`marginBottom, this`marginLeft
      ensures marginTop == top && marginRight == right && marginBottom == bottom && marginLeft == left
    {
      marginBottom := bottom;
      marginLeft := left;
      marginRight := right;
      marginTop := top;
    }

    method SetRememberFocus(remember: bool)
      modifies this`rememberFocus
      ensures rememberFocus == remember
    {
      rememberFocus := remember;
    }

    /**
     * addView: a new entry for the view goes at the end of the list; the
     * view's parent is this layout and its userdata the new entry; then it
     * receives willAppear(resetState). The entry is returned.
     */
    method AddView(view: View, fill: bool, resetState: bool) returns (entry: BoxLayoutChild, sent: Notification)
      requires Valid()
      modifies this`children, view`parent, view`parentUserdata
      ensures fresh(entry) && entry.view == view && entry.fill == fill
      ensures children == old(children) + [entry]
      ensures view.parent == node && view.parentUserdata == ListEntry(entry)
      ensures sent == Notification(view, Lifecycle.WillAppear(resetState))
      ensures Valid()
    {
      entry := new BoxLayoutChild(view, fill);
      children := children + [entry];
      view.SetParent(node, ListEntry(entry));
      sent := Notification(view, Lifecycle.WillAppear(resetState));
    }

    /**
     * removeView(index): the view at `index` receives willDisappear(true)
     * and its entry leaves the list. The view is returned unless it was
     * freed.
     */
    method RemoveViewAt(index: nat, free: bool) returns (removed: View?, sent: Notification)
      requires Valid() && index < |children|
      modifies this`children
      ensures children == old(children)[..index] + old(children)[index + 1..]
      ensures sent == Notification(old(children)[index].view, Lifecycle.WillDisappear(true))
      ensures removed == if free then null else old(children)[index].view
      ensures Valid()
    {
      var view := children[index].view;
      sent := Notification(view, Lifecycle.WillDisappear(true));
      removed := if free then null else view;
      DistinctRemove(children, index);
      children := children[..index] + children[index + 1..];
    }

    /** removeView(iterator): as removeView(index) for the entry's position. */
    method RemoveView(entry: BoxLayoutChild, free: bool) returns (removed: View?, sent: Notification)
      requires Valid() && Holds(children, entry)
      modifies this`children
      ensures !Holds(children, entry) && |children| == |old(children)| - 1
      ensures children == old(children)[..EntryIndex(old(children), entry)] + old(children)[EntryIndex(old(children), entry) + 1..]
      ensures sent == Notification(entry.view, Lifecycle.WillDisappear(true))
      ensures removed == if free then null else entry.view
      ensures Valid()
    {
      var index := EntryIndex(children, entry);
      removed, sent := RemoveViewAt(index, free);
    }

    /** clear: removes the first view until none is left; every view receives willDisappear(true), in order. */
    method Clear(free: bool) returns (sent: seq<Notification>)
      requires Valid()
      modifies this`children
      ensures children == []
      ensures sent == Broadcast(EntryViews(old(children)), Lifecycle.WillDisappear(true))
      ensures Valid()
    {
      ghost var views := EntryViews(children);
      sent := [];
      ghost var k := 0;
      while |children| > 0
        invariant Valid() && 0 <= k <= |views|
        invariant EntryViews(children) == views[k..]
        invariant sent == Broadcast(views[..k], Lifecycle.WillDisappear(true))
        decreases |children|
      {
        ghost var rest := children;
        var _, note := RemoveViewAt(0, free);
        EntryViewsDropFirst(rest, views, k);
        BroadcastStep(views, k, Lifecycle.WillDisappear(true));
        sent := sent + [note];
        k := k + 1;
      }
      assert views[..k] == views;
    }

    /**
     * getDefaultFocus, given each child's getDefaultFocus answer: the
     * default index when in range and answered, else the first answer.
     */
    method GetDefaultFocus(foci: seq<View?>) returns (r: View?)
      requires |foci| == |children|
      ensures r == DefaultFocus(foci, defaultFocusedIndex)
    {
      if defaultFocusedIndex < |children| {
        r := foci[defaultFocusedIndex];
        if r != null {
          return;
        }
      }
      for i := 0 to |children|
        invariant Scan(foci, 0, 1) == Scan(foci, i, 1)
      {
        if foci[i] != null {
          return foci[i];
        }
      }
      return null;
    }

    /**
     * getNextFocus, given each child's getDefaultFocus answer: nothing
     * across the orientation; otherwise walk the list from the current
     * view's entry, reading each entry's answer and stepping on, until an
     * answer or end() is met. A step before the first entry lands on end().
     */
    method GetNextFocus(direction: FocusDirection, current: View, foci: seq<View?>) returns (r: View?)
      requires |foci| == |children|
      requires Aligned(orientation == Horizontal, direction) ==>
        current.parentUserdata.ListEntry? && Holds(children, current.parentUserdata.entry)
      ensures !Aligned(orientation == Horizontal, direction) ==> r == null
      ensures Aligned(orientation == Horizontal, direction) ==>
        r == NextFocus(orientation == Horizontal, direction, EntryIndex(children, current.parentUserdata.entry), foci)
    {
      var horizontal := orientation == Horizontal;
      if !Aligned(horizontal, direction) {
        return null;
      }
      var offset: int := if (horizontal && direction == Left) || (!horizontal && direction == Up) then -1 else 1;
      var position := EntryIndex(children, current.parentUserdata.entry);
      r := WalkRing(foci, position, offset);
    }

    /**
     * onChildFocusGained: a child now holds the focus; with rememberFocus
     * its entry's position becomes the default focus.
     */
    method OnChildFocusGained(child: View)
      requires rememberFocus ==> child.parentUserdata.ListEntry? && Holds(children, child.parentUserdata.entry)
      modifies this`childFocused, this`defaultFocusedIndex
      ensures childFocused
      ensures rememberFocus ==> defaultFocusedIndex < |children| && children[defaultFocusedIndex] == child.parentUserdata.entry
      ensures rememberFocus && Valid() ==> defaultFocusedIndex == EntryIndex(children, child.parentUserdata.entry)
      ensures !rememberFocus ==> defaultFocusedIndex == old(defaultFocusedIndex)
    {
      childFocused := true;
      if rememberFocus {
        defaultFocusedIndex := EntryIndex(children, child.parentUserdata.entry);
      }
    }

    /** onChildFocusLost: no child holds the focus any more. */
    method OnChildFocusLost(child: View)
      modifies this`childFocused
      ensures !childFocused
    {
      childFocused := false;
    }

    /** Delivers one lifecycle call to every child's view, in order. */
    method Propagate(event: Lifecycle) returns (sent: seq<Notification>)
      ensures sent == Broadcast(EntryViews(children), event)
    {
      ghost var views := EntryViews(children);
      sent := [];
      for i := 0 to |children|
        invariant sent == Broadcast(views[..i], event)
      {
        BroadcastStep(views, i, event);
        sent := sent + [Notification(children[i].view, event)];
      }
      assert views[..|children|] == views;
    }

    method WillAppear(resetState: bool) returns (sent: seq<Notification>)
      ensures sent == Broadcast(EntryViews(children), Lifecycle.WillAppear(resetState))
    {
      sent := Propagate(Lifecycle.WillAppear(resetState));
    }

    /** willDisappear: the children are told, and a remembered focus goes back to the original default. */
    method WillDisappear(resetState: bool) returns (sent: seq<Notification>)
      modifies this`defaultFocusedIndex
      ensures sent == Broadcast(EntryViews(children), Lifecycle.WillDisappear(resetState))
      ensures defaultFocusedIndex == if rememberFocus then originalDefaultFocus else old(defaultFocusedIndex)
    {
      sent := Propagate(Lifecycle.WillDisappear(resetState));
      if rememberFocus {
        defaultFocusedIndex := originalDefaultFocus;
      }
    }

    method OnWindowSizeChanged() returns (sent: seq<Notification>)
      ensures sent == Broadcast(EntryViews(children), WindowSizeChanged)
    {
      sent := Propagate(WindowSizeChanged);
    }

    /** The metrics describe the children: one each, with the views' own collapsed and hidden states. */
    ghost predicate Describes(ms: seq<ChildMetrics>)
      reads this, EntryViews(children)
    {
      && |ms| == |children|
      && forall i :: 0 <= i < |ms| ==>
        ms[i].collapsed == children[i].view.IsCollapsed() && ms[i].hidden == children[i].view.IsHidden()
    }

    /**
     * The vertical branch of layout: each child is placed at yAdvance,
     * which starts at y + marginTop and grows by the child's height and
     * the spacing after it; entriesHeight, an unsigned, adds the same for
     * every child that is not hidden.
     */
    method LayoutVertical(y: int, ms: seq<ChildMetrics>) returns (tops: seq<int>, entriesHeight: nat)
      requires Valid() && Describes(ms)
      ensures |tops| == |ms|
      ensures forall i :: 0 <= i < |ms| ==> tops[i] == y + marginTop + TotalAdvance(ms[..i], spacing)
      ensures entriesHeight == VisibleAdvance(ms, spacing) % U32
    {
      entriesHeight := 0;
      var yAdvance := y + marginTop;
      tops := [];
      for i := 0 to |ms|
        invariant |tops| == i
        invariant forall k :: 0 <= k < i ==> tops[k] == y + marginTop + TotalAdvance(ms[..k], spacing)
        invariant yAdvance == y + marginTop + TotalAdvance(ms[..i], spacing)
        invariant entriesHeight == VisibleAdvance(ms[..i], spacing) % U32
      {
        var m := ms[i];
        tops := tops + [yAdvance];
        var childSpacing := match m.customSpacing case Some(s) => s case None => AsSigned(spacing);
        if m.collapsed {
          childSpacing := 0;
        }
        TotalAdvanceStep(ms, spacing, i);
        if !m.hidden {
          ModStep(VisibleAdvance(ms[..i], spacing), childSpacing + m.height);
          entriesHeight := (entriesHeight + childSpacing + m.height) % U32;
        }
        yAdvance := yAdvance + childSpacing + m.height;
      }
      assert ms[..|ms|] == ms;
    }
  }
}
