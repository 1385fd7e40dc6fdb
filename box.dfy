/*
 * Box: a view holding an ordered list of children laid out along one
 * axis. The Box's own view state (position, alpha, attribute tables...)
 * is the View it owns as `node`; the child list, the axis and the default
 * focus index are the Box's own fields.
 */
module Boxes {
  import opened Wrappers
  import opened XmlAttributes
  import opened Views
  import opened Focus

  datatype Axis = Row | Column

  /** A rectangle as getCullingBounds reports it. */
  datatype Rect = Rect(top: real, right: real, bottom: real, left: real)

  predicate WellFormed(r: Rect)
  {
    r.top <= r.bottom && r.left <= r.right
  }

  /** The point (x, y) lies in r, edges included. */
  predicate Contains(r: Rect, x: real, y: real)
  {
    r.top <= y <= r.bottom && r.left <= x <= r.right
  }

  /**
   * The rectangle of the first view of a chain on screen: getX, getY, and
   * getWidth and the collapse-scaled getHeight added to them. Its corner is
   * the sum of the layout offsets up the chain; it is well formed when the
   * view's sizes and collapse state are not negative.
   */
  function ViewRect(chain: seq<View>): (r: Rect)
    requires IsParentChain(chain)
    reads chain
    ensures r.left == Sum(Lefts(chain)) && r.top == Sum(Tops(chain))
    ensures r.right - r.left == chain[0].layout.width
    ensures r.bottom - r.top == GetHeight(chain[0], true)
    ensures chain[0].layout.width >= 0.0 && chain[0].layout.height >= 0.0 && chain[0].collapseState >= 0.0 ==> WellFormed(r)
  {
    GetXIsSumOfOffsets(chain);
    GetYIsSumOfOffsets(chain);
    var top := GetY(chain);
    var left := GetX(chain);
    Rect(top, left + GetWidth(chain[0]), top + GetHeight(chain[0], true), left)
  }

  /** The culling test of draw: strictly above, left of, right of or below the bounds. */
  predicate OutOfBounds(r: Rect, bounds: Rect)
  {
    r.bottom < bounds.top || r.right < bounds.left || r.left > bounds.right || r.top > bounds.bottom
  }

  /**
   * For well-formed rectangles the culling test is exactly "no point in
   * common": touching edges count as overlapping, so such a child is drawn.
   */
  lemma OutOfBoundsIffDisjoint(r: Rect, bounds: Rect)
    requires WellFormed(r) && WellFormed(bounds)
    ensures !OutOfBounds(r, bounds) <==> exists x, y :: Contains(r, x, y) && Contains(bounds, x, y)
  {
    if !OutOfBounds(r, bounds) {
      var x := if r.left < bounds.left then bounds.left else r.left;
      var y := if r.top < bounds.top then bounds.top else r.top;
      assert Contains(r, x, y) && Contains(bounds, x, y);
    }
  }

  /**
   * Whether draw frames the view c as a child of chain[0]: always when it
   * is not culled, otherwise when it meets the bounds. A view that is not a
   * child of chain[0] is never framed.
   */
  predicate Drawn(c: View, chain: seq<View>, bounds: Rect)
    requires IsParentChain(chain)
    reads c, chain
  {
    if c.parent != chain[0] then false
    else
      ParentChainCons(c, chain);
      !c.culled || !OutOfBounds(ViewRect([c] + chain), bounds)
  }

  /** Drawn, spelled out as draw's loop tests a child. */
  lemma DrawnUnfolds(c: View, chain: seq<View>, bounds: Rect)
    requires IsParentChain(chain) && c.parent == chain[0]
    ensures IsParentChain([c] + chain)
    ensures Drawn(c, chain, bounds) <==> !c.culled || !OutOfBounds(ViewRect([c] + chain), bounds)
  {
    ParentChainCons(c, chain);
  }

  /** The children draw frames: the Drawn ones, in child order. */
  function Framed(children: seq<View>, chain: seq<View>, bounds: Rect): (r: seq<View>)
    requires IsParentChain(chain)
    reads chain, children
    ensures |r| <= |children|
  {
    if |children| == 0 then []
    else
      var n := |children| - 1;
      Framed(children[..n], chain, bounds) + (if Drawn(children[n], chain, bounds) then [children[n]] else [])
  }

  /** One more child considered by draw's loop. */
  lemma FramedStep(children: seq<View>, i: nat, chain: seq<View>, bounds: Rect)
    requires IsParentChain(chain) && i < |children|
    ensures Drawn(children[i], chain, bounds) ==>
      Framed(children[..i + 1], chain, bounds) == Framed(children[..i], chain, bounds) + [children[i]]
    ensures !Drawn(children[i], chain, bounds) ==>
      Framed(children[..i + 1], chain, bounds) == Framed(children[..i], chain, bounds)
  {
    assert children[..i + 1][..i] == children[..i];
    assert Framed(children[..i], chain, bounds) + [] == Framed(children[..i], chain, bounds);
  }

  /** Every child that is not culled, or that meets the bounds, is framed. */
  lemma {:induction false} DrawnIsFramed(children: seq<View>, chain: seq<View>, bounds: Rect, i: nat)
    requires IsParentChain(chain)
    requires i < |children| && Drawn(children[i], chain, bounds)
    ensures children[i] in Framed(children, chain, bounds)
    decreases |children|
  {
    var n := |children| - 1;
    if i < n {
      assert children[..n][i] == children[i];
      DrawnIsFramed(children[..n], chain, bounds, i);
    }
  }

  /** Every framed view is a child that is Drawn; `i` is its position among the children. */
  lemma {:induction false} FramedIsDrawn(children: seq<View>, chain: seq<View>, bounds: Rect, k: nat) returns (i: nat)
    requires IsParentChain(chain)
    requires k < |Framed(children, chain, bounds)|
    ensures i < |children| && children[i] == Framed(children, chain, bounds)[k] && Drawn(children[i], chain, bounds)
    decreases |children|
  {
    var n := |children| - 1;
    var rest := Framed(children[..n], chain, bounds);
    if k < |rest| {
      i := FramedIsDrawn(children[..n], chain, bounds, k);
      assert children[..n][i] == children[i];
    } else {
      i := n;
    }
  }

  /** A culled child lying outside the bounds, and occurring once among the children, is not framed. */
  lemma CulledOutsideNotFramed(children: seq<View>, chain: seq<View>, bounds: Rect, i: nat)
    requires IsParentChain(chain)
    requires i < |children| && forall j :: 0 <= j < |children| && j != i ==> children[j] != children[i]
    requires children[i].culled && !Drawn(children[i], chain, bounds)
    ensures children[i] !in Framed(children, chain, bounds)
  {
    var r := Framed(children, chain, bounds);
    if children[i] in r {
      var k :| 0 <= k < |r| && r[k] == children[i];
      var j := FramedIsDrawn(children, chain, bounds, k);
    }
  }

  class Box {
    /** The Box's own view: its geometry, alpha, attribute tables and parent link. */
    const node: View
    /** The getCullingBounds override of the scrolling box's internal box: cull against the parent's bounds. */
    const cullingFromParent: bool
    var axis: Axis
    var children: seq<View>
    var defaultFocusedIndex: nat

    /** Every child points back at this Box and carries its own position as parent userdata. */
    ghost predicate Valid()
      reads this, children
    {
      forall i :: 0 <= i < |children| ==> children[i].parent == node && children[i].parentUserdata == Position(i)
    }

    /** Box(axis): a new view, empty, with the Box attributes registered after the common ones. */
    constructor (axis: Axis)
      ensures this.axis == axis && children == [] && defaultFocusedIndex == 0 && !cullingFromParent
      ensures fresh(node) && node.parent == null && node.culled
      ensures node.attributes == RegisterAll(RegisterAll(EmptyRegistry, CommonRegistrations()), BoxRegistrations())
      ensures Valid()
    {
      var n := new View();
      n.RegisterAttributes(BoxRegistrations());
      node := n;
      cullingFromParent := false;
      this.axis := axis;
      children := [];
      defaultFocusedIndex := 0;
    }

    /** Box(): the constructor used for XML, a row. */
    constructor Default()
      ensures axis == Row && children == [] && defaultFocusedIndex == 0 && !cullingFromParent
      ensures fresh(node) && node.parent == null && node.culled
      ensures node.attributes == RegisterAll(RegisterAll(EmptyRegistry, CommonRegistrations()), BoxRegistrations())
      ensures Valid()
    {
      var n := new View();
      n.RegisterAttributes(BoxRegistrations());
      node := n;
      cullingFromParent := false;
      axis := Row;
      children := [];
      defaultFocusedIndex := 0;
    }

    /**
     * The scrolling box's internal box: a column that is never culled
     * itself and culls its children against its parent's bounds.
     */
    constructor Internal()
      ensures axis == Column && children == [] && defaultFocusedIndex == 0 && cullingFromParent
      ensures fresh(node) && node.parent == null && !node.culled && node.height == Auto
      ensures node.attributes == RegisterAll(RegisterAll(EmptyRegistry, CommonRegistrations()), BoxRegistrations())
      ensures Valid()
    {
      var n := new View();
      n.RegisterAttributes(BoxRegistrations());
      n.SetCulled(false);
      node := n;
      cullingFromParent := true;
      axis := Column;
      children := [];
      defaultFocusedIndex := 0;
    }

    /**
     * addView: the view becomes the last child, its parent is this Box and
     * its userdata the old child count; it then receives willAppear().
     * Yoga refuses a child that already has a parent.
     */
    method AddView(v: View) returns (sent: Notification)
      requires Valid() && v.parent == null
      modifies this`children, v`parent, v`parentUserdata
      ensures children == old(children) + [v]
      ensures v.parent == node && v.parentUserdata == Position(|old(children)|)
      ensures sent == Notification(v, Lifecycle.WillAppear(false))
      ensures Valid()
    {
      var position := |children|;
      children := children + [v];
      v.SetParent(node, Position(position));
      sent := Notification(v, Lifecycle.WillAppear(false));
    }

    /** setPadding: the four paddings in one call. */
    method SetPadding(top: real, right: real, bottom: real, left: real)
      modifies node`paddings
      ensures node.paddings == old(node.paddings)[EdgeTop := top][EdgeRight := right][EdgeBottom := bottom][EdgeLeft := left]
    {
      node.paddings := node.paddings[EdgeTop := top][EdgeRight := right][EdgeBottom := bottom][EdgeLeft := left];
    }

    /** setPaddingTop, setPaddingRight, setPaddingBottom, setPaddingLeft: one edge, the others kept. */
    method SetPaddingEdge(edge: Edge, value: real)
      modifies node`paddings
      ensures node.paddings == old(node.paddings)[edge := value]
      ensures forall e :: e != edge && e in old(node.paddings) ==> e in node.paddings && node.paddings[e] == old(node.paddings)[e]
    {
      node.paddings := node.paddings[edge := value];
    }

    /**
     * getDefaultFocus, given each child's own getDefaultFocus answer: the
     * default child first, then the first child that answered.
     */
    method GetDefaultFocus(foci: seq<View?>) returns (r: View?)
      requires |foci| == |children|
      ensures r == DefaultFocus(foci, defaultFocusedIndex)
    {
      if defaultFocusedIndex < |children| {
        r := foci[defaultFocusedIndex];
        if r != null {
          return;
        }
      }
      var i := 0;
      while i < |children|
        invariant 0 <= i <= |children|
        invariant Scan(foci, 0, 1) == Scan(foci, i, 1)
      {
        if foci[i] != null {
          return foci[i];
        }
        i := i + 1;
      }
      return null;
    }

    /**
     * getNextFocus, given each child's getDefaultFocus answer: nothing
     * across the axis; otherwise walk from the current child's position
     * one child at a time and stop at the first answer or at either end.
     * The position is read from the current view's userdata only once the
     * direction is known to be along the axis.
     */
    method GetNextFocus(direction: FocusDirection, current: View, foci: seq<View?>) returns (r: View?)
      requires |foci| == |children|
      requires Aligned(axis == Row, direction) ==> current.parentUserdata.Position?
      ensures !Aligned(axis == Row, direction) ==> r == null
      ensures Aligned(axis == Row, direction) ==> r == NextFocus(axis == Row, direction, current.parentUserdata.index, foci)
    {
      var horizontal := axis == Row;
      if !Aligned(horizontal, direction) {
        return null;
      }
      var offset := if (horizontal && direction == Left) || (!horizontal && direction == Up) then -1 else 1;
      var start := current.parentUserdata.index + offset;
      var index := start;
      r := null;
      while r == null && 0 <= index < |children|
        invariant offset == Step(horizontal, direction)
        invariant r == null ==> Scan(foci, index, offset) == Scan(foci, start, offset)
        invariant r != null ==> Scan(foci, start, offset) == Some(index - offset) && r == foci[index - offset]
        decreases if offset == 1 then |children| - index else index + 1
      {
        r := foci[index];
        index := index + offset;
      }
    }

    /**
     * getCullingBounds: the Box's own rectangle, or for the internal box
     * its parent's rectangle (the parent is the scrolling box).
     */
    function CullingBounds(chain: seq<View>): (r: Rect)
      requires IsParentChain(chain) && chain[0] == node
      requires cullingFromParent ==> |chain| > 1
      reads chain
      ensures !cullingFromParent ==> r == ViewRect(chain)
      ensures cullingFromParent ==> IsParentChain(chain[1..]) && r == ViewRect(chain[1..])
    {
      if cullingFromParent then
        ParentChainTail(chain);
        ViewRect(chain[1..])
      else ViewRect(chain)
    }

    /** draw: frames the children in order, skipping culled ones that lie outside the culling bounds. */
    method Draw(chain: seq<View>) returns (framed: seq<View>)
      requires Valid() && IsParentChain(chain) && chain[0] == node
      requires cullingFromParent ==> |chain| > 1
      ensures framed == Framed(children, chain, CullingBounds(chain))
    {
      var bounds := CullingBounds(chain);
      var cs := children;
      framed := [];
      var i := 0;
      while i < |cs|
        invariant 0 <= i <= |cs|
        invariant framed == Framed(cs[..i], chain, bounds)
        invariant forall j :: 0 <= j < |cs| ==> cs[j].parent == chain[0]
      {
        var child := cs[i];
        assert child.parent == chain[0];
        FramedStep(cs, i, chain, bounds);
        DrawnUnfolds(child, chain, bounds);
        var skip := false;
        if child.IsCulled() {
          skip := OutOfBounds(ViewRect([child] + chain), bounds);
        }
        if !skip {
          framed := framed + [child];
        }
        i := i + 1;
      }
      assert cs[..|cs|] == cs;
    }

    /** Delivers one lifecycle call to every child, in order. */
    method Propagate(event: Lifecycle) returns (sent: seq<Notification>)
      ensures sent == Broadcast(children, event)
    {
      sent := [];
      var i := 0;
      while i < |children|
        invariant 0 <= i <= |children|
        invariant sent == Broadcast(children[..i], event)
      {
        BroadcastStep(children, i, event);
        sent := sent + [Notification(children[i], event)];
        i := i + 1;
      }
      assert children[..|children|] == children;
    }

    method WillAppear(resetState: bool) returns (sent: seq<Notification>)
      ensures sent == Broadcast(children, Lifecycle.WillAppear(resetState))
    {
      sent := Propagate(Lifecycle.WillAppear(resetState));
    }

    method WillDisappear(resetState: bool) returns (sent: seq<Notification>)
      ensures sent == Broadcast(children, Lifecycle.WillDisappear(resetState))
    {
      sent := Propagate(Lifecycle.WillDisappear(resetState));
    }

    method OnWindowSizeChanged() returns (sent: seq<Notification>)
      ensures sent == Broadcast(children, WindowSizeChanged)
    {
      sent := Propagate(WindowSizeChanged);
    }

    /**
     * inflateFromXML: the document must parse and its root must be a
     * brls::Box; the root's attributes are applied to this Box, then every
     * child element becomes a child through the Box's own addView.
     * `created` holds the views the view factory returns for the child
     * elements, in order. `calls` are the attribute handlers run on this
     * Box, including those run before an attribute failed.
     */
    method InflateFromXML(doc: XmlDocument, res: Resources, created: seq<View>)
      returns (r: Result<Application, string>, sent: seq<Notification>, calls: seq<Invocation>)
      requires Valid()
      requires RootCheck(doc).Success? ==> Fits(RootCheck(doc).value.attributes) && |created| == |RootCheck(doc).value.children|
      requires Unattached(created)
      modifies this`children, created
      ensures RootCheck(doc).Failure? ==> r == Failure(RootCheck(doc).error) && children == old(children)
      ensures r.Success? ==> RootCheck(doc).Success?
      ensures RootCheck(doc).Success? && r.Failure? ==>
        var app := ApplyAll(old(node.attributes), res, BoxTag, RootCheck(doc).value.attributes);
        app.error.Some? && r.error == Message(app.error.value)
      ensures r.Success? ==> r.value == ApplyAll(old(node.attributes), res, BoxTag, RootCheck(doc).value.attributes) && r.value.error.None?
      ensures r.Success? ==> children == old(children) + created && sent == Broadcast(created, Lifecycle.WillAppear(false))
      ensures r.Success? ==> forall i :: 0 <= i < |created| ==>
        created[i].parent == node && created[i].parentUserdata == Position(|old(children)| + i)
      ensures r.Failure? ==> children == old(children) && sent == []
      ensures RootCheck(doc).Failure? ==> calls == []
      ensures RootCheck(doc).Success? ==>
        calls == ApplyAll(old(node.attributes), res, BoxTag, RootCheck(doc).value.attributes).calls
      ensures Valid()
    {
      sent, calls := [], [];
      var root := RootCheck(doc);
      if root.Failure? {
        return Failure(root.error), [], [];
      }
      var app := node.ApplyXMLAttributes(root.value, res);
      calls := app.calls;
      if app.error.Some? {
        return Failure(Message(app.error.value)), [], calls;
      }
      sent := AddViews(created);
      r := Success(app);
    }

    /** Box::addView on each view in turn. */
    method AddViews(views: seq<View>) returns (sent: seq<Notification>)
      requires Valid() && Unattached(views)
      modifies this`children, views
      ensures children == old(children) + views
      ensures sent == Broadcast(views, Lifecycle.WillAppear(false))
      ensures forall i :: 0 <= i < |views| ==>
        views[i].parent == node && views[i].parentUserdata == Position(|old(children)| + i)
      ensures Valid()
    {
      sent := [];
      var i := 0;
      while i < |views|
        invariant 0 <= i <= |views|
        invariant Valid()
        invariant children == old(children) + views[..i]
        invariant sent == Broadcast(views[..i], Lifecycle.WillAppear(false))
        invariant forall j :: i <= j < |views| ==> views[j].parent == null
        invariant forall j :: 0 <= j < i ==> views[j].parent == node && views[j].parentUserdata == Position(|old(children)| + j)
      {
        var note := AddView(views[i]);
        AppendStep(old(children), views, i);
        BroadcastStep(views, i, Lifecycle.WillAppear(false));
        sent := sent + [note];
        i := i + 1;
      }
      assert views[..|views|] == views;
    }

    /** handleXMLTag: the view the factory made for the element is added as a child. */
    method HandleXMLTag(created: View) returns (sent: Notification)
      requires Valid() && created.parent == null
      modifies this`children, created`parent, created`parentUserdata
      ensures children == old(children) + [created]
      ensures created.parent == node && created.parentUserdata == Position(|old(children)|)
      ensures sent == Notification(created, Lifecycle.WillAppear(false))
      ensures Valid()
    {
      sent := AddView(created);
    }

    method SetAxis(a: Axis)
      modifies this`axis
      ensures axis == a
    {
      axis := a;
    }
  }

  /** Views the factory returned: distinct and not yet attached to any parent. */
  ghost predicate Unattached(views: seq<View>)
    reads views
  {
    && (forall i :: 0 <= i < |views| ==> views[i].parent == null)
    && (forall i, j :: 0 <= i < j < |views| ==> views[i] != views[j])
  }

  lemma AppendStep(front: seq<View>, views: seq<View>, i: nat)
    requires i < |views|
    ensures front + views[..i] + [views[i]] == front + views[..i + 1]
  {
    assert views[..i + 1] == views[..i] + [views[i]];
  }

  /** Broadcast to one more view appends one notification. */
  lemma BroadcastStep(views: seq<View>, i: nat, event: Lifecycle)
    requires i < |views|
    ensures Broadcast(views[..i + 1], event) == Broadcast(views[..i], event) + [Notification(views[i], event)]
  {
    assert views[..i + 1] == views[..i] + [views[i]];
  }

  /** The tag name inflateFromXML accepts as the root. */
  const BoxTag := "brls::Box"

  /** What the XML parser produced: an error code, or a document with or without a root element. */
  datatype XmlDocument = Malformed(code: nat) | Document(root: Option<Element>)

  /** std::to_string of a non-negative number. */
  function DecimalString(n: nat): (s: string)
    ensures |s| > 0
    decreases n
  {
    var digit := [('0' as int + n % 10) as char];
    if n < 10 then digit else DecimalString(n / 10) + digit
  }

  /**
   * The checks inflateFromXML makes before touching the Box: a parse
   * error, a missing root, or a root that is not a brls::Box each throw,
   * with the messages the source uses.
   */
  function RootCheck(doc: XmlDocument): (r: Result<Element, string>)
    ensures r.Success? <==> doc.Document? && doc.root.Some? && doc.root.value.name == BoxTag
    ensures r.Success? ==> r.value == doc.root.value
    ensures doc.Malformed? ==> r == Failure("Invalid XML: error " + DecimalString(doc.code))
    ensures doc.Document? && doc.root.None? ==> r == Failure("Invalid XML: no element found")
    ensures doc.Document? && doc.root.Some? && doc.root.value.name != BoxTag ==>
      r == Failure("First XML element is " + doc.root.value.name + ", expected Box")
  {
    match doc
    case Malformed(code) => Failure("Invalid XML: error " + DecimalString(code))
    case Document(None) => Failure("Invalid XML: no element found")
    case Document(Some(root)) =>
      if root.name != BoxTag then Failure("First XML element is " + root.name + ", expected Box")
      else Success(root)
  }
}
