/**
 * The View: the base of every element of the UI tree. Its own state (alpha,
 * collapse, visibility, borders, actions, handler tables, parent link) is a
 * class updated in place; its geometry is computed over the chain of its
 * ancestors, which the C++ code walks by recursion through `parent`.
 */
module Views {
  import opened Wrappers
  import opened XmlAttributes
  import opened Animations

  datatype FocusDirection = Up | Down | Left | Right

  datatype ViewBackground = NoBackground | Sidebar | Backdrop

  /** Invisible views keep their space in the layout; gone views do not. */
  datatype Visibility = Visible | Invisible | Gone

  datatype TransitionAnimation = Fade | SlideLeft | SlideRight

  /** The layout engine's display style: laid out, or taken out of the layout. */
  datatype Display = DisplayFlex | DisplayNone

  /** A size or margin style: automatic, a number of points, or a percentage of the parent. */
  datatype Dimension = Auto | Points(points: real) | Percent(percent: real)

  /** What the layout engine computed for a node, relative to its parent. */
  datatype Layout = Layout(left: real, top: real, width: real, height: real,
                           marginBottom: real, paddingTop: real, paddingBottom: real)

  const ZeroLayout := Layout(0.0, 0.0, 0.0, 0.0, 0.0, 0.0, 0.0)

  /**
   * What the parent stored in a child to find it again: a Box stores the
   * child's index, the legacy BoxLayout the list node holding the child.
   */
  datatype Userdata = NoUserdata | Position(index: nat) | ListEntry(entry: object)

  /** The controller button an action is bound to. */
  type Key = nat

  datatype Listener = Listener(id: nat)

  datatype Action = Action(key: Key, hintText: string, available: bool, hidden: bool, listener: Listener)

  /** The virtual lifecycle calls a container forwards to its children. */
  datatype Lifecycle = WillAppear(resetState: bool) | WillDisappear(resetState: bool) | WindowSizeChanged

  class View {
    var alpha: real
    var highlightAlpha: real
    var collapseState: real
    var hidden: bool
    var fadeIn: bool
    var inFadeAnimation: bool
    var focused: bool
    var culled: bool
    var visibility: Visibility
    var display: Display
    var background: ViewBackground
    var borderColor: Color
    var borderTop: real
    var borderRight: real
    var borderBottom: real
    var borderLeft: real
    var width: Dimension
    var height: Dimension
    var minWidth: Option<real>
    var minHeight: Option<real>
    var margins: map<Edge, Dimension>
    var paddings: map<Edge, real>
    var grow: Option<real>
    var shrink: Option<real>
    var positionTop: Option<real>
    var layout: Layout
    var parent: View?
    var parentUserdata: Userdata
    var attributes: Registry
    var actions: seq<Action>

    /** A new view: opaque, expanded, visible, culled, automatic size, no parent, the common attributes registered. */
    constructor ()
      ensures alpha == 1.0 && highlightAlpha == 0.0 && collapseState == 1.0
      ensures !hidden && !fadeIn && !inFadeAnimation && !focused && culled
      ensures visibility == Visible && display == DisplayFlex && background == NoBackground
      ensures borderColor == Transparent
      ensures borderTop == 0.0 && borderRight == 0.0 && borderBottom == 0.0 && borderLeft == 0.0
      ensures width == Auto && height == Auto && minWidth == None && minHeight == None
      ensures margins == map[] && paddings == map[] && grow == None && shrink == None && positionTop == None
      ensures layout == ZeroLayout
      ensures parent == null && parentUserdata == NoUserdata
      ensures attributes == RegisterAll(EmptyRegistry, CommonRegistrations()) && actions == []
    {
      alpha := 1.0;
      highlightAlpha := 0.0;
      collapseState := 1.0;
      hidden := false;
      fadeIn := false;
      inFadeAnimation := false;
      focused := false;
      culled := true;
      visibility := Visible;
      display := DisplayFlex;
      background := NoBackground;
      borderColor := Transparent;
      borderTop := 0.0;
      borderRight := 0.0;
      borderBottom := 0.0;
      borderLeft := 0.0;
      width := Auto;
      height := Auto;
      minWidth := None;
      minHeight := None;
      margins := map[];
      paddings := map[];
      grow := None;
      shrink := None;
      positionTop := None;
      layout := ZeroLayout;
      parent := null;
      parentUserdata := NoUserdata;
      actions := [];
      attributes := EmptyRegistry;
      new;
      RegisterAttributes(CommonRegistrations());
    }

    /** A sequence of register*XMLAttribute calls, in order. */
    method RegisterAttributes(regs: seq<Registration>)
      modifies this`attributes
      ensures attributes == RegisterAll(old(attributes), regs)
    {
      var i := 0;
      while i < |regs|
        invariant 0 <= i <= |regs|
        invariant attributes == RegisterAll(old(attributes), regs[..i])
      {
        assert regs[..i + 1][..i] == regs[..i];
        attributes := Register(attributes, regs[i].kind, regs[i].name, regs[i].handler);
        i := i + 1;
      }
      assert regs[..|regs|] == regs;
    }

    /** The layout engine writing its results for this node. */
    method SetLayout(l: Layout)
      modifies this`layout
      ensures layout == l
    {
      layout := l;
    }

    method RegisterAttribute(kind: Kind, name: string, h: Handler)
      modifies this`attributes
      ensures attributes == Register(old(attributes), kind, name, h)
    {
      attributes := Register(attributes, kind, name, h);
    }

    /**
     * applyXMLAttributes: dispatches every attribute of the element in
     * document order and stops at the first one that is refused or throws.
     */
    method ApplyXMLAttributes(element: Element, res: Resources) returns (r: Application)
      requires Fits(element.attributes)
      ensures r == ApplyAll(attributes, res, element.name, element.attributes)
    {
      var reg, tag, attrs := attributes, element.name, element.attributes;
      var calls: seq<Invocation> := [];
      var i := 0;
      while i < |attrs|
        invariant 0 <= i <= |attrs|
        invariant Fits(attrs[i..])
        invariant ApplyAll(reg, res, tag, attrs) ==
          Application(calls + ApplyAll(reg, res, tag, attrs[i..]).calls,
                      ApplyAll(reg, res, tag, attrs[i..]).error)
      {
        ApplyAllStep(reg, res, tag, attrs, i, calls);
        var step := Dispatch(reg, res, tag, attrs[i]);
        if step.error.Some? {
          return Application(calls, step.error);
        }
        calls := calls + step.calls;
        i := i + 1;
      }
      assert attrs[|attrs|..] == [];
      r := Application(calls, None);
    }

    /**
     * setWidth: a number fixes the width and makes it the minimum width too,
     * so the layout never shrinks the view below it; AUTO lets the layout
     * choose and clears the minimum.
     */
    method SetWidth(w: Dimension)
      requires !w.Percent?
      modifies this`width, this`minWidth
      ensures width == w
      ensures minWidth == if w.Points? then Some(w.points) else None
    {
      width := w;
      minWidth := if w.Points? then Some(w.points) else None;
    }

    /** setHeight: as setWidth, for the height. */
    method SetHeight(h: Dimension)
      requires !h.Percent?
      modifies this`height, this`minHeight
      ensures height == h
      ensures minHeight == if h.Points? then Some(h.points) else None
    {
      height := h;
      minHeight := if h.Points? then Some(h.points) else None;
    }

    /** setDimensions: setWidth and setHeight at once. */
    method SetDimensions(w: Dimension, h: Dimension)
      requires !w.Percent? && !h.Percent?
      modifies this`width, this`minWidth, this`height, this`minHeight
      ensures width == w && minWidth == if w.Points? then Some(w.points) else None
      ensures height == h && minHeight == if h.Points? then Some(h.points) else None
    {
      SetWidth(w);
      SetHeight(h);
    }

    /** setWidthPercentage: the width style becomes a percentage; the minimum width is left as it was. */
    method SetWidthPercentage(p: real)
      modifies this`width
      ensures width == Percent(p)
    {
      width := Percent(p);
    }

    method SetHeightPercentage(p: real)
      modifies this`height
      ensures height == Percent(p)
    {
      height := Percent(p);
    }

    /** setMarginTop / Right / Bottom / Left: AUTO or a number of points on one edge. */
    method SetMargin(edge: Edge, m: Dimension)
      requires !m.Percent?
      modifies this`margins
      ensures margins == old(margins)[edge := m]
    {
      margins := margins[edge := m];
    }

    method SetGrow(g: real)
      modifies this`grow
      ensures grow == Some(g)
    {
      grow := Some(g);
    }

    method SetShrink(s: real)
      modifies this`shrink
      ensures shrink == Some(s)
    {
      shrink := Some(s);
    }

    method SetBorderColor(c: Color)
      modifies this`borderColor
      ensures borderColor == c
    {
      borderColor := c;
    }

    method SetBorderTop(t: real)
      modifies this`borderTop
      ensures borderTop == t
    {
      borderTop := t;
    }

    method SetBorderRight(t: real)
      modifies this`borderRight
      ensures borderRight == t
    {
      borderRight := t;
    }

    method SetBorderBottom(t: real)
      modifies this`borderBottom
      ensures borderBottom == t
    {
      borderBottom := t;
    }

    method SetBorderLeft(t: real)
      modifies this`borderLeft
      ensures borderLeft == t
    {
      borderLeft := t;
    }

    method SetCulled(c: bool)
      modifies this`culled
      ensures IsCulled() == c
    {
      culled := c;
    }

    function IsCulled(): bool
      reads this
    {
      culled
    }

    method SetAlpha(a: real)
      modifies this`alpha
      ensures alpha == a
    {
      alpha := a;
    }

    /**
     * setVisibility: GONE takes the view out of the layout, the other two
     * keep it in; VISIBLE is announced to the view as willAppear, the other
     * two as willDisappear.
     */
    method SetVisibility(v: Visibility) returns (event: Lifecycle)
      modifies this`visibility, this`display
      ensures visibility == v
      ensures display == if v == Gone then DisplayNone else DisplayFlex
      ensures event == if v == Visible then WillAppear(false) else WillDisappear(false)
    {
      visibility := v;
      display := if v == Gone then DisplayNone else DisplayFlex;
      event := if v == Visible then WillAppear(false) else WillDisappear(false);
    }

    /**
     * collapse: any running collapse tween is stopped; animated, a tween
     * towards 0 takes over, otherwise the view collapses at once.
     */
    method Collapse(animated: bool, sched: Scheduler)
      modifies this`collapseState, sched
      ensures animated ==> (collapseState == old(collapseState) &&
        sched.entries == Restart(old(sched.entries), Tween(CollapseTag(this), Subject(this, CollapseState), 0.0)))
      ensures !animated ==> collapseState == 0.0 && sched.entries == KillByTag(old(sched.entries), CollapseTag(this))
      ensures !animated ==> IsCollapsed()
    {
      sched.Kill(CollapseTag(this));
      if animated {
        sched.Push(Tween(CollapseTag(this), Subject(this, CollapseState), 0.0));
      } else {
        collapseState := 0.0;
      }
    }

    /** expand: as collapse, towards 1. */
    method Expand(animated: bool, sched: Scheduler)
      modifies this`collapseState, sched
      ensures animated ==> (collapseState == old(collapseState) &&
        sched.entries == Restart(old(sched.entries), Tween(CollapseTag(this), Subject(this, CollapseState), 1.0)))
      ensures !animated ==> collapseState == 1.0 && sched.entries == KillByTag(old(sched.entries), CollapseTag(this))
      ensures !animated ==> !IsCollapsed()
    {
      sched.Kill(CollapseTag(this));
      if animated {
        sched.Push(Tween(CollapseTag(this), Subject(this, CollapseState), 1.0));
      } else {
        collapseState := 1.0;
      }
    }

    /**
     * isCollapsed: anything short of fully expanded counts as collapsed, so
     * a view with some height is collapsed exactly when it is drawn shorter
     * than its full height.
     */
    function IsCollapsed(): (r: bool)
      reads this
      ensures layout.height > 0.0 ==> (r <==> GetHeight(this, true) < GetHeight(this, false))
    {
      collapseState < 1.0
    }

    /**
     * show: the view is no longer hidden and any running fade is stopped.
     * Animated, alpha restarts from 0 with a tween towards 1 and the callback
     * waits for its end; otherwise alpha is 1 at once, the fade-in flag is
     * cleared and the callback runs now (the result says so).
     */
    method Show(animate: bool, sched: Scheduler) returns (callbackRan: bool)
      modifies this`hidden, this`fadeIn, this`alpha, sched
      ensures !hidden
      ensures animate ==> (alpha == 0.0 && fadeIn && !callbackRan &&
        sched.entries == Restart(old(sched.entries), Tween(AlphaTag(this), Subject(this, Alpha), 1.0)))
      ensures !animate ==> (alpha == 1.0 && !fadeIn && callbackRan &&
        sched.entries == KillByTag(old(sched.entries), AlphaTag(this)))
    {
      hidden := false;
      sched.Kill(AlphaTag(this));
      fadeIn := true;
      if animate {
        alpha := 0.0;
        sched.Push(Tween(AlphaTag(this), Subject(this, Alpha), 1.0));
        callbackRan := false;
      } else {
        alpha := 1.0;
        fadeIn := false;
        callbackRan := true;
      }
    }

    /**
     * hide: the view is hidden, not fading in, and any running fade is
     * stopped. Animated, alpha restarts from 1 with a tween towards 0;
     * otherwise alpha is 0 at once and the callback runs now.
     */
    method Hide(animated: bool, sched: Scheduler) returns (callbackRan: bool)
      modifies this`hidden, this`fadeIn, this`alpha, sched
      ensures hidden && !fadeIn
      ensures animated ==> (alpha == 1.0 && !callbackRan &&
        sched.entries == Restart(old(sched.entries), Tween(AlphaTag(this), Subject(this, Alpha), 0.0)))
      ensures !animated ==> (alpha == 0.0 && callbackRan &&
        sched.entries == KillByTag(old(sched.entries), AlphaTag(this)))
    {
      hidden := true;
      fadeIn := false;
      sched.Kill(AlphaTag(this));
      if animated {
        alpha := 1.0;
        sched.Push(Tween(AlphaTag(this), Subject(this, Alpha), 0.0));
        callbackRan := false;
      } else {
        alpha := 0.0;
        callbackRan := true;
      }
    }

    function IsHidden(): bool
      reads this
    {
      hidden
    }

    /**
     * onFocusGained: the view is focused and a highlight tween towards 1 is
     * pushed, tagged with the highlight's current value converted to an
     * integer (not with the field's address) and without stopping an earlier
     * one (see HighlightPushAsWritten). The parent, if any, is then told
     * through onChildFocusGained(this, this); the returned note is that call.
     */
    method OnFocusGained(sched: Scheduler) returns (note: Option<FocusNote>)
      requires highlightAlpha >= 0.0
      modifies this`focused, sched
      ensures focused
      ensures sched.entries == HighlightPushAsWritten(old(sched.entries), this, highlightAlpha, 1.0)
      ensures note == if parent == null then None else Some(FocusNote(parent, this, this))
    {
      focused := true;
      sched.Push(Tween(ValueTag(highlightAlpha.Floor), Subject(this, HighlightAlpha), 1.0));
      note := if parent == null then None else Some(FocusNote(parent, this, this));
    }

    /** onFocusLost: as onFocusGained, unfocusing, towards 0, and the parent gets onChildFocusLost(this, this). */
    method OnFocusLost(sched: Scheduler) returns (note: Option<FocusNote>)
      requires highlightAlpha >= 0.0
      modifies this`focused, sched
      ensures !focused
      ensures sched.entries == HighlightPushAsWritten(old(sched.entries), this, highlightAlpha, 0.0)
      ensures note == if parent == null then None else Some(FocusNote(parent, this, this))
    {
      focused := false;
      sched.Push(Tween(ValueTag(highlightAlpha.Floor), Subject(this, HighlightAlpha), 0.0));
      note := if parent == null then None else Some(FocusNote(parent, this, this));
    }

    /** The destructor's cleanup of the scheduler: the alpha, highlight and collapse tags are killed. */
    method Destroy(sched: Scheduler)
      modifies sched
      ensures sched.entries == DestroyKills(old(sched.entries), this)
    {
      sched.Kill(AlphaTag(this));
      sched.Kill(HighlightTag(this));
      sched.Kill(CollapseTag(this));
    }

    /** registerAction: replaces the action bound to the same key, or appends a new one; the action starts available. */
    method RegisterAction(hintText: string, key: Key, listener: Listener, hidden: bool)
      modifies this`actions
      ensures actions == WithAction(old(actions), Action(key, hintText, true, hidden, listener))
    {
      actions := WithAction(actions, Action(key, hintText, true, hidden, listener));
    }

    /** updateActionHint: renames the hint of the action bound to `key`, if there is one. */
    method UpdateActionHint(key: Key, hintText: string)
      modifies this`actions
      ensures actions == WithHint(old(actions), key, hintText)
    {
      actions := WithHint(actions, key, hintText);
    }

    method SetActionAvailable(key: Key, available: bool)
      modifies this`actions
      ensures actions == WithAvailability(old(actions), key, available)
    {
      actions := WithAvailability(actions, key, available);
    }

    method SetParent(p: View?, userdata: Userdata)
      modifies this`parent, this`parentUserdata
      ensures parent == p && parentUserdata == userdata
      ensures HasParent() <==> p != null
    {
      parent := p;
      parentUserdata := userdata;
    }

    function HasParent(): bool
      reads this
    {
      parent != null
    }

    /** getDefaultFocus of a plain view: it is not focusable. */
    function GetDefaultFocus(): (r: View?)
      ensures r == null
    {
      null
    }

    /** getNextFocus of a plain view: it has no children to move to. */
    function GetNextFocus(direction: FocusDirection, current: View): (r: View?)
      ensures r == null
    {
      null
    }
  }

  /** The tag views use for a field of theirs: the field's address. */
  function AlphaTag(v: object): Tag { AddressTag(Subject(v, Alpha)) }
  function HighlightTag(v: object): Tag { AddressTag(Subject(v, HighlightAlpha)) }
  function CollapseTag(v: object): Tag { AddressTag(Subject(v, CollapseState)) }

  /** getShowAnimationDuration: the style's show duration; slide animations are refused. */
  function ShowAnimationDuration(animation: TransitionAnimation, style: map<string, real>): (r: Result<real, string>)
    ensures r.Success? <==> animation != SlideLeft && animation != SlideRight && "brls/animations_durations/show" in style
    ensures r.Success? ==> r.value == style["brls/animations_durations/show"]
    ensures (animation == SlideLeft || animation == SlideRight) ==> r == Failure("Slide animation is not supported on views")
  {
    if animation == SlideLeft || animation == SlideRight then Failure("Slide animation is not supported on views")
    else if "brls/animations_durations/show" !in style then Failure(MissingStyleReason)
    else Success(style["brls/animations_durations/show"])
  }

  /**
   * The highlight tween onFocusGained / onFocusLost push as written: tagged
   * with the highlight's current value converted to an integer rather than
   * with its address, and pushed without stopping an earlier one.
   */
  function HighlightPushAsWritten(entries: seq<Tween>, v: object, highlight: real, target: real): (r: seq<Tween>)
    requires highlight >= 0.0
    ensures |r| == |entries| + 1 && r[..|entries|] == entries
    ensures r[|entries|].subject == Subject(v, HighlightAlpha) && r[|entries|].target == target
    ensures r[|entries|].tag != HighlightTag(v) && !TaggedBySubject(r)
  {
    entries + [Tween(ValueTag(highlight.Floor), Subject(v, HighlightAlpha), target)]
  }

  /** The highlight tween as the destructor expects it: keyed by the field's address, restarted. */
  function HighlightRestart(entries: seq<Tween>, v: object, target: real): (r: seq<Tween>)
    ensures TaggedBySubject(entries) ==> TaggedBySubject(r)
    ensures Tween(HighlightTag(v), Subject(v, HighlightAlpha), target) in r
  {
    Restart(entries, Tween(HighlightTag(v), Subject(v, HighlightAlpha), target))
  }

  function DestroyKills(entries: seq<Tween>, v: object): seq<Tween>
  {
    KillByTag(KillByTag(KillByTag(entries, AlphaTag(v)), HighlightTag(v)), CollapseTag(v))
  }

  /** Every running tween is keyed by the address of the field it animates. */
  predicate TaggedBySubject(entries: seq<Tween>)
  {
    forall i :: 0 <= i < |entries| ==> entries[i].tag == AddressTag(entries[i].subject)
  }

  /**
   * As written, the highlight tween of a focused view is still running after
   * the view is destroyed: the destructor kills the address tag, the tween
   * carries a value tag.
   */
  lemma HighlightTweenSurvivesDestroy(entries: seq<Tween>, v: object, highlight: real)
    requires highlight >= 0.0
    ensures Tween(ValueTag(highlight.Floor), Subject(v, HighlightAlpha), 1.0) in
      DestroyKills(HighlightPushAsWritten(entries, v, highlight, 1.0), v)
  {
    var t := Tween(ValueTag(highlight.Floor), Subject(v, HighlightAlpha), 1.0);
    var e := HighlightPushAsWritten(entries, v, highlight, 1.0);
    assert e[|e| - 1] == t;
    var e1 := KillByTag(e, AlphaTag(v));
    var e2 := KillByTag(e1, HighlightTag(v));
    assert t in e1;
    assert t in e2;
  }

  /**
   * With address-keyed highlight tweens, destroying a view stops every
   * tween animating its alpha, highlight or collapse state.
   */
  lemma DestroyStopsKeyedTweens(entries: seq<Tween>, v: object)
    requires TaggedBySubject(entries)
    ensures forall i :: 0 <= i < |DestroyKills(entries, v)| ==>
      DestroyKills(entries, v)[i].subject.owner != v || DestroyKills(entries, v)[i].subject.field == ScrollY
  {
    var r := DestroyKills(entries, v);
    forall i | 0 <= i < |r| ensures r[i].subject.owner != v || r[i].subject.field == ScrollY {
      var t := r[i];
      var e1 := KillByTag(entries, AlphaTag(v));
      var e2 := KillByTag(e1, HighlightTag(v));
      assert t in e2 && t.tag != CollapseTag(v);
      assert t in e1 && t.tag != HighlightTag(v);
      assert t in entries && t.tag != AlphaTag(v);
    }
  }

  /**
   * As written, a focus gain followed by a focus loss leaves both highlight
   * tweens running on the same field: the second push stops nothing.
   */
  lemma FocusChangesStackHighlightTweens(entries: seq<Tween>, v: object, h1: real, h2: real)
    requires h1 >= 0.0 && h2 >= 0.0
    ensures var e := HighlightPushAsWritten(HighlightPushAsWritten(entries, v, h1, 1.0), v, h2, 0.0);
      |e| == |entries| + 2 &&
      e[|entries|] == Tween(ValueTag(h1.Floor), Subject(v, HighlightAlpha), 1.0) &&
      e[|entries| + 1] == Tween(ValueTag(h2.Floor), Subject(v, HighlightAlpha), 0.0)
  {
    var e1 := HighlightPushAsWritten(entries, v, h1, 1.0);
    var e := HighlightPushAsWritten(e1, v, h2, 0.0);
    assert e[..|e1|] == e1;
    assert e[|entries|] == e[..|e1|][|entries|];
  }

  /** Focus then destruction, address-keyed: no highlight tween of the view is left. */
  lemma HighlightRestartStoppedByDestroy(entries: seq<Tween>, v: object)
    requires TaggedBySubject(entries)
    ensures forall i :: 0 <= i < |DestroyKills(HighlightRestart(entries, v, 1.0), v)| ==>
      DestroyKills(HighlightRestart(entries, v, 1.0), v)[i].subject != Subject(v, HighlightAlpha)
  {
    DestroyStopsKeyedTweens(HighlightRestart(entries, v, 1.0), v);
  }

  /** The index of the first action bound to `key` (std::find over the actions). */
  function IndexOfKey(actions: seq<Action>, key: Key): (r: Option<nat>)
    ensures r.Some? ==> r.value < |actions| && actions[r.value].key == key
    ensures r.Some? ==> forall j :: 0 <= j < r.value ==> actions[j].key != key
    ensures r.None? <==> forall j :: 0 <= j < |actions| ==> actions[j].key != key
  {
    if |actions| == 0 then None
    else if actions[0].key == key then Some(0)
    else match IndexOfKey(actions[1..], key)
      case Some(i) => Some(i + 1)
      case None => None
  }

  function WithAction(actions: seq<Action>, a: Action): seq<Action>
  {
    match IndexOfKey(actions, a.key)
    case Some(i) => actions[i := a]
    case None => actions + [a]
  }

  function WithHint(actions: seq<Action>, key: Key, hintText: string): seq<Action>
  {
    match IndexOfKey(actions, key)
    case Some(i) => actions[i := actions[i].(hintText := hintText)]
    case None => actions
  }

  function WithAvailability(actions: seq<Action>, key: Key, available: bool): seq<Action>
  {
    match IndexOfKey(actions, key)
    case Some(i) => actions[i := actions[i].(available := available)]
    case None => actions
  }

  /** No key is bound twice. */
  predicate UniqueKeys(actions: seq<Action>)
  {
    forall i, j :: 0 <= i < j < |actions| ==> actions[i].key != actions[j].key
  }

  /**
   * After registerAction the key is bound to exactly the new action, every
   * other key keeps its action, the list grows only for a new key, and no
   * key becomes bound twice.
   */
  lemma RegisterActionBinds(actions: seq<Action>, a: Action)
    ensures IndexOfKey(WithAction(actions, a), a.key).Some?
    ensures WithAction(actions, a)[IndexOfKey(WithAction(actions, a), a.key).value] == a
    ensures forall i :: 0 <= i < |actions| && actions[i].key != a.key ==> WithAction(actions, a)[i] == actions[i]
    ensures |WithAction(actions, a)| == |actions| + (if IndexOfKey(actions, a.key).None? then 1 else 0)
    ensures UniqueKeys(actions) ==> UniqueKeys(WithAction(actions, a))
  {
    var r := WithAction(actions, a);
    match IndexOfKey(actions, a.key)
    case Some(i) =>
      assert r[i] == a;
      assert forall j :: 0 <= j < i ==> r[j].key != a.key;
    case None =>
      assert r[|actions|] == a;
      assert forall j :: 0 <= j < |actions| ==> r[j].key != a.key;
  }

  /** updateActionHint changes only the hint of the action bound to the key; an unbound key changes nothing. */
  lemma UpdateHintChangesOnlyHint(actions: seq<Action>, key: Key, hintText: string)
    ensures |WithHint(actions, key, hintText)| == |actions|
    ensures forall i :: 0 <= i < |actions| ==>
      WithHint(actions, key, hintText)[i] ==
        if Some(i) == IndexOfKey(actions, key) then actions[i].(hintText := hintText) else actions[i]
    ensures IndexOfKey(actions, key).None? ==> WithHint(actions, key, hintText) == actions
  {
  }

  /** setActionAvailable changes only the availability of the action bound to the key. */
  lemma SetAvailableChangesOnlyAvailability(actions: seq<Action>, key: Key, available: bool)
    ensures |WithAvailability(actions, key, available)| == |actions|
    ensures forall i :: 0 <= i < |actions| ==>
      WithAvailability(actions, key, available)[i] ==
        if Some(i) == IndexOfKey(actions, key) then actions[i].(available := available) else actions[i]
  {
  }

  /**
   * `chain` lists a view and all its ancestors: each element's parent is
   * the next one and the last has no parent. The C++ recursions through
   * `parent` terminate exactly when such a chain exists.
   */
  ghost predicate IsParentChain(chain: seq<View>)
    reads chain
  {
    && |chain| > 0
    && (forall i :: 0 <= i < |chain| - 1 ==> chain[i].parent == chain[i + 1])
    && chain[|chain| - 1].parent == null
  }

  /** A view has a parent exactly when its chain goes on past it. */
  lemma HasParentIffLonger(chain: seq<View>)
    requires IsParentChain(chain)
    ensures chain[0].parent != null <==> |chain| > 1
  {
    if |chain| > 1 {
      assert chain[0].parent == chain[1];
    }
  }

  /** The chain of a view with a parent continues with the chain of the parent. */
  lemma ParentChainTail(chain: seq<View>)
    requires IsParentChain(chain) && |chain| > 1
    ensures chain[1] == chain[0].parent && IsParentChain(chain[1..])
  {
  }

  /** A child of the first view of a chain has the chain extended by itself. */
  lemma ParentChainCons(v: View, chain: seq<View>)
    requires IsParentChain(chain) && v.parent == chain[0]
    ensures IsParentChain([v] + chain)
  {
    var c := [v] + chain;
    forall i | 0 <= i < |c| - 1 ensures c[i].parent == c[i + 1] {
      if i > 0 { assert c[i] == chain[i - 1] && c[i + 1] == chain[i]; }
    }
  }

  /** A view has only one chain of ancestors. */
  lemma {:induction false} ParentChainUnique(a: seq<View>, b: seq<View>)
    requires IsParentChain(a) && IsParentChain(b) && a[0] == b[0]
    ensures a == b
    decreases |a|
  {
    HasParentIffLonger(a);
    HasParentIffLonger(b);
    if |a| > 1 {
      ParentChainTail(a);
      ParentChainTail(b);
      ParentChainUnique(a[1..], b[1..]);
      assert a == [a[0]] + a[1..];
      assert b == [b[0]] + b[1..];
    }
  }

  /**
   * invalidate: a view with a parent hands the call to the parent; the
   * root computes the layout. The result is the view that computes it.
   */
  function InvalidationRoot(chain: seq<View>): (root: View)
    requires IsParentChain(chain)
    reads chain
    ensures root.parent == null && root == chain[|chain| - 1]
    decreases |chain|
  {
    if |chain| > 1 then
      ParentChainTail(chain);
      InvalidationRoot(chain[1..])
    else chain[0]
  }

  /** Every view of a chain invalidates at the same root. */
  lemma InvalidationRootShared(chain: seq<View>, i: nat)
    requires IsParentChain(chain) && i < |chain|
    ensures IsParentChain(chain[i..]) && InvalidationRoot(chain[i..]) == InvalidationRoot(chain)
  {
  }

  /**
   * getX: with a parent (the chain goes on), the parent's getX plus the
   * offset from the parent; the offset alone at the root.
   */
  function GetX(chain: seq<View>): real
    requires IsParentChain(chain)
    reads chain
    decreases |chain|
  {
    if |chain| > 1 then
      ParentChainTail(chain);
      GetX(chain[1..]) + chain[0].layout.left
    else chain[0].layout.left
  }

  /** getY: as getX, vertically. */
  function GetY(chain: seq<View>): real
    requires IsParentChain(chain)
    reads chain
    decreases |chain|
  {
    if |chain| > 1 then
      ParentChainTail(chain);
      GetY(chain[1..]) + chain[0].layout.top
    else chain[0].layout.top
  }

  /** getAlpha: the view's alpha multiplied by its parent's getAlpha; the alpha alone at the root. */
  function GetAlpha(chain: seq<View>): real
    requires IsParentChain(chain)
    reads chain
    decreases |chain|
  {
    if |chain| > 1 then
      ParentChainTail(chain);
      chain[0].alpha * GetAlpha(chain[1..])
    else chain[0].alpha
  }

  /** getHeight: the computed height, scaled by the collapse state unless asked not to. */
  function GetHeight(v: View, includeCollapse: bool): real
    reads v
  {
    v.layout.height * (if includeCollapse then v.collapseState else 1.0)
  }

  function GetWidth(v: View): real
    reads v
  {
    v.layout.width
  }

  /** Sum of a sequence, added from the last element backwards. */
  function Sum(xs: seq<real>): real
  {
    if |xs| == 0 then 0.0 else Sum(xs[..|xs| - 1]) + xs[|xs| - 1]
  }

  lemma {:induction false} SumCons(x: real, xs: seq<real>)
    ensures Sum([x] + xs) == x + Sum(xs)
  {
    if |xs| > 0 {
      assert ([x] + xs)[..|xs|] == [x] + xs[..|xs| - 1];
      SumCons(x, xs[..|xs| - 1]);
    } else {
      assert ([x] + xs)[..0] == [];
    }
  }

  function Lefts(chain: seq<View>): (r: seq<real>)
    reads chain
    ensures |r| == |chain| && forall i :: 0 <= i < |chain| ==> r[i] == chain[i].layout.left
  {
    if |chain| == 0 then [] else [chain[0].layout.left] + Lefts(chain[1..])
  }

  function Tops(chain: seq<View>): (r: seq<real>)
    reads chain
    ensures |r| == |chain| && forall i :: 0 <= i < |chain| ==> r[i] == chain[i].layout.top
  {
    if |chain| == 0 then [] else [chain[0].layout.top] + Tops(chain[1..])
  }

  /** getX is the sum of the left offsets of the view and all its ancestors. */
  lemma {:induction false} GetXIsSumOfOffsets(chain: seq<View>)
    requires IsParentChain(chain)
    ensures GetX(chain) == Sum(Lefts(chain))
    decreases |chain|
  {
    if |chain| > 1 {
      ParentChainTail(chain);
      GetXIsSumOfOffsets(chain[1..]);
      assert Lefts(chain) == [chain[0].layout.left] + Lefts(chain[1..]);
      SumCons(chain[0].layout.left, Lefts(chain[1..]));
    } else {
      assert Lefts(chain) == [chain[0].layout.left];
      assert Sum([chain[0].layout.left]) == Sum([]) + chain[0].layout.left;
    }
  }

  /** getY is the sum of the top offsets of the view and all its ancestors. */
  lemma {:induction false} GetYIsSumOfOffsets(chain: seq<View>)
    requires IsParentChain(chain)
    ensures GetY(chain) == Sum(Tops(chain))
    decreases |chain|
  {
    if |chain| > 1 {
      ParentChainTail(chain);
      GetYIsSumOfOffsets(chain[1..]);
      assert Tops(chain) == [chain[0].layout.top] + Tops(chain[1..]);
      SumCons(chain[0].layout.top, Tops(chain[1..]));
    } else {
      assert Tops(chain) == [chain[0].layout.top];
      assert Sum([chain[0].layout.top]) == Sum([]) + chain[0].layout.top;
    }
  }

  /** Every alpha on the chain lies in [0, 1]. */
  ghost predicate AlphasInUnit(chain: seq<View>)
    reads chain
  {
    forall i :: 0 <= i < |chain| ==> 0.0 <= chain[i].alpha <= 1.0
  }

  /**
   * With alphas in [0, 1], the effective alpha is in [0, 1] and never more
   * than the view's own: fading an ancestor fades the whole subtree.
   */
  lemma {:induction false} GetAlphaBounds(chain: seq<View>)
    requires IsParentChain(chain) && AlphasInUnit(chain)
    ensures 0.0 <= GetAlpha(chain) <= chain[0].alpha
    decreases |chain|
  {
    if |chain| > 1 {
      var tail := chain[1..];
      ParentChainTail(chain);
      AlphasInUnitTail(chain);
      GetAlphaBounds(tail);
      assert tail[0] == chain[1];
      AlphaStep(chain);
    }
  }

  /** One step of getAlpha: a parent's effective alpha in [0, 1] scales the view's alpha down. */
  lemma AlphaStep(chain: seq<View>)
    requires IsParentChain(chain) && |chain| > 1
    requires 0.0 <= chain[0].alpha && IsParentChain(chain[1..]) && 0.0 <= GetAlpha(chain[1..]) <= 1.0
    ensures 0.0 <= GetAlpha(chain) <= chain[0].alpha
  {
    var a := chain[0].alpha;
    var p := GetAlpha(chain[1..]);
    ScaleBounds(a, p);
    assert GetAlpha(chain) == a * p;
  }

  lemma AlphasInUnitTail(chain: seq<View>)
    requires |chain| > 1 && AlphasInUnit(chain)
    ensures AlphasInUnit(chain[1..])
  {
    forall i | 0 <= i < |chain| - 1 ensures 0.0 <= chain[1..][i].alpha <= 1.0 {
      assert chain[1..][i] == chain[i + 1];
    }
  }

  lemma ScaleBounds(a: real, p: real)
    requires 0.0 <= a && 0.0 <= p <= 1.0
    ensures 0.0 <= a * p <= a
  {
  }

  /** The collapsed height lies between 0 and the full height when the collapse state is in [0, 1]. */
  lemma CollapsedHeightBounds(v: View)
    requires v.layout.height >= 0.0 && 0.0 <= v.collapseState <= 1.0
    ensures 0.0 <= GetHeight(v, true) <= GetHeight(v, false) == v.layout.height
    ensures v.collapseState == 0.0 ==> GetHeight(v, true) == 0.0
    ensures v.collapseState == 1.0 ==> GetHeight(v, true) == v.layout.height
  {
  }

  /** One onChildFocusGained / onChildFocusLost call: the receiver, its child on the path, the focused view. */
  datatype FocusNote = FocusNote(receiver: View, directChild: View, focused: View)

  /**
   * The onChildFocusGained (or Lost) calls that follow a focus change of
   * chain[0]: each view hands the call to its parent, naming itself as the
   * direct child and keeping the focused view.
   */
  function ChildFocusNotes(chain: seq<View>, focused: View): (r: seq<FocusNote>)
    requires IsParentChain(chain)
    reads chain
    ensures |r| == |chain| - 1
    ensures forall i :: 0 <= i < |r| ==> r[i] == FocusNote(chain[i + 1], chain[i], focused)
    decreases |chain|
  {
    if |chain| > 1 then
      ParentChainTail(chain);
      [FocusNote(chain[1], chain[0], focused)] + ChildFocusNotes(chain[1..], focused)
    else []
  }

  /**
   * The note a focus change returns is the first of the forwarded calls: the
   * parent hears of the change first, with the view as both the direct
   * child and the focused view.
   */
  lemma FocusNoteStartsForwarding(chain: seq<View>)
    requires IsParentChain(chain) && chain[0].parent != null
    ensures |chain| > 1 && chain[0].parent == chain[1]
    ensures ChildFocusNotes(chain, chain[0])[0] == FocusNote(chain[1], chain[0], chain[0])
  {
    HasParentIffLonger(chain);
  }

  /** One lifecycle call delivered to a view. */
  datatype Notification = Notification(target: View, event: Lifecycle)

  /** What a container delivers when it forwards `event` to its children: one call each, in order. */
  function Broadcast(children: seq<View>, event: Lifecycle): (r: seq<Notification>)
    ensures |r| == |children|
    ensures forall i :: 0 <= i < |r| ==> r[i] == Notification(children[i], event)
  {
    if |children| == 0 then [] else [Notification(children[0], event)] + Broadcast(children[1..], event)
  }
}
