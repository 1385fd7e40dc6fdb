/*
 * Focus search inside a container, as Box and BoxLayout perform it.
 *
 * A container does not know how its children pick a focus: it asks each
 * child for its getDefaultFocus. The model takes those answers as a
 * sequence `foci` (one entry per child, null for a child that cannot take
 * the focus) and specifies which answer the container returns.
 */
module Focus {
  import opened Wrappers
  import opened Views

  /** The direction runs along the container's main axis (LEFT/RIGHT for a row, UP/DOWN for a column). */
  predicate Aligned(horizontal: bool, direction: FocusDirection)
  {
    if horizontal then direction == Left || direction == Right else direction == Up || direction == Down
  }

  /** Which way an aligned direction walks the children: back for LEFT and UP, forward otherwise. */
  function Step(horizontal: bool, direction: FocusDirection): (step: int)
    ensures step == 1 || step == -1
    ensures Aligned(horizontal, direction) ==> (step == -1 <==> direction == Left || direction == Up)
  {
    if (horizontal && direction == Left) || (!horizontal && direction == Up) then -1 else 1
  }

  /**
   * Walks the children from index i in steps of `step` and stops at the
   * first one that answered with a focus, or on leaving the children.
   */
  function Scan(foci: seq<View?>, i: int, step: int): (r: Option<nat>)
    requires step == 1 || step == -1
    ensures r.Some? ==> r.value < |foci| && foci[r.value] != null
    ensures r.Some? && step == 1 ==> 0 <= i <= r.value < |foci| && forall j :: i <= j < r.value ==> foci[j] == null
    ensures r.Some? && step == -1 ==> r.value <= i < |foci| && forall j :: r.value < j <= i ==> foci[j] == null
    ensures r.None? && step == 1 && 0 <= i ==> forall j :: i <= j < |foci| ==> foci[j] == null
    ensures r.None? && step == -1 && i < |foci| ==> forall j :: 0 <= j <= i ==> foci[j] == null
    decreases if step == 1 then |foci| - i else i + 1
  {
    if i < 0 || i >= |foci| then None
    else if foci[i] != null then Some(i)
    else Scan(foci, i + step, step)
  }

  /**
   * getDefaultFocus of a container: the default child's focus when that
   * index is in range and the child answered; otherwise the first answer
   * in child order; null when no child answered.
   */
  function DefaultFocus(foci: seq<View?>, defaultIndex: nat): (r: View?)
    ensures defaultIndex < |foci| && foci[defaultIndex] != null ==> r == foci[defaultIndex]
    ensures r == null <==> forall i :: 0 <= i < |foci| ==> foci[i] == null
    ensures r != null && !(defaultIndex < |foci| && foci[defaultIndex] != null) ==>
      exists i :: 0 <= i < |foci| && foci[i] == r && forall j :: 0 <= j < i ==> foci[j] == null
  {
    if defaultIndex < |foci| && foci[defaultIndex] != null then foci[defaultIndex]
    else match Scan(foci, 0, 1)
      case None => null
      case Some(k) => foci[k]
  }

  /**
   * getNextFocus of a container for the child at `index`: null for a
   * direction across the main axis; otherwise the first answer met walking
   * away from the child in that direction, null once the walk leaves the
   * children.
   */
  function NextFocus(horizontal: bool, direction: FocusDirection, index: nat, foci: seq<View?>): (r: View?)
    ensures !Aligned(horizontal, direction) ==> r == null
    ensures Aligned(horizontal, direction) && r != null && Step(horizontal, direction) == 1 ==>
      exists k :: index < k < |foci| && foci[k] == r && forall j :: index < j < k ==> foci[j] == null
    ensures Aligned(horizontal, direction) && r != null && Step(horizontal, direction) == -1 ==>
      index <= |foci| && exists k :: 0 <= k < index && foci[k] == r && forall j :: k < j < index ==> foci[j] == null
    ensures Aligned(horizontal, direction) && r == null && Step(horizontal, direction) == 1 ==>
      forall j :: index < j < |foci| ==> foci[j] == null
    ensures Aligned(horizontal, direction) && r == null && Step(horizontal, direction) == -1 && index <= |foci| ==>
      forall j :: 0 <= j < index ==> foci[j] == null
  {
    if !Aligned(horizontal, direction) then null
    else
      var step := Step(horizontal, direction);
      match Scan(foci, index + step, step)
      case None => null
      case Some(k) => foci[k]
  }
}
