/**
 * The tweening scheduler that views hand their animations to, reduced to the
 * part views rely on: a list of running tweens that can be pushed and killed
 * by tag. Ticking, easing and completion callbacks belong to the external
 * animation library and are not modelled.
 */
module Animations {

  /** The animatable fields of the view tree. */
  datatype AnimatedField = Alpha | HighlightAlpha | CollapseState | ScrollY

  /** A field of one object: what a tween writes to. */
  datatype Subject = Subject(owner: object, field: AnimatedField)

  /**
   * The key a tween is killed by. The library keys tweens by an integer; the
   * views normally use the address of the animated field, but a tag can also
   * be built from an arbitrary integer value.
   */
  datatype Tag = AddressTag(subject: Subject) | ValueTag(value: int)

  datatype Tween = Tween(tag: Tag, subject: Subject, target: real)

  /** Every running tween whose tag is `tag` is removed; the rest keep their order. */
  function KillByTag(entries: seq<Tween>, tag: Tag): (r: seq<Tween>)
    ensures |r| <= |entries|
    ensures forall i :: 0 <= i < |r| ==> r[i].tag != tag && r[i] in entries
    ensures forall i :: 0 <= i < |entries| && entries[i].tag != tag ==> entries[i] in r
  {
    if |entries| == 0 then []
    else if entries[0].tag == tag then KillByTag(entries[1..], tag)
    else [entries[0]] + KillByTag(entries[1..], tag)
  }

  /** Killing distributes over concatenation, so the surviving tweens keep their relative order. */
  lemma {:induction false} KillByTagAppend(a: seq<Tween>, b: seq<Tween>, tag: Tag)
    ensures KillByTag(a + b, tag) == KillByTag(a, tag) + KillByTag(b, tag)
  {
    if |a| > 0 {
      assert (a + b)[0] == a[0];
      assert (a + b)[1..] == a[1..] + b;
      KillByTagAppend(a[1..], b, tag);
    } else {
      assert a + b == b;
    }
  }

  /** Killing a tag leaves a tween list without it untouched. */
  lemma {:induction false} KillByAbsentTag(entries: seq<Tween>, tag: Tag)
    requires forall i :: 0 <= i < |entries| ==> entries[i].tag != tag
    ensures KillByTag(entries, tag) == entries
  {
    if |entries| > 0 {
      KillByAbsentTag(entries[1..], tag);
      assert [entries[0]] + entries[1..] == entries;
    }
  }

  /** No tag is carried by two running tweens at once. */
  predicate AtMostOnePerTag(entries: seq<Tween>)
  {
    forall i, j :: 0 <= i < j < |entries| ==> entries[i].tag != entries[j].tag
  }

  /** The discipline the views follow: kill the field's tag, then push the new tween. */
  function Restart(entries: seq<Tween>, t: Tween): (r: seq<Tween>)
  {
    KillByTag(entries, t.tag) + [t]
  }

  /** Killing keeps the running tweens' tags pairwise distinct. */
  lemma {:induction false} KillKeepsOnePerTag(entries: seq<Tween>, tag: Tag)
    requires AtMostOnePerTag(entries)
    ensures AtMostOnePerTag(KillByTag(entries, tag))
  {
    if |entries| > 0 {
      KillKeepsOnePerTag(entries[1..], tag);
      var rest := KillByTag(entries[1..], tag);
      if entries[0].tag != tag {
        var r := [entries[0]] + rest;
        forall i, j | 0 <= i < j < |r| ensures r[i].tag != r[j].tag {
          if i == 0 {
            assert r[j] == rest[j - 1];
            assert rest[j - 1] in entries[1..];
          }
        }
      }
    }
  }

  /** Killing twice is the same as killing once. */
  lemma {:induction false} KillIdempotent(entries: seq<Tween>, tag: Tag)
    ensures KillByTag(KillByTag(entries, tag), tag) == KillByTag(entries, tag)
  {
    if |entries| > 0 {
      KillIdempotent(entries[1..], tag);
      if entries[0].tag != tag {
        assert ([entries[0]] + KillByTag(entries[1..], tag))[1..] == KillByTag(entries[1..], tag);
      }
    }
  }

  /**
   * Kill-then-push keeps tags pairwise distinct, and the pushed tween is the
   * only one running under its tag.
   */
  lemma RestartKeepsOnePerTag(entries: seq<Tween>, t: Tween)
    requires AtMostOnePerTag(entries)
    ensures AtMostOnePerTag(Restart(entries, t))
    ensures forall i :: 0 <= i < |Restart(entries, t)| && Restart(entries, t)[i].tag == t.tag ==> i == |Restart(entries, t)| - 1
  {
    KillKeepsOnePerTag(entries, t.tag);
  }

  /** The running tweens, owned by the application's animation loop. */
  class Scheduler {
    var entries: seq<Tween>

    constructor ()
      ensures entries == []
    {
      entries := [];
    }

    /** Schedules a tween; nothing already running is touched. */
    method Push(t: Tween)
      modifies this`entries
      ensures entries == old(entries) + [t]
    {
      entries := entries + [t];
    }

    /** Stops every tween carrying `tag`. */
    method Kill(tag: Tag)
      modifies this`entries
      ensures entries == KillByTag(old(entries), tag)
    {
      entries := KillByTag(entries, tag);
    }
  }
}
