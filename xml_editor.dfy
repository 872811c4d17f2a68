/**
 * The XML text editor (src/editor/XmlEditor.tsx): text changes reach the owner only while
 * the editor is active, and the Monaco editor is mounted the first time the editor becomes
 * active and then stays mounted, hidden while inactive.
 */
module XmlEditor {
  import opened Wrappers

  /** `onXmlChanged(value)`: the text reaches `onChanged` exactly when the editor is active. */
  function OnXmlChanged(active: bool, value: string): (forwarded: Option<string>)
    ensures forwarded.Some? <==> active
    ensures forwarded.Some? ==> forwarded.value == value
  {
    if active then Some(value) else None
  }

  /** The `xmlEditorShown` latch after the effect has seen the `active` values `actives`, in order. */
  function ShownAfter(actives: seq<bool>): bool {
    if actives == [] then false else ShownAfter(actives[..|actives| - 1]) || actives[|actives| - 1]
  }

  /** The latch is set exactly when the editor has been active at some point. */
  lemma {:induction false} ShownIffEverActive(actives: seq<bool>)
    ensures ShownAfter(actives) <==> exists i :: 0 <= i < |actives| && actives[i]
  {
    if actives != [] {
      var init := actives[..|actives| - 1];
      ShownIffEverActive(init);
      if ShownAfter(init) {
        var i :| 0 <= i < |init| && init[i];
        assert actives[i];
      }
      if exists i :: 0 <= i < |actives| && actives[i] {
        var i :| 0 <= i < |actives| && actives[i];
        if i < |init| {
          assert init[i];
        }
      }
    }
  }

  /** The latch is never reset. */
  lemma {:induction false} ShownNeverReset(actives: seq<bool>, later: seq<bool>)
    requires ShownAfter(actives)
    ensures ShownAfter(actives + later)
    decreases |later|
  {
    if later != [] {
      var init := later[..|later| - 1];
      ShownNeverReset(actives, init);
      assert (actives + later)[..|actives + later| - 1] == actives + init;
    } else {
      assert actives + later == actives;
    }
  }

  /** What the component renders: nothing, or the mounted editor, possibly hidden. */
  datatype Rendering = Nothing | Mounted(hidden: bool)

  function RenderFor(shown: bool, active: bool): (r: Rendering)
    ensures r.Nothing? <==> !shown
    ensures r.Mounted? ==> (r.hidden <==> !active)
  {
    if !shown then Nothing else Mounted(!active)
  }

  /** Once the editor has been active it is rendered mounted from then on, hidden exactly while inactive. */
  lemma MountedOnceShown(actives: seq<bool>, later: seq<bool>, active: bool)
    requires exists i :: 0 <= i < |actives| && actives[i]
    ensures RenderFor(ShownAfter(actives + later + [active]), active) == Mounted(!active)
  {
    ShownIffEverActive(actives);
    ShownNeverReset(actives, later + [active]);
    assert actives + later + [active] == actives + (later + [active]);
  }

  class XmlEditor {
    var active: bool
    var shown: bool
    /** The `active` values the effect has seen. */
    ghost var history: seq<bool>

    ghost predicate Valid()
      reads this
    {
      && shown == ShownAfter(history)
      && |history| > 0 && active == history[|history| - 1]
    }

    /** Mounting: the latch starts unset and the effect runs once with the initial `active`. */
    constructor (active: bool)
      ensures Valid() && history == [active]
      ensures this.active == active && shown == active
    {
      this.active := active;
      shown := active;
      history := [active];
      assert [active][..0] == [];
    }

    /** A new `active` prop: the effect sets the latch when the editor is active and not yet shown. */
    method SetActive(active: bool)
      requires Valid()
      modifies this
      ensures Valid() && history == old(history) + [active]
      ensures this.active == active && shown == (old(shown) || active)
    {
      this.active := active;
      if active && !shown {
        shown := true;
      }
      history := history + [active];
      assert history[..|history| - 1] == old(history);
    }

    function Render(): Rendering
      reads this
    {
      RenderFor(shown, active)
    }
  }
}
