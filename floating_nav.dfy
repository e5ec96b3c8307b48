/**
 * The floating navigation bar's scroll handler: which section is marked
 * active. Each nav item's section is looked up in the page (absent, or
 * present at some vertical offset), and the handler scans from the last item
 * down for the first section whose top is at or above `scrollY + 100`.
 */
module FloatingNav {
  import opened Text

  /** The ids of the nav items, in their order on the bar. */
  const NavIds: seq<string> := ["home", "skills", "projects", "blogs", "contact"]

  /** How far below the top of the viewport a section may start and still count as reached. */
  const ScrollOffset: int := 100

  /** Item `i`'s section exists and starts at or above the threshold. */
  predicate Reached(sections: seq<Option<int>>, i: nat, threshold: int)
    requires i < |sections|
  {
    sections[i].Some? && sections[i].value <= threshold
  }

  /** The greatest index below `n` whose section is reached, if any. */
  function LastReached(sections: seq<Option<int>>, threshold: int, n: nat): (r: Option<nat>)
    requires n <= |sections|
    ensures r.Some? ==> r.value < n && Reached(sections, r.value, threshold) &&
                        forall j :: r.value < j < n ==> !Reached(sections, j, threshold)
    ensures r.None? ==> forall j :: 0 <= j < n ==> !Reached(sections, j, threshold)
  {
    if n == 0 then None
    else if Reached(sections, n - 1, threshold) then Some(n - 1)
    else LastReached(sections, threshold, n - 1)
  }

  /**
   * Scrolling further down never moves the active item up: a larger
   * threshold picks the same or a later section, and finds one whenever a
   * smaller threshold did.
   */
  lemma ScrollMonotone(sections: seq<Option<int>>, y1: int, y2: int)
    requires y1 <= y2
    ensures var a := LastReached(sections, y1 + ScrollOffset, |sections|);
      var b := LastReached(sections, y2 + ScrollOffset, |sections|);
      a.Some? ==> b.Some? && a.value <= b.value
  {
    var a := LastReached(sections, y1 + ScrollOffset, |sections|);
    var b := LastReached(sections, y2 + ScrollOffset, |sections|);
    if a.Some? {
      assert Reached(sections, a.value, y2 + ScrollOffset);
    }
  }

  /** Sections missing from the page are never chosen, whatever their position in the bar. */
  lemma MissingSectionsSkipped(sections: seq<Option<int>>, threshold: int, i: nat)
    requires i < |sections| && sections[i].None?
    ensures LastReached(sections, threshold, |sections|) != Some(i)
  {
  }

  class Nav {
    var activeSection: string

    /** The active section is always the id of a nav item. */
    ghost predicate Valid()
      reads this
    {
      activeSection in NavIds
    }

    constructor()
      ensures Valid() && activeSection == "home"
    {
      activeSection := "home";
    }

    /**
     * `handleScroll`: `sections` are the nav items' sections, looked up in
     * the items' order (so there is one per item), and `scrollY` the
     * page's scroll position. The active section becomes the last item
     * whose section is reached; when none is, it stays as it was.
     */
    method HandleScroll(sections: seq<Option<int>>, scrollY: int)
      requires Valid() && |sections| == |NavIds|
      modifies this
      ensures Valid()
      ensures var hit := LastReached(sections, scrollY + ScrollOffset, |sections|);
        activeSection == (if hit.Some? then NavIds[hit.value] else old(activeSection))
    {
      var threshold := scrollY + ScrollOffset;
      var i := |sections| - 1;
      while i >= 0
        invariant -1 <= i < |sections|
        invariant LastReached(sections, threshold, |sections|) == LastReached(sections, threshold, i + 1)
        invariant activeSection == old(activeSection)
        decreases i
      {
        var section := sections[i];
        if section.Some? && section.value <= threshold {
          activeSection := NavIds[i];
          break;
        }
        i := i - 1;
      }
    }
  }
}
