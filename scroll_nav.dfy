/**
 * `handleScroll` of the older script: the navbar's `scrolled` class and the
 * navigation link that matches the section being read.
 */
module ScrollNav {
  import opened Wrappers

  /** A `section[id]` element with its `offsetTop`. */
  datatype Section = Section(id: string, offsetTop: int)

  /** A `.nav-link` with its `href` attribute and its `active` class. */
  datatype NavLink = NavLink(href: Option<string>, active: bool)

  /** `window.scrollY >= sectionTop - 100`. */
  predicate Reached(s: Section, scrollY: real)
  {
    scrollY >= (s.offsetTop - 100) as real
  }

  /** The id the `sections.forEach` loop leaves in `current`. */
  function CurrentSection(sections: seq<Section>, scrollY: real): string
    decreases |sections|
  {
    if sections == [] then ""
    else
      var last := sections[|sections| - 1];
      if Reached(last, scrollY) then last.id else CurrentSection(sections[..|sections| - 1], scrollY)
  }

  /** `current` is "" when the scroll position has reached no section. */
  lemma {:induction false} NoSectionReached(sections: seq<Section>, scrollY: real)
    requires forall i :: 0 <= i < |sections| ==> !Reached(sections[i], scrollY)
    ensures CurrentSection(sections, scrollY) == ""
    decreases |sections|
  {
    if sections != [] {
      var init := sections[..|sections| - 1];
      assert forall i :: 0 <= i < |init| ==> init[i] == sections[i];
      NoSectionReached(init, scrollY);
    }
  }

  /** Otherwise `current` is the id of the last section, in document order, that it has reached. */
  lemma {:induction false} LastSectionReached(sections: seq<Section>, scrollY: real, i: nat)
    requires i < |sections| && Reached(sections[i], scrollY)
    requires forall j :: i < j < |sections| ==> !Reached(sections[j], scrollY)
    ensures CurrentSection(sections, scrollY) == sections[i].id
    decreases |sections|
  {
    if i < |sections| - 1 {
      var init := sections[..|sections| - 1];
      assert forall j :: 0 <= j < |init| ==> init[j] == sections[j];
      LastSectionReached(init, scrollY, i);
    }
  }

  /** The loop over the sections. */
  method ActiveSection(sections: seq<Section>, scrollY: real) returns (current: string)
    ensures current == CurrentSection(sections, scrollY)
  {
    current := "";
    var i := 0;
    while i < |sections|
      invariant 0 <= i <= |sections|
      invariant current == CurrentSection(sections[..i], scrollY)
    {
      if scrollY >= (sections[i].offsetTop - 100) as real {
        current := sections[i].id;
      }
      assert sections[..i + 1][..i] == sections[..i];
      i := i + 1;
    }
    assert sections[..i] == sections;
  }

  /** Remove `active` from a link, then add it back if its `href` is `#` followed by `current`. */
  function MarkLink(link: NavLink, current: string): NavLink
  {
    link.(active := link.href == Some("#" + current))
  }

  /** The navigation state `handleScroll` writes. */
  class Navigation {
    /** Whether the navbar has the `scrolled` class. */
    var scrolled: bool
    var links: seq<NavLink>
    const sections: seq<Section>

    constructor (sections: seq<Section>, links: seq<NavLink>)
      ensures this.sections == sections && this.links == links && !scrolled
    {
      this.sections := sections;
      this.links := links;
      scrolled := false;
    }

    /**
     * `handleScroll()` at position `scrollY`: the navbar is marked past 50
     * pixels, and exactly the links pointing at the current section are active.
     */
    method HandleScroll(scrollY: real)
      modifies this
      ensures scrolled <==> scrollY > 50.0
      ensures |links| == |old(links)|
      ensures forall k :: 0 <= k < |links| ==>
        links[k].href == old(links)[k].href
        && (links[k].active <==> links[k].href == Some("#" + CurrentSection(sections, scrollY)))
    {
      scrolled := scrollY > 50.0;
      var current := ActiveSection(sections, scrollY);
      var i := 0;
      while i < |links|
        invariant 0 <= i <= |links| == |old(links)|
        invariant forall k :: 0 <= k < i ==> links[k] == MarkLink(old(links)[k], current)
        invariant forall k :: i <= k < |links| ==> links[k] == old(links)[k]
        invariant scrolled <==> scrollY > 50.0
      {
        links := links[i := MarkLink(links[i], current)];
        i := i + 1;
      }
    }
  }

  /**
   * Above every section, `current` is "" and the links whose `href` is
   * exactly "#" become active.
   */
  lemma AboveAllSections(sections: seq<Section>, scrollY: real, link: NavLink)
    requires forall i :: 0 <= i < |sections| ==> !Reached(sections[i], scrollY)
    ensures MarkLink(link, CurrentSection(sections, scrollY)).active <==> link.href == Some("#")
  {
    NoSectionReached(sections, scrollY);
    assert "#" + "" == "#";
  }
}
