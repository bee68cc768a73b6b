/** `updateActiveNavItem` of `initializeMobileNavigation`: pick the section
    under `scrollY + 100` and mark the navigation links that point to it as
    active. The DOM is abstracted: a section is its id, `offsetTop` and
    `offsetHeight`; a link is its `href` attribute (a link without one is
    the empty string, which never equals `"#" + id`). */
module ActiveSection {

  /** A `section[id]` element, in document order. */
  datatype Section = Section(id: string, top: int, height: int)

  /** How far below the top of the viewport the probe line sits. */
  const ProbeOffset := 100

  /** The two section ids that also mark the course menu trigger active. */
  const BasicCourse := "basic-course"
  const OptionCourse := "option-course"

  /** The half-open vertical span of `s` contains `pos`. */
  predicate Covers(s: Section, pos: int)
  {
    s.top <= pos < s.top + s.height
  }

  /** `id` is the current section for probe position `pos`: the id of the
      LAST section in document order whose span covers `pos`, or the empty
      string when none does. */
  ghost predicate IsCurrentSection(sections: seq<Section>, pos: int, id: string)
  {
    || (exists i :: 0 <= i < |sections| && Covers(sections[i], pos) && id == sections[i].id
                    && forall j :: i < j < |sections| ==> !Covers(sections[j], pos))
    || ((forall i :: 0 <= i < |sections| ==> !Covers(sections[i], pos)) && id == "")
  }

  /** The scan of the sections: every covering section overwrites the
      previous choice, so the last one wins. */
  method CurrentSection(sections: seq<Section>, scrollY: int) returns (current: string)
    ensures IsCurrentSection(sections, scrollY + ProbeOffset, current)
  {
    var pos := scrollY + ProbeOffset;
    current := "";
    ghost var chosen := -1;
    var i := 0;
    while i < |sections|
      invariant 0 <= i <= |sections|
      invariant -1 <= chosen < i
      invariant chosen < 0 ==> current == "" && forall j :: 0 <= j < i ==> !Covers(sections[j], pos)
      invariant chosen >= 0 ==> Covers(sections[chosen], pos) && current == sections[chosen].id
      invariant chosen >= 0 ==> forall j :: chosen < j < i ==> !Covers(sections[j], pos)
    {
      var section := sections[i];
      if pos >= section.top && pos < section.top + section.height {
        current := section.id;
        chosen := i;
      }
      i := i + 1;
    }
  }

  /** The current section is determined by the page and the scroll position. */
  lemma CurrentSectionUnique(sections: seq<Section>, pos: int, a: string, b: string)
    requires IsCurrentSection(sections, pos, a)
    requires IsCurrentSection(sections, pos, b)
    ensures a == b
  {
    if exists i :: 0 <= i < |sections| && Covers(sections[i], pos) {
      var i :| 0 <= i < |sections| && Covers(sections[i], pos) && a == sections[i].id
               && forall j :: i < j < |sections| ==> !Covers(sections[j], pos);
      var k :| 0 <= k < |sections| && Covers(sections[k], pos) && b == sections[k].id
               && forall j :: k < j < |sections| ==> !Covers(sections[j], pos);
      assert !(i < k) && !(k < i);
    }
  }

  /** When spans overlap the later section wins: a covering section that
      no later section covers is current, whatever covers `pos` before it. */
  lemma LaterSectionWins(sections: seq<Section>, pos: int, i: nat, j: nat)
    requires i < j < |sections|
    requires Covers(sections[i], pos) && Covers(sections[j], pos)
    requires forall k :: j < k < |sections| ==> !Covers(sections[k], pos)
    ensures IsCurrentSection(sections, pos, sections[j].id)
  {
  }

  /** The active-state classes of the mobile navigation: the plain items
      (`.mobile-nav-item` other than the phone and course triggers), the
      course sub-items (`.mobile-nav-subitem`) and the course trigger
      (`.mobile-nav-course`). The link targets are fixed by the page; the
      flags are the `active` classes the update adds and removes. */
  class NavigationBar {
    const itemHrefs: seq<string>
    const subItemHrefs: seq<string>
    var itemActive: seq<bool>
    var subItemActive: seq<bool>
    var courseActive: bool

    /** One flag per link. */
    ghost predicate Valid()
      reads this
    {
      |itemActive| == |itemHrefs| && |subItemActive| == |subItemHrefs|
    }

    /** The flags agree with the current section `current`. */
    ghost predicate MarksSection(current: string)
      reads this
      requires Valid()
    {
      && (forall i :: 0 <= i < |itemHrefs| ==> itemActive[i] == (itemHrefs[i] == "#" + current))
      && (forall i :: 0 <= i < |subItemHrefs| ==> subItemActive[i] == (subItemHrefs[i] == "#" + current))
      && courseActive == (current == BasicCourse || current == OptionCourse)
    }

    /** The navigation is set up and updated once at load. */
    constructor (itemHrefs: seq<string>, subItemHrefs: seq<string>, sections: seq<Section>, scrollY: int)
      ensures Valid()
      ensures this.itemHrefs == itemHrefs && this.subItemHrefs == subItemHrefs
      ensures exists current :: IsCurrentSection(sections, scrollY + ProbeOffset, current) && MarksSection(current)
    {
      this.itemHrefs := itemHrefs;
      this.subItemHrefs := subItemHrefs;
      itemActive := seq(|itemHrefs|, _ => false);
      subItemActive := seq(|subItemHrefs|, _ => false);
      courseActive := false;
      new;
      var current := UpdateActiveNavItem(sections, scrollY);
    }

    /** The scroll listener: find the current section, then set or clear
        every item's and sub-item's flag. A matching sub-item also marks the
        course trigger, but the final check overrides that: the trigger ends
        up active exactly for the two course sections. */
    method UpdateActiveNavItem(sections: seq<Section>, scrollY: int) returns (current: string)
      requires Valid()
      modifies this
      ensures Valid()
      ensures IsCurrentSection(sections, scrollY + ProbeOffset, current)
      ensures MarksSection(current)
    {
      current := CurrentSection(sections, scrollY);
      var target := "#" + current;

      var i := 0;
      while i < |itemHrefs|
        invariant 0 <= i <= |itemHrefs|
        invariant |itemActive| == |itemHrefs| && |subItemActive| == |subItemHrefs|
        invariant forall k :: 0 <= k < i ==> itemActive[k] == (itemHrefs[k] == target)
      {
        if itemHrefs[i] == target {
          itemActive := itemActive[i := true];
        } else {
          itemActive := itemActive[i := false];
        }
        i := i + 1;
      }
      ghost var items := itemActive;

      ghost var courseBefore := courseActive;
      i := 0;
      while i < |subItemHrefs|
        invariant 0 <= i <= |subItemHrefs|
        invariant itemActive == items
        invariant |subItemActive| == |subItemHrefs|
        invariant forall k :: 0 <= k < i ==> subItemActive[k] == (subItemHrefs[k] == target)
        invariant courseActive == (courseBefore || exists k :: 0 <= k < i && subItemHrefs[k] == target)
      {
        if subItemHrefs[i] == target {
          subItemActive := subItemActive[i := true];
          courseActive := true;
        } else {
          subItemActive := subItemActive[i := false];
        }
        i := i + 1;
      }

      if current == BasicCourse || current == OptionCourse {
        courseActive := true;
      } else {
        courseActive := false;
      }
    }
  }
}
