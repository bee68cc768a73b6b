/** The two dropdowns of the mobile navigation: the course submenu
    (`.mobile-nav-submenu`, opened from `.mobile-nav-course`) and the phone
    submenu (`.mobile-nav-phone-submenu`, opened from
    `.mobile-nav-phone-menu`). A menu is open when it carries the `show`
    class. Trigger and sub-item listeners call `stopPropagation`, so only
    other clicks reach the two document-level listeners, which close every
    menu whose trigger does not contain the click target. */
module Submenus {

  /** Where a click lands, as far as the menu listeners can tell. */
  datatype Target =
    | CourseTrigger   // inside `.mobile-nav-course`
    | PhoneTrigger    // inside `.mobile-nav-phone-menu`
    | CourseSubItem   // a `.mobile-nav-subitem`
    | PhoneSubItem    // an `a` inside `.mobile-nav-phone-submenu`
    | Elsewhere       // anything else: the click bubbles up to the document

  /** Which menus carry `show`. */
  datatype Menus = Menus(courseOpen: bool, phoneOpen: bool)

  /** No page state has both menus open. */
  predicate Exclusive(m: Menus)
  {
    !(m.courseOpen && m.phoneOpen)
  }

  /** One click, as the listeners are written. The course trigger's
      "close the others" pass selects only menus that lack `show`, so it
      never closes the phone menu; the phone trigger closes the course menu. */
  function Step(m: Menus, t: Target): (r: Menus)
    ensures r.courseOpen && !m.courseOpen ==> t == CourseTrigger
    ensures r.phoneOpen && !m.phoneOpen ==> t == PhoneTrigger
    ensures t == Elsewhere ==> !r.courseOpen && !r.phoneOpen
  {
    match t
    case CourseTrigger => Menus(!m.courseOpen, m.phoneOpen)
    case PhoneTrigger => Menus(false, !m.phoneOpen)
    case CourseSubItem => Menus(false, m.phoneOpen)
    case PhoneSubItem => Menus(m.courseOpen, false)
    case Elsewhere => Menus(false, false)
  }

  /** A sequence of clicks, in order. A menu that is open at the end but
      was closed at the start was opened by a click on its own trigger. */
  function Run(m: Menus, ts: seq<Target>): (r: Menus)
    ensures r.courseOpen && !m.courseOpen ==> CourseTrigger in ts
    ensures r.phoneOpen && !m.phoneOpen ==> PhoneTrigger in ts
    decreases |ts|
  {
    if ts == [] then m else Run(Step(m, ts[0]), ts[1..])
  }

  lemma {:induction false} RunAppend(m: Menus, ts: seq<Target>, t: Target)
    ensures Run(m, ts + [t]) == Step(Run(m, ts), t)
    decreases |ts|
  {
    if ts != [] {
      assert (ts + [t])[1..] == ts[1..] + [t];
      RunAppend(Step(m, ts[0]), ts[1..], t);
    }
  }

  /** A course-trigger click flips the course menu and nothing else; a
      phone-trigger click flips the phone menu and closes the course menu. */
  lemma TriggerClicks(m: Menus)
    ensures Step(m, CourseTrigger).courseOpen == !m.courseOpen
    ensures Step(m, CourseTrigger).phoneOpen == m.phoneOpen
    ensures Step(m, PhoneTrigger).phoneOpen == !m.phoneOpen
    ensures !Step(m, PhoneTrigger).courseOpen
  {
  }

  /** Choosing a sub-item closes the menu it belongs to and leaves the
      other one as it was. */
  lemma SubItemClicks(m: Menus)
    ensures Step(m, CourseSubItem) == Menus(false, m.phoneOpen)
    ensures Step(m, PhoneSubItem) == Menus(m.courseOpen, false)
  {
  }

  /** Whatever happened before, a click elsewhere leaves both menus closed. */
  lemma {:induction false} ClickElsewhereClosesAll(m: Menus, ts: seq<Target>)
    ensures Run(m, ts + [Elsewhere]) == Menus(false, false)
  {
    RunAppend(m, ts, Elsewhere);
  }

  /** The phone trigger restores exclusion from any state; the course
      trigger and both sub-items as written keep it. */
  lemma {:induction false} StepsKeepingExclusion(m: Menus, t: Target)
    requires t == PhoneTrigger || Exclusive(m)
    requires t != CourseTrigger || !m.phoneOpen
    ensures Exclusive(Step(m, t))
  {
  }

  /** As written, the course trigger breaks exclusion: with the phone menu
      open, opening the course menu leaves both open. */
  lemma CourseTriggerBreaksExclusion()
    ensures Run(Menus(false, false), [PhoneTrigger, CourseTrigger]) == Menus(true, true)
    ensures !Exclusive(Run(Menus(false, false), [PhoneTrigger, CourseTrigger]))
  {
    assert [PhoneTrigger, CourseTrigger][1..] == [CourseTrigger];
  }

  /** The course trigger as its comment describes it ("close the other
      submenus if they are open"): toggling the course menu closes the
      phone menu. Every other click is as written. */
  function IntendedStep(m: Menus, t: Target): (r: Menus)
    ensures t != CourseTrigger ==> r == Step(m, t)
    ensures t == CourseTrigger ==> r.courseOpen == !m.courseOpen && !r.phoneOpen
  {
    if t == CourseTrigger then Menus(!m.courseOpen, false) else Step(m, t)
  }

  /** A sequence of clicks on the intended machine; again, only a menu's
      own trigger opens it. */
  function IntendedRun(m: Menus, ts: seq<Target>): (r: Menus)
    ensures r.courseOpen && !m.courseOpen ==> CourseTrigger in ts
    ensures r.phoneOpen && !m.phoneOpen ==> PhoneTrigger in ts
    decreases |ts|
  {
    if ts == [] then m else IntendedRun(IntendedStep(m, ts[0]), ts[1..])
  }

  /** With the intended course trigger, every sequence of clicks from an
      exclusive state keeps at most one menu open. */
  lemma {:induction false} IntendedRunExclusive(m: Menus, ts: seq<Target>)
    requires Exclusive(m)
    ensures Exclusive(IntendedRun(m, ts))
    decreases |ts|
  {
    if ts != [] {
      IntendedRunExclusive(IntendedStep(m, ts[0]), ts[1..]);
    }
  }

  /** The intended and the written machine differ only on a course-trigger
      click while the phone menu is open. */
  lemma StepsAgree(m: Menus, t: Target)
    ensures IntendedStep(m, t) != Step(m, t) <==> t == CourseTrigger && m.phoneOpen
  {
  }

  /** The listeners of `initializeCourseSubmenu` and `initializePhoneSubmenu`
      on the `show` classes of the two submenus. The page's markup is assumed
      to give neither submenu `show` at load. */
  class MobileMenus {
    var courseOpen: bool
    var phoneOpen: bool

    constructor ()
      ensures !courseOpen && !phoneOpen
    {
      courseOpen, phoneOpen := false, false;
    }

    function State(): Menus
      reads this
    {
      Menus(courseOpen, phoneOpen)
    }

    /** Course trigger: suppress the default, toggle the course menu, then
        remove `show` from every other submenu that lacks it, which changes
        nothing. */
    method CourseTriggerClick() returns (prevented: bool)
      modifies this
      ensures prevented
      ensures courseOpen == !old(courseOpen) && phoneOpen == old(phoneOpen)
    {
      prevented := true;
      courseOpen := !courseOpen;
      // the pass over `.mobile-nav-submenu:not(.show)`: it reaches the phone menu only when that is closed
      if !phoneOpen {
        phoneOpen := false;
      }
    }

    /** Phone trigger: suppress the default, toggle the phone menu, then
        remove `show` from every submenu other than the phone one. */
    method PhoneTriggerClick() returns (prevented: bool)
      modifies this
      ensures prevented
      ensures phoneOpen == !old(phoneOpen) && !courseOpen
    {
      prevented := true;
      phoneOpen := !phoneOpen;
      courseOpen := false;
    }

    /** A course sub-item closes the course menu; its default (following the
        anchor) is not suppressed by this listener. */
    method CourseSubItemClick() returns (prevented: bool)
      modifies this
      ensures !prevented
      ensures !courseOpen && phoneOpen == old(phoneOpen)
    {
      prevented := false;
      courseOpen := false;
    }

    /** A phone sub-item closes the phone menu and leaves the dial to the
        browser's default action. */
    method PhoneSubItemClick() returns (prevented: bool)
      modifies this
      ensures !prevented
      ensures !phoneOpen && courseOpen == old(courseOpen)
    {
      prevented := false;
      phoneOpen := false;
    }

    /** The two document-level listeners, course first (it is registered
        first): each closes its menu when its trigger does not contain the
        click target. */
    method DocumentClick(insideCourseTrigger: bool, insidePhoneTrigger: bool)
      modifies this
      ensures courseOpen == (old(courseOpen) && insideCourseTrigger)
      ensures phoneOpen == (old(phoneOpen) && insidePhoneTrigger)
    {
      if !insideCourseTrigger {
        courseOpen := false;
      }
      if !insidePhoneTrigger {
        phoneOpen := false;
      }
    }

    /** One click dispatched as the browser bubbles it: trigger and sub-item
        listeners stop propagation, so only a click elsewhere, which is
        outside both triggers, reaches the document listeners. */
    method Click(t: Target) returns (prevented: bool)
      modifies this
      ensures State() == Step(old(State()), t)
      ensures prevented <==> t == CourseTrigger || t == PhoneTrigger
    {
      match t {
        case CourseTrigger => prevented := CourseTriggerClick();
        case PhoneTrigger => prevented := PhoneTriggerClick();
        case CourseSubItem => prevented := CourseSubItemClick();
        case PhoneSubItem => prevented := PhoneSubItemClick();
        case Elsewhere =>
          DocumentClick(false, false);
          prevented := false;
      }
    }
  }
}
