/** The in-page scroll of `initializeSmoothScroll` and of the course
    sub-item listener: the target element's `offsetTop` minus the header's
    height minus a 20px margin. The page is abstracted to its elements with
    an id, in document order; `document.querySelector("#x")` is the first
    of them whose id is `x`. */
module SmoothScroll {
  import opened Wrappers

  /** An element with an id and its `offsetTop`. */
  datatype Element = Element(id: string, offsetTop: int)

  /** Gap left between the header and the target. */
  const Margin := 20

  /** The first element whose id is `id`. */
  function FindById(elements: seq<Element>, id: string): (r: Option<nat>)
    ensures r.Some? ==> r.value < |elements| && elements[r.value].id == id
    ensures r.Some? ==> forall j :: 0 <= j < r.value ==> elements[j].id != id
    ensures r.None? ==> forall j :: 0 <= j < |elements| ==> elements[j].id != id
    decreases |elements|
  {
    if elements == [] then None
    else if elements[0].id == id then Some(0)
    else match FindById(elements[1..], id)
      case None => None
      case Some(k) => Some(k + 1)
  }

  /** `document.querySelector(href)` for an href naming an id: a selector
      `#x` with `x` non-empty. The bare `#` is not a valid selector (the call
      throws) and an href of any other shape names no element of the page. */
  function Lookup(href: string, elements: seq<Element>): (r: Option<Element>)
    ensures r.Some? <==> |href| >= 2 && href[0] == '#'
                         && exists j :: 0 <= j < |elements| && elements[j].id == href[1..]
    ensures r.Some? ==> r.value in elements && "#" + r.value.id == href
  {
    if |href| >= 2 && href[0] == '#' then
      match FindById(elements, href[1..])
      case None => None
      case Some(k) => Some(elements[k])
    else None
  }

  /** What a click on an in-page anchor does: where it scrolls (if
      anywhere) and whether it suppresses the browser's own jump. */
  datatype AnchorOutcome = AnchorOutcome(scrollTo: Option<int>, prevented: bool)

  /** The listener on `a[href^="#"]`: the bare `#` returns at once; an href
      whose target exists suppresses the default and scrolls; otherwise
      nothing happens and the browser handles the link. */
  function AnchorClick(href: string, elements: seq<Element>, headerHeight: int): (r: AnchorOutcome)
    ensures r.prevented <==> r.scrollTo.Some?
    ensures href == "#" ==> r.scrollTo.None?
    ensures r.scrollTo.Some? <==>
              |href| >= 2 && href[0] == '#' && exists j :: 0 <= j < |elements| && elements[j].id == href[1..]
    ensures r.scrollTo.Some? ==>
              exists j :: 0 <= j < |elements| && elements[j].id == href[1..]
                          && (forall k :: 0 <= k < j ==> elements[k].id != href[1..])
                          && r.scrollTo.value == elements[j].offsetTop - headerHeight - Margin
  {
    if href == "#" then AnchorOutcome(None, false)
    else match Lookup(href, elements)
      case Some(target) => AnchorOutcome(Some(target.offsetTop - headerHeight - Margin), true)
      case None => AnchorOutcome(None, false)
  }

  /** The scroll half of the course sub-item listener: no `#` check of its
      own (the bare `#` makes the lookup throw, which also scrolls nothing)
      and no suppression of the default. */
  function SubItemScroll(href: string, elements: seq<Element>, headerHeight: int): (r: Option<int>)
    ensures r.Some? ==> exists e :: e in elements && "#" + e.id == href
                                    && r.value == e.offsetTop - headerHeight - Margin
  {
    match Lookup(href, elements)
    case Some(target) => Some(target.offsetTop - headerHeight - Margin)
    case None => None
  }

  /** A course sub-item that is also an in-page anchor receives both
      listeners; they aim at the same position. */
  lemma SubItemAgreesWithAnchor(href: string, elements: seq<Element>, headerHeight: int)
    ensures SubItemScroll(href, elements, headerHeight) == AnchorClick(href, elements, headerHeight).scrollTo
  {
  }

  /** Every element with an id can be reached: its own anchor scrolls to it
      unless an earlier element has the same id. */
  lemma {:induction false} AnchorReachesFirst(elements: seq<Element>, j: nat, headerHeight: int)
    requires j < |elements| && elements[j].id != ""
    requires forall k :: 0 <= k < j ==> elements[k].id != elements[j].id
    ensures AnchorClick("#" + elements[j].id, elements, headerHeight)
            == AnchorOutcome(Some(elements[j].offsetTop - headerHeight - Margin), true)
  {
    var href := "#" + elements[j].id;
    assert href[1..] == elements[j].id;
    var k := FindById(elements, href[1..]);
    assert k == Some(j);
  }
}
