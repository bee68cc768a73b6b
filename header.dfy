/** The header scroll effect of `initializeHeaderScroll`: on every scroll
    event the header gets a solid background past 100px and slides out of
    view when the page moved down past 200px. The only memory is the offset
    of the previous event. */
module Header {

  /** Threshold past which the header background is solid and blurred. */
  const BackgroundThreshold := 100
  /** Threshold past which a downward scroll hides the header. */
  const HideThreshold := 200

  /** What one scroll event does to the header: `solid` is the
      `rgba(255, 255, 255, 0.95)` background with blur (otherwise the light
      background), `hidden` the `translateY(-100%)` transform (otherwise
      `translateY(0)`). */
  datatype Look = Look(solid: bool, hidden: bool)

  /** The look after a scroll to `offset` when the previous event was at `last`. */
  function LookAt(last: int, offset: int): (r: Look)
    ensures r.hidden ==> r.solid
    ensures offset <= last ==> !r.hidden
    ensures offset <= BackgroundThreshold ==> !r.solid && !r.hidden
  {
    Look(offset > BackgroundThreshold, offset > last && offset > HideThreshold)
  }

  /** `window.pageYOffset || document.documentElement.scrollTop`: the second
      is consulted only when the first is 0. */
  function ScrollOffset(pageYOffset: int, documentScrollTop: int): (r: int)
    ensures pageYOffset != 0 ==> r == pageYOffset
    ensures pageYOffset == 0 ==> r == documentScrollTop
  {
    if pageYOffset != 0 then pageYOffset else documentScrollTop
  }

  /** The looks produced by a run of scroll events to `offsets`, starting
      with `last` remembered. */
  function Replay(last: int, offsets: seq<int>): (r: seq<Look>)
    ensures |r| == |offsets|
    decreases offsets
  {
    if offsets == [] then []
    else [LookAt(last, offsets[0])] + Replay(offsets[0], offsets[1..])
  }

  /** The offset remembered before event `i` of a run that starts at `last`. */
  function Previous(last: int, offsets: seq<int>, i: nat): int
    requires i < |offsets|
  {
    if i == 0 then last else offsets[i - 1]
  }

  /** Event `i` of any run is solid exactly when its offset is past 100px and
      is hidden exactly when it is past 200px and below the event before it
      (below the starting memory for the first event). */
  lemma {:induction false} ReplayAt(last: int, offsets: seq<int>, i: nat)
    requires i < |offsets|
    ensures Replay(last, offsets)[i].solid <==> offsets[i] > BackgroundThreshold
    ensures Replay(last, offsets)[i].hidden <==>
              offsets[i] > Previous(last, offsets, i) && offsets[i] > HideThreshold
    decreases i
  {
    if i > 0 {
      ReplayAt(offsets[0], offsets[1..], i - 1);
      assert Replay(last, offsets)[i] == Replay(offsets[0], offsets[1..])[i - 1];
    }
  }

  /** A hidden header is always a solid one: hiding needs 200px, the solid background
      only 100px. */
  lemma {:induction false} HiddenIsSolid(last: int, offsets: seq<int>, i: nat)
    requires i < |offsets|
    ensures Replay(last, offsets)[i].hidden ==> Replay(last, offsets)[i].solid
  {
    ReplayAt(last, offsets, i);
  }

  /** Scrolling up, or staying put, always shows the header. */
  lemma {:induction false} UpwardShows(last: int, offsets: seq<int>, i: nat)
    requires i < |offsets|
    requires offsets[i] <= Previous(last, offsets, i)
    ensures !Replay(last, offsets)[i].hidden
  {
    ReplayAt(last, offsets, i);
  }

  /** The closure of `initializeHeaderScroll`: `lastScrollTop` starts at 0
      and each scroll event overwrites it. */
  class HeaderController {
    var lastScrollTop: int

    constructor ()
      ensures lastScrollTop == 0
    {
      lastScrollTop := 0;
    }

    /** The scroll listener. */
    method Scroll(pageYOffset: int, documentScrollTop: int) returns (look: Look)
      modifies this
      ensures var offset := ScrollOffset(pageYOffset, documentScrollTop);
              && look.solid == (offset > BackgroundThreshold)
              && look.hidden == (offset > old(lastScrollTop) && offset > HideThreshold)
              && lastScrollTop == offset
      ensures look == LookAt(old(lastScrollTop), lastScrollTop)
    {
      var scrollTop := if pageYOffset != 0 then pageYOffset else documentScrollTop;
      var solid, hidden;
      if scrollTop > BackgroundThreshold {
        solid := true;
      } else {
        solid := false;
      }
      if scrollTop > lastScrollTop && scrollTop > HideThreshold {
        hidden := true;
      } else {
        hidden := false;
      }
      lastScrollTop := scrollTop;
      look := Look(solid, hidden);
    }
  }

  /** A controller fed a run of offsets produces exactly `Replay(0, ...)`
      and is left remembering the last offset (0 after an empty run). */
  method ScrollRun(offsets: seq<int>) returns (looks: seq<Look>, last: int)
    ensures looks == Replay(0, offsets)
    ensures last == if offsets == [] then 0 else offsets[|offsets| - 1]
  {
    var header := new HeaderController();
    looks := [];
    var i := 0;
    while i < |offsets|
      invariant 0 <= i <= |offsets|
      invariant header.lastScrollTop == Previous(0, offsets + [0], i)
      invariant looks + Replay(header.lastScrollTop, offsets[i..]) == Replay(0, offsets)
    {
      assert offsets[i..] == [offsets[i]] + offsets[i + 1..];
      var look := header.Scroll(offsets[i], 0);
      looks := looks + [look];
      i := i + 1;
    }
    last := header.lastScrollTop;
  }
}
