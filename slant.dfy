/** The slanted banner: on every scroll it checks whether any banner lies
    wholly inside the window and, the first time one does, slides its two
    texts in for good. */
module Slant {

  /** The vertical extent of a banner, from `getBoundingClientRect()`. */
  datatype Rect = Rect(top: real, bottom: real)

  predicate InViewport(r: Rect, innerHeight: real) {
    r.top >= 0.0 && r.bottom <= innerHeight
  }

  /** The component's three flags. */
  datatype SlantState = SlantState(isSlideRightin: bool, isSlideLeftin: bool, effectActivated: bool)

  const InitialSlant := SlantState(false, false, false)

  /** The two texts move together, and once the effect has fired they stay in. */
  predicate Consistent(s: SlantState) {
    s.isSlideRightin == s.isSlideLeftin && (s.effectActivated ==> s.isSlideRightin)
  }

  /** The flags after a scroll, given whether some banner is in view. */
  function Scrolled(s: SlantState, anyInViewport: bool): (t: SlantState)
    ensures anyInViewport ==> t == SlantState(true, true, true)
    ensures !anyInViewport && !s.effectActivated ==> t == SlantState(false, false, false)
    ensures !anyInViewport && s.effectActivated ==> t == s
  {
    if anyInViewport then SlantState(true, true, true)
    else if !s.effectActivated then s.(isSlideRightin := false, isSlideLeftin := false)
    else s
  }

  /** Every scroll keeps the flags consistent, and after the effect has fired
      no scroll takes the texts out again. */
  lemma {:induction false} ScrollsKeepLatch(s: SlantState, views: seq<bool>)
    requires Consistent(s)
    ensures Consistent(ScrollAll(s, views))
    ensures s.effectActivated ==> ScrollAll(s, views).effectActivated && ScrollAll(s, views).isSlideRightin
    ensures (exists i :: 0 <= i < |views| && views[i]) ==> ScrollAll(s, views).effectActivated
    decreases |views|
  {
    if views != [] {
      ScrollsKeepLatch(Scrolled(s, views[0]), views[1..]);
      if exists i :: 0 <= i < |views| && views[i] {
        var i :| 0 <= i < |views| && views[i];
        if i > 0 {
          assert views[1..][i - 1];
        }
      }
    }
  }

  /** A series of scrolls. */
  function ScrollAll(s: SlantState, views: seq<bool>): SlantState
    decreases |views|
  {
    if views == [] then s else ScrollAll(Scrolled(s, views[0]), views[1..])
  }

  /** The `forEach` over the banners: whether any is wholly in view. */
  method AnySlantInViewport(slants: seq<Rect>, innerHeight: real) returns (found: bool)
    ensures found <==> exists i :: 0 <= i < |slants| && InViewport(slants[i], innerHeight)
  {
    found := false;
    var k := 0;
    while k < |slants|
      invariant 0 <= k <= |slants|
      invariant found <==> exists i :: 0 <= i < k && InViewport(slants[i], innerHeight)
    {
      if slants[k].top >= 0.0 && slants[k].bottom <= innerHeight {
        found := true;
      }
      k := k + 1;
    }
  }

  class SlantComponent {
    var isSlideRightin: bool
    var isSlideLeftin: bool
    var effectActivated: bool

    function State(): SlantState
      reads this
    {
      SlantState(isSlideRightin, isSlideLeftin, effectActivated)
    }

    constructor ()
      ensures State() == InitialSlant && Consistent(State())
    {
      isSlideRightin, isSlideLeftin, effectActivated := false, false, false;
    }

    /** `onWindowScroll(event)`. */
    method OnWindowScroll(slants: seq<Rect>, innerHeight: real)
      modifies this
      ensures Consistent(old(State())) ==> Consistent(State())
      ensures State() == Scrolled(old(State()),
                                  exists i :: 0 <= i < |slants| && InViewport(slants[i], innerHeight))
    {
      var isAnySlantInViewport := AnySlantInViewport(slants, innerHeight);
      if isAnySlantInViewport {
        isSlideRightin := true;
        isSlideLeftin := true;
        effectActivated := true;
      } else if !isAnySlantInViewport && !effectActivated {
        isSlideRightin := false;
        isSlideLeftin := false;
      }
    }
  }
}
