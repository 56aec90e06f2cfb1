/**
 * The desktop navigation bar (client/src/components/shared/Navbar/NavbarClient.tsx):
 * it hides while the page scrolls down and shows again when it scrolls up or
 * reaches the top, and it highlights the link of the current path. Scroll
 * positions are whole pixels.
 */
module NavbarClient {
  import opened Text

  /** Below this position the bar is always shown. */
  const TopZone: int := 10

  /** The visibility after a scroll event, given the previous and the current position. */
  function NextVisible(last: int, current: int): bool {
    if current < TopZone then true
    else if current > last then false
    else true
  }

  datatype ScrollState = ScrollState(isVisible: bool, lastScrollY: int)

  /** The state before any scroll event: shown, at position 0. */
  const InitialScroll: ScrollState := ScrollState(true, 0)

  /** One scroll event: the visibility rule, then the position is remembered. */
  function OnScrollState(s: ScrollState, current: int): ScrollState {
    ScrollState(NextVisible(s.lastScrollY, current), current)
  }

  /** A series of scroll events, in order. */
  function ScrollAll(s: ScrollState, positions: seq<int>): ScrollState
    decreases |positions|
  {
    if |positions| == 0 then s else ScrollAll(OnScrollState(s, positions[0]), positions[1..])
  }

  /**
   * Near the top the bar is shown whatever the direction; further down it
   * hides exactly when the position grew, so it shows when scrolling up or
   * not moving.
   */
  lemma NextVisibleSpec(last: int, current: int)
    ensures current < TopZone ==> NextVisible(last, current)
    ensures current >= TopZone ==> (NextVisible(last, current) <==> current <= last)
    ensures !NextVisible(last, current) <==> (current >= TopZone && current > last)
  {
  }

  /** After any non-empty series the remembered position is the last one. */
  lemma {:induction false} ScrollAllRemembersLast(s: ScrollState, positions: seq<int>)
    requires |positions| > 0
    ensures ScrollAll(s, positions).lastScrollY == positions[|positions| - 1]
    decreases |positions|
  {
    if |positions| > 1 {
      ScrollAllRemembersLast(OnScrollState(s, positions[0]), positions[1..]);
    }
  }

  /**
   * The visibility after a series depends only on its last two positions (or
   * on the remembered one and a single position): no earlier event matters.
   */
  lemma {:induction false} ScrollAllLastTwo(s: ScrollState, positions: seq<int>)
    requires |positions| > 0
    ensures var n := |positions|;
      var before := if n >= 2 then positions[n - 2] else s.lastScrollY;
      ScrollAll(s, positions).isVisible == NextVisible(before, positions[n - 1])
    decreases |positions|
  {
    if |positions| > 1 {
      var rest := positions[1..];
      ScrollAllLastTwo(OnScrollState(s, positions[0]), rest);
      if |positions| == 2 {
        assert rest[0] == positions[0 + 1];
      } else {
        assert rest[|rest| - 2] == positions[|positions| - 2];
      }
    }
  }

  /** Running two series one after the other is running their concatenation. */
  lemma {:induction false} ScrollAllAppend(s: ScrollState, a: seq<int>, b: seq<int>)
    ensures ScrollAll(s, a + b) == ScrollAll(ScrollAll(s, a), b)
    decreases |a|
  {
    if |a| > 0 {
      assert (a + b)[1..] == a[1..] + b;
      ScrollAllAppend(OnScrollState(s, a[0]), a[1..], b);
    } else {
      assert a + b == b;
    }
  }

  /** The bar's state. */
  class NavbarState {
    var isVisible: bool
    var lastScrollY: int

    function State(): ScrollState
      reads this
    {
      ScrollState(isVisible, lastScrollY)
    }

    constructor ()
      ensures State() == InitialScroll
    {
      isVisible := true;
      lastScrollY := 0;
    }

    /** The `scrollY` change handler. */
    method OnScroll(current: int)
      modifies this
      ensures State() == OnScrollState(old(State()), current)
    {
      if current < TopZone {
        isVisible := true;
      } else if current > lastScrollY {
        isVisible := false;
      } else {
        isVisible := true;
      }
      lastScrollY := current;
    }
  }

  /** `isActiveLink`: "/products" covers its detail pages; any other link only its exact path. */
  predicate IsActiveLink(pathname: string, href: string) {
    if href == "/products" then pathname == "/products" || StartsWith(pathname, "/products/")
    else pathname == href
  }

  /**
   * The products link is active on "/products" and on every path below
   * "/products/", but not on a path that merely starts with the same letters;
   * the contact link only on "/contact"; and the two are never active together.
   */
  lemma IsActiveLinkSpec(pathname: string, rest: string)
    ensures IsActiveLink("/products", "/products") && IsActiveLink("/products/" + rest, "/products")
    ensures !IsActiveLink("/productsX", "/products")
    ensures IsActiveLink(pathname, "/contact") <==> pathname == "/contact"
    ensures !(IsActiveLink(pathname, "/products") && IsActiveLink(pathname, "/contact"))
  {
    assert ("/products/" + rest)[..|"/products/"|] == "/products/";
    assert "/productsX"[..|"/products/"|] != "/products/" by {
      assert "/productsX"[9] != "/products/"[9];
    }
  }
}
