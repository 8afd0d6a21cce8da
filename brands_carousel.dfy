/**
 * The "Deslizar" button under the list of participating brands: each press
 * scrolls the horizontal list two cards further, or back to the start once
 * the list is at (or within ten pixels of) its end.
 */
module BrandsCarousel {

  /** Approximate width of one card plus the gap between cards. */
  const CardWidth := 280

  /** How close to the end of the list counts as being at the end. */
  const EndSlack := 10

  /** The `left` the button asks `scrollTo` for. */
  function ScrollTarget(scrollLeft: int, scrollWidth: int, clientWidth: int): int {
    var maxScroll := scrollWidth - clientWidth;
    if scrollLeft >= maxScroll - EndSlack then 0 else scrollLeft + CardWidth * 2
  }

  /** `x` brought into `[lo, hi]`. */
  function Clamp(x: int, lo: int, hi: int): (r: int)
    requires lo <= hi
    ensures lo <= r <= hi
    ensures lo <= x <= hi ==> r == x
    ensures x < lo ==> r == lo
    ensures hi < x ==> r == hi
  {
    if x < lo then lo else if hi < x then hi else x
  }

  /** A scroll position inside a container whose content is at least as wide as its view. */
  predicate InRange(scrollLeft: int, scrollWidth: int, clientWidth: int) {
    0 <= clientWidth <= scrollWidth && 0 <= scrollLeft <= scrollWidth - clientWidth
  }

  /** Where one press leaves the list: the browser keeps every scroll position
      between 0 and `scrollWidth - clientWidth`. */
  function AfterPress(scrollLeft: int, scrollWidth: int, clientWidth: int): int
    requires InRange(scrollLeft, scrollWidth, clientWidth)
  {
    Clamp(ScrollTarget(scrollLeft, scrollWidth, clientWidth), 0, scrollWidth - clientWidth)
  }

  /** A press either wraps to the start, which happens exactly when the list is
      within `EndSlack` of its end, or moves forward by exactly two cards, or
      to the end of the list when less than that remains. */
  lemma PressWrapsOrAdvances(scrollLeft: int, scrollWidth: int, clientWidth: int)
    requires InRange(scrollLeft, scrollWidth, clientWidth)
    ensures var next, maxScroll := AfterPress(scrollLeft, scrollWidth, clientWidth), scrollWidth - clientWidth;
      && InRange(next, scrollWidth, clientWidth)
      && (scrollLeft >= maxScroll - EndSlack ==> next == 0)
      && (scrollLeft < maxScroll - EndSlack ==>
            && scrollLeft < next <= scrollLeft + 2 * CardWidth
            && next == (if scrollLeft + 2 * CardWidth <= maxScroll then scrollLeft + 2 * CardWidth else maxScroll))
  {}

  /** The position after `n` presses. */
  function AfterPresses(scrollLeft: int, scrollWidth: int, clientWidth: int, n: nat): (r: int)
    requires InRange(scrollLeft, scrollWidth, clientWidth)
    ensures InRange(r, scrollWidth, clientWidth)
    decreases n
  {
    if n == 0 then scrollLeft
    else AfterPresses(AfterPress(scrollLeft, scrollWidth, clientWidth), scrollWidth, clientWidth, n - 1)
  }

  /** Pressing repeatedly always brings the list back to the start, within one
      press per two cards of remaining distance plus two. */
  lemma {:induction false} PressesReturnToStart(scrollLeft: int, scrollWidth: int, clientWidth: int)
    requires InRange(scrollLeft, scrollWidth, clientWidth)
    ensures exists n :: 1 <= n <= (scrollWidth - clientWidth - scrollLeft) / (2 * CardWidth) + 2
                        && AfterPresses(scrollLeft, scrollWidth, clientWidth, n) == 0
    decreases scrollWidth - clientWidth - scrollLeft
  {
    var maxScroll := scrollWidth - clientWidth;
    var next := AfterPress(scrollLeft, scrollWidth, clientWidth);
    assert AfterPresses(scrollLeft, scrollWidth, clientWidth, 1) == AfterPresses(next, scrollWidth, clientWidth, 0);
    if scrollLeft >= maxScroll - EndSlack {
      assert AfterPresses(scrollLeft, scrollWidth, clientWidth, 1) == 0;
    } else if next == maxScroll {
      assert AfterPress(next, scrollWidth, clientWidth) == 0;
      assert AfterPresses(scrollLeft, scrollWidth, clientWidth, 2) == AfterPresses(next, scrollWidth, clientWidth, 1);
    } else {
      assert next == scrollLeft + 2 * CardWidth;
      PressesReturnToStart(next, scrollWidth, clientWidth);
      var m :| 1 <= m <= (maxScroll - next) / (2 * CardWidth) + 2
               && AfterPresses(next, scrollWidth, clientWidth, m) == 0;
      assert AfterPresses(scrollLeft, scrollWidth, clientWidth, m + 1) == AfterPresses(next, scrollWidth, clientWidth, m);
      assert (maxScroll - next) / (2 * CardWidth) + 1 == (maxScroll - scrollLeft) / (2 * CardWidth);
    }
  }

  /** The scrollable element holding the brand cards. */
  class ScrollContainer {
    var scrollLeft: int
    var scrollWidth: int
    var clientWidth: int

    ghost predicate Valid()
      reads this
    {
      InRange(scrollLeft, scrollWidth, clientWidth)
    }

    constructor (scrollWidth: int, clientWidth: int)
      requires 0 <= clientWidth <= scrollWidth
      ensures Valid()
      ensures this.scrollLeft == 0 && this.scrollWidth == scrollWidth && this.clientWidth == clientWidth
    {
      this.scrollLeft := 0;
      this.scrollWidth := scrollWidth;
      this.clientWidth := clientWidth;
    }

    /** `Element.scrollTo({ left })`: the position the (smooth) scroll ends at,
        kept inside the scrollable range. */
    method ScrollTo(left: int)
      requires Valid()
      modifies this`scrollLeft
      ensures Valid()
      ensures scrollLeft == Clamp(left, 0, scrollWidth - clientWidth)
    {
      scrollLeft := Clamp(left, 0, scrollWidth - clientWidth);
    }
  }
}
