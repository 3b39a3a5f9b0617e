/**
 * The image carousel (`HorizontalGallery`): which slide is current, where a
 * paging key scrolls to, and the swipe hint that is only ever hidden.
 *
 * Pixel quantities are integers. The scroll offset and the widths are read
 * from the DOM, so they are parameters here rather than state.
 */
module Carousel {
  import opened Wrappers

  const ArrowRight := "ArrowRight"
  const ArrowLeft := "ArrowLeft"

  /** `Math.round(num / den)` for a positive divisor: the nearest integer, halves rounded up. */
  function RoundDiv(num: int, den: int): (r: int)
    requires den > 0
    ensures 2 * r * den <= 2 * num + den < 2 * (r + 1) * den
  {
    var m, d := 2 * num + den, 2 * den;
    var q := m / d;
    assert d * q <= m < d * (q + 1);
    q
  }

  /** `el.clientWidth || window.innerWidth`: a zero client width falls back to the window's. */
  function SlideWidth(clientWidth: nat, innerWidth: nat): (w: nat)
    ensures clientWidth >= 1 ==> w == clientWidth
    ensures clientWidth == 0 ==> w == innerWidth
    ensures w == 0 <==> clientWidth == 0 && innerWidth == 0
  {
    if clientWidth != 0 then clientWidth else innerWidth
  }

  /** `Math.max(1, slideW)`: the divisor of the index derivation. */
  function Divisor(slideW: nat): (d: nat)
    ensures d >= 1
    ensures slideW >= 1 ==> d == slideW
  {
    if slideW >= 1 then slideW else 1
  }

  /** The slide the viewport shows, derived from its scroll offset. */
  function CurrentSlide(scrollLeft: int, slideW: nat): (c: int)
    ensures slideW >= 1 ==> 2 * c * slideW <= 2 * scrollLeft + slideW < 2 * (c + 1) * slideW
    ensures slideW == 0 ==> c == scrollLeft
  {
    RoundDiv(scrollLeft, Divisor(slideW))
  }

  /** `Math.max(0, Math.min(n - 1, k))`. */
  function ClampIndex(k: int, n: nat): (idx: int)
    ensures n >= 1 ==> 0 <= idx < n
    ensures n >= 1 && 0 <= k < n ==> idx == k
    ensures n >= 1 && k < 0 ==> idx == 0
    ensures n >= 1 && k >= n ==> idx == n - 1
    ensures n == 0 ==> idx == 0
  {
    var upper := if n - 1 <= k then n - 1 else k;
    if 0 >= upper then 0 else upper
  }

  /** What a handled paging key does: the slide chosen and the offset scrolled to. */
  datatype Paging = Paging(index: int, left: int)

  /**
   * The `keydown` listener. `None` means the key is ignored: no scroll and
   * no `preventDefault`. A handled key moves one slide from the derived
   * current slide `c`, clamped at both ends; from an offset before the first
   * or past the last slide it lands on that end.
   */
  function OnKey(key: string, scrollLeft: int, clientWidth: nat, innerWidth: nat, n: nat): (r: Option<Paging>)
    ensures r.None? <==> key != ArrowRight && key != ArrowLeft
    ensures r.Some? && n >= 1 ==> 0 <= r.value.index < n
    ensures r.Some? && n == 0 ==> r.value.index == 0
    ensures var c := CurrentSlide(scrollLeft, SlideWidth(clientWidth, innerWidth));
      r.Some? && 0 <= c < n ==>
        r.value.index == if key == ArrowRight then (if c < n - 1 then c + 1 else c)
                         else (if c > 0 then c - 1 else c)
    ensures var c := CurrentSlide(scrollLeft, SlideWidth(clientWidth, innerWidth));
      r.Some? && c < 0 ==> r.value.index == 0
    ensures var c := CurrentSlide(scrollLeft, SlideWidth(clientWidth, innerWidth));
      r.Some? && n >= 1 && c >= n ==> r.value.index == n - 1
    ensures r.Some? ==> r.value.left == r.value.index * SlideWidth(clientWidth, innerWidth)
  {
    if key != ArrowRight && key != ArrowLeft then None
    else
      var slideW := SlideWidth(clientWidth, innerWidth);
      var current := CurrentSlide(scrollLeft, slideW);
      var delta := if key == ArrowRight then 1 else -1;
      var idx := ClampIndex(current + delta, n);
      Some(Paging(idx, idx * slideW))
  }

  /** Rounding is exact on whole slides: an offset of `i` slide widths is slide `i`. */
  lemma CurrentSlideAtOffset(i: int, slideW: nat)
    requires slideW >= 1
    ensures CurrentSlide(i * slideW, slideW) == i
  {
    var r := CurrentSlide(i * slideW, slideW);
    var k := r - i;
    assert 2 * r * slideW == 2 * (i * slideW) + 2 * (k * slideW);
    assert 2 * (r + 1) * slideW == 2 * (i * slideW) + 2 * (k * slideW) + 2 * slideW;
    MultipleBounds(k, slideW);
  }

  /** Sign facts about a multiple of a positive width. */
  lemma MultipleBounds(k: int, w: int)
    requires w >= 1
    ensures k >= 1 ==> k * w >= w
    ensures k <= -1 ==> k * w <= -w
  {
  }

  /** A manual scroll to 1.6 slide widths rounds to slide 2. */
  lemma CurrentSlideRoundsToNearest()
    ensures CurrentSlide(16, 10) == 2
    ensures CurrentSlide(15, 10) == 2
    ensures CurrentSlide(14, 10) == 1
  {
  }

  /** The offset a paging key scrolls to derives back to the slide it chose. */
  lemma {:induction false} PagingRoundTrip(key: string, scrollLeft: int, clientWidth: nat, innerWidth: nat, n: nat)
    requires SlideWidth(clientWidth, innerWidth) >= 1
    requires key == ArrowRight || key == ArrowLeft
    ensures OnKey(key, scrollLeft, clientWidth, innerWidth, n).Some?
    ensures var p := OnKey(key, scrollLeft, clientWidth, innerWidth, n).value;
      CurrentSlide(p.left, SlideWidth(clientWidth, innerWidth)) == p.index
  {
    var p := OnKey(key, scrollLeft, clientWidth, innerWidth, n).value;
    CurrentSlideAtOffset(p.index, SlideWidth(clientWidth, innerWidth));
  }

  /**
   * From any offset that derives slide `i` (a whole slide or part of a
   * swipe), ArrowRight moves to `i + 1` and scrolls to its offset; on the
   * last slide it stays put, with no wrap-around.
   */
  lemma {:induction false} ArrowRightFrom(i: int, scrollLeft: int, clientWidth: nat, innerWidth: nat, n: nat)
    requires 0 <= i < n
    requires CurrentSlide(scrollLeft, SlideWidth(clientWidth, innerWidth)) == i
    ensures var w := SlideWidth(clientWidth, innerWidth);
      var next := if i < n - 1 then i + 1 else i;
      OnKey(ArrowRight, scrollLeft, clientWidth, innerWidth, n) == Some(Paging(next, next * w))
  {
  }

  /**
   * From any offset that derives slide `i`, ArrowLeft moves to `i - 1` and
   * scrolls to its offset; on the first slide it stays put, with no
   * wrap-around.
   */
  lemma {:induction false} ArrowLeftFrom(i: int, scrollLeft: int, clientWidth: nat, innerWidth: nat, n: nat)
    requires 0 <= i < n
    requires CurrentSlide(scrollLeft, SlideWidth(clientWidth, innerWidth)) == i
    ensures var w := SlideWidth(clientWidth, innerWidth);
      var prev := if i > 0 then i - 1 else i;
      OnKey(ArrowLeft, scrollLeft, clientWidth, innerWidth, n) == Some(Paging(prev, prev * w))
  {
  }

  /**
   * A swipe that stopped at 1.6 slide widths is on slide 2: on four slides
   * ArrowRight goes to slide 3 and ArrowLeft to slide 1.
   */
  lemma PagingFromPartialSwipe(w: nat)
    requires w >= 1 && w % 5 == 0
    ensures OnKey(ArrowRight, 8 * w / 5, w, 0, 4) == Some(Paging(3, 3 * w))
    ensures OnKey(ArrowLeft, 8 * w / 5, w, 0, 4) == Some(Paging(1, w))
  {
    var f := w / 5;
    assert w == 5 * f && 8 * w / 5 == 8 * f;
    var r := CurrentSlide(8 * f, w);
    var k := r - 2;
    assert 2 * r * w == 20 * f + 10 * (k * f);
    assert 2 * (r + 1) * w == 30 * f + 10 * (k * f);
    MultipleBounds(k, f);
    assert r == 2;
    ArrowRightFrom(2, 8 * f, w, 0, 4);
    ArrowLeftFrom(2, 8 * f, w, 0, 4);
  }

  /** With a single image every paging key keeps slide 0, wherever the viewport is. */
  lemma SingleSlideNeverPages(key: string, scrollLeft: int, clientWidth: nat, innerWidth: nat)
    requires key == ArrowRight || key == ArrowLeft
    ensures OnKey(key, scrollLeft, clientWidth, innerWidth, 1) == Some(Paging(0, 0))
  {
  }

  /**
   * Three slides, starting on the first: right, right, right, left visits
   * slides 1, 2, 2 (clamped) and 1, when each scroll lands on its target.
   */
  lemma {:induction false} ThreeSlideWalk(w: nat)
    requires w >= 1
    ensures OnKey(ArrowRight, 0, w, 0, 3) == Some(Paging(1, w))
    ensures OnKey(ArrowRight, w, w, 0, 3) == Some(Paging(2, 2 * w))
    ensures OnKey(ArrowRight, 2 * w, w, 0, 3) == Some(Paging(2, 2 * w))
    ensures OnKey(ArrowLeft, 2 * w, w, 0, 3) == Some(Paging(1, w))
  {
    CurrentSlideAtOffset(0, w);
    CurrentSlideAtOffset(1, w);
    CurrentSlideAtOffset(2, w);
    ArrowRightFrom(0, 0, w, 0, 3);
    ArrowRightFrom(1, w, w, 0, 3);
    ArrowRightFrom(2, 2 * w, w, 0, 3);
    ArrowLeftFrom(2, 2 * w, w, 0, 3);
  }

  /** The events a mounted carousel receives. */
  datatype Event = Scroll | Timeout | KeyDown(key: string)

  /** Whether the swipe hint is still shown after a mount has received `events`. */
  function HintVisible(events: seq<Event>): (visible: bool)
    ensures visible <==> forall i :: 0 <= i < |events| ==> events[i].KeyDown?
  {
    if events == [] then true
    else HintVisible(events[..|events| - 1]) && events[|events| - 1].KeyDown?
  }

  /** Once hidden, the hint stays hidden whatever follows. */
  lemma {:induction false} HintStaysHidden(events: seq<Event>, later: seq<Event>)
    requires !HintVisible(events)
    ensures !HintVisible(events + later)
  {
    var i :| 0 <= i < |events| && !events[i].KeyDown?;
    assert (events + later)[i] == events[i];
  }

  /**
   * A mounted `HorizontalGallery`: the number of images it pages over and
   * its hint flag, with the ghost history of the events it has handled.
   */
  class HorizontalGallery {
    const slideCount: nat
    var showHint: bool
    ghost var events: seq<Event>

    ghost predicate Valid()
      reads this
    {
      showHint == HintVisible(events)
    }

    /** Mounting: the hint starts visible. */
    constructor (slideCount: nat)
      ensures Valid() && this.slideCount == slideCount
      ensures events == [] && showHint
    {
      this.slideCount := slideCount;
      showHint := true;
      events := [];
    }

    /** The `scroll` listener: hides the hint. */
    method OnScroll()
      requires Valid()
      modifies this
      ensures Valid() && events == old(events) + [Scroll]
      ensures !showHint
    {
      showHint := false;
      events := events + [Scroll];
    }

    /** The dwell timer firing: hides the hint. */
    method OnTimeout()
      requires Valid()
      modifies this
      ensures Valid() && events == old(events) + [Timeout]
      ensures !showHint
    {
      showHint := false;
      events := events + [Timeout];
    }

    /** The `keydown` listener: computes the paging target and leaves the hint alone. */
    method OnKeyDown(key: string, scrollLeft: int, clientWidth: nat, innerWidth: nat) returns (r: Option<Paging>)
      requires Valid()
      modifies this
      ensures Valid() && events == old(events) + [KeyDown(key)]
      ensures showHint == old(showHint)
      ensures r == OnKey(key, scrollLeft, clientWidth, innerWidth, slideCount)
    {
      r := OnKey(key, scrollLeft, clientWidth, innerWidth, slideCount);
      events := events + [KeyDown(key)];
    }
  }
}
