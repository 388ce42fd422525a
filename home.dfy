/** The home page banner slider (src/pages/Home.jsx): the slide index moved by
    the arrows, and the offset the track is moved to. */
module Home {
  /** `slides.length`: three banner images. */
  const TotalSlides: int := 3

  /** JavaScript's `%`: the remainder takes the sign of the dividend. */
  function JsRem(a: int, n: int): (r: int)
    requires n > 0
    ensures a >= 0 ==> 0 <= r < n && r == a % n
    ensures a < 0 ==> -n < r <= 0 && r == -((-a) % n)
  {
    if a >= 0 then a % n else -((-a) % n)
  }

  /** `nextSlide`: `(prev + 1) % totalSlides`. */
  function Next(i: int): (r: int)
    ensures i >= -1 ==> InRange(r)
    ensures 0 <= i < TotalSlides - 1 ==> r == i + 1
    ensures i == TotalSlides - 1 ==> r == 0
  {
    JsRem(i + 1, TotalSlides)
  }

  /** `prevSlide`: `(prev - 1 + totalSlides) % totalSlides`. */
  function Prev(i: int): (r: int)
    ensures i >= 1 - TotalSlides ==> InRange(r)
    ensures 0 < i <= TotalSlides ==> r == i - 1
    ensures i == 0 ==> r == TotalSlides - 1
  {
    JsRem(i - 1 + TotalSlides, TotalSlides)
  }

  predicate InRange(i: int) {
    0 <= i < TotalSlides
  }

  /** From a valid index both arrows give a valid index: the next one wrapping
      from the last slide to the first, the previous one from the first to the
      last. */
  lemma ArrowsStayInRange(i: int)
    requires InRange(i)
    ensures InRange(Next(i)) && InRange(Prev(i))
    ensures Next(i) == if i == TotalSlides - 1 then 0 else i + 1
    ensures Prev(i) == if i == 0 then TotalSlides - 1 else i - 1
  {
  }

  /** The arrows undo each other. */
  lemma PrevUndoesNext(i: int)
    requires InRange(i)
    ensures Prev(Next(i)) == i && Next(Prev(i)) == i
  {
    ArrowsStayInRange(i);
  }

  /** Going forward three times is the full circle. */
  lemma NextThreeTimes(i: int)
    requires InRange(i)
    ensures Next(Next(Next(i))) == i
  {
    ArrowsStayInRange(i);
    ArrowsStayInRange(Next(i));
    ArrowsStayInRange(Next(Next(i)));
  }

  /** From -3 the previous-arrow formula gives -1, outside the range: the
      wrap relies on the index starting, and staying, at a valid slide, which
      the slider guarantees. */
  lemma PrevOfNegative()
    ensures Prev(-3) == -1
  {
  }

  datatype Press = NextPress | PrevPress

  /** The index after a sequence of arrow presses (or auto-advances). */
  function Run(i: int, presses: seq<Press>): int
    decreases |presses|
  {
    if presses == [] then i
    else Run(if presses[0] == NextPress then Next(i) else Prev(i), presses[1..])
  }

  /** Starting from slide 0, no sequence of presses leaves the range. */
  lemma {:induction false} RunStaysInRange(i: int, presses: seq<Press>)
    requires InRange(i)
    ensures InRange(Run(i, presses))
    decreases |presses|
  {
    if presses != [] {
      ArrowsStayInRange(i);
      RunStaysInRange(if presses[0] == NextPress then Next(i) else Prev(i), presses[1..]);
    }
  }

  /** `goToSlide`'s offset: `translateX(-(index * slideWidth)px)`. */
  function Offset(index: int, width: int): (x: int)
    ensures index >= 0 && width >= 0 ==> x <= 0
  {
    -(index * width)
  }

  /** Neighbouring slides are one slide width apart. */
  lemma OffsetStep(index: int, width: int)
    ensures Offset(index + 1, width) == Offset(index, width) - width
  {
  }

  class Slider {
    var current: int
    /** The track's translation; it is only set while the track is mounted. */
    var offset: int

    ghost predicate Valid()
      reads this
    {
      InRange(current)
    }

    constructor ()
      ensures Valid() && current == 0 && offset == 0
    {
      current := 0;
      offset := 0;
    }

    /** `goToSlide(index)`; `mounted` says whether the track is on screen and
        `width` is the first slide's `clientWidth` at that moment. The index is
        not changed, as when a dot button is pressed. */
    method GoToSlide(index: int, mounted: bool, width: int)
      modifies this
      ensures current == old(current)
      ensures mounted ==> offset == Offset(index, width)
      ensures !mounted ==> offset == old(offset)
    {
      if mounted {
        offset := Offset(index, width);
      }
    }

    /** `nextSlide`, followed by the effect that moves the track to the new slide. */
    method NextSlide(mounted: bool, width: int)
      requires Valid()
      modifies this
      ensures Valid() && current == Next(old(current))
      ensures mounted ==> offset == Offset(current, width)
      ensures !mounted ==> offset == old(offset)
    {
      ArrowsStayInRange(current);
      current := Next(current);
      GoToSlide(current, mounted, width);
    }

    /** `prevSlide`, followed by the effect that moves the track to the new slide. */
    method PrevSlide(mounted: bool, width: int)
      requires Valid()
      modifies this
      ensures Valid() && current == Prev(old(current))
      ensures mounted ==> offset == Offset(current, width)
      ensures !mounted ==> offset == old(offset)
    {
      ArrowsStayInRange(current);
      current := Prev(current);
      GoToSlide(current, mounted, width);
    }
  }
}
