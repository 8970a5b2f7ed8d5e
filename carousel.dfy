/** The banner carousel (fontend/src/layout/Banner/carousel/index.tsx): the
    slide index and the arrow, indicator and timer updates of it. The
    carousel renders nothing for an empty slide list (line 63), so every
    control below works on at least one slide. */
module Carousel {

  /** JavaScript's `%`: the remainder takes the sign of the dividend. */
  function JsRem(a: int, b: int): (r: int)
    requires b > 0
    ensures a >= 0 ==> r == a % b
    ensures a < 0 ==> r == -((-a) % b)
  {
    if a >= 0 then a % b else -((-a) % b)
  }

  /** An index the carousel can show. */
  predicate InRange(i: int, n: nat)
  {
    0 <= i < n
  }

  /** nextSlide and the autoplay tick: (prev + 1) % slides.length. */
  function NextSlide(prev: int, n: nat): (i: int)
    requires n > 0
    ensures InRange(prev, n) ==> InRange(i, n)
    ensures InRange(prev, n) ==> (i == if prev == n - 1 then 0 else prev + 1)
  {
    JsRem(prev + 1, n)
  }

  /** prevSlide: prev === 0 ? slides.length - 1 : prev - 1. */
  function PrevSlide(prev: int, n: nat): (i: int)
    requires n > 0
    ensures InRange(prev, n) ==> InRange(i, n)
    ensures prev == 0 ==> i == n - 1
    ensures prev != 0 ==> i == prev - 1
  {
    if prev == 0 then n - 1 else prev - 1
  }

  /** goToSlide: the indicator's own index. */
  function GoToSlide(index: int): (i: int)
    ensures i == index
  {
    index
  }

  /** The two arrows undo each other on every index the carousel can show. */
  lemma ArrowsInverse(i: int, n: nat)
    requires n > 0 && InRange(i, n)
    ensures PrevSlide(NextSlide(i, n), n) == i
    ensures NextSlide(PrevSlide(i, n), n) == i
  {
  }

  /** `steps` presses of the next arrow (or timer ticks). */
  function Advance(i: int, n: nat, steps: nat): int
    requires n > 0
  {
    if steps == 0 then i else NextSlide(Advance(i, n, steps - 1), n)
  }

  /** The remainder is the r of any a == q·n + r with 0 <= r < n. */
  lemma ModUnique(a: int, n: int, q: int, r: int)
    requires n > 0 && 0 <= r < n && a == q * n + r
    ensures a % n == r
  {
    var d := q - a / n;
    assert d * n == a % n - r;
  }

  /** Stepping the remainder is the remainder of the step. */
  lemma ModStep(a: int, n: int)
    requires n > 0
    ensures ((a % n) + 1) % n == (a + 1) % n
  {
    var q, r := a / n, a % n;
    if r < n - 1 {
      ModUnique(a + 1, n, q, r + 1);
      ModUnique(r + 1, n, 0, r + 1);
    } else {
      ModUnique(a + 1, n, q + 1, 0);
      ModUnique(r + 1, n, 1, 0);
    }
  }

  /** After `steps` ticks the index is (i + steps) mod n. */
  lemma {:induction false} AdvanceWraps(i: int, n: nat, steps: nat)
    requires n > 0 && InRange(i, n)
    ensures Advance(i, n, steps) == (i + steps) % n
    ensures InRange(Advance(i, n, steps), n)
  {
    if steps > 0 {
      AdvanceWraps(i, n, steps - 1);
      ModStep(i + steps - 1, n);
    }
  }

  /** n ticks bring the carousel back to the slide it started from. */
  lemma FullCircle(i: int, n: nat)
    requires n > 0 && InRange(i, n)
    ensures Advance(i, n, n) == i
  {
    AdvanceWraps(i, n, n);
    ModUnique(i + n, n, 1, i);
  }

  /** An indicator button picks any slide, and the index stays showable. */
  lemma IndicatorsInRange(index: int, n: nat)
    requires n > 0 && InRange(index, n)
    ensures InRange(GoToSlide(index), n)
    ensures InRange(NextSlide(GoToSlide(index), n), n) && InRange(PrevSlide(GoToSlide(index), n), n)
  {
  }
}
