/** The testimonial carousel (src/pages/Home/TestimonialSection.jsx): a
    slide index advanced modulo the number of testimonials by a timer, and
    set directly by the dots. */
module Testimonials {

  /** The interval's update: `(prev + 1) % testimonials.length`. */
  function NextSlide(current: int, count: nat): (r: int)
    requires count > 0
    ensures 0 <= r < count
    ensures 0 <= current < count - 1 ==> r == current + 1
    ensures current == count - 1 ==> r == 0
  {
    (current + 1) % count
  }

  function Ticks(current: int, count: nat, n: nat): int
    requires count > 0
    decreases n
  {
    if n == 0 then current else Ticks(NextSlide(current, count), count, n - 1)
  }

  /** After k ticks from slide s the carousel is on slide (s + k) mod count. */
  lemma {:induction false} TicksAdvance(current: int, count: nat, n: nat)
    requires count > 0 && 0 <= current < count
    ensures Ticks(current, count, n) == (current + n) % count
    decreases n
  {
    if n > 0 {
      var next := NextSlide(current, count);
      TicksAdvance(next, count, n - 1);
      assert next == (current + 1) % count;
      ModAddOne(current, count, n - 1);
    }
  }

  /** The remainder is the r of any decomposition x == q * count + r with 0 <= r < count. */
  lemma ModUnique(x: int, count: nat, q: int, r: int)
    requires count > 0 && x == q * count + r && 0 <= r < count
    ensures x % count == r
  {
    var q0, r0 := x / count, x % count;
    var d := q - q0;
    assert d * count == r0 - r by {
      assert q * count - q0 * count == r0 - r;
      MulSub(q, q0, count);
    }
    if d >= 1 {
      MulAtLeast(d, count);
    } else if d <= -1 {
      MulAtLeast(-d, count);
    }
  }

  lemma MulSub(a: int, b: int, c: int)
    ensures (a - b) * c == a * c - b * c
  {
  }

  lemma MulAtLeast(k: int, count: nat)
    requires k >= 1
    ensures k * count >= count
  {
  }

  lemma ModAddOne(current: int, count: nat, m: nat)
    requires count > 0 && 0 <= current < count
    ensures ((current + 1) % count + m) % count == (current + 1 + m) % count
  {
    if current + 1 == count {
      ModUnique(current + 1, count, 1, 0);
      var q, r := m / count, m % count;
      ModUnique(current + 1 + m, count, q + 1, r);
    } else {
      ModUnique(current + 1, count, 0, current + 1);
    }
  }

  /** A full round of ticks returns to the starting slide. */
  lemma FullRoundReturns(current: int, count: nat)
    requires count > 0 && 0 <= current < count
    ensures Ticks(current, count, count) == current
  {
    TicksAdvance(current, count, count);
    ModUnique(current + count, count, 1, current);
  }

  /** With the three shipped testimonials, three ticks return to the start. */
  lemma ThreeTicksReturn(current: int)
    requires 0 <= current < 3
    ensures Ticks(current, 3, 3) == current
  {
    FullRoundReturns(current, 3);
  }

  /** Only the dot at the current slide is highlighted. */
  predicate DotHighlighted(current: int, index: int) {
    current == index
  }

  /** The carousel's state. The cards themselves render regardless of the slide. */
  class Carousel {
    const count: nat
    var currentSlide: int

    constructor (count: nat)
      requires count > 0
      ensures this.count == count && currentSlide == 0 && Valid()
    {
      this.count := count;
      currentSlide := 0;
    }

    predicate Valid()
      reads this
    {
      count > 0 && 0 <= currentSlide < count
    }

    /** One firing of the 8-second interval. */
    method Tick()
      requires Valid()
      modifies this`currentSlide
      ensures Valid()
      ensures currentSlide == NextSlide(old(currentSlide), count)
    {
      currentSlide := (currentSlide + 1) % count;
    }

    /** A dot click. */
    method GoToSlide(index: int)
      requires Valid() && 0 <= index < count
      modifies this`currentSlide
      ensures Valid() && currentSlide == index
      ensures forall i :: 0 <= i < count ==> (DotHighlighted(currentSlide, i) <==> i == index)
    {
      currentSlide := index;
    }
  }
}
