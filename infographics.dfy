/**
 * The introductory carousel: three slides, a timer that cycles through them,
 * the Next button that ends the carousel on the last slide, and the dots.
 */
module Infographics {
  const Titles: seq<string> := ["Grow Your Practice", "Manage Your Time", "Connect & Earn"]

  /** The timer's step: the next slide, wrapping from the last back to the first. */
  function TimerStep(s: int): (r: int)
    requires 0 <= s < |Titles|
    ensures 0 <= r < |Titles|
    ensures s < |Titles| - 1 ==> r == s + 1
    ensures s == |Titles| - 1 ==> r == 0
  {
    (s + 1) % |Titles|
  }

  /** The slide shown after `n` timer ticks. */
  function AfterTicks(s: int, n: nat): (r: int)
    requires 0 <= s < |Titles|
    ensures 0 <= r < |Titles|
  {
    if n == 0 then s else TimerStep(AfterTicks(s, n - 1))
  }

  /** Left alone, the carousel returns to the slide it started on after every three ticks. */
  lemma {:induction false} TicksCycle(s: int, n: nat)
    requires 0 <= s < |Titles|
    ensures AfterTicks(s, 3 * n) == s
  {
    if n > 0 {
      var m := 3 * (n - 1);
      TicksCycle(s, n - 1);
      assert AfterTicks(s, m + 1) == TimerStep(AfterTicks(s, m));
      assert AfterTicks(s, m + 2) == TimerStep(AfterTicks(s, m + 1));
      assert AfterTicks(s, m + 3) == TimerStep(AfterTicks(s, m + 2));
      assert 3 * n == m + 3;
    }
  }

  /** Every slide is reached from any other within two ticks. */
  lemma EverySlideReached(s: int, t: int)
    requires 0 <= s < |Titles| && 0 <= t < |Titles|
    ensures AfterTicks(s, (t - s) % 3) == t
  {
    var n := (t - s) % 3;
    if n == 1 {
      assert AfterTicks(s, 1) == TimerStep(s);
    } else if n == 2 {
      assert AfterTicks(s, 2) == TimerStep(TimerStep(s));
    }
  }

  class Carousel {
    var currentSlide: int

    predicate Valid()
      reads this
    {
      0 <= currentSlide < |Titles|
    }

    constructor()
      ensures Valid() && currentSlide == 0
    {
      currentSlide := 0;
    }

    /** One interval tick. */
    method Tick()
      requires Valid()
      modifies this
      ensures Valid() && currentSlide == TimerStep(old(currentSlide))
    {
      currentSlide := (currentSlide + 1) % |Titles|;
    }

    /** `handleNext`: on the last slide the carousel completes; otherwise it moves on one slide. */
    method Next() returns (completed: bool)
      requires Valid()
      modifies this
      ensures Valid()
      ensures completed <==> old(currentSlide) == |Titles| - 1
      ensures completed ==> currentSlide == old(currentSlide)
      ensures !completed ==> currentSlide == old(currentSlide) + 1
    {
      if currentSlide == |Titles| - 1 {
        completed := true;
      } else {
        completed := false;
        currentSlide := currentSlide + 1;
      }
    }

    /** A dot jumps straight to its slide. */
    method SelectDot(index: int)
      requires Valid() && 0 <= index < |Titles|
      modifies this
      ensures Valid() && currentSlide == index
    {
      currentSlide := index;
    }
  }
}
