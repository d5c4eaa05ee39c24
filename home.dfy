/** The hero banner carousel of the Home page: a fixed list of slides, one
    current index, and the three ways a visitor (or the auto-advance timer)
    changes it. */
module Home {

  /** The hero slides, fixed when the page module is loaded. */
  const HeroImages: seq<string> := [
    "https://images.unsplash.com/photo-1559339352-11d035aa65de?q=80&w=2560&auto=format&fit=crop",
    "https://images.unsplash.com/photo-1550989460-0adf9ea622e2?q=80&w=2560&auto=format&fit=crop",
    "https://images.unsplash.com/photo-1606787366850-de6330128bfc?q=80&w=2560&auto=format&fit=crop"
  ]

  // ---------------------------------------------------------------------------
  // The index arithmetic
  // ---------------------------------------------------------------------------

  /** The index after the forward arrow or a timer tick on a carousel of `n`
      slides. The operand `i + 1` is never negative, so the source's
      truncating `%` and Dafny's `%` agree here. */
  function Next(i: nat, n: nat): (r: nat)
    requires n > 0
    ensures r < n
    ensures i + 1 < n ==> r == i + 1
    ensures i + 1 == n ==> r == 0
  {
    (i + 1) % n
  }

  /** The index after the backward arrow: one back, with 0 wrapping to the
      last slide. */
  function Prev(i: nat, n: nat): (r: nat)
    requires n > 0
    ensures i < n ==> r < n
    ensures i == 0 ==> r == n - 1
    ensures i > 0 ==> r + 1 == i
  {
    if i == 0 then n - 1 else i - 1
  }

  /** The backward arrow undoes the forward arrow and vice versa. */
  lemma PrevNextInverse(i: nat, n: nat)
    requires i < n
    ensures Prev(Next(i, n), n) == i
    ensures Next(Prev(i, n), n) == i
  {
  }

  /** The index after `k` forward steps (k timer ticks or arrow clicks). */
  function AdvanceBy(i: nat, k: nat, n: nat): nat
    requires n > 0
    decreases k
  {
    if k == 0 then i else Next(AdvanceBy(i, k - 1, n), n)
  }

  /** The index after `k` backward steps. */
  function RetreatBy(i: nat, k: nat, n: nat): nat
    requires n > 0
    decreases k
  {
    if k == 0 then i else Prev(RetreatBy(i, k - 1, n), n)
  }

  /** Forward steps compose: `a` steps then `b` steps is `a + b` steps. */
  lemma {:induction false} AdvanceByAdds(i: nat, a: nat, b: nat, n: nat)
    requires n > 0
    ensures AdvanceBy(AdvanceBy(i, a, n), b, n) == AdvanceBy(i, a + b, n)
    decreases b
  {
    if b > 0 {
      AdvanceByAdds(i, a, b - 1, n);
    }
  }

  /** Short of the last slide, `k` forward steps simply add `k`; one more
      step wraps to the first slide. */
  lemma {:induction false} AdvanceByNoWrap(i: nat, k: nat, n: nat)
    requires i + k < n
    ensures AdvanceBy(i, k, n) == i + k
    ensures AdvanceBy(i, k + 1, n) == if i + k + 1 == n then 0 else i + k + 1
    decreases k
  {
    if k > 0 {
      AdvanceByNoWrap(i, k - 1, n);
    }
  }

  /** Advancing as many times as there are slides returns to the start: the
      carousel is cyclic with period `n`. */
  lemma AdvancePeriod(i: nat, n: nat)
    requires i < n
    ensures AdvanceBy(i, n, n) == i
  {
    AdvanceByNoWrap(i, n - 1 - i, n);
    AdvanceByAdds(i, n - i, i, n);
    if i > 0 {
      AdvanceByNoWrap(0, i - 1, n);
    }
  }

  /** `k` backward steps undo `k` forward steps. */
  lemma {:induction false} RetreatUndoesAdvance(i: nat, k: nat, n: nat)
    requires i < n
    ensures AdvanceBy(i, k, n) < n
    ensures RetreatBy(AdvanceBy(i, k, n), k, n) == i
    decreases k
  {
    if k > 0 {
      RetreatUndoesAdvance(i, k - 1, n);
      var j := AdvanceBy(i, k - 1, n);
      PrevNextInverse(j, n);
      RetreatAfterStep(j, k - 1, n);
    }
  }

  /** Retreating `k + 1` times from `Next(j)` is retreating `k` times from `j`. */
  lemma {:induction false} RetreatAfterStep(j: nat, k: nat, n: nat)
    requires j < n
    ensures RetreatBy(Next(j, n), k + 1, n) == RetreatBy(j, k, n)
    decreases k
  {
    if k == 0 {
      PrevNextInverse(j, n);
    } else {
      RetreatAfterStep(j, k - 1, n);
    }
  }

  /** `k` forward steps undo `k` backward steps. */
  lemma {:induction false} AdvanceUndoesRetreat(i: nat, k: nat, n: nat)
    requires i < n
    ensures RetreatBy(i, k, n) < n
    ensures AdvanceBy(RetreatBy(i, k, n), k, n) == i
    decreases k
  {
    if k > 0 {
      AdvanceUndoesRetreat(i, k - 1, n);
      var j := RetreatBy(i, k - 1, n);
      PrevNextInverse(j, n);
      AdvanceAfterStepBack(j, k - 1, n);
    }
  }

  /** Advancing `k + 1` times from `Prev(j)` is advancing `k` times from `j`. */
  lemma {:induction false} AdvanceAfterStepBack(j: nat, k: nat, n: nat)
    requires j < n
    ensures AdvanceBy(Prev(j, n), k + 1, n) == AdvanceBy(j, k, n)
    decreases k
  {
    if k == 0 {
      PrevNextInverse(j, n);
    } else {
      AdvanceAfterStepBack(j, k - 1, n);
    }
  }

  /** With the three hero slides, three ticks from the first slide show
      slides 1, 2 and then 0 again. */
  lemma ThreeTicksFromStart()
    ensures |HeroImages| == 3
    ensures AdvanceBy(0, 1, 3) == 1 && AdvanceBy(0, 2, 3) == 2 && AdvanceBy(0, 3, 3) == 0
  {
  }

  // ---------------------------------------------------------------------------
  // Rendering: which slide and which dot are marked active
  // ---------------------------------------------------------------------------

  /** One class per position: `on` at the current index, `off` elsewhere. */
  function Render(n: nat, current: nat, on: string, off: string): seq<string>
  {
    seq(n, k => if k == current then on else off)
  }

  /** Opacity class of each slide layer. */
  function SlideOpacities(n: nat, current: nat): seq<string>
  {
    Render(n, current, "opacity-100", "opacity-0")
  }

  /** Zoom class of each slide image. */
  function SlideScales(n: nat, current: nat): seq<string>
  {
    Render(n, current, "scale-110", "scale-100")
  }

  /** Class of each indicator dot. */
  function DotClasses(n: nat, current: nat): seq<string>
  {
    Render(n, current, "w-8 bg-primary", "w-2 bg-white/30")
  }

  /** Number of occurrences of `c` in `xs`. */
  function CountOf(xs: seq<string>, c: string): nat
  {
    if xs == [] then 0 else CountOf(xs[..|xs| - 1], c) + (if xs[|xs| - 1] == c then 1 else 0)
  }

  /** Exactly the position equal to the current index carries `on`, so `on`
      occurs once when the index is in range and never otherwise. */
  lemma {:induction false} RenderMarksExactlyCurrent(n: nat, current: nat, on: string, off: string)
    requires on != off
    ensures forall k :: 0 <= k < n ==> (Render(n, current, on, off)[k] == on <==> k == current)
    ensures CountOf(Render(n, current, on, off), on) == if current < n then 1 else 0
    decreases n
  {
    if n > 0 {
      RenderMarksExactlyCurrent(n - 1, current, on, off);
      assert Render(n, current, on, off)[..n - 1] == Render(n - 1, current, on, off);
    }
  }

  /** For an in-range index exactly one slide is fully opaque and zoomed and
      exactly one dot is highlighted: the one at the current index. */
  lemma ExactlyOneActive(n: nat, current: nat)
    requires current < n
    ensures CountOf(SlideOpacities(n, current), "opacity-100") == 1
    ensures SlideOpacities(n, current)[current] == "opacity-100"
    ensures CountOf(SlideScales(n, current), "scale-110") == 1
    ensures SlideScales(n, current)[current] == "scale-110"
    ensures CountOf(DotClasses(n, current), "w-8 bg-primary") == 1
    ensures DotClasses(n, current)[current] == "w-8 bg-primary"
  {
    RenderMarksExactlyCurrent(n, current, "opacity-100", "opacity-0");
    RenderMarksExactlyCurrent(n, current, "scale-110", "scale-100");
    RenderMarksExactlyCurrent(n, current, "w-8 bg-primary", "w-2 bg-white/30");
  }

  // ---------------------------------------------------------------------------
  // The component state
  // ---------------------------------------------------------------------------

  /** The Home component's carousel state: the slide list and the index of
      the slide on screen. */
  class HeroCarousel {
    const slides: seq<string>
    var currentIndex: nat

    /** The index always names a slide. */
    ghost predicate Valid()
      reads this
    {
      |slides| > 0 && currentIndex < |slides|
    }

    /** Mounting the page shows the first hero slide. */
    constructor ()
      ensures slides == HeroImages
      ensures currentIndex == 0
      ensures Valid()
    {
      slides := HeroImages;
      currentIndex := 0;
    }

    /** Forward arrow, and the step the auto-advance timer invokes. */
    method NextSlide()
      requires Valid()
      modifies this
      ensures Valid()
      ensures currentIndex == Next(old(currentIndex), |slides|)
    {
      currentIndex := (currentIndex + 1) % |slides|;
    }

    /** Backward arrow. */
    method PrevSlide()
      requires Valid()
      modifies this
      ensures Valid()
      ensures currentIndex == Prev(old(currentIndex), |slides|)
    {
      currentIndex := if currentIndex == 0 then |slides| - 1 else currentIndex - 1;
    }

    /** Indicator dot `i`; the dots are drawn one per slide, so `i` names a
        slide. */
    method ClickDot(i: nat)
      requires Valid()
      requires i < |slides|
      modifies this
      ensures Valid()
      ensures currentIndex == i
    {
      currentIndex := i;
    }

    /** The opacity classes the slide layers are drawn with. */
    function Opacities(): (r: seq<string>)
      reads this
      requires Valid()
      ensures |r| == |slides|
      ensures CountOf(r, "opacity-100") == 1 && r[currentIndex] == "opacity-100"
      ensures forall k :: 0 <= k < |r| && k != currentIndex ==> r[k] == "opacity-0"
    {
      ExactlyOneActive(|slides|, currentIndex);
      SlideOpacities(|slides|, currentIndex)
    }

    /** The classes the indicator dots are drawn with. */
    function Dots(): (r: seq<string>)
      reads this
      requires Valid()
      ensures |r| == |slides|
      ensures CountOf(r, "w-8 bg-primary") == 1 && r[currentIndex] == "w-8 bg-primary"
      ensures forall k :: 0 <= k < |r| && k != currentIndex ==> r[k] == "w-2 bg-white/30"
    {
      ExactlyOneActive(|slides|, currentIndex);
      DotClasses(|slides|, currentIndex)
    }
  }

  /** A visitor session: three timer ticks on a fresh page come back to the
      first slide, and forward then back is a no-op. */
  method ThreeTicksSession()
  {
    var c := new HeroCarousel();
    c.NextSlide();
    assert c.currentIndex == 1;
    c.NextSlide();
    assert c.currentIndex == 2;
    c.NextSlide();
    assert c.currentIndex == 0;
    c.PrevSlide();
    assert c.currentIndex == 2;
    c.ClickDot(1);
    assert c.Opacities()[1] == "opacity-100";
  }
}
