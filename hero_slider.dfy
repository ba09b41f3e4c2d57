/**
 * The home-page hero slider: the slides shown are the active ones of the
 * home content, and `currentSlide` moves forwards and backwards modulo their
 * number or jumps to the slide of a clicked dot.
 */
module HeroSlider {
  import opened Seqs
  import opened SiteSchema
  import opened SiteDefaults
  import opened CivilDates

  // ------------------------------------------------------------------
  // the slides shown

  predicate IsActive(slide: HeroSlide) {
    slide.isActive
  }

  /** `heroSlider.filter(slide => slide.isActive)`. */
  function ActiveSlides(all: seq<HeroSlide>): (r: seq<HeroSlide>)
    ensures forall i :: 0 <= i < |r| ==> r[i].isActive && r[i] in all
    ensures forall i :: 0 <= i < |all| && all[i].isActive ==> all[i] in r
  {
    Filter(all, IsActive)
  }

  /** Each active slide is shown as often as it occurs, each inactive one never. */
  lemma ActiveSlidesCount(all: seq<HeroSlide>, slide: HeroSlide)
    ensures multiset(ActiveSlides(all))[slide] == if slide.isActive then multiset(all)[slide] else 0
  {
    FilterCount(all, IsActive, slide);
  }

  /** The filter keeps the order: the active slides of a prefix come before those of the rest. */
  lemma ActiveSlidesKeepOrder(front: seq<HeroSlide>, back: seq<HeroSlide>)
    ensures ActiveSlides(front + back) == ActiveSlides(front) + ActiveSlides(back)
  {
    FilterAppend(front, back, IsActive);
  }

  /** The slider renders nothing exactly when no slide is active. */
  lemma NothingRenderedWithoutActive(all: seq<HeroSlide>)
    ensures |ActiveSlides(all)| == 0 <==> forall i :: 0 <= i < |all| ==> !all[i].isActive
  {
    if |ActiveSlides(all)| > 0 {
      var first := ActiveSlides(all)[0];
      assert first in all && first.isActive;
    }
  }

  /** The five default slides are all active, so all of them are shown, in order. */
  lemma DefaultSlidesShown()
    ensures ActiveSlides(DefaultSiteContent.home.heroSlider) == DefaultSiteContent.home.heroSlider
    ensures |ActiveSlides(DefaultSiteContent.home.heroSlider)| == 5
  {
    FilterAll(DefaultSiteContent.home.heroSlider, IsActive);
  }

  // ------------------------------------------------------------------
  // index arithmetic

  /** `(prev + 1) % slides.length`: the next slide, wrapping from the last to the first. */
  function NextIndex(i: int, n: int): (r: int)
    requires 0 <= i < n
    ensures 0 <= r < n
    ensures r == if i == n - 1 then 0 else i + 1
  {
    (i + 1) % n
  }

  /** `(prev - 1 + slides.length) % slides.length`: the previous slide, wrapping from the first to the last. */
  function PrevIndex(i: int, n: int): (r: int)
    requires 0 <= i < n
    ensures 0 <= r < n
    ensures r == if i == 0 then n - 1 else i - 1
  {
    (i - 1 + n) % n
  }

  /** Going back after going forward, or forward after going back, returns to the same slide. */
  lemma PrevUndoesNext(i: int, n: int)
    requires 0 <= i < n
    ensures PrevIndex(NextIndex(i, n), n) == i
    ensures NextIndex(PrevIndex(i, n), n) == i
  {
  }

  /** The slide reached after `k` successive `nextSlide` calls. */
  function Advance(i: int, n: int, k: nat): (r: int)
    requires 0 <= i < n
    ensures 0 <= r < n
  {
    if k == 0 then i else NextIndex(Advance(i, n, k - 1), n)
  }

  /** `k` steps forward land on `(i + k) % n`. */
  lemma {:induction false} AdvanceIsModular(i: int, n: int, k: nat)
    requires 0 <= i < n
    ensures Advance(i, n, k) == (i + k) % n
  {
    if k == 0 {
      LemmaModUnique(i, n, 0, i);
    } else {
      AdvanceIsModular(i, n, k - 1);
      ModSuccessor(i + k - 1, n);
    }
  }

  /** The remainder of a successor is the successor of the remainder, wrapping at `n`. */
  lemma ModSuccessor(a: nat, n: nat)
    requires n > 0
    ensures (a + 1) % n == if a % n == n - 1 then 0 else a % n + 1
  {
    var q, rem := a / n, a % n;
    assert a == q * n + rem;
    if rem == n - 1 {
      assert a + 1 == (q + 1) * n + 0;
      LemmaModUnique(a + 1, n, q + 1, 0);
    } else {
      LemmaModUnique(a + 1, n, q, rem + 1);
    }
  }

  /** `n` successive `nextSlide` calls come back to the starting slide. */
  lemma FullCycle(i: int, n: int)
    requires 0 <= i < n
    ensures Advance(i, n, n) == i
    ensures forall k :: 0 < k < n ==> Advance(i, n, k) != i
  {
    AdvanceIsModular(i, n, n);
    LemmaModUnique(i + n, n, 1, i);
    forall k | 0 < k < n
      ensures Advance(i, n, k) != i
    {
      AdvanceIsModular(i, n, k);
      if i + k < n {
        LemmaModUnique(i + k, n, 0, i + k);
      } else {
        LemmaModUnique(i + k, n, 1, i + k - n);
      }
    }
  }

  /**
   * The `opacity-100` class of each slide: only the slide at `currentSlide`
   * is visible, every other one is transparent. The dot of that slide is the
   * only one drawn solid.
   */
  function Opacities(n: nat, current: int): (r: seq<bool>)
    ensures |r| == n
    ensures 0 <= current < n ==> r[current]
    ensures forall i :: 0 <= i < n && i != current ==> !r[i]
  {
    seq(n, i => i == current)
  }

  // ------------------------------------------------------------------
  // the component

  class Slider {
    /** The active slides of the home content. */
    const slides: seq<HeroSlide>
    var currentSlide: int

    ghost predicate Valid()
      reads this
    {
      0 <= currentSlide && (|slides| > 0 ==> currentSlide < |slides|)
    }

    /** The first slide is shown first. */
    constructor (home: HomeSection)
      ensures slides == ActiveSlides(home.heroSlider) && currentSlide == 0 && Valid()
    {
      slides := ActiveSlides(home.heroSlider);
      currentSlide := 0;
    }

    /** Whether the component renders at all. */
    predicate Renders()
      reads this
    {
      |slides| > 0
    }

    /** `nextSlide`, from the arrow or the auto-advance. */
    method Next()
      requires Valid() && |slides| > 0
      modifies this
      ensures Valid()
      ensures currentSlide == NextIndex(old(currentSlide), |slides|)
    {
      currentSlide := (currentSlide + 1) % |slides|;
    }

    /** `prevSlide`, from the left arrow. */
    method Prev()
      requires Valid() && |slides| > 0
      modifies this
      ensures Valid()
      ensures currentSlide == PrevIndex(old(currentSlide), |slides|)
    {
      currentSlide := (currentSlide - 1 + |slides|) % |slides|;
    }

    /** A click on dot `k`: there is one dot per shown slide. */
    method GoTo(k: int)
      requires Valid() && 0 <= k < |slides|
      modifies this
      ensures Valid() && currentSlide == k
    {
      currentSlide := k;
    }
  }
}
