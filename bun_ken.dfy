/**
 * The Bún Kèn image carousel: `currentSlide` starts at 0 and the two arrow
 * buttons replace it by `(prev + 1) % slides.length` and
 * `(prev - 1 + slides.length) % slides.length`.
 */
module BunKen {

  /** The carousel shows two slides. */
  const SlideCount := 2
  const InitialSlide := 0

  /**
   * JavaScript's `%`: the remainder truncates toward zero, so it takes the
   * sign of the dividend (unlike Dafny's Euclidean `%`).
   */
  function JsRem(a: int, n: int): (r: int)
    requires n > 0
    ensures a >= 0 ==> r == a % n
    ensures -n < r < n
    ensures a < 0 ==> r <= 0
  {
    if a >= 0 then a % n else -((-a) % n)
  }

  /** The updater of the "next" arrow. */
  function NextSlide(prev: int, n: int): (r: int)
    requires n > 0
    ensures 0 <= prev < n ==> 0 <= r < n
    ensures 0 <= prev < n - 1 ==> r == prev + 1
    ensures prev == n - 1 ==> r == 0
  {
    JsRem(prev + 1, n)
  }

  /** The updater of the "previous" arrow. */
  function PrevSlide(prev: int, n: int): (r: int)
    requires n > 0
    ensures 0 <= prev < n ==> 0 <= r < n
    ensures 0 < prev < n ==> r == prev - 1
    ensures prev == 0 ==> r == n - 1
  {
    JsRem(prev - 1 + n, n)
  }

  /** `prev` undoes `next` on every in-range slide. */
  lemma PrevUndoesNext(i: int, n: int)
    requires 0 <= i < n
    ensures PrevSlide(NextSlide(i, n), n) == i
  {
    if i < n - 1 {
      assert NextSlide(i, n) == i + 1;
    } else {
      assert NextSlide(i, n) == 0;
    }
  }

  /** `next` undoes `prev` on every in-range slide. */
  lemma NextUndoesPrev(i: int, n: int)
    requires 0 <= i < n
    ensures NextSlide(PrevSlide(i, n), n) == i
  {
    if i > 0 {
      assert PrevSlide(i, n) == i - 1;
    } else {
      assert PrevSlide(i, n) == n - 1;
    }
  }

  /** The slide shown after pressing "next" `k` times from `i`. */
  function NextTimes(i: int, n: int, k: nat): int
    requires n > 0
  {
    if k == 0 then i else NextSlide(NextTimes(i, n, k - 1), n)
  }

  /** Pressing "next" `k` times advances by `k` modulo the slide count. */
  lemma {:induction false} NextTimesAdvances(i: int, n: int, k: nat)
    requires 0 <= i < n
    ensures NextTimes(i, n, k) == (i + k) % n
  {
    if k > 0 {
      NextTimesAdvances(i, n, k - 1);
      var p := (i + k - 1) % n;
      assert 0 <= p < n;
      ModSucc(i + k - 1, n);
    }
  }

  /** The remainder is the unique `r` in [0, n) with `a == q * n + r`. */
  lemma ModUnique(a: int, n: int, q: int, r: int)
    requires n > 0 && 0 <= r < n && a == q * n + r
    ensures a % n == r
  {
    var d := a / n - q;
    assert d * n == r - a % n;
    MulBound(d, n);
  }

  /** A non-zero multiple of a positive `n` is at least `n` away from zero. */
  lemma MulBound(d: int, n: int)
    requires n > 0
    ensures d > 0 ==> d * n >= n
    ensures d < 0 ==> d * n <= -n
  {
    if d > 0 {
      MulAtLeast(d, n);
    } else if d < 0 {
      MulAtLeast(-d, n);
      assert d * n == -((-d) * n);
    }
  }

  /** A positive multiple of a positive `n` is at least `n`. */
  lemma {:induction false} MulAtLeast(d: nat, n: int)
    requires n > 0 && d > 0
    ensures d * n >= n
    decreases d
  {
    if d > 1 {
      MulAtLeast(d - 1, n);
      assert d * n == (d - 1) * n + n;
    }
  }

  /** ((a % n) + 1) % n == (a + 1) % n for a non-negative `a`. */
  lemma ModSucc(a: nat, n: int)
    requires n > 0
    ensures (a % n + 1) % n == (a + 1) % n
  {
    var q, r := a / n, a % n;
    if r + 1 < n {
      ModUnique(a + 1, n, q, r + 1);
      ModUnique(r + 1, n, 0, r + 1);
    } else {
      ModUnique(a + 1, n, q + 1, 0);
      ModUnique(r + 1, n, 1, 0);
    }
  }

  /** Pressing "next" once per slide comes back to the starting slide. */
  lemma NextFullCycle(i: int, n: int)
    requires 0 <= i < n
    ensures NextTimes(i, n, n) == i
  {
    NextTimesAdvances(i, n, n);
    ModUnique(i + n, n, 1, i);
  }

  /** From the first slide, "previous" shows the last one and two presses of "next" come back. */
  lemma CarouselWraps()
    ensures PrevSlide(InitialSlide, SlideCount) == SlideCount - 1
    ensures NextTimes(InitialSlide, SlideCount, SlideCount) == InitialSlide
  {
    NextFullCycle(InitialSlide, SlideCount);
  }

  /** Slide `index` is drawn opaque exactly when it is the current one. */
  predicate SlideVisible(index: int, current: int)
  {
    index == current
  }

  /** Exactly one slide is visible whenever `currentSlide` is in range. */
  lemma ExactlyOneSlideVisible(current: int, n: int)
    requires 0 <= current < n
    ensures (set i | 0 <= i < n && SlideVisible(i, current)) == {current}
  {
  }
}
