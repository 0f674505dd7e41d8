/** The arithmetic of the reading-progress widget: the scroll fraction that
    `onScroll` stores and the rounded percent that the widget renders.
    Lengths are exact reals; the rounding error of IEEE doubles is not modelled. */
module ScrollMath {

  /** The three viewport metrics `onScroll` reads: the document's
      `scrollHeight`, the window's `innerHeight` and its `scrollY`. */
  datatype Metrics = Metrics(scrollHeight: real, innerHeight: real, scrollY: real)

  /** How far the page can be scrolled: `scrollHeight - innerHeight`. */
  function MaxScroll(m: Metrics): real
  {
    m.scrollHeight - m.innerHeight
  }

  /** JavaScript's `Math.max` and `Math.min` on two (non-NaN) numbers. */
  function Max(a: real, b: real): (r: real)
    ensures r >= a && r >= b && (r == a || r == b)
  {
    if a >= b then a else b
  }

  function Min(a: real, b: real): (r: real)
    ensures r <= a && r <= b && (r == a || r == b)
  {
    if a <= b then a else b
  }

  /** The value `onScroll` hands to `setProgress`: the scroll offset divided by
      the scroll range, 0 when there is no range to scroll, clamped to [0, 1]. */
  function Fraction(m: Metrics): (r: real)
    ensures 0.0 <= r <= 1.0
  {
    var max := MaxScroll(m);
    var value := if max > 0.0 then m.scrollY / max else 0.0;
    Min(1.0, Max(0.0, value))
  }

  /** A page no taller than the window yields 0 whatever the scroll offset,
      and the division is never reached. */
  lemma NoScrollRangeGivesZero(m: Metrics)
    requires MaxScroll(m) <= 0.0
    ensures Fraction(m) == 0.0
  {
  }

  /** Inside the scroll range the fraction is exactly offset / range: the
      clamp changes nothing there. */
  lemma FractionInsideRange(m: Metrics)
    requires MaxScroll(m) > 0.0
    requires 0.0 <= m.scrollY <= MaxScroll(m)
    ensures Fraction(m) == m.scrollY / MaxScroll(m)
  {
  }

  /** Overscroll past the bottom reads as 1, at or above the top as 0. */
  lemma FractionClamped(m: Metrics)
    requires MaxScroll(m) > 0.0
    ensures m.scrollY >= MaxScroll(m) ==> Fraction(m) == 1.0
    ensures m.scrollY <= 0.0 ==> Fraction(m) == 0.0
  {
  }

  /** The fraction is 1 exactly when the page can scroll and the offset has
      reached the bottom, and 0 exactly when it cannot scroll or the offset is
      at or above the top. */
  lemma FractionEndpoints(m: Metrics)
    ensures Fraction(m) == 1.0 <==> MaxScroll(m) > 0.0 && m.scrollY >= MaxScroll(m)
    ensures Fraction(m) == 0.0 <==> MaxScroll(m) <= 0.0 || m.scrollY <= 0.0
  {
    var max := MaxScroll(m);
    if max > 0.0 {
      if m.scrollY >= max {
        QuotientCompare(m.scrollY, max, max);
      } else if m.scrollY <= 0.0 {
        QuotientCompare(m.scrollY, 0.0, max);
      } else {
        QuotientCompare(0.0, m.scrollY, max);
        QuotientCompare(m.scrollY, max, max);
      }
    }
  }

  /** With the page extents fixed, scrolling further down never lowers the fraction. */
  lemma FractionMonotone(m: Metrics, scrollY': real)
    requires m.scrollY <= scrollY'
    ensures Fraction(m) <= Fraction(m.(scrollY := scrollY'))
  {
    var max := MaxScroll(m);
    if max > 0.0 {
      QuotientCompare(m.scrollY, scrollY', max);
    }
  }

  /** Dividing by a positive number keeps order, strict and non-strict. */
  lemma QuotientCompare(x: real, y: real, d: real)
    requires d > 0.0
    ensures x <= y <==> x / d <= y / d
    ensures x < y <==> x / d < y / d
    ensures d / d == 1.0 && 0.0 / d == 0.0
  {
  }

  /** JavaScript's `Math.round`: the nearest integer, halves rounded up
      (towards positive infinity), which is `floor(x + 0.5)`. */
  function Round(x: real): (n: int)
    ensures x - 0.5 < n as real <= x + 0.5
  {
    (x + 0.5).Floor
  }

  /** The defining inequality picks out exactly one integer, so `Round` is
      the only rounding that sends halves upwards. */
  lemma RoundUnique(x: real, k: int)
    requires x - 0.5 < k as real <= x + 0.5
    ensures k == Round(x)
  {
  }

  /** Rounding preserves order. */
  lemma RoundMonotone(x: real, y: real)
    requires x <= y
    ensures Round(x) <= Round(y)
  {
  }

  /** The integer the widget displays: `Math.round(progress * 100)`. */
  function Percent(progress: real): (p: int)
    ensures progress * 100.0 - 0.5 < p as real <= progress * 100.0 + 0.5
  {
    Round(progress * 100.0)
  }

  /** A fraction in [0, 1] gives a percent in [0, 100]. */
  lemma PercentBounds(progress: real)
    requires 0.0 <= progress <= 1.0
    ensures 0 <= Percent(progress) <= 100
  {
  }

  lemma PercentMonotone(p: real, q: real)
    requires p <= q
    ensures Percent(p) <= Percent(q)
  {
  }

  /** Of the fractions in [0, 1], the bar reads 100 exactly from 0.995 on and
      0 exactly below 0.005. */
  lemma PercentEndpoints(progress: real)
    requires 0.0 <= progress <= 1.0
    ensures Percent(progress) == 100 <==> progress >= 0.995
    ensures Percent(progress) == 0 <==> progress < 0.005
  {
  }

  /** The percent of a fraction taken from metrics lies in [0, 100]. */
  lemma PercentOfMetricsBounds(m: Metrics)
    ensures 0 <= Percent(Fraction(m)) <= 100
  {
  }

  /** The worked examples on a 2000-high page in a 1000-high window, and on
      a page shorter than its window. */
  lemma ScrolledToTop()
    ensures Fraction(Metrics(2000.0, 1000.0, 0.0)) == 0.0
    ensures Percent(Fraction(Metrics(2000.0, 1000.0, 0.0))) == 0
  {
  }

  lemma ScrolledHalfway()
    ensures Fraction(Metrics(2000.0, 1000.0, 500.0)) == 0.5
    ensures Percent(Fraction(Metrics(2000.0, 1000.0, 500.0))) == 50
  {
  }

  lemma ScrolledToBottom()
    ensures Fraction(Metrics(2000.0, 1000.0, 1000.0)) == 1.0
    ensures Percent(Fraction(Metrics(2000.0, 1000.0, 1000.0))) == 100
  {
  }

  lemma ShortPage(scrollY: real)
    ensures Fraction(Metrics(800.0, 1000.0, scrollY)) == 0.0
  {
  }
}
