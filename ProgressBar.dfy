/** The progress bar's width: the progress percentage clamped into [0, 100]. */
module ProgressBar {

  /** `Math.max(0, Math.min(100, progress))`, the bar's width in percent. */
  function Width(progress: int): (w: int)
    ensures 0 <= w <= 100
    ensures 0 <= progress <= 100 ==> w == progress
    ensures progress < 0 ==> w == 0
    ensures progress > 100 ==> w == 100
  {
    Max(0, Min(100, progress))
  }

  function Min(a: int, b: int): int { if a <= b then a else b }
  function Max(a: int, b: int): int { if a >= b then a else b }

  /** Clamping a width that is already clamped leaves it as it is. */
  lemma WidthIdempotent(progress: int)
    ensures Width(Width(progress)) == Width(progress)
  {
  }

  /** A larger progress never draws a shorter bar. */
  lemma WidthMonotone(p: int, q: int)
    requires p <= q
    ensures Width(p) <= Width(q)
  {
  }
}
