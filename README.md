# Reading-progress widget

This project models the reading-progress widget of a single-page portfolio site
(`app/components/ReadingProgress.tsx`). The widget's scroll handler reads three
viewport metrics: the document's `scrollHeight`, the window's `innerHeight` and
its `scrollY`. From these it computes a scroll fraction, clamps the fraction to
[0, 1] and stores it as `progress`. The widget renders `Math.round(progress * 100)`
as an accessible `progressbar`, and as the CSS height of a fill element.

The model is in three modules:

- `ScrollMath` (`scroll_math.dfy`) holds the pure arithmetic. `Fraction` is the
  handler's computation on a `Metrics` value. `Max` and `Min` are JavaScript's
  `Math.max` and `Math.min`. `Round` is `Math.round`, and `Percent` is the
  rendered percent. The lemmas give the division guard, the exact value inside
  the scroll range, the clamping, monotonicity, the bounds of the percent and the
  worked examples.
- `Decimal` (`decimal.dfy`) covers how a percent becomes text in the markup: the
  decimal string that `aria-valuenow` and the `${percent}%` height carry. It also
  has a parser, and a proof that parsing the rendered string gives back the number.
- `ReadingProgressWidget` (`widget.dfy`) holds the stateful part. The class
  `ReadingProgress` has the `progress` state and a count of the scroll listeners
  it holds on the window. Its methods are the initial state, the mount effect
  (run the handler eagerly, then register the listener), the window delivering a
  scroll event, and the cleanup. `Render` returns the attribute record.

Numbers are exact reals. The viewport metrics are passed in as values at each
call, so the model never queries `window` or `document`.

Two facts about the component shape the model:

- The handler always reads `document.documentElement.scrollHeight`,
  `window.innerHeight` and `window.scrollY` (`ReadingProgress.tsx:10-11`). Its only
  guard is `max > 0`, and it has no path for missing metrics.
- There is a single widget. It exposes the label together with the numeric
  attributes `aria-valuemin`, `aria-valuemax` and `aria-valuenow`
  (`ReadingProgress.tsx:25-29`).

## Model

| member | source | states |
|---|---|---|
| `ScrollMath.Fraction` | app/components/ReadingProgress.tsx:9-13 | the value passed to `setProgress` lies in [0, 1] for every choice of scroll height, window height and scroll offset, including negative offsets and overscroll |
| `ScrollMath.Max` | app/components/ReadingProgress.tsx:12 | `Math.max` gives one of its two arguments, and that argument is at least as large as both |
| `ScrollMath.Min` | app/components/ReadingProgress.tsx:12 | `Math.min` gives one of its two arguments, and that argument is at most as large as both |
| `ScrollMath.NoScrollRangeGivesZero` | app/components/ReadingProgress.tsx:10-11 | when `scrollHeight - innerHeight <= 0` the progress is 0 whatever `scrollY` is, and the division is never reached |
| `ScrollMath.FractionInsideRange` | app/components/ReadingProgress.tsx:11-12 | when the range `max` is positive and `0 <= scrollY <= max`, the progress is exactly `scrollY / max`, so the clamp changes nothing |
| `ScrollMath.FractionClamped` | app/components/ReadingProgress.tsx:11-12 | when `max` is positive, an offset at or past the bottom gives 1 and an offset at or above the top gives 0 |
| `ScrollMath.FractionEndpoints` | app/components/ReadingProgress.tsx:10-12 | the progress is 1 if and only if the page can scroll and `scrollY >= max`; it is 0 if and only if the page cannot scroll or `scrollY <= 0` |
| `ScrollMath.FractionMonotone` | app/components/ReadingProgress.tsx:10-12 | with both heights fixed, a larger `scrollY` never gives a smaller progress |
| `ScrollMath.Round` | app/components/ReadingProgress.tsx:20 | `Math.round(x)` is an integer within half a unit of `x`, and halves round upwards: `x - 0.5 < n <= x + 0.5` |
| `ScrollMath.RoundUnique` | app/components/ReadingProgress.tsx:20 | exactly one integer satisfies that inequality, so `Round` is the only rounding that sends halves upwards |
| `ScrollMath.RoundMonotone` | app/components/ReadingProgress.tsx:20 | rounding preserves order |
| `ScrollMath.Percent` | app/components/ReadingProgress.tsx:20 | `percent` is the integer nearest to `progress * 100`, with halves rounded up |
| `ScrollMath.PercentBounds` | app/components/ReadingProgress.tsx:20 | a progress value in [0, 1] gives a percent in [0, 100] |
| `ScrollMath.PercentMonotone` | app/components/ReadingProgress.tsx:20 | a larger progress never renders a smaller percent |
| `ScrollMath.PercentEndpoints` | app/components/ReadingProgress.tsx:20 | for a progress in [0, 1], the percent is 100 if and only if the progress is at least 0.995, and 0 if and only if it is below 0.005 |
| `ScrollMath.PercentOfMetricsBounds` | app/components/ReadingProgress.tsx:10-20 | the percent of any computed progress lies in [0, 100] |
| `ScrollMath.ScrolledToTop` | app/components/ReadingProgress.tsx:10-20 | scrollY 0 on a 2000-high page in a 1000-high window gives progress 0 and percent 0 |
| `ScrollMath.ScrolledHalfway` | app/components/ReadingProgress.tsx:10-20 | scrollY 500 on the same page gives progress 0.5 and percent 50 |
| `ScrollMath.ScrolledToBottom` | app/components/ReadingProgress.tsx:10-20 | scrollY 1000 on the same page gives progress 1 and percent 100 |
| `ScrollMath.ShortPage` | app/components/ReadingProgress.tsx:10-12 | an 800-high page in a 1000-high window gives progress 0 for every scroll offset |
| `Decimal.DecimalString` | app/components/ReadingProgress.tsx:29-31 | the rendered number is a non-empty string of decimal digits, with no leading zero unless the number is 0 |
| `Decimal.ParseDecimalString` | app/components/ReadingProgress.tsx:29-31 | reading the rendered digits back gives the number that was rendered |
| `Decimal.DecimalStringInjective` | app/components/ReadingProgress.tsx:29-31 | two different percents never render as the same string |
| `Decimal.DecimalExamples` | app/components/ReadingProgress.tsx:29-31 | 0, 50 and 100 render as "0", "50" and "100" |
| `ReadingProgressWidget.ReadingProgress.constructor` | app/components/ReadingProgress.tsx:6 | the widget starts with `progress` 0 and no scroll listener registered |
| `ReadingProgressWidget.ReadingProgress.HandleScroll` | app/components/ReadingProgress.tsx:9-13 | the handler replaces `progress` with the fraction of the current metrics and leaves the listener count alone |
| `ReadingProgressWidget.ReadingProgress.Mount` | app/components/ReadingProgress.tsx:15-16 | mounting stores the fraction of the metrics at mount before any scroll event arrives, and leaves exactly one listener registered |
| `ReadingProgressWidget.ReadingProgress.DispatchScroll` | app/components/ReadingProgress.tsx:12-16 | while the listener is registered, a scroll event replaces `progress` with the recomputed fraction; with no listener, the event leaves `progress` unchanged |
| `ReadingProgressWidget.ReadingProgress.Unmount` | app/components/ReadingProgress.tsx:17 | after cleanup no listener of the widget remains, and `progress` is untouched |
| `ReadingProgressWidget.ReadingProgress.PercentNow` | app/components/ReadingProgress.tsx:20 | the percent of the stored progress is an integer in [0, 100] within half a unit of `progress * 100` |
| `ReadingProgressWidget.ReadingProgress.Render` | app/components/ReadingProgress.tsx:22-33 | the indicator has role `progressbar`, label "Reading progress", valuemin 0, valuemax 100 and valuenow equal to the percent, which lies between them; the fill height is exactly `DecimalString(valuenow) + "%"`, the string the template literal produces (so 50 gives "50%", never "050%"), and reading its digits gives back valuenow |
| `ReadingProgressWidget.MountScrollUnmount` | app/components/ReadingProgress.tsx:6-20 | on a 2000/1000 page: mounted at the top the bar reads 0; a scroll to 500 makes it 50; after unmount no listener remains and a later scroll no longer changes it |
| `ReadingProgressWidget.MountedHalfway` | app/components/ReadingProgress.tsx:15-31 | mounting on a page already scrolled to 500 renders valuenow 50, valuemin 0, valuemax 100, the label "Reading progress" and a fill of "50%" |

## Left out

- IEEE-754 doubles are not modelled. The model has no NaN propagation through `Math.min`/`Math.max`, no rounding error in the division, and none of the precision edge cases of `Math.round`. It works on exact reals.
- React is not modelled: no `useState`/`useEffect` scheduling, no re-render timing, no batching of `setProgress`. A render is modelled as a call of `Render` on the current state.
- The DOM is not modelled. The model never queries `window` or `document`; the metrics are a `Metrics` parameter. The window's listener list is a count of this widget's listeners.
- The `{ passive: true }` listener option, the CSS class names and all styling are left out. None of them affects the computed values.
- ReadingProgressWidget.ReadingProgress.Mount: requires that no listener of the widget is registered. React runs an effect with no dependencies once per mount, and runs its cleanup before any second run. A double registration is therefore outside the model.
- Decimal.DecimalString: only covers non-negative integers. The widget only renders percents in [0, 100]. Negative numbers, fractions and exponent notation of JavaScript's number-to-string conversion are not modelled.
- app/page.tsx, app/components/TableOfContents.tsx and tests/home.test.tsx are not part of this model. They are static markup and a DOM-role test, with no logic to state.
