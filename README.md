# Pie-chart surface with explore-by-touch accessibility

A Dafny model of the arithmetic core of `MySurface`, an Android `SurfaceView`
that draws a pie chart and exposes each sector to a screen reader as a
virtual view through an `ExploreByTouchHelper`.

The chart is defined by a sequence of cumulative angle thresholds
(`46, 60, …, 360` degrees) and a six-colour palette. The model covers four parts:

- **Hit test.** `getVirtualViewAt` turns a touch position into a sector id. It checks
  the point against the pie's integer bounds, normalises the touch angle into `[0, 360)`,
  then scans the thresholds for the first one strictly greater than the angle.
- **Accessibility callbacks.** The model covers the sector enumeration, the click-only
  action handler, and the node population. For the node it models the actions, the
  bounds, and a content description made of the sector id and its angular span.
- **Resize.** On a size change the pie bounds are recomputed.
- **Drawing.** The drawing pass emits one arc per sector from a running `oldAng`.

Modules:

- `Thresholds` (`thresholds.dfy`): the thresholds, their validity predicate, the
  scan `FirstAbove`/`SectorOf`, the span of a sector, and the partition and telescoping lemmas.
- `Decimal` (`decimal.dfy`): Kotlin's `Int` to `String` conversion, which the content
  description uses, and its parse-back round trip.
- `Geometry` (`geometry.dfy`): `Rect`/`RectF`, `Rect.contains`, `Float.toInt`,
  the per-edge rounding of `RectF.round` (Android's `FastMath.round`), the pie bounds
  computed from the view size, and the angle normalisation.
- `Surface` (`surface.dfy`): the class `PieSurface`. It holds the thresholds, the
  palette, `rect` and `rectf`. Its methods are the helper's callbacks, `onSizeChanged`
  and `drawThePie`. The module also holds the arc layout `PieArcs` and its lemmas.

Inputs the model takes as parameters:

- The touch angle `180 / π · atan2(y − yc, x − xc)`, as `degrees`.
- Whether the surface is valid when drawing.
- The two localised label strings of the content description.

Floating-point values (`Float`, `Double`) in the hit test and the resize are modelled as
exact reals. In the drawing pass, `oldAng` and each arc's start and sweep are kept as
integers; this is exact, because every threshold is an integer no larger than 360 and
such values convert to `Float` without loss.

## Model

| member | source | states |
|---|---|---|
| `Thresholds.FirstAbove` | app/src/main/java/com/example/a11yeventapp/MySurface.kt:49-51 | The scan returns INVALID_ID or an index `r` such that `angle < angles[r]` and every earlier threshold is `<= angle`. When it returns INVALID_ID, no threshold exceeds the angle. |
| `Thresholds.SectorPartition` | app/src/main/java/com/example/a11yeventapp/MySurface.kt:49-54 | For valid thresholds (strictly increasing, first above 0, last 360), every angle in `[0, 360)` maps to a sector `i` with `prev(i) <= angle < angles[i]`, and that sector is the only one whose range holds the angle. |
| `Thresholds.PastLastIsInvalid` | app/src/main/java/com/example/a11yeventapp/MySurface.kt:49-54 | For valid thresholds, an angle `>= 360` finds no sector: the result is INVALID_ID. |
| `Thresholds.OnThresholdGoesToNext` | app/src/main/java/com/example/a11yeventapp/MySurface.kt:50 | The comparison is strict, so an angle exactly on threshold `k` goes to sector `k + 1`. On the last threshold it goes to no sector (INVALID_ID). |
| `Thresholds.Span` | app/src/main/java/com/example/a11yeventapp/MySurface.kt:85 | The span of sector `id` (`angles[id]` minus the previous threshold, or minus 0 for id 0) is positive for strictly increasing thresholds that start above 0. |
| `Thresholds.SpansTelescope` | app/src/main/java/com/example/a11yeventapp/MySurface.kt:85 | The spans of the first `n` sectors sum to the threshold where sector `n − 1` ends. |
| `Thresholds.SpansCoverCircle` | app/src/main/java/com/example/a11yeventapp/MySurface.kt:85 | For valid thresholds, all spans are positive and together sum to 360. |
| `Thresholds.SourceAnglesValid` | app/src/main/java/com/example/a11yeventapp/MySurface.kt:107 | The view's twelve thresholds are strictly increasing, start above 0 and end at 360. |
| `Thresholds.SourceAnglesSamples` | app/src/main/java/com/example/a11yeventapp/MySurface.kt:107 | With the view's thresholds: 0° → sector 0, 46° → 1, 50° → 1, 359.999° → 11, 360° → INVALID_ID. The span of sector 2 is 21. |
| `Decimal.Digits` | app/src/main/java/com/example/a11yeventapp/MySurface.kt:85 | The digits of a natural number form a non-empty string of decimal digits with no leading zero. |
| `Decimal.IntToString` | app/src/main/java/com/example/a11yeventapp/MySurface.kt:85 | The decimal text of an `Int` is in canonical form: digits with no leading zero, with a `-` in front exactly when the number is negative (never `-0`). |
| `Decimal.DigitsRoundTrip` | app/src/main/java/com/example/a11yeventapp/MySurface.kt:85 | Parsing the digits of `n` gives back `n`. |
| `Decimal.IntToStringRoundTrip` | app/src/main/java/com/example/a11yeventapp/MySurface.kt:85 | Parsing the decimal text of any `Int` gives back the number, so the number appended to the description is recoverable. |
| `Geometry.TruncateToInt` | app/src/main/java/com/example/a11yeventapp/MySurface.kt:43 | `Float.toInt` truncates toward zero. The result never has the opposite sign of `x` and is less than 1 away from it, on the side nearer zero. |
| `Geometry.EmptyRectHitsNothing` | app/src/main/java/com/example/a11yeventapp/MySurface.kt:43 | `Rect.contains` accepts no point of an empty rectangle, such as the zero `rect` a view has before its first resize. |
| `Geometry.HitRegionInsideView` | app/src/main/java/com/example/a11yeventapp/MySurface.kt:43 | For a view of non-negative size, every point the rounded pie bounds contain lies inside the view. |
| `Geometry.RoundHalfUp` | app/src/main/java/com/example/a11yeventapp/MySurface.kt:169 | The edge rounding of `RectF.round` gives the integer `n` with `n − 0.5 <= x < n + 0.5`. |
| `Geometry.RoundMonotone` | app/src/main/java/com/example/a11yeventapp/MySurface.kt:169 | Rounding preserves order. |
| `Geometry.PieBoundsInsideView` | app/src/main/java/com/example/a11yeventapp/MySurface.kt:160-170 | For a view of non-negative size, the rounded pie bounds are not inverted and lie within `[0, w] × [0, h]`. |
| `Geometry.NormaliseDegrees` | app/src/main/java/com/example/a11yeventapp/MySurface.kt:44-47 | A negative angle has 360 added and any other angle is unchanged. An angle in `[-360, …)` becomes non-negative. An `atan2` angle in `[-180, 180]` lands in `[0, 360)`. |
| `Surface.PieSurface.GetVirtualViewAt` | app/src/main/java/com/example/a11yeventapp/MySurface.kt:39-55 | A point outside `rect` (after truncating `x`, `y`) yields INVALID_ID. A point inside yields the scan result for the normalised angle. The result is INVALID_ID or a valid sector id. For an inside point with an `atan2` angle, the result is the sector whose range holds the normalised angle. |
| `Surface.PieSurface.GetVisibleVirtualViews` | app/src/main/java/com/example/a11yeventapp/MySurface.kt:59-61 | When a list is given, it becomes its old contents followed by `0, 1, …, N − 1`: it grows by exactly `N`, its old prefix is unchanged, and the element at `old length + i` is `i`. Nothing happens when the list is null. |
| `Surface.PieSurface.PerformActionForVirtualView` | app/src/main/java/com/example/a11yeventapp/MySurface.kt:68-75 | The action is handled exactly when it is `ACTION_CLICK`, whatever the id. The method changes no state. |
| `Surface.PieSurface.PopulateNodeForVirtualView` | app/src/main/java/com/example/a11yeventapp/MySurface.kt:80-86 | The node gains the click and focus actions and keeps its other actions. Its bounds become the pie's `rect`. Its description is the label, the id, the second label and the sector's span. |
| `Surface.DescriptionEndsWithSpan` | app/src/main/java/com/example/a11yeventapp/MySurface.kt:85 | The part of a content description after the two labels and the id is a numeral that reads back as the sector's span. |
| `Surface.SampleDescription` | app/src/main/java/com/example/a11yeventapp/MySurface.kt:85 | With the view's thresholds, sector 2 is described as label + `2` + label + `21`. |
| `Surface.PieSurface.OnSizeChanged` | app/src/main/java/com/example/a11yeventapp/MySurface.kt:160-170 | `rectf` and `rect` are overwritten from the new `(w, h)` alone, so no earlier size has any effect. |
| `Surface.PieSurface.DrawThePie` | app/src/main/java/com/example/a11yeventapp/MySurface.kt:173-186 | On a valid surface the `oldAng` loop emits exactly `PieArcs`: one arc per sector, in order. On an invalid surface it draws nothing. |
| `Surface.PieArcs` | app/src/main/java/com/example/a11yeventapp/MySurface.kt:177-183 | A drawing pass has one arc per threshold. |
| `Surface.ArcsContiguous` | app/src/main/java/com/example/a11yeventapp/MySurface.kt:177-183 | The first arc starts at 0. Each arc starts where the previous one ends and ends at its own threshold. Each sweep equals the sector's span. |
| `Surface.ArcColoursCycle` | app/src/main/java/com/example/a11yeventapp/MySurface.kt:179 | Arc `i` is painted `colors[i % 6]`, so arcs six apart share a colour. |
| `Surface.ArcSweepsTotal` | app/src/main/java/com/example/a11yeventapp/MySurface.kt:180-182 | The sweeps of the first `n` arcs sum to where arc `n − 1` ends. Over all arcs that is the last threshold, which is where `oldAng` ends. |
| `Surface.PieSurface.constructor` | app/src/main/java/com/example/a11yeventapp/MySurface.kt:112-113 | A new view starts with zero `rect` and `rectf`; the thresholds and palette are the class's constants. By `Geometry.EmptyRectHitsNothing`, every hit test returns INVALID_ID until the first resize. |

## Left out

- The `atan2` call and the radians-to-degrees conversion are floating-point work. The resulting angle is an input (`degrees`), so `Rect.centerX`/`centerY` are not modelled either.
- Float rounding: `Float`/`Double` values in the hit test and the resize are exact reals. This covers the `.4f` factor, `w / 2f`, and the angle that a rounding error could push to exactly 360. `oldAng` and the arc angles are integers, which is exact for integer thresholds up to 360.
- `Float.toInt`'s saturation at the `Int` range and its NaN case are not modelled.
- `Geometry.RoundHalfUp`: Android's `RectF.round` uses a fixed-point rounding that is modelled as `floor(x + 0.5)`. The two agree up to float precision.
- 32-bit `Int` overflow in the span subtraction is not modelled. It cannot happen for thresholds in `[0, 360]`.
- Android plumbing is not modelled: surface-holder callbacks, `lockCanvas`/`unlockCanvasAndPost`, `Paint`, `drawArc` (modelled as a returned sequence of arcs), the accessibility-delegate registration, and the `dispatchHoverEvent`/`dispatchKeyEvent`/`onFocusChanged` forwarding.
- `Color.rgb` packing is not modelled. Colours are kept as their red/green/blue components.
- The localised strings `value_area` and `is_en` are parameters.
- Logging is not modelled.
- The helper and the view share the same `rect` and `angles` objects. The model instead has one owner of that state: the helper's callbacks are methods of `PieSurface`.
- `Surface.PieSurface.PopulateNodeForVirtualView` requires a valid sector id. In the source an out-of-range id throws `ArrayIndexOutOfBoundsException` at the array access.
- `Surface.PieSurface.PerformActionForVirtualView` returns true for a click on any id, as the code does. It does not reject invalid ids.
- The `arguments` bundle of `onPerformActionForVirtualView` is never read and is not modelled.
