# Circular gauge control, modelled in Dafny

This project models `CircleGaugeControl`, a Haiku `BControl` that draws a
meter: a dial arc, a lit value arc, major and minor tick marks with value
labels, a needle (a line or a triangle), a centre cap, the current value
with its unit, and a label.

The model has two parts.

- **The control's state.** `CircleGaugeControl.CircleGauge` is a class with
  the control's nineteen fields. It has the constructor, `_Init` (as
  `Init`), `SetValue`, `SetStyle`, `SetUnit`, the seven colour setters,
  `SetAngles`, `SetTicks` and `SetRadius`.
  - Every setter has a field-granular `modifies` frame.
  - Every setter states its whole new state through `State()`, the value of
    type `GaugeModel.GaugeState` that the fields hold.
- **The draw pass.**
  - `GaugeRender.Render` is the exact command sequence of one repaint. It
    is built section by section: track, value arc, ticks, needle, cap,
    texts.
  - `CircleGauge.Draw` issues the commands step by step with the same
    loops as the source, and is proved equal to `Render`.
  - Lemmas about `Render` state what a repaint contains: how many tick
    lines and labels it draws, where ticks and arcs lie, which needle it
    draws, and the fixed order of the drawing phases.

A drawing command (`GaugeTypes.Cmd`) is kept abstract.
- A point on the dial is `OnArc(center, angle, radius)`. This is what
  `GetPointOnArc` would compute, left uninterpreted, so no trigonometry
  enters the model.
- Text is `Number(value, decimals)`, `NumberWithUnit(...)` or
  `Plain(...)`, in place of the `sprintf` output.
- A text position is given relative to an anchor, since string widths
  and line heights are font metrics.
- `ui_color` lookups become a `Palette` parameter.

To classify the commands of a sequence, `GaugeRender.ShapeOf` reads each
command's geometry.
- A radial line of length 15 is a major tick line.
- A radial line of length 8 is a minor tick line.
- A string anchored on the arc is a tick label.
- A line from a plain point is the needle.

`Count` counts the commands of a given shape. `InPhaseOrder` says the
drawing phases never go backwards.

Arithmetic is over `real` and integers are unbounded. The model uses the
source's own constants:
- start angle 210, sweep 120;
- pens 8, 2 and 1;
- tick lengths 15 and 8;
- label inset 30 and drop 5;
- needle inset 20 and width ratio 0.1;
- cap radius `maxRadius / 8`;
- centre at `0.6` of the height;
- value text at `0.6 * maxRadius` below the centre.

The header calls `fMajorTicks` the number of major tick marks
(`CircleGaugeControl.h:96`), which would be 10 for the defaults, with 36
minor ticks between them. The model follows the code instead. The tick loop
(`CircleGaugeControl.cpp:144`) runs `i = 0 .. fMajorTicks` inclusive,
and it draws `fMinorTicksPerMajor` minor ticks after every major tick but
the last. So the defaults draw 11 major tick lines with 11 labels and 40
minor tick lines (`GaugeRender.DefaultGaugeDraws`).

In `SetValue`, the `value = fMinValue` in the above-maximum branch
(`CircleGaugeControl.cpp:323`) is a store to the parameter after the field
has been set. It has no effect, and the model leaves it out.

`Draw` has no `modifies` clause, so the verifier checks that a repaint
changes no field of the control.

## Model

| member | source | states |
|---|---|---|
| GaugeTypes.PointOnArc | CircleGaugeControl.cpp:429-435 | stands for `GetPointOnArc(angle, radius, center)`: the point kept symbolic as `OnArc(center, angle, radius)`, with no trigonometry |
| GaugeTypes.Min | CircleGaugeControl.cpp:115 | `MIN(a, b)` is a lower bound of both and equals one of them |
| GaugeModel.Clamp | CircleGaugeControl.cpp:317-326 | below the minimum gives the minimum; above the maximum (and not below the minimum) gives the maximum; inside the range gives the value; with `min <= max` the result always lies in the range |
| GaugeModel.ClampIsNearest | CircleGaugeControl.cpp:317-326 | the clamped value is the point of the range nearest to the requested value |
| GaugeModel.ClampIdempotent | CircleGaugeControl.cpp:317-326 | with `min <= max`, clamping an already clamped value changes nothing (on an inverted range it can move, see `InvertedRangeMovesValue`) |
| GaugeModel.GaugeState.WithValue | CircleGaugeControl.cpp:315-329 | the state after `SetValue`: only the current value changes; it lies in the range when the range is ordered; a value inside the range is stored as is |
| GaugeModel.WithValueIdempotent | CircleGaugeControl.cpp:315-329 | `SetValue(v)` twice equals `SetValue(v)` once, for every range, ordered or not |
| GaugeModel.WithCurrentValueUnchanged | CircleGaugeControl.cpp:315-329 | after a `SetValue` on a range with `min <= max`, storing the value the gauge then shows changes nothing; a value the constructor stored unclamped is not covered, since `SetValue` would clamp it |
| GaugeModel.InvertedRangeMovesValue | CircleGaugeControl.cpp:317-326 | with an inverted range (10 .. 0), `SetValue(5)` stores 10, and storing that 10 again stores 0: the clamp tests the minimum first |
| GaugeModel.GaugeState.ValueToAngle | CircleGaugeControl.cpp:438-443 | the minimum maps to the start angle, the maximum to `start - sweep` |
| GaugeModel.ValueToAngleAffine | CircleGaugeControl.cpp:438-443 | the value-to-angle map is affine: it maps `a + t(b - a)` to the same interpolation of the two angles |
| GaugeModel.ValueToAngleMidpoint | CircleGaugeControl.cpp:438-443 | the middle of the range maps to `start - sweep / 2` |
| GaugeModel.ValueToAngleDecreasing | CircleGaugeControl.cpp:438-443 | with `max > min` and a positive sweep, a larger value sits at a strictly smaller angle |
| GaugeModel.GaugeState.TickFraction | CircleGaugeControl.cpp:145 | the fraction `i / fMajorTicks` of major tick `i` lies in `[0, 1]` for `0 <= i <= fMajorTicks`; it is 0 exactly for tick 0 and 1 exactly for the last tick |
| GaugeModel.GaugeState.TickValue | CircleGaugeControl.cpp:146 | tick 0 is labelled with the minimum, tick `fMajorTicks` with the maximum |
| GaugeModel.GaugeState.TickAngle | CircleGaugeControl.cpp:147 | tick 0 sits at the start angle, tick `fMajorTicks` at `start - sweep` |
| GaugeModel.TickLabelMatchesAngle | CircleGaugeControl.cpp:145-147 | each tick's label value maps through `ValueToAngle` to that tick's angle |
| GaugeModel.TickAnglesDecreasing | CircleGaugeControl.cpp:145-147 | with a positive sweep, tick angles strictly decrease with the tick index |
| GaugeModel.GaugeState.MinorFraction | CircleGaugeControl.cpp:177 | minor tick `j` (for `1 <= j <= fMinorTicksPerMajor`) after major tick `i` lies strictly between the fractions of ticks `i` and `i + 1` |
| GaugeModel.MinorTickBetweenMajors | CircleGaugeControl.cpp:177-178 | with a positive sweep, every minor tick angle lies strictly between the angles of the major ticks around it |
| GaugeModel.GaugeState.MinorAngle | CircleGaugeControl.cpp:178 | the angle of minor tick `j` after major tick `i`: `start - MinorFraction(i, j) * sweep`; `MinorTickBetweenMajors` states where it lies |
| GaugeModel.MinorTicksEvenlySpaced | CircleGaugeControl.cpp:177 | minor ticks cut each gap into `fMinorTicksPerMajor + 1` equal steps |
| GaugeRender.LayoutFor | CircleGaugeControl.cpp:111-116 | the centre at half the width and 0.6 of the height, `maxRadius = MIN(cx, cy) * fOuterRadius`, and the inner radius `maxRadius * fInnerRadius`; `DialFitsBounds` states what it guarantees |
| GaugeRender.Render | CircleGaugeControl.cpp:107-248 | the command sequence of one repaint: the track, the optional value arc and the tick font (`Prologue`), the `fMajorTicks + 1` loop iterations (`TickRun`), then the needle, cap and texts (`Epilogue`); the `Render*` lemmas state its properties, and `Draw` is proved equal to it |
| GaugeRender.DialFitsBounds | CircleGaugeControl.cpp:111-116 | with an outer ratio in `(0, 1]`, the dial circle stays inside the view horizontally and below its top edge |
| GaugeRender.MinorTickRunShapes | CircleGaugeControl.cpp:176-184 | the first `k` passes of the inner loop (`k` at most `fMinorTicksPerMajor`) draw exactly `k` commands, none for `k <= 0`, and every one of them is a minor tick line |
| GaugeRender.MajorTickShapes | CircleGaugeControl.cpp:150-185 | one outer-loop iteration draws one major tick line and one label, plus the minor ticks of the following gap (none after the last major tick) |
| GaugeRender.TickRunShapes | CircleGaugeControl.cpp:144-186 | the first `k` iterations draw `k` major tick lines, `k` labels and the minor ticks of the gaps after them |
| GaugeRender.TickRunPhases | CircleGaugeControl.cpp:144-186 | the tick loop draws nothing but tick lines and labels, besides pen and colour changes |
| GaugeRender.MinorsBeforeTotal | CircleGaugeControl.cpp:173-185 | over the whole loop the minor ticks number `fMajorTicks` times the per-gap count |
| GaugeRender.PrologueShapes | CircleGaugeControl.cpp:119-142 | before the ticks a repaint draws the track, and a second arc exactly when `fCurrentValue > fMinValue` |
| GaugeRender.EpiloguePhases | CircleGaugeControl.cpp:188-247 | after the ticks come the needle, the cap fill, the cap outline, the value text and the label, in that order |
| GaugeRender.EpilogueNeedle | CircleGaugeControl.cpp:188-209 | after the ticks there is one needle line for `LINE_NEEDLE` and one needle polygon for `TRIANGLE_NEEDLE`, never both |
| GaugeRender.EpilogueContent | CircleGaugeControl.cpp:188-247 | the ten commands after the ticks hold the needle, the cap, the value text and the label as `EndingDrawn` describes |
| GaugeRender.RenderInPhaseOrder | CircleGaugeControl.cpp:107-248 | a repaint draws in fixed phase order: arcs, ticks and labels, needle, cap fill, cap outline, value text, label |
| GaugeRender.RenderTickCounts | CircleGaugeControl.cpp:144-186 | a repaint draws `fMajorTicks + 1` major tick lines and as many labels, and `fMajorTicks * fMinorTicksPerMajor` minor tick lines (0 for a negative count); for a negative `fMajorTicks` it draws no ticks |
| GaugeRender.RenderValueArc | CircleGaugeControl.cpp:119-136 | the fourth command is the full track `[start - sweep, start]`; a second arc is drawn exactly when `fCurrentValue > fMinValue`; it ends at the start angle, sweeps the value's share of the sweep, and sweeps all of it at the maximum |
| GaugeRender.RenderEnding | CircleGaugeControl.cpp:188-247 | the last ten commands of a repaint: the needle by style (line from the centre, or triangle with its tip on the needle circle), the cap of radius `maxRadius / 8` filled then outlined, the value text with one decimal (with the gauge's unit exactly when the unit is non-empty), and last the label |
| GaugeRender.RenderNeedleCount | CircleGaugeControl.cpp:188-209 | a repaint draws exactly one needle, in the configured style |
| GaugeRender.RenderNoMinorAfterLastMajor | CircleGaugeControl.cpp:173-185 | the last major tick line lies at `start - sweep`, and no tick line of any kind follows it |
| GaugeRender.DefaultGaugeDraws | CircleGaugeControl.cpp:144-185 | with the `_Init` defaults a repaint draws 11 major tick lines, 11 labels, 40 minor tick lines and one needle line |
| CircleGaugeControl.CircleGauge.constructor | CircleGaugeControl.cpp:10-24 | stores the range, the value (unclamped) and the two strings, then applies the `_Init` defaults |
| CircleGaugeControl.CircleGauge.Init | CircleGaugeControl.cpp:52-71 | sets every default: line needle, 210/120 degrees, 10 and 4 ticks, ratios 0.85 and 0.75, and the seven colours (three from the palette); it touches no other field |
| CircleGaugeControl.CircleGauge.SetValue | CircleGaugeControl.cpp:315-329 | the new state is the old one with the value clamped into the range; no other field changes |
| CircleGaugeControl.CircleGauge.SetStyle | CircleGaugeControl.cpp:331-339 | the style becomes the argument whatever it was before; nothing else changes |
| CircleGaugeControl.CircleGauge.SetUnit | CircleGaugeControl.cpp:341-346 | overwrites only the unit |
| CircleGaugeControl.CircleGauge.SetValueArcColor | CircleGaugeControl.cpp:348-353 | overwrites only the value arc colour |
| CircleGaugeControl.CircleGauge.SetNeedleColor | CircleGaugeControl.cpp:355-360 | overwrites only the needle colour |
| CircleGaugeControl.CircleGauge.SetTickColor | CircleGaugeControl.cpp:362-367 | overwrites only the tick colour |
| CircleGaugeControl.CircleGauge.SetTextColor | CircleGaugeControl.cpp:369-374 | overwrites only the text colour |
| CircleGaugeControl.CircleGauge.SetDialColor | CircleGaugeControl.cpp:377-382 | overwrites only the dial colour |
| CircleGaugeControl.CircleGauge.SetBackgroundColor | CircleGaugeControl.cpp:384-389 | overwrites only the background colour |
| CircleGaugeControl.CircleGauge.SetForegroundColor | CircleGaugeControl.cpp:391-396 | overwrites only the foreground colour |
| CircleGaugeControl.CircleGauge.SetAngles | CircleGaugeControl.cpp:398-404 | overwrites only the two angles, with no validation |
| CircleGaugeControl.CircleGauge.SetTicks | CircleGaugeControl.cpp:406-412 | overwrites only the two tick counts, with no validation |
| CircleGaugeControl.CircleGauge.SetRadius | CircleGaugeControl.cpp:414-420 | overwrites only the two radius ratios, with no validation |
| CircleGaugeControl.CircleGauge.Draw | CircleGaugeControl.cpp:107-248 | issues exactly the commands of `Render` for the current state and changes no field; the arc, tick-line, label and minor-tick counts and the phase order hold for its output |
| CircleGaugeControl.CircleGauge.DrawTrack | CircleGaugeControl.cpp:110-142 | the track, the optional value arc and the tick font and colour, as in `Render`; two arcs exactly when the value is above the minimum |
| CircleGaugeControl.CircleGauge.DrawTicks | CircleGaugeControl.cpp:144-186 | the outer tick loop issues the tick section of `Render`, with `fMajorTicks + 1` major tick lines |
| CircleGaugeControl.CircleGauge.DrawMajorTick | CircleGaugeControl.cpp:145-185 | one outer iteration: the tick line, label and pen/colour changes, then the minor ticks unless it is the last tick |
| CircleGaugeControl.CircleGauge.DrawMinorTicks | CircleGaugeControl.cpp:176-184 | the inner loop issues `fMinorTicksPerMajor` minor tick lines at the angles `MinorAngle` gives |
| CircleGaugeControl.CircleGauge.DrawNeedleAndText | CircleGaugeControl.cpp:188-247 | the needle by style, the cap, the value text and the label, as in `Render` |

## Left out

- Trigonometry: `DegreeToRadian` and the `cos`/`sin` of `GetPointOnArc` (`CircleGaugeControl.cpp:423-435`). Points on the dial stay symbolic (`OnArc`), so the model says nothing about pixel positions.
- Floating point: `float` and `double` become `real`. Rounding, NaN and infinity are not modelled.
- `GaugeModel.GaugeState.ValueToAngle`: requires `fMaxValue != fMinValue`. With an empty range the source divides by zero and draws at a NaN or infinite angle.
- `CircleGaugeControl.CircleGauge.Draw`: requires `fMajorTicks != 0` and `fMaxValue != fMinValue`. The source divides by both; for zero it draws at NaN angles, which the model does not cover.
- `GaugeModel.GaugeState.TickFraction` (and `TickValue`, `TickAngle`, `MinorFraction`): require `fMajorTicks >= 1`, the only case in which the source draws ticks at defined angles. With `fMajorTicks == 0` the loop still runs once and draws one tick line and one label at the NaN angle `0.0f / 0`.
- Integer width: `int` fields are unbounded. With `INT_MAX` the source's `i <= fMajorTicks` and `fMinorTicksPerMajor + 1` would overflow; the model does not cover this.
- `sprintf` formatting (`%.0f`, `%.1f`, `"%.1f %s"`): text is kept as the number, its number of decimals and the unit.
- Font metrics and text centring: string widths and line heights are symbolic in `TextPos`. The label is placed one line below the value text, using the value font's height.
- The radial gradient of the cap is represented by its centre, radius and two stop colours.
- `ui_color` lookups are passed in as a `Palette`.
- `Draw`'s `rect` argument: the source ignores it and uses `Bounds()`. The bounds' width and height are parameters of `Draw`.
- `Invalidate()` calls in the setters are repaint requests to the toolkit and are not modelled.
- Toolkit glue is not modelled:
  - the archive constructor, `Instantiate`, `Archive`, `SetFlags`, `SetResizingMode`, `SetEnabled`;
  - mouse and key handlers, `AttachedToWindow`, `WindowActivated`, `FrameResized`, `MessageReceived`, `MinSize` (`CircleGaugeControl.cpp:41-50`, `73-105`, `250-312`).
- The second constructor (`CircleGaugeControl.cpp:26-39`) differs from the first only in the toolkit's resizing mode and flags, so the one constructor covers both.
- `main.cpp`, the demo application, is not part of this model.
