/** The circular gauge control: its fields, the setters that overwrite
    them, and the draw pass that turns them into drawing commands. */
module CircleGaugeControl {
  import opened GaugeTypes
  import opened GaugeModel
  import opened GaugeRender

  class CircleGauge {
    var minValue: real
    var maxValue: real
    var currentValue: real
    var labelText: string
    var unit: string
    var style: NeedleStyle
    var dialColor: Color
    var backgroundColor: Color
    var foregroundColor: Color
    var needleColor: Color
    var tickColor: Color
    var textColor: Color
    var valueArcColor: Color
    /** Degrees. */
    var startAngle: real
    /** Degrees. */
    var sweepAngle: real
    var majorTicks: int
    var minorTicksPerMajor: int
    /** Dial radius as a fraction of the limiting half-dimension. */
    var outerRadius: real
    /** Inner radius as a fraction of the dial radius. */
    var innerRadius: real

    /** The abstract value of the control. */
    function State(): GaugeState
      reads this
    {
      GaugeState(minValue, maxValue, currentValue, labelText, unit, style,
                 dialColor, backgroundColor, foregroundColor, needleColor,
                 tickColor, textColor, valueArcColor,
                 startAngle, sweepAngle, majorTicks, minorTicksPerMajor,
                 outerRadius, innerRadius)
    }

    /** Stores the range, the value (unclamped) and the two strings, then
        applies the defaults of `Init`. */
    constructor (minValue: real, maxValue: real, currentValue: real,
                 labelText: string, unit: string, palette: Palette)
      ensures this.minValue == minValue && this.maxValue == maxValue
      ensures this.currentValue == currentValue
      ensures this.labelText == labelText && this.unit == unit
      ensures HasDefaults(State(), palette)
    {
      this.minValue := minValue;
      this.maxValue := maxValue;
      this.currentValue := currentValue;
      this.labelText := labelText;
      this.unit := unit;
      new;
      Init(palette);
    }

    /** `_Init`: sets every field except the range, the value and the two
        strings (which its frame leaves alone) to its default. */
    method Init(palette: Palette)
      modifies this`style, this`startAngle, this`sweepAngle, this`majorTicks,
        this`minorTicksPerMajor, this`outerRadius, this`innerRadius
      modifies this`dialColor, this`backgroundColor, this`foregroundColor,
        this`needleColor, this`tickColor, this`textColor, this`valueArcColor
      ensures style == LineNeedle
      ensures startAngle == 210.0 && sweepAngle == 120.0
      ensures majorTicks == 10 && minorTicksPerMajor == 4
      ensures outerRadius == 0.85 && innerRadius == 0.75
      ensures dialColor == palette.controlBackground && backgroundColor == palette.controlBorder
      ensures foregroundColor == Rgba(0, 120, 215, 255) && needleColor == Rgba(220, 0, 0, 255)
      ensures tickColor == Rgba(60, 60, 60, 255) && textColor == palette.controlText
      ensures valueArcColor == Rgba(30, 180, 30, 255)
    {
      style := LineNeedle;
      startAngle := 210.0;
      sweepAngle := 120.0;
      majorTicks := 10;
      minorTicksPerMajor := 4;
      outerRadius := 0.85;
      innerRadius := 0.75;

      dialColor := palette.controlBackground;
      backgroundColor := palette.controlBorder;
      foregroundColor := Rgba(0, 120, 215, 255);
      needleColor := Rgba(220, 0, 0, 255);
      tickColor := Rgba(60, 60, 60, 255);
      textColor := palette.controlText;
      valueArcColor := Rgba(30, 180, 30, 255);
    }

    /** Stores `value` clamped into the range; nothing else changes. */
    method SetValue(value: real)
      modifies this`currentValue
      ensures State() == old(State()).WithValue(value)
      ensures minValue <= maxValue ==> minValue <= currentValue <= maxValue
    {
      if value < minValue {
        currentValue := minValue;
      } else if value > maxValue {
        currentValue := maxValue;
      } else {
        currentValue := value;
      }
    }

    /** Selects the needle style. The source first resets a style equal to
        0 (`NULL`, which is `LINE_NEEDLE`) to `LINE_NEEDLE`, which changes
        nothing; the new style is then stored whatever the old one was. */
    method SetStyle(style: NeedleStyle)
      modifies this`style
      ensures State() == old(State()).(style := style)
    {
      if this.style == LineNeedle {
        this.style := LineNeedle;
      }
      this.style := style;
    }

    method SetUnit(unit: string)
      modifies this`unit
      ensures State() == old(State()).(unit := unit)
    {
      this.unit := unit;
    }

    method SetValueArcColor(color: Color)
      modifies this`valueArcColor
      ensures State() == old(State()).(valueArcColor := color)
    {
      valueArcColor := color;
    }

    method SetNeedleColor(color: Color)
      modifies this`needleColor
      ensures State() == old(State()).(needleColor := color)
    {
      needleColor := color;
    }

    method SetTickColor(color: Color)
      modifies this`tickColor
      ensures State() == old(State()).(tickColor := color)
    {
      tickColor := color;
    }

    method SetTextColor(color: Color)
      modifies this`textColor
      ensures State() == old(State()).(textColor := color)
    {
      textColor := color;
    }

    method SetDialColor(color: Color)
      modifies this`dialColor
      ensures State() == old(State()).(dialColor := color)
    {
      dialColor := color;
    }

    method SetBackgroundColor(color: Color)
      modifies this`backgroundColor
      ensures State() == old(State()).(backgroundColor := color)
    {
      backgroundColor := color;
    }

    method SetForegroundColor(color: Color)
      modifies this`foregroundColor
      ensures State() == old(State()).(foregroundColor := color)
    {
      foregroundColor := color;
    }

    /** Overwrites both angles, with no validation. */
    method SetAngles(startAngle: real, sweepAngle: real)
      modifies this`startAngle, this`sweepAngle
      ensures State() == old(State()).(startAngle := startAngle, sweepAngle := sweepAngle)
    {
      this.startAngle := startAngle;
      this.sweepAngle := sweepAngle;
    }

    /** Overwrites both tick counts, with no validation. */
    method SetTicks(majorTicks: int, minorTicksPerMajor: int)
      modifies this`majorTicks, this`minorTicksPerMajor
      ensures State() == old(State()).(majorTicks := majorTicks, minorTicksPerMajor := minorTicksPerMajor)
    {
      this.majorTicks := majorTicks;
      this.minorTicksPerMajor := minorTicksPerMajor;
    }

    /** Overwrites both radius ratios, with no validation. */
    method SetRadius(outerRadius: real, innerRadius: real)
      modifies this`outerRadius, this`innerRadius
      ensures State() == old(State()).(outerRadius := outerRadius, innerRadius := innerRadius)
    {
      this.outerRadius := outerRadius;
      this.innerRadius := innerRadius;
    }

    /** One repaint of a `width` by `height` surface: issues the commands of
        `Render` in order, and changes no field of the control. */
    method Draw(width: real, height: real, palette: Palette) returns (cmds: seq<Cmd>)
      requires majorTicks != 0 && maxValue != minValue
      ensures cmds == Render(State(), width, height, palette)
      ensures Count(cmds, Arc) == if currentValue > minValue then 2 else 1
      ensures Count(cmds, MajorTickLine) == if majorTicks > 0 then majorTicks + 1 else 0
      ensures Count(cmds, TickLabel) == if majorTicks > 0 then majorTicks + 1 else 0
      ensures Count(cmds, MinorTickLine) == if majorTicks > 0 then majorTicks * MinorsPerGap(State()) else 0
      ensures InPhaseOrder(cmds)
    {
      var centerX := width / 2.0;
      var centerY := height * CenterDrop;
      var center := Vec(centerX, centerY);
      var maxRadius := Min(centerX, centerY) * outerRadius;
      var innerR := maxRadius * innerRadius;
      var l := Layout(center, maxRadius, innerR);
      assert l == LayoutFor(State(), width, height);

      cmds := DrawTrack(l, palette);
      var ticks := DrawTicks(l);
      cmds := cmds + ticks;
      var rest := DrawNeedleAndText(l, palette);
      cmds := cmds + rest;

      RenderTickCounts(State(), width, height, palette);
      RenderValueArc(State(), width, height, palette);
      RenderInPhaseOrder(State(), width, height, palette);
    }

    /** The background track, the value arc when the value is above the
        minimum, and the font and colour for the ticks. */
    method DrawTrack(l: Layout, palette: Palette) returns (cmds: seq<Cmd>)
      requires majorTicks != 0 && maxValue != minValue
      ensures cmds == Prologue(State(), l, palette)
      ensures Count(cmds, Arc) == if currentValue > minValue then 2 else 1
    {
      var center, maxRadius := l.center, l.maxRadius;
      cmds := [SetHighColor(palette.controlBackground)];
      cmds := cmds + [SetHighColor(backgroundColor), SetPenSize(ArcPenSize)];
      cmds := cmds + [StrokeArc(center, maxRadius, maxRadius, startAngle - sweepAngle, sweepAngle)];

      var currentAngle := State().ValueToAngle(currentValue);
      if currentValue > minValue {
        cmds := cmds + [SetHighColor(valueArcColor)];
        var valueSweep := startAngle - currentAngle;
        cmds := cmds + [StrokeArc(center, maxRadius, maxRadius, currentAngle, valueSweep)];
      }

      cmds := cmds + [SetFont(Points(TickFontSize)), SetHighColor(tickColor)];
      PrologueShapes(State(), l, palette);
    }

    /** The major ticks `0..majorTicks`, each with its value label and, but
        for the last, the minor ticks after it; none for a negative count. */
    method DrawTicks(l: Layout) returns (cmds: seq<Cmd>)
      requires majorTicks != 0
      ensures cmds == TickRun(State(), l, majorTicks + 1)
      ensures majorTicks > 0 ==> Count(cmds, MajorTickLine) == majorTicks + 1
      ensures majorTicks > 0 ==> Count(cmds, MinorTickLine) == majorTicks * MinorsPerGap(State())
    {
      cmds := [];
      var i := 0;
      while i <= majorTicks
        invariant 0 <= i && (i <= majorTicks + 1 || i == 0)
        invariant cmds == TickRun(State(), l, i)
      {
        var block := DrawMajorTick(l, i);
        cmds := cmds + block;
        i := i + 1;
      }
      if majorTicks > 0 {
        TickRunShapes(State(), l, majorTicks + 1);
        MinorsBeforeTotal(State(), majorTicks + 1);
      }
    }

    /** Major tick `i`: its line, its value label and, but for the last,
        the minor ticks after it. */
    method DrawMajorTick(l: Layout, i: int) returns (block: seq<Cmd>)
      requires majorTicks >= 1
      ensures block == MajorTickCmds(State(), l, i)
    {
      var center, maxRadius := l.center, l.maxRadius;
      var tickPercentage := i as real / majorTicks as real;
      var tickValue := minValue + tickPercentage * (maxValue - minValue);
      var tickAngle := startAngle - tickPercentage * sweepAngle;
      var outerPoint := PointOnArc(tickAngle, maxRadius, center);
      var innerPoint := PointOnArc(tickAngle, maxRadius - MajorTickLength, center);
      block := [SetPenSize(MajorPenSize), StrokeLine(outerPoint, innerPoint)];
      block := block + [SetHighColor(textColor)];
      var textPoint := PointOnArc(tickAngle, maxRadius - TickLabelInset, center);
      block := block + [DrawString(Number(tickValue, 0), CentredOn(textPoint, TickLabelDrop))];
      block := block + [SetHighColor(tickColor)];
      assert tickAngle == State().TickAngle(i) && tickValue == State().TickValue(i);
      ghost var head := block;
      assert head == MajorTickCmds(State(), l, i)[..5];
      if i < majorTicks {
        var minors := DrawMinorTicks(l, i, tickPercentage);
        block := block + [SetPenSize(MinorPenSize)] + minors;
      }
    }

    /** The minor ticks after major tick `i`, whose fraction of the range
        is `tickPercentage`. */
    method DrawMinorTicks(l: Layout, i: int, tickPercentage: real) returns (cmds: seq<Cmd>)
      requires majorTicks >= 1 && tickPercentage == State().TickFraction(i)
      ensures cmds == MinorTickRun(State(), l, i, minorTicksPerMajor)
      ensures |cmds| == MinorsPerGap(State())
      ensures Count(cmds, MinorTickLine) == |cmds|
    {
      var center, maxRadius := l.center, l.maxRadius;
      cmds := [];
      var j := 1;
      while j <= minorTicksPerMajor
        invariant 1 <= j <= (if minorTicksPerMajor < 1 then 1 else minorTicksPerMajor + 1)
        invariant cmds == MinorTickRun(State(), l, i, j - 1)
      {
        var minorPercentage := tickPercentage
          + (j as real * (1.0 / majorTicks as real) / (minorTicksPerMajor + 1) as real);
        var minorAngle := startAngle - minorPercentage * sweepAngle;
        var minorOuterPoint := PointOnArc(minorAngle, maxRadius, center);
        var minorInnerPoint := PointOnArc(minorAngle, maxRadius - MinorTickLength, center);
        assert minorPercentage == State().MinorFraction(i, j);
        assert minorAngle == State().MinorAngle(i, j);
        assert StrokeLine(minorOuterPoint, minorInnerPoint) == MinorTickCmd(State(), l, i, j);
        cmds := cmds + [StrokeLine(minorOuterPoint, minorInnerPoint)];
        j := j + 1;
      }
      MinorTickRunShapes(State(), l, i, minorTicksPerMajor);
    }

    /** The needle by style, the centre cap, the value text and the label. */
    method DrawNeedleAndText(l: Layout, palette: Palette) returns (cmds: seq<Cmd>)
      requires majorTicks != 0 && maxValue != minValue
      ensures cmds == Epilogue(State(), l, palette)
    {
      var center, maxRadius := l.center, l.maxRadius;
      var currentAngle := State().ValueToAngle(currentValue);

      cmds := [SetHighColor(needleColor)];
      var needleLength := maxRadius - NeedleInset;
      var needleWidth := needleLength * NeedleWidthRatio;
      if style == LineNeedle {
        var needlePoint := PointOnArc(currentAngle, needleLength, center);
        cmds := cmds + [StrokeLine(At(center), needlePoint)];
      }
      if style == TriangleNeedle {
        var needlePoint := PointOnArc(currentAngle, needleLength, center);
        var needleBase1 := PointOnArc(currentAngle + 90.0, needleWidth, center);
        var needleBase2 := PointOnArc(currentAngle - 90.0, needleWidth, center);
        cmds := cmds + [FillPolygon([needlePoint, needleBase1, needleBase2])];
      }

      var capRadius := maxRadius / CapDivisor;
      var gradient := RadialGradient(center, capRadius, palette.controlBackground, palette.panelBackground);
      cmds := cmds + [FillEllipse(center, capRadius, capRadius, gradient)];
      cmds := cmds + [SetHighColor(palette.controlBorder), StrokeEllipse(center, capRadius, capRadius)];

      cmds := cmds + [SetFont(BoldPlus(ValueFontExtra))];
      var displayText := if |unit| > 0 then NumberWithUnit(currentValue, 1, unit) else Number(currentValue, 1);
      cmds := cmds + [SetHighColor(textColor)];
      var anchor := At(Vec(center.x, center.y + maxRadius * CaptionDrop));
      cmds := cmds + [DrawString(displayText, CentredOn(anchor, 0.0))];
      cmds := cmds + [SetFont(BoldPlus(0.0))];
      cmds := cmds + [DrawString(Plain(labelText), CentredLineBelow(anchor))];
    }
  }
}
