/** The draw pass of the gauge as a specification: the exact sequence of
    drawing commands one repaint issues, and what that sequence contains. */
module GaugeRender {
  import opened GaugeTypes
  import opened GaugeModel

  // Layout constants of the draw pass.
  const ArcPenSize: real := 8.0
  const MajorPenSize: real := 2.0
  const MinorPenSize: real := 1.0
  const MajorTickLength: real := 15.0
  const MinorTickLength: real := 8.0
  const TickLabelInset: real := 30.0
  const TickLabelDrop: real := 5.0
  const TickFontSize: real := 12.0
  const NeedleInset: real := 20.0
  const NeedleWidthRatio: real := 0.1
  const CapDivisor: real := 8.0
  const CenterDrop: real := 0.6
  const CaptionDrop: real := 0.6
  const ValueFontExtra: real := 8.0

  /** A draw pass is modelled when the range has a span (the value-to-angle
      map divides by it) and the major tick count is not zero (the tick
      layout divides by it). A negative count draws no ticks at all. */
  predicate Drawable(s: GaugeState)
  {
    s.majorTicks != 0 && s.maxValue != s.minValue
  }

  /** Where the dial sits in a surface of the given size. */
  datatype Layout = Layout(center: Vec, maxRadius: real, innerRadius: real)

  function LayoutFor(s: GaugeState, width: real, height: real): Layout
  {
    var centerX := width / 2.0;
    var centerY := height * CenterDrop;
    var maxRadius := Min(centerX, centerY) * s.outerRadius;
    Layout(Vec(centerX, centerY), maxRadius, maxRadius * s.innerRadius)
  }

  /** With a radius ratio in (0, 1] the dial's circle stays inside the
      surface horizontally and below its top edge. */
  lemma DialFitsBounds(s: GaugeState, width: real, height: real)
    requires 0.0 <= width && 0.0 <= height && 0.0 < s.outerRadius <= 1.0
    ensures var l := LayoutFor(s, width, height);
      && 0.0 <= l.maxRadius
      && 0.0 <= l.center.x - l.maxRadius
      && l.center.x + l.maxRadius <= width
      && 0.0 <= l.center.y - l.maxRadius
  {
    var l := LayoutFor(s, width, height);
    var m := Min(width / 2.0, height * CenterDrop);
    assert 0.0 <= m;
    assert l.maxRadius == m * s.outerRadius;
    assert m * s.outerRadius <= m * 1.0;
  }

  // ---- The sections of one pass, in the order they are drawn ----

  /** The unlit track: the full arc from `startAngle - sweepAngle` to
      `startAngle`, in the background colour with the wide pen. */
  function DialCmds(s: GaugeState, l: Layout, palette: Palette): seq<Cmd>
  {
    [ SetHighColor(palette.controlBackground),
      SetHighColor(s.backgroundColor),
      SetPenSize(ArcPenSize),
      StrokeArc(l.center, l.maxRadius, l.maxRadius, s.startAngle - s.sweepAngle, s.sweepAngle) ]
  }

  /** The lit part of the track, from the needle's angle to the start angle,
      drawn only when the value lies above the minimum. */
  function ValueArcCmds(s: GaugeState, l: Layout): seq<Cmd>
    requires Drawable(s)
  {
    if s.currentValue > s.minValue then
      var angle := s.ValueToAngle(s.currentValue);
      [ SetHighColor(s.valueArcColor),
        StrokeArc(l.center, l.maxRadius, l.maxRadius, angle, s.startAngle - angle) ]
    else []
  }

  function TickFontCmds(s: GaugeState): seq<Cmd>
  {
    [SetFont(Points(TickFontSize)), SetHighColor(s.tickColor)]
  }

  /** Minor tick `j` after major tick `i`. */
  function MinorTickCmd(s: GaugeState, l: Layout, i: int, j: int): Cmd
    requires s.majorTicks >= 1 && 1 <= j <= s.minorTicksPerMajor
  {
    var angle := s.MinorAngle(i, j);
    StrokeLine(PointOnArc(angle, l.maxRadius, l.center),
               PointOnArc(angle, l.maxRadius - MinorTickLength, l.center))
  }

  /** Minor ticks `1..k` after major tick `i`. */
  function MinorTickRun(s: GaugeState, l: Layout, i: int, k: int): seq<Cmd>
    requires s.majorTicks >= 1 && (k <= 0 || k <= s.minorTicksPerMajor)
    decreases k
  {
    if k <= 0 then [] else MinorTickRun(s, l, i, k - 1) + [MinorTickCmd(s, l, i, k)]
  }

  /** Major tick `i` with its value label and, unless it is the last one,
      the minor ticks that follow it. */
  function MajorTickCmds(s: GaugeState, l: Layout, i: int): seq<Cmd>
    requires s.majorTicks >= 1
  {
    var angle := s.TickAngle(i);
    [ SetPenSize(MajorPenSize),
      StrokeLine(PointOnArc(angle, l.maxRadius, l.center),
                 PointOnArc(angle, l.maxRadius - MajorTickLength, l.center)),
      SetHighColor(s.textColor),
      DrawString(Number(s.TickValue(i), 0),
                 CentredOn(PointOnArc(angle, l.maxRadius - TickLabelInset, l.center), TickLabelDrop)),
      SetHighColor(s.tickColor) ]
    + (if i < s.majorTicks
       then [SetPenSize(MinorPenSize)] + MinorTickRun(s, l, i, s.minorTicksPerMajor)
       else [])
  }

  /** Major ticks `0..k-1` with everything drawn alongside them. */
  function TickRun(s: GaugeState, l: Layout, k: int): seq<Cmd>
    requires s.majorTicks >= 1 || k <= 0
    decreases k
  {
    if k <= 0 then [] else TickRun(s, l, k - 1) + MajorTickCmds(s, l, k - 1)
  }

  /** The needle: a line from the centre, or a filled triangle whose tip is
      on the needle circle and whose base straddles the centre. */
  function NeedleCmds(s: GaugeState, l: Layout): seq<Cmd>
    requires Drawable(s)
  {
    var angle := s.ValueToAngle(s.currentValue);
    var length := l.maxRadius - NeedleInset;
    var width := length * NeedleWidthRatio;
    [SetHighColor(s.needleColor)]
    + match s.style
      case LineNeedle =>
        [StrokeLine(At(l.center), PointOnArc(angle, length, l.center))]
      case TriangleNeedle =>
        [FillPolygon([ PointOnArc(angle, length, l.center),
                       PointOnArc(angle + 90.0, width, l.center),
                       PointOnArc(angle - 90.0, width, l.center) ])]
  }

  /** The centre cap: a gradient-filled disc, then its outline. */
  function CapCmds(l: Layout, palette: Palette): seq<Cmd>
  {
    var r := l.maxRadius / CapDivisor;
    [ FillEllipse(l.center, r, r,
                  RadialGradient(l.center, r, palette.controlBackground, palette.panelBackground)),
      SetHighColor(palette.controlBorder),
      StrokeEllipse(l.center, r, r) ]
  }

  /** The current value with one decimal, followed by the unit when there
      is one. */
  function ValueText(s: GaugeState): Text
  {
    if |s.unit| > 0 then NumberWithUnit(s.currentValue, 1, s.unit)
    else Number(s.currentValue, 1)
  }

  /** The value text under the dial, at the bold font's size plus 8, then
      the label one line below it, at the bold font's size. Only the size is
      taken from the bold font; the face is not changed. */
  function CaptionCmds(s: GaugeState, l: Layout): seq<Cmd>
  {
    var anchor := At(Vec(l.center.x, l.center.y + l.maxRadius * CaptionDrop));
    [ SetFont(BoldPlus(ValueFontExtra)),
      SetHighColor(s.textColor),
      DrawString(ValueText(s), CentredOn(anchor, 0.0)),
      SetFont(BoldPlus(0.0)),
      DrawString(Plain(s.labelText), CentredLineBelow(anchor)) ]
  }

  /** The commands before the tick marks. */
  function Prologue(s: GaugeState, l: Layout, palette: Palette): seq<Cmd>
    requires Drawable(s)
  {
    DialCmds(s, l, palette) + ValueArcCmds(s, l) + TickFontCmds(s)
  }

  /** The commands after the tick marks. */
  function Epilogue(s: GaugeState, l: Layout, palette: Palette): seq<Cmd>
    requires Drawable(s)
  {
    NeedleCmds(s, l) + CapCmds(l, palette) + CaptionCmds(s, l)
  }

  /** One whole repaint of a `width` by `height` surface. */
  function Render(s: GaugeState, width: real, height: real, palette: Palette): seq<Cmd>
    requires Drawable(s)
  {
    var l := LayoutFor(s, width, height);
    Prologue(s, l, palette) + TickRun(s, l, s.majorTicks + 1) + Epilogue(s, l, palette)
  }

  // ---- Reading a command stream back ----

  /** What a drawing command is, judged from its geometry alone: tick lines
      are radial strokes of the major or minor tick length, tick labels are
      anchored on the arc, the needle line starts at a plain point. */
  datatype Shape =
    | StateChange
    | Arc
    | MajorTickLine
    | MinorTickLine
    | TickLabel
    | NeedleLine
    | NeedlePolygon
    | OtherLine
    | CapFill
    | CapOutline
    | ValueCaption
    | LabelCaption

  function ShapeOf(c: Cmd): Shape
  {
    match c
    case SetHighColor(_) => StateChange
    case SetPenSize(_) => StateChange
    case SetFont(_) => StateChange
    case StrokeArc(_, _, _, _, _) => Arc
    case StrokeLine(At(_), _) => NeedleLine
    case StrokeLine(OnArc(c1, a1, r1), OnArc(c2, a2, r2)) =>
      if c1 == c2 && a1 == a2 && r1 - r2 == MajorTickLength then MajorTickLine
      else if c1 == c2 && a1 == a2 && r1 - r2 == MinorTickLength then MinorTickLine
      else OtherLine
    case StrokeLine(_, _) => OtherLine
    case FillPolygon(_) => NeedlePolygon
    case FillEllipse(_, _, _, _) => CapFill
    case StrokeEllipse(_, _, _) => CapOutline
    case DrawString(_, CentredOn(OnArc(_, _, _), _)) => TickLabel
    case DrawString(_, CentredOn(At(_), _)) => ValueCaption
    case DrawString(_, CentredLineBelow(_)) => LabelCaption
  }

  /** The phase of the pass a shape belongs to; 0 for commands that only
      set pen, colour or font. */
  function Phase(sh: Shape): nat
  {
    match sh
    case StateChange => 0
    case Arc => 1
    case MajorTickLine => 2
    case MinorTickLine => 2
    case TickLabel => 2
    case NeedleLine => 3
    case NeedlePolygon => 3
    case CapFill => 4
    case CapOutline => 5
    case ValueCaption => 6
    case LabelCaption => 7
    case OtherLine => 8
  }

  /** How many commands of `cmds` have shape `sh`. */
  function Count(cmds: seq<Cmd>, sh: Shape): nat
  {
    CountTo(cmds, sh, |cmds|)
  }

  /** How many of the first `n` commands of `cmds` have shape `sh`. */
  function CountTo(cmds: seq<Cmd>, sh: Shape, n: int): nat
    requires n <= |cmds|
    decreases n
  {
    if n <= 0 then 0 else CountTo(cmds, sh, n - 1) + (if ShapeOf(cmds[n - 1]) == sh then 1 else 0)
  }

  /** Every drawing command of `cmds` is in a phase within `[lo, hi]`. */
  ghost predicate PhasesIn(cmds: seq<Cmd>, lo: nat, hi: nat)
  {
    forall k :: 0 <= k < |cmds| ==> Phase(ShapeOf(cmds[k])) == 0 || lo <= Phase(ShapeOf(cmds[k])) <= hi
  }

  /** The drawing commands of `cmds` come in non-decreasing phase order. */
  ghost predicate InPhaseOrder(cmds: seq<Cmd>)
  {
    forall k, m :: 0 <= k < m < |cmds| && Phase(ShapeOf(cmds[k])) != 0 && Phase(ShapeOf(cmds[m])) != 0
      ==> Phase(ShapeOf(cmds[k])) <= Phase(ShapeOf(cmds[m]))
  }

  // ---- Counting ----

  lemma {:induction false} CountToPrefix(a: seq<Cmd>, b: seq<Cmd>, sh: Shape, n: int)
    requires n <= |a|
    ensures CountTo(a + b, sh, n) == CountTo(a, sh, n)
    decreases n
  {
    if n > 0 {
      CountToPrefix(a, b, sh, n - 1);
      assert (a + b)[n - 1] == a[n - 1];
    }
  }

  lemma {:induction false} CountToSuffix(a: seq<Cmd>, b: seq<Cmd>, sh: Shape, n: int)
    requires |a| <= n <= |a| + |b|
    ensures CountTo(a + b, sh, n) == CountTo(a, sh, |a|) + CountTo(b, sh, n - |a|)
    decreases n
  {
    if n == |a| {
      CountToPrefix(a, b, sh, n);
    } else {
      CountToSuffix(a, b, sh, n - 1);
      assert (a + b)[n - 1] == b[n - 1 - |a|];
    }
  }

  lemma CountAppend(a: seq<Cmd>, b: seq<Cmd>, sh: Shape)
    ensures Count(a + b, sh) == Count(a, sh) + Count(b, sh)
  {
    CountToSuffix(a, b, sh, |a| + |b|);
  }

  lemma {:induction false} CountToAbsent(cmds: seq<Cmd>, sh: Shape, n: int)
    requires n <= |cmds|
    requires forall k :: 0 <= k < |cmds| ==> ShapeOf(cmds[k]) != sh
    ensures CountTo(cmds, sh, n) == 0
    decreases n
  {
    if n > 0 {
      CountToAbsent(cmds, sh, n - 1);
    }
  }

  lemma CountAbsent(cmds: seq<Cmd>, sh: Shape)
    requires forall k :: 0 <= k < |cmds| ==> ShapeOf(cmds[k]) != sh
    ensures Count(cmds, sh) == 0
  {
    CountToAbsent(cmds, sh, |cmds|);
  }

  lemma CountSingle(c: Cmd, sh: Shape)
    ensures Count([c], sh) == if ShapeOf(c) == sh then 1 else 0
  {
    assert CountTo([c], sh, 1) == CountTo([c], sh, 0) + Tally(c, sh);
  }

  lemma MinorTickShape(s: GaugeState, l: Layout, i: int, j: int)
    requires s.majorTicks >= 1 && 1 <= j <= s.minorTicksPerMajor
    ensures ShapeOf(MinorTickCmd(s, l, i, j)) == MinorTickLine
  {
  }

  /** The minor ticks after one major tick are exactly `k` minor tick
      lines, and nothing else. */
  lemma {:induction false} MinorTickRunShapes(s: GaugeState, l: Layout, i: int, k: int)
    requires s.majorTicks >= 1 && (k <= 0 || k <= s.minorTicksPerMajor)
    ensures |MinorTickRun(s, l, i, k)| == if k <= 0 then 0 else k
    ensures forall n :: 0 <= n < |MinorTickRun(s, l, i, k)| ==> ShapeOf(MinorTickRun(s, l, i, k)[n]) == MinorTickLine
    ensures Count(MinorTickRun(s, l, i, k), MinorTickLine) == if k <= 0 then 0 else k
    decreases k
  {
    if k > 0 {
      var prev, c := MinorTickRun(s, l, i, k - 1), MinorTickCmd(s, l, i, k);
      var run := MinorTickRun(s, l, i, k);
      assert run == prev + [c];
      MinorTickRunShapes(s, l, i, k - 1);
      MinorTickShape(s, l, i, k);
      CountSnoc(prev, c, MinorTickLine);
      AllShapeSnoc(prev, c, MinorTickLine);
    }
  }

  lemma AllShapeSnoc(cmds: seq<Cmd>, c: Cmd, sh: Shape)
    requires forall n :: 0 <= n < |cmds| ==> ShapeOf(cmds[n]) == sh
    requires ShapeOf(c) == sh
    ensures forall n :: 0 <= n < |cmds + [c]| ==> ShapeOf((cmds + [c])[n]) == sh
  {
  }

  /** Number of minor tick lines a pass draws after major tick `i`. */
  function MinorsAfter(s: GaugeState, i: int): nat
  {
    if i < s.majorTicks then MinorsPerGap(s) else 0
  }

  function Tally(c: Cmd, sh: Shape): nat
  {
    if ShapeOf(c) == sh then 1 else 0
  }

  lemma CountSnoc(cmds: seq<Cmd>, c: Cmd, sh: Shape)
    ensures Count(cmds + [c], sh) == Count(cmds, sh) + Tally(c, sh)
  {
    CountAppend(cmds, [c], sh);
    CountSingle(c, sh);
  }

  lemma CountFive(c0: Cmd, c1: Cmd, c2: Cmd, c3: Cmd, c4: Cmd, sh: Shape)
    ensures Count([c0, c1, c2, c3, c4], sh)
         == Tally(c0, sh) + Tally(c1, sh) + Tally(c2, sh) + Tally(c3, sh) + Tally(c4, sh)
  {
    CountSingle(c0, sh);
    CountSnoc([c0], c1, sh);
    CountSnoc([c0, c1], c2, sh);
    CountSnoc([c0, c1, c2], c3, sh);
    CountSnoc([c0, c1, c2, c3], c4, sh);
    assert [c0] + [c1] == [c0, c1];
    assert [c0, c1] + [c2] == [c0, c1, c2];
    assert [c0, c1, c2] + [c3] == [c0, c1, c2, c3];
    assert [c0, c1, c2, c3] + [c4] == [c0, c1, c2, c3, c4];
  }

  /** The fixed head of a major tick block: its line and its label. */
  lemma MajorTickHeadShapes(s: GaugeState, l: Layout, i: int)
    requires s.majorTicks >= 1
    ensures var head := MajorTickCmds(s, l, i)[..5];
      && Count(head, MajorTickLine) == 1
      && Count(head, TickLabel) == 1
      && Count(head, MinorTickLine) == 0
      && PhasesIn(head, 2, 2)
  {
    var h := MajorTickCmds(s, l, i)[..5];
    assert ShapeOf(h[1]) == MajorTickLine;
    assert ShapeOf(h[3]) == TickLabel;
    assert h == [h[0], h[1], h[2], h[3], h[4]];
    CountFive(h[0], h[1], h[2], h[3], h[4], MajorTickLine);
    CountFive(h[0], h[1], h[2], h[3], h[4], TickLabel);
    CountFive(h[0], h[1], h[2], h[3], h[4], MinorTickLine);
  }

  /** The minor ticks of one gap, after the pen is set thin for them. */
  lemma PenThenMinors(run: seq<Cmd>)
    requires forall n :: 0 <= n < |run| ==> ShapeOf(run[n]) == MinorTickLine
    ensures var t := [SetPenSize(MinorPenSize)] + run;
      && Count(t, MajorTickLine) == 0
      && Count(t, TickLabel) == 0
      && Count(t, MinorTickLine) == Count(run, MinorTickLine)
      && PhasesIn(t, 2, 2)
  {
    var pen := [SetPenSize(MinorPenSize)];
    forall sh | sh == MajorTickLine || sh == TickLabel || sh == MinorTickLine
      ensures Count(pen + run, sh) == Count(run, sh)
    {
      CountAppend(pen, run, sh);
      CountSingle(SetPenSize(MinorPenSize), sh);
    }
    CountAbsent(run, MajorTickLine);
    CountAbsent(run, TickLabel);
    forall k | 0 <= k < |pen + run|
      ensures Phase(ShapeOf((pen + run)[k])) == 0 || 2 <= Phase(ShapeOf((pen + run)[k])) <= 2
    {
      if k > 0 { assert (pen + run)[k] == run[k - 1]; }
    }
  }

  /** What follows the head of major tick block `i`: the minor ticks of
      the next gap, or nothing after the last major tick. */
  lemma MajorTickTailShapes(s: GaugeState, l: Layout, i: int)
    requires s.majorTicks >= 1
    ensures var tail := MajorTickCmds(s, l, i)[5..];
      && Count(tail, MajorTickLine) == 0
      && Count(tail, TickLabel) == 0
      && Count(tail, MinorTickLine) == MinorsAfter(s, i)
      && PhasesIn(tail, 2, 2)
  {
    var tail := MajorTickCmds(s, l, i)[5..];
    if i < s.majorTicks {
      var run := MinorTickRun(s, l, i, s.minorTicksPerMajor);
      assert tail == [SetPenSize(MinorPenSize)] + run;
      MinorTickRunShapes(s, l, i, s.minorTicksPerMajor);
      PenThenMinors(run);
    } else {
      assert tail == [];
    }
  }

  /** One major tick block: one major tick line, one tick label, the minor
      tick lines after it, and nothing but tick shapes and state changes. */
  lemma MajorTickShapes(s: GaugeState, l: Layout, i: int)
    requires s.majorTicks >= 1
    ensures Count(MajorTickCmds(s, l, i), MajorTickLine) == 1
    ensures Count(MajorTickCmds(s, l, i), TickLabel) == 1
    ensures Count(MajorTickCmds(s, l, i), MinorTickLine) == MinorsAfter(s, i)
  {
    var block := MajorTickCmds(s, l, i);
    var head, tail := block[..5], block[5..];
    assert block == head + tail;
    MajorTickHeadShapes(s, l, i);
    MajorTickTailShapes(s, l, i);
    CountAppend(head, tail, MajorTickLine);
    CountAppend(head, tail, TickLabel);
    CountAppend(head, tail, MinorTickLine);
  }

  /** A major tick block holds nothing but tick shapes and state changes. */
  lemma MajorTickPhases(s: GaugeState, l: Layout, i: int)
    requires s.majorTicks >= 1
    ensures PhasesIn(MajorTickCmds(s, l, i), 2, 2)
  {
    var block := MajorTickCmds(s, l, i);
    var head, tail := block[..5], block[5..];
    assert block == head + tail;
    MajorTickHeadShapes(s, l, i);
    MajorTickTailShapes(s, l, i);
    PhasesInAppend(head, tail, 2, 2);
  }

  /** Minor tick lines drawn in each gap between two major ticks. */
  function MinorsPerGap(s: GaugeState): nat
  {
    if s.minorTicksPerMajor > 0 then s.minorTicksPerMajor else 0
  }

  lemma PhasesInAppend(a: seq<Cmd>, b: seq<Cmd>, lo: nat, hi: nat)
    requires PhasesIn(a, lo, hi) && PhasesIn(b, lo, hi)
    ensures PhasesIn(a + b, lo, hi)
  {
    forall k | 0 <= k < |a + b|
      ensures Phase(ShapeOf((a + b)[k])) == 0 || lo <= Phase(ShapeOf((a + b)[k])) <= hi
    {
      if k < |a| { assert (a + b)[k] == a[k]; } else { assert (a + b)[k] == b[k - |a|]; }
    }
  }

  /** The tick section for major ticks `0..k-1` draws `k` major tick lines,
      `k` labels and the minor ticks of the gaps after them. */
  lemma {:induction false} TickRunShapes(s: GaugeState, l: Layout, k: int)
    requires s.majorTicks >= 1 && 0 <= k <= s.majorTicks + 1
    ensures Count(TickRun(s, l, k), MajorTickLine) == k
    ensures Count(TickRun(s, l, k), TickLabel) == k
    ensures Count(TickRun(s, l, k), MinorTickLine) == MinorsBefore(s, k)
    decreases k
  {
    if k > 0 {
      TickRunShapes(s, l, k - 1);
      MajorTickShapes(s, l, k - 1);
      TickRunCountStep(s, l, k, MajorTickLine);
      TickRunCountStep(s, l, k, TickLabel);
      TickRunCountStep(s, l, k, MinorTickLine);
    }
  }

  lemma TickRunCountStep(s: GaugeState, l: Layout, k: int, sh: Shape)
    requires s.majorTicks >= 1 && k > 0
    ensures Count(TickRun(s, l, k), sh) == Count(TickRun(s, l, k - 1), sh) + Count(MajorTickCmds(s, l, k - 1), sh)
  {
    CountAppend(TickRun(s, l, k - 1), MajorTickCmds(s, l, k - 1), sh);
  }

  /** The tick section holds nothing but tick shapes and state changes. */
  lemma {:induction false} TickRunPhases(s: GaugeState, l: Layout, k: int)
    requires s.majorTicks >= 1 || k <= 0
    ensures PhasesIn(TickRun(s, l, k), 2, 2)
    decreases k
  {
    if k > 0 {
      var prev := TickRun(s, l, k - 1);
      var block := MajorTickCmds(s, l, k - 1);
      assert TickRun(s, l, k) == prev + block;
      TickRunPhases(s, l, k - 1);
      MajorTickPhases(s, l, k - 1);
      PhasesInAppend(prev, block, 2, 2);
    }
  }

  /** Minor tick lines drawn with major ticks `0..k-1`. */
  function MinorsBefore(s: GaugeState, k: int): nat
    decreases k
  {
    if k <= 0 then 0 else MinorsBefore(s, k - 1) + MinorsAfter(s, k - 1)
  }

  /** Every gap but the one after the last major tick holds the same
      number of minor ticks. */
  lemma {:induction false} MinorsBeforeTotal(s: GaugeState, k: int)
    requires 0 <= s.majorTicks && 0 <= k <= s.majorTicks + 1
    ensures MinorsBefore(s, k) == (if k <= s.majorTicks then k else s.majorTicks) * MinorsPerGap(s)
    decreases k
  {
    var p := MinorsPerGap(s);
    if k > 0 {
      MinorsBeforeTotal(s, k - 1);
      assert MinorsBefore(s, k) == (k - 1) * p + MinorsAfter(s, k - 1);
      if k <= s.majorTicks {
        assert (k - 1) * p + p == k * p;
      }
    }
  }

  lemma CountOutsidePhases(cmds: seq<Cmd>, sh: Shape, lo: nat, hi: nat)
    requires PhasesIn(cmds, lo, hi) && Phase(sh) != 0 && !(lo <= Phase(sh) <= hi)
    ensures Count(cmds, sh) == 0
  {
    CountAbsent(cmds, sh);
  }

  lemma PrologueShapes(s: GaugeState, l: Layout, palette: Palette)
    requires Drawable(s)
    ensures PhasesIn(Prologue(s, l, palette), 1, 1)
    ensures Count(Prologue(s, l, palette), Arc) == if s.currentValue > s.minValue then 2 else 1
  {
    var d, v, f := DialCmds(s, l, palette), ValueArcCmds(s, l), TickFontCmds(s);
    assert d == [d[0], d[1], d[2]] + [d[3]];
    CountAppend([d[0], d[1], d[2]], [d[3]], Arc);
    CountSingle(d[3], Arc);
    CountAbsent([d[0], d[1], d[2]], Arc);
    if s.currentValue > s.minValue {
      assert v == [v[0]] + [v[1]];
      CountAppend([v[0]], [v[1]], Arc);
      CountSingle(v[0], Arc);
      CountSingle(v[1], Arc);
    }
    CountAbsent(f, Arc);
    CountAppend(d, v, Arc);
    CountAppend(d + v, f, Arc);
    PhasesInAppend(d, v, 1, 1);
    PhasesInAppend(d + v, f, 1, 1);
  }

  lemma PhasesInWiden(cmds: seq<Cmd>, lo: nat, hi: nat, lo': nat, hi': nat)
    requires PhasesIn(cmds, lo, hi) && lo' <= lo && hi <= hi'
    ensures PhasesIn(cmds, lo', hi')
  {
  }

  lemma NeedlePhases(s: GaugeState, l: Layout)
    requires Drawable(s)
    ensures PhasesIn(NeedleCmds(s, l), 3, 3)
  {
    var n := NeedleCmds(s, l);
    assert n == [n[0], n[1]];
  }

  lemma CapPhases(l: Layout, palette: Palette)
    ensures PhasesIn(CapCmds(l, palette), 4, 5)
    ensures InPhaseOrder(CapCmds(l, palette))
  {
    var c := CapCmds(l, palette);
    assert Phase(ShapeOf(c[0])) == 4 && Phase(ShapeOf(c[1])) == 0 && Phase(ShapeOf(c[2])) == 5;
  }

  lemma CaptionPhases(s: GaugeState, l: Layout)
    ensures PhasesIn(CaptionCmds(s, l), 6, 7)
    ensures InPhaseOrder(CaptionCmds(s, l))
  {
    var t := CaptionCmds(s, l);
    assert Phase(ShapeOf(t[0])) == 0 && Phase(ShapeOf(t[1])) == 0 && Phase(ShapeOf(t[2])) == 6;
    assert Phase(ShapeOf(t[3])) == 0 && Phase(ShapeOf(t[4])) == 7;
  }

  lemma EpiloguePhases(s: GaugeState, l: Layout, palette: Palette)
    requires Drawable(s)
    ensures PhasesIn(Epilogue(s, l, palette), 3, 7)
    ensures InPhaseOrder(Epilogue(s, l, palette))
  {
    var n, c, t := NeedleCmds(s, l), CapCmds(l, palette), CaptionCmds(s, l);
    NeedlePhases(s, l);
    CapPhases(l, palette);
    CaptionPhases(s, l);
    SinglePhaseOrdered(n, 3);
    PhasesInWiden(n, 3, 3, 0, 4);
    PhasesInWiden(c, 4, 5, 4, 8);
    OrderAppend(n, c, 4);
    PhasesInWiden(n, 3, 3, 0, 6);
    PhasesInWiden(c, 4, 5, 0, 6);
    PhasesInAppend(n, c, 0, 6);
    PhasesInWiden(t, 6, 7, 6, 8);
    OrderAppend(n + c, t, 6);
    PhasesInWiden(n, 3, 3, 3, 7);
    PhasesInWiden(c, 4, 5, 3, 7);
    PhasesInWiden(t, 6, 7, 3, 7);
    PhasesInAppend(n, c, 3, 7);
    PhasesInAppend(n + c, t, 3, 7);
  }

  lemma NeedleCount(s: GaugeState, l: Layout)
    requires Drawable(s)
    ensures Count(NeedleCmds(s, l), NeedleLine) == if s.style == LineNeedle then 1 else 0
    ensures Count(NeedleCmds(s, l), NeedlePolygon) == if s.style == TriangleNeedle then 1 else 0
  {
    var n := NeedleCmds(s, l);
    CountSnoc([n[0]], n[1], NeedleLine);
    CountSnoc([n[0]], n[1], NeedlePolygon);
    CountSingle(n[0], NeedleLine);
    CountSingle(n[0], NeedlePolygon);
    assert n == [n[0]] + [n[1]];
  }

  lemma EpilogueNeedle(s: GaugeState, l: Layout, palette: Palette)
    requires Drawable(s)
    ensures Count(Epilogue(s, l, palette), NeedleLine) == if s.style == LineNeedle then 1 else 0
    ensures Count(Epilogue(s, l, palette), NeedlePolygon) == if s.style == TriangleNeedle then 1 else 0
  {
    var n, c, t := NeedleCmds(s, l), CapCmds(l, palette), CaptionCmds(s, l);
    NeedleCount(s, l);
    CapPhases(l, palette);
    CaptionPhases(s, l);
    forall sh | sh == NeedleLine || sh == NeedlePolygon
      ensures Count(n + c + t, sh) == Count(n, sh)
    {
      CountOutsidePhases(c, sh, 4, 5);
      CountOutsidePhases(t, sh, 6, 7);
      CountAppend(n, c, sh);
      CountAppend(n + c, t, sh);
    }
  }

  lemma OrderAppend(a: seq<Cmd>, b: seq<Cmd>, x: nat)
    requires InPhaseOrder(a) && InPhaseOrder(b)
    requires PhasesIn(a, 0, x) && PhasesIn(b, x, 8)
    ensures InPhaseOrder(a + b)
  {
    forall k, m | 0 <= k < m < |a + b| && Phase(ShapeOf((a + b)[k])) != 0 && Phase(ShapeOf((a + b)[m])) != 0
      ensures Phase(ShapeOf((a + b)[k])) <= Phase(ShapeOf((a + b)[m]))
    {
      if m < |a| {
        assert (a + b)[k] == a[k] && (a + b)[m] == a[m];
      } else if k >= |a| {
        assert (a + b)[k] == b[k - |a|] && (a + b)[m] == b[m - |a|];
      } else {
        assert (a + b)[k] == a[k] && (a + b)[m] == b[m - |a|];
      }
    }
  }

  lemma SinglePhaseOrdered(cmds: seq<Cmd>, x: nat)
    requires PhasesIn(cmds, x, x)
    ensures InPhaseOrder(cmds)
  {
  }

  /** A repaint draws in a fixed order: the arcs, then the ticks with their
      labels, then the needle, the cap's fill, the cap's outline, the value
      text and last the label. */
  lemma RenderInPhaseOrder(s: GaugeState, width: real, height: real, palette: Palette)
    requires Drawable(s)
    ensures InPhaseOrder(Render(s, width, height, palette))
  {
    var l := LayoutFor(s, width, height);
    var pro, ticks, epi := Prologue(s, l, palette), TickRun(s, l, s.majorTicks + 1), Epilogue(s, l, palette);
    PrologueShapes(s, l, palette);
    TickRunPhases(s, l, s.majorTicks + 1);
    EpiloguePhases(s, l, palette);
    SinglePhaseOrdered(pro, 1);
    SinglePhaseOrdered(ticks, 2);
    OrderAppend(pro, ticks, 2);
    OrderAppend(pro + ticks, epi, 3);
  }

  /** The tick counts of a repaint: `majorTicks + 1` major tick lines and as
      many tick labels (the last major tick sits at the end of the sweep),
      and `minorTicksPerMajor` minor tick lines in each of the `majorTicks`
      gaps, none after the last major tick. */
  lemma RenderTickCounts(s: GaugeState, width: real, height: real, palette: Palette)
    requires Drawable(s)
    ensures Count(Render(s, width, height, palette), MajorTickLine) == if s.majorTicks > 0 then s.majorTicks + 1 else 0
    ensures Count(Render(s, width, height, palette), TickLabel) == if s.majorTicks > 0 then s.majorTicks + 1 else 0
    ensures Count(Render(s, width, height, palette), MinorTickLine)
         == if s.majorTicks > 0 then s.majorTicks * MinorsPerGap(s) else 0
  {
    var l := LayoutFor(s, width, height);
    var pro, ticks, epi := Prologue(s, l, palette), TickRun(s, l, s.majorTicks + 1), Epilogue(s, l, palette);
    PrologueShapes(s, l, palette);
    EpiloguePhases(s, l, palette);
    if s.majorTicks > 0 {
      TickRunShapes(s, l, s.majorTicks + 1);
      MinorsBeforeTotal(s, s.majorTicks + 1);
    } else {
      assert ticks == [];
    }
    forall sh | sh == MajorTickLine || sh == TickLabel || sh == MinorTickLine
      ensures Count(Render(s, width, height, palette), sh) == Count(ticks, sh)
    {
      CountOutsidePhases(pro, sh, 1, 1);
      CountOutsidePhases(epi, sh, 3, 7);
      RenderCount(s, width, height, palette, sh);
    }
  }

  /** The value arc: a repaint strokes the background track, spanning
      `[startAngle - sweepAngle, startAngle]`, and a second arc exactly when
      the value lies above the minimum; that arc ends at the start angle and
      sweeps the value's share of the full sweep, all of it at the maximum. */
  lemma RenderValueArc(s: GaugeState, width: real, height: real, palette: Palette)
    requires Drawable(s)
    ensures var r := Render(s, width, height, palette);
      var l := LayoutFor(s, width, height);
      && Count(r, Arc) == (if s.currentValue > s.minValue then 2 else 1)
      && r[3] == StrokeArc(l.center, l.maxRadius, l.maxRadius, s.startAngle - s.sweepAngle, s.sweepAngle)
      && (s.currentValue > s.minValue ==>
            && r[5].StrokeArc?
            && r[5].startAngle + r[5].arcAngle == s.startAngle
            && r[5].arcAngle == (s.currentValue - s.minValue) / (s.maxValue - s.minValue) * s.sweepAngle
            && (s.currentValue == s.maxValue ==> r[5].arcAngle == s.sweepAngle))
  {
    var l := LayoutFor(s, width, height);
    var pro, ticks, epi := Prologue(s, l, palette), TickRun(s, l, s.majorTicks + 1), Epilogue(s, l, palette);
    var r := Render(s, width, height, palette);
    PrologueShapes(s, l, palette);
    TickRunPhases(s, l, s.majorTicks + 1);
    EpiloguePhases(s, l, palette);
    CountOutsidePhases(ticks, Arc, 2, 2);
    CountOutsidePhases(epi, Arc, 3, 7);
    CountAppend(pro, ticks, Arc);
    CountAppend(pro + ticks, epi, Arc);
    assert r == pro + ticks + epi;
    assert r[3] == pro[3];
    if s.currentValue > s.minValue {
      assert r[5] == pro[5];
    }
  }

  /** How the needle is drawn, by style: one line from the centre to the
      needle circle (radius `maxRadius - 20`) at the value's angle, or one
      filled triangle with its tip there and its base points a tenth of that
      radius away at right angles; never both. */
  ghost predicate NeedleDrawn(s: GaugeState, l: Layout, c: Cmd)
    requires Drawable(s)
  {
    var angle := s.ValueToAngle(s.currentValue);
    var length := l.maxRadius - NeedleInset;
    match s.style
    case LineNeedle => c == StrokeLine(At(l.center), OnArc(l.center, angle, length))
    case TriangleNeedle =>
      c == FillPolygon([ OnArc(l.center, angle, length),
                         OnArc(l.center, angle + 90.0, length * NeedleWidthRatio),
                         OnArc(l.center, angle - 90.0, length * NeedleWidthRatio) ])
  }

  /** The ten commands after the ticks, as `RenderEnding` states them. */
  ghost predicate EndingDrawn(s: GaugeState, l: Layout, e: seq<Cmd>)
    requires Drawable(s)
  {
    var cap := l.maxRadius / CapDivisor;
    && |e| == 10
    && NeedleDrawn(s, l, e[1])
    && e[2].FillEllipse? && e[2].center == l.center && e[2].xRadius == cap && e[2].yRadius == cap
    && e[4] == StrokeEllipse(l.center, cap, cap)
    && e[7].DrawString? && !e[7].text.Plain?
    && e[7].text.value == s.currentValue && e[7].text.decimals == 1
    && (e[7].text.NumberWithUnit? <==> |s.unit| > 0)
    && (e[7].text.NumberWithUnit? ==> e[7].text.unit == s.unit)
    && e[9].DrawString? && e[9].text == Plain(s.labelText)
  }

  lemma EpilogueContent(s: GaugeState, l: Layout, palette: Palette)
    requires Drawable(s)
    ensures EndingDrawn(s, l, Epilogue(s, l, palette))
  {
    var n, c, t := NeedleCmds(s, l), CapCmds(l, palette), CaptionCmds(s, l);
    var e := Epilogue(s, l, palette);
    assert e == n + c + t;
    assert e[1] == n[1] && e[2] == c[0] && e[4] == c[2] && e[7] == t[2] && e[9] == t[4];
  }

  /** A repaint's count of a shape is the sum over its three sections. */
  lemma RenderCount(s: GaugeState, width: real, height: real, palette: Palette, sh: Shape)
    requires Drawable(s)
    ensures var l := LayoutFor(s, width, height);
      Count(Render(s, width, height, palette), sh)
      == Count(Prologue(s, l, palette), sh) + Count(TickRun(s, l, s.majorTicks + 1), sh) + Count(Epilogue(s, l, palette), sh)
  {
    var l := LayoutFor(s, width, height);
    var pro, ticks, epi := Prologue(s, l, palette), TickRun(s, l, s.majorTicks + 1), Epilogue(s, l, palette);
    CountAppend(pro, ticks, sh);
    CountAppend(pro + ticks, epi, sh);
  }

  lemma RenderTail(s: GaugeState, width: real, height: real, palette: Palette)
    requires Drawable(s)
    ensures var r := Render(s, width, height, palette);
      |r| >= 10 && r[|r| - 10..] == Epilogue(s, LayoutFor(s, width, height), palette)
  {
    var l := LayoutFor(s, width, height);
    var pro, ticks, epi := Prologue(s, l, palette), TickRun(s, l, s.majorTicks + 1), Epilogue(s, l, palette);
    var r := Render(s, width, height, palette);
    assert r == (pro + ticks) + epi;
    assert |epi| == 10;
  }

  /** The end of a repaint: the needle by style, the centre cap (a disc of
      an eighth of the dial radius, filled, then outlined), the value text
      (with the unit iff there is one) and, last, the label. */
  lemma RenderEnding(s: GaugeState, width: real, height: real, palette: Palette)
    requires Drawable(s)
    ensures var r := Render(s, width, height, palette);
      |r| >= 10 && EndingDrawn(s, LayoutFor(s, width, height), r[|r| - 10..])
  {
    RenderTail(s, width, height, palette);
    EpilogueContent(s, LayoutFor(s, width, height), palette);
  }

  /** A repaint draws exactly one needle, of the configured style. */
  lemma RenderNeedleCount(s: GaugeState, width: real, height: real, palette: Palette)
    requires Drawable(s)
    ensures Count(Render(s, width, height, palette), NeedleLine) == if s.style == LineNeedle then 1 else 0
    ensures Count(Render(s, width, height, palette), NeedlePolygon) == if s.style == TriangleNeedle then 1 else 0
  {
    var l := LayoutFor(s, width, height);
    var pro, ticks := Prologue(s, l, palette), TickRun(s, l, s.majorTicks + 1);
    PrologueShapes(s, l, palette);
    TickRunPhases(s, l, s.majorTicks + 1);
    EpilogueNeedle(s, l, palette);
    CountOutsidePhases(pro, NeedleLine, 1, 1);
    CountOutsidePhases(ticks, NeedleLine, 2, 2);
    CountOutsidePhases(pro, NeedlePolygon, 1, 1);
    CountOutsidePhases(ticks, NeedlePolygon, 2, 2);
    RenderCount(s, width, height, palette, NeedleLine);
    RenderCount(s, width, height, palette, NeedlePolygon);
  }

  /** No minor tick follows the last major tick: after the line of major
      tick `majorTicks`, at the end of the sweep, a repaint draws no tick
      line at all. */
  lemma RenderNoMinorAfterLastMajor(s: GaugeState, width: real, height: real, palette: Palette)
    requires Drawable(s) && s.majorTicks > 0
    ensures var r := Render(s, width, height, palette);
      var l := LayoutFor(s, width, height);
      exists p :: 0 <= p < |r|
        && r[p] == StrokeLine(OnArc(l.center, s.startAngle - s.sweepAngle, l.maxRadius),
                              OnArc(l.center, s.startAngle - s.sweepAngle, l.maxRadius - MajorTickLength))
        && forall q :: p < q < |r| ==> ShapeOf(r[q]) != MinorTickLine && ShapeOf(r[q]) != MajorTickLine
  {
    var l := LayoutFor(s, width, height);
    var m := s.majorTicks;
    var pro, before, last, epi := Prologue(s, l, palette), TickRun(s, l, m), MajorTickCmds(s, l, m), Epilogue(s, l, palette);
    var r := Render(s, width, height, palette);
    assert TickRun(s, l, m + 1) == before + last;
    assert r == (pro + before) + last + epi;
    var p := |pro + before| + 1;
    assert |last| == 5;
    assert r[p] == last[1];
    EpiloguePhases(s, l, palette);
    forall q | p < q < |r|
      ensures ShapeOf(r[q]) != MinorTickLine && ShapeOf(r[q]) != MajorTickLine
    {
      if q < p + 4 {
        assert r[q] == last[q - |pro + before|];
      } else {
        assert r[q] == epi[q - |pro + before| - 5];
      }
    }
  }

  /** A gauge with the defaults of `_Init` (10 major ticks, 4 minor ticks per
      gap, line needle) draws 11 major tick lines with 11 labels, 40 minor
      tick lines and a single needle line. */
  lemma DefaultGaugeDraws(s: GaugeState, width: real, height: real, palette: Palette)
    requires HasDefaults(s, palette) && s.maxValue != s.minValue
    ensures Drawable(s)
    ensures Count(Render(s, width, height, palette), MajorTickLine) == 11
    ensures Count(Render(s, width, height, palette), TickLabel) == 11
    ensures Count(Render(s, width, height, palette), MinorTickLine) == 40
    ensures Count(Render(s, width, height, palette), NeedleLine) == 1
    ensures Count(Render(s, width, height, palette), NeedlePolygon) == 0
  {
    var r := Render(s, width, height, palette);
    RenderTickCounts(s, width, height, palette);
    RenderNeedleCount(s, width, height, palette);
    assert Count(r, MinorTickLine) == 10 * 4;
  }
}
