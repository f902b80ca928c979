/** The gauge's state as a value, and the pure computations over it:
    range clamping, the value-to-angle map and the tick layout along the arc. */
module GaugeModel {
  import opened GaugeTypes

  /** Clamps `v` into `[lo, hi]`, testing the lower bound first as
      `SetValue` does. */
  function Clamp(v: real, lo: real, hi: real): (r: real)
    ensures v < lo ==> r == lo
    ensures lo <= v && hi < v ==> r == hi
    ensures lo <= v <= hi ==> r == v
    ensures lo <= hi ==> lo <= r <= hi
  {
    if v < lo then lo else if v > hi then hi else v
  }

  /** Clamping picks the point of the range nearest to `v`. */
  lemma ClampIsNearest(v: real, lo: real, hi: real, x: real)
    requires lo <= hi && lo <= x <= hi
    ensures Abs(Clamp(v, lo, hi) - v) <= Abs(x - v)
  {
  }

  /** Storing an already clamped value changes nothing. */
  lemma ClampIdempotent(v: real, lo: real, hi: real)
    requires lo <= hi
    ensures Clamp(Clamp(v, lo, hi), lo, hi) == Clamp(v, lo, hi)
  {
  }

  function Abs(x: real): real
  {
    if x < 0.0 then -x else x
  }

  /** The fields of the control (its abstract value). Angles are in
      degrees; `outerRadius` and `innerRadius` are ratios. */
  datatype GaugeState = GaugeState(
    minValue: real,
    maxValue: real,
    currentValue: real,
    labelText: string,
    unit: string,
    style: NeedleStyle,
    dialColor: Color,
    backgroundColor: Color,
    foregroundColor: Color,
    needleColor: Color,
    tickColor: Color,
    textColor: Color,
    valueArcColor: Color,
    startAngle: real,
    sweepAngle: real,
    majorTicks: int,
    minorTicksPerMajor: int,
    outerRadius: real,
    innerRadius: real)
  {
    /** The state after `SetValue(v)`: only the current value changes. */
    function WithValue(v: real): (s: GaugeState)
      ensures s.minValue == minValue && s.maxValue == maxValue
      ensures minValue <= maxValue ==> minValue <= s.currentValue <= maxValue
      ensures minValue <= v <= maxValue ==> s.currentValue == v
      ensures s == this.(currentValue := s.currentValue)
    {
      this.(currentValue := Clamp(v, minValue, maxValue))
    }

    /** The angle at which `value` sits on the dial: the range is mapped
        linearly onto `[startAngle - sweepAngle, startAngle]`, the minimum at
        the start angle. */
    function ValueToAngle(value: real): (a: real)
      requires maxValue != minValue
      ensures value == minValue ==> a == startAngle
      ensures value == maxValue ==> a == startAngle - sweepAngle
    {
      var percentage := (value - minValue) / (maxValue - minValue);
      startAngle - percentage * sweepAngle
    }

    /** The position of major tick `i` along the range, as a fraction. */
    function TickFraction(i: int): (f: real)
      requires majorTicks >= 1
      ensures 0 <= i <= majorTicks ==> 0.0 <= f <= 1.0
      ensures f == 0.0 <==> i == 0
      ensures f == 1.0 <==> i == majorTicks
    {
      i as real / majorTicks as real
    }

    /** The value printed under major tick `i`. */
    function TickValue(i: int): (v: real)
      requires majorTicks >= 1
      ensures i == 0 ==> v == minValue
      ensures i == majorTicks ==> v == maxValue
    {
      minValue + TickFraction(i) * (maxValue - minValue)
    }

    /** The angle of major tick `i`. */
    function TickAngle(i: int): (a: real)
      requires majorTicks >= 1
      ensures i == 0 ==> a == startAngle
      ensures i == majorTicks ==> a == startAngle - sweepAngle
    {
      startAngle - TickFraction(i) * sweepAngle
    }

    /** The position of minor tick `j` after major tick `i`, as a fraction
        of the range: the gap to the next major tick is cut into
        `minorTicksPerMajor + 1` equal parts. */
    function MinorFraction(i: int, j: int): (f: real)
      requires majorTicks >= 1 && 1 <= j <= minorTicksPerMajor
      ensures TickFraction(i) < f < TickFraction(i + 1)
    {
      var m := majorTicks as real;
      var parts := (minorTicksPerMajor + 1) as real;
      var step := j as real * (1.0 / m) / parts;
      assert 0.0 < step by {
        assert 0.0 < 1.0 / m;
        assert 0.0 < j as real * (1.0 / m);
      }
      assert step < 1.0 / m by {
        assert j as real < parts;
        assert step == (j as real / parts) * (1.0 / m);
        assert j as real / parts < 1.0;
      }
      assert TickFraction(i + 1) == TickFraction(i) + 1.0 / m;
      TickFraction(i) + step
    }

    /** The angle of minor tick `j` after major tick `i`. */
    function MinorAngle(i: int, j: int): real
      requires majorTicks >= 1 && 1 <= j <= minorTicksPerMajor
    {
      startAngle - MinorFraction(i, j) * sweepAngle
    }
  }

  /** The state `_Init` leaves behind: the needle style, angles, tick counts,
      radius ratios and the seven colours. Three colours come from the
      system palette. */
  ghost predicate HasDefaults(s: GaugeState, palette: Palette)
  {
    && s.style == LineNeedle
    && s.startAngle == 210.0
    && s.sweepAngle == 120.0
    && s.majorTicks == 10
    && s.minorTicksPerMajor == 4
    && s.outerRadius == 0.85
    && s.innerRadius == 0.75
    && s.dialColor == palette.controlBackground
    && s.backgroundColor == palette.controlBorder
    && s.foregroundColor == Rgba(0, 120, 215, 255)
    && s.needleColor == Rgba(220, 0, 0, 255)
    && s.tickColor == Rgba(60, 60, 60, 255)
    && s.textColor == palette.controlText
    && s.valueArcColor == Rgba(30, 180, 30, 255)
  }

  /** `SetValue(v)` twice is `SetValue(v)` once, whatever the range: the
      stored value depends only on `v` and the range, which `SetValue` leaves
      alone. */
  lemma WithValueIdempotent(s: GaugeState, v: real)
    ensures s.WithValue(v).WithValue(v) == s.WithValue(v)
  {
  }

  /** After a `SetValue` on an ordered range, storing the value the gauge
      then shows changes nothing. (A value stored unclamped by the
      constructor can still move.) */
  lemma WithCurrentValueUnchanged(s: GaugeState, v: real)
    requires s.minValue <= s.maxValue
    ensures s.WithValue(v).WithValue(s.WithValue(v).currentValue) == s.WithValue(v)
  {
    ClampIdempotent(v, s.minValue, s.maxValue);
  }

  /** With an inverted range the source's clamp is not idempotent: for the
      range 10 .. 0, `SetValue(5)` stores 10, and storing 10 again stores 0. */
  lemma InvertedRangeMovesValue(s: GaugeState)
    requires s.minValue == 10.0 && s.maxValue == 0.0
    ensures s.WithValue(5.0).currentValue == 10.0
    ensures s.WithValue(5.0).WithValue(10.0).currentValue == 0.0
  {
  }

  /** The value-to-angle map is affine: it preserves interpolation. */
  lemma ValueToAngleAffine(s: GaugeState, a: real, b: real, t: real)
    requires s.maxValue != s.minValue
    ensures s.ValueToAngle(a + t * (b - a))
         == s.ValueToAngle(a) + t * (s.ValueToAngle(b) - s.ValueToAngle(a))
  {
    var d := s.maxValue - s.minValue;
    calc {
      s.ValueToAngle(a + t * (b - a));
      s.startAngle - ((a + t * (b - a) - s.minValue) / d) * s.sweepAngle;
      { assert (a + t * (b - a) - s.minValue) / d == (a - s.minValue) / d + t * ((b - s.minValue) / d - (a - s.minValue) / d); }
      s.startAngle - ((a - s.minValue) / d + t * ((b - s.minValue) / d - (a - s.minValue) / d)) * s.sweepAngle;
    }
  }

  /** The middle of the range maps to the middle of the sweep. */
  lemma ValueToAngleMidpoint(s: GaugeState)
    requires s.maxValue != s.minValue
    ensures s.ValueToAngle((s.minValue + s.maxValue) / 2.0) == s.startAngle - s.sweepAngle / 2.0
  {
    ValueToAngleAffine(s, s.minValue, s.maxValue, 0.5);
    assert s.minValue + 0.5 * (s.maxValue - s.minValue) == (s.minValue + s.maxValue) / 2.0;
  }

  /** With an increasing range and a positive sweep, larger values sit at
      smaller angles (the needle turns clockwise on screen). */
  lemma ValueToAngleDecreasing(s: GaugeState, a: real, b: real)
    requires s.maxValue > s.minValue && s.sweepAngle > 0.0 && a < b
    ensures s.ValueToAngle(a) > s.ValueToAngle(b)
  {
    var d := s.maxValue - s.minValue;
    assert (a - s.minValue) / d < (b - s.minValue) / d by {
      assert (b - s.minValue) / d - (a - s.minValue) / d == (b - a) / d;
    }
  }

  /** Every tick label sits where the needle would point for that value. */
  lemma TickLabelMatchesAngle(s: GaugeState, i: int)
    requires s.majorTicks >= 1 && s.maxValue != s.minValue
    ensures s.ValueToAngle(s.TickValue(i)) == s.TickAngle(i)
  {
    var d := s.maxValue - s.minValue;
    assert (s.TickValue(i) - s.minValue) / d == s.TickFraction(i);
  }

  /** With a positive sweep, major tick angles strictly decrease with the
      tick index. */
  lemma TickAnglesDecreasing(s: GaugeState, i: int, k: int)
    requires s.majorTicks >= 1 && s.sweepAngle > 0.0 && i < k
    ensures s.TickAngle(i) > s.TickAngle(k)
  {
    ScaledLess(s.startAngle, s.sweepAngle, i as real, k as real, s.majorTicks as real);
  }

  /** Dividing by a positive `m` and scaling by a positive sweep keeps the
      order, reversed by the subtraction from `start`. */
  lemma ScaledLess(start: real, sweep: real, a: real, b: real, m: real)
    requires 0.0 < m && a < b && 0.0 < sweep
    ensures start - (a / m) * sweep > start - (b / m) * sweep
  {
    assert a / m < b / m;
  }

  /** With a positive sweep, every minor tick lies strictly between the
      major tick before it and the one after it. */
  lemma MinorTickBetweenMajors(s: GaugeState, i: int, j: int)
    requires s.majorTicks >= 1 && 1 <= j <= s.minorTicksPerMajor && s.sweepAngle > 0.0
    ensures s.TickAngle(i + 1) < s.MinorAngle(i, j) < s.TickAngle(i)
  {
    var f := s.MinorFraction(i, j);
    assert s.TickFraction(i) * s.sweepAngle < f * s.sweepAngle;
    assert f * s.sweepAngle < s.TickFraction(i + 1) * s.sweepAngle;
  }

  /** The minor ticks after major tick `i` cut the gap to the next major
      tick into `minorTicksPerMajor + 1` equal steps. */
  lemma MinorTicksEvenlySpaced(s: GaugeState, i: int, j: int)
    requires s.majorTicks >= 1 && 1 <= j <= s.minorTicksPerMajor
    ensures var step := (s.TickFraction(i + 1) - s.TickFraction(i)) / (s.minorTicksPerMajor + 1) as real;
      s.MinorFraction(i, j) == s.TickFraction(i) + j as real * step
  {
    var m := s.majorTicks as real;
    var parts := (s.minorTicksPerMajor + 1) as real;
    assert s.TickFraction(i + 1) - s.TickFraction(i) == 1.0 / m;
    assert j as real * (1.0 / m) / parts == j as real * ((1.0 / m) / parts);
  }
}
