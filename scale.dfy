/**
 * Axis planning of `xml/xml2altimetria.py`: the "nice" grid step
 * (`nice_step`), the fixed canvas layout, the vertical padding, the pixel
 * mappers `sx`/`sy`, the X ticks every 500 m and the Y grid values.
 *
 * Numbers are exact reals: `math.log10` is specified by its integer part,
 * the exponent `k` with 10^k <= raw < 10^(k+1).
 */
module Scale {

  // ---------------------------------------------------------------------
  // Powers of ten and the decimal exponent
  // ---------------------------------------------------------------------

  /** 10^k for any integer k (Python's `10 ** k`). */
  function Pow10(k: int): (r: real)
    ensures r > 0.0
    decreases if k < 0 then -k else k
  {
    if k == 0 then 1.0
    else if k > 0 then 10.0 * Pow10(k - 1)
    else Pow10(k + 1) / 10.0
  }

  /** Each power is ten times the one below it. */
  lemma Pow10Step(k: int)
    ensures Pow10(k + 1) == 10.0 * Pow10(k)
  {
  }

  /** A higher exponent gives at least ten times as much. */
  lemma {:induction false} Pow10Grows(a: int, b: int)
    requires a < b
    ensures 10.0 * Pow10(a) <= Pow10(b)
    decreases b - a
  {
    Pow10Step(a);
    if a + 1 < b {
      Pow10Grows(a + 1, b);
      Pow10Step(b - 1);
    }
  }

  /** `int(math.floor(math.log10(x)))`: the exponent of the decade holding `x`. */
  function FloorLog10(x: real): (k: int)
    requires x > 0.0
    ensures Pow10(k) <= x < Pow10(k + 1)
    decreases (if x < 1.0 then 1 else 0), (if x < 1.0 then (1.0 / x).Floor else x.Floor)
  {
    if x >= 10.0 then
      assert (x / 10.0).Floor < x.Floor by {
        assert (x / 10.0).Floor as real <= x / 10.0 <= x - 1.0;
      }
      var k := FloorLog10(x / 10.0);
      Pow10Step(k);
      Pow10Step(k + 1);
      k + 1
    else if x < 1.0 then
      assert x * 10.0 < 1.0 ==> (1.0 / (x * 10.0)).Floor < (1.0 / x).Floor by {
        if x * 10.0 < 1.0 {
          assert 1.0 / (x * 10.0) == (1.0 / x) / 10.0;
          assert 1.0 / x > 10.0;
          assert (1.0 / (x * 10.0)).Floor as real <= (1.0 / x) / 10.0 <= 1.0 / x - 1.0;
        }
      }
      var k := FloorLog10(x * 10.0);
      Pow10Step(k - 1);
      k - 1
    else
      0
  }

  // ---------------------------------------------------------------------
  // nice_step
  // ---------------------------------------------------------------------

  /** The candidates `nice_step` tries for the decade `p`, in order: 1p, 2p, 5p, 10p. */
  function Candidates(p: real): seq<real> {
    [1.0 * p, 2.0 * p, 5.0 * p, 10.0 * p]
  }

  /** `span / max(1, target_ticks)`. */
  function RawStep(span: real, targetTicks: int): real {
    span / (if targetTicks >= 1 then targetTicks else 1) as real
  }

  /**
   * `nice_step(span, target_ticks)`: 1 for a span that is not positive;
   * otherwise, with p = 10^k the decade of raw = span / max(1, target_ticks),
   * the first of 1p, 2p, 5p, 10p that is at least raw. The last test always
   * passes (raw < 10p), so the fallback `return power` is never reached.
   */
  function NiceStep(span: real, targetTicks: int): (step: real)
    ensures span <= 0.0 ==> step == 1.0
    ensures span > 0.0 ==>
      var raw := RawStep(span, targetTicks);
      var p := Pow10(FloorLog10(raw));
      && step in Candidates(p)
      && raw <= step
      && forall c :: c in Candidates(p) && raw <= c ==> step <= c
    ensures step > 0.0
  {
    if span <= 0.0 then 1.0
    else
      var raw := RawStep(span, targetTicks);
      var power := Pow10(FloorLog10(raw));
      if raw <= 1.0 * power then 1.0 * power
      else if raw <= 2.0 * power then 2.0 * power
      else if raw <= 5.0 * power then 5.0 * power
      else
        assert raw <= 10.0 * power by { Pow10Step(FloorLog10(raw)); }
        10.0 * power
  }

  /**
   * The step is the smallest "nice" number {1, 2, 5, 10} x 10^j, over every
   * exponent j, that is at least the raw step.
   */
  lemma NiceStepIsSmallestNiceNumber(span: real, targetTicks: int, c: real, j: int)
    requires span > 0.0
    requires c in Candidates(Pow10(j)) && RawStep(span, targetTicks) <= c
    ensures NiceStep(span, targetTicks) <= c
  {
    var raw := RawStep(span, targetTicks);
    var k := FloorLog10(raw);
    var step := NiceStep(span, targetTicks);
    assert step in Candidates(Pow10(k));
    assert Pow10(j) <= c <= 10.0 * Pow10(j);
    if j < k {
      Pow10Grows(j, k);
      assert c <= Pow10(k) <= raw;
      assert raw <= 1.0 * Pow10(k);
      assert step <= 1.0 * Pow10(k);
    } else if j > k {
      Pow10Grows(k, j);
      Pow10Step(k);
      assert step <= 10.0 * Pow10(k) <= Pow10(j) <= c;
    }
  }

  /**
   * The grid steps the profile uses: ten times the decade is always enough,
   * which is why `nice_step`'s loop returns before its last line.
   */
  lemma LastCandidateFits(raw: real)
    requires raw > 0.0
    ensures raw < 10.0 * Pow10(FloorLog10(raw))
  {
    Pow10Step(FloorLog10(raw));
  }

  // ---------------------------------------------------------------------
  // Canvas layout
  // ---------------------------------------------------------------------

  const Width: real := 1100.0
  const Height: real := 480.0
  const MarginLeft: real := 90.0
  const MarginRight: real := 40.0
  const MarginTop: real := 60.0
  const MarginBottom: real := 90.0
  const PlotWidth: real := Width - MarginLeft - MarginRight
  const PlotHeight: real := Height - MarginTop - MarginBottom

  /**
   * The extents `make_svg` derives from the series: `x_min`, `x_max` of the
   * distances, `y_min_d`, `y_max_d` of the altitudes, and the padding.
   */
  datatype Plan = Plan(xMin: int, xMax: int, yMinData: real, yMaxData: real, pad: real) {
    /** The padded vertical range used only for drawing (`y_min`, `y_max`). */
    function YMin(): real { yMinData - pad }
    function YMax(): real { yMaxData + pad }
  }

  /** The plans `PlanFor` makes: ordered extents and a padding of at least 2. */
  predicate ValidPlan(p: Plan) {
    p.xMin <= p.xMax && p.yMinData <= p.yMaxData && p.pad >= 2.0
  }

  function MinInt(s: seq<int>): (m: int)
    requires s != []
    ensures m in s && forall k :: 0 <= k < |s| ==> m <= s[k]
  {
    if |s| == 1 then s[0] else var r := MinInt(s[1..]); if s[0] <= r then s[0] else r
  }

  function MaxInt(s: seq<int>): (m: int)
    requires s != []
    ensures m in s && forall k :: 0 <= k < |s| ==> s[k] <= m
  {
    if |s| == 1 then s[0] else var r := MaxInt(s[1..]); if s[0] >= r then s[0] else r
  }

  function MinReal(s: seq<real>): (m: real)
    requires s != []
    ensures m in s && forall k :: 0 <= k < |s| ==> m <= s[k]
  {
    if |s| == 1 then s[0] else var r := MinReal(s[1..]); if s[0] <= r then s[0] else r
  }

  function MaxReal(s: seq<real>): (m: real)
    requires s != []
    ensures m in s && forall k :: 0 <= k < |s| ==> s[k] <= m
  {
    if |s| == 1 then s[0] else var r := MaxReal(s[1..]); if s[0] >= r then s[0] else r
  }

  /** `pad = max(2, 0.05 * (y_max_d - y_min_d))`. */
  function Padding(yMinData: real, yMaxData: real): (pad: real)
    ensures pad >= 2.0 && pad >= 0.05 * (yMaxData - yMinData)
    ensures pad == 2.0 || pad == 0.05 * (yMaxData - yMinData)
  {
    if 2.0 >= 0.05 * (yMaxData - yMinData) then 2.0 else 0.05 * (yMaxData - yMinData)
  }

  /** The plan of a non-empty series: its extents and the padding. */
  function PlanFor(cum: seq<int>, alts: seq<real>): (p: Plan)
    requires cum != [] && alts != []
    ensures ValidPlan(p)
    ensures p.xMin in cum && p.xMax in cum && p.yMinData in alts && p.yMaxData in alts
    ensures forall k :: 0 <= k < |cum| ==> p.xMin <= cum[k] <= p.xMax
    ensures forall k :: 0 <= k < |alts| ==> p.yMinData <= alts[k] <= p.yMaxData
  {
    var yMinData := MinReal(alts);
    var yMaxData := MaxReal(alts);
    Plan(MinInt(cum), MaxInt(cum), yMinData, yMaxData, Padding(yMinData, yMaxData))
  }

  // ---------------------------------------------------------------------
  // Pixel mappers
  // ---------------------------------------------------------------------

  /** `x_max - x_min or 1`. */
  function XSpan(p: Plan): real {
    if p.xMax - p.xMin != 0 then (p.xMax - p.xMin) as real else 1.0
  }

  /** `y_max - y_min or 1`. */
  function YSpan(p: Plan): real {
    if p.YMax() - p.YMin() != 0.0 then p.YMax() - p.YMin() else 1.0
  }

  /** `sx(x) = ml + (x - x_min) * plot_w / (x_max - x_min or 1)`. */
  function Sx(p: Plan, x: real): real {
    MarginLeft + (x - p.xMin as real) * PlotWidth / XSpan(p)
  }

  /** `sy(y) = mt + plot_h - (y - y_min) * plot_h / (y_max - y_min or 1)`. */
  function Sy(p: Plan, y: real): real {
    MarginTop + PlotHeight - (y - p.YMin()) * PlotHeight / YSpan(p)
  }

  /** The padded span is positive, so the `or 1` guard of `sy` never applies. */
  lemma PaddedSpanPositive(p: Plan)
    requires ValidPlan(p)
    ensures p.YMax() - p.YMin() >= 4.0 && YSpan(p) == p.YMax() - p.YMin()
  {
  }

  /** `sy` sends the padded floor to the plot's bottom edge and the padded top to its top edge. */
  lemma SyEnds(p: Plan)
    requires ValidPlan(p)
    ensures Sy(p, p.YMin()) == MarginTop + PlotHeight
    ensures Sy(p, p.YMax()) == MarginTop
  {
    var d := YSpan(p);
    assert d > 0.0;
    assert (p.YMax() - p.YMin()) * PlotHeight / d == PlotHeight;
  }

  /** A higher altitude is drawn higher up: `sy` is strictly decreasing. */
  lemma SyStrictlyDecreasing(p: Plan, a: real, b: real)
    requires ValidPlan(p) && a < b
    ensures Sy(p, b) < Sy(p, a)
  {
    var d := YSpan(p);
    assert d > 0.0;
    var u := (a - p.YMin()) * PlotHeight;
    var v := (b - p.YMin()) * PlotHeight;
    assert v - u == (b - a) * PlotHeight;
    assert u / d < v / d;
  }

  /** Every altitude between the true minimum and maximum is drawn strictly inside the plot. */
  lemma SyInsidePlot(p: Plan, y: real)
    requires ValidPlan(p) && p.yMinData <= y <= p.yMaxData
    ensures MarginTop < Sy(p, y) < MarginTop + PlotHeight
  {
    SyEnds(p);
    SyStrictlyDecreasing(p, p.YMin(), y);
    SyStrictlyDecreasing(p, y, p.YMax());
  }

  /** `sx` puts the first distance on the left edge, and the last on the right edge when they differ. */
  lemma SxEnds(p: Plan)
    requires ValidPlan(p)
    ensures Sx(p, p.xMin as real) == MarginLeft
    ensures p.xMin < p.xMax ==> Sx(p, p.xMax as real) == MarginLeft + PlotWidth
  {
    if p.xMin < p.xMax {
      var d := XSpan(p);
      assert d == (p.xMax - p.xMin) as real && d > 0.0;
      assert (p.xMax as real - p.xMin as real) * PlotWidth / d == PlotWidth;
    }
  }

  /** A longer distance is never drawn further left. */
  lemma SxMonotone(p: Plan, a: real, b: real)
    requires ValidPlan(p) && a <= b
    ensures Sx(p, a) <= Sx(p, b)
  {
    var d := XSpan(p);
    assert d > 0.0;
    var u := (a - p.xMin as real) * PlotWidth;
    var v := (b - p.xMin as real) * PlotWidth;
    assert v - u == (b - a) * PlotWidth;
    assert u / d <= v / d;
  }

  // ---------------------------------------------------------------------
  // X ticks
  // ---------------------------------------------------------------------

  const StepX: int := 500

  /**
   * `list(range(step_x, up_to + 1, step_x))` with
   * `up_to = (total // step_x) * step_x`: 500, 1000, ... up to `up_to`.
   * (For a positive divisor Dafny's `/` is Python's floor division `//`.)
   */
  function XTicks(total: int): seq<int> {
    var upTo := (total / StepX) * StepX;
    var count := if upTo >= StepX then upTo / StepX else 0;
    seq(count, i requires 0 <= i < count => StepX * (i + 1))
  }

  /**
   * The ticks are exactly the multiples of 500 from 500 through the total
   * (the last one included, even when it is the total itself), strictly
   * increasing, and there are none when the total is below 500.
   */
  lemma XTicksExact(total: int)
    ensures forall x :: x in XTicks(total) <==> (x % StepX == 0 && StepX <= x <= total)
    ensures forall i, j :: 0 <= i < j < |XTicks(total)| ==> XTicks(total)[i] < XTicks(total)[j]
    ensures XTicks(total) == [] <==> total < StepX
  {
    var ticks := XTicks(total);
    forall x | x % StepX == 0 && StepX <= x <= total
      ensures x in ticks
    {
      var i := x / StepX - 1;
      assert ticks[i] == x;
    }
  }

  /**
   * When the total is a positive multiple of 500 the last regular tick lies
   * on the total, where the end line is drawn as well.
   */
  lemma XTickMeetsEnd(total: int)
    requires total >= StepX && total % StepX == 0
    ensures |XTicks(total)| >= 1 && XTicks(total)[|XTicks(total)| - 1] == total
  {
  }

  // ---------------------------------------------------------------------
  // Y grid
  // ---------------------------------------------------------------------

  /** `math.floor(y_min_d / step_y) * step_y`: the grid's first value. */
  function GridStart(yMinData: real, step: real): (y0: real)
    requires step > 0.0
    ensures y0 <= yMinData < y0 + step
  {
    FloorScaled(yMinData, step);
    (yMinData / step).Floor as real * step
  }

  /** Rounding `v` down to a multiple of a positive `step` loses less than one step. */
  lemma FloorScaled(v: real, step: real)
    requires step > 0.0
    ensures (v / step).Floor as real * step <= v < (v / step).Floor as real * step + step
  {
    var q := v / step;
    var f := q.Floor as real;
    assert q * step == v;
    assert f <= q < f + 1.0;
    assert (q - f) * step >= 0.0;
    var g := f + 1.0 - q;
    assert g * step > 0.0;
    assert g * step == f * step + step - q * step;
    assert q * step < f * step + step;
    assert v < f * step + step;
  }

  /** The value of the grid line after `i` steps from `y0`. */
  function GridValue(y0: real, step: real, i: nat): real {
    y0 + i as real * step
  }

  /** Grid values grow with the number of steps. */
  lemma GridValueMonotone(y0: real, step: real, i: nat, j: nat)
    requires step > 0.0 && i <= j
    ensures GridValue(y0, step, i) <= GridValue(y0, step, j)
  {
    assert (j - i) as real * step >= 0.0;
    assert j as real * step == i as real * step + (j - i) as real * step;
  }

  /**
   * How many times `while yv <= y_max_d: ...; yv += step_y` runs from `y0`:
   * the value after the last run is still at most `top`, the next one is not.
   */
  function GridCount(y0: real, step: real, top: real): (n: nat)
    requires step > 0.0
    ensures n > 0 ==> GridValue(y0, step, n - 1) <= top
    ensures top < GridValue(y0, step, n)
  {
    if y0 > top then 0
    else
      var q := (top - y0) / step;
      var n := q.Floor + 1;
      assert q * step == top - y0;
      assert (n - 1) as real <= q && q < n as real;
      assert (n - 1) as real * step <= q * step;
      assert n as real * step > q * step;
      n
  }

  /** The grid values: y0, y0 + step, ... while they do not exceed `top`. */
  function GridValues(y0: real, step: real, top: real): (ys: seq<real>)
    requires step > 0.0
  {
    seq(GridCount(y0, step, top), i requires 0 <= i < GridCount(y0, step, top) => GridValue(y0, step, i))
  }

  /** One more step adds `step` to the grid value. */
  lemma GridValueStep(y0: real, step: real, i: nat)
    ensures GridValue(y0, step, i + 1) == GridValue(y0, step, i) + step
  {
    assert (i + 1) as real * step == i as real * step + step;
  }

  /**
   * The Y grid of a series: it starts at a multiple of the step at or below
   * the lowest altitude, has at least one value, never passes the highest
   * altitude, and stops at the last value below it.
   */
  lemma GridValuesBounds(yMinData: real, yMaxData: real, step: real)
    requires step > 0.0 && yMinData <= yMaxData
    ensures var ys := GridValues(GridStart(yMinData, step), step, yMaxData);
      && |ys| >= 1
      && ys[0] == GridStart(yMinData, step) <= yMinData
      && (forall i :: 0 <= i < |ys| ==> ys[i] <= yMaxData)
      && yMaxData < ys[|ys| - 1] + step
  {
    var y0 := GridStart(yMinData, step);
    var n := GridCount(y0, step, yMaxData);
    assert GridValue(y0, step, 0) == y0;
    assert 0 < n;
    var ys := GridValues(y0, step, yMaxData);
    forall i | 0 <= i < |ys|
      ensures ys[i] <= yMaxData
    {
      GridValueMonotone(y0, step, i, n - 1);
    }
    GridValueStep(y0, step, n - 1);
  }

  /** Consecutive grid values are one step apart. */
  lemma GridValuesRise(y0: real, step: real, top: real)
    requires step > 0.0
    ensures var ys := GridValues(y0, step, top);
      forall i :: 0 <= i < |ys| - 1 ==> ys[i + 1] == ys[i] + step
  {
    var ys := GridValues(y0, step, top);
    forall i | 0 <= i < |ys| - 1
      ensures ys[i + 1] == ys[i] + step
    {
      GridValueStep(y0, step, i);
    }
  }
}
