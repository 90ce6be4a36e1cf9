/**
 * The SVG side of `xml/xml2altimetria.py`: the append-only `Svg` builder and
 * `make_svg`, which draws the frame, the X ticks and the end line, the Y grid,
 * the two Y labels, the axes, the profile and ground polylines, the titles,
 * the axis captions and the ORIGEN/FIN markers, in that order.
 *
 * Coordinates are exact reals; the attribute strings the source writes with
 * `str()` and `:.2f` are kept as the numbers they format.
 */
module Drawing {
  import opened Wrappers
  import opened Strings
  import opened Scale
  import opened Profile
  import opened Seqs

  // ---------------------------------------------------------------------
  // Python's round() and int() on numbers
  // ---------------------------------------------------------------------

  /**
   * Python's `round(x)`: the nearest integer, and the even one of the two
   * when `x` lies exactly half-way between them.
   */
  function Round(x: real): (r: int)
    ensures r as real - 0.5 <= x <= r as real + 0.5
    ensures (x == r as real - 0.5 || x == r as real + 0.5) ==> r % 2 == 0
  {
    var f := x.Floor;
    var d := x - f as real;
    if d < 0.5 then f
    else if d > 0.5 then f + 1
    else if f % 2 == 0 then f
    else f + 1
  }

  /** Only one integer is that close to `x` with the tie rule, so `Round` is it. */
  lemma RoundUnique(x: real, r: int)
    requires r as real - 0.5 <= x <= r as real + 0.5
    requires (x == r as real - 0.5 || x == r as real + 0.5) ==> r % 2 == 0
    ensures Round(x) == r
  {
  }

  /** Python's `int(x)`: truncation toward zero. */
  function Trunc(x: real): (r: int)
    ensures 0.0 <= x ==> 0 <= r && r as real <= x < r as real + 1.0
    ensures x < 0.0 ==> r <= 0 && r as real - 1.0 < x <= r as real
  {
    if x >= 0.0 then x.Floor else -((-x).Floor)
  }

  // ---------------------------------------------------------------------
  // The Svg builder
  // ---------------------------------------------------------------------

  /** One child of the `<svg>` root. */
  datatype Element =
    | Rect(x: real, y: real, width: real, height: real, fill: string, strokeWidth: string, stroke: string)
    | Line(x1: real, y1: real, x2: real, y2: real, stroke: string, strokeWidth: string)
    | Polyline(points: seq<(real, real)>, stroke: string, strokeWidth: string, fill: string)
    | Text(text: string, x: real, y: real, fontFamily: string, fontSize: string, style: string)

  /** The `Svg` class: an `<svg>` root whose children are only ever appended. */
  class Svg {
    var children: seq<Element>

    /** A root without children. */
    constructor()
      ensures children == []
    {
      children := [];
    }

    method AddRect(x: real, y: real, width: real, height: real, fill: string, strokeWidth: string, stroke: string)
      modifies this
      ensures children == old(children) + [Rect(x, y, width, height, fill, strokeWidth, stroke)]
    {
      children := children + [Rect(x, y, width, height, fill, strokeWidth, stroke)];
    }

    method AddLine(x1: real, y1: real, x2: real, y2: real, stroke: string, strokeWidth: string)
      modifies this
      ensures children == old(children) + [Line(x1, y1, x2, y2, stroke, strokeWidth)]
    {
      children := children + [Line(x1, y1, x2, y2, stroke, strokeWidth)];
    }

    method AddPolyline(points: seq<(real, real)>, stroke: string, strokeWidth: string, fill: string)
      modifies this
      ensures children == old(children) + [Polyline(points, stroke, strokeWidth, fill)]
    {
      children := children + [Polyline(points, stroke, strokeWidth, fill)];
    }

    method AddText(text: string, x: real, y: real, fontFamily: string, fontSize: string, style: string)
      modifies this
      ensures children == old(children) + [Text(text, x, y, fontFamily, fontSize, style)]
    {
      children := children + [Text(text, x, y, fontFamily, fontSize, style)];
    }
  }

  // ---------------------------------------------------------------------
  // Tick labels
  // ---------------------------------------------------------------------

  /** `f"{xv//1000} km"` for whole kilometres, `f"{xv} m"` otherwise. */
  function TickLabel(xv: int): (text: string)
    ensures EndsWith(text, " km") <==> xv % 1000 == 0
  {
    if xv % 1000 == 0 then IntToString(xv / 1000) + " km"
    else
      var digits := IntToString(xv);
      var text := digits + " m";
      assert text[|text| - 3] == digits[|digits| - 1] != ' ';
      text
  }

  /** Reads a tick label back: digits followed by " km" or by " m". */
  function ParseTickLabel(text: string): Option<int> {
    if |text| > 3 && text[|text| - 3..] == " km" && AllDigits(text[..|text| - 3]) then
      Some(1000 * DigitsValue(text[..|text| - 3]))
    else if |text| > 2 && text[|text| - 2..] == " m" && AllDigits(text[..|text| - 2]) then
      Some(DigitsValue(text[..|text| - 2]))
    else None
  }

  /** A tick label names the distance of its tick: reading it back gives the distance. */
  lemma TickLabelRoundTrip(xv: int)
    requires xv >= 0
    ensures ParseTickLabel(TickLabel(xv)) == Some(xv)
  {
    var text := TickLabel(xv);
    if xv % 1000 == 0 {
      var digits := NatToString(xv / 1000);
      assert text[..|text| - 3] == digits && text[|text| - 3..] == " km";
      NatToStringRoundTrip(xv / 1000);
    } else {
      var digits := NatToString(xv);
      assert text[..|text| - 2] == digits && text[|text| - 2..] == " m";
      assert text[|text| - 3] == digits[|digits| - 1];
      NatToStringRoundTrip(xv);
    }
  }

  // ---------------------------------------------------------------------
  // The drawing, block by block
  // ---------------------------------------------------------------------

  const Font: string := "Verdana"
  const BackgroundFill: string := "#f9fafc"
  const PlotFill: string := "#ffffff"
  const PlotStroke: string := "#ccd3db"
  const GridColour: string := "#e8edf3"
  const YGridColour: string := "#edf1f5"
  const AxisColour: string := "#222"
  const ProfileColour: string := "#0066ff"
  const GroundStroke: string := "#cce0ff"
  const GroundFill: string := "#e6f0ff"
  const LabelStyle: string := "fill:#444;"
  const TitleText: string := "Altimetría del circuito"
  const TitleStyle: string := "font-weight:bold; fill:#111;"
  const SubtitleStyle: string := "fill:#555;"
  const XCaptionText: string := "Distancia acumulada (m)"
  const YCaptionText: string := "Altitud (m)"
  const CaptionStyle: string := "fill:#333;"
  const YCaptionStyle: string := "writing-mode:tb; glyph-orientation-vertical:0; fill:#333;"
  const MarkerStyle: string := "fill:#111;"
  /** The x of the two Y labels, `ml - 55`. */
  const YLabelX: real := MarginLeft - 55.0
  /** The y of the tick labels, `H - mb + 30`. */
  const TickLabelY: real := Height - MarginBottom + 30.0
  /** The y of the ORIGEN and FIN captions, `H - mb + 48`. */
  const MarkerY: real := Height - MarginBottom + 48.0

  /** The background and the plot area (`# Fondo y área`). */
  function Frame(): seq<Element> {
    [ Rect(0.0, 0.0, Width, Height, BackgroundFill, "0", "none"),
      Rect(MarginLeft, MarginTop, PlotWidth, PlotHeight, PlotFill, "1", PlotStroke) ]
  }

  /** The vertical grid line drawn at pixel column `x`. */
  function VerticalGridLine(x: real): Element {
    Line(x, MarginTop, x, MarginTop + PlotHeight, GridColour, "1")
  }

  /** The grid line and the label of one X tick. */
  function TickMark(p: Plan, xv: int): seq<Element> {
    var x := Sx(p, xv as real);
    [VerticalGridLine(x), Text(TickLabel(xv), x - 18.0, TickLabelY, Font, "12", LabelStyle)]
  }

  /** The marks of the ticks, in order. */
  function TickMarks(p: Plan, ticks: seq<int>): seq<Element> {
    if ticks == [] then [] else TickMarks(p, ticks[..|ticks| - 1]) + TickMark(p, ticks[|ticks| - 1])
  }

  /** Extending the ticks by one appends that tick's mark. */
  lemma TickMarksSnoc(p: Plan, ticks: seq<int>, i: nat)
    requires i < |ticks|
    ensures TickMarks(p, ticks[..i + 1]) == TickMarks(p, ticks[..i]) + TickMark(p, ticks[i])
  {
    assert ticks[..i + 1][..i] == ticks[..i];
  }

  /** The X ticks of a plan: every 500 m up to `total = int(x_max)`. */
  function Ticks(p: Plan): seq<int> {
    XTicks(p.xMax)
  }

  /** The X axis marks: the tick marks, then the end line at `sx(total)`. */
  function XAxis(p: Plan): seq<Element> {
    TickMarks(p, Ticks(p)) + [VerticalGridLine(Sx(p, p.xMax as real))]
  }

  /** The horizontal grid line at altitude `y`. */
  function GridLine(p: Plan, y: real): Element {
    Line(MarginLeft, Sy(p, y), MarginLeft + PlotWidth, Sy(p, y), YGridColour, "1")
  }

  /** The grid lines of the grid values, in order. */
  function GridLines(p: Plan, ys: seq<real>): seq<Element> {
    if ys == [] then [] else GridLines(p, ys[..|ys| - 1]) + [GridLine(p, ys[|ys| - 1])]
  }

  /** `step_y = nice_step(y_max_d - y_min_d, target_ticks=6)`. */
  function StepY(p: Plan): real {
    NiceStep(p.yMaxData - p.yMinData, 6)
  }

  /** The values the grid loop visits. */
  function YGrid(p: Plan): seq<real> {
    GridValues(GridStart(p.yMinData, StepY(p)), StepY(p), p.yMaxData)
  }

  /** The text `f"{int(round(y))} m"` to the left of altitude `y`. */
  function YLabel(p: Plan, y: real): Element {
    Text(IntToString(Round(y)) + " m", YLabelX, Sy(p, y) + 4.0, Font, "12", LabelStyle)
  }

  /** The labels of the lowest and the highest true altitude, and no others. */
  function YLabels(p: Plan): seq<Element> {
    [YLabel(p, p.yMinData), YLabel(p, p.yMaxData)]
  }

  /** The X axis along the bottom edge and the Y axis along the left edge (`# Ejes`). */
  function Axes(): seq<Element> {
    [ Line(MarginLeft, MarginTop + PlotHeight, MarginLeft + PlotWidth, MarginTop + PlotHeight, AxisColour, "2"),
      Line(MarginLeft, MarginTop, MarginLeft, MarginTop + PlotHeight, AxisColour, "2") ]
  }

  /** The pixel points of `zip(cum_dist, alts_series)`. */
  function ProfilePoints(p: Plan, cum: seq<int>, alts: seq<real>): seq<(real, real)> {
    var n := if |cum| <= |alts| then |cum| else |alts|;
    seq(n, i requires 0 <= i < n => (Sx(p, cum[i] as real), Sy(p, alts[i])))
  }

  /** The two corners that close the ground along the padded floor: right, then left. */
  function GroundCorners(p: Plan): seq<(real, real)> {
    [(Sx(p, p.xMax as real), Sy(p, p.YMin())), (Sx(p, p.xMin as real), Sy(p, p.YMin()))]
  }

  /** The profile line, then the ground: the profile closed along the padded floor (`# Perfil`). */
  function Profiles(p: Plan, cum: seq<int>, alts: seq<real>): seq<Element> {
    var points := ProfilePoints(p, cum, alts);
    [ Polyline(points, ProfileColour, "2", "none"),
      Polyline(points + GroundCorners(p), GroundStroke, "1", GroundFill) ]
  }

  /** The subtitle: total distance, altitude range, and rounded climb and descent. */
  function Subtitle(total: int, p: Plan, up: real, down: real): string {
    "Distancia: " + IntToString(total) + " m  |  Altitud: "
      + IntToString(Trunc(p.yMinData)) + "–" + IntToString(Trunc(p.yMaxData))
      + " m  |  +" + IntToString(Round(up)) + " m / -" + IntToString(Round(down)) + " m"
  }

  /** The title and the subtitle (`# Títulos`). */
  function Titles(p: Plan, alts: seq<real>): seq<Element> {
    [ Text(TitleText, Width / 2.0 - 160.0, 28.0, Font, "22", TitleStyle),
      Text(Subtitle(p.xMax, p, Ascent(alts), Descent(alts)), Width / 2.0 - 260.0, 52.0, Font, "13", SubtitleStyle) ]
  }

  /** The axis captions (`# Etiquetas ejes`). */
  function Captions(): seq<Element> {
    [ Text(XCaptionText, MarginLeft + PlotWidth / 2.0 - 80.0, Height - 25.0, Font, "14", CaptionStyle),
      Text(YCaptionText, 25.0, MarginTop + PlotHeight / 2.0, Font, "14", YCaptionStyle) ]
  }

  /** A short tick below the X axis at pixel column `x`. */
  function MarkerLine(x: real): Element {
    Line(x, MarginTop + PlotHeight, x, MarginTop + PlotHeight + 10.0, AxisColour, "2")
  }

  /** ORIGEN under the first distance and FIN under the end line, each with its marker line. */
  function Markers(p: Plan): seq<Element> {
    var xo := Sx(p, p.xMin as real);
    var xf := Sx(p, p.xMax as real);
    [ Text("ORIGEN", xo - 30.0, MarkerY, Font, "12", MarkerStyle), MarkerLine(xo),
      Text("FIN", xf - 10.0, MarkerY, Font, "12", MarkerStyle), MarkerLine(xf) ]
  }

  /** The sections drawn before the two polylines. */
  function Backdrop(p: Plan): seq<Element> {
    Frame() + XAxis(p) + GridLines(p, YGrid(p)) + YLabels(p) + Axes()
  }

  /** The sections drawn after the two polylines. */
  function Annotations(p: Plan, alts: seq<real>): seq<Element> {
    Titles(p, alts) + Captions() + Markers(p)
  }

  /** The children `make_svg` gives the root, section by section. */
  function Diagram(cum: seq<int>, alts: seq<real>): seq<Element>
    requires cum != [] && alts != []
  {
    var p := PlanFor(cum, alts);
    Backdrop(p) + Profiles(p, cum, alts) + Annotations(p, alts)
  }

  // ---------------------------------------------------------------------
  // What the drawing holds
  // ---------------------------------------------------------------------

  /** Two marks per tick. */
  lemma {:induction false} TickMarksLength(p: Plan, ticks: seq<int>)
    ensures |TickMarks(p, ticks)| == 2 * |ticks|
    decreases |ticks|
  {
    if ticks != [] {
      TickMarksLength(p, ticks[..|ticks| - 1]);
    }
  }

  /** The grid lines are the grid values' lines, one each, in order. */
  lemma {:induction false} GridLinesAt(p: Plan, ys: seq<real>)
    ensures |GridLines(p, ys)| == |ys|
    ensures forall i :: 0 <= i < |ys| ==> GridLines(p, ys)[i] == GridLine(p, ys[i])
    decreases |ys|
  {
    if ys != [] {
      var init := ys[..|ys| - 1];
      GridLinesAt(p, init);
      assert forall i :: 0 <= i < |init| ==> init[i] == ys[i];
    }
  }

  /** Where the profile polyline sits: after the frame, the X axis, the grid, the Y labels and the axes. */
  function ProfileIndex(cum: seq<int>, alts: seq<real>): nat
    requires cum != [] && alts != []
  {
    var p := PlanFor(cum, alts);
    7 + 2 * |Ticks(p)| + |YGrid(p)|
  }

  predicate NoPolyline(es: seq<Element>) {
    forall k :: 0 <= k < |es| ==> !es[k].Polyline?
  }

  lemma NoPolylineAppend(a: seq<Element>, b: seq<Element>)
    requires NoPolyline(a) && NoPolyline(b)
    ensures NoPolyline(a + b)
  {
    forall k | 0 <= k < |a + b|
      ensures !(a + b)[k].Polyline?
    {
      if k < |a| {
        assert (a + b)[k] == a[k];
      } else {
        assert (a + b)[k] == b[k - |a|];
      }
    }
  }

  /** In `before + mid + after` with no polyline in `before` or `after`, every polyline comes from `mid`. */
  lemma PolylinesInMiddle(before: seq<Element>, mid: seq<Element>, after: seq<Element>)
    requires NoPolyline(before) && NoPolyline(after)
    ensures forall k :: 0 <= k < |before + mid + after| && (before + mid + after)[k].Polyline? ==>
      |before| <= k < |before| + |mid|
  {
    var all := before + mid + after;
    forall k | 0 <= k < |all| && !(|before| <= k < |before| + |mid|)
      ensures !all[k].Polyline?
    {
      if k < |before| {
        assert all[k] == before[k];
      } else {
        assert all[k] == after[k - |before| - |mid|];
      }
    }
  }

  /** Tick marks are lines and texts only. */
  lemma {:induction false} TickMarksNoPolyline(p: Plan, ticks: seq<int>)
    ensures NoPolyline(TickMarks(p, ticks))
    decreases |ticks|
  {
    if ticks != [] {
      TickMarksNoPolyline(p, ticks[..|ticks| - 1]);
      NoPolylineAppend(TickMarks(p, ticks[..|ticks| - 1]), TickMark(p, ticks[|ticks| - 1]));
    }
  }

  /** Grid lines are lines only. */
  lemma {:induction false} GridLinesNoPolyline(p: Plan, ys: seq<real>)
    ensures NoPolyline(GridLines(p, ys))
    decreases |ys|
  {
    if ys != [] {
      GridLinesNoPolyline(p, ys[..|ys| - 1]);
      NoPolylineAppend(GridLines(p, ys[..|ys| - 1]), [GridLine(p, ys[|ys| - 1])]);
    }
  }

  /** The backdrop ends where the profile is drawn. */
  lemma BackdropLength(p: Plan)
    ensures |Backdrop(p)| == 7 + 2 * |Ticks(p)| + |YGrid(p)|
  {
    TickMarksLength(p, Ticks(p));
    GridLinesAt(p, YGrid(p));
  }

  /** The frame, the X axis, the grid, the Y labels and the axes hold no polyline. */
  lemma BackdropNoPolyline(p: Plan)
    ensures NoPolyline(Backdrop(p))
  {
    var marks := TickMarks(p, Ticks(p));
    TickMarksNoPolyline(p, Ticks(p));
    NoPolylineAppend(marks, [VerticalGridLine(Sx(p, p.xMax as real))]);
    var axis := XAxis(p);
    var grid := GridLines(p, YGrid(p));
    GridLinesNoPolyline(p, YGrid(p));
    NoPolylineAppend(Frame(), axis);
    var front := Frame() + axis;
    NoPolylineAppend(front, grid);
    var labels := YLabels(p);
    assert NoPolyline(labels) && NoPolyline(Axes());
    NoPolylineAppend(front + grid, labels);
    NoPolylineAppend(front + grid + labels, Axes());
  }

  /**
   * The X axis block ends with the end line at `sx(total)`, after two marks
   * per tick; when the total is itself a multiple of 500 the last tick's grid
   * line is drawn at the same column as the end line.
   */
  lemma XAxisEndLine(p: Plan)
    ensures |XAxis(p)| == 2 * |Ticks(p)| + 1
    ensures XAxis(p)[|XAxis(p)| - 1] == VerticalGridLine(Sx(p, p.xMax as real))
    ensures p.xMax >= StepX && p.xMax % StepX == 0 ==> XAxis(p)[|XAxis(p)| - 3] == XAxis(p)[|XAxis(p)| - 1]
  {
    var ticks := Ticks(p);
    TickMarksLength(p, ticks);
    if p.xMax >= StepX && p.xMax % StepX == 0 {
      XTickMeetsEnd(p.xMax);
      var marks := TickMarks(p, ticks);
      assert marks == TickMarks(p, ticks[..|ticks| - 1]) + TickMark(p, p.xMax);
      TickMarksLength(p, ticks[..|ticks| - 1]);
      assert marks[|marks| - 2] == VerticalGridLine(Sx(p, p.xMax as real));
    }
  }

  /**
   * Every horizontal grid line lies strictly below the top edge of the plot,
   * since no grid value exceeds the highest altitude.
   */
  lemma GridLinesBelowTop(p: Plan)
    requires ValidPlan(p)
    ensures forall i :: 0 <= i < |GridLines(p, YGrid(p))| ==>
      GridLines(p, YGrid(p))[i].Line? && GridLines(p, YGrid(p))[i].y1 > MarginTop
  {
    var ys := YGrid(p);
    GridValuesBounds(p.yMinData, p.yMaxData, StepY(p));
    GridLinesAt(p, ys);
    SyEnds(p);
    forall i | 0 <= i < |ys|
      ensures Sy(p, ys[i]) > MarginTop
    {
      if ys[i] < p.YMax() {
        SyStrictlyDecreasing(p, ys[i], p.YMax());
      }
    }
  }

  /**
   * The two Y labels name the rounded lowest and highest altitudes, stand in
   * the left margin, sit within the plot's height (4 px below their
   * altitude's row), and the lower altitude's label is the lower one.
   */
  lemma YLabelsPlacement(p: Plan)
    requires ValidPlan(p)
    ensures var ls := YLabels(p);
      && |ls| == 2 && ls[0].Text? && ls[1].Text?
      && ls[0].text == IntToString(Round(p.yMinData)) + " m"
      && ls[1].text == IntToString(Round(p.yMaxData)) + " m"
      && ls[0].x == ls[1].x == YLabelX < MarginLeft
      && MarginTop + 4.0 < ls[1].y <= ls[0].y < MarginTop + PlotHeight + 4.0
      && (p.yMinData < p.yMaxData ==> ls[1].y < ls[0].y)
  {
    SyInsidePlot(p, p.yMinData);
    SyInsidePlot(p, p.yMaxData);
    if p.yMinData < p.yMaxData {
      SyStrictlyDecreasing(p, p.yMinData, p.yMaxData);
    }
  }

  /** The titles, the captions and the markers are texts and lines only. */
  lemma AnnotationsNoPolyline(p: Plan, alts: seq<real>)
    ensures NoPolyline(Annotations(p, alts))
  {
    assert NoPolyline(Titles(p, alts)) && NoPolyline(Captions()) && NoPolyline(Markers(p));
    NoPolylineAppend(Titles(p, alts), Captions());
    NoPolylineAppend(Titles(p, alts) + Captions(), Markers(p));
  }

  /**
   * The profile line has one point per pair of `zip(cum_dist, alts_series)`,
   * and the ground is the same points followed by the two floor corners.
   */
  lemma ProfilesShape(p: Plan, cum: seq<int>, alts: seq<real>)
    ensures var pr := Profiles(p, cum, alts);
      && |pr| == 2 && pr[0].Polyline? && pr[1].Polyline?
      && pr[0].stroke == ProfileColour && pr[0].fill == "none" && pr[1].fill == GroundFill
      && |pr[0].points| == (if |cum| <= |alts| then |cum| else |alts|)
      && (forall k :: 0 <= k < |pr[0].points| ==> pr[0].points[k] == (Sx(p, cum[k] as real), Sy(p, alts[k])))
      && pr[1].points == pr[0].points + GroundCorners(p)
  {
  }

  /**
   * The drawing holds exactly two polylines, next to each other: first the
   * profile line, then the ground.
   */
  lemma ProfileThenGround(cum: seq<int>, alts: seq<real>)
    requires cum != [] && alts != []
    ensures var d := Diagram(cum, alts);
      var i := ProfileIndex(cum, alts);
      && i + 1 < |d|
      && d[i] == Profiles(PlanFor(cum, alts), cum, alts)[0]
      && d[i + 1] == Profiles(PlanFor(cum, alts), cum, alts)[1]
      && (forall k :: 0 <= k < |d| && d[k].Polyline? ==> k == i || k == i + 1)
  {
    var p := PlanFor(cum, alts);
    BackdropLength(p);
    BackdropNoPolyline(p);
    var before := Backdrop(p);
    var mid := Profiles(p, cum, alts);
    var after := Annotations(p, alts);
    AnnotationsNoPolyline(p, alts);
    PolylinesInMiddle(before, mid, after);
    assert Diagram(cum, alts) == before + mid + after;
  }

  // ---------------------------------------------------------------------
  // make_svg, section by section
  // ---------------------------------------------------------------------

  method AddFrame(svg: Svg)
    modifies svg
    ensures svg.children == old(svg.children) + Frame()
  {
    svg.AddRect(0.0, 0.0, Width, Height, BackgroundFill, "0", "none");
    svg.AddRect(MarginLeft, MarginTop, PlotWidth, PlotHeight, PlotFill, "1", PlotStroke);
  }

  /** One tick: its grid line, then its label. */
  method AddTickMark(svg: Svg, p: Plan, xv: int)
    modifies svg
    ensures svg.children == old(svg.children) + TickMark(p, xv)
  {
    var x := Sx(p, xv as real);
    var text := TickLabel(xv);
    svg.AddLine(x, MarginTop, x, MarginTop + PlotHeight, GridColour, "1");
    svg.AddText(text, x - 18.0, TickLabelY, Font, "12", LabelStyle);
  }

  /** The loop over the X ticks: one grid line and one label per tick. */
  method AddTickMarks(svg: Svg, p: Plan, ticks: seq<int>)
    modifies svg
    ensures svg.children == old(svg.children) + TickMarks(p, ticks)
  {
    ghost var start := svg.children;
    for i := 0 to |ticks|
      invariant svg.children == start + TickMarks(p, ticks[..i])
    {
      AddTickMark(svg, p, ticks[i]);
      TickMarksSnoc(p, ticks, i);
      AppendAssoc(start, TickMarks(p, ticks[..i]), TickMark(p, ticks[i]));
    }
    assert ticks[..|ticks|] == ticks;
  }

  /** The tick marks, then the end line at `sx(total)`. */
  method AddXAxis(svg: Svg, p: Plan)
    modifies svg
    ensures svg.children == old(svg.children) + XAxis(p)
  {
    ghost var start := svg.children;
    AddTickMarks(svg, p, Ticks(p));
    var xf := Sx(p, p.xMax as real);
    svg.AddLine(xf, MarginTop, xf, MarginTop + PlotHeight, GridColour, "1");
    AppendAssoc(start, TickMarks(p, Ticks(p)), [VerticalGridLine(xf)]);
  }

  /**
   * The `while yv <= y_max_d` loop: one horizontal line per grid value,
   * starting at `math.floor(y_min_d / step_y) * step_y` and adding `step_y`.
   */
  method AddGridLines(svg: Svg, p: Plan)
    modifies svg
    ensures svg.children == old(svg.children) + GridLines(p, YGrid(p))
  {
    ghost var start := svg.children;
    var step := NiceStep(p.yMaxData - p.yMinData, 6);
    var y0 := GridStart(p.yMinData, step);
    ghost var n := GridCount(y0, step, p.yMaxData);
    ghost var ys := YGrid(p);
    var yv := y0;
    ghost var k: nat := 0;
    while yv <= p.yMaxData
      invariant k <= n && yv == GridValue(y0, step, k)
      invariant svg.children == start + GridLines(p, ys[..k])
      decreases n - k
    {
      assert k < n;
      svg.AddLine(MarginLeft, Sy(p, yv), MarginLeft + PlotWidth, Sy(p, yv), YGridColour, "1");
      assert ys[..k + 1][..k] == ys[..k] && ys[k] == yv;
      AppendAssoc(start, GridLines(p, ys[..k]), [GridLine(p, yv)]);
      GridValueStep(y0, step, k);
      yv := yv + step;
      k := k + 1;
    }
    if k < n {
      GridValueMonotone(y0, step, k, n - 1);
    }
    assert k == n && ys[..k] == ys;
  }

  method AddYLabels(svg: Svg, p: Plan)
    modifies svg
    ensures svg.children == old(svg.children) + YLabels(p)
  {
    var low := IntToString(Round(p.yMinData)) + " m";
    var high := IntToString(Round(p.yMaxData)) + " m";
    svg.AddText(low, YLabelX, Sy(p, p.yMinData) + 4.0, Font, "12", LabelStyle);
    svg.AddText(high, YLabelX, Sy(p, p.yMaxData) + 4.0, Font, "12", LabelStyle);
  }

  method AddAxes(svg: Svg)
    modifies svg
    ensures svg.children == old(svg.children) + Axes()
  {
    svg.AddLine(MarginLeft, MarginTop + PlotHeight, MarginLeft + PlotWidth, MarginTop + PlotHeight, AxisColour, "2");
    svg.AddLine(MarginLeft, MarginTop, MarginLeft, MarginTop + PlotHeight, AxisColour, "2");
  }

  method AddProfiles(svg: Svg, p: Plan, cum: seq<int>, alts: seq<real>)
    modifies svg
    ensures svg.children == old(svg.children) + Profiles(p, cum, alts)
  {
    var points := ProfilePoints(p, cum, alts);
    svg.AddPolyline(points, ProfileColour, "2", "none");
    var floor := Sy(p, p.YMin());
    var ground := points + [(Sx(p, p.xMax as real), floor), (Sx(p, p.xMin as real), floor)];
    svg.AddPolyline(ground, GroundStroke, "1", GroundFill);
  }

  method AddTitles(svg: Svg, p: Plan, alts: seq<real>)
    modifies svg
    ensures svg.children == old(svg.children) + Titles(p, alts)
  {
    var up, down := AscentDescent(alts);
    var subtitle := Subtitle(p.xMax, p, up, down);
    svg.AddText(TitleText, Width / 2.0 - 160.0, 28.0, Font, "22", TitleStyle);
    svg.AddText(subtitle, Width / 2.0 - 260.0, 52.0, Font, "13", SubtitleStyle);
  }

  method AddCaptions(svg: Svg)
    modifies svg
    ensures svg.children == old(svg.children) + Captions()
  {
    svg.AddText(XCaptionText, MarginLeft + PlotWidth / 2.0 - 80.0, Height - 25.0, Font, "14", CaptionStyle);
    svg.AddText(YCaptionText, 25.0, MarginTop + PlotHeight / 2.0, Font, "14", YCaptionStyle);
  }

  method AddMarkers(svg: Svg, p: Plan)
    modifies svg
    ensures svg.children == old(svg.children) + Markers(p)
  {
    var xo := Sx(p, p.xMin as real);
    var xf := Sx(p, p.xMax as real);
    svg.AddText("ORIGEN", xo - 30.0, MarkerY, Font, "12", MarkerStyle);
    svg.AddLine(xo, MarginTop + PlotHeight, xo, MarginTop + PlotHeight + 10.0, AxisColour, "2");
    svg.AddText("FIN", xf - 10.0, MarkerY, Font, "12", MarkerStyle);
    svg.AddLine(xf, MarginTop + PlotHeight, xf, MarginTop + PlotHeight + 10.0, AxisColour, "2");
  }

  /**
   * `make_svg`: builds the drawing of a series on a new root. The series must
   * not be empty (`min` and `max` of an empty list raise).
   */
  method MakeSvg(cum: seq<int>, alts: seq<real>) returns (svg: Svg)
    requires cum != [] && alts != []
    ensures fresh(svg)
    ensures svg.children == Diagram(cum, alts)
  {
    svg := new Svg();
    var p := PlanFor(cum, alts);
    AddFrame(svg);
    AppendEmpty(Frame());
    AddXAxis(svg, p);
    AddGridLines(svg, p);
    AddYLabels(svg, p);
    AddAxes(svg);
    assert svg.children == Backdrop(p);
    AddProfiles(svg, p, cum, alts);
    ghost var drawn := svg.children;
    AddTitles(svg, p, alts);
    AddCaptions(svg);
    AddMarkers(svg, p);
    AppendAssoc3(drawn, Titles(p, alts), Captions(), Markers(p));
  }
}
