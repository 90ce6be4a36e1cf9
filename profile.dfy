/**
 * Profile extraction and climb statistics of `xml/xml2altimetria.py`:
 * `cumulative`, `ascent_descent` and `extract_profile`.
 */
module Profile {
  import opened Wrappers
  import opened Circuit

  // ---------------------------------------------------------------------
  // cumulative
  // ---------------------------------------------------------------------

  /** Sum of a sequence of integers. */
  function Sum(s: seq<int>): int {
    if s == [] then 0 else Sum(s[..|s| - 1]) + s[|s| - 1]
  }

  /** Entry `i` is the sum of the first `i` values: the running-sum series. */
  function RunningSums(vals: seq<int>): seq<int> {
    seq(|vals| + 1, i requires 0 <= i <= |vals| => Sum(vals[..i]))
  }

  /**
   * The running sums have one more entry than the values, start at 0, and
   * each entry adds the next value to the one before it.
   */
  lemma RunningSumsRecurrence(vals: seq<int>)
    ensures |RunningSums(vals)| == |vals| + 1 && RunningSums(vals)[0] == 0
    ensures forall i :: 0 <= i < |vals| ==> RunningSums(vals)[i + 1] == RunningSums(vals)[i] + vals[i]
  {
    forall i | 0 <= i < |vals|
      ensures RunningSums(vals)[i + 1] == RunningSums(vals)[i] + vals[i]
    {
      assert vals[..i + 1][..i] == vals[..i];
    }
  }

  /** With no negative segment length the distance series never decreases. */
  lemma {:induction false} RunningSumsMonotone(vals: seq<int>, i: nat, j: nat)
    requires forall k :: 0 <= k < |vals| ==> vals[k] >= 0
    requires i <= j <= |vals|
    ensures RunningSums(vals)[i] <= RunningSums(vals)[j]
    decreases j - i
  {
    if i < j {
      RunningSumsRecurrence(vals);
      RunningSumsMonotone(vals, i, j - 1);
    }
  }

  /** `cumulative(vals)`: the loop that appends running sums to `out = [0]`. */
  method Cumulative(vals: seq<int>) returns (out: seq<int>)
    ensures out == RunningSums(vals)
    ensures |out| == |vals| + 1 && out[0] == 0
    ensures forall i :: 0 <= i < |vals| ==> out[i + 1] == out[i] + vals[i]
  {
    out := [0];
    for i := 0 to |vals|
      invariant |out| == i + 1
      invariant forall k :: 0 <= k <= i ==> out[k] == Sum(vals[..k])
    {
      assert vals[..i + 1][..i] == vals[..i];
      out := out + [out[|out| - 1] + vals[i]];
    }
    RunningSumsRecurrence(vals);
  }

  // ---------------------------------------------------------------------
  // ascent_descent
  // ---------------------------------------------------------------------

  /** What one step from `a` to `b` adds to the ascent (`if d > 0: up += d`). */
  function Rise(a: real, b: real): real {
    if b - a > 0.0 then b - a else 0.0
  }

  /** What one step from `a` to `b` adds to the descent (`elif d < 0: down += -d`). */
  function Fall(a: real, b: real): real {
    if b - a < 0.0 then -(b - a) else 0.0
  }

  /** Total ascent over consecutive pairs: never negative. */
  function Ascent(s: seq<real>): (up: real)
    ensures up >= 0.0
  {
    if |s| < 2 then 0.0 else Ascent(s[..|s| - 1]) + Rise(s[|s| - 2], s[|s| - 1])
  }

  /** Total descent over consecutive pairs: never negative. */
  function Descent(s: seq<real>): (down: real)
    ensures down >= 0.0
  {
    if |s| < 2 then 0.0 else Descent(s[..|s| - 1]) + Fall(s[|s| - 2], s[|s| - 1])
  }

  /** Ascent minus descent is the net change from the first to the last altitude. */
  lemma {:induction false} ClimbBalance(s: seq<real>)
    requires |s| >= 1
    ensures Ascent(s) - Descent(s) == s[|s| - 1] - s[0]
    decreases |s|
  {
    if |s| >= 2 {
      var t := s[..|s| - 1];
      ClimbBalance(t);
      assert t[|t| - 1] == s[|s| - 2] && t[0] == s[0];
    }
  }

  /** `ascent_descent(series)`: the loop over `zip(series, series[1:])`. */
  method AscentDescent(series: seq<real>) returns (up: real, down: real)
    ensures up == Ascent(series) && down == Descent(series)
    ensures up >= 0.0 && down >= 0.0
    ensures |series| >= 1 ==> up - down == series[|series| - 1] - series[0]
    ensures |series| <= 1 ==> up == 0.0 && down == 0.0
  {
    up, down := 0.0, 0.0;
    var pairs := if series == [] then 0 else |series| - 1;
    for k := 0 to pairs
      invariant series != [] ==> up == Ascent(series[..k + 1]) && down == Descent(series[..k + 1])
      invariant series == [] ==> up == 0.0 && down == 0.0
    {
      var a, b := series[k], series[k + 1];
      assert series[..k + 2][..k + 1] == series[..k + 1];
      var d := b - a;
      if d > 0.0 {
        up := up + d;
      } else if d < 0.0 {
        down := down + -d;
      }
    }
    if series != [] {
      assert series[..pairs + 1] == series;
      ClimbBalance(series);
    }
  }

  // ---------------------------------------------------------------------
  // extract_profile
  // ---------------------------------------------------------------------

  /** A reading whose element has non-empty text (the `if x.text` filter). */
  predicate HasText<T>(r: Option<Reading<T>>) {
    r.Some? && r.value.text != ""
  }

  /** The origin altitude: `float(...)` of `.//u:puntoOrigen/u:altitudMSNM`, else 0.0. */
  function OriginAltitude(doc: Document): real {
    if doc.origin.Some? && HasText(doc.origin.value.altitude) then doc.origin.value.altitude.value.value
    else 0.0
  }

  /** `[int(x.text) for x in .//u:tramos/u:tramo/u:distancia if x.text]`. */
  function Distances(segments: seq<Segment>): (ds: seq<int>)
    ensures |ds| <= |segments|
  {
    if segments == [] then []
    else
      var d := segments[0].distance;
      (if HasText(d) then [d.value.value] else []) + Distances(segments[1..])
  }

  /** `[float(x.text) for x in .//u:tramos/u:tramo/u:puntoFinal/u:altitudMSNM if x.text]`. */
  function EndAltitudes(segments: seq<Segment>): (alts: seq<real>)
    ensures |alts| <= |segments|
  {
    if segments == [] then []
    else
      var e := segments[0].end;
      (if e.Some? && HasText(e.value.altitude) then [e.value.altitude.value.value] else [])
        + EndAltitudes(segments[1..])
  }

  /** A profile series: cumulative distances and altitudes. */
  datatype Series = Series(distances: seq<int>, altitudes: seq<real>)

  /**
   * `extract_profile`: the running sums of the segment lengths and the origin
   * altitude followed by the end-point altitudes, both cut to the shorter
   * length. The two have equal length of at least one, start at distance 0
   * and the origin altitude, and are prefixes of the two uncut series.
   */
  function ExtractProfile(doc: Document): (p: Series)
    ensures |p.distances| == |p.altitudes| >= 1
    ensures |p.distances| == 1 + (if |Distances(doc.segments)| <= |EndAltitudes(doc.segments)|
                                  then |Distances(doc.segments)| else |EndAltitudes(doc.segments)|)
    ensures p.distances[0] == 0 && p.altitudes[0] == OriginAltitude(doc)
    ensures p.distances <= RunningSums(Distances(doc.segments))
    ensures p.altitudes <= [OriginAltitude(doc)] + EndAltitudes(doc.segments)
  {
    var cum := RunningSums(Distances(doc.segments));
    var series := [OriginAltitude(doc)] + EndAltitudes(doc.segments);
    var n := if |cum| <= |series| then |cum| else |series|;
    Series(cum[..n], series[..n])
  }

  /**
   * With no negative segment length the extracted distances start at 0 and
   * never decrease.
   */
  lemma ExtractedDistancesMonotone(doc: Document, i: nat, j: nat)
    requires forall k :: 0 <= k < |Distances(doc.segments)| ==> Distances(doc.segments)[k] >= 0
    requires i <= j < |ExtractProfile(doc).distances|
    ensures ExtractProfile(doc).distances[i] <= ExtractProfile(doc).distances[j]
  {
    RunningSumsMonotone(Distances(doc.segments), i, j);
  }
}
