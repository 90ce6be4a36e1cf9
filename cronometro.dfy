/**
 * `js/cronometro.js`: the stopwatch. `mostrar` breaks the elapsed
 * milliseconds into minutes, seconds and tenths and shows them as
 * `MM:SS.d`; the constructor, `parar` and `reiniciar` set the fields.
 */
module Stopwatch {
  import opened Wrappers
  import opened Strings

  // ---------------------------------------------------------------------
  // mostrar: the arithmetic
  // ---------------------------------------------------------------------

  /** The three numbers `mostrar` shows. */
  datatype Reading = Reading(minutes: nat, seconds: nat, tenths: nat)

  /** A reading in range whose value lies within the 100 ms that end at `ms`. */
  predicate Shows(r: Reading, ms: nat) {
    && r.tenths <= 9 && r.seconds <= 59
    && r.minutes * 60000 + r.seconds * 1000 + r.tenths * 100 <= ms
    && ms < r.minutes * 60000 + r.seconds * 1000 + r.tenths * 100 + 100
  }

  /**
   * `decimas`, `segundos` and `minutos` of `mostrar` for a non-negative
   * number of milliseconds: tenths and seconds in range, and the reading is
   * the elapsed time rounded down to a tenth of a second.
   */
  function Decompose(ms: nat): (r: Reading)
    ensures Shows(r, ms)
  {
    var decimas := (ms % 1000) / 100;
    var totalSegundos := ms / 1000;
    var segundos := totalSegundos % 60;
    var minutos := totalSegundos / 60;
    assert ms == totalSegundos * 1000 + ms % 1000;
    assert totalSegundos == minutos * 60 + segundos;
    assert ms % 1000 == decimas * 100 + (ms % 1000) % 100;
    Reading(minutes := minutos, seconds := segundos, tenths := decimas)
  }

  /** A reading in range and within the 100 ms that end at `ms` is the one `mostrar` computes. */
  lemma DecomposeUnique(r: Reading, ms: nat)
    requires Shows(r, ms)
    ensures r == Decompose(ms)
  {
    var d := Decompose(ms);
    var q := r.minutes * 600 + r.seconds * 10 + r.tenths;
    var p := d.minutes * 600 + d.seconds * 10 + d.tenths;
    assert ms / 100 == q && ms / 100 == p;
    var qs := r.minutes * 60 + r.seconds;
    var ps := d.minutes * 60 + d.seconds;
    assert q / 10 == qs && p / 10 == ps;
    assert qs / 60 == r.minutes && ps / 60 == d.minutes;
  }

  // ---------------------------------------------------------------------
  // mostrar: the text
  // ---------------------------------------------------------------------

  /** `pad`: `String(num).padStart(2, '0')`. */
  function Pad(n: nat): (s: string)
    ensures |s| >= 2 && AllDigits(s)
    ensures n >= 10 ==> s == NatToString(n)
    ensures n < 10 ==> s == ['0', DigitChar(n)]
  {
    var t := PadStart(NatToString(n), 2, '0');
    assert n < 10 ==> t == ['0', DigitChar(n)];
    t
  }

  /** The padded digits still read as the number. */
  lemma PadValue(n: nat)
    ensures DigitsValue(Pad(n)) == n
  {
    NatToStringRoundTrip(n);
    if n < 10 {
      LeadingZeroValue(NatToString(n));
      assert Pad(n) == "0" + NatToString(n);
    }
  }

  /** The template `${pad(minutos)}:${pad(segundos)}.${decimas}`. */
  function Format(r: Reading): string {
    Pad(r.minutes) + ":" + Pad(r.seconds) + "." + NatToString(r.tenths)
  }

  /** The text `mostrar` puts on the screen for `ms` milliseconds. */
  function Display(ms: nat): string {
    Format(Decompose(ms))
  }

  /** Reads a display back: minutes, then `:`, seconds, then `.`, then tenths, each a run of digits. */
  function ParseDisplay(s: string): Option<Reading> {
    var halves := Split(s, ':');
    if |halves| != 2 || !AllDigits(halves[0]) then None
    else
      var tail := Split(halves[1], '.');
      if |tail| != 2 || !AllDigits(tail[0]) || !AllDigits(tail[1]) then None
      else Some(Reading(DigitsValue(halves[0]), DigitsValue(tail[0]), DigitsValue(tail[1])))
  }

  /** A digit string has no `:` and no `.`. */
  lemma DigitsHaveNoMarks(s: string)
    requires AllDigits(s)
    ensures ':' !in s && '.' !in s
  {
    forall k | 0 <= k < |s|
      ensures s[k] != ':' && s[k] != '.'
    {
      assert IsDigit(s[k]);
    }
  }

  /** A string without the separator is a single piece. */
  lemma SplitWhole(p: string, sep: char)
    requires sep !in p
    ensures Split(p, sep) == [p]
  {
    SplitPrefix(p, "", sep);
    assert p + "" == p;
  }

  /** Three digit strings joined by `:` and `.` split back at those marks. */
  lemma SplitMarks(m: string, s: string, d: string)
    requires AllDigits(m) && AllDigits(s) && AllDigits(d)
    ensures Split(m + ":" + s + "." + d, ':') == [m, s + "." + d]
    ensures Split(s + "." + d, '.') == [s, d]
  {
    DigitsHaveNoMarks(m);
    DigitsHaveNoMarks(s);
    DigitsHaveNoMarks(d);
    var rest := s + "." + d;
    assert m + ":" + s + "." + d == m + [':'] + rest;
    SplitAfterPiece(m, rest, ':');
    assert ':' !in rest by {
      assert rest == s + ['.'] + d;
    }
    SplitWhole(rest, ':');
    assert rest == s + ['.'] + d;
    SplitAfterPiece(s, d, '.');
    SplitWhole(d, '.');
  }

  /** The display reads back as the reading it shows: the format loses nothing. */
  lemma FormatRoundTrip(r: Reading)
    ensures ParseDisplay(Format(r)) == Some(r)
  {
    var m, s, d := Pad(r.minutes), Pad(r.seconds), NatToString(r.tenths);
    SplitMarks(m, s, d);
    PadValue(r.minutes);
    PadValue(r.seconds);
    NatToStringRoundTrip(r.tenths);
  }

  /** Zero milliseconds show as "00:00.0". */
  lemma DisplayZero()
    ensures Display(0) == "00:00.0"
  {
    assert Decompose(0) == Reading(0, 0, 0);
    assert Pad(0) == "00";
  }

  // ---------------------------------------------------------------------
  // class Cronometro
  // ---------------------------------------------------------------------

  /** The value of `corriendo`: never set, `null`, or the id of an interval. */
  datatype Handle = Undefined | Null | Interval(id: nat)

  class Cronometro {
    /** `tiempo`: the elapsed milliseconds. */
    var tiempo: nat
    /** `corriendo`. */
    var corriendo: Handle
    /** Whether the interval that calls `actualizar` still fires. */
    var ticking: bool
    /** The text of the `main p` element. */
    var pantalla: string

    /** The constructor: no time elapsed, no interval. */
    constructor(texto: string)
      ensures tiempo == 0 && corriendo == Undefined && !ticking && pantalla == texto
    {
      tiempo := 0;
      corriendo := Undefined;
      ticking := false;
      pantalla := texto;
    }

    /** `mostrar`: the screen shows the elapsed time. */
    method Mostrar()
      modifies this
      ensures pantalla == Display(tiempo)
      ensures tiempo == old(tiempo) && corriendo == old(corriendo) && ticking == old(ticking)
    {
      var r := Decompose(tiempo);
      pantalla := Format(r);
    }

    /** `parar`: the interval stops firing; the time and the handle stay. */
    method Parar()
      modifies this
      ensures !ticking
      ensures tiempo == old(tiempo) && corriendo == old(corriendo) && pantalla == old(pantalla)
    {
      ticking := false;
    }

    /** `reiniciar`: the interval stopped, the handle `null`, the time 0, and the screen "00:00.0". */
    method Reiniciar()
      modifies this
      ensures !ticking && corriendo == Null && tiempo == 0
      ensures pantalla == "00:00.0"
    {
      ticking := false;
      corriendo := Null;
      tiempo := 0;
      Mostrar();
      DisplayZero();
    }
  }
}
