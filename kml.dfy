/**
 * `xml/xml2kml.py`: the circuit's planimetry as an OGC KML 2.2 file. The
 * origin and the end point of every segment become `lon,lat,alt` tuples,
 * closed into a ring that starts and ends at the origin, and the writers
 * put them out line by line.
 */
module Kml {
  import opened Wrappers
  import opened Strings
  import opened Seqs
  import opened Circuit

  // ---------------------------------------------------------------------
  // obtener_punto_origen, obtener_tramos
  // ---------------------------------------------------------------------

  /** A point as the three stripped texts `(lon, lat, alt)`. */
  datatype Coord = Coord(lon: string, lat: string, alt: string)

  /** The altitude text: stripped, or "0" when the element is missing or has no text. */
  function AltitudeText(a: Option<Reading<real>>): string {
    if a.Some? then Strip(a.value.text) else "0"
  }

  /** A point with both a longitude and a latitude, as stripped texts; `None` without either. */
  function CoordOf(p: Point): (c: Option<Coord>)
    ensures c.Some? <==> p.longitude.Some? && p.latitude.Some?
  {
    if p.longitude.None? || p.latitude.None? then None
    else Some(Coord(Strip(p.longitude.value), Strip(p.latitude.value), AltitudeText(p.altitude)))
  }

  const NoOrigin: string := "No se encuentra <puntoOrigen> en el XML"
  const NoOriginCoordinates: string := "Faltan coordenadas en <puntoOrigen>"

  /**
   * `obtener_punto_origen`: the origin's coordinates; the error it raises
   * without a `puntoOrigen`, and the other one without its longitude or
   * latitude. The altitude is "0" when it is missing.
   */
  function ObtenerPuntoOrigen(doc: Document): (r: Result<Coord, string>)
    ensures r.Failure? <==> doc.origin.None? || CoordOf(doc.origin.value).None?
    ensures r.Failure? ==> r.error == if doc.origin.None? then NoOrigin else NoOriginCoordinates
    ensures r.Success? ==> r.value.alt == AltitudeText(doc.origin.value.altitude)
    ensures r.Success? && doc.origin.value.altitude.None? ==> r.value.alt == "0"
  {
    if doc.origin.None? then Failure(NoOrigin)
    else
      match CoordOf(doc.origin.value)
      case None => Failure(NoOriginCoordinates)
      case Some(c) => Success(c)
  }

  /** The point a segment contributes: its `puntoFinal` with longitude and latitude, if any. */
  function EndCoord(s: Segment): Option<Coord> {
    if s.end.None? then None else CoordOf(s.end.value)
  }

  /** The segment end points, skipping the segments that have none, in document order. */
  function Tramos(segments: seq<Segment>): seq<Coord> {
    if segments == [] then []
    else
      var c := EndCoord(segments[|segments| - 1]);
      Tramos(segments[..|segments| - 1]) + (if c.Some? then [c.value] else [])
  }

  /** `obtener_tramos`: the loop that appends the end point of each segment that has one. */
  method ObtenerTramos(doc: Document) returns (puntos: seq<Coord>)
    ensures puntos == Tramos(doc.segments)
    ensures |puntos| <= |doc.segments|
  {
    puntos := [];
    for i := 0 to |doc.segments|
      invariant puntos == Tramos(doc.segments[..i])
    {
      var tramo := doc.segments[i];
      assert doc.segments[..i + 1][..i] == doc.segments[..i];
      if tramo.end.None? {
        continue;
      }
      var pf := tramo.end.value;
      if pf.longitude.None? || pf.latitude.None? {
        continue;
      }
      var altVal := AltitudeText(pf.altitude);
      puntos := puntos + [Coord(Strip(pf.longitude.value), Strip(pf.latitude.value), altVal)];
    }
    assert doc.segments[..|doc.segments|] == doc.segments;
    TramosLength(doc.segments);
  }

  /** At most one point per segment. */
  lemma {:induction false} TramosLength(segments: seq<Segment>)
    ensures |Tramos(segments)| <= |segments|
    decreases |segments|
  {
    if segments != [] {
      TramosLength(segments[..|segments| - 1]);
    }
  }

  /** Document order is kept: the points of two runs of segments follow each other. */
  lemma {:induction false} TramosAppend(a: seq<Segment>, b: seq<Segment>)
    ensures Tramos(a + b) == Tramos(a) + Tramos(b)
    decreases |b|
  {
    if b != [] {
      assert (a + b)[..|a + b| - 1] == a + b[..|b| - 1];
      TramosAppend(a, b[..|b| - 1]);
    } else {
      assert a + b == a;
    }
  }

  /** Every point kept is the end point of some segment. */
  lemma {:induction false} TramosSound(segments: seq<Segment>, c: Coord)
    requires c in Tramos(segments)
    ensures exists i :: 0 <= i < |segments| && EndCoord(segments[i]) == Some(c)
    decreases |segments|
  {
    var n := |segments| - 1;
    var last := EndCoord(segments[n]);
    if last == Some(c) {
      assert EndCoord(segments[n]) == Some(c);
    } else {
      var init := segments[..n];
      TramosSound(init, c);
      var i :| 0 <= i < |init| && EndCoord(init[i]) == Some(c);
      assert segments[i] == init[i];
    }
  }

  /** The end point of every segment that has one is kept. */
  lemma {:induction false} TramosComplete(segments: seq<Segment>, i: nat)
    requires i < |segments| && EndCoord(segments[i]).Some?
    ensures EndCoord(segments[i]).value in Tramos(segments)
    decreases |segments|
  {
    var n := |segments| - 1;
    if i < n {
      var init := segments[..n];
      assert init[i] == segments[i];
      TramosComplete(init, i);
    }
  }

  // ---------------------------------------------------------------------
  // The coordinate list of main
  // ---------------------------------------------------------------------

  /** `f"{lon},{lat},{alt}"`. */
  function CoordText(c: Coord): string {
    Join([c.lon, c.lat, c.alt], ",")
  }

  /** A tuple splits back at its commas into the three texts, when none of them holds a comma. */
  lemma CoordTextSplit(c: Coord)
    requires ',' !in c.lon && ',' !in c.lat && ',' !in c.alt
    ensures Split(CoordText(c), ',') == [c.lon, c.lat, c.alt]
  {
    SplitJoin([c.lon, c.lat, c.alt], ',');
  }

  /** The tuples of a run of points, in order. */
  function CoordTexts(puntos: seq<Coord>): (ts: seq<string>)
    ensures |ts| == |puntos|
  {
    seq(|puntos|, i requires 0 <= i < |puntos| => CoordText(puntos[i]))
  }

  /** The closed ring: the origin, the points in order, and the origin again. */
  function Ring(origin: Coord, puntos: seq<Coord>): seq<string> {
    [CoordText(origin)] + CoordTexts(puntos) + [CoordText(origin)]
  }

  /** The ring starts and ends at the origin and holds the points in between, in order. */
  lemma RingShape(origin: Coord, puntos: seq<Coord>)
    ensures var ring := Ring(origin, puntos);
      && |ring| == |puntos| + 2
      && ring[0] == CoordText(origin) == ring[|ring| - 1]
      && forall i :: 0 <= i < |puntos| ==> ring[i + 1] == CoordText(puntos[i])
  {
  }

  /**
   * The list `main` builds: the origin, each segment end point in order,
   * and the origin again to close the circuit.
   */
  method BuildCoordinates(origin: Coord, puntos: seq<Coord>) returns (coords: seq<string>)
    ensures coords == Ring(origin, puntos)
  {
    coords := [CoordText(origin)];
    for i := 0 to |puntos|
      invariant coords == [CoordText(origin)] + CoordTexts(puntos[..i])
    {
      assert CoordTexts(puntos[..i + 1]) == CoordTexts(puntos[..i]) + [CoordText(puntos[i])];
      coords := coords + [CoordText(puntos[i])];
    }
    assert puntos[..|puntos|] == puntos;
    coords := coords + [CoordText(origin)];
  }

  // ---------------------------------------------------------------------
  // The escribir_* writers
  // ---------------------------------------------------------------------

  /** The lines the writers put out, each followed by a newline in the file. */
  datatype KmlLine =
    | XmlDeclaration | KmlOpen | DocumentOpen | DocumentName(docName: string)
    | PlacemarkOpen | PlacemarkName(name: string)
    | PointOpen | PointCoordinates(lon: string, lat: string, alt: string) | PointClose
    | StyleOpen | LineStyleOpen | LineColor | LineWidth | LineStyleClose | StyleClose
    | LineStringOpen | Extrude | Tessellate | AltitudeMode
    | CoordinatesOpen | CoordinateLine(coord: string) | CoordinatesClose
    | LineStringClose | PlacemarkClose | DocumentClose | KmlClose

  /** The text of a line, without its newline. */
  function KmlText(l: KmlLine): string {
    match l
    case XmlDeclaration => "<?xml version=\"1.0\" encoding=\"UTF-8\"?>"
    case KmlOpen => "<kml xmlns=\"http://www.opengis.net/kml/2.2\">"
    case DocumentOpen => "  <Document>"
    case DocumentName(docName) => "    <name>" + docName + "</name>"
    case PlacemarkOpen => "    <Placemark>"
    case PlacemarkName(name) => "      <name>" + name + "</name>"
    case PointOpen => "      <Point>"
    case PointCoordinates(lon, lat, alt) => "        <coordinates>" + lon + "," + lat + "," + alt + "</coordinates>"
    case PointClose => "      </Point>"
    case StyleOpen => "      <Style>"
    case LineStyleOpen => "        <LineStyle>"
    case LineColor => "          <color>ff0000ff</color>"
    case LineWidth => "          <width>4</width>"
    case LineStyleClose => "        </LineStyle>"
    case StyleClose => "      </Style>"
    case LineStringOpen => "      <LineString>"
    case Extrude => "        <extrude>1</extrude>"
    case Tessellate => "        <tessellate>1</tessellate>"
    case AltitudeMode => "        <altitudeMode>relativeToGround</altitudeMode>"
    case CoordinatesOpen => "        <coordinates>"
    case CoordinateLine(coord) => "          " + coord
    case CoordinatesClose => "        </coordinates>"
    case LineStringClose => "      </LineString>"
    case PlacemarkClose => "    </Placemark>"
    case DocumentClose => "  </Document>"
    case KmlClose => "</kml>"
  }

  /** The texts of a run of lines. */
  function KmlTexts(ls: seq<KmlLine>): (ts: seq<string>)
    ensures |ts| == |ls|
  {
    Map(KmlText, ls)
  }

  lemma KmlTextsAppend(a: seq<KmlLine>, b: seq<KmlLine>)
    ensures KmlTexts(a + b) == KmlTexts(a) + KmlTexts(b)
  {
    MapAppend(KmlText, a, b);
  }

  /** `escribir_prologo_kml`. */
  function Prologue(docName: string): seq<KmlLine> {
    [XmlDeclaration, KmlOpen, DocumentOpen, DocumentName(docName)]
  }

  /** `escribir_placemark_origen`. */
  function OriginPlacemark(name: string, lon: string, lat: string, alt: string): seq<KmlLine> {
    [PlacemarkOpen, PlacemarkName(name), PointOpen, PointCoordinates(lon, lat, alt), PointClose, PlacemarkClose]
  }

  /** One line per coordinate tuple, in order. */
  function CoordinateLines(coords: seq<string>): seq<KmlLine> {
    if coords == [] then [] else CoordinateLines(coords[..|coords| - 1]) + [CoordinateLine(coords[|coords| - 1])]
  }

  /** The lines of `escribir_linea_circuito` before the coordinates. */
  function LineHeader(name: string): seq<KmlLine> {
    [ PlacemarkOpen, PlacemarkName(name), StyleOpen, LineStyleOpen, LineColor, LineWidth,
      LineStyleClose, StyleClose, LineStringOpen, Extrude, Tessellate, AltitudeMode, CoordinatesOpen ]
  }

  /** The lines of `escribir_linea_circuito` after the coordinates. */
  function LineFooter(): seq<KmlLine> {
    [CoordinatesClose, LineStringClose, PlacemarkClose]
  }

  /** `escribir_linea_circuito`. */
  function CircuitLine(coords: seq<string>, name: string): seq<KmlLine> {
    LineHeader(name) + CoordinateLines(coords) + LineFooter()
  }

  /** `escribir_epilogo_kml`. */
  function Epilogue(): seq<KmlLine> {
    [DocumentClose, KmlClose]
  }

  /** The placemark name of the origin. */
  const StartFinish: string := "Salida / Meta"

  /** The name `main` gives the document and the line: the stripped `nombre`, else "Circuito". */
  function CircuitName(doc: Document): string {
    if doc.name.Some? then Strip(doc.name.value) else "Circuito"
  }

  /** The whole file `main` writes. */
  function KmlDocument(name: string, origin: Coord, coords: seq<string>): seq<KmlLine> {
    Prologue(name) + OriginPlacemark(StartFinish, origin.lon, origin.lat, origin.alt)
      + CircuitLine(coords, name) + Epilogue()
  }

  // ---------------------------------------------------------------------
  // Nesting of the elements
  // ---------------------------------------------------------------------

  /** The elements the file opens and closes on lines of their own. */
  datatype Element = KmlRoot | DocumentElement | Placemark | PointElement | Style | LineStyle | LineString | Coordinates

  /** What a line does to the element nesting: opens an element, closes one, or neither. */
  datatype Tag = Open(element: Element) | Close(element: Element) | Leaf

  /** The element each line opens or closes; the other lines are complete elements or the declaration. */
  function TagOf(l: KmlLine): Tag {
    match l
    case KmlOpen => Open(KmlRoot)
    case DocumentOpen => Open(DocumentElement)
    case PlacemarkOpen => Open(Placemark)
    case PointOpen => Open(PointElement)
    case StyleOpen => Open(Style)
    case LineStyleOpen => Open(LineStyle)
    case LineStringOpen => Open(LineString)
    case CoordinatesOpen => Open(Coordinates)
    case PointClose => Close(PointElement)
    case LineStyleClose => Close(LineStyle)
    case StyleClose => Close(Style)
    case CoordinatesClose => Close(Coordinates)
    case LineStringClose => Close(LineString)
    case PlacemarkClose => Close(Placemark)
    case DocumentClose => Close(DocumentElement)
    case KmlClose => Close(KmlRoot)
    case _ => Leaf
  }

  /** The open elements after one line, innermost last; `None` when it closes an element that is not the innermost open one. */
  function Step(open: seq<Element>, l: KmlLine): Option<seq<Element>> {
    match TagOf(l)
    case Open(e) => Some(open + [e])
    case Close(e) => if open != [] && open[|open| - 1] == e then Some(open[..|open| - 1]) else None
    case Leaf => Some(open)
  }

  /** The open elements after the lines, starting from `open`; `None` once a line closes the wrong element. */
  function Nest(open: seq<Element>, ls: seq<KmlLine>): Option<seq<Element>>
    decreases |ls|
  {
    if ls == [] then Some(open)
    else
      match Nest(open, ls[..|ls| - 1])
      case None => None
      case Some(inner) => Step(inner, ls[|ls| - 1])
  }

  /** One more line takes one more step. */
  lemma NestSnoc(open: seq<Element>, ls: seq<KmlLine>, l: KmlLine)
    ensures Nest(open, ls + [l]) == if Nest(open, ls).None? then None else Step(Nest(open, ls).value, l)
  {
    assert (ls + [l])[..|ls|] == ls;
  }

  /** Nesting over two runs of lines is nesting over the first, then over the second. */
  lemma {:induction false} NestAppend(open: seq<Element>, a: seq<KmlLine>, b: seq<KmlLine>)
    ensures Nest(open, a + b) == if Nest(open, a).None? then None else Nest(Nest(open, a).value, b)
    decreases |b|
  {
    if b == [] {
      assert a + b == a;
    } else {
      var init := b[..|b| - 1];
      assert a + b == (a + init) + [b[|b| - 1]];
      NestSnoc(open, a + init, b[|b| - 1]);
      NestAppend(open, a, init);
    }
  }

  /** The coordinate lines neither open nor close an element. */
  lemma {:induction false} CoordinateLinesFlat(open: seq<Element>, coords: seq<string>)
    ensures Nest(open, CoordinateLines(coords)) == Some(open)
    decreases |coords|
  {
    if coords != [] {
      var init := coords[..|coords| - 1];
      CoordinateLinesFlat(open, init);
      NestSnoc(open, CoordinateLines(init), CoordinateLine(coords[|coords| - 1]));
    }
  }

  /**
   * Nesting by a trace: when each line takes the stack before it to the one
   * after it, the run takes the first stack to the last.
   */
  lemma {:induction false} NestTrace(open: seq<Element>, ls: seq<KmlLine>, stacks: seq<seq<Element>>)
    requires |stacks| == |ls| + 1 && stacks[0] == open
    requires forall i :: 0 <= i < |ls| ==> Step(stacks[i], ls[i]) == Some(stacks[i + 1])
    ensures Nest(open, ls) == Some(stacks[|ls|])
    decreases |ls|
  {
    if ls != [] {
      var n := |ls| - 1;
      NestTrace(open, ls[..n], stacks[..n + 1]);
      assert ls == ls[..n] + [ls[n]];
      NestSnoc(open, ls[..n], ls[n]);
    }
  }

  /** The prologue opens `kml`, then `Document`. */
  lemma PrologueOpens(docName: string)
    ensures Nest([], Prologue(docName)) == Some([KmlRoot, DocumentElement])
  {
    var none: seq<Element> := [];
    var k := none + [KmlRoot];
    var kd := k + [DocumentElement];
    assert kd == [KmlRoot, DocumentElement];
    NestTrace(none, Prologue(docName), [none, none, k, kd, kd]);
  }

  /** The epilogue closes `Document`, then `kml`. */
  lemma EpilogueCloses()
    ensures Nest([KmlRoot, DocumentElement], Epilogue()) == Some([])
  {
    var kd := [KmlRoot, DocumentElement];
    var k := kd[..1];
    assert k == [KmlRoot] && k[..0] == [];
    NestTrace(kd, Epilogue(), [kd, k, []]);
  }

  /** The prologue and the epilogue together open and close `kml` and `Document` in balanced order. */
  lemma PrologueEpilogueBalanced(docName: string)
    ensures Nest([], Prologue(docName) + Epilogue()) == Some([])
  {
    PrologueOpens(docName);
    EpilogueCloses();
    NestAppend([], Prologue(docName), Epilogue());
  }

  /** The origin's placemark closes every element it opens. */
  lemma OriginPlacemarkBalanced(open: seq<Element>, name: string, lon: string, lat: string, alt: string)
    ensures Nest(open, OriginPlacemark(name, lon, lat, alt)) == Some(open)
  {
    var p := open + [Placemark];
    var q := p + [PointElement];
    assert q[|q| - 1] == PointElement && q[..|q| - 1] == p;
    assert p[|p| - 1] == Placemark && p[..|p| - 1] == open;
    NestTrace(open, OriginPlacemark(name, lon, lat, alt), [open, p, p, q, q, p, open]);
  }

  /** The lines before the coordinates leave `Placemark`, `LineString` and `coordinates` open. */
  lemma LineHeaderOpens(open: seq<Element>, name: string)
    ensures Nest(open, LineHeader(name)) == Some(open + [Placemark, LineString, Coordinates])
  {
    var p := open + [Placemark];
    var s := p + [Style];
    var t := s + [LineStyle];
    var u := p + [LineString];
    var v := u + [Coordinates];
    assert v == open + [Placemark, LineString, Coordinates];
    assert t[|t| - 1] == LineStyle && t[..|t| - 1] == s;
    assert s[|s| - 1] == Style && s[..|s| - 1] == p;
    NestTrace(open, LineHeader(name), [open, p, p, s, t, t, t, s, p, u, u, u, u, v]);
  }

  /** The lines after the coordinates close `coordinates`, `LineString` and `Placemark`. */
  lemma LineFooterCloses(open: seq<Element>)
    ensures Nest(open + [Placemark, LineString, Coordinates], LineFooter()) == Some(open)
  {
    var p := open + [Placemark];
    var u := p + [LineString];
    var v := u + [Coordinates];
    assert v == open + [Placemark, LineString, Coordinates];
    assert v[|v| - 1] == Coordinates && v[..|v| - 1] == u;
    assert u[|u| - 1] == LineString && u[..|u| - 1] == p;
    assert p[|p| - 1] == Placemark && p[..|p| - 1] == open;
    NestTrace(v, LineFooter(), [v, u, p, open]);
  }

  /** The circuit's placemark closes every element it opens, whatever the coordinates. */
  lemma CircuitLineBalanced(open: seq<Element>, coords: seq<string>, name: string)
    ensures Nest(open, CircuitLine(coords, name)) == Some(open)
  {
    var inner := open + [Placemark, LineString, Coordinates];
    LineHeaderOpens(open, name);
    CoordinateLinesFlat(inner, coords);
    NestAppend(open, LineHeader(name), CoordinateLines(coords));
    LineFooterCloses(open);
    NestAppend(open, LineHeader(name) + CoordinateLines(coords), LineFooter());
  }

  /** The whole file is well nested: every element it opens it closes, innermost first. */
  lemma KmlDocumentBalanced(name: string, origin: Coord, coords: seq<string>)
    ensures Nest([], KmlDocument(name, origin, coords)) == Some([])
  {
    var top := [KmlRoot, DocumentElement];
    var pro := Prologue(name);
    var pm := OriginPlacemark(StartFinish, origin.lon, origin.lat, origin.alt);
    var line := CircuitLine(coords, name);
    PrologueOpens(name);
    OriginPlacemarkBalanced(top, StartFinish, origin.lon, origin.lat, origin.alt);
    NestAppend([], pro, pm);
    CircuitLineBalanced(top, coords, name);
    NestAppend([], pro + pm, line);
    EpilogueCloses();
    NestAppend([], pro + pm + line, Epilogue());
  }

  /** One line per coordinate, in order, right after the `<coordinates>` line and before its closing line. */
  lemma {:induction false} CircuitLineCoordinates(coords: seq<string>, name: string)
    ensures var ls := CircuitLine(coords, name);
      && |ls| == |coords| + 16
      && ls[12] == CoordinatesOpen && ls[|coords| + 13] == CoordinatesClose
      && forall i :: 0 <= i < |coords| ==> ls[13 + i] == CoordinateLine(coords[i])
  {
    CoordinateLinesAt(coords);
    var ls := CircuitLine(coords, name);
    var h := LineHeader(name);
    assert |h| == 13 && h[12] == CoordinatesOpen;
    assert ls == h + CoordinateLines(coords) + LineFooter();
    assert ls[13..13 + |coords|] == CoordinateLines(coords);
  }

  lemma {:induction false} CoordinateLinesAt(coords: seq<string>)
    ensures |CoordinateLines(coords)| == |coords|
    ensures forall i :: 0 <= i < |coords| ==> CoordinateLines(coords)[i] == CoordinateLine(coords[i])
    decreases |coords|
  {
    if coords != [] {
      CoordinateLinesAt(coords[..|coords| - 1]);
    }
  }

  // ---------------------------------------------------------------------
  // The writers, line by line
  // ---------------------------------------------------------------------

  /** The open output file: the lines written to it so far. */
  class KmlFile {
    var lines: seq<string>

    constructor()
      ensures lines == []
    {
      lines := [];
    }

    /** `f.write(line + "\n")`. */
    method Write(line: string)
      modifies this
      ensures lines == old(lines) + [line]
    {
      lines := lines + [line];
    }
  }

  lemma KmlTextsSnoc(ls: seq<KmlLine>, i: nat)
    requires i < |ls|
    ensures KmlTexts(ls[..i + 1]) == KmlTexts(ls[..i]) + [KmlText(ls[i])]
  {
    assert ls[..i + 1] == ls[..i] + [ls[i]];
    KmlTextsAppend(ls[..i], [ls[i]]);
  }

  /** Writes a run of lines, one `write` each. */
  method WriteLines(f: KmlFile, ls: seq<KmlLine>)
    modifies f
    ensures f.lines == old(f.lines) + KmlTexts(ls)
  {
    ghost var start := f.lines;
    for i := 0 to |ls|
      invariant f.lines == start + KmlTexts(ls[..i])
    {
      f.Write(KmlText(ls[i]));
      KmlTextsSnoc(ls, i);
    }
    assert ls[..|ls|] == ls;
  }

  method EscribirPrologoKml(f: KmlFile, nombreDoc: string)
    modifies f
    ensures f.lines == old(f.lines) + KmlTexts(Prologue(nombreDoc))
  {
    WriteLines(f, Prologue(nombreDoc));
  }

  method EscribirPlacemarkOrigen(f: KmlFile, nombre: string, lon: string, lat: string, alt: string)
    modifies f
    ensures f.lines == old(f.lines) + KmlTexts(OriginPlacemark(nombre, lon, lat, alt))
  {
    WriteLines(f, OriginPlacemark(nombre, lon, lat, alt));
  }

  /** The header, one line per coordinate tuple (the loop), then the footer. */
  method EscribirLineaCircuito(f: KmlFile, listaCoord: seq<string>, nombre: string)
    modifies f
    ensures f.lines == old(f.lines) + KmlTexts(CircuitLine(listaCoord, nombre))
  {
    ghost var start := f.lines;
    WriteLines(f, LineHeader(nombre));
    for i := 0 to |listaCoord|
      invariant f.lines == start + KmlTexts(LineHeader(nombre) + CoordinateLines(listaCoord[..i]))
    {
      WriteLines(f, [CoordinateLine(listaCoord[i])]);
      assert listaCoord[..i + 1][..i] == listaCoord[..i];
      KmlTextsAppend(LineHeader(nombre) + CoordinateLines(listaCoord[..i]), [CoordinateLine(listaCoord[i])]);
      AppendAssoc(LineHeader(nombre), CoordinateLines(listaCoord[..i]), [CoordinateLine(listaCoord[i])]);
    }
    assert listaCoord[..|listaCoord|] == listaCoord;
    WriteLines(f, LineFooter());
    KmlTextsAppend(LineHeader(nombre) + CoordinateLines(listaCoord), LineFooter());
  }

  method EscribirEpilogoKml(f: KmlFile)
    modifies f
    ensures f.lines == old(f.lines) + KmlTexts(Epilogue())
  {
    WriteLines(f, Epilogue());
  }

  /**
   * `main` after reading the document: the error `obtener_punto_origen`
   * raises, or the lines of the file, whose coordinate list is the closed
   * ring origin, segment end points, origin.
   */
  method GenerarKml(doc: Document) returns (r: Result<seq<string>, string>)
    ensures r.Failure? <==> ObtenerPuntoOrigen(doc).Failure?
    ensures r.Failure? ==> r.error == ObtenerPuntoOrigen(doc).error
    ensures r.Success? ==> r.value == KmlTexts(KmlDocument(CircuitName(doc), ObtenerPuntoOrigen(doc).value,
                                                           Ring(ObtenerPuntoOrigen(doc).value, Tramos(doc.segments))))
  {
    var nombre := CircuitName(doc);
    var origen := ObtenerPuntoOrigen(doc);
    if origen.Failure? {
      return Failure(origen.error);
    }
    var o := origen.value;
    var puntos := ObtenerTramos(doc);
    var coords := BuildCoordinates(o, puntos);
    var f := new KmlFile();
    EscribirPrologoKml(f, nombre);
    EscribirPlacemarkOrigen(f, StartFinish, o.lon, o.lat, o.alt);
    EscribirLineaCircuito(f, coords, nombre);
    EscribirEpilogoKml(f);
    KmlFileTexts(nombre, o, coords);
    r := Success(f.lines);
  }

  /** The texts of the file, writer by writer. */
  lemma KmlFileTexts(name: string, origin: Coord, coords: seq<string>)
    ensures KmlTexts(KmlDocument(name, origin, coords))
         == KmlTexts(Prologue(name)) + KmlTexts(OriginPlacemark(StartFinish, origin.lon, origin.lat, origin.alt))
          + KmlTexts(CircuitLine(coords, name)) + KmlTexts(Epilogue())
  {
    var pro := Prologue(name);
    var pm := OriginPlacemark(StartFinish, origin.lon, origin.lat, origin.alt);
    var line := CircuitLine(coords, name);
    KmlTextsAppend(pro, pm);
    KmlTextsAppend(pro + pm, line);
    KmlTextsAppend(pro + pm + line, Epilogue());
  }
}
