/**
 * `xml/xml2html.py`: the page `InfoCircuito.html` built line by line from
 * the circuit document. `_iso8601_to_mm_ss` converts the winner's total time,
 * `HtmlBuilder` collects the lines, and `generar_html` decides which
 * sections the page has.
 */
module InfoHtml {
  import opened Wrappers
  import opened Strings
  import opened Seqs
  import opened Circuit

  // ---------------------------------------------------------------------
  // _iso8601_to_mm_ss
  // ---------------------------------------------------------------------

  /** `\d+(?:\.\d+)?`: digits, optionally followed by a point and more digits. */
  predicate IsDecimal(b: string) {
    var j := LeadingDigits(b);
    0 < j && (j == |b| || (b[j] == '.' && j + 1 < |b| && AllDigits(b[j + 1..])))
  }

  /** The two optional groups of `PT(?:(\d+)M)?(?:(\d+(?:\.\d+)?)S)?`. */
  datatype Duration = Duration(minutes: Option<string>, seconds: Option<string>)

  /** The group texts the pattern can capture. */
  predicate ValidDuration(d: Duration) {
    && (d.minutes.Some? ==> d.minutes.value != "" && AllDigits(d.minutes.value))
    && (d.seconds.Some? ==> IsDecimal(d.seconds.value))
  }

  /** The duration written in the ISO 8601 format with designators, hours left out. */
  function Designators(d: Duration): string {
    "PT"
      + (if d.minutes.Some? then d.minutes.value + "M" else "")
      + (if d.seconds.Some? then d.seconds.value + "S" else "")
  }

  /**
   * `(?:(\d+)M)?` at the start of `r`: the minutes and what follows them. A
   * digit run followed by `M` can only be the minutes, so no backtracking is
   * needed. Writing the minutes back in front of the rest gives `r`.
   */
  function SplitMinutes(r: string): (split: (Option<string>, string))
    ensures split.0.Some? ==> split.0.value != "" && AllDigits(split.0.value)
    ensures r == (if split.0.Some? then split.0.value + "M" else "") + split.1
  {
    var i := LeadingDigits(r);
    if 0 < i < |r| && r[i] == 'M' then
      assert r == r[..i] + "M" + r[i + 1..];
      (Some(r[..i]), r[i + 1..])
    else (None, r)
  }

  /**
   * `(?:(\d+(?:\.\d+)?)S)?` as the whole of `rest`: `Some` of the seconds
   * group when it matches, and then writing the group back gives `rest`.
   */
  function MatchSeconds(rest: string): (m: Option<Option<string>>)
    ensures m.Some? && m.value.Some? ==> IsDecimal(m.value.value)
    ensures m.Some? ==> rest == (if m.value.Some? then m.value.value + "S" else "")
  {
    if rest == [] then Some(None)
    else if rest[|rest| - 1] == 'S' && IsDecimal(rest[..|rest| - 1]) then
      assert rest == rest[..|rest| - 1] + "S";
      Some(Some(rest[..|rest| - 1]))
    else None
  }

  /** `re.fullmatch` of the duration pattern: the captured groups, or `None` when the whole text does not match. */
  function ParseDuration(text: string): Option<Duration> {
    if |text| < 2 || text[..2] != "PT" then None
    else
      var (minutes, rest) := SplitMinutes(text[2..]);
      match MatchSeconds(rest)
      case None => None
      case Some(seconds) => Some(Duration(minutes, seconds))
  }

  /** Digits followed by `M` are the minutes group. */
  lemma SplitMinutesGiven(m: string, rest: string)
    requires m != "" && AllDigits(m)
    ensures SplitMinutes(m + "M" + rest) == (Some(m), rest)
  {
    var r := m + "M" + rest;
    assert r == m + ("M" + rest);
    LeadingDigitsOfAppend(m, "M" + rest);
    assert r[|m|] == 'M' && r[..|m|] == m && r[|m| + 1..] == rest;
  }

  /** A seconds part alone has no minutes group. */
  lemma SplitMinutesAbsent(s: string)
    requires IsDecimal(s)
    ensures SplitMinutes(s + "S") == (None, s + "S")
  {
    var j := LeadingDigits(s);
    assert s + "S" == s[..j] + (s[j..] + "S");
    LeadingDigitsOfAppend(s[..j], s[j..] + "S");
  }

  /** The minutes group is found in front of a seconds part or of nothing. */
  lemma SplitMinutesOf(d: Duration)
    requires ValidDuration(d)
    ensures var secs := if d.seconds.Some? then d.seconds.value + "S" else "";
      SplitMinutes((if d.minutes.Some? then d.minutes.value + "M" else "") + secs) == (d.minutes, secs)
  {
    var secs := if d.seconds.Some? then d.seconds.value + "S" else "";
    if d.minutes.Some? {
      SplitMinutesGiven(d.minutes.value, secs);
    } else if d.seconds.Some? {
      SplitMinutesAbsent(d.seconds.value);
      assert "" + secs == secs;
    }
  }

  /** Every duration the pattern describes is matched, with the same groups. */
  lemma DurationRoundTrip(d: Duration)
    requires ValidDuration(d)
    ensures ParseDuration(Designators(d)) == Some(d)
  {
    var mins := if d.minutes.Some? then d.minutes.value + "M" else "";
    var secs := if d.seconds.Some? then d.seconds.value + "S" else "";
    var text := Designators(d);
    assert text == "PT" + (mins + secs);
    assert text[..2] == "PT" && text[2..] == mins + secs;
    SplitMinutesOf(d);
    if d.seconds.Some? {
      assert secs[..|secs| - 1] == d.seconds.value;
    }
  }

  /** Whatever the pattern matches is a duration it describes, written back exactly. */
  lemma ParseSound(text: string)
    ensures ParseDuration(text).Some? ==>
      ValidDuration(ParseDuration(text).value) && Designators(ParseDuration(text).value) == text
  {
    if ParseDuration(text).Some? {
      var d := ParseDuration(text).value;
      var split := SplitMinutes(text[2..]);
      assert d == Duration(split.0, MatchSeconds(split.1).value);
      var mins := if d.minutes.Some? then d.minutes.value + "M" else "";
      var secs := if d.seconds.Some? then d.seconds.value + "S" else "";
      assert text[..2] == "PT" && text == text[..2] + text[2..];
      AppendAssoc("PT", mins, secs);
    }
  }

  /** `f"{minutos} min {segundos} s"`, a missing group read as "0". */
  function MinSec(d: Duration): string {
    d.minutes.GetOr("0") + " min " + d.seconds.GetOr("0") + " s"
  }

  /**
   * `_iso8601_to_mm_ss`: "" for empty text, the minutes and seconds for a
   * matching duration, the text itself otherwise. The result is empty only
   * for empty text.
   */
  function Iso8601ToMmSs(text: string): (r: string)
    ensures r == "" <==> text == ""
  {
    if text == "" then ""
    else
      match ParseDuration(text)
      case None => text
      case Some(d) => MinSec(d)
  }

  /** A duration in the format with designators reads as its minutes and seconds. */
  lemma MmSsOfDuration(d: Duration)
    requires ValidDuration(d)
    ensures Iso8601ToMmSs(Designators(d)) == MinSec(d)
  {
    DurationRoundTrip(d);
  }

  /** Text that is no such duration is returned unchanged. */
  lemma MmSsUnmatched(text: string)
    requires forall d :: ValidDuration(d) ==> Designators(d) != text
    ensures Iso8601ToMmSs(text) == text
  {
    ParseSound(text);
  }

  /** A duration with neither part, "PT", reads as zero minutes and zero seconds. */
  lemma MmSsOfEmptyDuration()
    ensures Iso8601ToMmSs("PT") == "0 min 0 s"
  {
    MmSsOfDuration(Duration(None, None));
  }

  // ---------------------------------------------------------------------
  // HtmlBuilder
  // ---------------------------------------------------------------------

  /** The line buffer of the page. */
  class HtmlBuilder {
    var parts: seq<string>

    constructor()
      ensures parts == []
    {
      parts := [];
    }

    /** `add(line)`: one more line at the end. */
    method Add(line: string)
      modifies this
      ensures parts == old(parts) + [line]
    {
      parts := parts + [line];
    }

    /** `render()`: the lines joined with newlines; it starts with the first line and ends with the last. */
    function Render(): (page: string)
      reads this
      ensures parts != [] ==> parts[0] <= page && EndsWith(page, parts[|parts| - 1])
      ensures parts == [] ==> page == ""
    {
      if parts != [] then
        JoinStartsWith(parts, "\n");
        JoinEndsWith(parts, "\n");
        Join(parts, "\n")
      else Join(parts, "\n")
    }
  }

  /** Splitting the rendered page at newlines gives back the lines, when none holds a newline. */
  lemma RenderSplit(h: HtmlBuilder)
    requires |h.parts| >= 1 && forall k :: 0 <= k < |h.parts| ==> '\n' !in h.parts[k]
    ensures Split(h.Render(), '\n') == h.parts
  {
    SplitJoin(h.parts, '\n');
  }

  // ---------------------------------------------------------------------
  // generar_html: the lines of the page
  // ---------------------------------------------------------------------

  /**
   * The kinds of line `generar_html` adds: the fixed lines, and the lines
   * that carry text from the document (with that text).
   */
  datatype Line =
    | DocType | HtmlOpen | HeadOpen | MetaCharset | MetaAuthor | MetaDescription | MetaKeywords
    | MetaViewport | TitleLine | IconLink | StyleLink | HeadClose | BodyOpen | MainOpen | SectionOpen
    | NameLine(name: string)
    | PlaceLine(town: string, country: string, length: string, width: string, sponsor: string)
    | RaceLine(date: string, time: string, laps: string)
    | GalleryHeading | FigureOpen | ImageLine(file: string, alt: string) | CaptionLine(caption: string) | FigureClose
    | VideoHeading | VideoOpen | SourceLine(src: string) | VideoFallback | VideoClose | VideoTitle(videoTitle: string)
    | WinnerHeading | WinnerLine(winner: string, totalTime: string)
    | ReferencesHeading | ListOpen | Item(url: string) | ListClose
    | SectionClose | MainClose | BodyClose | HtmlClose

  /** The text of a line, as `generar_html` writes it. */
  function LineText(l: Line): string {
    match l
    case DocType => "<!DOCTYPE html>"
    case HtmlOpen => "<html lang=\"es\">"
    case HeadOpen => "  <head>"
    case MetaCharset => "    <meta charset=\"UTF-8\" />"
    case MetaAuthor => "    <meta name=\"author\" content=\"Juan Fernández López\" />"
    case MetaDescription => "    <meta name=\"description\" content=\"Información del circuito del mundial MotoGP\" />"
    case MetaKeywords => "    <meta name=\"keywords\" content=\"MotoGP, circuito, carreras, Argentina\" />"
    case MetaViewport => "    <meta name=\"viewport\" content=\"width=device-width, initial-scale=1.0\" />"
    case TitleLine => "    <title>MotoGP - Circuito</title>"
    case IconLink => "    <link href=\"/multimedia/favicon.ico\" rel=\"icon\" />"
    case StyleLink => "    <link rel=\"stylesheet\" type=\"text/css\" href=\"css/estilo.css\" />"
    case HeadClose => "  </head>"
    case BodyOpen => "  <body>"
    case MainOpen => "    <main>"
    case SectionOpen => "      <section>"
    case NameLine(name) => "        <h2>" + name + "</h2>"
    case PlaceLine(town, country, length, width, sponsor) =>
      "        <p>Ubicado en " + town + " (" + country
        + "), este circuito cuenta con una longitud total de " + length
        + " metros y una anchura media de " + width
        + " metros. El patrocinador principal es " + sponsor + ".</p>"
    case RaceLine(date, time, laps) =>
      "        <p>La carrera del mundial MotoGP se disputará el día " + date
        + " a las " + time + ", con un total de " + laps + " vueltas al trazado.</p>"
    case GalleryHeading => "        <h3>Galería de imágenes</h3>"
    case FigureOpen => "        <figure>"
    case ImageLine(file, alt) => "          <img src=\"" + file + "\" alt=\"" + alt + "\" />"
    case CaptionLine(caption) => "          <figcaption>" + caption + "</figcaption>"
    case FigureClose => "        </figure>"
    case VideoHeading => "        <h3>Vídeos destacados</h3>"
    case VideoOpen => "        <video controls preload=\"auto\">"
    case SourceLine(src) => "          <source src=\"" + src + "\" type=\"video/mp4\" />"
    case VideoFallback => "          <p>Tu navegador no soporta el elemento video.</p>"
    case VideoClose => "        </video>"
    case VideoTitle(videoTitle) => "        <p>" + videoTitle + "</p>"
    case WinnerHeading => "        <h3>Último vencedor</h3>"
    case WinnerLine(winner, totalTime) =>
      "        <p>El último ganador fue <strong>" + winner + "</strong> con un tiempo total de " + totalTime + ".</p>"
    case ReferencesHeading => "        <h3>Fuentes de información</h3>"
    case ListOpen => "        <ul>"
    case Item(url) => "          <li><a href=\"" + url + "\" hreflang=\"es\" rel=\"noopener noreferrer\">" + url + "</a></li>"
    case ListClose => "        </ul>"
    case SectionClose => "      </section>"
    case MainClose => "    </main>"
    case BodyClose => "  </body>"
    case HtmlClose => "</html>"
  }

  /** The texts of a run of lines. */
  function Texts(ls: seq<Line>): (ts: seq<string>)
    ensures |ts| == |ls|
  {
    Map(LineText, ls)
  }

  /** The texts of two runs of lines are the texts of the first, then those of the second. */
  lemma TextsAppend(a: seq<Line>, b: seq<Line>)
    ensures Texts(a + b) == Texts(a) + Texts(b)
  {
    MapAppend(LineText, a, b);
  }

  /** Extending a run of lines by one adds that line's text. */
  lemma TextsSnoc(ls: seq<Line>, i: nat)
    requires i < |ls|
    ensures Texts(ls[..i + 1]) == Texts(ls[..i]) + [LineText(ls[i])]
  {
    assert ls[..i + 1] == ls[..i] + [ls[i]];
    TextsAppend(ls[..i], [ls[i]]);
  }

  /** `root.findtext(...) or ""`. */
  function TextOf(o: Option<string>): string {
    o.GetOr("")
  }

  /** The document head, up to the opening of the section. */
  function Head(): seq<Line> {
    [ DocType, HtmlOpen, HeadOpen, MetaCharset, MetaAuthor, MetaDescription, MetaKeywords,
      MetaViewport, TitleLine, IconLink, StyleLink, HeadClose, BodyOpen, MainOpen, SectionOpen ]
  }

  /** The name heading and the two paragraphs about the circuit and the race. */
  function Intro(doc: Document): seq<Line> {
    [ NameLine(TextOf(doc.name)),
      PlaceLine(TextOf(doc.town), TextOf(doc.country), TextOf(doc.length), TextOf(doc.width), TextOf(doc.sponsor)),
      RaceLine(TextOf(doc.raceDate), TextOf(doc.startTime), TextOf(doc.laps)) ]
  }

  /** A photo's `archivo` and `titulo` attributes, the title "Imagen" when it has none. */
  function PhotoOf(m: Media): (string, string) {
    (m.file.GetOr(""), m.title.GetOr("Imagen"))
  }

  /** The `fotos` list: one pair per `foto` element, in document order. */
  function PhotoList(photos: seq<Media>): seq<(string, string)> {
    seq(|photos|, i requires 0 <= i < |photos| => PhotoOf(photos[i]))
  }

  /** The four lines of one photo. */
  function Figure(photo: (string, string)): seq<Line> {
    [FigureOpen, ImageLine(photo.0, photo.1), CaptionLine(photo.1), FigureClose]
  }

  /** The figures of the photos, in order. */
  function Figures(photos: seq<(string, string)>): seq<Line> {
    if photos == [] then [] else Figures(photos[..|photos| - 1]) + Figure(photos[|photos| - 1])
  }

  /** The gallery: nothing without photos, else the heading and the figures. */
  function Gallery(photos: seq<(string, string)>): seq<Line> {
    if photos == [] then [] else [GalleryHeading] + Figures(photos)
  }

  /** The first video's `archivo` and `titulo`, the title "Vídeo" when it has none; empty without videos. */
  function FirstVideo(videos: seq<Media>): (string, string) {
    if videos == [] then ("", "") else (videos[0].file.GetOr(""), videos[0].title.GetOr("Vídeo"))
  }

  /** The video section: nothing when the source is empty; the type is always mp4. */
  function VideoSection(video: (string, string)): seq<Line> {
    if video.0 == "" then []
    else [VideoHeading, VideoOpen, SourceLine(video.0), VideoFallback, VideoClose, VideoTitle(video.1)]
  }

  /** The winner section: only with both a winner and a converted time. */
  function WinnerSection(winner: string, time: string): seq<Line> {
    if winner != "" && time != "" then [WinnerHeading, WinnerLine(winner, time)] else []
  }

  /** `refs`: the stripped text of each `ref` whose text is not blank, in order. */
  function Refs(rs: seq<Option<string>>): seq<string> {
    if rs == [] then []
    else
      var r := rs[|rs| - 1];
      Refs(rs[..|rs| - 1]) + (if r.Some? && Strip(r.value) != "" then [Strip(r.value)] else [])
  }

  /** The list items of the references, in order. */
  function Items(refs: seq<string>): seq<Line> {
    if refs == [] then [] else Items(refs[..|refs| - 1]) + [Item(refs[|refs| - 1])]
  }

  /** The references section: nothing without references. */
  function ReferencesSection(refs: seq<string>): seq<Line> {
    if refs == [] then [] else [ReferencesHeading, ListOpen] + Items(refs) + [ListClose]
  }

  /** The closing tags. */
  function Closing(): seq<Line> {
    [SectionClose, MainClose, BodyClose, HtmlClose]
  }

  /** The optional sections, in the order the page has them. */
  function Sections(doc: Document): seq<Line> {
    Gallery(PhotoList(doc.photos))
      + VideoSection(FirstVideo(doc.videos))
      + WinnerSection(TextOf(doc.winner), Iso8601ToMmSs(TextOf(doc.winnerTime)))
      + ReferencesSection(Refs(doc.references))
  }

  /** The lines of `InfoCircuito.html`. */
  function Page(doc: Document): seq<Line> {
    Head() + Intro(doc) + Sections(doc) + Closing()
  }

  // ---------------------------------------------------------------------
  // What the page holds
  // ---------------------------------------------------------------------

  /**
   * The optional sections start after the 15 head lines and the 3 intro
   * lines; the page starts with the doctype and ends with the four closing
   * tags.
   */
  lemma PageSections(doc: Document)
    ensures |Page(doc)| == 22 + |Sections(doc)|
    ensures Page(doc)[0] == DocType
    ensures Page(doc)[18..18 + |Sections(doc)|] == Sections(doc)
    ensures Page(doc)[18 + |Sections(doc)|..] == [SectionClose, MainClose, BodyClose, HtmlClose]
  {
  }

  /** Four lines per photo. */
  lemma {:induction false} FiguresLength(photos: seq<(string, string)>)
    ensures |Figures(photos)| == 4 * |photos|
    decreases |photos|
  {
    if photos != [] {
      FiguresLength(photos[..|photos| - 1]);
    }
  }

  /** Extending the photos by one appends that photo's figure. */
  lemma FiguresSnoc(photos: seq<(string, string)>, i: nat)
    requires i < |photos|
    ensures Figures(photos[..i + 1]) == Figures(photos[..i]) + Figure(photos[i])
  {
    assert photos[..i + 1][..i] == photos[..i];
  }

  /**
   * Photo `i` fills lines `4i .. 4i+3` of the figures, in document order:
   * its image and its caption, titled "Imagen" when the photo has no title.
   */
  lemma {:induction false} FiguresAt(photos: seq<Media>, i: nat)
    requires i < |photos|
    ensures |Figures(PhotoList(photos))| == 4 * |photos|
    ensures Figures(PhotoList(photos))[4 * i..4 * i + 4]
         == Figure((photos[i].file.GetOr(""), photos[i].title.GetOr("Imagen")))
    decreases |photos|
  {
    var ps := PhotoList(photos);
    FiguresLength(ps);
    var n := |photos| - 1;
    assert ps[..n] == PhotoList(photos[..n]);
    if i < n {
      FiguresAt(photos[..n], i);
    }
    FiguresLength(ps[..n]);
  }

  /** The gallery heading opens the optional sections exactly when there is a photo. */
  lemma GalleryIff(doc: Document)
    ensures Page(doc)[18] == GalleryHeading <==> doc.photos != []
  {
    PageSections(doc);
    var rest := VideoSection(FirstVideo(doc.videos))
      + WinnerSection(TextOf(doc.winner), Iso8601ToMmSs(TextOf(doc.winnerTime)))
      + ReferencesSection(Refs(doc.references));
    assert rest != [] ==> rest[0] != GalleryHeading;
  }

  /** The video section appears exactly when the first video has a non-empty `archivo`. */
  lemma VideoIff(videos: seq<Media>)
    ensures VideoSection(FirstVideo(videos)) != [] <==> videos != [] && videos[0].file.GetOr("") != ""
  {
  }

  /** Only the first video is used: dropping the others leaves the page unchanged. */
  lemma OnlyFirstVideo(doc: Document)
    requires doc.videos != []
    ensures Page(doc.(videos := doc.videos[..1])) == Page(doc)
  {
    assert FirstVideo(doc.videos[..1]) == FirstVideo(doc.videos);
  }

  /** The winner section appears exactly when both the winner and the total time have text. */
  lemma WinnerIff(doc: Document)
    ensures WinnerSection(TextOf(doc.winner), Iso8601ToMmSs(TextOf(doc.winnerTime))) != []
        <==> TextOf(doc.winner) != "" && TextOf(doc.winnerTime) != ""
  {
  }

  /** Every reference is stripped and not blank, and there is at most one per `ref`. */
  lemma {:induction false} RefsStripped(rs: seq<Option<string>>)
    ensures |Refs(rs)| <= |rs|
    ensures forall k :: 0 <= k < |Refs(rs)| ==> Refs(rs)[k] != "" && Strip(Refs(rs)[k]) == Refs(rs)[k]
    decreases |rs|
  {
    if rs != [] {
      RefsStripped(rs[..|rs| - 1]);
      var r := rs[|rs| - 1];
      if r.Some? {
        StripIdempotent(r.value);
      }
    }
  }

  /** The references keep document order: those of two runs of `ref` follow each other. */
  lemma {:induction false} RefsAppend(a: seq<Option<string>>, b: seq<Option<string>>)
    ensures Refs(a + b) == Refs(a) + Refs(b)
    decreases |b|
  {
    if b != [] {
      assert (a + b)[..|a + b| - 1] == a + b[..|b| - 1];
      RefsAppend(a, b[..|b| - 1]);
    } else {
      assert a + b == a;
    }
  }

  /** One list item per reference, in order. */
  lemma {:induction false} ItemsAt(refs: seq<string>)
    ensures |Items(refs)| == |refs|
    ensures forall k :: 0 <= k < |refs| ==> Items(refs)[k] == Item(refs[k])
    decreases |refs|
  {
    if refs != [] {
      ItemsAt(refs[..|refs| - 1]);
    }
  }

  // ---------------------------------------------------------------------
  // generar_html: the builder calls
  // ---------------------------------------------------------------------

  /** Adds a run of lines, one `add` each. */
  method AddLines(h: HtmlBuilder, ls: seq<Line>)
    modifies h
    ensures h.parts == old(h.parts) + Texts(ls)
  {
    ghost var start := h.parts;
    for i := 0 to |ls|
      invariant h.parts == start + Texts(ls[..i])
    {
      h.Add(LineText(ls[i]));
      TextsSnoc(ls, i);
    }
    assert ls[..|ls|] == ls;
  }

  /** The gallery: the heading, then four `add`s per photo. */
  method AddGallery(h: HtmlBuilder, photos: seq<(string, string)>)
    modifies h
    ensures h.parts == old(h.parts) + Texts(Gallery(photos))
  {
    if photos != [] {
      ghost var start := h.parts;
      AddLines(h, [GalleryHeading]);
      for i := 0 to |photos|
        invariant h.parts == start + Texts([GalleryHeading] + Figures(photos[..i]))
      {
        var archivo, titulo := photos[i].0, photos[i].1;
        AddLines(h, [FigureOpen, ImageLine(archivo, titulo), CaptionLine(titulo), FigureClose]);
        FiguresSnoc(photos, i);
        TextsAppend([GalleryHeading] + Figures(photos[..i]), Figure(photos[i]));
        AppendAssoc([GalleryHeading], Figures(photos[..i]), Figure(photos[i]));
      }
      assert photos[..|photos|] == photos;
    }
  }

  /** The references: heading, list opening, one item per reference, list closing. */
  method AddReferences(h: HtmlBuilder, refs: seq<string>)
    modifies h
    ensures h.parts == old(h.parts) + Texts(ReferencesSection(refs))
  {
    if refs != [] {
      ghost var start := h.parts;
      AddLines(h, [ReferencesHeading, ListOpen]);
      for i := 0 to |refs|
        invariant h.parts == start + Texts([ReferencesHeading, ListOpen] + Items(refs[..i]))
      {
        AddLines(h, [Item(refs[i])]);
        assert refs[..i + 1][..i] == refs[..i];
        TextsAppend([ReferencesHeading, ListOpen] + Items(refs[..i]), [Item(refs[i])]);
        AppendAssoc([ReferencesHeading, ListOpen], Items(refs[..i]), [Item(refs[i])]);
      }
      assert refs[..|refs|] == refs;
      AddLines(h, [ListClose]);
      TextsAppend([ReferencesHeading, ListOpen] + Items(refs), [ListClose]);
    }
  }

  /** The head and the introduction. */
  method AddTop(h: HtmlBuilder, doc: Document)
    modifies h
    ensures h.parts == old(h.parts) + Texts(Head() + Intro(doc))
  {
    AddLines(h, Head());
    AddLines(h, Intro(doc));
    TextsAppend(Head(), Intro(doc));
  }

  /** The optional sections: gallery, first video, winner, references. */
  method AddSections(h: HtmlBuilder, doc: Document)
    modifies h
    ensures h.parts == old(h.parts) + Texts(Sections(doc))
  {
    ghost var start := h.parts;
    ghost var g := Texts(Gallery(PhotoList(doc.photos)));
    ghost var v := Texts(VideoSection(FirstVideo(doc.videos)));
    AddGallery(h, PhotoList(doc.photos));
    AddLines(h, VideoSection(FirstVideo(doc.videos)));
    AppendAssoc(start, g, v);
    var tiempo := Iso8601ToMmSs(TextOf(doc.winnerTime));
    ghost var w := Texts(WinnerSection(TextOf(doc.winner), tiempo));
    AddLines(h, WinnerSection(TextOf(doc.winner), tiempo));
    AppendAssoc(start, g + v, w);
    ghost var r := Texts(ReferencesSection(Refs(doc.references)));
    AddReferences(h, Refs(doc.references));
    AppendAssoc(start, g + v + w, r);
    SectionsTexts(doc);
  }

  /**
   * `generar_html` without the file write: the page assembled by the
   * builder, section by section, and rendered with newlines. It starts with
   * the doctype and ends with the closing `html` tag.
   */
  method GenerarHtml(doc: Document) returns (html: string)
    ensures html == Join(Texts(Page(doc)), "\n")
    ensures "<!DOCTYPE html>" <= html && EndsWith(html, "</html>")
  {
    var h := new HtmlBuilder();
    AddTop(h, doc);
    AddSections(h, doc);
    AddLines(h, Closing());
    ghost var top := Head() + Intro(doc);
    AppendEmpty(Texts(top));
    TextsAppend(top, Sections(doc));
    TextsAppend(top + Sections(doc), Closing());
    assert h.parts == Texts(Page(doc));
    html := h.Render();
    PageFrameTexts(doc);
  }

  /** The first text of the page is the doctype and the last the closing `html` tag. */
  lemma PageFrameTexts(doc: Document)
    ensures Texts(Page(doc))[0] == "<!DOCTYPE html>"
    ensures Texts(Page(doc))[|Page(doc)| - 1] == "</html>"
  {
    var p := Page(doc);
    PageSections(doc);
    assert p[0] == DocType && p[|p| - 1] == HtmlClose;
    var ts := Texts(p);
    assert ts[0] == LineText(DocType) && ts[|p| - 1] == LineText(HtmlClose);
    FrameLineTexts();
  }

  /** The texts of the first and the last line of every page. */
  lemma FrameLineTexts()
    ensures LineText(DocType) == "<!DOCTYPE html>" && LineText(HtmlClose) == "</html>"
  {
  }

  /** The texts of the optional sections, section by section. */
  lemma SectionsTexts(doc: Document)
    ensures Texts(Sections(doc))
         == Texts(Gallery(PhotoList(doc.photos)))
          + Texts(VideoSection(FirstVideo(doc.videos)))
          + Texts(WinnerSection(TextOf(doc.winner), Iso8601ToMmSs(TextOf(doc.winnerTime))))
          + Texts(ReferencesSection(Refs(doc.references)))
  {
    var g := Gallery(PhotoList(doc.photos));
    var v := VideoSection(FirstVideo(doc.videos));
    var w := WinnerSection(TextOf(doc.winner), Iso8601ToMmSs(TextOf(doc.winnerTime)));
    var r := ReferencesSection(Refs(doc.references));
    TextsAppend(g, v);
    TextsAppend(g + v, w);
    TextsAppend(g + v + w, r);
  }
}
