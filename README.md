# MotoGP-Desktop circuit tools and browser games, in Dafny

This project models the logic of MotoGP-Desktop, a small web project about a
MotoGP circuit. It covers three Python generators and two browser scripts.

- `xml/xml2altimetria.py` reads the circuit's XML description and draws its
  altitude profile as SVG:
  - the cumulative distance series and the climb statistics;
  - the "nice" grid step;
  - the drawing itself, built by appending children to an `Svg` root.
- `xml/xml2html.py` writes the circuit's information page through an
  `HtmlBuilder`:
  - head, introduction, photo gallery, first video, last winner with the
    race time converted from ISO 8601, references, closing tags.
- `xml/xml2kml.py` writes the circuit's planimetry as KML:
  - the origin and the end points of the segments, closed into a ring;
  - the writers, one line at a time.
- `js/memoria.js` is a card-matching game:
  - two selection slots, a board lock, and a state for each card;
  - a Fisher–Yates shuffle in place on an array.
- `js/cronometro.js` is a stopwatch: the `MM:SS.d` display and the reset.

## Structure of the model

The XML document is the `Circuit.Document` datatype, whose fields are
optional. All three generators read it.

| file | module | content |
|---|---|---|
| `wrappers.dfy` | `Wrappers` | `Option`, `Result` |
| `seqs.dfy` | `Seqs` | regrouping lemmas, element-wise `Map` |
| `strings.dfy` | `Strings` | Python's `strip`, `str(int)`, `sep.join`, `split`; JavaScript's `padStart` |
| `circuit.dfy` | `Circuit` | the abstract circuit document |
| `profile.dfy` | `Profile` | `cumulative`, `ascent_descent`, `extract_profile` |
| `scale.dfy` | `Scale` | `nice_step`, layout, `sx`/`sy`, X ticks, Y grid |
| `drawing.dfy` | `Drawing` | `Svg` class, `make_svg` section by section |
| `html.dfy` | `InfoHtml` | ISO 8601 durations, `HtmlBuilder`, `generar_html` |
| `kml.dfy` | `Kml` | origin, segments, coordinate ring, KML writers, element nesting |
| `memoria.dfy` | `MemoryGame` | Fisher–Yates, class `Memoria` |
| `cronometro.dfy` | `Stopwatch` | display arithmetic and format, class `Cronometro` |

### Form of the model

- **State changed in place becomes a class.** These are `Drawing.Svg`,
  `InfoHtml.HtmlBuilder`, `Kml.KmlFile` (the open output file),
  `MemoryGame.Memoria` and `Stopwatch.Cronometro`.
- **Loops are methods with invariants**, each proved against a
  specification function: `Cumulative`, `AscentDescent`, the X-tick, Y-grid
  and writer loops, `ObtenerTramos`, and `FisherYates`.
- **The shuffle keeps the array.** `FisherYates` swaps entries in place on
  an `array`.
- **Each generator's output is a sequence of typed lines.** The exact
  strings the source writes appear only in one text function, and the
  structural properties are proved about the typed lines.

### The memory game's lock

`reiniciarAtributos` sets the lock to `true`, and only the constructor sets
it to `false`. The model keeps this as written, so the board stays locked
after the first pair is evaluated. Every later `voltearCarta` does nothing:
`MemoryGame.Memoria.VoltearCarta` ensures `old(locked) ==> locked`, and
makes no change when the board is locked.

## Model

| member | source | states |
|---|---|---|
| Strings.NatToString | xml/xml2altimetria.py:110 | defines `str(n)` for a natural: its decimal digits, no leading zero |
| Strings.IntToString | xml/xml2altimetria.py:143 | defines `str(i)` for an integer: a minus sign before the digits of a negative value |
| Strings.Join | xml/xml2html.py:21-22 | defines `sep.join(parts)`: the parts with the separator between consecutive ones |
| Strings.Strip | xml/xml2kml.py:54-56 | `str.strip()`: the result is the slice between the leading and trailing whitespace runs; it neither starts nor ends with whitespace |
| Strings.StripIdempotent | xml/xml2html.py:78 | stripping twice is stripping once |
| Strings.NatToStringRoundTrip | xml/xml2altimetria.py:110 | reading `str(n)` back as digits gives `n` |
| Strings.PadStart | js/cronometro.js:41 | `padStart(width, fill)`: unchanged when already `width` long, else exactly `width` long, ending in the input, filled on the left |
| Strings.SplitJoin | xml/xml2kml.py:155 | splitting a join at its one-character separator gives back the parts when no part holds it |
| Profile.RunningSums | xml/xml2altimetria.py:52-55 | defines the series `cumulative` returns: entry i is the sum of the first i values |
| Profile.Rise | xml/xml2altimetria.py:60-61 | defines what one pair adds to `up`: the difference when positive, else 0 |
| Profile.Fall | xml/xml2altimetria.py:60-62 | defines what one pair adds to `down`: minus the difference when negative, else 0 |
| Profile.OriginAltitude | xml/xml2altimetria.py:68-69 | defines `alt0`: the origin's altitude when the element exists with text, else 0.0 |
| Profile.RunningSumsRecurrence | xml/xml2altimetria.py:52-55 | the running sums have one more entry than the values, start at 0, and each entry adds the next value |
| Profile.RunningSumsMonotone | xml/xml2altimetria.py:52-55 | with no negative segment length the cumulative distances never decrease |
| Profile.Cumulative | xml/xml2altimetria.py:52-55 | the loop's output is the running-sum series: `[0]`, then each entry the previous plus the next value |
| Profile.Ascent | xml/xml2altimetria.py:57-63 | total ascent over consecutive pairs is never negative |
| Profile.Descent | xml/xml2altimetria.py:57-63 | total descent over consecutive pairs is never negative |
| Profile.ClimbBalance | xml/xml2altimetria.py:57-63 | ascent minus descent is the last altitude minus the first |
| Profile.AscentDescent | xml/xml2altimetria.py:57-63 | the loop returns the total ascent and descent, both non-negative, balancing to last minus first, and zero for fewer than two altitudes |
| Profile.Distances | xml/xml2altimetria.py:70 | at most one distance per segment (the `if x.text` filter) |
| Profile.EndAltitudes | xml/xml2altimetria.py:71 | at most one end altitude per segment |
| Profile.ExtractProfile | xml/xml2altimetria.py:66-75 | both series have length 1 + min of the two lists, start at 0 and at the origin altitude, and are prefixes of the uncut series |
| Profile.ExtractedDistancesMonotone | xml/xml2altimetria.py:66-75 | the extracted distances never decrease when no segment length is negative |
| Scale.Candidates | xml/xml2altimetria.py:46-47 | defines the candidate steps 1p, 2p, 5p, 10p, in the loop's order |
| Scale.RawStep | xml/xml2altimetria.py:44 | defines `raw = span / max(1, target_ticks)` |
| Scale.XSpan | xml/xml2altimetria.py:94 | defines `x_max - x_min or 1` |
| Scale.YSpan | xml/xml2altimetria.py:95 | defines `y_max - y_min or 1` |
| Scale.Sx | xml/xml2altimetria.py:94 | defines `sx(x) = ml + (x - x_min) * plot_w / (x_max - x_min or 1)` |
| Scale.Sy | xml/xml2altimetria.py:95 | defines `sy(y) = mt + plot_h - (y - y_min) * plot_h / (y_max - y_min or 1)`, over the padded bounds |
| Scale.XTicks | xml/xml2altimetria.py:103-105 | defines `list(range(500, up_to + 1, 500))` with `up_to = (total // 500) * 500` |
| Scale.GridValue | xml/xml2altimetria.py:119-124 | defines the value of `yv` after k passes of `yv += step_y` from `y0` |
| Scale.GridValues | xml/xml2altimetria.py:117-124 | defines the values the `while yv <= y_max_d` loop visits, in order |
| Scale.Pow10 | xml/xml2altimetria.py:45 | `10 ** k` is positive for every integer `k` |
| Scale.Pow10Step | xml/xml2altimetria.py:45 | each power is ten times the one below |
| Scale.Pow10Grows | xml/xml2altimetria.py:45 | a higher exponent gives at least ten times as much |
| Scale.FloorLog10 | xml/xml2altimetria.py:45 | `int(floor(log10(x)))` is the `k` with `10^k <= x < 10^(k+1)` |
| Scale.NiceStep | xml/xml2altimetria.py:42-50 | 1 for a non-positive span; otherwise the first of 1p, 2p, 5p, 10p that reaches the raw step; always positive |
| Scale.NiceStepIsSmallestNiceNumber | xml/xml2altimetria.py:42-50 | the step is at most every {1,2,5,10}·10^j, over every exponent j, that reaches the raw step |
| Scale.LastCandidateFits | xml/xml2altimetria.py:46-50 | the raw step is always below 10p, so the fallback `return power` is never reached |
| Scale.MinInt | xml/xml2altimetria.py:87 | `min` of the distances is one of them and at most each |
| Scale.MaxInt | xml/xml2altimetria.py:87 | `max` of the distances is one of them and at least each |
| Scale.MinReal | xml/xml2altimetria.py:88 | `min` of the altitudes is one of them and at most each |
| Scale.MaxReal | xml/xml2altimetria.py:88 | `max` of the altitudes is one of them and at least each |
| Scale.Padding | xml/xml2altimetria.py:91 | the padding is the larger of 2 and 5% of the altitude range |
| Scale.PlanFor | xml/xml2altimetria.py:87-92 | the extents are members of the series and bound every entry; the plan is valid |
| Scale.PaddedSpanPositive | xml/xml2altimetria.py:92-95 | the padded span is at least 4, so the `or 1` guard of `sy` never applies |
| Scale.SyEnds | xml/xml2altimetria.py:95 | `sy` maps the padded floor to the plot's bottom and the padded top to its top |
| Scale.SyStrictlyDecreasing | xml/xml2altimetria.py:95 | a higher altitude is drawn strictly higher |
| Scale.SyInsidePlot | xml/xml2altimetria.py:91-95 | every altitude between the true min and max is drawn strictly inside the plot |
| Scale.SxEnds | xml/xml2altimetria.py:94 | the first distance is on the left edge, the last on the right edge when they differ |
| Scale.SxMonotone | xml/xml2altimetria.py:94 | a longer distance is never drawn further left |
| Scale.XTicksExact | xml/xml2altimetria.py:102-105 | the ticks are exactly the multiples of 500 from 500 to the total, increasing, and none below 500 |
| Scale.XTickMeetsEnd | xml/xml2altimetria.py:104-105 | a total that is a multiple of 500 is itself the last tick |
| Scale.GridStart | xml/xml2altimetria.py:119 | the grid starts within one step below the lowest altitude |
| Scale.FloorScaled | xml/xml2altimetria.py:119 | rounding down to a multiple of the step loses less than one step |
| Scale.GridValueMonotone | xml/xml2altimetria.py:120-124 | grid values grow with the number of steps |
| Scale.GridCount | xml/xml2altimetria.py:121 | the loop's iteration count: the last value is at most the top and the next passes it |
| Scale.GridValueStep | xml/xml2altimetria.py:124 | each step adds `step_y` |
| Scale.GridValuesBounds | xml/xml2altimetria.py:117-124 | the grid has at least one value, starts at or below the minimum, never passes the maximum, and ends within a step of it |
| Scale.GridValuesRise | xml/xml2altimetria.py:120-124 | consecutive grid values are one step apart |
| Drawing.ParseTickLabel | xml/xml2altimetria.py:110 | defines reading a tick label back: digits then " km" (times 1000) or digits then " m" |
| Drawing.Frame | xml/xml2altimetria.py:98-99 | defines the background rect and the plot-area rect with the source's sizes and colours |
| Drawing.TickMark | xml/xml2altimetria.py:108-111 | defines one tick's vertical grid line at `sx(xv)` and its label at `X - 18`, `H - mb + 30` |
| Drawing.TickMarks | xml/xml2altimetria.py:107-111 | defines the marks of the ticks, in tick order |
| Drawing.XAxis | xml/xml2altimetria.py:102-114 | defines the tick marks followed by the end line at `sx(total)` |
| Drawing.GridLine | xml/xml2altimetria.py:122-123 | defines the horizontal grid line at `sy(yv)` across the plot |
| Drawing.GridLines | xml/xml2altimetria.py:121-124 | defines one grid line per grid value, in order |
| Drawing.StepY | xml/xml2altimetria.py:117 | defines `step_y = nice_step(y_max_d - y_min_d, target_ticks=6)` |
| Drawing.YGrid | xml/xml2altimetria.py:117-124 | defines the grid values from `floor(y_min_d / step_y) * step_y` up to `y_max_d` |
| Drawing.YLabel | xml/xml2altimetria.py:126-127 | defines the label `f"{int(round(y))} m"` at `ml - 55`, `sy(y) + 4` |
| Drawing.YLabels | xml/xml2altimetria.py:126-127 | defines the labels of the true min and max altitudes, in that order |
| Drawing.Axes | xml/xml2altimetria.py:130-131 | defines the X axis along the bottom edge, then the Y axis along the left edge |
| Drawing.ProfilePoints | xml/xml2altimetria.py:134 | defines the points `(sx(x), sy(y))` of `zip(cum_dist, alts_series)` |
| Drawing.GroundCorners | xml/xml2altimetria.py:136 | defines the two floor corners `(sx(x_max), sy(y_min))`, `(sx(x_min), sy(y_min))` |
| Drawing.Profiles | xml/xml2altimetria.py:134-137 | defines the profile polyline, then the ground polyline closed by the corners |
| Drawing.Subtitle | xml/xml2altimetria.py:143 | defines the subtitle: total, `int()` of the true min and max altitudes, `int(round())` of ascent and descent |
| Drawing.Titles | xml/xml2altimetria.py:140-144 | defines the title and the subtitle text elements with their positions and styles |
| Drawing.Captions | xml/xml2altimetria.py:147-149 | defines the two axis captions |
| Drawing.Markers | xml/xml2altimetria.py:152-155 | defines ORIGEN at `sx(x_min) - 30` and FIN at `Xf - 10`, each followed by its marker line |
| Drawing.Diagram | xml/xml2altimetria.py:78-155 | defines every child `make_svg` adds to the root, in order: frame, X axis, grid, Y labels, axes, profile, ground, titles, captions, markers |
| Drawing.Round | xml/xml2altimetria.py:126-127 | `round(x)` is within one half of `x`, and even on a tie |
| Drawing.RoundUnique | xml/xml2altimetria.py:126-127 | only one integer meets that rule, so `Round` is Python's `round` |
| Drawing.Trunc | xml/xml2altimetria.py:103 | `int(x)` truncates toward zero |
| Drawing.Svg.constructor | xml/xml2altimetria.py:15-16 | a new root has no children |
| Drawing.Svg.AddRect | xml/xml2altimetria.py:18-20 | appends one `rect` child with the given attributes |
| Drawing.Svg.AddLine | xml/xml2altimetria.py:22-24 | appends one `line` child with the given attributes |
| Drawing.Svg.AddPolyline | xml/xml2altimetria.py:26-28 | appends one `polyline` child with the given attributes |
| Drawing.Svg.AddText | xml/xml2altimetria.py:30-32 | appends one `text` child with the given text and attributes |
| Drawing.TickLabel | xml/xml2altimetria.py:110 | a label ends in " km" exactly for whole kilometres |
| Drawing.TickLabelRoundTrip | xml/xml2altimetria.py:110 | reading a tick label back gives the tick's distance |
| Drawing.TickMarksSnoc | xml/xml2altimetria.py:107-111 | each further tick appends its grid line and label |
| Drawing.TickMarksLength | xml/xml2altimetria.py:107-111 | two children per tick |
| Drawing.GridLinesAt | xml/xml2altimetria.py:121-124 | one horizontal line per grid value, in order |
| Drawing.NoPolylineAppend | xml/xml2altimetria.py:135-137 | two runs without a polyline join into one without |
| Drawing.PolylinesInMiddle | xml/xml2altimetria.py:135-137 | with no polyline before or after, every polyline is in the middle block |
| Drawing.TickMarksNoPolyline | xml/xml2altimetria.py:107-111 | tick marks are lines and texts only |
| Drawing.GridLinesNoPolyline | xml/xml2altimetria.py:121-124 | grid lines are lines only |
| Drawing.BackdropLength | xml/xml2altimetria.py:98-131 | the children before the profile number 7 + 2·ticks + grid values |
| Drawing.BackdropNoPolyline | xml/xml2altimetria.py:98-131 | nothing before the profile is a polyline |
| Drawing.XAxisEndLine | xml/xml2altimetria.py:107-114 | the X block ends with the end line at `sx(total)`; when the total is a multiple of 500 the last tick's line is at the same column |
| Drawing.GridLinesBelowTop | xml/xml2altimetria.py:117-124 | every grid line is a line strictly below the plot's top edge |
| Drawing.YLabelsPlacement | xml/xml2altimetria.py:126-127 | two labels, `f"{int(round(y))} m"` of the true min and max, in the left margin, within the plot's height, the lower altitude lower down |
| Drawing.AnnotationsNoPolyline | xml/xml2altimetria.py:140-155 | titles, captions and markers are texts and lines only |
| Drawing.ProfilesShape | xml/xml2altimetria.py:134-137 | the profile line has one point per zipped pair, at `(sx, sy)`; the ground is those points plus the two floor corners |
| Drawing.ProfileThenGround | xml/xml2altimetria.py:133-137 | the drawing holds exactly two polylines, adjacent: the profile line, then the ground |
| Drawing.AddFrame | xml/xml2altimetria.py:98-99 | appends the background and the plot area |
| Drawing.AddTickMark | xml/xml2altimetria.py:108-111 | appends one tick's grid line and label |
| Drawing.AddTickMarks | xml/xml2altimetria.py:107-111 | the tick loop appends the marks of every tick, in order |
| Drawing.AddXAxis | xml/xml2altimetria.py:102-114 | appends the tick marks, then the end line |
| Drawing.AddGridLines | xml/xml2altimetria.py:117-124 | the `while` loop appends one line per grid value and terminates |
| Drawing.AddYLabels | xml/xml2altimetria.py:126-127 | appends the two Y labels |
| Drawing.AddAxes | xml/xml2altimetria.py:130-131 | appends the two axes |
| Drawing.AddProfiles | xml/xml2altimetria.py:134-137 | appends the profile line, then the ground |
| Drawing.AddTitles | xml/xml2altimetria.py:140-144 | appends the title and the subtitle with the climb statistics |
| Drawing.AddCaptions | xml/xml2altimetria.py:147-149 | appends the two axis captions |
| Drawing.AddMarkers | xml/xml2altimetria.py:152-155 | appends ORIGEN and FIN with their marker lines |
| Drawing.MakeSvg | xml/xml2altimetria.py:78-155 | a new root whose children are the whole drawing, section by section |
| InfoHtml.IsDecimal | xml/xml2html.py:31 | defines the group `\d+(?:\.\d+)?` |
| InfoHtml.ValidDuration | xml/xml2html.py:31 | defines the group texts the pattern can capture |
| InfoHtml.Designators | xml/xml2html.py:31 | defines the text the pattern describes for given groups: `PT`, then `<m>M` and `<s>S` when present |
| InfoHtml.ParseDuration | xml/xml2html.py:31-33 | defines `re.fullmatch` of the duration pattern: the two optional groups, or no match |
| InfoHtml.MinSec | xml/xml2html.py:34-36 | defines `f"{minutos} min {segundos} s"` with "0" for a missing group |
| InfoHtml.LineText | xml/xml2html.py:82-135 | defines the exact text of every line `generar_html` adds, with the fields interpolated unescaped |
| InfoHtml.TextOf | xml/xml2html.py:43-51 | defines `findtext(...) or ""` |
| InfoHtml.Head | xml/xml2html.py:82-96 | defines the fifteen lines from the doctype to the opening of the section |
| InfoHtml.Intro | xml/xml2html.py:97-99 | defines the name heading and the two paragraphs, from the document's fields |
| InfoHtml.PhotoOf | xml/xml2html.py:56-57 | defines a photo's `archivo` and `titulo`, with defaults "" and "Imagen" |
| InfoHtml.PhotoList | xml/xml2html.py:54-58 | defines `fotos`: one pair per `foto`, in document order |
| InfoHtml.Figure | xml/xml2html.py:105-108 | defines a photo's four lines |
| InfoHtml.Figures | xml/xml2html.py:104-108 | defines the figures of the photos, in order |
| InfoHtml.Gallery | xml/xml2html.py:102-108 | defines the gallery: nothing without photos, else the heading and the figures |
| InfoHtml.FirstVideo | xml/xml2html.py:61-70 | defines `video_src` and `video_titulo`: empty without videos, else the first video's, with title default "Vídeo" |
| InfoHtml.VideoSection | xml/xml2html.py:111-117 | defines the six video lines, only for a non-empty source |
| InfoHtml.WinnerSection | xml/xml2html.py:120-122 | defines the two winner lines, only with a winner and a converted time |
| InfoHtml.Refs | xml/xml2html.py:78 | defines `refs`: the stripped text of each `ref` whose text is not blank, in order |
| InfoHtml.Items | xml/xml2html.py:128-129 | defines one list item per reference |
| InfoHtml.ReferencesSection | xml/xml2html.py:125-130 | defines the references section: nothing without references |
| InfoHtml.Closing | xml/xml2html.py:132-135 | defines the four closing tags |
| InfoHtml.Sections | xml/xml2html.py:101-130 | defines the optional sections in page order: gallery, video, winner, references |
| InfoHtml.Page | xml/xml2html.py:81-135 | defines every line the builder receives, in order |
| InfoHtml.SplitMinutes | xml/xml2html.py:31 | the optional `(\d+)M` group is non-empty digits, and it and the rest rebuild the input |
| InfoHtml.MatchSeconds | xml/xml2html.py:31 | a matched `(\d+(?:\.\d+)?)S` group is a decimal, and the group and `S` rebuild the input |
| InfoHtml.SplitMinutesGiven | xml/xml2html.py:31 | digits followed by `M` are taken as the minutes |
| InfoHtml.SplitMinutesAbsent | xml/xml2html.py:31 | a seconds group alone leaves no minutes |
| InfoHtml.SplitMinutesOf | xml/xml2html.py:31 | the minutes group of a rendered duration is its minutes |
| InfoHtml.DurationRoundTrip | xml/xml2html.py:31 | every duration the pattern describes is matched, with both groups recovered |
| InfoHtml.ParseSound | xml/xml2html.py:31 | a match is a valid duration whose rendering is the whole text (`fullmatch`) |
| InfoHtml.Iso8601ToMmSs | xml/xml2html.py:24-36 | the result is empty exactly for empty input |
| InfoHtml.MmSsOfDuration | xml/xml2html.py:34-36 | a matching text gives `"{m} min {s} s"` with "0" for a missing group |
| InfoHtml.MmSsUnmatched | xml/xml2html.py:32-33 | a text that does not match is returned unchanged |
| InfoHtml.MmSsOfEmptyDuration | xml/xml2html.py:31-36 | "PT" gives "0 min 0 s" |
| InfoHtml.HtmlBuilder.constructor | xml/xml2html.py:17-18 | a new builder has no parts |
| InfoHtml.HtmlBuilder.Add | xml/xml2html.py:19-20 | appends one part |
| InfoHtml.HtmlBuilder.Render | xml/xml2html.py:21-22 | the page starts with the first part and ends with the last; empty without parts |
| InfoHtml.RenderSplit | xml/xml2html.py:21-22 | splitting the page at newlines gives back the parts when none holds a newline |
| InfoHtml.Texts | xml/xml2html.py:82-135 | one text per line |
| InfoHtml.TextsAppend | xml/xml2html.py:82-135 | the texts of two runs follow each other |
| InfoHtml.TextsSnoc | xml/xml2html.py:104-108 | one more line adds its text |
| InfoHtml.PageSections | xml/xml2html.py:82-135 | the page is 18 fixed lines, the optional sections, then the four closing tags |
| InfoHtml.FiguresLength | xml/xml2html.py:104-108 | four lines per photo |
| InfoHtml.FiguresSnoc | xml/xml2html.py:104-108 | each further photo appends its figure |
| InfoHtml.FiguresAt | xml/xml2html.py:54-108 | lines 4i..4i+4 are photo i's figure, with "" and "Imagen" as the defaults |
| InfoHtml.GalleryIff | xml/xml2html.py:102-103 | the gallery heading follows the introduction exactly when there are photos |
| InfoHtml.VideoIff | xml/xml2html.py:61-117 | the video section appears exactly when the first video has a non-empty file |
| InfoHtml.OnlyFirstVideo | xml/xml2html.py:64-66 | the videos after the first do not change the page |
| InfoHtml.WinnerIff | xml/xml2html.py:73-122 | the winner section appears exactly when the winner and the converted time are both non-empty |
| InfoHtml.RefsStripped | xml/xml2html.py:78 | every kept reference is non-empty and already stripped; at most one per `ref` |
| InfoHtml.RefsAppend | xml/xml2html.py:78 | the filter keeps document order |
| InfoHtml.ItemsAt | xml/xml2html.py:128-129 | one list item per reference, in order |
| InfoHtml.AddLines | xml/xml2html.py:82-135 | adding a run of lines appends their texts |
| InfoHtml.AddGallery | xml/xml2html.py:102-108 | the photo loop appends the gallery |
| InfoHtml.AddReferences | xml/xml2html.py:125-130 | the reference loop appends the references section |
| InfoHtml.AddTop | xml/xml2html.py:82-99 | appends the head and the introduction |
| InfoHtml.AddSections | xml/xml2html.py:101-130 | appends the optional sections |
| InfoHtml.GenerarHtml | xml/xml2html.py:38-137 | the page is the newline join of the line texts; it starts with `<!DOCTYPE html>` and ends with `</html>` |
| InfoHtml.PageFrameTexts | xml/xml2html.py:82-135 | the first line is `<!DOCTYPE html>` and the last `</html>` |
| InfoHtml.SectionsTexts | xml/xml2html.py:101-130 | the section texts follow each other |
| Kml.AltitudeText | xml/xml2kml.py:54 | defines `alt_val`: the stripped altitude text, or "0" without one |
| Kml.EndCoord | xml/xml2kml.py:67-75 | defines a segment's end point: none without `puntoFinal`, or without its longitude or latitude |
| Kml.Tramos | xml/xml2kml.py:58-77 | defines the end points `obtener_tramos` collects, in document order |
| Kml.CoordText | xml/xml2kml.py:155 | defines `f"{lon},{lat},{alt}"` |
| Kml.Ring | xml/xml2kml.py:153-163 | defines `coords`: the origin's tuple, each end point's tuple, and the origin's tuple again |
| Kml.KmlText | xml/xml2kml.py:79-122 | defines the exact text of every line the writers emit (without its newline), names and coordinates interpolated unescaped |
| Kml.Prologue | xml/xml2kml.py:79-83 | defines the four prologue lines, the last naming the document |
| Kml.OriginPlacemark | xml/xml2kml.py:85-94 | defines the six lines of the origin placemark |
| Kml.CoordinateLines | xml/xml2kml.py:114-115 | defines one line per coordinate tuple, in order |
| Kml.LineHeader | xml/xml2kml.py:100-113 | defines the thirteen lines before the coordinates |
| Kml.LineFooter | xml/xml2kml.py:116-118 | defines the three lines after the coordinates |
| Kml.CircuitLine | xml/xml2kml.py:96-118 | defines the circuit placemark: header, coordinate lines, footer |
| Kml.Epilogue | xml/xml2kml.py:120-122 | defines the two closing lines |
| Kml.CircuitName | xml/xml2kml.py:142-143 | defines `nombre_circuito`: the stripped `nombre`, or "Circuito" |
| Kml.KmlDocument | xml/xml2kml.py:165-170 | defines the whole file: prologue, origin placemark "Salida / Meta", circuit placemark, epilogue |
| Kml.TagOf | xml/xml2kml.py:79-122 | defines which element each fixed line opens or closes; name, coordinate and style-value lines are leaves |
| Kml.Step | xml/xml2kml.py:79-122 | defines one line's effect on the stack of open elements, failing on a close that does not match |
| Kml.Nest | xml/xml2kml.py:79-122 | defines the stack of open elements after a run of lines |
| Kml.CoordOf | xml/xml2kml.py:46-51 | a point has coordinates exactly when it has both longitude and latitude |
| Kml.ObtenerPuntoOrigen | xml/xml2kml.py:36-56 | fails exactly without `puntoOrigen` or its longitude or latitude, with the source's two messages; altitude "0" when missing |
| Kml.ObtenerTramos | xml/xml2kml.py:58-77 | the loop returns the end points of the segments that have one, in order, at most one per segment |
| Kml.TramosLength | xml/xml2kml.py:58-77 | at most one point per segment |
| Kml.TramosAppend | xml/xml2kml.py:63-66 | document order is kept |
| Kml.TramosSound | xml/xml2kml.py:66-76 | every point kept is some segment's end point |
| Kml.TramosComplete | xml/xml2kml.py:66-76 | every segment's end point with coordinates is kept |
| Kml.CoordTextSplit | xml/xml2kml.py:155-159 | a `lon,lat,alt` tuple splits back into its three texts |
| Kml.CoordTexts | xml/xml2kml.py:158-159 | one tuple per point |
| Kml.RingShape | xml/xml2kml.py:153-163 | the ring starts and ends at the origin and holds the points in between, in order |
| Kml.BuildCoordinates | xml/xml2kml.py:153-163 | the list `main` builds is the ring |
| Kml.KmlTexts | xml/xml2kml.py:79-122 | one text per line |
| Kml.KmlTextsAppend | xml/xml2kml.py:79-122 | the texts of two runs follow each other |
| Kml.NestSnoc | xml/xml2kml.py:79-122 | one more line takes one more nesting step |
| Kml.NestAppend | xml/xml2kml.py:79-122 | nesting over two runs is nesting over the first, then the second |
| Kml.NestTrace | xml/xml2kml.py:79-122 | a run whose lines step from stack to stack goes from the first stack to the last |
| Kml.CoordinateLinesFlat | xml/xml2kml.py:114-115 | coordinate lines neither open nor close an element |
| Kml.PrologueOpens | xml/xml2kml.py:79-83 | the prologue opens `kml`, then `Document` |
| Kml.EpilogueCloses | xml/xml2kml.py:120-122 | the epilogue closes `Document`, then `kml` |
| Kml.PrologueEpilogueBalanced | xml/xml2kml.py:79-122 | together the prologue and the epilogue are balanced |
| Kml.OriginPlacemarkBalanced | xml/xml2kml.py:85-94 | the origin placemark closes every element it opens, innermost first |
| Kml.LineHeaderOpens | xml/xml2kml.py:100-113 | the lines before the coordinates leave `Placemark`, `LineString`, `coordinates` open |
| Kml.LineFooterCloses | xml/xml2kml.py:116-118 | the lines after the coordinates close them in reverse order |
| Kml.CircuitLineBalanced | xml/xml2kml.py:96-118 | the circuit placemark is balanced whatever the coordinates |
| Kml.KmlDocumentBalanced | xml/xml2kml.py:165-170 | the writers' fixed line structure opens and closes every element in order, from an empty stack back to an empty stack |
| Kml.CircuitLineCoordinates | xml/xml2kml.py:113-116 | one line per tuple, in order, between `<coordinates>` and `</coordinates>` |
| Kml.CoordinateLinesAt | xml/xml2kml.py:114-115 | the i-th coordinate line holds the i-th tuple |
| Kml.KmlFile.constructor | xml/xml2kml.py:166 | a newly opened file is empty |
| Kml.KmlFile.Write | xml/xml2kml.py:80 | `f.write` appends one line |
| Kml.KmlTextsSnoc | xml/xml2kml.py:114-115 | one more line adds its text |
| Kml.WriteLines | xml/xml2kml.py:79-122 | writing a run of lines appends their texts |
| Kml.EscribirPrologoKml | xml/xml2kml.py:79-83 | appends the prologue |
| Kml.EscribirPlacemarkOrigen | xml/xml2kml.py:85-94 | appends the origin placemark |
| Kml.EscribirLineaCircuito | xml/xml2kml.py:96-118 | the coordinate loop between header and footer appends the circuit placemark |
| Kml.EscribirEpilogoKml | xml/xml2kml.py:120-122 | appends the epilogue |
| Kml.GenerarKml | xml/xml2kml.py:139-170 | fails exactly as `obtener_punto_origen` does, with its message; otherwise the file is the document whose coordinates are the ring of the origin and the segment end points |
| Kml.KmlFileTexts | xml/xml2kml.py:165-170 | the file's texts are the four writers' texts in order |
| MemoryGame.IsDraw | js/memoria.js:57 | defines a `Math.random()` value: in [0, 1) |
| MemoryGame.DrawsFor | js/memoria.js:56-57 | defines one draw per position |
| MemoryGame.ShuffleDown | js/memoria.js:56-59 | defines the loop from the last position down to 1, swapping i with `Pick(draws[i], i)` |
| MemoryGame.Memoria.Valid | js/memoria.js:4-10 | defines the state between events: selections hold distinct flipped cards, a second selection exactly while covering is pending, none while unlocked |
| MemoryGame.CountRevealed | js/memoria.js:82 | at most as many revealed cards as cards |
| MemoryGame.CountRevealedAll | js/memoria.js:80-83 | the revealed count equals the card count exactly when every card is revealed |
| MemoryGame.ScaleBelow | js/memoria.js:57 | a `Math.random()` value scales a positive bound to a value below it |
| MemoryGame.Pick | js/memoria.js:57 | `Math.floor(Math.random() * (i + 1))` lies in [0, i] |
| MemoryGame.Swap | js/memoria.js:58 | exchanges two entries and keeps the rest |
| MemoryGame.SwapPermutes | js/memoria.js:58 | a swap keeps the same cards |
| MemoryGame.ShuffleDownPermutes | js/memoria.js:56-59 | the shuffle is a permutation of the cards |
| MemoryGame.FisherYates | js/memoria.js:56-59 | the in-place loop leaves the array as the shuffle specifies, a permutation of the original |
| MemoryGame.BarajarCartas | js/memoria.js:47-65 | the cards in their new order are the shuffle, and a permutation, of the original |
| MemoryGame.SetBoth | js/memoria.js:73-96 | two cards get the new state; every label and every other card stays |
| MemoryGame.Memoria.constructor | js/memoria.js:4-10 | no selection, the cards shuffled, the board unlocked |
| MemoryGame.Memoria.ReiniciarAtributos | js/memoria.js:67-71 | both selections cleared and the board locked |
| MemoryGame.Memoria.ComprobarJuego | js/memoria.js:80-88 | completion is signalled exactly when every card is revealed |
| MemoryGame.Memoria.DeshabilitarCartas | js/memoria.js:73-78 | both selected cards revealed, completion checked, selections cleared, board locked |
| MemoryGame.Memoria.CubrirCartas | js/memoria.js:90-91 | the board locked and the covering scheduled, nothing else changed |
| MemoryGame.Memoria.CubrirCartasRetardo | js/memoria.js:93-104 | both selected cards lose their state, the selections are cleared, the board stays locked |
| MemoryGame.Memoria.ComprobarPareja | js/memoria.js:108-121 | the board is locked; equal `alt` labels reveal the pair, others leave it flipped and scheduled for covering |
| MemoryGame.Memoria.VoltearCarta | js/memoria.js:16-45 | a no-op on a flipped or revealed card or a locked board; otherwise flips the card into the first slot, or into the second followed by the comparison; the lock is never released |
| Stopwatch.Format | js/cronometro.js:42 | defines the template `${pad(minutos)}:${pad(segundos)}.${decimas}` |
| Stopwatch.Display | js/cronometro.js:36-42 | defines the text `mostrar` shows for a number of milliseconds |
| Stopwatch.ParseDisplay | js/cronometro.js:42 | defines reading a display back: digits, `:`, digits, `.`, digits |
| Stopwatch.Decompose | js/cronometro.js:36-40 | tenths in [0,9], seconds in [0,59], and min·60000 + sec·1000 + tenths·100 <= ms < that + 100 |
| Stopwatch.DecomposeUnique | js/cronometro.js:36-40 | that reading is the only one in range and within those 100 ms |
| Stopwatch.Pad | js/cronometro.js:41 | at least two digits; numbers of two or more digits unchanged, single digits given a leading '0' |
| Stopwatch.PadValue | js/cronometro.js:41 | the padded digits still read as the number |
| Stopwatch.SplitMarks | js/cronometro.js:42 | digit strings joined by `:` and `.` split back at those marks |
| Stopwatch.FormatRoundTrip | js/cronometro.js:42 | reading the `MM:SS.d` text back gives the minutes, seconds and tenths |
| Stopwatch.DisplayZero | js/cronometro.js:36-42 | zero milliseconds display as "00:00.0" |
| Stopwatch.Cronometro.constructor | js/cronometro.js:3-5 | a new stopwatch has `tiempo` 0 |
| Stopwatch.Cronometro.Mostrar | js/cronometro.js:34-47 | the screen shows the display of `tiempo`; nothing else changes |
| Stopwatch.Cronometro.Parar | js/cronometro.js:54-56 | the interval stops; `tiempo`, `corriendo` and the screen stay |
| Stopwatch.Cronometro.Reiniciar | js/cronometro.js:58-63 | the interval stopped, `corriendo` null, `tiempo` 0, the screen "00:00.0" |

## Left out

- File and process I/O is left out: `ET.parse`, `Svg.escribir` (with `ET.indent`), `Path.write_text`, the real writes of `open`/`f.write`, `print`, `sys.exit` and argv handling. The generators return their output as values: the `Svg` children, the page string, and the lines of the KML file.
- ElementTree/XPath lookup is replaced by the typed `Circuit.Document`, whose optional fields conflate a missing element with one that has no text.
- Kml.ObtenerPuntoOrigen: an element that is present without text makes Python's `.text.strip()` raise `AttributeError`. The model treats it as missing.
- Kml.ObtenerTramos: the same conflation applies to each segment's end point.
- Kml.CircuitName: the same conflation applies to `nombre`.
- Profile.ExtractProfile: the `int()` and `float()` conversions of malformed text, and their `ValueError`, are not modelled. Each reading carries its text and its number.
- Drawing.MakeSvg: the `str()` and `:.2f` formatting of floating-point attributes is not modelled. Coordinates are exact reals, and the polyline `points` string is kept as its sequence of pairs.
- Floating-point rounding is not modelled; reals are exact. This covers `sx`, `sy`, the padding and the climb sums. It also covers the Y-grid accumulator `yv += step_y`, where drift could add or drop the top grid line, and the `raw <= step` comparisons of `nice_step`.
- Kml.KmlDocumentBalanced: names and coordinate texts are written unescaped, so a name holding markup breaks the file's real nesting. Nesting is proved over the line structure only.
- Scale.FloorLog10: it is the exact decade, not `math.log10`'s floating-point result near powers of ten.
- InfoHtml.ParseDuration: `\d` is ASCII digits only, where Python's `re` also accepts other Unicode digits.
- The writers' default arguments ("Circuito generado", "Circuito Termas de Río Hondo") are not modelled, because `main` always passes the name.
- The `tablero` field of `Memoria` is set once and never read, so it is not modelled.
- MemoryGame.Memoria.VoltearCarta: a card is identified by its position on the board. `style.transform` and the DOM are not modelled.
- MemoryGame.Memoria.ComprobarJuego: the `alert` that `setTimeout` shows 300 ms later becomes the boolean result.
- MemoryGame.Memoria.CubrirCartasRetardo: the 1.5 s delay is not modelled. The callback is a separate step that is called only while it is scheduled.
- MemoryGame.BarajarCartas: `appendChild` reordering becomes the new order of the card sequence. `Math.random()` values are a parameter.
- Stopwatch.Cronometro.Mostrar: the `main p` element is assumed to exist, so the `console.error` branch is not modelled.
- Stopwatch.Cronometro.Mostrar: `tiempo` is a whole number of milliseconds.
- `arrancar` and `actualizar` are not modelled: clock reads, `setInterval`, and the faulty `Temporal.Now()` and bare `mostrar()` calls. So `Stopwatch.Cronometro` never starts ticking.
- `js/ciudad.js` is not part of this model. It holds only template getters and DOM output.
