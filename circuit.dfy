/**
 * The circuit document (`circuitoEsquema.xml`, namespace
 * http://www.uniovi.es) as the three generators see it: a typed view with
 * optional fields instead of ElementTree lookups.
 *
 * `None` stands for an element (or attribute) the lookup does not find, and
 * also for an element without text: ElementTree gives an element written
 * `<x></x>` or `<x/>` the text `None`, and every generator treats that text
 * like a missing element (or fails on it; see README).
 */
module Circuit {
  import opened Wrappers

  /** The text of an element together with the number `int()`/`float()` reads from it. */
  datatype Reading<T> = Reading(text: string, value: T)

  /** A geographic point: `longitudGeo`, `latitudGeo`, `altitudMSNM`. */
  datatype Point = Point(
    longitude: Option<string>,
    latitude: Option<string>,
    altitude: Option<Reading<real>>)

  /** One `tramo`: its `distancia` and its `puntoFinal`. */
  datatype Segment = Segment(
    distance: Option<Reading<int>>,
    end: Option<Point>)

  /** A `foto` or `video` element: its `archivo` and `titulo` attributes. */
  datatype Media = Media(file: Option<string>, title: Option<string>)

  /** The whole document. */
  datatype Document = Document(
    name: Option<string>,           // nombre
    length: Option<string>,         // longitud
    width: Option<string>,          // anchuraMedia
    raceDate: Option<string>,       // fechaCarrera
    startTime: Option<string>,      // horaInicio
    laps: Option<string>,           // vueltas
    town: Option<string>,           // localidad
    country: Option<string>,        // pais
    sponsor: Option<string>,        // patrocinador
    origin: Option<Point>,          // puntoOrigen
    segments: seq<Segment>,         // tramos/tramo, in document order
    photos: seq<Media>,             // galeriaFotos/foto
    videos: seq<Media>,             // galeriaVideos/video
    winner: Option<string>,         // vencedor/piloto
    winnerTime: Option<string>,     // vencedor/tiempoTotal
    references: seq<Option<string>> // referencias/ref, the text of each
  )
}
