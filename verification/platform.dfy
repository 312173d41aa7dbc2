/**
 * What the link button uses but does not define: the map framework's viewpoint,
 * map and projection API, the UI framework's button types and template engine,
 * and JavaScript's Math object.
 *
 * Every foreign operation is a function-valued field of a record. The model
 * never looks inside them, so each theorem stated over these records holds
 * whatever the collaborators compute.
 */
module Platform {
  import opened Wrappers

  /** A position as the map framework passes it: x (longitude) and y (latitude) first, an optional height after. */
  type Coordinate = c: seq<real> | 2 <= |c| witness [0.0, 0.0]

  /** The `epsg` property of projection options: a code such as "EPSG:25832", or a bare number. */
  datatype EpsgValue = EpsgText(text: string) | EpsgNumber(code: int)

  /** Projection options as a button configures them; `{}` is both properties absent. */
  datatype ProjectionOptions = ProjectionOptions(epsg: Option<EpsgValue>, proj4: Option<string>)

  /** The projection options object written `{}`. */
  const EmptyProjectionOptions: ProjectionOptions := ProjectionOptions(None, None)

  /**
   * The map framework's projection API.
   * - validateOptions: whether options describe a usable projection.
   * - parseEpsgCode: the EPSG code an `epsg` property denotes; None for every falsy result.
   * - wgs84Epsg: the code of the WGS84 projection, comparable with parsed codes.
   * - transformFrom: builds the target projection from options and maps a WGS84 point into it.
   * - mercatorToWgs84: the inverse spherical Web-Mercator projection.
   */
  datatype ProjectionApi = ProjectionApi(
    validateOptions: ProjectionOptions -> bool,
    parseEpsgCode: Option<EpsgValue> -> Option<string>,
    wgs84Epsg: string,
    transformFrom: (ProjectionOptions, Coordinate) -> Coordinate,
    mercatorToWgs84: Coordinate -> Coordinate)
  {
    /** The foreign conversions map a two-number point to a two-number point, as the real library does. */
    ghost predicate KeepsPlanarPoints() {
      && (forall o, c :: |c| == 2 ==> |transformFrom(o, c)| == 2)
      && (forall c :: |c| == 2 ==> |mercatorToWgs84(c)| == 2)
    }

    /** An absent `epsg` property parses to no code, as the real parser does for `undefined`. */
    predicate AbsentCodeParsesToNone() {
      parseEpsgCode(None) == None
    }
  }

  /**
   * JavaScript's Math functions, and `/` for divisors that may be zero (IEEE division, which
   * yields an infinity or NaN instead of failing). Exact real arithmetic stands in for the rest.
   */
  datatype JsMath = JsMath(
    sin: real -> real,
    cos: real -> real,
    tan: real -> real,
    asin: real -> real,
    atan2: (real, real) -> real,
    sqrt: real -> real,
    divide: (real, real) -> real)

  /** One value handed to the template engine; `Undefined` is a property whose value is `undefined`. */
  datatype AttributeValue = Undefined | Number(number: real) | Numbers(numbers: seq<real>)

  /** The object of named values the template engine substitutes into a URL template. */
  type Attributes = map<string, AttributeValue>

  /** The UI framework's placeholder substitution and the browser's `encodeURI`. */
  datatype TemplateApi = TemplateApi(
    replaceAttributes: (string, Attributes) -> string,
    encodeUri: string -> string)

  /** The rendering target of a 3D map; only its size in pixels matters here. */
  datatype Canvas = Canvas(clientWidth: nat, clientHeight: nat)

  /** The extent an OpenLayers view currently shows, in Web-Mercator metres. */
  datatype ViewExtent = ViewExtent(minX: real, minY: real, maxX: real, maxY: real)

  /** The OpenLayers map object behind a 2D or oblique map. */
  datatype OlMap = OlMap(viewExtent: ViewExtent)

  /**
   * The kind of the active map: a Cesium (3D, perspective) map with the canvas of its scene if any,
   * an OpenLayers or oblique (planar) map with its OpenLayers map if any, or any other map.
   */
  datatype MapKind =
    | Perspective(canvas: Option<Canvas>)
    | Planar(olMap: Option<OlMap>)
    | OtherMap

  /** A snapshot of the camera; the map framework may leave any property unset. */
  datatype Viewpoint = Viewpoint(
    groundPosition: Option<Coordinate>,
    cameraPosition: Option<Coordinate>,
    distance: Option<real>,
    heading: Option<real>,
    pitch: Option<real>,
    roll: Option<real>)

  /** The active map together with what its (asynchronous) viewpoint query resolved to. */
  datatype ActiveMap = ActiveMap(kind: MapKind, viewpoint: Option<Viewpoint>)

  /** Where the UI framework places a toolbar button. */
  datatype ButtonLocation = MapLocation | Content | Tool | ProjectLocation | Share | Menu

  /** The device classes a button can be shown on. */
  datatype Device = Mobile | Tablet | Desktop

  /** Per-device visibility; a device that is not a key was not configured. */
  type DeviceOptions = map<Device, bool>

  /** A line written to the warning log. */
  datatype LogEntry = Warning(message: string)
}
