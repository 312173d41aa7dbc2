/**
 * The share-URL builder of the link button: it reads the active map's viewpoint,
 * estimates the visible ground extent according to the kind of map, optionally
 * reprojects positions and extent, and hands a fixed set of named values to the
 * template engine. Trigonometry, projections and the template engine are
 * collaborators (see module Platform); what is stated here is which of them is
 * called, on what, and when.
 */
module UrlHelper {
  import opened Wrappers
  import opened Platform

  /** JavaScript's Math.PI. */
  const PI: real := 3.141592653589793

  /** Mean Earth radius in metres used by the spherical destination formula. */
  const EARTH_RADIUS: real := 6371008.8

  /** Horizontal angle of view assumed for the 3D camera (60 degrees), whatever the real camera uses. */
  const ANGLE_OF_VIEW_X: real := PI / 3.0

  /** The message of the one error the URL builder throws. */
  const NO_VIEWPOINT: string := "no active map or viewpoint"

  /** The warning logged for projection options that do not validate. */
  const INVALID_PROJECTION: LogEntry := Warning("projection not valid")

  /** The names of the values the template engine may substitute. */
  const ATTRIBUTE_NAMES: set<string> :=
    {"groundPosition", "cameraPosition", "distance", "heading", "pitch", "roll", "extent"}

  // ---------------------------------------------------------------------------
  // Geometry

  /**
   * The point reached from `coords` (degrees) after `distance` metres along `bearing`
   * (radians, clockwise from north) on a spherical Earth, as [longitude, latitude] in
   * degrees. Any height of `coords` is dropped.
   */
  function MoveOnEarthAsSphere(m: JsMath, coords: Coordinate, bearing: real, distance: real): (r: Coordinate)
    ensures |r| == 2
  {
    var lon1Rad := coords[0] * PI / 180.0;
    var lat1Rad := coords[1] * PI / 180.0;
    var angle := distance / EARTH_RADIUS;
    var lat2Rad := m.asin(m.sin(lat1Rad) * m.cos(angle) + m.cos(lat1Rad) * m.sin(angle) * m.cos(bearing));
    var lon2Rad := lon1Rad + m.atan2(
      m.sin(bearing) * m.sin(angle) * m.cos(lat1Rad),
      m.cos(angle) - m.sin(lat1Rad) * m.sin(lat2Rad));
    [lon2Rad / (PI / 180.0), lat2Rad / (PI / 180.0)]
  }

  /**
   * Two opposite corners of the ground rectangle a 3D camera at height `distance` above
   * `center` would see with a 60-degree horizontal angle of view and the canvas's aspect
   * ratio. Both corners are reached from the same centre over the same distance (half the
   * rectangle's diagonal), along bearings exactly half a turn apart. The canvas height is
   * not checked for zero: the division is JavaScript's, which does not fail.
   */
  function CalculateExtentForCesium(m: JsMath, canvas: Canvas, distance: real, center: Coordinate): (r: seq<real>)
    ensures |r| == 4
    ensures exists bearing: real, reach: real {:trigger MoveOnEarthAsSphere(m, center, bearing, reach)} ::
      r == MoveOnEarthAsSphere(m, center, bearing + PI, reach) + MoveOnEarthAsSphere(m, center, bearing, reach)
  {
    var targetAspectRatio := m.divide(canvas.clientWidth as real, canvas.clientHeight as real);
    var fieldOfViewX := 2.0 * m.tan(ANGLE_OF_VIEW_X / 2.0) * distance;
    var fieldOfViewY := m.divide(fieldOfViewX, targetAspectRatio);
    var hypotenuse := m.sqrt(fieldOfViewX * fieldOfViewX + fieldOfViewY * fieldOfViewY);
    var first := MoveOnEarthAsSphere(m, center, PI / 2.0 - m.atan2(fieldOfViewY, fieldOfViewX) + PI, hypotenuse / 2.0);
    var second := MoveOnEarthAsSphere(m, center, PI / 2.0 - m.atan2(fieldOfViewY, fieldOfViewX), hypotenuse / 2.0);
    first + second
  }

  // ---------------------------------------------------------------------------
  // Extent selection

  /** JavaScript truthiness of an optional number: present and not zero. */
  predicate Truthy(x: Option<real>) {
    x.Some? && x.value != 0.0
  }

  /** The lower-left and upper-right corners of an OpenLayers view, converted to WGS84 in that order. */
  function PlanarExtent(api: ProjectionApi, v: ViewExtent): (e: seq<real>)
    ensures 4 <= |e|
    ensures api.KeepsPlanarPoints() ==> |e| == 4
    ensures e == api.mercatorToWgs84([v.minX, v.minY]) + api.mercatorToWgs84([v.maxX, v.maxY])
  {
    api.mercatorToWgs84([v.minX, v.minY]) + api.mercatorToWgs84([v.maxX, v.maxY])
  }

  /**
   * The visible extent in WGS84, chosen by the kind of map: estimated for a 3D map when its
   * canvas, a non-zero distance and a ground position are all known; read from the view of a
   * planar map that has an OpenLayers map; empty in every other case.
   */
  function SelectExtent(m: JsMath, api: ProjectionApi, kind: MapKind, distance: Option<real>, ground: Option<Coordinate>): (e: seq<real>)
    ensures e == [] || 4 <= |e|
    ensures kind.Perspective? ==> (e != [] <==> kind.canvas.Some? && Truthy(distance) && ground.Some?)
    ensures kind.Perspective? && e != [] ==>
      |e| == 4 && e == CalculateExtentForCesium(m, kind.canvas.value, distance.value, ground.value)
    ensures kind.Planar? ==> (e != [] <==> kind.olMap.Some?)
    ensures kind.Planar? && e != [] ==> e == PlanarExtent(api, kind.olMap.value.viewExtent)
    ensures kind.OtherMap? ==> e == []
    ensures api.KeepsPlanarPoints() ==> e == [] || |e| == 4
  {
    match kind
    case Perspective(canvas) =>
      if canvas.Some? && Truthy(distance) && ground.Some? then
        CalculateExtentForCesium(m, canvas.value, distance.value, ground.value)
      else []
    case Planar(olMap) =>
      if olMap.Some? then PlanarExtent(api, olMap.value.viewExtent) else []
    case OtherMap => []
  }

  // ---------------------------------------------------------------------------
  // Projection gateway

  /** The warnings logged about projection options: one exactly when options are given and do not validate. */
  function ProjectionWarnings(api: ProjectionApi, options: Option<ProjectionOptions>): (log: seq<LogEntry>)
    ensures log == [] || log == [INVALID_PROJECTION]
    ensures log != [] <==> options.Some? && !api.validateOptions(options.value)
  {
    if options.Some? && !api.validateOptions(options.value) then [INVALID_PROJECTION] else []
  }

  /**
   * The projection to reproject into, if any: the given options, when they validate and their
   * `epsg` property parses to a code other than WGS84's. Options whose `epsg` does not parse
   * never qualify, whatever their proj4 definition; options without an `epsg` property do not
   * when the parser maps an absent code to none. Nothing here fails.
   */
  function ReprojectionTarget(api: ProjectionApi, options: Option<ProjectionOptions>): (t: Option<ProjectionOptions>)
    ensures t.Some? <==>
      && options.Some?
      && api.validateOptions(options.value)
      && api.parseEpsgCode(options.value.epsg).Some?
      && api.parseEpsgCode(options.value.epsg).value != api.wgs84Epsg
    ensures t.Some? ==> t == options
  {
    var isValidProjection := options.Some? && api.validateOptions(options.value);
    var parsedEpsg := api.parseEpsgCode(if options.Some? then options.value.epsg else None);
    if parsedEpsg.Some? && parsedEpsg.value != api.wgs84Epsg && isValidProjection then options else None
  }

  /** A position mapped from WGS84 into `target`; an absent position stays absent. */
  function TransformPosition(api: ProjectionApi, target: ProjectionOptions, p: Option<Coordinate>): (q: Option<Coordinate>)
    ensures q.Some? <==> p.Some?
    ensures p.Some? ==> q.value == api.transformFrom(target, p.value)
  {
    match p
    case Some(c) => Some(api.transformFrom(target, c))
    case None => None
  }

  /**
   * An extent mapped from WGS84 into `target` corner by corner: numbers 0 and 1 form the first
   * corner, 2 and 3 the second. An empty extent stays empty.
   */
  function TransformExtent(api: ProjectionApi, target: ProjectionOptions, e: seq<real>): (r: seq<real>)
    requires e == [] || 4 <= |e|
    ensures r == [] <==> e == []
    ensures r == [] || 4 <= |r|
    ensures api.KeepsPlanarPoints() ==> r == [] || |r| == 4
    ensures e != [] ==> r == api.transformFrom(target, e[0..2]) + api.transformFrom(target, e[2..4])
  {
    if e == [] then []
    else
      assert e[0..2] == [e[0], e[1]] && e[2..4] == [e[2], e[3]];
      api.transformFrom(target, [e[0], e[1]]) + api.transformFrom(target, [e[2], e[3]])
  }

  /** What the optional target projection turns a viewpoint's positions and the extent into. */
  datatype Placement = Placement(groundPosition: Option<Coordinate>, cameraPosition: Option<Coordinate>, extent: seq<real>)

  /**
   * Positions and extent after the projection gateway: transformed when there is a target,
   * untouched otherwise. Presence and shape are kept either way.
   */
  function Reproject(api: ProjectionApi, target: Option<ProjectionOptions>, vp: Viewpoint, extent: seq<real>): (p: Placement)
    requires extent == [] || 4 <= |extent|
    ensures target.None? ==> p == Placement(vp.groundPosition, vp.cameraPosition, extent)
    ensures p.groundPosition.Some? <==> vp.groundPosition.Some?
    ensures p.cameraPosition.Some? <==> vp.cameraPosition.Some?
    ensures p.extent == [] <==> extent == []
    ensures p.extent == [] || 4 <= |p.extent|
    ensures api.KeepsPlanarPoints() && |extent| == 4 ==> |p.extent| == 4
    ensures target.Some? ==>
      && p.groundPosition == TransformPosition(api, target.value, vp.groundPosition)
      && p.cameraPosition == TransformPosition(api, target.value, vp.cameraPosition)
      && p.extent == TransformExtent(api, target.value, extent)
  {
    match target
    case None => Placement(vp.groundPosition, vp.cameraPosition, extent)
    case Some(t) =>
      Placement(TransformPosition(api, t, vp.groundPosition),
                TransformPosition(api, t, vp.cameraPosition),
                TransformExtent(api, t, extent))
  }

  // ---------------------------------------------------------------------------
  // Attribute set and URL

  /** An optional position as a template value. */
  function PositionValue(p: Option<Coordinate>): AttributeValue {
    if p.Some? then Numbers(p.value) else Undefined
  }

  /** An optional number as a template value. */
  function NumberValue(x: Option<real>): AttributeValue {
    if x.Some? then Number(x.value) else Undefined
  }

  /**
   * The named values handed to the template engine: always the same seven names; an absent
   * viewpoint property is `undefined`, while the extent is always a (possibly empty) list.
   */
  function AssembleAttributes(vp: Viewpoint, placed: Placement): (a: Attributes)
    ensures a.Keys == ATTRIBUTE_NAMES
    ensures a["extent"].Numbers?
  {
    map[
      "groundPosition" := PositionValue(placed.groundPosition),
      "cameraPosition" := PositionValue(placed.cameraPosition),
      "distance" := NumberValue(vp.distance),
      "heading" := NumberValue(vp.heading),
      "pitch" := NumberValue(vp.pitch),
      "roll" := NumberValue(vp.roll),
      "extent" := Numbers(placed.extent)]
  }

  /** Reads a position back from a template value. */
  function PositionOf(v: AttributeValue): Option<Coordinate> {
    if v.Numbers? && 2 <= |v.numbers| then Some(v.numbers) else None
  }

  /** Reads a number back from a template value. */
  function NumberOf(v: AttributeValue): Option<real> {
    if v.Number? then Some(v.number) else None
  }

  /** Reads the camera state and the placed extent back from an attribute set. */
  function ReadAttributes(a: Attributes): (r: (Viewpoint, Placement))
    requires ATTRIBUTE_NAMES <= a.Keys
  {
    var ground := PositionOf(a["groundPosition"]);
    var camera := PositionOf(a["cameraPosition"]);
    var extent := if a["extent"].Numbers? then a["extent"].numbers else [];
    (Viewpoint(ground, camera, NumberOf(a["distance"]), NumberOf(a["heading"]), NumberOf(a["pitch"]), NumberOf(a["roll"])),
     Placement(ground, camera, extent))
  }

  /** The viewpoint a URL build reads: none without an active map or when its query resolved to nothing. */
  function ViewpointOf(activeMap: Option<ActiveMap>): Option<Viewpoint> {
    if activeMap.Some? then activeMap.value.viewpoint else None
  }

  /** The outcome of building a share URL: the encoded URL, the values substituted into it, and the log. */
  datatype SharedUrl = SharedUrl(url: string, attributes: Attributes, log: seq<LogEntry>)

  /**
   * Builds the share URL for `templateUrl` from the active map's viewpoint. Fails only when
   * there is no active map or its viewpoint query resolved to nothing (templates are strings of
   * Unicode characters, which URI encoding always accepts); otherwise the URL is the
   * encoded substitution of the attribute set into the template, and projection options that do
   * not validate only add a warning.
   */
  function CreateUrl(m: JsMath, api: ProjectionApi, engine: TemplateApi, activeMap: Option<ActiveMap>,
                     templateUrl: string, projectionOptions: Option<ProjectionOptions>): (r: Result<SharedUrl, string>)
    ensures r.Failure? <==> activeMap.None? || activeMap.value.viewpoint.None?
    ensures r.Failure? ==> r.error == NO_VIEWPOINT
    ensures r.Success? ==> r.value.url == engine.encodeUri(engine.replaceAttributes(templateUrl, r.value.attributes))
    ensures r.Success? ==> r.value.attributes.Keys == ATTRIBUTE_NAMES
    ensures r.Success? ==> r.value.log == ProjectionWarnings(api, projectionOptions)
  {
    var viewpoint := ViewpointOf(activeMap);
    if viewpoint.None? then Failure(NO_VIEWPOINT)
    else
      var vp := viewpoint.value;
      var extent := SelectExtent(m, api, activeMap.value.kind, vp.distance, vp.groundPosition);
      var log := ProjectionWarnings(api, projectionOptions);
      var placed := Reproject(api, ReprojectionTarget(api, projectionOptions), vp, extent);
      var attributes := AssembleAttributes(vp, placed);
      Success(SharedUrl(engine.encodeUri(engine.replaceAttributes(templateUrl, attributes)), attributes, log))
  }
}
