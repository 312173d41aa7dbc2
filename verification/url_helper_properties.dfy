/** Properties of the share-URL builder that relate several calls or need a proof. */
module UrlHelperProperties {
  import opened Wrappers
  import opened Platform
  import opened UrlHelper

  /**
   * Moving zero metres returns the starting point (without its height), given only the
   * trigonometric facts the formula relies on at that point: sin 0 = 0, cos 0 = 1, asin undoes
   * sin at the start latitude, and atan2(0, y) = 0 for y >= 0.
   */
  lemma MoveByZeroStays(m: JsMath, coords: Coordinate, bearing: real)
    requires m.sin(0.0) == 0.0 && m.cos(0.0) == 1.0
    requires m.asin(m.sin(coords[1] * PI / 180.0)) == coords[1] * PI / 180.0
    requires m.sin(coords[1] * PI / 180.0) * m.sin(coords[1] * PI / 180.0) <= 1.0
    requires forall y :: 0.0 <= y ==> m.atan2(0.0, y) == 0.0
    ensures MoveOnEarthAsSphere(m, coords, bearing, 0.0) == coords[..2]
  {
  }

  /**
   * A transform that leaves every point where it is leaves the whole placement unchanged: the
   * two corners are taken from numbers 0-1 and 2-3 and put back in that order.
   */
  lemma IdentityTransformKeepsPlacement(api: ProjectionApi, target: ProjectionOptions, vp: Viewpoint, extent: seq<real>)
    requires forall c :: api.transformFrom(target, c) == c
    requires extent == [] || |extent| == 4
    ensures Reproject(api, Some(target), vp, extent) == Placement(vp.groundPosition, vp.cameraPosition, extent)
  {
  }

  /** The attribute set loses nothing: positions, extent, distance and the angles can all be read back. */
  lemma AttributesRoundTrip(vp: Viewpoint, placed: Placement)
    ensures ReadAttributes(AssembleAttributes(vp, placed)) ==
      (vp.(groundPosition := placed.groundPosition, cameraPosition := placed.cameraPosition), placed)
  {
  }

  /**
   * Presence and shape of the substituted values: positions are undefined exactly when the
   * viewpoint lacks them, distance and the three angles pass through untouched, and the extent
   * is a list that is empty exactly when no extent was selected (four numbers otherwise, when
   * the foreign conversions keep points two-dimensional).
   */
  lemma CreateUrlShape(m: JsMath, api: ProjectionApi, engine: TemplateApi, activeMap: Option<ActiveMap>,
                       templateUrl: string, options: Option<ProjectionOptions>)
    requires ViewpointOf(activeMap).Some?
    ensures var r := CreateUrl(m, api, engine, activeMap, templateUrl, options);
      var vp := ViewpointOf(activeMap).value;
      var selected := SelectExtent(m, api, activeMap.value.kind, vp.distance, vp.groundPosition);
      && r.Success?
      && (r.value.attributes["groundPosition"].Undefined? <==> vp.groundPosition.None?)
      && (r.value.attributes["cameraPosition"].Undefined? <==> vp.cameraPosition.None?)
      && r.value.attributes["distance"] == NumberValue(vp.distance)
      && r.value.attributes["heading"] == NumberValue(vp.heading)
      && r.value.attributes["pitch"] == NumberValue(vp.pitch)
      && r.value.attributes["roll"] == NumberValue(vp.roll)
      && r.value.attributes["extent"].Numbers?
      && (r.value.attributes["extent"].numbers == [] <==> selected == [])
      && (api.KeepsPlanarPoints() ==> |r.value.attributes["extent"].numbers| in {0, 4})
  {
  }

  /**
   * Without a reprojection target (no options, options that do not validate, no parseable EPSG
   * code, or the WGS84 code) the positions and the extent reach the template exactly as the
   * viewpoint and the extent selection gave them.
   */
  lemma UngatedKeepsCoordinates(m: JsMath, api: ProjectionApi, engine: TemplateApi, activeMap: Option<ActiveMap>,
                                templateUrl: string, options: Option<ProjectionOptions>)
    requires ViewpointOf(activeMap).Some?
    requires || options.None?
             || !api.validateOptions(options.value)
             || api.parseEpsgCode(options.value.epsg).None?
             || api.parseEpsgCode(options.value.epsg).value == api.wgs84Epsg
    ensures var r := CreateUrl(m, api, engine, activeMap, templateUrl, options);
      var vp := ViewpointOf(activeMap).value;
      && r.Success?
      && r.value.attributes["groundPosition"] == PositionValue(vp.groundPosition)
      && r.value.attributes["cameraPosition"] == PositionValue(vp.cameraPosition)
      && r.value.attributes["extent"] == Numbers(SelectExtent(m, api, activeMap.value.kind, vp.distance, vp.groundPosition))
  {
  }

  /**
   * With a reprojection target, each present position is mapped from WGS84 into it and the
   * extent is mapped corner by corner.
   */
  lemma GatedTransformsCoordinates(m: JsMath, api: ProjectionApi, engine: TemplateApi, activeMap: Option<ActiveMap>,
                                   templateUrl: string, options: Option<ProjectionOptions>)
    requires ViewpointOf(activeMap).Some?
    requires options.Some? && api.validateOptions(options.value)
    requires api.parseEpsgCode(options.value.epsg).Some?
    requires api.parseEpsgCode(options.value.epsg).value != api.wgs84Epsg
    ensures var r := CreateUrl(m, api, engine, activeMap, templateUrl, options);
      var vp := ViewpointOf(activeMap).value;
      var selected := SelectExtent(m, api, activeMap.value.kind, vp.distance, vp.groundPosition);
      && r.Success?
      && r.value.attributes["groundPosition"] == PositionValue(TransformPosition(api, options.value, vp.groundPosition))
      && r.value.attributes["cameraPosition"] == PositionValue(TransformPosition(api, options.value, vp.cameraPosition))
      && r.value.attributes["extent"] == Numbers(TransformExtent(api, options.value, selected))
  {
    var vp := ViewpointOf(activeMap).value;
    var selected := SelectExtent(m, api, activeMap.value.kind, vp.distance, vp.groundPosition);
    assert ReprojectionTarget(api, options) == options;
    var placed := Reproject(api, options, vp, selected);
    var r := CreateUrl(m, api, engine, activeMap, templateUrl, options);
    assert r.value.attributes == AssembleAttributes(vp, placed);
  }

  /**
   * Options that are never applied change nothing but the log: the URL and the attribute set
   * are those built without any projection options. In particular options that do not
   * validate, options whose `epsg` does not parse, and options naming WGS84 behave like no
   * options.
   */
  lemma UnappliedOptionsAreIdentity(m: JsMath, api: ProjectionApi, engine: TemplateApi, activeMap: Option<ActiveMap>,
                                    templateUrl: string, options: Option<ProjectionOptions>)
    requires ReprojectionTarget(api, options).None?
    ensures var withOptions := CreateUrl(m, api, engine, activeMap, templateUrl, options);
      var without := CreateUrl(m, api, engine, activeMap, templateUrl, None);
      && (withOptions.Success? <==> without.Success?)
      && (withOptions.Success? ==>
            withOptions.value.url == without.value.url &&
            withOptions.value.attributes == without.value.attributes)
  {
  }

  /**
   * Options with a proj4 definition but no `epsg` property are never applied, provided the
   * parser maps an absent code to none: the build then gives the URL and attribute set of a
   * build without options.
   */
  lemma Proj4OnlyOptionsNeverApplied(m: JsMath, api: ProjectionApi, engine: TemplateApi, activeMap: Option<ActiveMap>,
                                     templateUrl: string, options: ProjectionOptions)
    requires api.AbsentCodeParsesToNone()
    requires options.epsg.None?
    ensures ReprojectionTarget(api, Some(options)).None?
    ensures var withOptions := CreateUrl(m, api, engine, activeMap, templateUrl, Some(options));
      var without := CreateUrl(m, api, engine, activeMap, templateUrl, None);
      && (withOptions.Success? <==> without.Success?)
      && (withOptions.Success? ==>
            withOptions.value.url == without.value.url &&
            withOptions.value.attributes == without.value.attributes)
  {
  }

  /**
   * Invalid projection options never make the build fail: with a viewpoint it succeeds, logs
   * exactly the one warning, and substitutes untransformed coordinates.
   */
  lemma InvalidProjectionOnlyWarns(m: JsMath, api: ProjectionApi, engine: TemplateApi, activeMap: Option<ActiveMap>,
                                   templateUrl: string, options: ProjectionOptions)
    requires ViewpointOf(activeMap).Some?
    requires !api.validateOptions(options)
    ensures var r := CreateUrl(m, api, engine, activeMap, templateUrl, Some(options));
      && r.Success?
      && r.value.log == [INVALID_PROJECTION]
      && r.value.attributes == CreateUrl(m, api, engine, activeMap, templateUrl, None).value.attributes
  {
  }
}
