# Link button: share-URL builder and plugin configuration, in Dafny

This project models the core of the map-link-button plugin for the VC Map.
The plugin adds toolbar buttons. Each button opens a URL built from an operator-supplied template, filled with the active map's current viewpoint.

The model has two parts.

- **Share-URL assembly** (`UrlHelper`, `url_helper.dfy`). `createUrl` reads the active map's viewpoint and fails when there is none. It picks the visible extent by map kind:
  - a 3D (Cesium, perspective) map gets an estimated extent;
  - a 2D or oblique (planar) map gets the corners of its OpenLayers view;
  - any other map gets an empty extent.

  The target projection is applied only when it validates and names an EPSG code other than WGS84's. Seven named values then go to the template engine, and the result is URI-encoded. The map kind is a closed variant (`MapKind`), and every optional viewpoint property is an `Option`.
- **Plugin configuration** (`LinkButtonPlugin`, `plugin.dfy`, and `DefaultOptions`, `default_options.dfy`). This part covers:
  - normalising the configured buttons against the default button;
  - resolving icons;
  - registering one toolbar entry per distinct title;
  - serialising the configuration without its default values.

Foreign code is modelled as function-valued fields of records in module `Platform` (`platform.dfy`):
- JavaScript's `Math` and division by a possibly-zero divisor (`JsMath`);
- the map framework's projection API (`ProjectionApi`);
- the template engine and `encodeURI` (`TemplateApi`).

The model never looks inside these functions, so every theorem holds whatever they compute. There are two exceptions. Positions are typed to hold at least two numbers (`Coordinate`), both those the projection conversions return and those of the viewpoint `getViewpoint` resolves to; the source declares them as plain number arrays (see Left out). And `encodeURI` is total here (see the CreateUrl line under Left out). Numbers are exact reals.

`UrlHelperProperties` (`url_helper_properties.dfy`) holds the lemmas that relate several URL builds.

Observations the proofs make precise:
- The code has no zero-height guard. For a 3D map the extent is computed whenever the canvas, a non-zero distance and a ground position are present, even when the canvas height is 0.
- A normalised button always has projection options, because the default is the empty options object. So the serialisation always writes `projection`, even when it equals the default. Each click therefore logs the invalid-projection warning exactly when those options do not validate (`Click`).
- Normalising the serialisation does not give back exactly the normalised configuration. Visibility is merged shallowly and serialised per device, so a button hidden only on mobile comes back with the mobile key alone (`ExactRoundTripFails`). The round trip holds when a missing device key is read as its default value (`ToJsonRoundTrip`). The serialisation itself is a fixed point (`ToJsonIsStable`).

## Model

| member | source | states |
|---|---|---|
| UrlHelper.MoveOnEarthAsSphere | src/urlHelper.ts:19-40 | The spherical destination formula yields exactly two numbers, longitude and latitude. Any height of the start point is dropped. |
| UrlHelperProperties.MoveByZeroStays | src/urlHelper.ts:19-40 | Moving zero metres returns the start point's longitude and latitude. Only the trigonometric identities the formula needs at that point are assumed. |
| UrlHelper.CalculateExtentForCesium | src/urlHelper.ts:48-76 | The perspective extent has four numbers. They are two destinations from the same centre at the same distance, along bearings exactly π apart. |
| UrlHelper.PlanarExtent | src/urlHelper.ts:103-107 | The planar extent converts corner (0,1) and then corner (2,3) from Web Mercator. It has at least four numbers, and exactly four when the conversion keeps points two-dimensional. |
| UrlHelper.SelectExtent | src/urlHelper.ts:92-108 | A perspective map gets a non-empty extent iff canvas, a non-zero distance and a ground position are all present. A planar map gets one iff it has an OpenLayers map. Any other map gets an empty extent. A non-empty extent has at least four numbers. |
| UrlHelper.ProjectionWarnings | src/urlHelper.ts:110-114 | Exactly one "projection not valid" warning is logged iff options are given and do not validate. Otherwise nothing is logged. |
| UrlHelper.ReprojectionTarget | src/urlHelper.ts:110-117 | Reprojection happens iff the options are present, validate, have an `epsg` that parses, and that code differs from WGS84's. The target is then the given options. |
| UrlHelper.TransformPosition | src/urlHelper.ts:118-129 | A present position is transformed from WGS84 into the target. An absent one stays absent. |
| UrlHelper.TransformExtent | src/urlHelper.ts:130-141 | An empty extent stays empty. A non-empty one is transformed corner by corner, numbers 0-1 then 2-3, and keeps four numbers when the transform keeps points two-dimensional. |
| UrlHelper.Reproject | src/urlHelper.ts:116-142 | Without a target, positions and extent are unchanged. With one, they are all transformed. Either way presence and shape are kept. |
| UrlHelper.AssembleAttributes | src/urlHelper.ts:143-151 | The attribute set has exactly the seven names groundPosition, cameraPosition, distance, heading, pitch, roll and extent. The extent is always a list. |
| UrlHelper.CreateUrl | src/urlHelper.ts:78-154 | The build fails with "no active map or viewpoint" iff there is no viewpoint, for templates of Unicode characters. Otherwise the URL is the encoded substitution of the seven-name attribute set, and the log is exactly the projection warnings. |
| UrlHelperProperties.IdentityTransformKeepsPlacement | src/urlHelper.ts:130-141 | A transform that moves no point leaves positions and a four-number extent unchanged. So the corners go back in their original order. |
| UrlHelperProperties.AttributesRoundTrip | src/urlHelper.ts:143-151 | Positions, extent, distance, heading, pitch and roll can all be read back from the attribute set. Nothing is lost, and the scalars pass through untouched. |
| UrlHelperProperties.CreateUrlShape | src/urlHelper.ts:89-151 | Position attributes are undefined iff absent from the viewpoint. Distance, heading, pitch and roll pass through. The extent is empty iff none was selected, and otherwise has four numbers when the conversions keep points two-dimensional. |
| UrlHelperProperties.UngatedKeepsCoordinates | src/urlHelper.ts:110-142 | With no options, invalid options, no parseable EPSG code, or the WGS84 code, positions and extent reach the template unchanged. |
| UrlHelperProperties.GatedTransformsCoordinates | src/urlHelper.ts:116-142 | With valid options naming a non-WGS84 code, present positions are transformed and the extent is transformed corner by corner. |
| UrlHelperProperties.UnappliedOptionsAreIdentity | src/urlHelper.ts:110-153 | Options that are not applied give the same URL and attributes as no options. This covers options that do not validate, options whose `epsg` does not parse, and options naming WGS84. |
| UrlHelperProperties.Proj4OnlyOptionsNeverApplied | src/urlHelper.ts:115-116 | Options with a proj4 definition but no `epsg` are never a reprojection target, and give the URL and attributes of a build without options. This holds when the parser maps an absent code to none (`AbsentCodeParsesToNone`). |
| UrlHelperProperties.InvalidProjectionOnlyWarns | src/urlHelper.ts:110-114 | Invalid options never make the build fail. The build logs exactly one warning and substitutes untransformed values. |
| DefaultOptions.AsLinkButton | src/index.ts:90-94 | A full button used as a configuration entry has every property present, with its value. |
| LinkButtonPlugin.KeepConfigured | src/index.ts:24-25 | Exactly the buttons with a non-empty template URL are kept: every kept button has one and comes from the input, and every such input button is kept. |
| LinkButtonPlugin.KeepConfiguredAppend | src/index.ts:24-25 | Filtering distributes over concatenation, so the kept buttons stay in their original order. |
| LinkButtonPlugin.KeepConfiguredAll | src/index.ts:24-25 | A list whose buttons all have a template URL is kept unchanged. |
| LinkButtonPlugin.MergeDefaults | src/index.ts:26-28 | Each property of the normalised button is the configured value when given, and the default otherwise. The template URL is kept as is. |
| LinkButtonPlugin.Normalize | src/index.ts:22-29 | An absent button list stays absent. Otherwise the list is the kept buttons merged with the defaults, and every normalised button has a template URL. |
| LinkButtonPlugin.ResolveIcon | src/index.ts:54-59 | An icon containing ':' or '.' becomes "imageUrl:" followed by the icon. Any other icon is unchanged. |
| LinkButtonPlugin.ResolveIconInvertible | src/index.ts:54-59 | The configured icon can be recovered from the resolved one. A resolved icon is an image reference iff the icon contained ':' or '.'. |
| LinkButtonPlugin.ItemFor | src/index.ts:61-81 | A toolbar entry has the button's title as id, name and title, and starts inactive. It has the resolved icon, the button's location and visibility, and the template and projection its callback uses. |
| LinkButtonPlugin.RegisterButtonStep | src/index.ts:49-81 | One `RegisterButton` step keeps the registration invariant. Ids are the toolbar's plus the added ones, with no duplicates among the added. Every entry and warning is traceable to a button. The added ids are the titles not registered before. The entries and warnings so far are those of the first button with each free title, and of the other buttons, in button order. |
| LinkButtonPlugin.RegisterButtonFollowsFilter | src/index.ts:44-82 | A button's title is already an id iff the button is not the first with a title absent from the toolbar. So one `RegisterButton` step adds an entry exactly for such a first button, and a warning otherwise. |
| LinkButtonPlugin.Initialize | src/index.ts:45-83 | A duplicate title is skipped with a warning, and any other button is added with its title as id. The entries added are exactly those of the first button with each title absent from the toolbar, in button order. The warnings are those of the remaining buttons, in button order. The added ids are exactly the titles not already registered, each once. If the toolbar ids had no duplicates, neither do the final ids. |
| LinkButtonPlugin.Click | src/index.ts:66-73 | A click builds the share URL from the entry's template and projection. It fails only without a viewpoint, with the no-viewpoint message. Its log is exactly the projection warnings: one warning iff the options do not validate. Distance, heading, pitch and roll pass through. Options that are no reprojection target give the attributes of a build without options. A target maps both positions and the extent into it. |
| LinkButtonPlugin.VisibilityDiff | src/index.ts:115-120 | The diff keeps exactly the configured devices whose visibility differs from the default, with their configured values. |
| LinkButtonPlugin.ToJsonButton | src/index.ts:99-128 | The template URL is always written. Location, title and icon are written iff they differ from the default. The projection is always written. Visibility is written with exactly the differing devices, and omitted iff none differs. |
| LinkButtonPlugin.ToJson | src/index.ts:98-130 | An absent button list stays absent. Otherwise every normalised button is serialised, in order. |
| LinkButtonPlugin.ButtonRoundTrip | src/index.ts:99-128 | Re-normalising a serialised button gives it back. Visibility matches when a missing device key is read as its default. |
| LinkButtonPlugin.ButtonSerialisationIsStable | src/index.ts:99-128 | Serialising a re-normalised serialised button reproduces that serialisation exactly. |
| LinkButtonPlugin.ToJsonRoundTrip | src/index.ts:95-130 | Normalising the serialisation of a normalised configuration gives it back, up to visibility keys that carry their default value. |
| LinkButtonPlugin.ToJsonIsStable | src/index.ts:98-130 | Serialisation is a fixed point: serialising what a serialisation normalises to gives the same serialisation. |
| LinkButtonPlugin.ExactRoundTripFails | src/index.ts:115-126 | A concrete configuration whose exact round trip fails: a button hidden on mobile only loses its tablet and desktop keys. |
| LinkButtonPlugin.DefaultButtonIsDropped | src/defaultOptions.ts:19-20 | The default template URL and title in `GetDefaultOptions` are empty, so the plugin's default configuration (`PluginDefaultOptions`) normalises to no buttons. |
| LinkButtonPlugin.DefaultIconIsPlain | src/defaultOptions.ts:21 | The default icon contains neither ':' nor '.', so icon resolution leaves it unchanged. |
| LinkButtonPlugin.PluginDefaultsAreTheDefaultButton | src/index.ts:87-94 | The plugin's defaults (`PluginDefaultOptions`) have exactly one button, and merging it with the defaults gives the default record (`GetDefaultOptions`). Its location is TOOL, its projection the empty options, and it is visible on every device. |

## Left out

- Spherical trigonometry, the 60-degree angle of view and the aspect-ratio arithmetic are kept, but sin, cos, tan, asin, atan2, sqrt and division by the canvas-dependent ratios are uninterpreted.
- Numbers are exact reals. IEEE rounding, infinities and NaN are not modelled. The two perspective bearings differ by exactly π only in this exact arithmetic.
- MoveOnEarthAsSphere: the contract states only the shape of the result. The geodesic round trip and the numeric scenarios need real trigonometry, which is uninterpreted here.
- PlanarExtent: "at least four numbers", and the presence of transformed positions, rest on typing positions as holding at least two numbers. This applies to the results of `mercatorToWgs84` and `transformFrom`, and to the viewpoint's `groundPosition` and `cameraPosition`, which `moveOnEarthAsSphere` indexes at 0 and 1. The source declares all of them as plain number arrays. Every extent and attribute theorem relies on this typing, including those for SelectExtent, TransformExtent, Reproject, CreateUrl and Click.
- CreateUrl: `encodeURI` throws on a lone UTF-16 surrogate in the template, which would be a second way for the build to fail. The model's strings are sequences of Unicode characters, which cannot hold a lone surrogate, and `encodeUri` is total. So "fails iff there is no viewpoint" holds for templates of Unicode characters only.
- SelectExtent: four numbers are promised only when the foreign conversions keep two-number points two-dimensional (`KeepsPlanarPoints`), since those conversions are not visible.
- ToJsonRoundTrip: visibility is equal only when a missing device key reads as its default value. Exact equality fails (`ExactRoundTripFails`).
- The projection API is uninterpreted: `Projection.validateOptions`, `parseEPSGCode`, `transformFrom`, `mercatorToWgs84` and `wgs84Projection.epsg`. A parsed code and the WGS84 code are taken to be comparable strings, and a falsy parse result is `None`.
- `replaceAttributes` and `encodeURI` are uninterpreted. Placeholder syntax is their concern.
- The asynchronous `getViewpoint` call, the Cesium scene and canvas, and the OpenLayers view are inputs: the viewpoint the query resolved to, the canvas size, and the view's extent.
- `openUrl` is DOM manipulation. A click is modelled only up to the URL it builds.
- The plugin's name, version and mapVersion getters, `getConfigEditors`, `destroy`, the i18n tables and the editor component are UI and lifecycle plumbing with no behaviour to state.
- The owner name passed to the toolbar and the logger names are not modelled. A log entry is only its message.
- The toolbar manager is modelled as the list of ids it holds before initialisation.
- Property values written explicitly as `null` or `undefined` are not modelled: an absent property is `None`. Visibility keys other than mobile, tablet and desktop are not modelled either.
- `ButtonLocation` is the UI framework's enumeration; only its identity comparisons and the default `TOOL` matter here.
