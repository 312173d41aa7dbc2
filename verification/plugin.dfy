/**
 * The link-button plugin: it normalises the configured buttons against the default
 * button, registers one toolbar action per distinct title, and serialises its
 * configuration back without the values that equal the defaults.
 */
module LinkButtonPlugin {
  import opened Wrappers
  import opened Platform
  import opened DefaultOptions
  import UrlHelper
  import UrlHelperProperties

  /** The plugin's configuration after normalisation: every kept button has every property. */
  datatype PluginConfig = PluginConfig(buttons: Option<seq<FullLinkButton>>)

  // ---------------------------------------------------------------------------
  // Normalisation

  /** JavaScript truthiness of the template URL: a button without one is not usable. */
  predicate HasTemplate(b: LinkButton) {
    b.templateUrl != ""
  }

  /** The buttons that have a template URL, in their original order. */
  function KeepConfigured(bs: seq<LinkButton>): (r: seq<LinkButton>)
    ensures |r| <= |bs|
    ensures forall b :: b in r ==> b in bs && HasTemplate(b)
    ensures forall b :: b in bs && HasTemplate(b) ==> b in r
  {
    if bs == [] then []
    else (if HasTemplate(bs[0]) then [bs[0]] else []) + KeepConfigured(bs[1..])
  }

  /**
   * A configured button completed by the default button, property by property: a property the
   * configuration sets wins, every other one takes the default value. The merge is shallow, so a
   * configured visibility replaces the default one as a whole.
   */
  function MergeDefaults(b: LinkButton): (f: FullLinkButton)
    ensures f.templateUrl == b.templateUrl
    ensures b.buttonLocation.Some? ==> f.buttonLocation == b.buttonLocation.value
    ensures b.buttonLocation.None? ==> f.buttonLocation == GetDefaultOptions().buttonLocation
    ensures b.title.Some? ==> f.title == b.title.value
    ensures b.title.None? ==> f.title == GetDefaultOptions().title
    ensures b.icon.Some? ==> f.icon == b.icon.value
    ensures b.icon.None? ==> f.icon == GetDefaultOptions().icon
    ensures b.projection.Some? ==> f.projection == b.projection.value
    ensures b.projection.None? ==> f.projection == GetDefaultOptions().projection
    ensures b.visibility.Some? ==> f.visibility == b.visibility.value
    ensures b.visibility.None? ==> f.visibility == GetDefaultOptions().visibility
  {
    var d := GetDefaultOptions();
    FullLinkButton(
      b.buttonLocation.GetOr(d.buttonLocation),
      b.templateUrl,
      b.title.GetOr(d.title),
      b.icon.GetOr(d.icon),
      b.projection.GetOr(d.projection),
      b.visibility.GetOr(d.visibility))
  }

  /** Every button of a list completed by the defaults, in order. */
  function MergeAll(bs: seq<LinkButton>): (r: seq<FullLinkButton>)
    ensures |r| == |bs|
    ensures forall i :: 0 <= i < |bs| ==> r[i] == MergeDefaults(bs[i])
  {
    seq(|bs|, i requires 0 <= i < |bs| => MergeDefaults(bs[i]))
  }

  /**
   * The configuration the plugin works with: buttons without a template URL are dropped, the
   * rest completed by the defaults. A configuration without a button list keeps none.
   */
  function Normalize(options: LinkButtonConfig): (c: PluginConfig)
    ensures c.buttons.Some? <==> options.buttons.Some?
    ensures options.buttons.Some? ==> c.buttons.value == MergeAll(KeepConfigured(options.buttons.value))
    ensures c.buttons.Some? ==> forall i :: 0 <= i < |c.buttons.value| ==> c.buttons.value[i].templateUrl != ""
  {
    match options.buttons
    case None => PluginConfig(None)
    case Some(bs) =>
      var kept := KeepConfigured(bs);
      assert forall i :: 0 <= i < |kept| ==> kept[i] in kept;
      PluginConfig(Some(MergeAll(kept)))
  }

  // ---------------------------------------------------------------------------
  // Registration of toolbar actions

  /** The prefix that makes the UI framework load an icon from a URL. */
  const IMAGE_URL_PREFIX: string := "imageUrl:"

  /** Whether an icon looks like a URL or a file name rather than an icon-set name. */
  predicate ContainsDotOrColon(s: string) {
    ':' in s || '.' in s
  }

  /** The icon handed to the toolbar: an image reference for URLs and file names, the name itself otherwise. */
  function ResolveIcon(icon: string): (r: string)
    ensures ContainsDotOrColon(icon) ==> r == IMAGE_URL_PREFIX + icon
    ensures !ContainsDotOrColon(icon) ==> r == icon
  {
    if ContainsDotOrColon(icon) then IMAGE_URL_PREFIX + icon else icon
  }

  /** Whether a resolved icon is an image reference. */
  predicate IsImageReference(r: string) {
    |IMAGE_URL_PREFIX| <= |r| && r[..|IMAGE_URL_PREFIX|] == IMAGE_URL_PREFIX
  }

  /** The configured icon a resolved icon came from. */
  function IconSource(r: string): string {
    if IsImageReference(r) then r[|IMAGE_URL_PREFIX|..] else r
  }

  /**
   * A toolbar entry: the id and the action's name and title are the button's title; the action
   * starts inactive, and its callback builds the share URL from the template URL and projection
   * recorded here.
   */
  datatype NavbarItem = NavbarItem(
    id: string,
    title: string,
    icon: string,
    active: bool,
    templateUrl: string,
    projection: ProjectionOptions,
    location: ButtonLocation,
    visibility: DeviceOptions)

  /** The toolbar entry registered for a button. */
  function ItemFor(b: FullLinkButton): (it: NavbarItem)
    ensures it.id == b.title && it.title == b.title && !it.active
    ensures it.icon == ResolveIcon(b.icon) && IconSource(it.icon) == b.icon
    ensures it.templateUrl == b.templateUrl && it.projection == b.projection
    ensures it.location == b.buttonLocation && it.visibility == b.visibility
  {
    ResolveIconInvertible(b.icon);
    NavbarItem(b.title, b.title, ResolveIcon(b.icon), false, b.templateUrl, b.projection, b.buttonLocation, b.visibility)
  }

  /** The warning logged for a button whose title is already a toolbar id. */
  function DuplicateWarning(title: string): LogEntry {
    Warning("button with name \"" + title + "\" is already added to the navbarManager")
  }

  /** The toolbar ids after initialisation, the entries this plugin added in order, and the warnings logged. */
  datatype Registration = Registration(ids: seq<string>, added: seq<NavbarItem>, log: seq<LogEntry>)

  /** The ids of a list of toolbar entries. */
  function IdsOf(items: seq<NavbarItem>): (ids: seq<string>)
    ensures |ids| == |items|
    ensures forall k :: 0 <= k < |items| ==> ids[k] == items[k].id
  {
    seq(|items|, k requires 0 <= k < |items| => items[k].id)
  }

  /** No id occurs twice. */
  predicate NoDuplicates(s: seq<string>) {
    forall i, j :: 0 <= i < j < |s| ==> s[i] != s[j]
  }

  /** The buttons of a normalised configuration; none when it has no button list. */
  function ButtonsOf(config: PluginConfig): seq<FullLinkButton> {
    if config.buttons.Some? then config.buttons.value else []
  }

  /** One step of initialisation: skip a button whose title is already an id, otherwise add its entry. */
  function RegisterButton(r: Registration, b: FullLinkButton): Registration {
    if b.title in r.ids then r.(log := r.log + [DuplicateWarning(b.title)])
    else r.(ids := r.ids + [b.title], added := r.added + [ItemFor(b)])
  }

  /** Whether button `j` is the first with its title and that title is not already a toolbar id. */
  predicate FirstFreeTitle(navbarIds: seq<string>, bs: seq<FullLinkButton>, j: nat)
    requires j < |bs|
  {
    bs[j].title !in navbarIds && forall k :: 0 <= k < j ==> bs[k].title != bs[j].title
  }

  /** The entries of those of the first `n` buttons whose title is free, in button order. */
  function FreshEntries(navbarIds: seq<string>, bs: seq<FullLinkButton>, n: nat): seq<NavbarItem>
    requires n <= |bs|
  {
    if n == 0 then []
    else FreshEntries(navbarIds, bs, n - 1) +
         (if FirstFreeTitle(navbarIds, bs, n - 1) then [ItemFor(bs[n - 1])] else [])
  }

  /** The warnings for those of the first `n` buttons whose title is taken, in button order. */
  function DuplicateWarnings(navbarIds: seq<string>, bs: seq<FullLinkButton>, n: nat): seq<LogEntry>
    requires n <= |bs|
  {
    if n == 0 then []
    else DuplicateWarnings(navbarIds, bs, n - 1) +
         (if FirstFreeTitle(navbarIds, bs, n - 1) then [] else [DuplicateWarning(bs[n - 1].title)])
  }

  /** What registering the first `i` buttons on a toolbar holding `navbarIds` has produced. */
  ghost predicate RegisteredPrefix(navbarIds: seq<string>, bs: seq<FullLinkButton>, i: nat, r: Registration)
    requires i <= |bs|
  {
    && r.ids == navbarIds + IdsOf(r.added)
    && NoDuplicates(IdsOf(r.added))
    && (forall it :: it in r.added ==> it.id !in navbarIds)
    && |r.added| + |r.log| == i
    && (forall j :: 0 <= j < i ==> bs[j].title in r.ids)
    && (forall it :: it in r.added ==> exists b :: b in bs[..i] && it == ItemFor(b))
    && (forall w :: w in r.log ==> exists b :: b in bs[..i] && w == DuplicateWarning(b.title))
    && (set x | x in IdsOf(r.added)) == (set j | 0 <= j < i :: bs[j].title) - (set x | x in navbarIds)
    && r.added == FreshEntries(navbarIds, bs, i)
    && r.log == DuplicateWarnings(navbarIds, bs, i)
  }

  /** Registering one more button keeps the toolbar ids, their freshness and the counts consistent. */
  lemma RegisterButtonKeepsIds(navbarIds: seq<string>, bs: seq<FullLinkButton>, i: nat, r: Registration)
    requires i < |bs| && RegisteredPrefix(navbarIds, bs, i, r)
    ensures var r' := RegisterButton(r, bs[i]);
      && r'.ids == navbarIds + IdsOf(r'.added)
      && NoDuplicates(IdsOf(r'.added))
      && (forall it :: it in r'.added ==> it.id !in navbarIds)
      && |r'.added| + |r'.log| == i + 1
      && (forall j :: 0 <= j < i + 1 ==> bs[j].title in r'.ids)
  {
  }

  /** Registering one more button keeps every entry and warning traceable to a registered button. */
  lemma RegisterButtonKeepsProvenance(navbarIds: seq<string>, bs: seq<FullLinkButton>, i: nat, r: Registration)
    requires i < |bs| && RegisteredPrefix(navbarIds, bs, i, r)
    ensures var r' := RegisterButton(r, bs[i]);
      && (forall it :: it in r'.added ==> exists b :: b in bs[..i + 1] && it == ItemFor(b))
      && (forall w :: w in r'.log ==> exists b :: b in bs[..i + 1] && w == DuplicateWarning(b.title))
  {
  }

  /** Registering one more button adds its title to the plugin's ids exactly when it was not an id before. */
  lemma RegisterButtonKeepsIdSet(navbarIds: seq<string>, bs: seq<FullLinkButton>, i: nat, r: Registration)
    requires i < |bs| && RegisteredPrefix(navbarIds, bs, i, r)
    ensures var r' := RegisterButton(r, bs[i]);
      (set x | x in IdsOf(r'.added)) == (set j | 0 <= j < i + 1 :: bs[j].title) - (set x | x in navbarIds)
  {
    var b := bs[i];
    var r' := RegisterButton(r, b);
    var titles := set j | 0 <= j < i :: bs[j].title;
    var navbar := set x | x in navbarIds;
    var before := set x | x in IdsOf(r.added);
    assert (set j | 0 <= j < i + 1 :: bs[j].title) == titles + {b.title};
    if b.title in r.ids {
      assert r'.added == r.added;
      assert b.title in navbar || b.title in before;
      assert (titles + {b.title}) - navbar == titles - navbar;
    } else {
      var item := ItemFor(b);
      assert r'.added == r.added + [item];
      assert IdsOf(r.added + [item]) == IdsOf(r.added) + [item.id];
      assert (set x | x in IdsOf(r'.added)) == before + {b.title};
      assert b.title !in navbar;
      assert (titles + {b.title}) - navbar == (titles - navbar) + {b.title};
    }
  }

  /**
   * A button is skipped exactly when it is not the first with a free title, so one more step
   * extends the added entries and the warnings as the index filters say.
   */
  lemma RegisterButtonFollowsFilter(navbarIds: seq<string>, bs: seq<FullLinkButton>, i: nat, r: Registration)
    requires i < |bs| && RegisteredPrefix(navbarIds, bs, i, r)
    ensures bs[i].title in r.ids <==> !FirstFreeTitle(navbarIds, bs, i)
    ensures RegisterButton(r, bs[i]).added == FreshEntries(navbarIds, bs, i + 1)
    ensures RegisterButton(r, bs[i]).log == DuplicateWarnings(navbarIds, bs, i + 1)
  {
    var t := bs[i].title;
    var titles := set j | 0 <= j < i :: bs[j].title;
    var navbar := set x | x in navbarIds;
    var before := set x | x in IdsOf(r.added);
    assert before == titles - navbar;
    assert t in IdsOf(r.added) <==> t in before;
    assert t in navbarIds <==> t in navbar;
    if FirstFreeTitle(navbarIds, bs, i) {
      assert t !in titles;
    } else if t !in navbarIds {
      var k :| 0 <= k < i && bs[k].title == t;
      assert t in titles;
    }
  }

  /** Registering one more button keeps everything `RegisteredPrefix` says. */
  lemma RegisterButtonStep(navbarIds: seq<string>, bs: seq<FullLinkButton>, i: nat, r: Registration)
    requires i < |bs| && RegisteredPrefix(navbarIds, bs, i, r)
    ensures RegisteredPrefix(navbarIds, bs, i + 1, RegisterButton(r, bs[i]))
  {
    RegisterButtonKeepsIds(navbarIds, bs, i, r);
    RegisterButtonKeepsProvenance(navbarIds, bs, i, r);
    RegisterButtonKeepsIdSet(navbarIds, bs, i, r);
    RegisterButtonFollowsFilter(navbarIds, bs, i, r);
  }

  /**
   * Registers the configured buttons, in order, on a toolbar that already holds `navbarIds`. A
   * button whose title is already an id (the toolbar's, or an earlier button's) is skipped with
   * a warning; any other is added with its title as id. So the entries added are those of the
   * first button with each free title, in button order, and no other id is added.
   */
  method Initialize(navbarIds: seq<string>, config: PluginConfig) returns (r: Registration)
    ensures config.buttons.None? ==> r == Registration(navbarIds, [], [])
    ensures r.ids == navbarIds + IdsOf(r.added)
    ensures NoDuplicates(IdsOf(r.added))
    ensures forall it :: it in r.added ==> it.id !in navbarIds
    ensures NoDuplicates(navbarIds) ==> NoDuplicates(r.ids)
    ensures |r.added| + |r.log| == |ButtonsOf(config)|
    ensures forall b :: b in ButtonsOf(config) ==> b.title in r.ids
    ensures forall it :: it in r.added ==> exists b :: b in ButtonsOf(config) && it == ItemFor(b)
    ensures forall w :: w in r.log ==> exists b :: b in ButtonsOf(config) && w == DuplicateWarning(b.title)
    ensures (set x | x in IdsOf(r.added)) ==
            (set b | b in ButtonsOf(config) :: b.title) - (set x | x in navbarIds)
    ensures r.added == FreshEntries(navbarIds, ButtonsOf(config), |ButtonsOf(config)|)
    ensures r.log == DuplicateWarnings(navbarIds, ButtonsOf(config), |ButtonsOf(config)|)
  {
    var bs := ButtonsOf(config);
    r := Registration(navbarIds, [], []);
    var i := 0;
    RegisteredNothing(navbarIds, bs);
    while i < |bs|
      invariant i <= |bs|
      invariant RegisteredPrefix(navbarIds, bs, i, r)
    {
      RegisterButtonStep(navbarIds, bs, i, r);
      r := RegisterButton(r, bs[i]);
      i := i + 1;
    }
    RegisteredAll(navbarIds, bs, r);
  }

  /** Before any button is registered, the toolbar holds just its own ids. */
  lemma RegisteredNothing(navbarIds: seq<string>, bs: seq<FullLinkButton>)
    ensures RegisteredPrefix(navbarIds, bs, 0, Registration(navbarIds, [], []))
  {
  }

  /** Having registered every button, the registration has everything `Initialize` promises. */
  lemma RegisteredAll(navbarIds: seq<string>, bs: seq<FullLinkButton>, r: Registration)
    requires RegisteredPrefix(navbarIds, bs, |bs|, r)
    ensures NoDuplicates(navbarIds) ==> NoDuplicates(r.ids)
    ensures forall it :: it in r.added ==> exists b :: b in bs && it == ItemFor(b)
    ensures forall w :: w in r.log ==> exists b :: b in bs && w == DuplicateWarning(b.title)
    ensures (set x | x in IdsOf(r.added)) == (set b | b in bs :: b.title) - (set x | x in navbarIds)
  {
  }

  /**
   * What the callback of a registered entry computes: the share URL for the entry's template and
   * projection. A normalised button always passes its projection options, so a click logs the
   * invalid-projection warning exactly when those options (the empty default included) do not
   * validate, and fails only with the no-viewpoint message. Distance and the three angles pass
   * through. Options that are no reprojection target substitute what a build without options
   * would; a target maps both positions and the extent into it.
   */
  function Click(m: JsMath, api: ProjectionApi, engine: TemplateApi, activeMap: Option<ActiveMap>, item: NavbarItem)
    : (r: Result<UrlHelper.SharedUrl, string>)
    ensures r.Failure? <==> activeMap.None? || activeMap.value.viewpoint.None?
    ensures r.Success? ==> (r.value.log == [] <==> api.validateOptions(item.projection))
    ensures r.Success? ==> r.value.url == engine.encodeUri(engine.replaceAttributes(item.templateUrl, r.value.attributes))
    ensures r.Failure? ==> r.error == UrlHelper.NO_VIEWPOINT
    ensures r.Success? ==> r.value.log == UrlHelper.ProjectionWarnings(api, Some(item.projection))
    ensures r.Success? ==> r.value.attributes.Keys == UrlHelper.ATTRIBUTE_NAMES
    ensures r.Success? ==>
      var vp := UrlHelper.ViewpointOf(activeMap).value;
      && r.value.attributes["distance"] == UrlHelper.NumberValue(vp.distance)
      && r.value.attributes["heading"] == UrlHelper.NumberValue(vp.heading)
      && r.value.attributes["pitch"] == UrlHelper.NumberValue(vp.pitch)
      && r.value.attributes["roll"] == UrlHelper.NumberValue(vp.roll)
    ensures r.Success? && UrlHelper.ReprojectionTarget(api, Some(item.projection)).None? ==>
      r.value.attributes == UrlHelper.CreateUrl(m, api, engine, activeMap, item.templateUrl, None).value.attributes
    ensures r.Success? && UrlHelper.ReprojectionTarget(api, Some(item.projection)).Some? ==>
      var vp := UrlHelper.ViewpointOf(activeMap).value;
      var selected := UrlHelper.SelectExtent(m, api, activeMap.value.kind, vp.distance, vp.groundPosition);
      && r.value.attributes["groundPosition"] ==
           UrlHelper.PositionValue(UrlHelper.TransformPosition(api, item.projection, vp.groundPosition))
      && r.value.attributes["cameraPosition"] ==
           UrlHelper.PositionValue(UrlHelper.TransformPosition(api, item.projection, vp.cameraPosition))
      && r.value.attributes["extent"] == Numbers(UrlHelper.TransformExtent(api, item.projection, selected))
  {
    var options := Some(item.projection);
    if UrlHelper.ViewpointOf(activeMap).None? then
      UrlHelper.CreateUrl(m, api, engine, activeMap, item.templateUrl, options)
    else if UrlHelper.ReprojectionTarget(api, options).None? then
      UrlHelperProperties.UnappliedOptionsAreIdentity(m, api, engine, activeMap, item.templateUrl, options);
      UrlHelperProperties.CreateUrlShape(m, api, engine, activeMap, item.templateUrl, options);
      UrlHelper.CreateUrl(m, api, engine, activeMap, item.templateUrl, options)
    else
      UrlHelperProperties.GatedTransformsCoordinates(m, api, engine, activeMap, item.templateUrl, options);
      UrlHelperProperties.CreateUrlShape(m, api, engine, activeMap, item.templateUrl, options);
      UrlHelper.CreateUrl(m, api, engine, activeMap, item.templateUrl, options)
  }

  // ---------------------------------------------------------------------------
  // Defaults and serialisation

  /** The plugin's default configuration: exactly one button, the default button. */
  function PluginDefaultOptions(): LinkButtonConfig {
    LinkButtonConfig(Some([AsLinkButton(GetDefaultOptions())]))
  }

  /** The configured visibilities that differ from the default one. */
  function VisibilityDiff(v: DeviceOptions): (d: DeviceOptions)
    ensures d.Keys <= v.Keys
    ensures forall k :: k in d ==> d[k] == v[k] && d[k] != DefaultVisibilityOf(k)
    ensures forall k :: k in v && v[k] != DefaultVisibilityOf(k) ==> k in d
  {
    map k | k in v && v[k] != DefaultVisibilityOf(k) :: v[k]
  }

  /**
   * A normalised button as configuration, without what equals the default: the template URL
   * is always written, location, title and icon only when they differ from the default, the
   * projection always (a normalised button always has one), and visibility only for the devices
   * that differ, and not at all when none does.
   */
  function ToJsonButton(b: FullLinkButton): (j: LinkButton)
    ensures j.templateUrl == b.templateUrl
    ensures j.buttonLocation.None? <==> b.buttonLocation == GetDefaultOptions().buttonLocation
    ensures j.buttonLocation.Some? ==> j.buttonLocation.value == b.buttonLocation
    ensures j.title.None? <==> b.title == GetDefaultOptions().title
    ensures j.title.Some? ==> j.title.value == b.title
    ensures j.icon.None? <==> b.icon == GetDefaultOptions().icon
    ensures j.icon.Some? ==> j.icon.value == b.icon
    ensures j.projection == Some(b.projection)
    ensures j.visibility.None? <==> forall k :: k in b.visibility ==> b.visibility[k] == DefaultVisibilityOf(k)
    ensures j.visibility.Some? ==> j.visibility.value == VisibilityDiff(b.visibility) && j.visibility.value != map[]
  {
    var d := GetDefaultOptions();
    var diff := VisibilityDiff(b.visibility);
    LinkButton(
      buttonLocation := if b.buttonLocation != d.buttonLocation then Some(b.buttonLocation) else None,
      templateUrl := b.templateUrl,
      title := if b.title != d.title then Some(b.title) else None,
      icon := if b.icon != d.icon then Some(b.icon) else None,
      projection := Some(b.projection),
      visibility := if diff != map[] then Some(diff) else None)
  }

  /** The plugin's serialisation: every normalised button without its default values. */
  function ToJson(c: PluginConfig): (j: LinkButtonConfig)
    ensures j.buttons.Some? <==> c.buttons.Some?
    ensures c.buttons.Some? ==> |j.buttons.value| == |c.buttons.value|
    ensures c.buttons.Some? ==> forall i :: 0 <= i < |c.buttons.value| ==> j.buttons.value[i] == ToJsonButton(c.buttons.value[i])
  {
    match c.buttons
    case None => LinkButtonConfig(None)
    case Some(bs) => LinkButtonConfig(Some(seq(|bs|, i requires 0 <= i < |bs| => ToJsonButton(bs[i]))))
  }

  // ---------------------------------------------------------------------------
  // Properties

  /** Keeping the configured buttons distributes over concatenation, so their order is kept. */
  lemma {:induction false} KeepConfiguredAppend(a: seq<LinkButton>, b: seq<LinkButton>)
    ensures KeepConfigured(a + b) == KeepConfigured(a) + KeepConfigured(b)
  {
    if a == [] {
      assert a + b == b;
    } else {
      assert (a + b)[0] == a[0];
      assert (a + b)[1..] == a[1..] + b;
      KeepConfiguredAppend(a[1..], b);
    }
  }

  /** A list whose buttons all have a template URL is kept as it is. */
  lemma {:induction false} KeepConfiguredAll(bs: seq<LinkButton>)
    requires forall i :: 0 <= i < |bs| ==> HasTemplate(bs[i])
    ensures KeepConfigured(bs) == bs
  {
    if bs != [] {
      KeepConfiguredAll(bs[1..]);
      assert [bs[0]] + bs[1..] == bs;
    }
  }

  /** Icon resolution loses nothing: the configured icon can be read back from the resolved one. */
  lemma ResolveIconInvertible(icon: string)
    ensures IconSource(ResolveIcon(icon)) == icon
    ensures IsImageReference(ResolveIcon(icon)) <==> ContainsDotOrColon(icon)
  {
    var r := ResolveIcon(icon);
    if ContainsDotOrColon(icon) {
      assert r[..|IMAGE_URL_PREFIX|] == IMAGE_URL_PREFIX;
      assert r[|IMAGE_URL_PREFIX|..] == icon;
    } else if IsImageReference(r) {
      ImageReferenceHasColon(r);
      assert false;
    }
  }

  /** An image reference contains a colon, the last character of its prefix. */
  lemma ImageReferenceHasColon(r: string)
    requires IsImageReference(r)
    ensures ':' in r
  {
    assert r[|IMAGE_URL_PREFIX| - 1] == r[..|IMAGE_URL_PREFIX|][|IMAGE_URL_PREFIX| - 1] == ':';
  }

  /** The default button has no template, so a default configuration normalises to no buttons. */
  lemma DefaultButtonIsDropped()
    ensures GetDefaultOptions().templateUrl == "" && GetDefaultOptions().title == ""
    ensures Normalize(PluginDefaultOptions()) == PluginConfig(Some([]))
  {
  }

  /** The default icon is an icon-set name, which icon resolution leaves unchanged. */
  lemma DefaultIconIsPlain()
    ensures !ContainsDotOrColon(DefaultIcon)
    ensures ResolveIcon(GetDefaultOptions().icon) == GetDefaultOptions().icon
  {
  }

  /**
   * The default configuration has exactly one button carrying every default value: a toolbar
   * button visible on every device with the empty projection options.
   */
  lemma PluginDefaultsAreTheDefaultButton()
    ensures var c := PluginDefaultOptions();
      && c.buttons.Some? && |c.buttons.value| == 1
      && MergeDefaults(c.buttons.value[0]) == GetDefaultOptions()
      && c.buttons.value[0].buttonLocation == Some(Tool)
      && c.buttons.value[0].projection == Some(EmptyProjectionOptions)
      && c.buttons.value[0].visibility == Some(DefaultVisibility)
      && forall d :: d in DefaultVisibility && DefaultVisibility[d]
  {
    forall d: Device ensures d in DefaultVisibility && DefaultVisibility[d] {
      match d
      case Mobile =>
      case Tablet =>
      case Desktop =>
    }
  }

  /** The visibility a device effectively has when a missing key means the default value. */
  function EffectiveVisibility(v: DeviceOptions, d: Device): bool {
    if d in v then v[d] else DefaultVisibilityOf(d)
  }

  /** Two normalised buttons that differ at most in which default-valued devices are listed. */
  predicate SameButton(a: FullLinkButton, b: FullLinkButton) {
    && a.buttonLocation == b.buttonLocation
    && a.templateUrl == b.templateUrl
    && a.title == b.title
    && a.icon == b.icon
    && a.projection == b.projection
    && forall d :: EffectiveVisibility(a.visibility, d) == EffectiveVisibility(b.visibility, d)
  }

  /** Two normalised configurations whose buttons are pairwise the same. */
  predicate SameConfig(a: PluginConfig, b: PluginConfig) {
    && (a.buttons.Some? <==> b.buttons.Some?)
    && (a.buttons.Some? ==>
          && |a.buttons.value| == |b.buttons.value|
          && forall i :: 0 <= i < |a.buttons.value| ==> SameButton(a.buttons.value[i], b.buttons.value[i]))
  }

  /** Re-normalising a serialised button gives the button back, up to default-valued devices. */
  lemma ButtonRoundTrip(b: FullLinkButton)
    ensures SameButton(MergeDefaults(ToJsonButton(b)), b)
  {
  }

  /** Serialising a re-normalised serialisation changes nothing. */
  lemma ButtonSerialisationIsStable(b: FullLinkButton)
    ensures ToJsonButton(MergeDefaults(ToJsonButton(b))) == ToJsonButton(b)
  {
    var j := ToJsonButton(b);
    var diff := VisibilityDiff(b.visibility);
    assert VisibilityDiff(diff) == diff;
    assert VisibilityDiff(DefaultVisibility) == map[];
  }

  /** The serialised buttons of a normalised configuration all survive re-normalisation. */
  lemma SerialisedButtonsAreKept(c: PluginConfig)
    requires c.buttons.Some? ==> forall i :: 0 <= i < |c.buttons.value| ==> c.buttons.value[i].templateUrl != ""
    ensures ToJson(c).buttons.Some? ==> KeepConfigured(ToJson(c).buttons.value) == ToJson(c).buttons.value
  {
    if c.buttons.Some? {
      KeepConfiguredAll(ToJson(c).buttons.value);
    }
  }

  /**
   * Serialisation drops only default values: normalising the serialised configuration gives the
   * normalised configuration back, up to visibility keys that carry their default value.
   */
  lemma ToJsonRoundTrip(options: LinkButtonConfig)
    ensures SameConfig(Normalize(ToJson(Normalize(options))), Normalize(options))
  {
    var c := Normalize(options);
    SerialisedButtonsAreKept(c);
    if c.buttons.Some? {
      var again := Normalize(ToJson(c));
      forall i | 0 <= i < |c.buttons.value|
        ensures SameButton(again.buttons.value[i], c.buttons.value[i])
      {
        ButtonRoundTrip(c.buttons.value[i]);
      }
    }
  }

  /** The serialisation is a fixed point: serialising what it normalises to reproduces it exactly. */
  lemma ToJsonIsStable(options: LinkButtonConfig)
    ensures ToJson(Normalize(ToJson(Normalize(options)))) == ToJson(Normalize(options))
  {
    var c := Normalize(options);
    SerialisedButtonsAreKept(c);
    if c.buttons.Some? {
      var bs := c.buttons.value;
      var js := ToJson(c).buttons.value;
      var merged := Normalize(ToJson(c)).buttons.value;
      assert merged == MergeAll(js);
      var again := ToJson(Normalize(ToJson(c))).buttons.value;
      forall i | 0 <= i < |js|
        ensures again[i] == js[i]
      {
        assert js[i] == ToJsonButton(bs[i]);
        assert merged[i] == MergeDefaults(js[i]);
        ButtonSerialisationIsStable(bs[i]);
      }
      assert again == js;
    }
  }

  /**
   * The round trip is not exact: a button hidden on mobile only is serialised with the mobile key
   * alone, and the shallow merge then does not restore the tablet and desktop keys.
   */
  lemma ExactRoundTripFails()
    ensures var options := LinkButtonConfig(Some([LinkButton(None, "https://example.com/{{extent}}", None, None, None,
                                                            Some(map[Mobile := false, Tablet := true, Desktop := true]))]));
      Normalize(ToJson(Normalize(options))) != Normalize(options)
  {
    var v := map[Mobile := false, Tablet := true, Desktop := true];
    var options := LinkButtonConfig(Some([LinkButton(None, "https://example.com/{{extent}}", None, None, None, Some(v))]));
    var c := Normalize(options);
    assert c.buttons.value[0].visibility == v;
    assert VisibilityDiff(v) == map[Mobile := false];
    var j := ToJsonButton(c.buttons.value[0]);
    assert Mobile in v && v[Mobile] != DefaultVisibilityOf(Mobile);
    assert j.visibility == Some(map[Mobile := false]);
    assert ToJson(c).buttons.value == [j];
    assert KeepConfigured([j]) == [j];
    assert Normalize(ToJson(c)).buttons.value == [MergeDefaults(j)];
    assert Tablet !in MergeDefaults(j).visibility;
  }
}
