/** The link button's configuration types and its default button. */
module DefaultOptions {
  import opened Wrappers
  import opened Platform

  /** A button as configured: only the template URL is required; None is a property left out. */
  datatype LinkButton = LinkButton(
    buttonLocation: Option<ButtonLocation>,
    templateUrl: string,
    title: Option<string>,
    icon: Option<string>,
    projection: Option<ProjectionOptions>,
    visibility: Option<DeviceOptions>)

  /** The plugin's configuration: an optional list of buttons. */
  datatype LinkButtonConfig = LinkButtonConfig(buttons: Option<seq<LinkButton>>)

  /** A button with every property set. */
  datatype FullLinkButton = FullLinkButton(
    buttonLocation: ButtonLocation,
    templateUrl: string,
    title: string,
    icon: string,
    projection: ProjectionOptions,
    visibility: DeviceOptions)

  /** A button with every property set, as a configuration entry: every property present with its value. */
  function AsLinkButton(f: FullLinkButton): (b: LinkButton)
    ensures b.templateUrl == f.templateUrl
    ensures b.buttonLocation == Some(f.buttonLocation) && b.title == Some(f.title) && b.icon == Some(f.icon)
    ensures b.projection == Some(f.projection) && b.visibility == Some(f.visibility)
  {
    LinkButton(Some(f.buttonLocation), f.templateUrl, Some(f.title), Some(f.icon), Some(f.projection), Some(f.visibility))
  }

  /** Every device visible. */
  const DefaultVisibility: DeviceOptions := map[Mobile := true, Tablet := true, Desktop := true]

  /** The default visibility of a device: every device is a key of the default visibility. */
  function DefaultVisibilityOf(d: Device): (visible: bool)
    ensures d in DefaultVisibility && visible == DefaultVisibility[d]
  {
    match d
    case Mobile => DefaultVisibility[Mobile]
    case Tablet => DefaultVisibility[Tablet]
    case Desktop => DefaultVisibility[Desktop]
  }

  /** The icon the UI framework draws for an external link. */
  const DefaultIcon: string := "$vcsExternalLink"

  /** The default button: a toolbar button with an empty template and title and no target projection. */
  function GetDefaultOptions(): FullLinkButton {
    FullLinkButton(
      buttonLocation := Tool,
      templateUrl := "",
      title := "",
      icon := DefaultIcon,
      projection := EmptyProjectionOptions,
      visibility := DefaultVisibility)
  }
}
