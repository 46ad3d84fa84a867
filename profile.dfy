/**
 * The inputs the configuration reads: the connection profile, the Force
 * flags given at connect time, the user settings, the host environment
 * (results of the foreign calls), and the control's version.
 */
module Profile {

  /** Directives supplied at connect time that take precedence over the profile. */
  datatype Force = ViewOnly | NoCredentials | UseConsoleSession | DontUseConsoleSession | Fullscreen

  /** The profile's resolution mode; `Fixed` carries the rectangle the named
      fixed resolutions stand for. */
  datatype Resolution = FitToWindow | SmartSize | Fullscreen | Fixed(width: int, height: int)

  /** When to route through a gateway; only `Never` matters to the logic. */
  datatype GatewayUsage = Never | Always | Detect

  /** Which credentials the gateway gets. */
  datatype GatewayCredentials = Yes | No | SmartCard

  /** The numeric code the control receives for the gateway usage method. */
  function UsageCode(m: GatewayUsage): int
  {
    match m
    case Never => 0
    case Always => 1
    case Detect => 2
  }

  /** The protocol's built-in port, which is never written explicitly. */
  const DefaultPort := 3389

  datatype ConnectionInfo = ConnectionInfo(
    name: string,
    hostname: string,
    port: int,
    username: string,
    password: string,
    domain: string,
    resolution: Resolution,
    colors: int,
    cacheBitmaps: bool,
    useCredSsp: bool,
    useConsoleSession: bool,
    redirectKeys: bool,
    redirectDiskDrives: bool,
    redirectPorts: bool,
    redirectPrinters: bool,
    redirectSmartCards: bool,
    redirectSound: int,
    redirectClipboard: bool,
    authenticationLevel: int,
    loadBalanceInfo: string,
    gatewayUsageMethod: GatewayUsage,
    gatewayHostname: string,
    gatewayUseConnectionCredentials: GatewayCredentials,
    gatewayUsername: string,
    gatewayPassword: string,
    gatewayDomain: string,
    minutesToIdleTimeout: int,
    alertIdleTimeout: bool,
    displayThemes: bool,
    displayWallpaper: bool,
    enableFontSmoothing: bool,
    enableDesktopComposition: bool,
    disableFullWindowDrag: bool,
    disableMenuAnimations: bool,
    disableCursorShadow: bool,
    disableCursorBlinking: bool)

  /** The application's user settings read by the configuration and the reconnect logic. */
  datatype Settings = Settings(
    emptyCredentials: string,
    defaultUsername: string,
    defaultPassword: string,
    defaultDomain: string,
    rdpReconnectionCount: int,
    overallConnectionTimeout: int,
    reconnectOnDisconnect: bool)

  /**
   * What the host and the foreign helpers supply: the local identity, the
   * screen bounds and hosting control size, the display scaling percentage,
   * the decryption of the stored default password, the re-encoded load
   * balance token, the control's gateway capability and the localised
   * "connecting" text.
   */
  datatype Host = Host(
    localUserName: string,
    localDomainName: string,
    screenWidth: int,
    screenHeight: int,
    controlWidth: int,
    controlHeight: int,
    scalePercent: int,
    decryptedDefaultPassword: string,
    encodedLoadBalanceInfo: string,
    gatewaySupported: bool,
    connectingText: string)

  /** A control version as (major, minor, build), ordered lexicographically. */
  datatype Version = Version(major: int, minor: int, build: int)

  predicate AtLeast(v: Version, w: Version)
  {
    v.major > w.major
    || (v.major == w.major && v.minor > w.minor)
    || (v.major == w.major && v.minor == w.minor && v.build >= w.build)
  }

  /** The release that introduced the secondary transport and advanced settings. */
  const RDC61 := Version(6, 0, 6001)

  /** Everything one configuration pass reads. */
  datatype Context = Context(
    info: ConnectionInfo,
    force: set<Force>,
    settings: Settings,
    host: Host,
    version: Version,
    loadBalanceInfoUseUtf8: bool)

  /** The version order is total and transitive, so gating on it is well defined. */
  lemma AtLeastIsTotalOrder(u: Version, v: Version, w: Version)
    ensures AtLeast(v, v)
    ensures AtLeast(v, w) || AtLeast(w, v)
    ensures AtLeast(v, w) && AtLeast(w, v) ==> v == w
    ensures AtLeast(u, v) && AtLeast(v, w) ==> AtLeast(u, w)
  {
  }
}
