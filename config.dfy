/**
 * The configuration compiler: which control properties one configuration
 * pass writes, with which values and in which order, stated as pure
 * functions over the record of writes. Each setter group is the body of one
 * try block; a refused write abandons the rest of its group only.
 */
module Config {
  import opened Wrappers
  import opened RdpControl
  import opened Profile
  import Scale


  // ---------------------------------------------------------------- credentials

  const CredentialProps: set<Prop> := {UserName, ClearTextPassword, Domain}

  /** The user name: the profile's, else the one the empty-credentials
      policy supplies ("windows": the local user, "custom": the default). */
  function UserNameWrites(c: Context): (r: seq<Write>)
    ensures |r| <= 1 && WritesOnly(r, {UserName})
    ensures r == [] <==>
      c.info.username == "" && c.settings.emptyCredentials != "windows" && c.settings.emptyCredentials != "custom"
  {
    if c.info.username != "" then [Write(UserName, Text(c.info.username))]
    else if c.settings.emptyCredentials == "windows" then [Write(UserName, Text(c.host.localUserName))]
    else if c.settings.emptyCredentials == "custom" then [Write(UserName, Text(c.settings.defaultUsername))]
    else []
  }

  /** The password: the profile's, else the decrypted default password
      under the "custom" policy when one is stored. */
  function PasswordWrites(c: Context): (r: seq<Write>)
    ensures |r| <= 1 && WritesOnly(r, {ClearTextPassword})
    ensures r == [] <==>
      c.info.password == "" && !(c.settings.emptyCredentials == "custom" && c.settings.defaultPassword != "")
  {
    if c.info.password != "" then [Write(ClearTextPassword, Text(c.info.password))]
    else if c.settings.emptyCredentials == "custom" && c.settings.defaultPassword != "" then
      [Write(ClearTextPassword, Text(c.host.decryptedDefaultPassword))]
    else []
  }

  /** The domain: the profile's, else the one the empty-credentials policy
      supplies ("windows": the local domain, "custom": the default). */
  function DomainWrites(c: Context): (r: seq<Write>)
    ensures |r| <= 1 && WritesOnly(r, {Domain})
    ensures r == [] <==>
      c.info.domain == "" && c.settings.emptyCredentials != "windows" && c.settings.emptyCredentials != "custom"
  {
    if c.info.domain != "" then [Write(Domain, Text(c.info.domain))]
    else if c.settings.emptyCredentials == "windows" then [Write(Domain, Text(c.host.localDomainName))]
    else if c.settings.emptyCredentials == "custom" then [Write(Domain, Text(c.settings.defaultDomain))]
    else []
  }

  /** The credential group: user name, then password, then domain. */
  function CredentialWrites(c: Context): (r: seq<Write>)
    ensures WritesOnly(r, CredentialProps)
    ensures NoCredentials in c.force ==> r == []
  {
    if NoCredentials in c.force then []
    else UserNameWrites(c) + PasswordWrites(c) + DomainWrites(c)
  }

  // ---------------------------------------------------------------- console session

  /** The console-session switch after the Force flags have had their say. */
  function ConsoleSessionValue(c: Context): bool
  {
    if UseConsoleSession in c.force then true
    else if DontUseConsoleSession in c.force then false
    else c.info.useConsoleSession
  }

  function ConsoleWrites(c: Context): (r: seq<Write>)
    ensures WritesOnly(r, {ConnectToAdministerServer})
  {
    if AtLeast(c.version, RDC61) then [Write(ConnectToAdministerServer, Flag(ConsoleSessionValue(c)))]
    else []
  }

  // ---------------------------------------------------------------- resolution

  const SizeProps: set<Prop> := {FullScreen, DesktopWidth, DesktopHeight, SmartSizing}

  function ScreenWrites(c: Context): seq<Write>
  {
    [Write(FullScreen, Flag(true)),
     Write(DesktopWidth, Num(c.host.screenWidth)),
     Write(DesktopHeight, Num(c.host.screenHeight))]
  }

  function ControlSizeWrites(c: Context): seq<Write>
  {
    [Write(DesktopWidth, Num(c.host.controlWidth)), Write(DesktopHeight, Num(c.host.controlHeight))]
  }

  /** The size part of the resolution group (after the two scale hints). */
  function SizeWrites(c: Context): (r: seq<Write>)
    ensures WritesOnly(r, SizeProps)
  {
    if Force.Fullscreen in c.force then ScreenWrites(c)
    else match c.info.resolution
      case FitToWindow => ControlSizeWrites(c)
      case SmartSize => ControlSizeWrites(c) + [Write(SmartSizing, Flag(true))]
      case Fullscreen => ScreenWrites(c)
      case Fixed(w, h) => [Write(DesktopWidth, Num(w)), Write(DesktopHeight, Num(h))]
  }

  /** The two scale hints sent as extended properties. */
  function DesktopHintWrite(c: Context): Write
  {
    Write(DesktopScaleFactor, Num(Scale.DesktopScaleFactor(c.host.scalePercent)))
  }

  function DeviceHintWrite(c: Context): Write
  {
    Write(DeviceScaleFactor, Num(Scale.DeviceScaleFactor(c.host.scalePercent)))
  }

  /** The resolution group: each scale hint in its own try block, then the
      size writes; together they touch only resolution properties. */
  function ResolutionLog(c: Context, refused: set<Write>): (r: seq<Write>)
    ensures WritesOnly(r, ResolutionProps)
  {
    var hints := Attempt([DesktopHintWrite(c)], refused) + Attempt([DeviceHintWrite(c)], refused);
    var size := Attempt(SizeWrites(c), refused);
    AttemptWritesOnly(SizeWrites(c), SizeProps, refused);
    assert WritesOnly(hints, ResolutionProps);
    assert WritesOnly(size, ResolutionProps);
    WritesOnlyAppend(hints, size, ResolutionProps);
    hints + size
  }

  // ---------------------------------------------------------------- port, keys, redirection, authentication, load balancing

  function PortWrites(c: Context): (r: seq<Write>)
    ensures WritesOnly(r, {RdpPort})
  {
    if c.info.port != DefaultPort then [Write(RdpPort, Num(c.info.port))] else []
  }

  function RedirectKeysWrites(c: Context): (r: seq<Write>)
    ensures WritesOnly(r, {KeyboardHookMode})
  {
    if c.info.redirectKeys then [Write(KeyboardHookMode, Num(1))] else []
  }

  const RedirectionProps: set<Prop> :=
    {RedirectDrives, RedirectPorts, RedirectPrinters, RedirectSmartCards, AudioRedirectionMode, RedirectClipboard}

  function RedirectionWrites(c: Context): (r: seq<Write>)
    ensures WritesOnly(r, RedirectionProps)
  {
    [Write(RedirectDrives, Flag(c.info.redirectDiskDrives)),
     Write(RedirectPorts, Flag(c.info.redirectPorts)),
     Write(RedirectPrinters, Flag(c.info.redirectPrinters)),
     Write(RedirectSmartCards, Flag(c.info.redirectSmartCards)),
     Write(AudioRedirectionMode, Num(c.info.redirectSound)),
     Write(RedirectClipboard, Flag(c.info.redirectClipboard))]
  }

  function AuthenticationWrites(c: Context): (r: seq<Write>)
    ensures WritesOnly(r, {AuthenticationLevel})
  {
    [Write(AuthenticationLevel, Num(c.info.authenticationLevel))]
  }

  function LoadBalanceWrites(c: Context): (r: seq<Write>)
    ensures WritesOnly(r, {LoadBalanceInfo})
  {
    if c.info.loadBalanceInfo == "" then []
    else [Write(LoadBalanceInfo, Text(if c.loadBalanceInfoUseUtf8 then c.host.encodedLoadBalanceInfo
                                      else c.info.loadBalanceInfo))]
  }

  // ---------------------------------------------------------------- gateway

  const GatewayProps: set<Prop> :=
    {GatewayUsageMethod, GatewayHostname, GatewayProfileUsageMethod, GatewayCredsSource,
     GatewayUsername, GatewayPassword, GatewayDomain, GatewayCredSharing}

  /** Usage method, host name and the explicit profile mode. */
  function GatewayRoutingWrites(c: Context): seq<Write>
  {
    [Write(GatewayUsageMethod, Num(UsageCode(c.info.gatewayUsageMethod))),
     Write(GatewayHostname, Text(c.info.gatewayHostname)),
     Write(GatewayProfileUsageMethod, Num(1))]
  }

  /** The smart-card credential source marker, written whatever the version. */
  function GatewayCredsSourceWrites(c: Context): seq<Write>
  {
    if c.info.gatewayUseConnectionCredentials == SmartCard then [Write(GatewayCredsSource, Num(1))] else []
  }

  const GatewayCredentialProps: set<Prop> := {GatewayUsername, GatewayPassword, GatewayDomain, GatewayCredSharing}

  /** Explicit gateway logon fields; credential sharing is switched off when
      the gateway credentials are not the connection's own. */
  function GatewayLogon(username: string, password: string, domain: string, shared: bool): seq<Write>
  {
    [Write(GatewayUsername, Text(username)), Write(GatewayPassword, Text(password)), Write(GatewayDomain, Text(domain))]
    + (if shared then [] else [Write(GatewayCredSharing, Num(0))])
  }

  /** The gateway credential branch, which runs only on RDC61 or later without NoCredentials. */
  function GatewayCredentialWrites(c: Context): (r: seq<Write>)
    ensures WritesOnly(r, GatewayCredentialProps)
  {
    if !AtLeast(c.version, RDC61) || NoCredentials in c.force then []
    else match c.info.gatewayUseConnectionCredentials
      case Yes => GatewayLogon(c.info.username, c.info.password, c.info.domain, true)
      case SmartCard => [Write(GatewayCredSharing, Num(0))]
      case No => GatewayLogon(c.info.gatewayUsername, c.info.gatewayPassword, c.info.gatewayDomain, false)
  }

  /** The gateway group: nothing without gateway support or with usage Never. */
  function GatewayWrites(c: Context): (r: seq<Write>)
    ensures WritesOnly(r, GatewayProps)
  {
    if !c.host.gatewaySupported || c.info.gatewayUsageMethod == Never then []
    else GatewayRoutingWrites(c) + GatewayCredsSourceWrites(c) + GatewayCredentialWrites(c)
  }

  // ---------------------------------------------------------------- performance flags

  datatype PerfFlag =
    | DisableWallpaper | DisableFullWindowDrag | DisableMenuAnimations | DisableThemes
    | DisableCursorShadow | DisableCursorBlinking | EnableFontSmoothing | EnableDesktopComposition

  /** The value of each flag. The real constants come from the vendor's type
      library, which is not part of this model; any positive values will do. */
  function FlagValue(f: PerfFlag): (v: int)
    ensures v > 0
  {
    match f
    case DisableWallpaper => 0x1
    case DisableFullWindowDrag => 0x2
    case DisableMenuAnimations => 0x4
    case DisableThemes => 0x8
    case DisableCursorShadow => 0x20
    case DisableCursorBlinking => 0x40
    case EnableFontSmoothing => 0x80
    case EnableDesktopComposition => 0x100
  }

  /** The profile condition under which a flag is requested. */
  predicate Requested(info: ConnectionInfo, f: PerfFlag)
  {
    match f
    case DisableThemes => !info.displayThemes
    case DisableWallpaper => !info.displayWallpaper
    case EnableFontSmoothing => info.enableFontSmoothing
    case EnableDesktopComposition => info.enableDesktopComposition
    case DisableFullWindowDrag => info.disableFullWindowDrag
    case DisableMenuAnimations => info.disableMenuAnimations
    case DisableCursorShadow => info.disableCursorShadow
    case DisableCursorBlinking => info.disableCursorBlinking
  }

  function Term(info: ConnectionInfo, f: PerfFlag): int
  {
    if Requested(info, f) then FlagValue(f) else 0
  }

  /** The performance word as the source accumulates it: the values of the
      requested flags added up in the order they are tested. */
  function PerfWord(info: ConnectionInfo): (w: int)
    ensures 0 <= w <= 0x1EF
  {
    Term(info, DisableThemes) + Term(info, DisableWallpaper) + Term(info, EnableFontSmoothing)
    + Term(info, EnableDesktopComposition) + Term(info, DisableFullWindowDrag)
    + Term(info, DisableMenuAnimations) + Term(info, DisableCursorShadow) + Term(info, DisableCursorBlinking)
  }

  function PerfWrites(c: Context): (r: seq<Write>)
    ensures WritesOnly(r, {PerformanceFlags})
  {
    [Write(PerformanceFlags, Num(PerfWord(c.info)))]
  }

  // ---------------------------------------------------------------- the whole pass

  /** The writes made outside any try block, in order; a refusal of any of
      them aborts the configuration. */
  function FixedWrites(c: Context): seq<Write>
  {
    [Write(MinutesToIdleTimeout, Num(c.info.minutesToIdleTimeout)),
     Write(GrabFocusOnConnect, Flag(true)),
     Write(EnableAutoReconnect, Flag(true)),
     Write(MaxReconnectAttempts, Num(c.settings.rdpReconnectionCount)),
     Write(KeepAliveInterval, Num(60000)),
     Write(AuthenticationLevel, Num(0)),
     Write(EncryptionEnabled, Num(1)),
     Write(OverallConnectionTimeout, Num(c.settings.overallConnectionTimeout)),
     Write(BitmapPersistence, Num(if c.info.cacheBitmaps then 1 else 0))]
    + (if AtLeast(c.version, RDC61) then [Write(EnableCredSspSupport, Flag(c.info.useCredSsp))] else [])
  }

  /** The single writes made outside any try block. */
  function ServerWrite(c: Context): Write
  {
    Write(Server, Text(c.info.hostname))
  }

  function TitleWrite(c: Context): Write
  {
    Write(FullScreenTitle, Text(c.info.name))
  }

  /** View-only disables the hosting surface. */
  function EnabledWrite(c: Context): Write
  {
    Write(Enabled, Flag(ViewOnly !in c.force))
  }

  function ColorDepthWrite(c: Context): Write
  {
    Write(ColorDepth, Num(c.info.colors))
  }

  function ConnectingTextWrite(c: Context): Write
  {
    Write(ConnectingText, Text(c.host.connectingText))
  }

  function UnguardedWrites(c: Context): seq<Write>
  {
    [ServerWrite(c), TitleWrite(c)] + FixedWrites(c) + [EnabledWrite(c), ColorDepthWrite(c), ConnectingTextWrite(c)]
  }

  const FixedProps: set<Prop> :=
    {MinutesToIdleTimeout, GrabFocusOnConnect, EnableAutoReconnect, MaxReconnectAttempts, KeepAliveInterval,
     AuthenticationLevel, EncryptionEnabled, OverallConnectionTimeout, BitmapPersistence, EnableCredSspSupport}

  const ResolutionProps: set<Prop> := SizeProps + {DesktopScaleFactor, DeviceScaleFactor}

  /**
   * The steps of one configuration pass, in the order the pass takes them:
   * what each setter group, or each write made outside any try block,
   * leaves on the control. Unguarded writes appear whole; a pass in which
   * one of them is refused never completes.
   */
  function Step(c: Context, refused: set<Write>, k: nat): (r: seq<Write>)
    ensures WritesOnly(r, StepProps(k))
  {
    match k
    case 0 => [ServerWrite(c)]
    case 1 => AttemptWritesOnly(CredentialWrites(c), CredentialProps, refused); Attempt(CredentialWrites(c), refused)
    case 2 => ResolutionLog(c, refused)
    case 3 => [TitleWrite(c)]
    case 4 => assert WritesOnly(FixedWrites(c), FixedProps); FixedWrites(c)
    case 5 => AttemptWritesOnly(ConsoleWrites(c), {ConnectToAdministerServer}, refused); Attempt(ConsoleWrites(c), refused)
    case 6 => AttemptWritesOnly(PortWrites(c), {RdpPort}, refused); Attempt(PortWrites(c), refused)
    case 7 => AttemptWritesOnly(RedirectKeysWrites(c), {KeyboardHookMode}, refused); Attempt(RedirectKeysWrites(c), refused)
    case 8 => AttemptWritesOnly(RedirectionWrites(c), RedirectionProps, refused); Attempt(RedirectionWrites(c), refused)
    case 9 => AttemptWritesOnly(AuthenticationWrites(c), {AuthenticationLevel}, refused); Attempt(AuthenticationWrites(c), refused)
    case 10 => AttemptWritesOnly(LoadBalanceWrites(c), {LoadBalanceInfo}, refused); Attempt(LoadBalanceWrites(c), refused)
    case 11 => AttemptWritesOnly(GatewayWrites(c), GatewayProps, refused); Attempt(GatewayWrites(c), refused)
    case 12 => [EnabledWrite(c)]
    case 13 => [ColorDepthWrite(c)]
    case 14 => AttemptWritesOnly(PerfWrites(c), {PerformanceFlags}, refused); Attempt(PerfWrites(c), refused)
    case 15 => [ConnectingTextWrite(c)]
    case _ => []
  }

  const StepCount := 16

  /** The steps of a pass, as a numbered family of write blocks. */
  function Steps(c: Context, refused: set<Write>): nat -> seq<Write>
  {
    (k: nat) => Step(c, refused, k)
  }

  /** The properties each step may write. */
  function StepProps(k: nat): set<Prop>
  {
    match k
    case 0 => {Server}
    case 1 => CredentialProps
    case 2 => ResolutionProps
    case 3 => {FullScreenTitle}
    case 4 => FixedProps
    case 5 => {ConnectToAdministerServer}
    case 6 => {RdpPort}
    case 7 => {KeyboardHookMode}
    case 8 => RedirectionProps
    case 9 => {AuthenticationLevel}
    case 10 => {LoadBalanceInfo}
    case 11 => GatewayProps
    case 12 => {Enabled}
    case 13 => {ColorDepth}
    case 14 => {PerformanceFlags}
    case 15 => {ConnectingText}
    case _ => {}
  }

  const FixedStep := 4
  const PortStep := 6
  const AuthenticationStep := 9
  const ViewOnlyStep := 12

  /** The record of writes after the first `n` steps of a pass from `log`. */
  function Run(log: seq<Write>, c: Context, refused: set<Write>, n: nat): seq<Write>
  {
    Replay(log, Steps(c, refused), n)
  }

  /** The record of writes after a complete configuration pass starting from `log`. */
  function ConfigLog(log: seq<Write>, c: Context, refused: set<Write>): (r: seq<Write>)
    ensures log <= r
  {
    ReplayExtends(log, Steps(c, refused), StepCount);
    Run(log, c, refused, StepCount)
  }
}
