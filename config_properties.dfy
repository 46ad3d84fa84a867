/**
 * What one configuration pass guarantees: the credential fallback policy,
 * console-session precedence, resolution selection, port suppression, the
 * performance word, gateway credential selection, and how the groups
 * compose (the later authentication write wins; a refused group leaves the
 * others applied).
 */
module ConfigProperties {
  import opened Wrappers
  import opened RdpControl
  import opened Profile
  import opened Config
  import Scale

  // ---------------------------------------------------------------- credentials

  lemma CredentialSingles(u: seq<Write>, p: seq<Write>, d: seq<Write>)
    requires |u| <= 1 && |p| <= 1 && |d| <= 1
    ensures forall q: Prop :: Current(u, q) == if u != [] && u[0].prop == q then Some(u[0].value) else None
    ensures forall q: Prop :: Current(p, q) == if p != [] && p[0].prop == q then Some(p[0].value) else None
    ensures forall q: Prop :: Current(d, q) == if d != [] && d[0].prop == q then Some(d[0].value) else None
  {
    forall q: Prop
      ensures Current(u, q) == if u != [] && u[0].prop == q then Some(u[0].value) else None
      ensures Current(p, q) == if p != [] && p[0].prop == q then Some(p[0].value) else None
      ensures Current(d, q) == if d != [] && d[0].prop == q then Some(d[0].value) else None
    {
      CurrentSingle(u, q);
      CurrentSingle(p, q);
      CurrentSingle(d, q);
    }
  }

  /** A non-empty profile value is written verbatim unless NoCredentials is set. */
  lemma CredentialsVerbatim(c: Context)
    requires NoCredentials !in c.force
    ensures c.info.username != "" ==> Current(CredentialWrites(c), UserName) == Some(Text(c.info.username))
    ensures c.info.password != "" ==> Current(CredentialWrites(c), ClearTextPassword) == Some(Text(c.info.password))
    ensures c.info.domain != "" ==> Current(CredentialWrites(c), Domain) == Some(Text(c.info.domain))
  {
    var u, p, d := UserNameWrites(c), PasswordWrites(c), DomainWrites(c);
    assert CredentialWrites(c) == u + p + d;
    CredentialSingles(u, p, d);
    CurrentAppend(u + p, d, UserName);
    CurrentAppend(u, p, UserName);
    CurrentAppend(u + p, d, ClearTextPassword);
    CurrentAppend(u, p, ClearTextPassword);
    CurrentAppend(u + p, d, Domain);
  }

  /** An empty user name or domain is filled only under the "windows" policy
      (local identity) or the "custom" policy (configured default). */
  lemma CredentialsFallback(c: Context)
    requires NoCredentials !in c.force
    ensures c.info.username == "" ==>
      Current(CredentialWrites(c), UserName) ==
        if c.settings.emptyCredentials == "windows" then Some(Text(c.host.localUserName))
        else if c.settings.emptyCredentials == "custom" then Some(Text(c.settings.defaultUsername))
        else None
    ensures c.info.domain == "" ==>
      Current(CredentialWrites(c), Domain) ==
        if c.settings.emptyCredentials == "windows" then Some(Text(c.host.localDomainName))
        else if c.settings.emptyCredentials == "custom" then Some(Text(c.settings.defaultDomain))
        else None
  {
    var u, p, d := UserNameWrites(c), PasswordWrites(c), DomainWrites(c);
    assert CredentialWrites(c) == u + p + d;
    CredentialSingles(u, p, d);
    CurrentAppend(u + p, d, UserName);
    CurrentAppend(u, p, UserName);
    CurrentAppend(u + p, d, Domain);
    CurrentAppend(u, p, Domain);
  }

  /** An empty password is filled only under "custom" with a stored default,
      by decrypting it; "windows" never supplies a password. */
  lemma PasswordFallback(c: Context)
    requires NoCredentials !in c.force
    ensures c.info.password == "" ==>
      Current(CredentialWrites(c), ClearTextPassword) ==
        if c.settings.emptyCredentials == "custom" && c.settings.defaultPassword != "" then
          Some(Text(c.host.decryptedDefaultPassword))
        else None
    ensures c.info.password == "" && c.settings.emptyCredentials == "windows" ==>
      !Touches(CredentialWrites(c), ClearTextPassword)
  {
    var u, p, d := UserNameWrites(c), PasswordWrites(c), DomainWrites(c);
    assert CredentialWrites(c) == u + p + d;
    CredentialSingles(u, p, d);
    CurrentAppend(u + p, d, ClearTextPassword);
    CurrentAppend(u, p, ClearTextPassword);
  }

  // ---------------------------------------------------------------- console session

  /** UseConsoleSession beats DontUseConsoleSession, which beats the profile;
      the switch is written only from RDC61 on. */
  lemma ConsoleSessionPrecedence(c: Context)
    ensures UseConsoleSession in c.force ==> ConsoleSessionValue(c)
    ensures UseConsoleSession !in c.force && DontUseConsoleSession in c.force ==> !ConsoleSessionValue(c)
    ensures UseConsoleSession !in c.force && DontUseConsoleSession !in c.force ==>
              ConsoleSessionValue(c) == c.info.useConsoleSession
    ensures Current(ConsoleWrites(c), ConnectToAdministerServer) ==
              if AtLeast(c.version, RDC61) then Some(Flag(ConsoleSessionValue(c))) else None
  {
  }

  // ---------------------------------------------------------------- resolution

  /** The width the size writes give the remote desktop. */
  function ExpectedWidth(c: Context): int
  {
    if Force.Fullscreen in c.force then c.host.screenWidth
    else match c.info.resolution
      case FitToWindow => c.host.controlWidth
      case SmartSize => c.host.controlWidth
      case Fullscreen => c.host.screenWidth
      case Fixed(w, _) => w
  }

  /** The height the size writes give the remote desktop. */
  function ExpectedHeight(c: Context): int
  {
    if Force.Fullscreen in c.force then c.host.screenHeight
    else match c.info.resolution
      case FitToWindow => c.host.controlHeight
      case SmartSize => c.host.controlHeight
      case Fullscreen => c.host.screenHeight
      case Fixed(_, h) => h
  }

  /** Forced full screen ignores the profile mode; otherwise full screen comes
      only from the Fullscreen mode, smart sizing only from SmartSize, and
      the width and height from the screen, the hosting control or the
      fixed rectangle. */
  lemma ResolutionSelection(c: Context)
    ensures Force.Fullscreen in c.force ==> SizeWrites(c) == ScreenWrites(c)
    ensures Current(SizeWrites(c), FullScreen) ==
              if Force.Fullscreen in c.force || c.info.resolution == Resolution.Fullscreen then Some(Flag(true))
              else None
    ensures Current(SizeWrites(c), SmartSizing) ==
              if Force.Fullscreen !in c.force && c.info.resolution == SmartSize then Some(Flag(true))
              else None
    ensures Current(SizeWrites(c), DesktopWidth) == Some(Num(ExpectedWidth(c)))
    ensures Current(SizeWrites(c), DesktopHeight) == Some(Num(ExpectedHeight(c)))
  {
    var sw := SizeWrites(c);
    if Force.Fullscreen in c.force || c.info.resolution == Resolution.Fullscreen {
      CurrentUnique(sw, 0, FullScreen);
      CurrentUnique(sw, 1, DesktopWidth);
      CurrentUnique(sw, 2, DesktopHeight);
      CurrentAbsent(sw, SmartSizing);
    } else {
      CurrentAbsent(sw, FullScreen);
      CurrentUnique(sw, 0, DesktopWidth);
      CurrentUnique(sw, 1, DesktopHeight);
      if c.info.resolution == SmartSize {
        CurrentUnique(sw, 2, SmartSizing);
      } else {
        CurrentAbsent(sw, SmartSizing);
      }
    }
  }

  /** The desktop scale hint, in its own try block, lands whenever the
      control accepts it, whatever happens to the other hint and the sizes. */
  lemma DesktopScaleHintApplied(c: Context, refused: set<Write>)
    requires DesktopHintWrite(c) !in refused
    ensures Current(ResolutionLog(c, refused), DesktopScaleFactor) == Some(Num(Scale.DesktopScaleFactor(c.host.scalePercent)))
  {
    var wd := DesktopHintWrite(c);
    var b := Attempt([DeviceHintWrite(c)], refused);
    AttemptOne(wd, refused);
    AttemptWritesOnly([DeviceHintWrite(c)], {DeviceScaleFactor}, refused);
    AttemptSkips([wd] + b, SizeWrites(c), SizeProps, refused, DesktopScaleFactor);
    NotTouched(b, {DeviceScaleFactor}, DesktopScaleFactor);
    CurrentAppend([wd], b, DesktopScaleFactor);
    CurrentUnique([wd], 0, DesktopScaleFactor);
  }

  /** Likewise the device scale hint. */
  lemma DeviceScaleHintApplied(c: Context, refused: set<Write>)
    requires DeviceHintWrite(c) !in refused
    ensures Current(ResolutionLog(c, refused), DeviceScaleFactor) == Some(Num(Scale.DeviceScaleFactor(c.host.scalePercent)))
  {
    var wv := DeviceHintWrite(c);
    var a := Attempt([DesktopHintWrite(c)], refused);
    AttemptOne(wv, refused);
    AttemptSkips(a + [wv], SizeWrites(c), SizeProps, refused, DeviceScaleFactor);
    CurrentSnoc(a, wv, DeviceScaleFactor);
  }

  /** A refused scale hint never changes what the size writes do: the size
      properties end as the attempted size group alone leaves them. */
  lemma SizesIgnoreScaleHints(c: Context, refused: set<Write>, p: Prop)
    requires p in SizeProps
    ensures Current(ResolutionLog(c, refused), p) == Current(Attempt(SizeWrites(c), refused), p)
  {
    var wd, wv := DesktopHintWrite(c), DeviceHintWrite(c);
    var hints := Attempt([wd], refused) + Attempt([wv], refused);
    AttemptOne(wd, refused);
    AttemptOne(wv, refused);
    NotTouched(hints, {DesktopScaleFactor, DeviceScaleFactor}, p);
    CurrentAppend(hints, Attempt(SizeWrites(c), refused), p);
  }

  // ---------------------------------------------------------------- port and performance flags

  /** The port is written only when it differs from 3389. */
  lemma PortDefaultSuppressed(c: Context)
    ensures Touches(PortWrites(c), RdpPort) <==> c.info.port != DefaultPort
    ensures c.info.port != DefaultPort ==> Current(PortWrites(c), RdpPort) == Some(Num(c.info.port))
  {
  }

  /** Every flag in declaration order, for a reference sum. */
  const AllFlags: seq<PerfFlag> := [DisableWallpaper, DisableFullWindowDrag, DisableMenuAnimations, DisableThemes,
                                    DisableCursorShadow, DisableCursorBlinking, EnableFontSmoothing,
                                    EnableDesktopComposition]

  /** The sum of the values of the requested flags among `fs`. */
  function RequestedSum(info: ConnectionInfo, fs: seq<PerfFlag>): int
  {
    if fs == [] then 0 else Term(info, fs[0]) + RequestedSum(info, fs[1..])
  }

  lemma RequestedSumFrom(info: ConnectionInfo, fs: seq<PerfFlag>, k: nat)
    requires k < |fs|
    ensures RequestedSum(info, fs[k..]) == Term(info, fs[k]) + RequestedSum(info, fs[k + 1..])
  {
    assert fs[k..][1..] == fs[k + 1..];
  }

  /** Taking one flag out of a list takes its term out of the sum. */
  lemma {:induction false} RequestedSumRemove(info: ConnectionInfo, fs: seq<PerfFlag>, i: nat)
    requires i < |fs|
    ensures RequestedSum(info, fs) == Term(info, fs[i]) + RequestedSum(info, fs[..i] + fs[i + 1..])
    decreases i
  {
    if i > 0 {
      RequestedSumRemove(info, fs[1..], i - 1);
      assert fs[1..][..i - 1] + fs[1..][i..] == (fs[..i] + fs[i + 1..])[1..];
      assert (fs[..i] + fs[i + 1..])[0] == fs[0];
    } else {
      assert fs[..0] + fs[1..] == fs[1..];
    }
  }

  /** Taking one flag out of a list takes one occurrence out of its multiset. */
  lemma MultisetRemove(gs: seq<PerfFlag>, i: nat)
    requires i < |gs|
    ensures multiset(gs[..i] + gs[i + 1..]) == multiset(gs) - multiset{gs[i]}
  {
    assert gs == gs[..i] + [gs[i]] + gs[i + 1..];
    assert multiset(gs) == multiset(gs[..i]) + multiset([gs[i]]) + multiset(gs[i + 1..]);
  }

  /** The sum of the requested flags does not depend on the order in which
      the flags are visited. */
  lemma {:induction false} RequestedSumPermutation(info: ConnectionInfo, fs: seq<PerfFlag>, gs: seq<PerfFlag>)
    requires multiset(fs) == multiset(gs)
    ensures RequestedSum(info, fs) == RequestedSum(info, gs)
    decreases |fs|
  {
    if fs != [] {
      assert fs[0] in multiset(gs);
      var i :| 0 <= i < |gs| && gs[i] == fs[0];
      MultisetRemove(gs, i);
      MultisetRemove(fs, 0);
      assert fs[..0] + fs[1..] == fs[1..];
      RequestedSumPermutation(info, fs[1..], gs[..i] + gs[i + 1..]);
      RequestedSumRemove(info, gs, i);
    } else {
      assert |gs| == |multiset(gs)|;
    }
  }

  /** The word is the sum over the flags in declaration order. */
  lemma PerfWordInOrder(info: ConnectionInfo)
    ensures PerfWord(info) == RequestedSum(info, AllFlags)
  {
    assert AllFlags[0..] == AllFlags;
    assert AllFlags[8..] == [];
    RequestedSumFrom(info, AllFlags, 0);
    RequestedSumFrom(info, AllFlags, 1);
    RequestedSumFrom(info, AllFlags, 2);
    RequestedSumFrom(info, AllFlags, 3);
    RequestedSumFrom(info, AllFlags, 4);
    RequestedSumFrom(info, AllFlags, 5);
    RequestedSumFrom(info, AllFlags, 6);
    RequestedSumFrom(info, AllFlags, 7);
  }

  /** The word is the sum of the values of exactly the requested flags,
      visited in any order: the order in which the source tests them does
      not matter. */
  lemma PerfWordIsRequestedSum(info: ConnectionInfo, fs: seq<PerfFlag>)
    requires multiset(fs) == multiset(AllFlags)
    ensures PerfWord(info) == RequestedSum(info, fs)
  {
    PerfWordInOrder(info);
    RequestedSumPermutation(info, AllFlags, fs);
  }

  /** With no condition true the performance word is 0, and otherwise it is not. */
  lemma PerfWordZero(info: ConnectionInfo)
    ensures PerfWord(info) == 0 <==> forall g: PerfFlag :: !Requested(info, g)
  {
  }

  // ---------------------------------------------------------------- gateway

  predicate GatewayOn(c: Context)
  {
    c.host.gatewaySupported && c.info.gatewayUsageMethod != Never
  }

  predicate GatewayCredentialBranch(c: Context)
  {
    GatewayOn(c) && AtLeast(c.version, RDC61) && NoCredentials !in c.force
  }

  /** With the gateway on, the routing fields end as the routing writes set them. */
  lemma GatewayKeepsRouting(c: Context, p: Prop)
    requires GatewayOn(c) && p in {GatewayUsageMethod, GatewayHostname, GatewayProfileUsageMethod}
    ensures Current(GatewayWrites(c), p) == Current(GatewayRoutingWrites(c), p)
  {
    var head, src := GatewayRoutingWrites(c), GatewayCredsSourceWrites(c);
    assert WritesOnly(src, {GatewayCredsSource});
    CurrentSkips(head, src, {GatewayCredsSource}, p);
    CurrentSkips(head + src, GatewayCredentialWrites(c), GatewayCredentialProps, p);
  }

  /** Without gateway support, or with usage Never, no gateway field is touched;
      otherwise usage method, host name and explicit profile mode are written. */
  lemma GatewayRouting(c: Context)
    ensures !GatewayOn(c) ==> GatewayWrites(c) == []
    ensures GatewayOn(c) ==>
      && Current(GatewayWrites(c), GatewayUsageMethod) == Some(Num(UsageCode(c.info.gatewayUsageMethod)))
      && Current(GatewayWrites(c), GatewayHostname) == Some(Text(c.info.gatewayHostname))
      && Current(GatewayWrites(c), GatewayProfileUsageMethod) == Some(Num(1))
  {
    if GatewayOn(c) {
      GatewayKeepsRouting(c, GatewayUsageMethod);
      GatewayKeepsRouting(c, GatewayHostname);
      GatewayKeepsRouting(c, GatewayProfileUsageMethod);
      RoutingValues(c.info.gatewayUsageMethod, c.info.gatewayHostname, GatewayRoutingWrites(c));
    }
  }

  lemma RoutingValues(usage: GatewayUsage, host: string, ws: seq<Write>)
    requires ws == [Write(GatewayUsageMethod, Num(UsageCode(usage))), Write(GatewayHostname, Text(host)),
                    Write(GatewayProfileUsageMethod, Num(1))]
    ensures Current(ws, GatewayUsageMethod) == Some(Num(UsageCode(usage)))
    ensures Current(ws, GatewayHostname) == Some(Text(host))
    ensures Current(ws, GatewayProfileUsageMethod) == Some(Num(1))
  {
    CurrentUnique(ws, 0, GatewayUsageMethod);
    CurrentUnique(ws, 1, GatewayHostname);
    CurrentUnique(ws, 2, GatewayProfileUsageMethod);
  }

  /** The smart-card credential source is marked whenever the gateway is used
      with the SmartCard policy, whatever the version. */
  lemma GatewaySmartCardSource(c: Context)
    ensures Current(GatewayWrites(c), GatewayCredsSource) ==
              if GatewayOn(c) && c.info.gatewayUseConnectionCredentials == SmartCard then Some(Num(1)) else None
  {
    if GatewayOn(c) {
      var head, src := GatewayRoutingWrites(c), GatewayCredsSourceWrites(c);
      CurrentSkips(head + src, GatewayCredentialWrites(c), GatewayCredentialProps, GatewayCredsSource);
      CurrentAppend(head, src, GatewayCredsSource);
      if src == [] {
        CurrentAbsent(head, GatewayCredsSource);
      } else {
        CurrentUnique(src, 0, GatewayCredsSource);
      }
    }
  }

  /** With the gateway on, the credential fields end as the credential branch sets them. */
  lemma GatewayKeepsCredentials(c: Context, p: Prop)
    requires GatewayOn(c) && p in GatewayCredentialProps
    ensures Current(GatewayWrites(c), p) == Current(GatewayCredentialWrites(c), p)
  {
    var early := {GatewayUsageMethod, GatewayHostname, GatewayProfileUsageMethod, GatewayCredsSource};
    GatewayEarlyConfined(c);
    CurrentAfter(GatewayRoutingWrites(c) + GatewayCredsSourceWrites(c), GatewayCredentialWrites(c), early, p);
  }

  /** The routing and credential-source writes touch only their own four fields. */
  lemma GatewayEarlyConfined(c: Context)
    ensures WritesOnly(GatewayRoutingWrites(c) + GatewayCredsSourceWrites(c),
                       {GatewayUsageMethod, GatewayHostname, GatewayProfileUsageMethod, GatewayCredsSource})
  {
    var early := {GatewayUsageMethod, GatewayHostname, GatewayProfileUsageMethod, GatewayCredsSource};
    assert WritesOnly(GatewayRoutingWrites(c), early);
    assert WritesOnly(GatewayCredsSourceWrites(c), early);
    WritesOnlyAppend(GatewayRoutingWrites(c), GatewayCredsSourceWrites(c), early);
  }

  /** What the explicit logon writes leave in each credential field. */
  lemma GatewayLogonValues(username: string, password: string, domain: string, shared: bool)
    ensures Current(GatewayLogon(username, password, domain, shared), GatewayUsername) == Some(Text(username))
    ensures Current(GatewayLogon(username, password, domain, shared), GatewayPassword) == Some(Text(password))
    ensures Current(GatewayLogon(username, password, domain, shared), GatewayDomain) == Some(Text(domain))
    ensures Current(GatewayLogon(username, password, domain, shared), GatewayCredSharing) ==
              if shared then None else Some(Num(0))
  {
    var ws := GatewayLogon(username, password, domain, shared);
    CurrentUnique(ws, 0, GatewayUsername);
    CurrentUnique(ws, 1, GatewayPassword);
    CurrentUnique(ws, 2, GatewayDomain);
    if shared {
      CurrentAbsent(ws, GatewayCredSharing);
    } else {
      CurrentUnique(ws, 3, GatewayCredSharing);
    }
  }

  /** What the credential branch leaves in each credential field. */
  lemma GatewayCredentialValues(c: Context, p: Prop)
    requires p in GatewayCredentialProps
    ensures Current(GatewayCredentialWrites(c), p) ==
              if !AtLeast(c.version, RDC61) || NoCredentials in c.force then None
              else match c.info.gatewayUseConnectionCredentials
                case Yes => Current(GatewayLogon(c.info.username, c.info.password, c.info.domain, true), p)
                case No => Current(GatewayLogon(c.info.gatewayUsername, c.info.gatewayPassword, c.info.gatewayDomain, false), p)
                case SmartCard => if p == GatewayCredSharing then Some(Num(0)) else None
  {
    var ws := GatewayCredentialWrites(c);
    if ws == [] {
    } else if AtLeast(c.version, RDC61) && NoCredentials !in c.force && c.info.gatewayUseConnectionCredentials == SmartCard {
      CurrentSnoc([], ws[0], p);
      assert ws == [] + [ws[0]];
    }
  }

  /** The gateway user name: the connection's under Yes, the dedicated gateway
      one under No, none under SmartCard, and none at all below RDC61 or with
      NoCredentials. */
  lemma GatewayUsernameSelection(c: Context)
    ensures Current(GatewayWrites(c), GatewayUsername) ==
              if !GatewayCredentialBranch(c) then None
              else match c.info.gatewayUseConnectionCredentials
                case Yes => Some(Text(c.info.username))
                case No => Some(Text(c.info.gatewayUsername))
                case SmartCard => None
  {
    if GatewayOn(c) {
      GatewayKeepsCredentials(c, GatewayUsername);
      GatewayCredentialValues(c, GatewayUsername);
      GatewayLogonValues(c.info.username, c.info.password, c.info.domain, true);
      GatewayLogonValues(c.info.gatewayUsername, c.info.gatewayPassword, c.info.gatewayDomain, false);
    }
  }

  /** The gateway password follows the same policy as the user name. */
  lemma GatewayPasswordSelection(c: Context)
    ensures Current(GatewayWrites(c), GatewayPassword) ==
              if !GatewayCredentialBranch(c) then None
              else match c.info.gatewayUseConnectionCredentials
                case Yes => Some(Text(c.info.password))
                case No => Some(Text(c.info.gatewayPassword))
                case SmartCard => None
  {
    if GatewayOn(c) {
      GatewayKeepsCredentials(c, GatewayPassword);
      GatewayCredentialValues(c, GatewayPassword);
      GatewayLogonValues(c.info.username, c.info.password, c.info.domain, true);
      GatewayLogonValues(c.info.gatewayUsername, c.info.gatewayPassword, c.info.gatewayDomain, false);
    }
  }

  /** The gateway domain follows the same policy as the user name. */
  lemma GatewayDomainSelection(c: Context)
    ensures Current(GatewayWrites(c), GatewayDomain) ==
              if !GatewayCredentialBranch(c) then None
              else match c.info.gatewayUseConnectionCredentials
                case Yes => Some(Text(c.info.domain))
                case No => Some(Text(c.info.gatewayDomain))
                case SmartCard => None
  {
    if GatewayOn(c) {
      GatewayKeepsCredentials(c, GatewayDomain);
      GatewayCredentialValues(c, GatewayDomain);
      GatewayLogonValues(c.info.username, c.info.password, c.info.domain, true);
      GatewayLogonValues(c.info.gatewayUsername, c.info.gatewayPassword, c.info.gatewayDomain, false);
    }
  }

  /** Credential sharing is switched off under every policy but Yes. */
  lemma GatewayCredSharingSelection(c: Context)
    ensures Current(GatewayWrites(c), GatewayCredSharing) ==
              if GatewayCredentialBranch(c) && c.info.gatewayUseConnectionCredentials != Yes then Some(Num(0))
              else None
  {
    if GatewayOn(c) {
      GatewayKeepsCredentials(c, GatewayCredSharing);
      GatewayCredentialValues(c, GatewayCredSharing);
      GatewayLogonValues(c.info.username, c.info.password, c.info.domain, true);
      GatewayLogonValues(c.info.gatewayUsername, c.info.gatewayPassword, c.info.gatewayDomain, false);
    }
  }

  // ---------------------------------------------------------------- the whole pass

  /** Step isolation: when step `k` writes `p` and no step after it up to `n`
      may, `p` ends as step `k` left it, whatever the other steps did. */
  lemma RunLastWins(log: seq<Write>, c: Context, refused: set<Write>, k: nat, n: nat, p: Prop)
    requires k < n && Touches(Step(c, refused, k), p)
    requires forall j :: k < j < n ==> p !in StepProps(j)
    ensures Current(Run(log, c, refused, n), p) == Current(Step(c, refused, k), p)
  {
    forall j | k < j < n ensures !Touches(Step(c, refused, j), p) {
      NotTouched(Step(c, refused, j), StepProps(j), p);
    }
    ReplayLastWins(log, Steps(c, refused), k, n, p);
  }

  /** The same when one later step `m` may write `p` but, its write refused,
      writes nothing. */
  lemma RunLastWinsPast(log: seq<Write>, c: Context, refused: set<Write>, k: nat, m: nat, n: nat, p: Prop)
    requires k < m < n && Touches(Step(c, refused, k), p) && Step(c, refused, m) == []
    requires forall j :: k < j < n && j != m ==> p !in StepProps(j)
    ensures Current(Run(log, c, refused, n), p) == Current(Step(c, refused, k), p)
  {
    forall j | k < j < n ensures !Touches(Step(c, refused, j), p) {
      if j == m {
        CurrentAbsent(Step(c, refused, j), p);
      } else {
        NotTouched(Step(c, refused, j), StepProps(j), p);
      }
    }
    ReplayLastWins(log, Steps(c, refused), k, n, p);
  }

  /** The fixed unguarded block sets AuthenticationLevel to 0. */
  lemma FixedZeroesAuthenticationLevel(c: Context)
    ensures Current(FixedWrites(c), AuthenticationLevel) == Some(Num(0))
  {
    var ws := FixedWrites(c);
    forall j | 5 < j < |ws| ensures ws[j].prop != AuthenticationLevel {
    }
    CurrentUnique(ws, 5, AuthenticationLevel);
  }

  /** Before the authentication-level setter runs, the pass has set the
      level to 0 in the fixed block. */
  lemma AuthenticationLevelZeroedFirst(log: seq<Write>, c: Context, refused: set<Write>)
    ensures Current(Run(log, c, refused, AuthenticationStep), AuthenticationLevel) == Some(Num(0))
  {
    FixedZeroesAuthenticationLevel(c);
    RunLastWins(log, c, refused, FixedStep, AuthenticationStep, AuthenticationLevel);
  }

  /** AuthenticationLevel is first written as 0 and later overwritten with the
      profile's level: when the later write is accepted, it wins. */
  lemma AuthenticationLevelLaterWins(log: seq<Write>, c: Context, refused: set<Write>)
    requires Write(AuthenticationLevel, Num(c.info.authenticationLevel)) !in refused
    ensures Current(ConfigLog(log, c, refused), AuthenticationLevel) == Some(Num(c.info.authenticationLevel))
  {
    var w := Write(AuthenticationLevel, Num(c.info.authenticationLevel));
    AttemptOne(w, refused);
    CurrentSingle([w], AuthenticationLevel);
    RunLastWins(log, c, refused, AuthenticationStep, StepCount, AuthenticationLevel);
  }

  /** A refused authentication-level setter leaves the 0 of the fixed block
      in place; since that write is guarded, its refusal never decides
      whether the pass completes. */
  lemma AuthenticationRefusalContained(log: seq<Write>, c: Context, refused: set<Write>)
    requires c.info.authenticationLevel != 0
    requires Write(AuthenticationLevel, Num(c.info.authenticationLevel)) in refused
    ensures Current(ConfigLog(log, c, refused), AuthenticationLevel) == Some(Num(0))
    ensures Accepts(UnguardedWrites(c), refused) <==>
              Accepts(UnguardedWrites(c), refused - {Write(AuthenticationLevel, Num(c.info.authenticationLevel))})
  {
    var w := Write(AuthenticationLevel, Num(c.info.authenticationLevel));
    AttemptOne(w, refused);
    assert Step(c, refused, AuthenticationStep) == [];
    FixedZeroesAuthenticationLevel(c);
    RunLastWinsPast(log, c, refused, FixedStep, AuthenticationStep, StepCount, AuthenticationLevel);
    UnguardedLevelIsZero(c);
  }

  /** The only authentication level among the unguarded writes is the 0 of
      the fixed block. */
  lemma UnguardedLevelIsZero(c: Context)
    ensures forall i :: 0 <= i < |UnguardedWrites(c)| && UnguardedWrites(c)[i].prop == AuthenticationLevel
              ==> UnguardedWrites(c)[i].value == Num(0)
  {
    var u := UnguardedWrites(c);
    forall i | 0 <= i < |u| && u[i].prop == AuthenticationLevel ensures u[i].value == Num(0) {
      assert u[i] in FixedWrites(c);
    }
  }

  /** Group isolation: the port lands whenever its own write is accepted,
      whatever the control refuses in the other groups. */
  lemma PortSurvivesOtherFailures(log: seq<Write>, c: Context, refused: set<Write>)
    requires c.info.port != DefaultPort && Write(RdpPort, Num(c.info.port)) !in refused
    ensures Current(ConfigLog(log, c, refused), RdpPort) == Some(Num(c.info.port))
  {
    var w := Write(RdpPort, Num(c.info.port));
    AttemptOne(w, refused);
    CurrentSingle([w], RdpPort);
    RunLastWins(log, c, refused, PortStep, StepCount, RdpPort);
  }

  /** The view-only directive always reaches the surface in a completed pass:
      nothing after it touches Enabled. */
  lemma ViewOnlyApplied(log: seq<Write>, c: Context, refused: set<Write>)
    ensures Current(ConfigLog(log, c, refused), Enabled) == Some(Flag(ViewOnly !in c.force))
  {
    var w := EnabledWrite(c);
    CurrentSingle([w], Enabled);
    RunLastWins(log, c, refused, ViewOnlyStep, StepCount, Enabled);
  }

  /** The writes made outside any try block are all accepted exactly when
      each of the unguarded steps is. */
  lemma UnguardedAccepts(c: Context, refused: set<Write>)
    ensures Accepts(UnguardedWrites(c), refused) <==>
      ServerWrite(c) !in refused && TitleWrite(c) !in refused && Accepts(FixedWrites(c), refused)
      && EnabledWrite(c) !in refused && ColorDepthWrite(c) !in refused && ConnectingTextWrite(c) !in refused
  {
    var head := [ServerWrite(c), TitleWrite(c)];
    var tail := [EnabledWrite(c), ColorDepthWrite(c), ConnectingTextWrite(c)];
    AcceptsConcat(head + FixedWrites(c), tail, refused);
    AcceptsConcat(head, FixedWrites(c), refused);
    assert Accepts(head, refused) <==> head[0] !in refused && head[1] !in refused;
    assert Accepts(tail, refused) <==> tail[0] !in refused && tail[1] !in refused && tail[2] !in refused;
  }

  /** A pass leaves `p` as the record had it when the only step that may
      write it, `m`, writes nothing. */
  lemma RunKeepsUntouched(log: seq<Write>, c: Context, refused: set<Write>, m: nat, p: Prop)
    requires m < StepCount && Step(c, refused, m) == []
    requires forall j :: 0 <= j < StepCount && j != m ==> p !in StepProps(j)
    ensures Current(ConfigLog(log, c, refused), p) == Current(log, p)
  {
    forall j | 0 <= j < StepCount ensures !Touches(Step(c, refused, j), p) {
      if j == m {
        CurrentAbsent(Step(c, refused, j), p);
      } else {
        NotTouched(Step(c, refused, j), StepProps(j), p);
      }
    }
    ReplayKeeps(log, Steps(c, refused), 0, StepCount, p);
  }

  /** Key combinations go to the remote server (hook mode 1) exactly when
      the profile redirects keys; otherwise the hook mode is not written. */
  lemma RedirectKeysValue(c: Context)
    ensures Current(RedirectKeysWrites(c), KeyboardHookMode) == if c.info.redirectKeys then Some(Num(1)) else None
  {
    CurrentSingle(RedirectKeysWrites(c), KeyboardHookMode);
  }

  /** After a pass the hook mode is 1 when keys are redirected and the write
      is accepted; without redirection the pass leaves it as it was. */
  lemma RedirectKeysApplied(log: seq<Write>, c: Context, refused: set<Write>)
    ensures c.info.redirectKeys && Write(KeyboardHookMode, Num(1)) !in refused ==>
              Current(ConfigLog(log, c, refused), KeyboardHookMode) == Some(Num(1))
    ensures !c.info.redirectKeys ==> Current(ConfigLog(log, c, refused), KeyboardHookMode) == Current(log, KeyboardHookMode)
  {
    var w := Write(KeyboardHookMode, Num(1));
    AttemptOne(w, refused);
    if c.info.redirectKeys && w !in refused {
      CurrentSingle([w], KeyboardHookMode);
      RunLastWins(log, c, refused, 7, StepCount, KeyboardHookMode);
    } else if !c.info.redirectKeys {
      assert Step(c, refused, 7) == [];
      RunKeepsUntouched(log, c, refused, 7, KeyboardHookMode);
    }
  }

  /** The token that reaches the control: re-encoded exactly when the UTF-8
      option is set. */
  function LoadBalanceToken(c: Context): string
  {
    if c.loadBalanceInfoUseUtf8 then c.host.encodedLoadBalanceInfo else c.info.loadBalanceInfo
  }

  /** An empty load-balancing token writes nothing; otherwise the token is
      written, re-encoded exactly when the UTF-8 option is set. */
  lemma LoadBalanceValue(c: Context)
    ensures Current(LoadBalanceWrites(c), LoadBalanceInfo) ==
              if c.info.loadBalanceInfo == "" then None else Some(Text(LoadBalanceToken(c)))
  {
    CurrentSingle(LoadBalanceWrites(c), LoadBalanceInfo);
  }

  /** After a pass a non-empty token is on the control when its write is
      accepted; an empty one leaves the property as it was. */
  lemma LoadBalanceApplied(log: seq<Write>, c: Context, refused: set<Write>)
    ensures c.info.loadBalanceInfo != "" && Write(LoadBalanceInfo, Text(LoadBalanceToken(c))) !in refused ==>
              Current(ConfigLog(log, c, refused), LoadBalanceInfo) == Some(Text(LoadBalanceToken(c)))
    ensures c.info.loadBalanceInfo == "" ==>
              Current(ConfigLog(log, c, refused), LoadBalanceInfo) == Current(log, LoadBalanceInfo)
  {
    var w := Write(LoadBalanceInfo, Text(LoadBalanceToken(c)));
    AttemptOne(w, refused);
    if c.info.loadBalanceInfo != "" && w !in refused {
      CurrentSingle([w], LoadBalanceInfo);
      RunLastWins(log, c, refused, 10, StepCount, LoadBalanceInfo);
    } else if c.info.loadBalanceInfo == "" {
      assert Step(c, refused, 10) == [];
      RunKeepsUntouched(log, c, refused, 10, LoadBalanceInfo);
    }
  }

  /** A pass runs its steps one after another. */
  lemma RunNext(log: seq<Write>, c: Context, refused: set<Write>, k: nat)
    ensures Run(log, c, refused, k + 1) == Run(log, c, refused, k) + Step(c, refused, k)
  {
  }
}
