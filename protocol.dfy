/**
 * The session object for one remote-desktop connection (version 6 of the
 * vendor control): it creates and configures the control, connects and
 * disconnects it, inverts the three view settings on request and reacts to
 * the control's callbacks and to the reconnect timer.
 */
module Protocol {
  import opened Wrappers
  import opened RdpControl
  import opened Profile
  import opened Config
  import Lifecycle
  import Scale
  import ConfigProperties

  /**
   * The vendor control: the record of property writes it has received, its
   * version and the properties whose writes it rejects by throwing.
   */
  class RdpClient {
    var written: seq<Write>
    const version: Version
    const refused: set<Write>

    constructor (version: Version, refused: set<Write>)
      ensures written == [] && this.version == version && this.refused == refused
    {
      written := [];
      this.version := version;
      this.refused := refused;
    }

    /** One property write; a refused one throws and leaves the control as it was. */
    method Put(w: Write) returns (ok: bool)
      modifies this
      ensures ok == (w !in refused)
      ensures written == old(written) + Attempt([w], refused)
    {
      AttemptOne(w, refused);
      ok := w !in refused;
      if ok {
        written := written + [w];
      }
    }

    /** Writes made one after another in one try block: they land in order
        until the control refuses one, which abandons the rest. */
    method Issue(ws: seq<Write>) returns (ok: bool)
      modifies this
      ensures ok == Accepts(ws, refused)
      ensures written == old(written) + Attempt(ws, refused)
    {
      var i := 0;
      while i < |ws|
        invariant 0 <= i <= |ws|
        invariant Accepts(ws[..i], refused)
        invariant written == old(written) + ws[..i]
      {
        ok := Put(ws[i]);
        if !ok {
          assert ws[..i] + ws[i..] == ws;
          assert ws[i..][0] == ws[i];
          AttemptConcat(ws[..i], ws[i..], refused);
          return;
        }
        assert ws[..i + 1] == ws[..i] + [ws[i]];
        i := i + 1;
      }
      assert ws[..i] == ws;
      AttemptAccepted(ws, refused);
      ok := true;
    }
  }

  class RdpProtocol {
    const info: ConnectionInfo
    const force: set<Force>
    const settings: Settings
    const host: Host
    const loadBalanceInfoUseUtf8: bool

    /** The control, once Initialize has created it. */
    var client: RdpClient?

    var loginComplete: bool
    var timerArmed: bool
    var reconnectGroup: Option<Lifecycle.ReconnectPanel>
    var alertOnIdleDisconnect: bool
    var redirectKeys: bool
    var closeCount: nat
    var connectCalls: nat
    var disconnectCalls: nat
    var handlerSets: nat
    var events: seq<Lifecycle.Event>

    /** The session's own fields, gathered into one value. */
    function State(): Lifecycle.Session
      reads this
    {
      Lifecycle.Session(loginComplete, timerArmed, reconnectGroup, alertOnIdleDisconnect, redirectKeys,
                        closeCount, connectCalls, disconnectCalls, handlerSets, events)
    }

    predicate Valid()
      reads this
    {
      Lifecycle.Valid(State())
    }

    /** What one configuration pass reads. */
    function Ctx(): Context
      requires client != null
      reads this`client
    {
      Context(info, force, settings, host, client.version, loadBalanceInfoUseUtf8)
    }

    constructor (info: ConnectionInfo, force: set<Force>, settings: Settings, host: Host, loadBalanceInfoUseUtf8: bool)
      ensures client == null && State() == Lifecycle.Initial && Valid()
      ensures this.info == info && this.force == force && this.settings == settings && this.host == host
      ensures this.loadBalanceInfoUseUtf8 == loadBalanceInfoUseUtf8
    {
      this.info := info;
      this.force := force;
      this.settings := settings;
      this.host := host;
      this.loadBalanceInfoUseUtf8 := loadBalanceInfoUseUtf8;
      client := null;
      loginComplete := false;
      timerArmed := false;
      reconnectGroup := None;
      alertOnIdleDisconnect := false;
      redirectKeys := false;
      closeCount := 0;
      connectCalls := 0;
      disconnectCalls := 0;
      handlerSets := 0;
      events := [];
    }

    // ---------------------------------------------------------------- initialisation and configuration

    /**
     * Creates the control and configures it. `available` says whether the
     * control could be created; `version` is the version it reports and
     * `refused` the properties it will reject. Configuration fails, and so
     * does Initialize, when a write made outside any try block is refused.
     */
    method Initialize(available: bool, version: Version, refused: set<Write>) returns (ok: bool)
      requires Valid()
      modifies this
      ensures Valid()
      ensures !available ==> !ok && client == old(client) && State() == old(State())
      ensures available ==> fresh(client) && client.version == version && client.refused == refused
      ensures available ==> ok == Accepts(UnguardedWrites(Ctx()), refused)
      ensures available && ok ==> client.written == ConfigLog([], Ctx(), refused)
      ensures available && ok ==> State() == old(State()).(alertOnIdleDisconnect := info.alertIdleTimeout,
                                                             redirectKeys := info.redirectKeys)
      ensures available ==> State() == old(State()).(alertOnIdleDisconnect := alertOnIdleDisconnect,
                                                     redirectKeys := redirectKeys)
    {
      if !available {
        return false;
      }
      client := new RdpClient(version, refused);
      ok := SetRdpClientProperties();
    }

    /**
     * One configuration pass, in the order of `Step`. It completes exactly
     * when the control accepts every write made outside a try block; a
     * refused one throws out of the pass. The pass is split into three runs
     * of steps (target, connection, display) around the fixed writes.
     */
    method SetRdpClientProperties() returns (ok: bool)
      requires client != null && Valid()
      modifies this, client
      ensures client == old(client) && Valid()
      ensures ok == Accepts(UnguardedWrites(Ctx()), client.refused)
      ensures ok ==> client.written == ConfigLog(old(client.written), Ctx(), client.refused)
      ensures ok ==> alertOnIdleDisconnect == info.alertIdleTimeout && redirectKeys == info.redirectKeys
      ensures State() == old(State()).(alertOnIdleDisconnect := alertOnIdleDisconnect, redirectKeys := redirectKeys)
    {
      var c := Ctx();
      ghost var r := client.refused;
      ghost var log := client.written;
      ConfigProperties.UnguardedAccepts(c, r);

      ok := SetTargetProperties();
      if !ok { return; }

      alertOnIdleDisconnect := info.alertIdleTimeout;
      ok := client.Issue(FixedWrites(c));
      if !ok { return; }
      AttemptAccepted(FixedWrites(c), r);
      ConfigProperties.RunNext(log, c, r, 4);

      SetConnectionProperties(log);
      ok := SetDisplayProperties(log);
    }

    /** Steps 0 to 3: the host name, the credentials, the resolution and the
        full-screen title. Only the host name and the title are unguarded. */
    method SetTargetProperties() returns (ok: bool)
      requires client != null
      modifies client
      ensures ok == (ServerWrite(Ctx()) !in client.refused && TitleWrite(Ctx()) !in client.refused)
      ensures ok ==> client.written == Run(old(client.written), Ctx(), client.refused, 4)
    {
      var c := Ctx();
      ghost var r := client.refused;
      ghost var log := client.written;

      ok := client.Put(Write(Server, Text(info.hostname)));
      if !ok { return; }
      ConfigProperties.RunNext(log, c, r, 0);
      SetLogonProperties(log);

      assert Step(c, r, 3) == [TitleWrite(c)];
      ok := client.Put(TitleWrite(c));
      if !ok { return; }
      ConfigProperties.RunNext(log, c, r, 3);
    }

    /** Steps 1 and 2: the credentials and the resolution, both guarded. */
    method SetLogonProperties(ghost log: seq<Write>)
      requires client != null && client.written == Run(log, Ctx(), client.refused, 1)
      modifies client
      ensures client.written == Run(log, Ctx(), client.refused, 3)
    {
      ghost var c := Ctx();
      ghost var r := client.refused;
      SetCredentials();
      ConfigProperties.RunNext(log, c, r, 1);
      SetResolution();
      ConfigProperties.RunNext(log, c, r, 2);
    }

    /** Steps 5 to 11: the guarded connection settings, none of which can
        abort the pass; the key-redirection flag is kept on the session. */
    method SetConnectionProperties(ghost log: seq<Write>)
      requires client != null && client.written == Run(log, Ctx(), client.refused, 5)
      modifies this, client
      ensures client == old(client)
      ensures client.written == Run(log, Ctx(), client.refused, 12)
      ensures State() == old(State()).(redirectKeys := info.redirectKeys)
    {
      var c := Ctx();
      ghost var r := client.refused;

      SetUseConsoleSession();
      ConfigProperties.RunNext(log, c, r, 5);
      SetPort();
      ConfigProperties.RunNext(log, c, r, 6);
      SetRedirectKeys(info.redirectKeys);
      ConfigProperties.RunNext(log, c, r, 7);
      SetRedirection();
      ConfigProperties.RunNext(log, c, r, 8);
      SetServerProperties(log);
    }

    /** Steps 9 to 11: the authentication level, the load-balancing cookie
        and the gateway. */
    method SetServerProperties(ghost log: seq<Write>)
      requires client != null && client.written == Run(log, Ctx(), client.refused, 9)
      modifies client
      ensures client.written == Run(log, Ctx(), client.refused, 12)
    {
      var c := Ctx();
      ghost var r := client.refused;

      SetAuthenticationLevel();
      ConfigProperties.RunNext(log, c, r, 9);
      SetLoadBalanceInfo();
      ConfigProperties.RunNext(log, c, r, 10);
      SetRdGateway();
      ConfigProperties.RunNext(log, c, r, 11);
    }

    /** Steps 12 to 15: view-only, colour depth, performance flags and the
        connecting text. All but the performance flags are unguarded. */
    method SetDisplayProperties(ghost log: seq<Write>) returns (ok: bool)
      requires client != null && client.written == Run(log, Ctx(), client.refused, 12)
      modifies client
      ensures ok == (EnabledWrite(Ctx()) !in client.refused && ColorDepthWrite(Ctx()) !in client.refused
                     && ConnectingTextWrite(Ctx()) !in client.refused)
      ensures ok ==> client.written == Run(log, Ctx(), client.refused, 16)
    {
      var c := Ctx();
      ghost var r := client.refused;

      assert Step(c, r, 12) == [EnabledWrite(c)];
      ok := client.Put(EnabledWrite(c));
      if !ok { return; }
      ConfigProperties.RunNext(log, c, r, 12);

      assert Step(c, r, 13) == [ColorDepthWrite(c)];
      ok := client.Put(ColorDepthWrite(c));
      if !ok { return; }
      ConfigProperties.RunNext(log, c, r, 13);
      ok := SetFinalProperties(log);
    }

    /** Steps 14 and 15: the performance flags and the connecting text. */
    method SetFinalProperties(ghost log: seq<Write>) returns (ok: bool)
      requires client != null && client.written == Run(log, Ctx(), client.refused, 14)
      modifies client
      ensures ok == (ConnectingTextWrite(Ctx()) !in client.refused)
      ensures ok ==> client.written == Run(log, Ctx(), client.refused, 16)
    {
      var c := Ctx();
      ghost var r := client.refused;

      SetPerformanceFlags();
      ConfigProperties.RunNext(log, c, r, 14);
      assert client.written == Run(log, c, r, 15);

      assert Step(c, r, 15) == [ConnectingTextWrite(c)];
      ok := client.Put(ConnectingTextWrite(c));
      if !ok { return; }
      ConfigProperties.RunNext(log, c, r, 15);
    }

    /** The credential group: user name, password and domain, each from the
        profile or, when empty, from the empty-credentials policy. A refused
        write abandons the rest of the group. */
    method SetCredentials()
      requires client != null
      modifies client
      ensures client.written == old(client.written) + Attempt(CredentialWrites(Ctx()), client.refused)
    {
      if NoCredentials in force {
        return;
      }
      ghost var c := Ctx();
      ghost var r := client.refused;
      ghost var start := client.written;
      assert CredentialWrites(c) == UserNameWrites(c) + (PasswordWrites(c) + DomainWrites(c));
      AttemptStep(start, UserNameWrites(c), PasswordWrites(c) + DomainWrites(c), r);
      var ok := SetUserName();
      if !ok {
        return;
      }
      AttemptAccepted(UserNameWrites(c), r);
      ghost var named := client.written;
      AttemptStep(named, PasswordWrites(c), DomainWrites(c), r);
      ok := SetPassword();
      if !ok {
        return;
      }
      AttemptAccepted(PasswordWrites(c), r);
      SetDomain();
    }

    method SetUserName() returns (ok: bool)
      requires client != null
      modifies client
      ensures ok == Accepts(UserNameWrites(Ctx()), client.refused)
      ensures client.written == old(client.written) + Attempt(UserNameWrites(Ctx()), client.refused)
    {
      ok := true;
      if info.username == "" {
        if settings.emptyCredentials == "windows" {
          ok := client.Put(Write(UserName, Text(host.localUserName)));
        } else if settings.emptyCredentials == "custom" {
          ok := client.Put(Write(UserName, Text(settings.defaultUsername)));
        }
      } else {
        ok := client.Put(Write(UserName, Text(info.username)));
      }
    }

    method SetPassword() returns (ok: bool)
      requires client != null
      modifies client
      ensures ok == Accepts(PasswordWrites(Ctx()), client.refused)
      ensures client.written == old(client.written) + Attempt(PasswordWrites(Ctx()), client.refused)
    {
      ok := true;
      if info.password == "" {
        if settings.emptyCredentials == "custom" {
          if settings.defaultPassword != "" {
            ok := client.Put(Write(ClearTextPassword, Text(host.decryptedDefaultPassword)));
          }
        }
      } else {
        ok := client.Put(Write(ClearTextPassword, Text(info.password)));
      }
    }

    method SetDomain()
      requires client != null
      modifies client
      ensures client.written == old(client.written) + Attempt(DomainWrites(Ctx()), client.refused)
    {
      var ok;
      if info.domain == "" {
        if settings.emptyCredentials == "windows" {
          ok := client.Put(Write(Domain, Text(host.localDomainName)));
        } else if settings.emptyCredentials == "custom" {
          ok := client.Put(Write(Domain, Text(settings.defaultDomain)));
        }
      } else {
        ok := client.Put(Write(Domain, Text(info.domain)));
      }
    }

    /** An extended property, written in its own try block. */
    method SetExtendedProperty(w: Write)
      requires client != null
      modifies client
      ensures client.written == old(client.written) + Attempt([w], client.refused)
    {
      var ok := client.Put(w);
    }

    /** The resolution group: the two scale hints, each written on its own,
        then the size. */
    method SetResolution()
      requires client != null
      modifies client
      ensures client.written == old(client.written) + ResolutionLog(Ctx(), client.refused)
    {
      ghost var c := Ctx();
      ghost var r := client.refused;
      ghost var start := client.written;
      var desktop := Write(DesktopScaleFactor, Num(Scale.DesktopScaleFactor(host.scalePercent)));
      var device := Write(DeviceScaleFactor, Num(Scale.DeviceScaleFactor(host.scalePercent)));
      assert desktop == DesktopHintWrite(c) && device == DeviceHintWrite(c);
      ghost var a := Attempt([desktop], r);
      ghost var b := Attempt([device], r);
      ghost var z := Attempt(SizeWrites(c), r);
      assert ResolutionLog(c, r) == a + b + z;
      SetExtendedProperty(desktop);
      SetExtendedProperty(device);
      SetSize();
      assert client.written == start + a + b + z;
      assert start + a + b + z == start + (a + b + z);
    }

    /** The size part of the resolution group: the screen size under the
        Fullscreen force flag, otherwise chosen by the profile's resolution. */
    method SetSize()
      requires client != null
      modifies client
      ensures client.written == old(client.written) + Attempt(SizeWrites(Ctx()), client.refused)
    {
      var c := Ctx();
      ghost var r := client.refused;
      ghost var start := client.written;
      var ok;
      if Force.Fullscreen in force {
        ok := client.Issue(ScreenWrites(c));
      } else {
        match info.resolution
        case FitToWindow =>
          ok := client.Issue(ControlSizeWrites(c));
        case SmartSize =>
          AttemptStep(start, ControlSizeWrites(c), [Write(SmartSizing, Flag(true))], r);
          ok := client.Issue(ControlSizeWrites(c));
          if ok {
            AttemptAccepted(ControlSizeWrites(c), r);
            ok := client.Put(Write(SmartSizing, Flag(true)));
          }
        case Fullscreen =>
          ok := client.Issue(ScreenWrites(c));
        case Fixed(w, h) =>
          ok := client.Issue([Write(DesktopWidth, Num(w)), Write(DesktopHeight, Num(h))]);
      }
    }

    /** The console-session switch, written only from RDC61 on. */
    method SetUseConsoleSession()
      requires client != null
      modifies client
      ensures client.written == old(client.written) + Attempt(ConsoleWrites(Ctx()), client.refused)
    {
      var value: bool;
      if UseConsoleSession in force {
        value := true;
      } else if DontUseConsoleSession in force {
        value := false;
      } else {
        value := info.useConsoleSession;
      }
      if AtLeast(client.version, RDC61) {
        var ok := client.Put(Write(ConnectToAdministerServer, Flag(value)));
      }
    }

    /** The port, written only when it is not the default one. */
    method SetPort()
      requires client != null
      modifies client
      ensures client.written == old(client.written) + Attempt(PortWrites(Ctx()), client.refused)
    {
      if info.port != DefaultPort {
        var ok := client.Put(Write(RdpPort, Num(info.port)));
      }
    }

    /** The key redirection flag is kept, and when it is set the control is
        told to apply key combinations at the remote server. */
    method SetRedirectKeys(value: bool)
      requires client != null && value == info.redirectKeys
      modifies this, client
      ensures client == old(client)
      ensures State() == old(State()).(redirectKeys := value)
      ensures client.written == old(client.written) + Attempt(RedirectKeysWrites(Ctx()), client.refused)
    {
      redirectKeys := value;
      if redirectKeys {
        var ok := client.Put(Write(KeyboardHookMode, Num(1)));
      }
    }

    /** Drive, port, printer, smart card, sound and clipboard redirection. */
    method SetRedirection()
      requires client != null
      modifies client
      ensures client.written == old(client.written) + Attempt(RedirectionWrites(Ctx()), client.refused)
    {
      var ok := client.Issue(RedirectionWrites(Ctx()));
    }

    /** The profile's authentication level. */
    method SetAuthenticationLevel()
      requires client != null
      modifies client
      ensures client.written == old(client.written) + Attempt(AuthenticationWrites(Ctx()), client.refused)
    {
      var ok := client.Put(Write(AuthenticationLevel, Num(info.authenticationLevel)));
    }

    /** The load-balancing token, re-encoded when asked to; nothing when empty. */
    method SetLoadBalanceInfo()
      requires client != null
      modifies client
      ensures client.written == old(client.written) + Attempt(LoadBalanceWrites(Ctx()), client.refused)
    {
      if info.loadBalanceInfo == "" {
        return;
      }
      var value := if loadBalanceInfoUseUtf8 then host.encodedLoadBalanceInfo else info.loadBalanceInfo;
      var ok := client.Put(Write(LoadBalanceInfo, Text(value)));
    }

    /** The gateway group: routing, the smart-card marker and, from RDC61 on
        and without NoCredentials, the gateway logon. */
    method SetRdGateway()
      requires client != null
      modifies client
      ensures client.written == old(client.written) + Attempt(GatewayWrites(Ctx()), client.refused)
    {
      var c := Ctx();
      ghost var r := client.refused;
      ghost var start := client.written;
      if !host.gatewaySupported || info.gatewayUsageMethod == Never {
        return;
      }
      assert GatewayWrites(c)
        == GatewayRoutingWrites(c) + (GatewayCredsSourceWrites(c) + GatewayCredentialWrites(c));
      AttemptStep(start, GatewayRoutingWrites(c), GatewayCredsSourceWrites(c) + GatewayCredentialWrites(c), r);
      var ok := client.Issue(GatewayRoutingWrites(c));
      if !ok {
        return;
      }
      AttemptAccepted(GatewayRoutingWrites(c), r);
      SetGatewayAuthentication();
    }

    /** After the routing: the smart-card credentials source, when chosen,
        then the gateway logon. */
    method SetGatewayAuthentication()
      requires client != null
      modifies client
      ensures client.written
        == old(client.written) + Attempt(GatewayCredsSourceWrites(Ctx()) + GatewayCredentialWrites(Ctx()), client.refused)
    {
      ghost var c := Ctx();
      ghost var r := client.refused;
      AttemptStep(client.written, GatewayCredsSourceWrites(c), GatewayCredentialWrites(c), r);
      if info.gatewayUseConnectionCredentials == SmartCard {
        var ok := client.Put(Write(GatewayCredsSource, Num(1)));
        if !ok {
          return;
        }
      }
      AttemptAccepted(GatewayCredsSourceWrites(c), r);
      SetGatewayCredentials();
    }

    /** The gateway logon, from RDC61 on and unless credentials are
        suppressed: the connection's own credentials (shared), a smart card
        (not shared) or the gateway's own credentials (not shared). */
    method SetGatewayCredentials()
      requires client != null
      modifies client
      ensures client.written == old(client.written) + Attempt(GatewayCredentialWrites(Ctx()), client.refused)
    {
      var ok;
      if AtLeast(client.version, RDC61) && NoCredentials !in force {
        match info.gatewayUseConnectionCredentials
        case Yes =>
          ok := client.Issue(GatewayLogon(info.username, info.password, info.domain, true));
        case SmartCard =>
          ok := client.Put(Write(GatewayCredSharing, Num(0)));
        case No =>
          ok := client.Issue(GatewayLogon(info.gatewayUsername, info.gatewayPassword, info.gatewayDomain, false));
      }
    }

    /** The performance word, accumulated flag by flag in the order the
        profile's settings are tested, then written. */
    method SetPerformanceFlags()
      requires client != null
      modifies client
      ensures client.written == old(client.written) + Attempt(PerfWrites(Ctx()), client.refused)
    {
      var flags := PerformanceWord();
      var ok := client.Put(Write(PerformanceFlags, Num(flags)));
    }

    /** The word is accumulated flag by flag, adding each requested flag's
        value in the order the profile's settings are tested. */
    method PerformanceWord() returns (flags: int)
      ensures flags == PerfWord(info)
    {
      flags := 0;
      if !info.displayThemes {
        flags := flags + FlagValue(DisableThemes);
      }
      ghost var sum := Term(info, DisableThemes);
      assert flags == sum;
      if !info.displayWallpaper {
        flags := flags + FlagValue(DisableWallpaper);
      }
      sum := sum + Term(info, DisableWallpaper);
      assert flags == sum;
      if info.enableFontSmoothing {
        flags := flags + FlagValue(EnableFontSmoothing);
      }
      sum := sum + Term(info, EnableFontSmoothing);
      assert flags == sum;
      if info.enableDesktopComposition {
        flags := flags + FlagValue(EnableDesktopComposition);
      }
      sum := sum + Term(info, EnableDesktopComposition);
      assert flags == sum;
      if info.disableFullWindowDrag {
        flags := flags + FlagValue(DisableFullWindowDrag);
      }
      sum := sum + Term(info, DisableFullWindowDrag);
      assert flags == sum;
      if info.disableMenuAnimations {
        flags := flags + FlagValue(DisableMenuAnimations);
      }
      sum := sum + Term(info, DisableMenuAnimations);
      assert flags == sum;
      if info.disableCursorShadow {
        flags := flags + FlagValue(DisableCursorShadow);
      }
      sum := sum + Term(info, DisableCursorShadow);
      assert flags == sum;
      if info.disableCursorBlinking {
        flags := flags + FlagValue(DisableCursorBlinking);
      }
    }

    // ---------------------------------------------------------------- connecting and disconnecting

    /** Resets the login flag, subscribes the control's handlers and calls the
        control's connect primitive; fails without a control or when the call throws. */
    method Connect(throws: bool) returns (ok: bool)
      requires Valid()
      modifies this
      ensures client == old(client) && Valid()
      ensures State() == Lifecycle.Connect(old(State()), client != null)
      ensures ok == (client != null && !throws)
    {
      loginComplete := false;
      if client != null {
        handlerSets := handlerSets + 1;
        connectCalls := connectCalls + 1;
      }
      ok := client != null && !throws;
      Lifecycle.ControlCallsKeepValid(old(State()), client != null, throws);
    }

    /** Calls the control's disconnect primitive, closing the session instead
        when there is no control or the call throws. */
    method Disconnect(throws: bool)
      requires Valid()
      modifies this
      ensures client == old(client) && Valid()
      ensures State() == Lifecycle.Disconnect(old(State()), client != null, throws)
    {
      if client != null {
        disconnectCalls := disconnectCalls + 1;
      }
      if client == null || throws {
        Close();
      }
      Lifecycle.ControlCallsKeepValid(old(State()), client != null, throws);
    }

    /** Close, inherited from the base protocol. */
    method Close()
      modifies this
      ensures client == old(client)
      ensures State() == Lifecycle.Close(old(State()))
    {
      closeCount := closeCount + 1;
    }

    // ---------------------------------------------------------------- toggles

    /** Whether the control shows the session full screen (off until written). */
    function IsFullscreen(): bool
      requires client != null
      reads this, client
    {
      FlagOr(client.written, FullScreen, false)
    }

    /** Whether the control scales the remote desktop to fit (off until written). */
    function IsSmartSize(): bool
      requires client != null
      reads this, client
    {
      FlagOr(client.written, SmartSizing, false)
    }

    /** Whether input is withheld from the remote host: the hosting surface is disabled. */
    function IsViewOnly(): bool
      requires client != null
      reads this, client
    {
      !FlagOr(client.written, Enabled, true)
    }

    /** Inverts full-screen mode; a refused write is caught and changes nothing. */
    method ToggleFullscreen()
      modifies client
      ensures client != null ==> client.written == Toggle(old(client.written), FullScreen, false, client.refused)
      ensures client != null && ToggleWrite(old(client.written), FullScreen, false) !in client.refused ==>
                IsFullscreen() == !old(IsFullscreen())
    {
      if client != null {
        ToggleInverts(client.written, FullScreen, false, client.refused);
        var ok := client.Put(Write(FullScreen, Flag(!FlagOr(client.written, FullScreen, false))));
      }
    }

    /** Inverts smart sizing; a refused write is caught and changes nothing. */
    method ToggleSmartSize()
      modifies client
      ensures client != null ==> client.written == Toggle(old(client.written), SmartSizing, false, client.refused)
      ensures client != null && ToggleWrite(old(client.written), SmartSizing, false) !in client.refused ==>
                IsSmartSize() == !old(IsSmartSize())
    {
      if client != null {
        ToggleInverts(client.written, SmartSizing, false, client.refused);
        var ok := client.Put(Write(SmartSizing, Flag(!FlagOr(client.written, SmartSizing, false))));
      }
    }

    /** Inverts view-only mode by inverting the hosting surface's Enabled flag. */
    method ToggleViewOnly()
      modifies client
      ensures client != null ==> client.written == Toggle(old(client.written), Enabled, true, client.refused)
      ensures client != null && ToggleWrite(old(client.written), Enabled, true) !in client.refused ==>
                IsViewOnly() == !old(IsViewOnly())
    {
      if client != null {
        ToggleInverts(client.written, Enabled, true, client.refused);
        var viewOnly := !FlagOr(client.written, Enabled, true);
        var value := !viewOnly;
        var ok := client.Put(Write(Enabled, Flag(!value)));
      }
    }

    // ---------------------------------------------------------------- control callbacks and the reconnect timer

    method OnConnecting()
      requires Valid()
      modifies this
      ensures client == old(client) && Valid()
      ensures State() == Lifecycle.Raise(old(State()), Lifecycle.Connecting)
    {
      events := events + [Lifecycle.Connecting];
    }

    method OnConnected()
      requires Valid()
      modifies this
      ensures client == old(client) && Valid()
      ensures State() == Lifecycle.Raise(old(State()), Lifecycle.Connected)
    {
      events := events + [Lifecycle.Connected];
    }

    method OnLoginComplete()
      requires Valid()
      modifies this
      ensures client == old(client) && Valid()
      ensures State() == old(State()).(loginComplete := true)
    {
      loginComplete := true;
    }

    /** A fatal error is reported with its code. */
    method OnFatalError(code: int)
      requires Valid()
      modifies this
      ensures client == old(client) && Valid()
      ensures State() == Lifecycle.Raise(old(State()), Lifecycle.ErrorOccurred(code))
    {
      events := events + [Lifecycle.ErrorOccurred(code)];
    }

    /** The control dropped the connection: report an abnormal reason, then
        either arm the reconnect timer with a fresh panel or close. */
    method OnDisconnected(reason: int)
      requires Valid()
      modifies this
      ensures client == old(client) && Valid()
      ensures State() == Lifecycle.OnDisconnected(old(State()), reason, settings.reconnectOnDisconnect)
    {
      if reason != Lifecycle.NormalDisconnect {
        events := events + [Lifecycle.Disconnected(reason)];
      }
      if settings.reconnectOnDisconnect {
        reconnectGroup := Some(Lifecycle.ReconnectPanel(None, false));
        timerArmed := true;
      } else {
        Close();
      }
      Lifecycle.CallbacksKeepValid(old(State()), reason, settings.reconnectOnDisconnect, false, false,
                                   Lifecycle.Connecting);
    }

    /** Leaving full screen: the control is told so, then the owner is
        notified; a refused write escapes the handler before the notification. */
    method OnLeaveFullscreen()
      requires client != null && Valid()
      modifies this, client
      ensures client == old(client) && Valid()
      ensures client.written == old(client.written) + Attempt([Write(FullScreen, Flag(false))], client.refused)
      ensures State() == if Write(FullScreen, Flag(false)) in client.refused then old(State())
                         else Lifecycle.Raise(old(State()), Lifecycle.LeftFullscreen)
    {
      var ok := client.Put(Write(FullScreen, Flag(false)));
      if ok {
        events := events + [Lifecycle.LeftFullscreen];
      }
    }

    /** The idle timeout closes the session, then alerts when asked to. */
    method OnIdleTimeout()
      requires Valid()
      modifies this
      ensures client == old(client) && Valid()
      ensures State() == Lifecycle.OnIdleTimeout(old(State()))
    {
      Close();
      if alertOnIdleDisconnect {
        events := events + [Lifecycle.IdleAlert];
      }
      Lifecycle.CallbacksKeepValid(old(State()), 0, false, false, false, Lifecycle.Connecting);
    }

    /**
     * A tick of the reconnect timer with the probe's result and the panel's
     * "reconnect when ready" choice; the timer fires only while it is
     * armed. Only the control's connect primitive is called: the control's
     * record of writes is not touched, so the configuration is not applied
     * again.
     */
    method ReconnectTick(probe: bool, whenReady: bool)
      requires Valid() && timerArmed
      modifies this
      ensures client == old(client) && Valid()
      ensures State() == Lifecycle.ReconnectTick(old(State()), probe, whenReady)
    {
      Lifecycle.CallbacksKeepValid(State(), 0, false, probe, whenReady, Lifecycle.Connecting);
      reconnectGroup := Some(reconnectGroup.value.(serverReady := Some(probe)));
      if !whenReady || !probe {
        return;
      }
      timerArmed := false;
      reconnectGroup := Some(reconnectGroup.value.(disposed := true));
      connectCalls := connectCalls + 1;
    }
  }
}
