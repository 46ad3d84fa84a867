# A verified model of mRemoteNG's RDP session (RdpProtocol6)

mRemoteNG drives Microsoft's remote-desktop ActiveX control through the class
`RdpProtocol6`. This project models the decision logic of that class in Dafny:

- **The control** (`control.dfy`, module `RdpControl`) is a record of the
  property writes it has received. A property's value is the last value
  written to it; `None` means the property was never written. A write the
  control rejects throws. The model describes this with a set of *refused*
  writes. Whether a write is rejected depends on its property and its value,
  and the same write always gets the same answer. A try block around several
  writes therefore leaves the longest accepted prefix of them (`Attempt`).
- **The inputs of a configuration pass** (`profile.dfy`, module `Profile`)
  are the connection profile, the `Force` flags, the user settings, the host
  environment and the control's version, gathered in one `Context`.
- **The scale hints** (`scale.dfy`, module `Scale`) map the display scaling
  percentage to the desktop and device scale tiers.
- **The configuration pass** (`config.dfy`, module `Config`) describes what
  each setter group writes, as pure functions. `Step(c, refused, k)` is the
  k-th of the 16 steps of `SetRdpClientProperties`, in source order.
  `ConfigLog` is the record after a whole pass. `config_properties.dfy`
  (module `ConfigProperties`) proves what a pass guarantees: the credential
  fallback policy, console-session precedence, resolution selection, port
  suppression, the performance word, gateway credential selection, and how
  the steps compose.
- **The session lifecycle** (`lifecycle.dfy`, module `Lifecycle`) treats
  `Connect`, `Disconnect`, the control's callbacks and the reconnect timer as
  transitions on a `Session` value.
- **The session class** (`protocol.dfy`, module `Protocol`) holds the
  imperative code.
  - `RdpClient` is the control object. Its record of writes is updated in
    place.
  - `RdpProtocol` is the session object. It has one field per piece of
    session state, and its setters write to the control step by step.
  - Every method is proved against the pure functions above. A setter's new
    record of writes is the old record plus the `Attempt` of its group. A
    lifecycle method's new `State()` is the `Lifecycle` transition of the old
    one.
  - Each class method keeps `Valid()`: the reconnect timer is armed only
    while a live reconnect panel exists.

Source paths below are relative to the repository root.

## Model

| member | source | states |
|---|---|---|
| Scale.DesktopScaleFactor | mRemoteNG/Connection/Protocol/RDP/RdpProtocol6.cs:723-740 | The desktop tier is one of 100, 125, 150, 200. It is 125 exactly for 125 %, 150 exactly for 150 % or 175 %, and 200 exactly from 200 % up. |
| Scale.DeviceScaleFactor | mRemoteNG/Connection/Protocol/RDP/RdpProtocol6.cs:741-757 | The device tier is one of 100, 140, 180. It is 140 exactly for 125, 150 or 175 %, and 180 exactly from 200 % up. |
| Scale.ScaleTiersAgree | mRemoteNG/Connection/Protocol/RDP/RdpProtocol6.cs:723-757 | The device tier is a function of the desktop tier, and one hint is 100 exactly when the other is. |
| Profile.AtLeastIsTotalOrder | mRemoteNG/Connection/Protocol/RDP/RdpProtocol6.cs:1023-1031 | The version comparison behind the `>= RDC61` gates is reflexive, total, antisymmetric and transitive. |
| RdpControl.Attempt | mRemoteNG/Connection/Protocol/RDP/RdpProtocol6.cs:820-835 | What a try block leaves is no longer than its writes. When it stops short, the write it stopped at was refused. |
| RdpControl.AttemptIsLongestAcceptedPrefix | mRemoteNG/Connection/Protocol/RDP/RdpProtocol6.cs:820-835 | A try block leaves a prefix of its writes, none of them refused. When it stops short, the next write was refused. |
| RdpControl.AttemptConcat | mRemoteNG/Connection/Protocol/RDP/RdpProtocol6.cs:454-520 | A try block split into two parts reaches the second part exactly when the first is wholly accepted. |
| RdpControl.AttemptAccepted | mRemoteNG/Connection/Protocol/RDP/RdpProtocol6.cs:820-835 | A group none of whose writes is refused is written in full. |
| RdpControl.AcceptsConcat | mRemoteNG/Connection/Protocol/RDP/RdpProtocol6.cs:284-325 | A run of writes is accepted exactly when both of its parts are. |
| RdpControl.ReplayLastWins | mRemoteNG/Connection/Protocol/RDP/RdpProtocol6.cs:284-325 | When a step writes a property and no later step touches it, the property ends as that step left it. |
| RdpControl.ReplayExtends | mRemoteNG/Connection/Protocol/RDP/RdpProtocol6.cs:284-325 | Running the steps of a pass only appends to the record it starts from. |
| RdpControl.ToggleWrite | mRemoteNG/Connection/Protocol/RDP/RdpProtocol6.cs:205-243 | A toggle writes its own flag, and once that write lands the flag reads as the negation of what it read before (its default when never written). |
| RdpControl.Toggle | mRemoteNG/Connection/Protocol/RDP/RdpProtocol6.cs:205-243 | A toggle keeps the record it starts from and adds at most one write. |
| RdpControl.ToggleInverts | mRemoteNG/Connection/Protocol/RDP/RdpProtocol6.cs:205-243 | A toggle whose write is accepted inverts the flag. A refused toggle is caught and leaves the record unchanged. |
| RdpControl.ToggleTwiceRestores | mRemoteNG/Connection/Protocol/RDP/RdpProtocol6.cs:205-243 | Toggling twice restores the flag's value, unless the first toggle lands and the second is refused. |
| RdpControl.ToggleKeepsOthers | mRemoteNG/Connection/Protocol/RDP/RdpProtocol6.cs:205-243 | A toggle changes no other property. |
| Config.UserNameWrites | mRemoteNG/Connection/Protocol/RDP/RdpProtocol6.cs:463-476 | The user-name setter writes at most the user name. It writes nothing exactly when the profile's user name is empty and the empty-credentials policy is neither "windows" nor "custom". |
| Config.PasswordWrites | mRemoteNG/Connection/Protocol/RDP/RdpProtocol6.cs:478-493 | The password setter writes at most the password. It writes nothing exactly when the profile's password is empty and there is no stored default under "custom". |
| Config.DomainWrites | mRemoteNG/Connection/Protocol/RDP/RdpProtocol6.cs:495-509 | The domain setter writes at most the domain. It writes nothing exactly when the profile's domain is empty and the policy is neither "windows" nor "custom". |
| Config.CredentialWrites | mRemoteNG/Connection/Protocol/RDP/RdpProtocol6.cs:454-520 | The credential group writes only user name, password and domain. Under NoCredentials it writes nothing. |
| Config.ConsoleWrites | mRemoteNG/Connection/Protocol/RDP/RdpProtocol6.cs:410-452 | The console group writes only ConnectToAdministerServer. |
| Config.SizeWrites | mRemoteNG/Connection/Protocol/RDP/RdpProtocol6.cs:765-797 | The size part of the resolution group writes only FullScreen, the desktop width and height, and SmartSizing. |
| Config.ResolutionLog | mRemoteNG/Connection/Protocol/RDP/RdpProtocol6.cs:759-803 | The resolution step, with its two scale hints and the size group, writes only the resolution properties. |
| Config.PortWrites | mRemoteNG/Connection/Protocol/RDP/RdpProtocol6.cs:805-818 | The port group writes only the port. |
| Config.RedirectKeysWrites | mRemoteNG/Connection/Protocol/RDP/RdpProtocol6.cs:60-87 | The key-redirection setter writes only KeyboardHookMode. |
| Config.RedirectionWrites | mRemoteNG/Connection/Protocol/RDP/RdpProtocol6.cs:820-835 | The redirection group writes only its six redirection properties. |
| Config.AuthenticationWrites | mRemoteNG/Connection/Protocol/RDP/RdpProtocol6.cs:874-884 | The authentication group writes only AuthenticationLevel. |
| Config.LoadBalanceWrites | mRemoteNG/Connection/Protocol/RDP/RdpProtocol6.cs:886-903 | The load-balance group writes only LoadBalanceInfo. |
| Config.GatewayWrites | mRemoteNG/Connection/Protocol/RDP/RdpProtocol6.cs:356-408 | The gateway group writes only the eight gateway properties. |
| Config.GatewayCredentialWrites | mRemoteNG/Connection/Protocol/RDP/RdpProtocol6.cs:382-400 | The gateway credential branch writes only the gateway user name, password, domain and sharing flag. |
| Config.PerfWrites | mRemoteNG/Connection/Protocol/RDP/RdpProtocol6.cs:837-872 | The performance group writes only PerformanceFlags. |
| Config.FlagValue | mRemoteNG/Connection/Protocol/RDP/RdpProtocol6.cs:837-872 | Every performance flag has a positive value. |
| Config.PerfWord | mRemoteNG/Connection/Protocol/RDP/RdpProtocol6.cs:841-866 | The word lies in 0..0x1EF, so the 32-bit signed accumulator never wraps. |
| Config.Step | mRemoteNG/Connection/Protocol/RDP/RdpProtocol6.cs:284-325 | Every step of the pass writes only the properties listed for it. |
| Config.ConfigLog | mRemoteNG/Connection/Protocol/RDP/RdpProtocol6.cs:284-325 | A pass only appends to the record of writes it starts from. |
| ConfigProperties.CredentialsVerbatim | mRemoteNG/Connection/Protocol/RDP/RdpProtocol6.cs:454-520 | Without NoCredentials, a non-empty profile user name, password or domain is written verbatim. |
| ConfigProperties.CredentialsFallback | mRemoteNG/Connection/Protocol/RDP/RdpProtocol6.cs:463-509 | An empty user name becomes the local user name under the "windows" policy and the default user name under "custom". An empty domain becomes the local domain or the default domain in the same way. Under any other policy neither is written. |
| ConfigProperties.PasswordFallback | mRemoteNG/Connection/Protocol/RDP/RdpProtocol6.cs:478-493 | An empty password becomes the decrypted default password only under "custom" with a stored default. "windows" never supplies a password. |
| ConfigProperties.ConsoleSessionPrecedence | mRemoteNG/Connection/Protocol/RDP/RdpProtocol6.cs:410-452 | UseConsoleSession beats DontUseConsoleSession, which beats the profile. The switch is written exactly from RDC61 on. |
| ConfigProperties.ResolutionSelection | mRemoteNG/Connection/Protocol/RDP/RdpProtocol6.cs:759-803 | Forced full screen ignores the profile mode. Otherwise FullScreen is set only by the Fullscreen mode and SmartSizing only by SmartSize. The width and the height come from the screen, the hosting control or the fixed rectangle. |
| ConfigProperties.DesktopScaleHintApplied | mRemoteNG/Connection/Protocol/RDP/RdpProtocol6.cs:342-354 | The desktop scale hint has its own try block. It lands whenever it is accepted, whatever else is refused. |
| ConfigProperties.DeviceScaleHintApplied | mRemoteNG/Connection/Protocol/RDP/RdpProtocol6.cs:342-354 | Likewise for the device scale hint. |
| ConfigProperties.SizesIgnoreScaleHints | mRemoteNG/Connection/Protocol/RDP/RdpProtocol6.cs:759-803 | The size properties end as the size writes alone leave them, whatever happened to the scale hints. |
| ConfigProperties.PortDefaultSuppressed | mRemoteNG/Connection/Protocol/RDP/RdpProtocol6.cs:805-818 | The port is written exactly when it differs from 3389, and then with the profile's port. |
| ConfigProperties.RequestedSumPermutation | mRemoteNG/Connection/Protocol/RDP/RdpProtocol6.cs:837-872 | The sum of the requested flags' values is the same for any two orderings of the same flags. |
| ConfigProperties.PerfWordInOrder | mRemoteNG/Connection/Protocol/RDP/RdpProtocol6.cs:841-866 | The word, accumulated in the order the source tests the flags, equals the sum of the requested flags' values in the flags' declaration order. |
| ConfigProperties.PerfWordIsRequestedSum | mRemoteNG/Connection/Protocol/RDP/RdpProtocol6.cs:837-872 | The performance word is the sum of the values of exactly the requested flags, visited in any order. |
| ConfigProperties.PerfWordZero | mRemoteNG/Connection/Protocol/RDP/RdpProtocol6.cs:837-872 | The word is 0 exactly when no flag is requested. |
| ConfigProperties.GatewayRouting | mRemoteNG/Connection/Protocol/RDP/RdpProtocol6.cs:356-375 | Without gateway support, or with usage Never, no gateway property is touched. Otherwise the usage method, the host name and the explicit profile mode 1 are written. |
| ConfigProperties.GatewaySmartCardSource | mRemoteNG/Connection/Protocol/RDP/RdpProtocol6.cs:376-380 | With the gateway on, the smart-card credential source is set exactly under the SmartCard policy, whatever the version. |
| ConfigProperties.GatewayUsernameSelection | mRemoteNG/Connection/Protocol/RDP/RdpProtocol6.cs:382-400 | The gateway user name is the connection's under Yes and the gateway's own under No. It is not written under SmartCard, below RDC61 or with NoCredentials. |
| ConfigProperties.GatewayPasswordSelection | mRemoteNG/Connection/Protocol/RDP/RdpProtocol6.cs:382-400 | The gateway password follows the same policy as the user name. |
| ConfigProperties.GatewayDomainSelection | mRemoteNG/Connection/Protocol/RDP/RdpProtocol6.cs:382-400 | The gateway domain is the connection's under Yes and the gateway's own under No. It is not written under SmartCard, below RDC61, with NoCredentials or with the gateway off. |
| ConfigProperties.GatewayCredSharingSelection | mRemoteNG/Connection/Protocol/RDP/RdpProtocol6.cs:382-400 | Credential sharing is switched off (0) exactly in the credential branch under every policy except Yes. |
| ConfigProperties.GatewayLogonValues | mRemoteNG/Connection/Protocol/RDP/RdpProtocol6.cs:384-399 | The explicit logon writes leave the given user name, password and domain. Sharing is set to 0 only when the credentials are not the connection's own. |
| ConfigProperties.GatewayCredentialValues | mRemoteNG/Connection/Protocol/RDP/RdpProtocol6.cs:382-400 | Each gateway credential field ends as the Yes logon, the No logon or, under SmartCard, sharing 0 and nothing else. Below RDC61 or with NoCredentials nothing is written. |
| ConfigProperties.RunLastWins | mRemoteNG/Connection/Protocol/RDP/RdpProtocol6.cs:284-325 | When a step writes a property that no later step may write, the pass leaves the property as that step did. |
| ConfigProperties.RunLastWinsPast | mRemoteNG/Connection/Protocol/RDP/RdpProtocol6.cs:284-325 | The same holds when one later step that may write the property writes nothing. |
| ConfigProperties.RunKeepsUntouched | mRemoteNG/Connection/Protocol/RDP/RdpProtocol6.cs:284-325 | When the only step that may write a property writes nothing, the pass leaves the property as the record had it. |
| ConfigProperties.FixedZeroesAuthenticationLevel | mRemoteNG/Connection/Protocol/RDP/RdpProtocol6.cs:293-309 | The fixed block sets AuthenticationLevel to 0. |
| ConfigProperties.AuthenticationLevelZeroedFirst | mRemoteNG/Connection/Protocol/RDP/RdpProtocol6.cs:300 | AuthenticationLevel is 0 when the authentication setter starts. |
| ConfigProperties.AuthenticationLevelLaterWins | mRemoteNG/Connection/Protocol/RDP/RdpProtocol6.cs:874-884 | When the authentication setter's write is accepted, the profile's level wins over the earlier 0. |
| ConfigProperties.AuthenticationRefusalContained | mRemoteNG/Connection/Protocol/RDP/RdpProtocol6.cs:300 | When the authentication setter's write is refused, the pass leaves the 0 of the fixed block. That refusal never changes whether the pass completes. |
| ConfigProperties.PortSurvivesOtherFailures | mRemoteNG/Connection/Protocol/RDP/RdpProtocol6.cs:805-818 | The port lands whenever its own write is accepted, whatever the other groups suffer. |
| ConfigProperties.ViewOnlyApplied | mRemoteNG/Connection/Protocol/RDP/RdpProtocol6.cs:318 | After a pass, Enabled is the negation of the ViewOnly force flag. |
| ConfigProperties.UnguardedAccepts | mRemoteNG/Connection/Protocol/RDP/RdpProtocol6.cs:284-325 | The unguarded writes are all accepted exactly when the host name, the title, the fixed block, Enabled, the colour depth and the connecting text all are. |
| ConfigProperties.RedirectKeysValue | mRemoteNG/Connection/Protocol/RDP/RdpProtocol6.cs:60-87 | The key-redirection setter writes hook mode 1 exactly when keys are redirected. |
| ConfigProperties.RedirectKeysApplied | mRemoteNG/Connection/Protocol/RDP/RdpProtocol6.cs:313 | After a pass the hook mode is 1 when keys are redirected and that write is accepted. Without redirection the pass leaves the hook mode as it was. |
| ConfigProperties.LoadBalanceValue | mRemoteNG/Connection/Protocol/RDP/RdpProtocol6.cs:886-903 | An empty token writes nothing. Otherwise the token is written, re-encoded exactly when the UTF-8 option is set. |
| ConfigProperties.LoadBalanceApplied | mRemoteNG/Connection/Protocol/RDP/RdpProtocol6.cs:886-903 | After a pass a non-empty token is on the control when its write is accepted. An empty token leaves the property as it was. |
| Lifecycle.DisconnectEventIffAbnormal | mRemoteNG/Connection/Protocol/RDP/RdpProtocol6.cs:943-951 | A disconnect notification is raised exactly when the reason is not 0xB08. |
| Lifecycle.DisconnectArmsOrCloses | mRemoteNG/Connection/Protocol/RDP/RdpProtocol6.cs:953-966 | A disconnect does exactly one of two things. With reconnect-on-disconnect it arms the timer with a fresh panel. Otherwise it closes. |
| Lifecycle.TickRecordsProbe | mRemoteNG/Connection/Protocol/RDP/RdpProtocol6.cs:1035-1041 | Every tick with a panel records the probe result on it. |
| Lifecycle.TickReconnectsIffReady | mRemoteNG/Connection/Protocol/RDP/RdpProtocol6.cs:1035-1052 | A tick disarms the timer and calls connect exactly when a panel exists, reconnect-when-ready is chosen and the probe succeeded. |
| Lifecycle.TicksWaitForServer | mRemoteNG/Connection/Protocol/RDP/RdpProtocol6.cs:1035-1052 | Ticks whose probes all fail never connect and leave the timer as it was. |
| Lifecycle.ReconnectsAtFirstReadyProbe | mRemoteNG/Connection/Protocol/RDP/RdpProtocol6.cs:1035-1052 | From an armed panel with reconnect-when-ready, any number of failed probes followed by a successful one connects exactly once, disarms the timer and disposes the panel. |
| Lifecycle.TicksSplit | mRemoteNG/Connection/Protocol/RDP/RdpProtocol6.cs:1035-1052 | Ticks over a concatenation of probe runs are the ticks of one run after the other. |
| Lifecycle.TicksKeepPanel | mRemoteNG/Connection/Protocol/RDP/RdpProtocol6.cs:1035-1052 | A panel present before some ticks is present after them. |
| Lifecycle.IdleTimeoutClosesThenAlerts | mRemoteNG/Connection/Protocol/RDP/RdpProtocol6.cs:927-933 | An idle timeout always closes, and alerts exactly when the profile asked for it. |
| Lifecycle.DisconnectFallsBackToClose | mRemoteNG/Connection/Protocol/RDP/RdpProtocol6.cs:192-203 | Disconnect closes instead exactly when the control is missing or its primitive throws. |
| Lifecycle.ConnectResetsLogin | mRemoteNG/Connection/Protocol/RDP/RdpProtocol6.cs:172-190 | Connect clears the login flag and subscribes the handlers once more whenever a control exists. |
| Lifecycle.ControlCallsKeepValid | mRemoteNG/Connection/Protocol/RDP/RdpProtocol6.cs:172-203 | Connect, Disconnect and Close keep the timer tied to a live panel. |
| Lifecycle.CallbacksKeepValid | mRemoteNG/Connection/Protocol/RDP/RdpProtocol6.cs:927-1052 | The callbacks and the timer tick keep the timer tied to a live panel. |
| Lifecycle.Connect | mRemoteNG/Connection/Protocol/RDP/RdpProtocol6.cs:172-190 | Connect clears the login flag. It calls the connect primitive once exactly when a control exists. The timer, the panel, the close count and the events are unchanged. |
| Lifecycle.Disconnect | mRemoteNG/Connection/Protocol/RDP/RdpProtocol6.cs:192-203 | Disconnect calls the control's primitive once exactly when a control exists, and closes once exactly when the control is missing or its primitive throws. The login flag, the timer, the panel, the two session flags, the connect and subscription counts and the events are unchanged. |
| Lifecycle.OnDisconnected | mRemoteNG/Connection/Protocol/RDP/RdpProtocol6.cs:943-967 | A disconnect adds at most one event, keeps the login flag and the connect count, and leaves a valid session when it reconnects. |
| Lifecycle.ReconnectTick | mRemoteNG/Connection/Protocol/RDP/RdpProtocol6.cs:1035-1057 | A tick keeps the panel present or absent, never arms the timer, calls connect at most once, and changes neither closes, events nor login. |
| Lifecycle.OnIdleTimeout | mRemoteNG/Connection/Protocol/RDP/RdpProtocol6.cs:927-934 | An idle timeout closes once, adds at most the idle alert, and leaves the timer, the panel and the connect count alone. |
| Protocol.RdpClient.Put | mRemoteNG/Connection/Protocol/RDP/RdpProtocol6.cs:48-58 | One property write lands exactly when that write is not refused. A refused write leaves the record unchanged. |
| Protocol.RdpClient.Issue | mRemoteNG/Connection/Protocol/RDP/RdpProtocol6.cs:820-835 | Writes in one try block land in order until the first refused one. The call succeeds exactly when all are accepted. |
| Protocol.RdpProtocol.constructor | mRemoteNG/Connection/Protocol/RDP/RdpProtocol6.cs:101-105 | A new session has no control and the initial session state. |
| Protocol.RdpProtocol.Initialize | mRemoteNG/Connection/Protocol/RDP/RdpProtocol6.cs:116-138 | Without a control, Initialize fails and changes nothing. Otherwise a fresh control is configured, and Initialize succeeds exactly when every unguarded write is accepted. The record is then the whole pass, and the two session flags are set. Whether or not it succeeds, no other session field changes. |
| Protocol.RdpProtocol.SetRdpClientProperties | mRemoteNG/Connection/Protocol/RDP/RdpProtocol6.cs:284-325 | The pass completes exactly when every unguarded write is accepted, and then leaves `ConfigLog` on the control. Only the idle-alert and key-redirection flags of the session change. |
| Protocol.RdpProtocol.SetTargetProperties | mRemoteNG/Connection/Protocol/RDP/RdpProtocol6.cs:286-290 | Steps 0 to 3 complete exactly when the host name and the title are accepted. |
| Protocol.RdpProtocol.SetLogonProperties | mRemoteNG/Connection/Protocol/RDP/RdpProtocol6.cs:288-289 | Steps 1 and 2, the credentials and the resolution, always run to the end. |
| Protocol.RdpProtocol.SetConnectionProperties | mRemoteNG/Connection/Protocol/RDP/RdpProtocol6.cs:311-317 | Steps 5 to 11 always run to the end and store the key-redirection flag. |
| Protocol.RdpProtocol.SetServerProperties | mRemoteNG/Connection/Protocol/RDP/RdpProtocol6.cs:315-317 | Steps 9 to 11 always run to the end. |
| Protocol.RdpProtocol.SetDisplayProperties | mRemoteNG/Connection/Protocol/RDP/RdpProtocol6.cs:318-324 | Steps 12 to 15 complete exactly when Enabled, the colour depth and the connecting text are accepted. |
| Protocol.RdpProtocol.SetFinalProperties | mRemoteNG/Connection/Protocol/RDP/RdpProtocol6.cs:322-324 | Steps 14 and 15 complete exactly when the connecting text is accepted. |
| Protocol.RdpProtocol.SetCredentials | mRemoteNG/Connection/Protocol/RDP/RdpProtocol6.cs:454-520 | The control receives the attempted credential group. A refused field abandons the rest. |
| Protocol.RdpProtocol.SetUserName | mRemoteNG/Connection/Protocol/RDP/RdpProtocol6.cs:463-476 | The user-name choice is written, and it succeeds exactly when accepted. |
| Protocol.RdpProtocol.SetPassword | mRemoteNG/Connection/Protocol/RDP/RdpProtocol6.cs:478-493 | The password choice is written, and it succeeds exactly when accepted. |
| Protocol.RdpProtocol.SetDomain | mRemoteNG/Connection/Protocol/RDP/RdpProtocol6.cs:495-509 | The domain choice is written. |
| Protocol.RdpProtocol.SetExtendedProperty | mRemoteNG/Connection/Protocol/RDP/RdpProtocol6.cs:342-354 | An extended property is written in its own try block. |
| Protocol.RdpProtocol.SetResolution | mRemoteNG/Connection/Protocol/RDP/RdpProtocol6.cs:759-803 | The control receives the two scale hints, each attempted alone, then the attempted size group. |
| Protocol.RdpProtocol.SetSize | mRemoteNG/Connection/Protocol/RDP/RdpProtocol6.cs:765-797 | The control receives the attempted size writes for the forced or profile mode. |
| Protocol.RdpProtocol.SetUseConsoleSession | mRemoteNG/Connection/Protocol/RDP/RdpProtocol6.cs:410-452 | The control receives the attempted console switch. |
| Protocol.RdpProtocol.SetPort | mRemoteNG/Connection/Protocol/RDP/RdpProtocol6.cs:805-818 | The control receives the attempted port write. |
| Protocol.RdpProtocol.SetRedirectKeys | mRemoteNG/Connection/Protocol/RDP/RdpProtocol6.cs:60-87 | The flag is stored on the session, and the hook mode is attempted when the flag is set. |
| Protocol.RdpProtocol.SetRedirection | mRemoteNG/Connection/Protocol/RDP/RdpProtocol6.cs:820-835 | The control receives the attempted redirection group. |
| Protocol.RdpProtocol.SetAuthenticationLevel | mRemoteNG/Connection/Protocol/RDP/RdpProtocol6.cs:874-884 | The control receives the attempted authentication level. |
| Protocol.RdpProtocol.SetLoadBalanceInfo | mRemoteNG/Connection/Protocol/RDP/RdpProtocol6.cs:886-903 | The control receives the attempted load-balance token. |
| Protocol.RdpProtocol.SetRdGateway | mRemoteNG/Connection/Protocol/RDP/RdpProtocol6.cs:356-408 | The control receives the attempted gateway group. A refused write abandons the rest. |
| Protocol.RdpProtocol.SetGatewayAuthentication | mRemoteNG/Connection/Protocol/RDP/RdpProtocol6.cs:375-399 | After the routing, the control receives the attempted smart-card source and gateway logon, in that order. |
| Protocol.RdpProtocol.SetGatewayCredentials | mRemoteNG/Connection/Protocol/RDP/RdpProtocol6.cs:382-400 | The control receives the attempted gateway credential branch. |
| Protocol.RdpProtocol.SetPerformanceFlags | mRemoteNG/Connection/Protocol/RDP/RdpProtocol6.cs:837-872 | The control receives the attempted performance word. |
| Protocol.RdpProtocol.PerformanceWord | mRemoteNG/Connection/Protocol/RDP/RdpProtocol6.cs:841-866 | The accumulated word equals `PerfWord`, the sum of the requested flags' values. |
| Protocol.RdpProtocol.Connect | mRemoteNG/Connection/Protocol/RDP/RdpProtocol6.cs:172-190 | The session follows `Lifecycle.Connect`. Connect succeeds exactly when a control exists and its primitive does not throw. |
| Protocol.RdpProtocol.Disconnect | mRemoteNG/Connection/Protocol/RDP/RdpProtocol6.cs:192-203 | The session follows `Lifecycle.Disconnect`. |
| Protocol.RdpProtocol.Close | mRemoteNG/Connection/Protocol/RDP/RdpProtocol6.cs:192-203 | Close is counted. |
| Protocol.RdpProtocol.ToggleFullscreen | mRemoteNG/Connection/Protocol/RDP/RdpProtocol6.cs:205-215 | The record becomes the toggle of FullScreen. Unless its write is refused, full screen is inverted. |
| Protocol.RdpProtocol.ToggleSmartSize | mRemoteNG/Connection/Protocol/RDP/RdpProtocol6.cs:217-227 | The record becomes the toggle of SmartSizing. Unless its write is refused, smart sizing is inverted. |
| Protocol.RdpProtocol.ToggleViewOnly | mRemoteNG/Connection/Protocol/RDP/RdpProtocol6.cs:229-243 | The record becomes the toggle of Enabled. Unless its write is refused, view-only is inverted. |
| Protocol.RdpProtocol.OnConnecting | mRemoteNG/Connection/Protocol/RDP/RdpProtocol6.cs:969-972 | A Connecting notification is raised. |
| Protocol.RdpProtocol.OnConnected | mRemoteNG/Connection/Protocol/RDP/RdpProtocol6.cs:974-977 | A Connected notification is raised. |
| Protocol.RdpProtocol.OnLoginComplete | mRemoteNG/Connection/Protocol/RDP/RdpProtocol6.cs:979-982 | Only the login flag changes, and it becomes true. |
| Protocol.RdpProtocol.OnFatalError | mRemoteNG/Connection/Protocol/RDP/RdpProtocol6.cs:937-941 | An error notification carrying the code is raised. |
| Protocol.RdpProtocol.OnDisconnected | mRemoteNG/Connection/Protocol/RDP/RdpProtocol6.cs:943-967 | The session follows `Lifecycle.OnDisconnected` with the reconnect-on-disconnect setting. |
| Protocol.RdpProtocol.OnLeaveFullscreen | mRemoteNG/Connection/Protocol/RDP/RdpProtocol6.cs:984-988 | FullScreen false is attempted. The owner is notified only when that write is accepted. |
| Protocol.RdpProtocol.OnIdleTimeout | mRemoteNG/Connection/Protocol/RDP/RdpProtocol6.cs:927-935 | The session follows `Lifecycle.OnIdleTimeout`. |
| Protocol.RdpProtocol.ReconnectTick | mRemoteNG/Connection/Protocol/RDP/RdpProtocol6.cs:1035-1055 | While the timer is armed, a tick follows `Lifecycle.ReconnectTick`. The control's record is not touched, so the configuration is not applied again. |

## Left out

- Creating the ActiveX control is left out: the COM activation, the wait loop until the control reports it was created, and `RdpVersionSupported`. `Initialize` takes whether creation succeeded as the input `available`.
- Parsing the control's version string is left out. The version is an input of `Initialize`.
- `DpiManager` is left out: the device-capability queries and the cached scale percentage. The percentage is the input `Host.scalePercent`.
- Calls into code outside this file are inputs in `Host`. These are `Environment.UserName` and `UserDomainName`, the screen and control bounds, the password decryption, the Azure load-balance encoder, `GatewayIsSupported` and the localised connecting text.
- The probe `PortScanner.IsPortOpen` is left out. Its result is the `probe` argument of `ReconnectTick`.
- Logging through `MessageCollector`, `MessageBox` and `Debug.Assert` are left out. The idle alert is recorded as an `IdleAlert` event.
- The message text that `GetErrorDescription` and `RdpErrorCodes` produce is left out. Events carry the numeric code only.
- The layout of the reconnect panel and its close button handler are left out, and so are `Focus`, `GotFocus` and `GetExtendedProperty`.
- The base class's `Initialize`, `Connect` and `Close` are not part of this model. Close is counted in `closeCount`. The connect primitive is counted in `connectCalls`. Connect's handler subscription is counted in `handlerSets`, without the delegate lists. The `LeaveFullscreen` event's add and remove accessors are left out too.
- Timer threading is left out: each tick is one atomic call.
- The numeric values of `RDPPerformanceFlags` are not in this file. `Config.FlagValue` assumes distinct positive one-bit values. Only the sum is proved; decoding individual bits is not.
- Config.FlagValue: states only that the values are positive, because the real constants are not available.
- Protocol.RdpProtocol.SetRdpClientProperties: when an unguarded write is refused, the contract states only that the pass fails. It does not describe the partial record left on the control.
- Protocol.RdpProtocol.Initialize: when the control exists but an unguarded write is refused, the contract states that Initialize fails and that only the two session flags may have changed. It does not describe the partial record left on the control.
- Protocol.RdpProtocol.OnLeaveFullscreen: requires a control, because the handler is subscribed only after Connect on a created control.
- The numeric values of `GatewayUsageMethod` are not in this file. `Profile.UsageCode` assumes Never = 0, Always = 1 and Detect = 2.
- A refusal is modelled per write, as a fixed set of (property, value) pairs. Two identical writes in one pass therefore always get the same answer. A control that rejects the same write on one call and accepts it on another is not modelled.
- Protocol.RdpProtocol.ReconnectTick: requires an armed timer, because the tick handler runs only while the timer is enabled.
- A property that throws on read is not modelled. Reads such as `Fullscreen` in the toggles always succeed. Only writes can be refused.

Notes on behaviour:

- A scaling percentage that is not 125, 150 or 175 and is below 200 gives 100 for both hints. For example, 160 % gives (100, 100).
- Only the setters have their own try blocks, so only their failures are contained. The writes that `SetRdpClientProperties` makes itself have no try block: the host name, the title, the fixed block, `ViewOnly`, the colour depth and the connecting text. When one of them throws, the rest of the pass is skipped and `Initialize` returns false (`Protocol.RdpProtocol.Initialize`).
- The performance word is built by integer `+=`. With distinct one-bit values this equals a bitwise OR. `ConfigProperties.PerfWordIsRequestedSum` proves the sum over the requested flags.
- The session's state is the login flag, the timer flag, the reconnect panel and the counters that `Lifecycle.Session` gathers.
