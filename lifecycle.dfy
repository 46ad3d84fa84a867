/**
 * The session lifecycle as transitions on a value: what connecting,
 * disconnecting, the control's callbacks and the reconnect timer do to the
 * session's flags, counters and the notifications it raises. The session
 * class applies these transitions to its fields.
 */
module Lifecycle {
  import opened Wrappers

  /** The control's reason code for a disconnect the user asked for. */
  const NormalDisconnect := 0xB08

  /** What the session reports to its owner. */
  datatype Event =
    | Connecting
    | Connected
    | Disconnected(reason: int)
    | ErrorOccurred(code: int)
    | LeftFullscreen
    | IdleAlert

  /** The overlay shown while the session waits to reconnect: the last probe
      result (None before the first tick) and whether it has been disposed. */
  datatype ReconnectPanel = ReconnectPanel(serverReady: Option<bool>, disposed: bool)

  /**
   * The session's own state: whether login completed, the reconnect timer
   * and panel, the two flags copied from the profile while configuring,
   * how often Close, the control's connect and disconnect primitives and the
   * handler subscription ran, and the notifications raised so far.
   */
  datatype Session = Session(
    loginComplete: bool,
    timerArmed: bool,
    reconnectGroup: Option<ReconnectPanel>,
    alertOnIdleDisconnect: bool,
    redirectKeys: bool,
    closeCount: nat,
    connectCalls: nat,
    disconnectCalls: nat,
    handlerSets: nat,
    events: seq<Event>)

  /** The reconnect timer runs only while a live reconnect panel is shown. */
  predicate Valid(s: Session)
  {
    s.timerArmed ==> s.reconnectGroup.Some? && !s.reconnectGroup.value.disposed
  }

  /** A session before anything has happened. */
  const Initial := Session(false, false, None, false, false, 0, 0, 0, 0, [])

  /** Close, from the base protocol: counted. */
  function Close(s: Session): Session
  {
    s.(closeCount := s.closeCount + 1)
  }

  /** Connect: login is reset, the handlers are subscribed again and the
      control's connect primitive is called, when there is a control. */
  function Connect(s: Session, created: bool): (t: Session)
    ensures !t.loginComplete
    ensures t.connectCalls == s.connectCalls + (if created then 1 else 0)
    ensures t.timerArmed == s.timerArmed && t.reconnectGroup == s.reconnectGroup
    ensures t.closeCount == s.closeCount && t.events == s.events
  {
    if created then
      s.(loginComplete := false, handlerSets := s.handlerSets + 1, connectCalls := s.connectCalls + 1)
    else
      s.(loginComplete := false)
  }

  /** Disconnect: the control's primitive is called; when there is no
      control or the call throws, the session is closed instead. */
  function Disconnect(s: Session, created: bool, throws: bool): (t: Session)
    ensures t.closeCount == s.closeCount + (if !created || throws then 1 else 0)
    ensures t.disconnectCalls == s.disconnectCalls + (if created then 1 else 0)
    ensures t.loginComplete == s.loginComplete && t.connectCalls == s.connectCalls && t.handlerSets == s.handlerSets
    ensures t.alertOnIdleDisconnect == s.alertOnIdleDisconnect && t.redirectKeys == s.redirectKeys
    ensures t.timerArmed == s.timerArmed && t.reconnectGroup == s.reconnectGroup && t.events == s.events
  {
    var s1 := if created then s.(disconnectCalls := s.disconnectCalls + 1) else s;
    if !created || throws then Close(s1) else s1
  }

  function Raise(s: Session, e: Event): Session
  {
    s.(events := s.events + [e])
  }

  /** The control reports that it dropped the connection. */
  function OnDisconnected(s: Session, reason: int, reconnectOnDisconnect: bool): (t: Session)
    ensures s.events <= t.events && |t.events| <= |s.events| + 1
    ensures reconnectOnDisconnect ==> Valid(t)
    ensures t.loginComplete == s.loginComplete && t.connectCalls == s.connectCalls
  {
    var s1 := if reason != NormalDisconnect then Raise(s, Disconnected(reason)) else s;
    if reconnectOnDisconnect then
      s1.(reconnectGroup := Some(ReconnectPanel(None, false)), timerArmed := true)
    else
      Close(s1)
  }

  /**
   * A tick of the reconnect timer with the reachability probe's result and
   * the panel's "reconnect when ready" choice. Without a panel the handler
   * fails on its first access and changes nothing.
   */
  function ReconnectTick(s: Session, probe: bool, whenReady: bool): (t: Session)
    ensures t.reconnectGroup.Some? == s.reconnectGroup.Some?
    ensures t.timerArmed ==> s.timerArmed
    ensures s.connectCalls <= t.connectCalls <= s.connectCalls + 1
    ensures t.closeCount == s.closeCount && t.events == s.events && t.loginComplete == s.loginComplete
  {
    if s.reconnectGroup.None? then s
    else
      var panel := s.reconnectGroup.value.(serverReady := Some(probe));
      if whenReady && probe then
        s.(reconnectGroup := Some(panel.(disposed := true)), timerArmed := false,
           connectCalls := s.connectCalls + 1)
      else
        s.(reconnectGroup := Some(panel))
  }

  /** The control reports the idle timeout: the session closes, then alerts
      when the profile asks for it. */
  function OnIdleTimeout(s: Session): (t: Session)
    ensures t.closeCount == s.closeCount + 1
    ensures t.events == s.events || t.events == s.events + [IdleAlert]
    ensures t.timerArmed == s.timerArmed && t.reconnectGroup == s.reconnectGroup && t.connectCalls == s.connectCalls
  {
    var s1 := Close(s);
    if s.alertOnIdleDisconnect then Raise(s1, IdleAlert) else s1
  }

  /** A run of timer ticks, one probe result each, with a fixed panel choice. */
  function Ticks(s: Session, probes: seq<bool>, whenReady: bool): Session
    decreases |probes|
  {
    if probes == [] then s else Ticks(ReconnectTick(s, probes[0], whenReady), probes[1..], whenReady)
  }

  // ---------------------------------------------------------------- properties

  /** A disconnect notification is raised exactly when the reason is not the
      normal one. */
  lemma DisconnectEventIffAbnormal(s: Session, reason: int, reconnect: bool)
    ensures var t := OnDisconnected(s, reason, reconnect);
      t.events == if reason != NormalDisconnect then s.events + [Disconnected(reason)] else s.events
  {
  }

  /** After a disconnect exactly one of two things happens: the reconnect
      timer is armed with a fresh panel, or the session is closed. */
  lemma DisconnectArmsOrCloses(s: Session, reason: int, reconnect: bool)
    ensures var t := OnDisconnected(s, reason, reconnect);
      if reconnect then
        t.timerArmed && t.reconnectGroup == Some(ReconnectPanel(None, false)) && t.closeCount == s.closeCount
      else
        t.closeCount == s.closeCount + 1 && t.timerArmed == s.timerArmed && t.reconnectGroup == s.reconnectGroup
  {
  }

  /** Every tick with a panel records the probe result on it. */
  lemma TickRecordsProbe(s: Session, probe: bool, whenReady: bool)
    requires s.reconnectGroup.Some?
    ensures ReconnectTick(s, probe, whenReady).reconnectGroup.Some?
    ensures ReconnectTick(s, probe, whenReady).reconnectGroup.value.serverReady == Some(probe)
  {
  }

  /** A tick disarms the timer and calls the control's connect primitive
      exactly when there is a panel, the user asked to reconnect when ready
      and the server answered; otherwise the timer and the counters stay. */
  lemma TickReconnectsIffReady(s: Session, probe: bool, whenReady: bool)
    ensures var t := ReconnectTick(s, probe, whenReady);
      var ready := s.reconnectGroup.Some? && whenReady && probe;
      t.connectCalls == (if ready then s.connectCalls + 1 else s.connectCalls)
      && t.timerArmed == (if ready then false else s.timerArmed)
      && t.closeCount == s.closeCount && t.events == s.events && t.loginComplete == s.loginComplete
  {
  }

  /** Ticks whose probes all fail leave the timer armed and never connect. */
  lemma {:induction false} TicksWaitForServer(s: Session, probes: seq<bool>, whenReady: bool)
    requires forall i :: 0 <= i < |probes| ==> !probes[i]
    ensures Ticks(s, probes, whenReady).timerArmed == s.timerArmed
    ensures Ticks(s, probes, whenReady).connectCalls == s.connectCalls
    decreases |probes|
  {
    if probes != [] {
      TicksWaitForServer(ReconnectTick(s, probes[0], whenReady), probes[1..], whenReady);
    }
  }

  /** From an armed panel, with reconnect-when-ready chosen: the first
      successful probe connects once and disarms the timer, after failed
      ones that did nothing. */
  lemma ReconnectsAtFirstReadyProbe(s: Session, failures: nat)
    requires Valid(s) && s.timerArmed
    ensures var probes := seq(failures, i => false) + [true];
      var t := Ticks(s, probes, true);
      t.connectCalls == s.connectCalls + 1 && !t.timerArmed
      && t.reconnectGroup.Some? && t.reconnectGroup.value.disposed
  {
    var probes := seq(failures, i => false) + [true];
    TicksSplit(s, seq(failures, i => false), [true], true);
    TicksWaitForServer(s, seq(failures, i => false), true);
    TicksKeepPanel(s, seq(failures, i => false), true);
  }

  /** Ticks over a concatenation run one part after the other. */
  lemma {:induction false} TicksSplit(s: Session, a: seq<bool>, b: seq<bool>, whenReady: bool)
    ensures Ticks(s, a + b, whenReady) == Ticks(Ticks(s, a, whenReady), b, whenReady)
    decreases |a|
  {
    if a == [] {
      assert a + b == b;
    } else {
      assert (a + b)[0] == a[0];
      assert (a + b)[1..] == a[1..] + b;
      TicksSplit(ReconnectTick(s, a[0], whenReady), a[1..], b, whenReady);
    }
  }

  /** A panel present before some ticks is present after them. */
  lemma {:induction false} TicksKeepPanel(s: Session, probes: seq<bool>, whenReady: bool)
    requires s.reconnectGroup.Some?
    ensures Ticks(s, probes, whenReady).reconnectGroup.Some?
    decreases |probes|
  {
    if probes != [] {
      TicksKeepPanel(ReconnectTick(s, probes[0], whenReady), probes[1..], whenReady);
    }
  }

  /** An idle timeout always closes, and alerts exactly when the profile
      asks for it. */
  lemma IdleTimeoutClosesThenAlerts(s: Session)
    ensures OnIdleTimeout(s).closeCount == s.closeCount + 1
    ensures OnIdleTimeout(s).events == if s.alertOnIdleDisconnect then s.events + [IdleAlert] else s.events
  {
  }

  /** Disconnect falls back to Close exactly when the control's primitive
      cannot run or throws. */
  lemma DisconnectFallsBackToClose(s: Session, created: bool, throws: bool)
    ensures Disconnect(s, created, throws).closeCount == if !created || throws then s.closeCount + 1 else s.closeCount
    ensures Disconnect(s, created, throws).disconnectCalls == if created then s.disconnectCalls + 1 else s.disconnectCalls
  {
  }

  /** Connect resets the login flag, and every Connect with a control
      subscribes the control's handlers once more. */
  lemma ConnectResetsLogin(s: Session, created: bool)
    ensures !Connect(s, created).loginComplete
    ensures Connect(s, created).handlerSets == if created then s.handlerSets + 1 else s.handlerSets
  {
  }

  /** Connecting, disconnecting and closing keep the timer tied to a live panel. */
  lemma ControlCallsKeepValid(s: Session, created: bool, throws: bool)
    requires Valid(s)
    ensures Valid(Connect(s, created)) && Valid(Disconnect(s, created, throws)) && Valid(Close(s))
  {
  }

  /** The control's callbacks and the timer keep the timer tied to a live panel. */
  lemma CallbacksKeepValid(s: Session, reason: int, reconnect: bool, probe: bool, whenReady: bool, e: Event)
    requires Valid(s)
    ensures Valid(OnDisconnected(s, reason, reconnect)) && Valid(ReconnectTick(s, probe, whenReady))
    ensures Valid(OnIdleTimeout(s)) && Valid(Raise(s, e))
  {
  }
}
