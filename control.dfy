/**
 * The vendor remote-desktop control, seen from outside as a record of the
 * property writes it has received. The value a property holds is the last
 * value written to it; a property never written keeps the control's own
 * default. A write the control rejects throws. Which writes it rejects is
 * given as a set of refused writes: the answer depends on the property and
 * the value written, and the same write always gets the same answer.
 */
module RdpControl {
  import opened Wrappers

  /** The control properties this model writes (client, advanced, secured,
      transport settings, the two extended scale properties, and the
      hosting ActiveX surface's Enabled flag). */
  datatype Prop =
    | Server | UserName | Domain | ClearTextPassword
    | FullScreen | DesktopWidth | DesktopHeight | SmartSizing
    | DesktopScaleFactor | DeviceScaleFactor
    | FullScreenTitle | MinutesToIdleTimeout | GrabFocusOnConnect
    | EnableAutoReconnect | MaxReconnectAttempts | KeepAliveInterval
    | AuthenticationLevel | EncryptionEnabled | OverallConnectionTimeout
    | BitmapPersistence | EnableCredSspSupport | ConnectToAdministerServer
    | RdpPort | KeyboardHookMode
    | RedirectDrives | RedirectPorts | RedirectPrinters | RedirectSmartCards
    | AudioRedirectionMode | RedirectClipboard | LoadBalanceInfo
    | GatewayUsageMethod | GatewayHostname | GatewayProfileUsageMethod
    | GatewayCredsSource | GatewayUsername | GatewayPassword | GatewayDomain
    | GatewayCredSharing
    | Enabled | ColorDepth | PerformanceFlags | ConnectingText

  datatype Value = Flag(b: bool) | Num(n: int) | Text(s: string)

  datatype Write = Write(prop: Prop, value: Value)

  /** The value `p` holds after the writes `ws`: the last one written to it. */
  function Current(ws: seq<Write>, p: Prop): Option<Value>
  {
    LastWrite(ws, p, |ws|)
  }

  /** The value `p` holds after the first `n` writes of `ws`. */
  function LastWrite(ws: seq<Write>, p: Prop, n: nat): Option<Value>
    requires n <= |ws|
  {
    if n == 0 then None
    else if ws[n - 1].prop == p then Some(ws[n - 1].value)
    else LastWrite(ws, p, n - 1)
  }

  /** Whether some write in `ws` targets `p`. */
  predicate Touches(ws: seq<Write>, p: Prop)
  {
    Current(ws, p).Some?
  }

  /** Every write of `ws` targets one of `ps`: nothing else is written. */
  predicate WritesOnly(ws: seq<Write>, ps: set<Prop>)
  {
    forall i :: 0 <= i < |ws| ==> ws[i].prop in ps
  }

  lemma {:induction false} LastWriteIff(ws: seq<Write>, p: Prop, n: nat)
    requires n <= |ws|
    ensures LastWrite(ws, p, n).Some? <==> exists i :: 0 <= i < n && ws[i].prop == p
  {
    if n > 0 {
      if ws[n - 1].prop == p {
        assert ws[n - 1].prop == p;
      } else {
        LastWriteIff(ws, p, n - 1);
      }
    }
  }

  /** A property is touched exactly when some write targets it. */
  lemma TouchesIff(ws: seq<Write>, p: Prop)
    ensures Touches(ws, p) <==> exists i :: 0 <= i < |ws| && ws[i].prop == p
  {
    LastWriteIff(ws, p, |ws|);
  }

  lemma {:induction false} LastWriteIsLast(ws: seq<Write>, p: Prop, n: nat)
    requires n <= |ws| && LastWrite(ws, p, n).Some?
    ensures exists i :: 0 <= i < n && ws[i] == Write(p, LastWrite(ws, p, n).value)
                        && forall j :: i < j < n ==> ws[j].prop != p
  {
    if ws[n - 1].prop == p {
      assert ws[n - 1] == Write(p, LastWrite(ws, p, n).value);
    } else {
      LastWriteIsLast(ws, p, n - 1);
    }
  }

  /** A touched property holds the value of the last write that targets it. */
  lemma CurrentIsLastWrite(ws: seq<Write>, p: Prop)
    requires Touches(ws, p)
    ensures exists i :: 0 <= i < |ws| && ws[i] == Write(p, Current(ws, p).value)
                        && forall j :: i < j < |ws| ==> ws[j].prop != p
  {
    LastWriteIsLast(ws, p, |ws|);
  }

  lemma {:induction false} LastWriteUnique(ws: seq<Write>, i: int, p: Prop, n: nat)
    requires 0 <= i < n <= |ws| && ws[i].prop == p
    requires forall j :: i < j < n ==> ws[j].prop != p
    ensures LastWrite(ws, p, n) == Some(ws[i].value)
  {
    if i < n - 1 {
      LastWriteUnique(ws, i, p, n - 1);
    }
  }

  /** The converse: the last write to `p` decides its value. */
  lemma CurrentUnique(ws: seq<Write>, i: int, p: Prop)
    requires 0 <= i < |ws| && ws[i].prop == p
    requires forall j :: i < j < |ws| ==> ws[j].prop != p
    ensures Current(ws, p) == Some(ws[i].value)
  {
    LastWriteUnique(ws, i, p, |ws|);
  }

  /** A property no write targets keeps the control's default. */
  lemma CurrentAbsent(ws: seq<Write>, p: Prop)
    requires forall i :: 0 <= i < |ws| ==> ws[i].prop != p
    ensures Current(ws, p) == None
  {
    TouchesIff(ws, p);
  }

  /** A write list confined to `ps` never touches a property outside `ps`. */
  lemma NotTouched(ws: seq<Write>, ps: set<Prop>, p: Prop)
    requires WritesOnly(ws, ps) && p !in ps
    ensures !Touches(ws, p)
  {
    TouchesIff(ws, p);
  }

  /** A boolean property's value, or the control's default when never written. */
  function FlagOr(ws: seq<Write>, p: Prop, default: bool): bool
  {
    match Current(ws, p)
    case Some(Flag(b)) => b
    case _ => default
  }

  /**
   * The writes of a group that runs inside one try block: they reach the
   * control in order until the first one the control refuses, which throws
   * and abandons the rest of the group.
   */
  function Attempt(ws: seq<Write>, refused: set<Write>): (r: seq<Write>)
    ensures |r| <= |ws|
    ensures |r| < |ws| ==> ws[|r|] in refused
  {
    if ws == [] then []
    else if ws[0] in refused then []
    else [ws[0]] + Attempt(ws[1..], refused)
  }

  /** At most one write: it alone decides its property. */
  lemma CurrentSingle(ws: seq<Write>, p: Prop)
    requires |ws| <= 1
    ensures Current(ws, p) == if ws != [] && ws[0].prop == p then Some(ws[0].value) else None
  {
    if ws != [] {
      assert LastWrite(ws, p, 0) == None;
    }
  }

  /** Writes appended later do not change what the earlier ones left. */
  lemma {:induction false} LastWritePrefix(a: seq<Write>, b: seq<Write>, p: Prop, n: nat)
    requires n <= |a|
    ensures LastWrite(a + b, p, n) == LastWrite(a, p, n)
  {
    if n > 0 {
      assert (a + b)[n - 1] == a[n - 1];
      LastWritePrefix(a, b, p, n - 1);
    }
  }

  /** Appending one write: it decides its own property and leaves the others. */
  lemma CurrentSnoc(ws: seq<Write>, w: Write, p: Prop)
    ensures Current(ws + [w], p) == if w.prop == p then Some(w.value) else Current(ws, p)
  {
    LastWritePrefix(ws, [w], p, |ws|);
    assert (ws + [w])[|ws|] == w;
  }

  lemma {:induction false} LastWriteAppend(a: seq<Write>, b: seq<Write>, p: Prop, n: nat)
    requires n <= |b|
    ensures LastWrite(a + b, p, |a| + n) ==
              if LastWrite(b, p, n).Some? then LastWrite(b, p, n) else LastWrite(a, p, |a|)
  {
    if n == 0 {
      LastWritePrefix(a, b, p, |a|);
    } else {
      assert (a + b)[|a| + n - 1] == b[n - 1];
      LastWriteAppend(a, b, p, n - 1);
    }
  }

  /** Writes appended later decide a property's value only if they touch it. */
  lemma CurrentAppend(a: seq<Write>, b: seq<Write>, p: Prop)
    ensures Current(a + b, p) == if Touches(b, p) then Current(b, p) else Current(a, p)
  {
    LastWriteAppend(a, b, p, |b|);
  }

  /** An attempted group is the longest prefix of the group the control
      accepts: what lands is a prefix, none of it refused, and when it stops
      short the next write was refused. */
  lemma {:induction false} AttemptIsLongestAcceptedPrefix(ws: seq<Write>, refused: set<Write>)
    ensures Attempt(ws, refused) <= ws
    ensures forall i :: 0 <= i < |Attempt(ws, refused)| ==> Attempt(ws, refused)[i] !in refused
    ensures |Attempt(ws, refused)| < |ws| ==> ws[|Attempt(ws, refused)|] in refused
  {
    if ws != [] && ws[0] !in refused {
      AttemptIsLongestAcceptedPrefix(ws[1..], refused);
    }
  }

  /** An attempted group writes a prefix of the group, hence nothing outside it. */
  lemma AttemptWritesOnly(ws: seq<Write>, ps: set<Prop>, refused: set<Write>)
    requires WritesOnly(ws, ps)
    ensures WritesOnly(Attempt(ws, refused), ps)
  {
    var r := Attempt(ws, refused);
    AttemptIsLongestAcceptedPrefix(ws, refused);
    forall i | 0 <= i < |r| ensures r[i].prop in ps {
      assert r[i] == ws[i];
    }
  }

  /** No write of `ws` is refused by the control. */
  predicate Accepts(ws: seq<Write>, refused: set<Write>)
  {
    forall i :: 0 <= i < |ws| ==> ws[i] !in refused
  }

  /** A group none of whose writes is refused is written in full. */
  lemma AttemptAccepted(ws: seq<Write>, refused: set<Write>)
    requires Accepts(ws, refused)
    ensures Attempt(ws, refused) == ws
  {
    AttemptIsLongestAcceptedPrefix(ws, refused);
  }

  /** A group issued in two parts: the second part is reached only when the
      control accepts the whole of the first. */
  lemma {:induction false} AttemptConcat(a: seq<Write>, b: seq<Write>, refused: set<Write>)
    ensures Attempt(a + b, refused) == if Accepts(a, refused) then a + Attempt(b, refused) else Attempt(a, refused)
  {
    if a == [] {
      assert a + b == b;
    } else {
      assert (a + b)[0] == a[0];
      assert (a + b)[1..] == a[1..] + b;
      AttemptConcat(a[1..], b, refused);
      assert Accepts(a, refused) <==> a[0] !in refused && Accepts(a[1..], refused) by {
        if a[0] !in refused && Accepts(a[1..], refused) {
          forall i | 0 <= i < |a| ensures a[i] !in refused {
            if i > 0 { assert a[i] == a[1..][i - 1]; }
          }
        }
      }
    }
  }

  /** A single guarded write lands exactly when it is not refused. */
  lemma AttemptOne(w: Write, refused: set<Write>)
    ensures Attempt([w], refused) == if w in refused then [] else [w]
  {
    assert [w][1..] == [];
  }

  /** Writes confined to other properties leave `p` as it was. */
  lemma CurrentSkips(a: seq<Write>, b: seq<Write>, ps: set<Prop>, p: Prop)
    requires WritesOnly(b, ps) && p !in ps
    ensures Current(a + b, p) == Current(a, p)
  {
    NotTouched(b, ps, p);
    CurrentAppend(a, b, p);
  }

  /** An attempted group confined to `ps` leaves every other property as it was. */
  lemma AttemptSkips(log: seq<Write>, ws: seq<Write>, ps: set<Prop>, refused: set<Write>, p: Prop)
    requires WritesOnly(ws, ps) && p !in ps
    ensures Current(log + Attempt(ws, refused), p) == Current(log, p)
  {
    AttemptWritesOnly(ws, ps, refused);
    CurrentSkips(log, Attempt(ws, refused), ps, p);
  }

  /** After writes confined to other properties, `p` ends as `b` leaves it. */
  lemma CurrentAfter(a: seq<Write>, b: seq<Write>, ps: set<Prop>, p: Prop)
    requires WritesOnly(a, ps) && p !in ps
    ensures Current(a + b, p) == Current(b, p)
  {
    NotTouched(a, ps, p);
    CurrentAppend(a, b, p);
  }

  lemma WritesOnlyAppend(a: seq<Write>, b: seq<Write>, ps: set<Prop>)
    requires WritesOnly(a, ps) && WritesOnly(b, ps)
    ensures WritesOnly(a + b, ps)
  {
    forall i | 0 <= i < |a + b| ensures (a + b)[i].prop in ps {
      if i >= |a| { assert (a + b)[i] == b[i - |a|]; }
    }
  }

  /** The record after the first `n` blocks of a sequence of write blocks,
      numbered from 0, have been issued after `log`. */
  function Replay(log: seq<Write>, block: nat -> seq<Write>, n: nat): seq<Write>
  {
    if n == 0 then log else Replay(log, block, n - 1) + block(n - 1)
  }

  /** Replaying blocks only appends to the record. */
  lemma {:induction false} ReplayExtends(log: seq<Write>, block: nat -> seq<Write>, n: nat)
    ensures log <= Replay(log, block, n)
  {
    if n > 0 {
      ReplayExtends(log, block, n - 1);
    }
  }

  /** Blocks that do not touch `p` leave its current value as it was. */
  lemma {:induction false} ReplayKeeps(log: seq<Write>, block: nat -> seq<Write>, m: nat, n: nat, p: Prop)
    requires m <= n
    requires forall j :: m <= j < n ==> !Touches(block(j), p)
    ensures Current(Replay(log, block, n), p) == Current(Replay(log, block, m), p)
  {
    if m < n {
      ReplayKeeps(log, block, m, n - 1, p);
      CurrentAppend(Replay(log, block, n - 1), block(n - 1), p);
    }
  }

  /** When block `k` touches `p` and no later block up to `n` does, `p` ends
      as block `k` left it, whatever the other blocks did. */
  lemma ReplayLastWins(log: seq<Write>, block: nat -> seq<Write>, k: nat, n: nat, p: Prop)
    requires k < n && Touches(block(k), p)
    requires forall j :: k < j < n ==> !Touches(block(j), p)
    ensures Current(Replay(log, block, n), p) == Current(block(k), p)
  {
    ReplayKeeps(log, block, k + 1, n, p);
    CurrentAppend(Replay(log, block, k), block(k), p);
  }

  /** A group is accepted exactly when both of its parts are. */
  lemma AcceptsConcat(a: seq<Write>, b: seq<Write>, refused: set<Write>)
    ensures Accepts(a + b, refused) <==> Accepts(a, refused) && Accepts(b, refused)
  {
    if Accepts(a + b, refused) {
      forall i | 0 <= i < |a| ensures a[i] !in refused {
        assert a[i] == (a + b)[i];
      }
      forall i | 0 <= i < |b| ensures b[i] !in refused {
        assert b[i] == (a + b)[|a| + i];
      }
    }
    if Accepts(a, refused) && Accepts(b, refused) {
      forall i | 0 <= i < |a + b| ensures (a + b)[i] !in refused {
        if i >= |a| { assert (a + b)[i] == b[i - |a|]; }
      }
    }
  }

  /** The write that inverts the boolean property `p`, read with default `d`
      when never written: once it lands, the flag reads as the negation. */
  function ToggleWrite(ws: seq<Write>, p: Prop, d: bool): (w: Write)
    ensures w.prop == p && FlagOr(ws + [w], p, d) == !FlagOr(ws, p, d)
  {
    CurrentSnoc(ws, Write(p, Flag(!FlagOr(ws, p, d))), p);
    Write(p, Flag(!FlagOr(ws, p, d)))
  }

  /** A boolean property inverted in place, unless the control refuses the write. */
  function Toggle(ws: seq<Write>, p: Prop, d: bool, refused: set<Write>): (r: seq<Write>)
    ensures ws <= r && |r| <= |ws| + 1
  {
    ws + Attempt([ToggleWrite(ws, p, d)], refused)
  }

  /** A toggle inverts the property, or leaves everything as it was when refused. */
  lemma ToggleInverts(ws: seq<Write>, p: Prop, d: bool, refused: set<Write>)
    ensures ToggleWrite(ws, p, d) in refused ==> Toggle(ws, p, d, refused) == ws
    ensures ToggleWrite(ws, p, d) !in refused ==> FlagOr(Toggle(ws, p, d, refused), p, d) == !FlagOr(ws, p, d)
  {
    var w := ToggleWrite(ws, p, d);
    AttemptOne(w, refused);
    if w in refused {
      assert ws + [] == ws;
    } else {
      CurrentSnoc(ws, w, p);
    }
  }

  /** Toggling twice restores the property's value, unless only the second
      write, the one that would restore it, is refused. */
  lemma ToggleTwiceRestores(ws: seq<Write>, p: Prop, d: bool, refused: set<Write>)
    requires ToggleWrite(ws, p, d) in refused || Write(p, Flag(FlagOr(ws, p, d))) !in refused
    ensures FlagOr(Toggle(Toggle(ws, p, d, refused), p, d, refused), p, d) == FlagOr(ws, p, d)
  {
    ToggleInverts(ws, p, d, refused);
    ToggleInverts(Toggle(ws, p, d, refused), p, d, refused);
  }

  /** A toggle changes no other property. */
  lemma ToggleKeepsOthers(ws: seq<Write>, p: Prop, d: bool, refused: set<Write>, q: Prop)
    requires q != p
    ensures Current(Toggle(ws, p, d, refused), q) == Current(ws, q)
  {
    var w := ToggleWrite(ws, p, d);
    AttemptOne(w, refused);
    if w in refused {
      assert ws + [] == ws;
    } else {
      CurrentSnoc(ws, w, q);
    }
  }

  /** Issuing the first part of a group: when it is all accepted the record
      continues with the rest of the group, otherwise the group ends there. */
  lemma AttemptStep(log: seq<Write>, a: seq<Write>, b: seq<Write>, refused: set<Write>)
    ensures Accepts(a, refused) ==> log + Attempt(a + b, refused) == (log + a) + Attempt(b, refused)
    ensures !Accepts(a, refused) ==> log + Attempt(a + b, refused) == log + Attempt(a, refused)
  {
    AttemptConcat(a, b, refused);
    assert log + (a + Attempt(b, refused)) == (log + a) + Attempt(b, refused);
  }
}
