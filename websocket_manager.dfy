/**
 * The reconnecting socket wrapper of src/shared/api/websocket-manager.ts.
 *
 * The manager's fields are collected in `State`; every public call, socket
 * callback and timer firing is a step function returning the next state and
 * the calls the manager makes into its environment (status callback, socket,
 * timers), in order. The class `WebSocketManager` updates its fields one
 * statement at a time and is proved to follow the step functions.
 */
module SocketManager {
  import opened Wrappers
  import opened Config
  import opened Seqs

  /** The values passed to `onStatusChange`. */
  datatype ConnectionStatus = Connecting | Connected | Disconnected | Error

  /**
   * The two machines this module describes: the source as written, and the
   * source with `attemptReconnect` and `connect` corrected (see
   * AttemptReconnectStep and ConnectStep).
   */
  datatype Version = AsWritten | Corrected

  /** The manager's fields, with the socket and the timers reduced to what the manager observes. */
  datatype State = State(
    reconnect: bool,           // options.reconnect ?? true
    hasSocket: bool,           // ws !== null
    socketOpen: bool,          // ws?.readyState === WebSocket.OPEN
    socketConnecting: bool,    // ws?.readyState === WebSocket.CONNECTING
    reconnectAttempts: nat,
    isManualClose: bool,
    pingTimer: bool,           // pingTimer !== null
    reconnectTimer: bool,      // reconnectTimer !== null
    reconnectPending: bool,    // the timeout that reconnectTimer refers to has not run yet
    orphanedReconnects: nat,   // timeouts still to run whose handle was overwritten
    straySockets: nat)         // sockets replaced while still connecting, never closed

  /** A call the manager makes into its environment. */
  datatype Effect =
    | StatusChange(status: ConnectionStatus)   // onStatusChange?.(status)
    | OpenSocket                                // new WebSocket(url) returned
    | CloseSocket                               // ws.close()
    | ScheduleReconnect(delay: nat)             // setTimeout(() => this.connect(), delay)
    | CancelReconnect                           // clearTimeout(reconnectTimer)
    | StartPingTimer(interval: nat)             // setInterval(ping, interval)
    | StopPingTimer                             // clearInterval(pingTimer)
    | SendFrame(frame: string)                  // ws.send(frame)

  /** The state after one call, and what the call did, in order. */
  datatype Step = Step(next: State, effects: seq<Effect>)

  /** `JSON.stringify({ type: 'ping' })`. */
  const PingFrame: string := "{\"type\":\"ping\"}"

  function Pow2(n: nat): (r: nat)
    ensures r >= 1
  {
    if n == 0 then 1 else 2 * Pow2(n - 1)
  }

  /** `RECONNECT_INTERVAL * Math.pow(2, attempts)`. */
  function Backoff(attempts: nat): nat {
    ReconnectInterval * Pow2(attempts)
  }

  lemma {:induction false} Pow2Monotone(a: nat, b: nat)
    requires a <= b
    ensures Pow2(a) <= Pow2(b)
    decreases b
  {
    if a < b {
      Pow2Monotone(a, b - 1);
    }
  }

  /** The delays of the ten reconnects double each time, from 3 s up to 1536 s. */
  lemma BackoffRange(attempts: nat)
    requires attempts < MaxReconnectAttempts
    ensures 3000 <= Backoff(attempts) <= 1536000
    ensures Backoff(attempts + 1) == 2 * Backoff(attempts)
  {
    Pow2Monotone(attempts, 9);
    assert Pow2(9) == 512;
  }

  /** A manager just constructed: no socket, no timers, nothing counted. */
  function Initial(reconnect: bool): State {
    State(reconnect, false, false, false, 0, false, false, false, false, 0, 0)
  }

  /** The invariant every reachable state keeps, in both versions. */
  ghost predicate Inv(s: State) {
    && s.reconnectAttempts <= MaxReconnectAttempts
    && (s.socketOpen ==> s.hasSocket)
    && (s.socketConnecting ==> s.hasSocket && !s.socketOpen)
    && (s.reconnectPending ==> s.reconnectTimer)
  }

  /** Nothing the manager has lost track of: no orphaned timeout, no stray socket. */
  ghost predicate Tidy(s: State) {
    s.orphanedReconnects == 0 && s.straySockets == 0
  }

  /** `stopPing`. */
  function StopPingStep(s: State): (r: Step)
    ensures !r.next.pingTimer
    ensures r.next == s.(pingTimer := false)
    ensures r.effects == if s.pingTimer then [StopPingTimer] else []
  {
    if s.pingTimer then Step(s.(pingTimer := false), [StopPingTimer]) else Step(s, [])
  }

  /** `clearReconnectTimer`: cancels the timeout the handle refers to, if any. */
  function ClearReconnectTimerStep(s: State): (r: Step)
    ensures !r.next.reconnectTimer && !r.next.reconnectPending
    ensures r.next == s.(reconnectTimer := false, reconnectPending := false)
    ensures r.effects == if s.reconnectTimer then [CancelReconnect] else []
  {
    if s.reconnectTimer then
      Step(s.(reconnectTimer := false, reconnectPending := false), [CancelReconnect])
    else
      Step(s.(reconnectPending := false), [])
  }

  /**
   * `attemptReconnect` as written: below the cap, schedule a reconnect after
   * the backoff delay and count the attempt. The new handle overwrites the old
   * one without clearing it, so a timeout still pending becomes unreachable.
   */
  function AttemptReconnectAsWritten(s: State): (r: Step)
    ensures s.reconnectAttempts >= MaxReconnectAttempts ==> r == Step(s, [])
    ensures s.reconnectAttempts < MaxReconnectAttempts ==>
      && r.effects == [ScheduleReconnect(Backoff(s.reconnectAttempts))]
      && r.next.reconnectAttempts == s.reconnectAttempts + 1
      && r.next.orphanedReconnects == s.orphanedReconnects + (if s.reconnectPending then 1 else 0)
  {
    if s.reconnectAttempts >= MaxReconnectAttempts then Step(s, [])
    else
      Step(s.(reconnectAttempts := s.reconnectAttempts + 1,
              reconnectTimer := true,
              reconnectPending := true,
              orphanedReconnects := s.orphanedReconnects + (if s.reconnectPending then 1 else 0)),
           [ScheduleReconnect(Backoff(s.reconnectAttempts))])
  }

  /**
   * `attemptReconnect`, corrected to clear the previous timeout before it
   * schedules a new one, so that at most one reconnect is ever pending.
   */
  function AttemptReconnectStep(s: State): (r: Step)
    ensures s.reconnectAttempts >= MaxReconnectAttempts ==> r == Step(s, [])
    ensures s.reconnectAttempts < MaxReconnectAttempts ==>
      && r.effects == (if s.reconnectTimer then [CancelReconnect] else []) +
                      [ScheduleReconnect(Backoff(s.reconnectAttempts))]
      && r.next.reconnectAttempts == s.reconnectAttempts + 1
      && r.next.reconnectTimer && r.next.reconnectPending
      && r.next.orphanedReconnects == s.orphanedReconnects
  {
    if s.reconnectAttempts >= MaxReconnectAttempts then Step(s, [])
    else
      var c := ClearReconnectTimerStep(s);
      Step(c.next.(reconnectAttempts := s.reconnectAttempts + 1,
                   reconnectTimer := true,
                   reconnectPending := true),
           c.effects + [ScheduleReconnect(Backoff(s.reconnectAttempts))])
  }

  /** `attemptReconnect` in the given version. */
  function Attempt(v: Version, s: State): (r: Step)
    ensures r.next.reconnectAttempts ==
      if s.reconnectAttempts < MaxReconnectAttempts then s.reconnectAttempts + 1 else s.reconnectAttempts
  {
    match v
    case AsWritten => AttemptReconnectAsWritten(s)
    case Corrected => AttemptReconnectStep(s)
  }

  /**
   * The `try` block of `connect`: construct a socket and make it the current
   * one. As written, a socket still connecting is replaced without being
   * closed: it becomes a stray whose callbacks still reach the manager. The
   * corrected version closes it, with its callbacks detached, first.
   */
  function OpenNewSocketStep(v: Version, s: State): (r: Step)
    ensures r.next == s.(hasSocket := true, socketConnecting := true,
                         straySockets := s.straySockets + (if v == AsWritten && s.socketConnecting then 1 else 0))
    ensures r.effects == (if v == Corrected && s.socketConnecting then [CloseSocket] else []) + [OpenSocket]
  {
    var strays := s.straySockets + (if v == AsWritten && s.socketConnecting then 1 else 0);
    var replaced: seq<Effect> := if v == Corrected && s.socketConnecting then [CloseSocket] else [];
    Step(s.(hasSocket := true, socketConnecting := true, straySockets := strays), replaced + [OpenSocket])
  }

  /** The `catch` block of `connect`: report `error` and, if enabled, attempt a reconnect. */
  function ConnectFailedStep(v: Version, s: State): (r: Step)
    ensures r.next.hasSocket == s.hasSocket && r.next.socketConnecting == s.socketConnecting
    ensures |r.effects| >= 1 && r.effects[0] == StatusChange(Error)
  {
    var a := if s.reconnect then Attempt(v, s) else Step(s, []);
    Step(a.next, [StatusChange(Error)] + a.effects)
  }

  /**
   * `connect`: nothing when the socket is open; otherwise clear the
   * manual-close flag, report `connecting` and open a socket, or, when the
   * socket constructor throws, take the `catch` block.
   */
  function ConnectStep(v: Version, s: State, socketThrows: bool): (r: Step)
    ensures s.socketOpen ==> r == Step(s, [])
    ensures !s.socketOpen ==> |r.effects| >= 1 && r.effects[0] == StatusChange(Connecting)
  {
    if s.socketOpen then Step(s, [])
    else
      var s1 := s.(isManualClose := false);
      var r := if socketThrows then ConnectFailedStep(v, s1) else OpenNewSocketStep(v, s1);
      Step(r.next, [StatusChange(Connecting)] + r.effects)
  }

  /**
   * What `connect` does when the socket is not open: clear the manual-close
   * flag and report `connecting`; then either open a socket, closing or
   * leaving behind one still connecting as the version says, or report
   * `error` and keep the socket.
   */
  lemma ConnectOutcome(v: Version, s: State, socketThrows: bool)
    requires !s.socketOpen
    ensures !ConnectStep(v, s, socketThrows).next.isManualClose
    ensures !socketThrows ==>
      var r := ConnectStep(v, s, socketThrows);
      && r.next == s.(isManualClose := false, hasSocket := true, socketConnecting := true,
                      straySockets := s.straySockets + (if v == AsWritten && s.socketConnecting then 1 else 0))
      && r.effects == [StatusChange(Connecting)] +
                      (if v == Corrected && s.socketConnecting then [CloseSocket] else []) + [OpenSocket]
    ensures socketThrows ==>
      var r := ConnectStep(v, s, socketThrows);
      && r.next.hasSocket == s.hasSocket && r.next.socketConnecting == s.socketConnecting
      && |r.effects| >= 2 && r.effects[1] == StatusChange(Error)
  {
    if socketThrows && s.reconnect {
      assert !Attempt(v, s.(isManualClose := false)).next.isManualClose;
    }
  }

  /** The body of `ws.onopen`: reset the attempt counter, report `connected`, start the heartbeat. */
  function OnOpenHandler(s: State): (r: Step)
    ensures r.next == s.(reconnectAttempts := 0, pingTimer := true)
    ensures r.effects == [StatusChange(Connected), StartPingTimer(PingInterval)]
  {
    Step(s.(reconnectAttempts := 0, pingTimer := true),
         [StatusChange(Connected), StartPingTimer(PingInterval)])
  }

  /**
   * The current socket opens. Only a connecting socket can open; at any
   * other time there is no such event, and nothing changes.
   */
  function OnOpenStep(s: State): (r: Step)
    ensures s.socketConnecting ==>
      && r.next == s.(socketOpen := true, socketConnecting := false, reconnectAttempts := 0, pingTimer := true)
      && r.effects == [StatusChange(Connected), StartPingTimer(PingInterval)]
    ensures !s.socketConnecting ==> r == Step(s, [])
  {
    if s.socketConnecting then OnOpenHandler(s.(socketOpen := true, socketConnecting := false))
    else Step(s, [])
  }

  /**
   * A stray socket opens: its `onopen` still runs on the manager, although
   * `ws` no longer refers to it. Without a stray there is no such event.
   */
  function StrayOpenStep(s: State): (r: Step)
    ensures s.straySockets > 0 ==>
      && r.next == s.(straySockets := s.straySockets - 1, reconnectAttempts := 0, pingTimer := true)
      && r.effects == [StatusChange(Connected), StartPingTimer(PingInterval)]
    ensures s.straySockets == 0 ==> r == Step(s, [])
  {
    if s.straySockets > 0 then OnOpenHandler(s.(straySockets := s.straySockets - 1))
    else Step(s, [])
  }

  /** `ws.onerror`, of any of the manager's sockets: report `error` and change nothing. */
  function OnErrorStep(s: State): (r: Step)
    ensures r.next == s && r.effects == [StatusChange(Error)]
  {
    Step(s, [StatusChange(Error)])
  }

  /**
   * The body of `ws.onclose`, which runs for whichever of the manager's
   * sockets closes: stop the heartbeat, report `disconnected` and, unless the
   * close was asked for or reconnecting is off, attempt a reconnect
   * (OnCloseReconnects says which delay is scheduled and when).
   */
  function OnCloseHandler(v: Version, s: State): (r: Step)
    ensures !r.next.pingTimer
    ensures r.next.isManualClose == s.isManualClose && r.next.hasSocket == s.hasSocket
    ensures r.next.socketOpen == s.socketOpen && r.next.socketConnecting == s.socketConnecting
    ensures StatusChange(Disconnected) in r.effects
  {
    var p := StopPingStep(s);
    var a := if !s.isManualClose && s.reconnect then Attempt(v, p.next) else Step(p.next, []);
    var r := Step(a.next, p.effects + [StatusChange(Disconnected)] + a.effects);
    assert r.effects[|p.effects|] == StatusChange(Disconnected);
    r
  }

  /** The current socket closes: it is no longer open or connecting, and `onclose` runs. */
  function OnCloseStep(v: Version, s: State): (r: Step)
    ensures !r.next.pingTimer && !r.next.socketOpen && !r.next.socketConnecting
    ensures r.next.isManualClose == s.isManualClose && r.next.hasSocket == s.hasSocket
    ensures StatusChange(Disconnected) in r.effects
  {
    OnCloseHandler(v, s.(socketOpen := false, socketConnecting := false))
  }

  /**
   * `disconnect`: mark the close as asked for, stop the heartbeat, cancel the
   * reconnect timeout, close the socket and drop it.
   */
  function DisconnectStep(s: State): (r: Step)
    ensures r.next.isManualClose && !r.next.pingTimer
    ensures !r.next.reconnectTimer && !r.next.reconnectPending
    ensures !r.next.hasSocket && !r.next.socketOpen && !r.next.socketConnecting
    ensures r.next.reconnectAttempts == s.reconnectAttempts
    ensures r.next.orphanedReconnects == s.orphanedReconnects && r.next.straySockets == s.straySockets
    ensures (CloseSocket in r.effects) <==> s.hasSocket
  {
    var p := StopPingStep(s.(isManualClose := true));
    var c := ClearReconnectTimerStep(p.next);
    Step(c.next.(hasSocket := false, socketOpen := false, socketConnecting := false),
         p.effects + c.effects + (if s.hasSocket then [CloseSocket] else []))
  }

  /** `send`: transmit only while the socket is open. */
  function SendStep(s: State, frame: string): (r: Step)
    ensures r.next == s
    ensures r.effects == if s.socketOpen then [SendFrame(frame)] else []
  {
    Step(s, if s.socketOpen then [SendFrame(frame)] else [])
  }

  /** The heartbeat interval fires: send a ping frame through `send`. */
  function PingTickStep(s: State): (r: Step)
    ensures r.next == s
    ensures r.effects == if s.pingTimer && s.socketOpen then [SendFrame(PingFrame)] else []
  {
    if s.pingTimer then SendStep(s, PingFrame) else Step(s, [])
  }

  /** The reconnect timeout fires: run `connect`. The handle itself is left set. */
  function ReconnectFiresStep(v: Version, s: State, socketThrows: bool): (r: Step)
    ensures s.reconnectPending ==>
      r == ConnectStep(v, s.(reconnectPending := false), socketThrows)
    ensures !s.reconnectPending ==> r == Step(s, [])
  {
    if s.reconnectPending then ConnectStep(v, s.(reconnectPending := false), socketThrows)
    else Step(s, [])
  }

  /** A timeout whose handle was overwritten fires: run `connect`. */
  function OrphanFiresStep(v: Version, s: State, socketThrows: bool): (r: Step)
    ensures s.orphanedReconnects > 0 ==>
      r == ConnectStep(v, s.(orphanedReconnects := s.orphanedReconnects - 1), socketThrows)
    ensures s.orphanedReconnects == 0 ==> r == Step(s, [])
  {
    if s.orphanedReconnects > 0 then
      ConnectStep(v, s.(orphanedReconnects := s.orphanedReconnects - 1), socketThrows)
    else Step(s, [])
  }

  /**
   * What can happen to a manager: a call by its owner, a callback of the
   * current socket or of a socket `ws` no longer refers to, a timer.
   */
  datatype Event =
    | CallConnect(socketThrows: bool)
    | CallDisconnect
    | CallSend(frame: string)
    | SocketOpened
    | SocketErrored
    | SocketClosed
    | OldSocketOpened
    | OldSocketClosed
    | PingFired
    | ReconnectFired(socketThrows: bool)
    | OrphanFired(socketThrows: bool)

  function Apply(v: Version, s: State, e: Event): Step {
    match e
    case CallConnect(t) => ConnectStep(v, s, t)
    case CallDisconnect => DisconnectStep(s)
    case CallSend(f) => SendStep(s, f)
    case SocketOpened => OnOpenStep(s)
    case SocketErrored => OnErrorStep(s)
    case SocketClosed => OnCloseStep(v, s)
    case OldSocketOpened => StrayOpenStep(s)
    case OldSocketClosed => OnCloseHandler(v, s)
    case PingFired => PingTickStep(s)
    case ReconnectFired(t) => ReconnectFiresStep(v, s, t)
    case OrphanFired(t) => OrphanFiresStep(v, s, t)
  }

  /** The events applied in order, with all their effects. */
  function Run(v: Version, s: State, es: seq<Event>): Step
    decreases |es|
  {
    if es == [] then Step(s, [])
    else
      var r := Run(v, s, es[..|es| - 1]);
      var last := Apply(v, r.next, es[|es| - 1]);
      Step(last.next, r.effects + last.effects)
  }

  /** Every event keeps the invariant, in both versions; in particular attempts never exceed the cap. */
  lemma ApplyKeepsInv(v: Version, s: State, e: Event)
    requires Inv(s)
    ensures Inv(Apply(v, s, e).next)
  {
    if e.CallConnect? || e.ReconnectFired? || e.OrphanFired? {
      ConnectEventKeepsInv(v, s, e);
    } else if e.SocketClosed? || e.OldSocketClosed? {
      CloseEventKeepsInv(v, s, e);
    } else {
      QuietEventKeepsInv(v, s, e);
    }
  }

  lemma ConnectEventKeepsInv(v: Version, s: State, e: Event)
    requires Inv(s) && (e.CallConnect? || e.ReconnectFired? || e.OrphanFired?)
    ensures Inv(Apply(v, s, e).next)
  {
    match e
    case CallConnect(t) => ConnectKeepsInv(v, s, t);
    case ReconnectFired(t) => ReconnectFiresKeepsInv(v, s, t);
    case OrphanFired(t) => OrphanFiresKeepsInv(v, s, t);
  }

  lemma ReconnectFiresKeepsInv(v: Version, s: State, socketThrows: bool)
    requires Inv(s)
    ensures Inv(ReconnectFiresStep(v, s, socketThrows).next)
  {
    if s.reconnectPending {
      ConnectKeepsInv(v, s.(reconnectPending := false), socketThrows);
    }
  }

  lemma OrphanFiresKeepsInv(v: Version, s: State, socketThrows: bool)
    requires Inv(s)
    ensures Inv(OrphanFiresStep(v, s, socketThrows).next)
  {
    if s.orphanedReconnects > 0 {
      ConnectKeepsInv(v, s.(orphanedReconnects := s.orphanedReconnects - 1), socketThrows);
    }
  }

  lemma CloseEventKeepsInv(v: Version, s: State, e: Event)
    requires Inv(s) && (e.SocketClosed? || e.OldSocketClosed?)
    ensures Inv(Apply(v, s, e).next)
  {
    if e.SocketClosed? {
      CloseKeepsInv(v, s.(socketOpen := false, socketConnecting := false));
    } else {
      CloseKeepsInv(v, s);
    }
  }

  lemma QuietEventKeepsInv(v: Version, s: State, e: Event)
    requires Inv(s) && !(e.CallConnect? || e.ReconnectFired? || e.OrphanFired?)
    requires !(e.SocketClosed? || e.OldSocketClosed?)
    ensures Inv(Apply(v, s, e).next)
  {
    match e
    case CallDisconnect =>
      assert Apply(v, s, e) == DisconnectStep(s);
    case CallSend(f) =>
      assert Apply(v, s, e) == SendStep(s, f);
    case SocketOpened =>
      assert Apply(v, s, e) == OnOpenStep(s);
    case SocketErrored =>
      assert Apply(v, s, e) == OnErrorStep(s);
    case OldSocketOpened =>
      assert Apply(v, s, e) == StrayOpenStep(s);
    case PingFired =>
      assert Apply(v, s, e) == PingTickStep(s);
  }

  lemma AttemptKeepsInv(v: Version, s: State)
    requires Inv(s)
    ensures Inv(Attempt(v, s).next)
  {
  }

  lemma CloseKeepsInv(v: Version, s: State)
    requires Inv(s)
    ensures Inv(OnCloseHandler(v, s).next)
  {
    var p := StopPingStep(s);
    if !s.isManualClose && s.reconnect {
      AttemptKeepsInv(v, p.next);
    }
  }

  lemma ConnectKeepsInv(v: Version, s: State, socketThrows: bool)
    requires Inv(s)
    ensures Inv(ConnectStep(v, s, socketThrows).next)
  {
    if !s.socketOpen {
      var s1 := s.(isManualClose := false);
      if socketThrows {
        if s.reconnect {
          AttemptKeepsInv(v, s1);
        }
        assert Inv(ConnectFailedStep(v, s1).next);
      } else {
        assert Inv(OpenNewSocketStep(v, s1).next);
      }
    }
  }

  /** Every run from an invariant state stays in invariant states, in both versions. */
  lemma {:induction false} RunKeepsInv(v: Version, s: State, es: seq<Event>)
    requires Inv(s)
    ensures Inv(Run(v, s, es).next)
    decreases |es|
  {
    if es != [] {
      RunKeepsInv(v, s, es[..|es| - 1]);
      ApplyKeepsInv(v, Run(v, s, es[..|es| - 1]).next, es[|es| - 1]);
    }
  }

  /** In the corrected version no event orphans a timeout or leaves a stray socket. */
  lemma ApplyKeepsTidy(s: State, e: Event)
    requires Tidy(s)
    ensures Tidy(Apply(Corrected, s, e).next)
  {
    match e
    case CallConnect(t) =>
      ConnectKeepsTidy(s, t);
    case ReconnectFired(t) =>
      ConnectKeepsTidy(s.(reconnectPending := false), t);
    case OrphanFired(t) =>
    case SocketClosed =>
      CloseKeepsTidy(s.(socketOpen := false, socketConnecting := false));
    case OldSocketClosed =>
      CloseKeepsTidy(s);
    case CallDisconnect =>
    case CallSend(f) =>
    case SocketOpened =>
    case SocketErrored =>
    case OldSocketOpened =>
    case PingFired =>
  }

  lemma ConnectKeepsTidy(s: State, socketThrows: bool)
    requires Tidy(s)
    ensures Tidy(ConnectStep(Corrected, s, socketThrows).next)
  {
  }

  lemma CloseKeepsTidy(s: State)
    requires Tidy(s)
    ensures Tidy(OnCloseHandler(Corrected, s).next)
  {
  }

  lemma {:induction false} RunKeepsTidy(s: State, es: seq<Event>)
    requires Tidy(s)
    ensures Tidy(Run(Corrected, s, es).next)
    decreases |es|
  {
    if es != [] {
      RunKeepsTidy(s, es[..|es| - 1]);
      ApplyKeepsTidy(Run(Corrected, s, es[..|es| - 1]).next, es[|es| - 1]);
    }
  }

  /** The reconnect delays in `effects`, in order. */
  function Delays(effects: seq<Effect>): seq<nat> {
    if effects == [] then []
    else
      Delays(effects[..|effects| - 1]) +
      (if effects[|effects| - 1].ScheduleReconnect? then [effects[|effects| - 1].delay] else [])
  }

  lemma {:induction false} DelaysConcat(a: seq<Effect>, b: seq<Effect>)
    ensures Delays(a + b) == Delays(a) + Delays(b)
    decreases |b|
  {
    if b == [] {
      assert a + b == a;
    } else {
      assert (a + b)[..|a + b| - 1] == a + b[..|b| - 1];
      DelaysConcat(a, b[..|b| - 1]);
    }
  }

  /** The backoff delays of attempts `lo` up to (not including) `hi`. */
  function BackoffRun(lo: nat, hi: nat): (r: seq<nat>)
    requires lo <= hi
    ensures |r| == hi - lo
    ensures forall i :: 0 <= i < |r| ==> r[i] == Backoff(lo + i)
    decreases hi - lo
  {
    if lo == hi then [] else [Backoff(lo)] + BackoffRun(lo + 1, hi)
  }

  lemma BackoffRunConcat(a: nat, b: nat, c: nat)
    requires a <= b <= c
    ensures BackoffRun(a, b) + BackoffRun(b, c) == BackoffRun(a, c)
  {
    assert forall i :: 0 <= i < c - a ==> (BackoffRun(a, b) + BackoffRun(b, c))[i] == Backoff(a + i);
  }

  /** `attemptReconnect`, in either version, schedules the backoff delay of the attempt it counts, and only that. */
  lemma AttemptDelays(v: Version, s: State)
    ensures s.reconnectAttempts <= Attempt(v, s).next.reconnectAttempts
    ensures Delays(Attempt(v, s).effects) ==
      BackoffRun(s.reconnectAttempts, Attempt(v, s).next.reconnectAttempts)
  {
    if s.reconnectAttempts < MaxReconnectAttempts {
      var d := [ScheduleReconnect(Backoff(s.reconnectAttempts))];
      assert Delays(d) == [Backoff(s.reconnectAttempts)] by {
        assert d[..0] == [];
      }
      if v == Corrected {
        var c := ClearReconnectTimerStep(s);
        DelaysConcat(c.effects, d);
        assert Delays([CancelReconnect]) == [];
      }
    }
  }

  /**
   * When a socket closes, a reconnect is scheduled exactly when the close was
   * not asked for, reconnecting is on and the cap is not reached; its delay
   * is `3000 * 2^attempts` and the attempt is counted. This holds in both
   * versions.
   */
  lemma OnCloseReconnects(v: Version, s: State)
    ensures Delays(OnCloseHandler(v, s).effects) ==
      if !s.isManualClose && s.reconnect && s.reconnectAttempts < MaxReconnectAttempts
      then [Backoff(s.reconnectAttempts)] else []
    ensures OnCloseHandler(v, s).next.reconnectAttempts ==
      if !s.isManualClose && s.reconnect && s.reconnectAttempts < MaxReconnectAttempts
      then s.reconnectAttempts + 1 else s.reconnectAttempts
  {
    var p := StopPingStep(s);
    var head := p.effects + [StatusChange(Disconnected)];
    assert Delays(head) == [] by {
      DelaysConcat(p.effects, [StatusChange(Disconnected)]);
      assert Delays([StatusChange(Disconnected)]) == [];
      assert Delays([StopPingTimer]) == [];
    }
    if !s.isManualClose && s.reconnect {
      var a := Attempt(v, p.next);
      assert OnCloseHandler(v, s).effects == head + a.effects;
      DelaysConcat(head, a.effects);
      AttemptDelays(v, p.next);
      if s.reconnectAttempts < MaxReconnectAttempts {
        assert BackoffRun(s.reconnectAttempts, s.reconnectAttempts + 1) == [Backoff(s.reconnectAttempts)];
      }
    } else {
      assert OnCloseHandler(v, s).effects == head;
    }
  }

  /** Starting from `a` attempts, `r` counts attempts and schedules exactly their backoff delays. */
  ghost predicate SchedulesBackoff(a: nat, r: Step) {
    a <= r.next.reconnectAttempts && Delays(r.effects) == BackoffRun(a, r.next.reconnectAttempts)
  }

  /** A step that counts no attempt and schedules nothing. */
  lemma QuietDelays(a: nat, r: Step)
    requires r.next.reconnectAttempts == a && Delays(r.effects) == []
    ensures SchedulesBackoff(a, r)
  {
  }

  /** Putting an effect that schedules nothing in front keeps what a step schedules. */
  lemma QuietPrefix(a: nat, x: Effect, r: Step)
    requires !x.ScheduleReconnect? && SchedulesBackoff(a, r)
    ensures SchedulesBackoff(a, Step(r.next, [x] + r.effects))
  {
    DelaysConcat([x], r.effects);
    assert Delays([x]) == [];
  }

  lemma OpenNewSocketDelays(v: Version, s: State)
    ensures SchedulesBackoff(s.reconnectAttempts, OpenNewSocketStep(v, s))
  {
    var replaced: seq<Effect> := if v == Corrected && s.socketConnecting then [CloseSocket] else [];
    DelaysConcat(replaced, [OpenSocket]);
    assert Delays([CloseSocket]) == [];
    assert Delays([OpenSocket]) == [];
    QuietDelays(s.reconnectAttempts, OpenNewSocketStep(v, s));
  }

  lemma ConnectFailedDelays(v: Version, s: State)
    ensures SchedulesBackoff(s.reconnectAttempts, ConnectFailedStep(v, s))
  {
    var a := if s.reconnect then Attempt(v, s) else Step(s, []);
    if s.reconnect {
      AttemptDelays(v, s);
    } else {
      QuietDelays(s.reconnectAttempts, a);
    }
    QuietPrefix(s.reconnectAttempts, StatusChange(Error), a);
  }

  lemma ConnectDelays(v: Version, s: State, socketThrows: bool)
    ensures SchedulesBackoff(s.reconnectAttempts, ConnectStep(v, s, socketThrows))
  {
    if !s.socketOpen {
      var s1 := s.(isManualClose := false);
      var r := if socketThrows then ConnectFailedStep(v, s1) else OpenNewSocketStep(v, s1);
      if socketThrows {
        ConnectFailedDelays(v, s1);
      } else {
        OpenNewSocketDelays(v, s1);
      }
      QuietPrefix(s.reconnectAttempts, StatusChange(Connecting), r);
    } else {
      QuietDelays(s.reconnectAttempts, Step(s, []));
    }
  }

  lemma DisconnectDelays(s: State)
    ensures Delays(DisconnectStep(s).effects) == []
  {
    var p := StopPingStep(s.(isManualClose := true));
    var c := ClearReconnectTimerStep(p.next);
    DelaysConcat(p.effects + c.effects, if s.hasSocket then [CloseSocket] else []);
    DelaysConcat(p.effects, c.effects);
    assert Delays([StopPingTimer]) == [];
    assert Delays([CancelReconnect]) == [];
    assert Delays([CloseSocket]) == [];
  }

  lemma OnCloseDelays(v: Version, s: State)
    ensures SchedulesBackoff(s.reconnectAttempts, OnCloseHandler(v, s))
  {
    OnCloseReconnects(v, s);
    assert BackoffRun(s.reconnectAttempts, s.reconnectAttempts + 1) == [Backoff(s.reconnectAttempts)];
  }

  /** An event through which a socket opens, resetting the attempt counter. */
  predicate Opens(e: Event) {
    e.SocketOpened? || e.OldSocketOpened?
  }

  /**
   * Without a socket opening, one event schedules exactly the backoff
   * delays of the attempts it counts, in both versions.
   */
  lemma ApplyDelays(v: Version, s: State, e: Event)
    requires !Opens(e)
    ensures SchedulesBackoff(s.reconnectAttempts, Apply(v, s, e))
  {
    if e.CallConnect? || e.ReconnectFired? || e.OrphanFired? {
      ConnectEventDelays(v, s, e);
    } else if e.SocketClosed? || e.OldSocketClosed? {
      CloseEventDelays(v, s, e);
    } else {
      QuietEventDelays(v, s, e);
    }
  }

  lemma ReconnectFiresDelays(v: Version, s: State, socketThrows: bool)
    ensures SchedulesBackoff(s.reconnectAttempts, ReconnectFiresStep(v, s, socketThrows))
  {
    if s.reconnectPending {
      ConnectDelays(v, s.(reconnectPending := false), socketThrows);
    } else {
      QuietDelays(s.reconnectAttempts, Step(s, []));
    }
  }

  lemma OrphanFiresDelays(v: Version, s: State, socketThrows: bool)
    ensures SchedulesBackoff(s.reconnectAttempts, OrphanFiresStep(v, s, socketThrows))
  {
    if s.orphanedReconnects > 0 {
      ConnectDelays(v, s.(orphanedReconnects := s.orphanedReconnects - 1), socketThrows);
    } else {
      QuietDelays(s.reconnectAttempts, Step(s, []));
    }
  }

  lemma ConnectEventDelays(v: Version, s: State, e: Event)
    requires e.CallConnect? || e.ReconnectFired? || e.OrphanFired?
    ensures SchedulesBackoff(s.reconnectAttempts, Apply(v, s, e))
  {
    match e
    case CallConnect(t) => ConnectDelays(v, s, t);
    case ReconnectFired(t) => ReconnectFiresDelays(v, s, t);
    case OrphanFired(t) => OrphanFiresDelays(v, s, t);
  }

  lemma CloseEventDelays(v: Version, s: State, e: Event)
    requires e.SocketClosed? || e.OldSocketClosed?
    ensures SchedulesBackoff(s.reconnectAttempts, Apply(v, s, e))
  {
    if e.SocketClosed? {
      OnCloseDelays(v, s.(socketOpen := false, socketConnecting := false));
    } else {
      OnCloseDelays(v, s);
    }
  }

  lemma QuietEventDelays(v: Version, s: State, e: Event)
    requires e.CallDisconnect? || e.CallSend? || e.SocketErrored? || e.PingFired?
    ensures SchedulesBackoff(s.reconnectAttempts, Apply(v, s, e))
  {
    var a := s.reconnectAttempts;
    if e.CallDisconnect? {
      DisconnectDelays(s);
      QuietDelays(a, DisconnectStep(s));
    } else if e.CallSend? {
      assert Delays([SendFrame(e.frame)]) == [];
      QuietDelays(a, SendStep(s, e.frame));
    } else if e.SocketErrored? {
      assert Delays([StatusChange(Error)]) == [];
      QuietDelays(a, OnErrorStep(s));
    } else {
      assert Delays([SendFrame(PingFrame)]) == [];
      QuietDelays(a, PingTickStep(s));
    }
  }

  /**
   * Bounded retries, in both versions: in any run in which no socket opens,
   * the reconnects scheduled are exactly attempts `a`, `a + 1`, ... with
   * delays `3000 * 2^a`, `3000 * 2^(a+1)`, ..., and there are at most
   * `MAX_RECONNECT_ATTEMPTS - a` of them.
   */
  lemma {:induction false} RunDelays(v: Version, s: State, es: seq<Event>)
    requires Inv(s)
    requires forall i :: 0 <= i < |es| ==> !Opens(es[i])
    ensures s.reconnectAttempts <= Run(v, s, es).next.reconnectAttempts <= MaxReconnectAttempts
    ensures Delays(Run(v, s, es).effects) ==
      BackoffRun(s.reconnectAttempts, Run(v, s, es).next.reconnectAttempts)
    ensures |Delays(Run(v, s, es).effects)| <= MaxReconnectAttempts - s.reconnectAttempts
    decreases |es|
  {
    if es == [] {
    } else {
      var init := es[..|es| - 1];
      var r := Run(v, s, init);
      RunDelays(v, s, init);
      RunKeepsInv(v, s, init);
      var last := Apply(v, r.next, es[|es| - 1]);
      ApplyDelays(v, r.next, es[|es| - 1]);
      ApplyKeepsInv(v, r.next, es[|es| - 1]);
      DelaysConcat(r.effects, last.effects);
      BackoffRunConcat(s.reconnectAttempts, r.next.reconnectAttempts, last.next.reconnectAttempts);
    }
  }

  /** Calling `disconnect` a second time changes nothing and does nothing. */
  lemma DisconnectIdempotent(s: State)
    ensures DisconnectStep(DisconnectStep(s).next) == Step(DisconnectStep(s).next, [])
  {
  }

  /** A torn-down manager: nothing pending, no socket, nothing lost track of, close asked for. */
  ghost predicate TornDown(s: State) {
    && Inv(s) && Tidy(s)
    && s.isManualClose && !s.hasSocket && !s.socketOpen && !s.socketConnecting
    && !s.pingTimer && !s.reconnectTimer && !s.reconnectPending
  }

  /** `disconnect` leaves a manager that has lost track of nothing torn down. */
  lemma DisconnectTearsDown(s: State)
    requires Inv(s) && Tidy(s)
    ensures TornDown(DisconnectStep(s).next)
  {
  }

  /**
   * In the corrected version, a torn-down manager stays torn down: whatever
   * late socket callbacks and timers still fire (short of a fresh `connect`),
   * no socket is opened, no reconnect is scheduled, nothing is sent, and the
   * only effects are `disconnected`/`error` status reports.
   */
  lemma {:induction false} TeardownIsFinal(s: State, es: seq<Event>)
    requires TornDown(s)
    requires forall i :: 0 <= i < |es| ==> !es[i].CallConnect?
    ensures TornDown(Run(Corrected, s, es).next)
    ensures forall k :: 0 <= k < |Run(Corrected, s, es).effects| ==>
      Run(Corrected, s, es).effects[k] in {StatusChange(Disconnected), StatusChange(Error)}
    decreases |es|
  {
    if es != [] {
      var init := es[..|es| - 1];
      TeardownIsFinal(s, init);
      var r := Run(Corrected, s, init);
      var last := Apply(Corrected, r.next, es[|es| - 1]);
      assert forall k :: 0 <= k < |last.effects| ==>
        last.effects[k] in {StatusChange(Disconnected), StatusChange(Error)};
    }
  }

  /**
   * `disconnect` is final in the corrected version: from a new manager,
   * after any run of events and a `disconnect`, nothing but a fresh
   * `connect` opens a socket, schedules a reconnect or sends anything again.
   */
  lemma DisconnectIsFinal(reconnect: bool, before: seq<Event>, after: seq<Event>)
    requires forall i :: 0 <= i < |after| ==> !after[i].CallConnect?
    ensures
      var torn := DisconnectStep(Run(Corrected, Initial(reconnect), before).next).next;
      && TornDown(torn)
      && TornDown(Run(Corrected, torn, after).next)
      && forall k :: 0 <= k < |Run(Corrected, torn, after).effects| ==>
           Run(Corrected, torn, after).effects[k] in {StatusChange(Disconnected), StatusChange(Error)}
  {
    var s := Run(Corrected, Initial(reconnect), before).next;
    RunKeepsInv(Corrected, Initial(reconnect), before);
    RunKeepsTidy(Initial(reconnect), before);
    DisconnectTearsDown(s);
    TeardownIsFinal(DisconnectStep(s).next, after);
  }

  /**
   * The written `attemptReconnect` loses track of a pending timeout: connect,
   * the socket closes, connect again before the timeout runs, that socket
   * closes too, then disconnect. The first timeout is still pending, and when
   * it runs it clears the manual-close flag and opens a new socket.
   */
  lemma OrphanedReconnectResurrects()
    ensures
      var s1 := ConnectStep(AsWritten, Initial(true), false).next;
      var s2 := OnCloseStep(AsWritten, s1).next;
      var s3 := ConnectStep(AsWritten, s2, false).next;
      var s4 := OnCloseStep(AsWritten, s3).next;
      var s5 := DisconnectStep(s4).next;
      var fired := OrphanFiresStep(AsWritten, s5, false);
      && s5.isManualClose && !s5.hasSocket && !s5.reconnectTimer
      && s5.orphanedReconnects == 1
      && !fired.next.isManualClose && fired.next.hasSocket
      && fired.effects == [StatusChange(Connecting), OpenSocket]
  {
  }

  /**
   * The written `connect` loses track of a socket still connecting: connect,
   * connect again before the first socket opens, then disconnect. The first
   * socket was never closed; when it opens, its `onopen` reports `connected`
   * and starts a heartbeat on the torn-down manager, which nothing the
   * manager does stops; only that stray socket's own later `onclose` would.
   */
  lemma StrayOpenAfterDisconnect()
    ensures
      var s1 := ConnectStep(AsWritten, Initial(true), false).next;
      var s2 := ConnectStep(AsWritten, s1, false).next;
      var s3 := DisconnectStep(s2).next;
      var late := StrayOpenStep(s3);
      && s3.isManualClose && !s3.hasSocket && !s3.pingTimer && !s3.reconnectTimer
      && s3.straySockets == 1
      && late.effects == [StatusChange(Connected), StartPingTimer(PingInterval)]
      && late.next.pingTimer && late.next.isManualClose
  {
  }

  /**
   * The object the source's class describes, in the corrected version: its
   * `connect` closes a socket still connecting before replacing it, and its
   * `attemptReconnect` clears the previous timeout. Its fields are the
   * source's, with `ws` reduced to three flags; `reconnectPending` records
   * whether the scheduled timeout has run, and `effects` the calls made, in
   * order.
   */
  class WebSocketManager {
    const reconnect: bool
    var hasSocket: bool
    var socketOpen: bool
    var socketConnecting: bool
    var reconnectAttempts: nat
    var isManualClose: bool
    var pingTimer: bool
    var reconnectTimer: bool
    var reconnectPending: bool
    var effects: seq<Effect>

    function Model(): State
      reads this
    {
      State(reconnect, hasSocket, socketOpen, socketConnecting, reconnectAttempts, isManualClose,
            pingTimer, reconnectTimer, reconnectPending, 0, 0)
    }

    ghost predicate Valid()
      reads this
    {
      Inv(Model()) && Tidy(Model())
    }

    constructor (reconnect: bool)
      ensures Valid()
      ensures Model() == Initial(reconnect) && effects == []
    {
      this.reconnect := reconnect;
      hasSocket, socketOpen, socketConnecting := false, false, false;
      reconnectAttempts := 0;
      isManualClose := false;
      pingTimer, reconnectTimer, reconnectPending := false, false, false;
      effects := [];
    }

    method Connect(socketThrows: bool)
      requires Valid()
      modifies this
      ensures Valid()
      ensures Model() == ConnectStep(Corrected, old(Model()), socketThrows).next
      ensures effects == old(effects) + ConnectStep(Corrected, old(Model()), socketThrows).effects
    {
      if socketOpen {
        return;
      }
      isManualClose := false;
      effects := effects + [StatusChange(Connecting)];
      ghost var mid := effects;
      if socketThrows {
        ConnectFailed();
      } else {
        OpenNewSocket();
      }
      ConcatAssoc(old(effects), [StatusChange(Connecting)], effects[|mid|..]);
      assert effects == mid + effects[|mid|..];
    }

    /** The `try` block of `connect`, closing a socket still connecting first. */
    method OpenNewSocket()
      requires Valid() && !socketOpen
      modifies this
      ensures Valid()
      ensures Model() == OpenNewSocketStep(Corrected, old(Model())).next
      ensures effects == old(effects) + OpenNewSocketStep(Corrected, old(Model())).effects
    {
      ghost var replaced: seq<Effect> := if socketConnecting then [CloseSocket] else [];
      if socketConnecting {
        effects := effects + [CloseSocket];
      }
      hasSocket, socketConnecting := true, true;
      effects := effects + [OpenSocket];
      ConcatAssoc(old(effects), replaced, [OpenSocket]);
    }

    /** The `catch` block of `connect`. */
    method ConnectFailed()
      requires Valid()
      modifies this
      ensures Valid()
      ensures Model() == ConnectFailedStep(Corrected, old(Model())).next
      ensures effects == old(effects) + ConnectFailedStep(Corrected, old(Model())).effects
    {
      effects := effects + [StatusChange(Error)];
      ghost var mid := effects;
      if reconnect {
        AttemptReconnect();
      }
      ConcatAssoc(old(effects), [StatusChange(Error)], effects[|mid|..]);
      assert effects == mid + effects[|mid|..];
    }

    method Disconnect()
      requires Valid()
      modifies this
      ensures Valid()
      ensures Model() == DisconnectStep(old(Model())).next
      ensures effects == old(effects) + DisconnectStep(old(Model())).effects
    {
      ghost var p := StopPingStep(old(Model()).(isManualClose := true));
      ghost var c := ClearReconnectTimerStep(p.next);
      ghost var tail: seq<Effect> := if hasSocket then [CloseSocket] else [];
      isManualClose := true;
      StopPing();
      ClearReconnectTimer();
      if hasSocket {
        effects := effects + [CloseSocket];
      }
      hasSocket, socketOpen, socketConnecting := false, false, false;
      ConcatAssoc(old(effects), p.effects, c.effects);
      ConcatAssoc(old(effects), p.effects + c.effects, tail);
    }

    method Send(frame: string)
      requires Valid()
      modifies this
      ensures Valid()
      ensures Model() == old(Model())
      ensures effects == old(effects) + SendStep(old(Model()), frame).effects
    {
      if socketOpen {
        effects := effects + [SendFrame(frame)];
      }
    }

    /** `ws.onopen` of the current socket, which can only open while connecting. */
    method OnOpen()
      requires Valid()
      modifies this
      ensures Valid()
      ensures Model() == OnOpenStep(old(Model())).next
      ensures effects == old(effects) + OnOpenStep(old(Model())).effects
    {
      if socketConnecting {
        socketOpen, socketConnecting := true, false;
        reconnectAttempts := 0;
        effects := effects + [StatusChange(Connected)];
        StartPing();
      }
    }

    /**
     * `ws.onmessage`: decode the frame and hand the value on; a frame that
     * does not decode is dropped. `parse` stands for `JSON.parse`.
     */
    method OnMessage<M>(frame: string, parse: string -> Option<M>) returns (delivered: Option<M>)
      ensures parse(frame).None? ==> delivered.None?
      ensures parse(frame).Some? ==> delivered == parse(frame)
    {
      delivered := None;
      var data := parse(frame);
      if data.Some? {
        delivered := data;
      }
    }

    /** `ws.onerror`, of any of the manager's sockets. */
    method OnError()
      requires Valid()
      modifies this
      ensures Valid()
      ensures Model() == old(Model())
      ensures effects == old(effects) + [StatusChange(Error)]
    {
      effects := effects + [StatusChange(Error)];
    }

    /** `ws.onclose` of the current socket: it is no longer open or connecting. */
    method OnClose()
      requires Valid()
      modifies this
      ensures Valid()
      ensures Model() == OnCloseStep(Corrected, old(Model())).next
      ensures effects == old(effects) + OnCloseStep(Corrected, old(Model())).effects
    {
      socketOpen, socketConnecting := false, false;
      HandleClose();
    }

    /**
     * The body of `ws.onclose`; on its own, the close of a socket that `ws`
     * no longer refers to, such as the one `disconnect` closed.
     */
    method HandleClose()
      requires Valid()
      modifies this
      ensures Valid()
      ensures Model() == OnCloseHandler(Corrected, old(Model())).next
      ensures effects == old(effects) + OnCloseHandler(Corrected, old(Model())).effects
    {
      ghost var p := StopPingStep(old(Model()));
      StopPing();
      effects := effects + [StatusChange(Disconnected)];
      ghost var mid := effects;
      if !isManualClose && reconnect {
        AttemptReconnect();
      }
      ConcatAssoc(old(effects), p.effects, [StatusChange(Disconnected)]);
      ConcatAssoc(old(effects), p.effects + [StatusChange(Disconnected)], effects[|mid|..]);
      assert effects == mid + effects[|mid|..];
    }

    /** The heartbeat interval fires. */
    method PingTimerFires()
      requires Valid()
      modifies this
      ensures Valid()
      ensures Model() == old(Model())
      ensures effects == old(effects) + PingTickStep(old(Model())).effects
    {
      if pingTimer {
        Send(PingFrame);
      }
    }

    /** The reconnect timeout fires. */
    method ReconnectTimerFires(socketThrows: bool)
      requires Valid()
      modifies this
      ensures Valid()
      ensures Model() == ReconnectFiresStep(Corrected, old(Model()), socketThrows).next
      ensures effects == old(effects) + ReconnectFiresStep(Corrected, old(Model()), socketThrows).effects
    {
      if reconnectPending {
        reconnectPending := false;
        Connect(socketThrows);
      }
    }

    /** `attemptReconnect`, clearing the previous timeout first. */
    method AttemptReconnect()
      requires Valid()
      modifies this
      ensures Valid()
      ensures Model() == AttemptReconnectStep(old(Model())).next
      ensures effects == old(effects) + AttemptReconnectStep(old(Model())).effects
    {
      if reconnectAttempts >= MaxReconnectAttempts {
        return;
      }
      var delay := ReconnectInterval * Pow2(reconnectAttempts);
      reconnectAttempts := reconnectAttempts + 1;
      ClearReconnectTimer();
      reconnectTimer, reconnectPending := true, true;
      effects := effects + [ScheduleReconnect(delay)];
    }

    method StartPing()
      modifies this
      ensures pingTimer
      ensures effects == old(effects) + [StartPingTimer(PingInterval)]
      ensures Model() == old(Model()).(pingTimer := true)
    {
      pingTimer := true;
      effects := effects + [StartPingTimer(PingInterval)];
    }

    method StopPing()
      modifies this
      ensures Model() == StopPingStep(old(Model())).next
      ensures effects == old(effects) + StopPingStep(old(Model())).effects
    {
      if pingTimer {
        pingTimer := false;
        effects := effects + [StopPingTimer];
      }
    }

    method ClearReconnectTimer()
      modifies this
      ensures Model() == ClearReconnectTimerStep(old(Model())).next
      ensures effects == old(effects) + ClearReconnectTimerStep(old(Model())).effects
    {
      if reconnectTimer {
        reconnectTimer := false;
        effects := effects + [CancelReconnect];
      }
      reconnectPending := false;
    }
  }
}
