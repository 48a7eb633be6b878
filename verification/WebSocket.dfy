/**
  The WebSocket client: connect, disconnect, the reconnect timer and its backoff, and the
  session fields it publishes. The socket is a four-state machine; an event its state does
  not allow, or a timer that is not running, changes nothing.
 */
module WebSocket {

  const BACKOFF_STEPS: nat := 6

  function BackoffTable(): (t: seq<nat>)
    ensures |t| == BACKOFF_STEPS
  {
    [1000, 2000, 4000, 8000, 15000, 30000]
  }

  datatype Socket = Unconnected | Opening | Open | Closing

  datatype Status = Disconnected | Connecting | Connected | Reconnecting

  /** opens counts the calls that open the socket; delays lists the reconnect delays scheduled
      since the socket last connected. */
  datatype State = State(
    socket: Socket, intentional: bool, attempt: nat, reconnectTimer: bool, heartbeat: bool,
    status: Status, sessionId: string, opens: nat, delays: seq<nat>)

  datatype Event =
    | ConnectToServer
    | DisconnectFromServer
    | SocketConnected
    | SocketDisconnected
    | SessionOpened(id: string)
    | ReconnectTick

  function Init(): State { State(Unconnected, false, 0, false, false, Disconnected, "", 0, []) }

  /** The delay for the attempt-th consecutive failure. */
  function CurrentBackoff(attempt: nat): nat {
    var idx := attempt - 1;
    var low := if idx < 0 then 0 else idx;
    BackoffTable()[if low >= BACKOFF_STEPS then BACKOFF_STEPS - 1 else low]
  }

  function OpenSocket(s: State): State {
    s.(intentional := false, status := Connecting, socket := Opening, opens := s.opens + 1)
  }

  predicate OpensSocket(s: State, e: Event) {
    e.ConnectToServer? || (e.ReconnectTick? && s.reconnectTimer)
  }

  function Step(s: State, e: Event): State {
    match e
    case ConnectToServer => OpenSocket(s)
    case DisconnectFromServer =>
      s.(intentional := true, heartbeat := false, reconnectTimer := false,
         socket := if s.socket.Unconnected? then Unconnected else Closing,
         status := Disconnected, sessionId := "")
    case SocketConnected =>
      if !s.socket.Opening? then s
      else s.(socket := Open, attempt := 0, heartbeat := true, delays := [])
    case SocketDisconnected =>
      if s.socket.Unconnected? then s
      else
        var s' := s.(socket := Unconnected, heartbeat := false, sessionId := "");
        if s.intentional then s'.(status := Disconnected)
        else s'.(status := Reconnecting, attempt := s.attempt + 1, reconnectTimer := true,
                 delays := s.delays + [CurrentBackoff(s.attempt + 1)])
    case SessionOpened(id) =>
      if !s.socket.Open? then s else s.(status := Connected, sessionId := id)
    case ReconnectTick =>
      if !s.reconnectTimer then s else OpenSocket(s.(reconnectTimer := false))
  }

  function Run(es: seq<Event>): State {
    if es == [] then Init() else Step(Run(es[..|es| - 1]), es[|es| - 1])
  }

  class PairionWebSocketClient {
    var socket: Socket
    var intentionalDisconnect: bool
    var reconnectAttempt: nat
    var reconnectTimer: bool
    var heartbeatTimer: bool
    var status: Status
    var sessionId: string
    var opens: nat
    var delays: seq<nat>

    function Abs(): State
      reads this
    {
      State(socket, intentionalDisconnect, reconnectAttempt, reconnectTimer, heartbeatTimer, status, sessionId,
            opens, delays)
    }

    constructor ()
      ensures Abs() == Init()
    {
      socket, intentionalDisconnect, reconnectAttempt, reconnectTimer := Unconnected, false, 0, false;
      heartbeatTimer, status, sessionId, opens, delays := false, Disconnected, "", 0, [];
    }

    method DoConnectToServer()
      modifies this
      ensures Abs() == OpenSocket(old(Abs()))
    {
      intentionalDisconnect := false;
      status := Connecting;
      socket := Opening;
      opens := opens + 1;
    }

    method DoDisconnectFromServer()
      modifies this
      ensures Abs() == Step(old(Abs()), DisconnectFromServer)
    {
      intentionalDisconnect := true;
      heartbeatTimer := false;
      reconnectTimer := false;
      if socket != Unconnected {
        socket := Closing;
      }
      status := Disconnected;
      sessionId := "";
    }

    method OnConnected()
      modifies this
      ensures Abs() == Step(old(Abs()), SocketConnected)
    {
      if socket != Opening {
        return;
      }
      socket := Open;
      reconnectAttempt := 0;
      delays := [];
      heartbeatTimer := true;
    }

    method OnDisconnected()
      modifies this
      ensures Abs() == Step(old(Abs()), SocketDisconnected)
    {
      if socket == Unconnected {
        return;
      }
      socket := Unconnected;
      heartbeatTimer := false;
      sessionId := "";
      if !intentionalDisconnect {
        ScheduleReconnect();
      } else {
        status := Disconnected;
      }
    }

    method ScheduleReconnect()
      modifies this`status, this`reconnectAttempt, this`reconnectTimer, this`delays
      ensures status == Reconnecting && reconnectTimer && reconnectAttempt == old(reconnectAttempt) + 1
      ensures delays == old(delays) + [CurrentBackoff(old(reconnectAttempt) + 1)]
    {
      status := Reconnecting;
      reconnectAttempt := reconnectAttempt + 1;
      var idx := reconnectAttempt - 1;
      if idx >= BACKOFF_STEPS {
        idx := BACKOFF_STEPS - 1;
      }
      delays := delays + [BackoffTable()[idx]];
      reconnectTimer := true;
    }

    method OnSessionOpened(id: string)
      modifies this
      ensures Abs() == Step(old(Abs()), SessionOpened(id))
    {
      if socket != Open {
        return;
      }
      status := Connected;
      sessionId := id;
    }

    method OnReconnectTick()
      modifies this
      ensures Abs() == Step(old(Abs()), ReconnectTick)
    {
      if reconnectTimer {
        reconnectTimer := false;
        DoConnectToServer();
      }
    }
  }

  // ---- after a deliberate disconnect ----

  ghost predicate Quiesced(s: State) { s.intentional && !s.reconnectTimer }

  lemma StepQuiesced(s: State, e: Event)
    ensures e.DisconnectFromServer? ==> Quiesced(Step(s, e)) && Step(s, e).opens == s.opens
    ensures Quiesced(s) && !e.ConnectToServer? ==> Quiesced(Step(s, e)) && Step(s, e).opens == s.opens
  {
  }

  /** After disconnectFromServer nothing opens the socket until connectToServer is called,
      whatever the socket, the server and the timers do in between. */
  lemma {:induction false} DisconnectIsFinal(es: seq<Event>, k: nat)
    requires k < |es| && es[k].DisconnectFromServer?
    requires forall j :: k < j < |es| ==> !es[j].ConnectToServer?
    ensures Run(es).opens == Run(es[..k]).opens && Quiesced(Run(es))
    decreases |es|
  {
    var init := es[..|es| - 1];
    StepQuiesced(Run(init), es[|es| - 1]);
    if k == |init| {
    } else {
      DisconnectIsFinal(init, k);
      assert init[..k] == es[..k];
    }
  }

  // ---- the session fields ----

  /** A non-empty session id means Connected, an open socket and a running heartbeat. */
  ghost predicate SessionOk(s: State) {
    s.sessionId != "" ==> s.status.Connected? && s.heartbeat && s.socket.Open?
  }

  ghost predicate HeartbeatOk(s: State) { s.socket.Open? ==> s.heartbeat }

  lemma StepSession(s: State, e: Event)
    requires SessionOk(s) && HeartbeatOk(s)
    ensures HeartbeatOk(Step(s, e))
    ensures SessionOk(Step(s, e)) <==> !(OpensSocket(s, e) && s.sessionId != "")
  {
  }

  lemma StepHeartbeat(s: State, e: Event)
    requires HeartbeatOk(s)
    ensures HeartbeatOk(Step(s, e))
  {
  }

  lemma {:induction false} RunHeartbeat(es: seq<Event>)
    ensures HeartbeatOk(Run(es))
    decreases |es|
  {
    if es == [] {
    } else {
      RunHeartbeat(es[..|es| - 1]);
      StepHeartbeat(Run(es[..|es| - 1]), es[|es| - 1]);
    }
  }

  /** Some event so far opened the socket while a session was in place: a second
      connectToServer, or a reconnect timer left running by a connectToServer that overtook it. */
  ghost predicate ReopensInSession(es: seq<Event>)
    decreases |es|
  {
    es != [] &&
      var init := es[..|es| - 1];
      ReopensInSession(init) || (OpensSocket(Run(init), es[|es| - 1]) && Run(init).sessionId != "")
  }

  /** The session fields are consistent after every event so far. */
  ghost predicate AlwaysSessionOk(es: seq<Event>)
    decreases |es|
  {
    SessionOk(Run(es)) && (es == [] || AlwaysSessionOk(es[..|es| - 1]))
  }

  /** The session fields are consistent throughout a run exactly when the socket is never
      reopened while a session is in place. */
  lemma {:induction false} SessionIff(es: seq<Event>)
    ensures AlwaysSessionOk(es) <==> !ReopensInSession(es)
    decreases |es|
  {
    if es == [] {
    } else {
      var init := es[..|es| - 1];
      SessionIff(init);
      RunHeartbeat(init);
      if SessionOk(Run(init)) {
        StepSession(Run(init), es[|es| - 1]);
      }
    }
  }

  lemma {:induction false} RunSnoc(es: seq<Event>, e: Event)
    ensures Run(es + [e]) == Step(Run(es), e)
  {
    assert (es + [e])[..|es|] == es;
  }

  /** A session that has just been opened, from a client that is connecting. */
  lemma {:induction false} OpensSession(es: seq<Event>, id: string)
    requires Run(es).socket.Opening?
    ensures Run(es + [SocketConnected] + [SessionOpened(id)])
         == Step(Run(es), SocketConnected).(status := Connected, sessionId := id)
  {
    RunSnoc(es, SocketConnected);
    RunSnoc(es + [SocketConnected], SessionOpened(id));
  }

  /** A second connectToServer in a session: the session id stays, the status does not. */
  lemma {:induction false} ReconnectKeepsSessionId(id: string)
    requires id != ""
    ensures var s := Run([ConnectToServer] + [SocketConnected] + [SessionOpened(id)] + [ConnectToServer]);
            s.sessionId == id && s.status.Connecting? && !SessionOk(s)
  {
    var a := [ConnectToServer];
    assert a == [] + [ConnectToServer];
    RunSnoc([], ConnectToServer);
    OpensSession(a, id);
    RunSnoc(a + [SocketConnected] + [SessionOpened(id)], ConnectToServer);
  }

  /** A connectToServer that overtakes the reconnect timer leaves it running: it reopens the
      socket in the new session. */
  lemma {:induction false} OvertakenTimerReopens(id: string)
    requires id != ""
    ensures var es := [ConnectToServer] + [SocketDisconnected] + [ConnectToServer];
            var s := Run(es + [SocketConnected] + [SessionOpened(id)] + [ReconnectTick]);
            s.sessionId == id && s.status.Connecting? && !SessionOk(s)
  {
    var a := [ConnectToServer];
    var b := a + [SocketDisconnected];
    var c := b + [ConnectToServer];
    assert a == [] + [ConnectToServer];
    RunSnoc([], ConnectToServer);
    RunSnoc(a, SocketDisconnected);
    RunSnoc(b, ConnectToServer);
    OpensSession(c, id);
    RunSnoc(c + [SocketConnected] + [SessionOpened(id)], ReconnectTick);
  }

  // ---- backoff ----

  function Sum(d: seq<nat>): nat {
    if d == [] then 0 else Sum(d[..|d| - 1]) + d[|d| - 1]
  }

  /** The delays scheduled since the socket last connected are the table, then its last value. */
  ghost predicate DelaysOk(s: State) {
    |s.delays| == s.attempt
    && forall i :: 0 <= i < |s.delays| ==> s.delays[i] == CurrentBackoff(i + 1)
  }

  lemma StepDelays(s: State, e: Event)
    requires DelaysOk(s)
    ensures DelaysOk(Step(s, e))
  {
  }

  lemma {:induction false} RunDelays(es: seq<Event>)
    ensures DelaysOk(Run(es))
    decreases |es|
  {
    if es == [] {
    } else {
      RunDelays(es[..|es| - 1]);
      StepDelays(Run(es[..|es| - 1]), es[|es| - 1]);
    }
  }

  lemma {:induction false} SumOfBackoff(d: seq<nat>)
    requires forall i :: 0 <= i < |d| ==> d[i] == CurrentBackoff(i + 1)
    ensures |d| == 6 ==> Sum(d) == 60000
    ensures |d| >= 6 ==> Sum(d) == 60000 + 30000 * (|d| - 6)
    ensures |d| < 6 ==> Sum(d) == [0, 1000, 3000, 7000, 15000, 30000][|d|]
    decreases |d|
  {
    if d == [] {
    } else {
      SumOfBackoff(d[..|d| - 1]);
    }
  }

  /** In every run: the delays since the last connection never shrink, and n >= 6 consecutive
      failures have waited 60000 + 30000(n - 6) ms in all. */
  lemma {:induction false} Backoff(es: seq<Event>)
    ensures var s := Run(es);
            && (forall i, j :: 0 <= i <= j < |s.delays| ==> s.delays[i] <= s.delays[j])
            && |s.delays| == s.attempt
            && (s.attempt >= 6 ==> Sum(s.delays) == 60000 + 30000 * (s.attempt - 6))
  {
    RunDelays(es);
    SumOfBackoff(Run(es).delays);
  }
}
