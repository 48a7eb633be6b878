/** The published connection state read off the events: what is wanted, lost and retried. */
module WebSocketEvents {
  import opened Common
  import opened WebSocket

  /** The state after the first k events. */
  function At(es: seq<Event>, k: nat): State
    requires k <= |es|
  {
    if k == 0 then Init() else Step(At(es, k - 1), es[k - 1])
  }

  lemma {:induction false} AtIsRun(es: seq<Event>, k: nat)
    requires k <= |es|
    ensures At(es, k) == Run(es[..k])
    decreases k
  {
    if k == 0 {
    } else {
      AtIsRun(es, k - 1);
      assert es[..k][..k - 1] == es[..k - 1];
    }
  }

  /** Event i opened the socket. */
  predicate OpensAt(es: seq<Event>, i: int) {
    0 <= i < |es| && At(es, i + 1).opens > At(es, i).opens
  }

  predicate DisconnectsAt(es: seq<Event>, j: int) { 0 <= j < |es| && es[j].DisconnectFromServer? }

  /** The socket was opened and not deliberately closed since. */
  ghost predicate Wanted(es: seq<Event>, k: int) {
    Since(i => OpensAt(es, i), j => DisconnectsAt(es, j), k)
  }

  /** Event j is the end of an opening, open or closing socket. */
  predicate DropsAt(es: seq<Event>, j: int) {
    0 <= j < |es| && es[j].SocketDisconnected? && !At(es, j).socket.Unconnected?
  }

  /** Event j is the end of a socket that was still wanted. */
  ghost predicate LostAt(es: seq<Event>, j: int) { DropsAt(es, j) && Wanted(es, j) }

  predicate ConnectsAt(es: seq<Event>, j: int) {
    0 <= j < |es| && es[j].SocketConnected? && At(es, j).socket.Opening?
  }

  // ---- wanted ----

  /** While the socket is not wanted it is neither open nor opening, and nothing is scheduled. */
  ghost predicate WantedMeans(es: seq<Event>, k: int)
    requires 0 <= k <= |es|
  {
    var s := At(es, k);
    && (Wanted(es, k) <==> s.opens > 0 && !s.intentional)
    && (s.opens == 0 ==> s.socket.Unconnected? && !s.reconnectTimer && s.status.Disconnected?)
    && (!Wanted(es, k) ==> !s.reconnectTimer && !s.socket.Open? && !s.socket.Opening?)
  }

  lemma {:induction false} WantedStep(es: seq<Event>, n: nat)
    requires n < |es|
    ensures Wanted(es, n + 1) <==> OpensAt(es, n) || (Wanted(es, n) && !DisconnectsAt(es, n))
  {
    SinceStep(i => OpensAt(es, i), j => DisconnectsAt(es, j), n);
  }

  lemma {:induction false} WantedIs(es: seq<Event>, k: nat)
    requires k <= |es|
    ensures WantedMeans(es, k)
    decreases k
  {
    if k == 0 {
    } else {
      WantedIs(es, k - 1);
      WantedStep(es, k - 1);
    }
  }

  // ---- a lost connection is retried ----

  /** In every run: when an opening, open or closing socket ends, a reconnect is scheduled, the
      status says so and the timer runs, exactly when the socket was opened and not deliberately
      closed since; the timer then opens it again. Otherwise nothing is scheduled. */
  lemma {:induction false} ReconnectIff(es: seq<Event>)
    requires !Run(es).socket.Unconnected?
    ensures var s, t := Run(es), Run(es + [SocketDisconnected]);
            && (t.reconnectTimer && t.status.Reconnecting? && |t.delays| == |s.delays| + 1 <==> Wanted(es, |es|))
            && (!Wanted(es, |es|) ==> !t.reconnectTimer && t.status.Disconnected? && t.delays == s.delays)
    ensures Wanted(es, |es|) ==>
              var t := Run(es + [SocketDisconnected] + [ReconnectTick]);
              t.socket.Opening? && t.opens == Run(es).opens + 1 && !t.reconnectTimer
  {
    assert es[..|es|] == es;
    AtIsRun(es, |es|);
    WantedIs(es, |es|);
    RunSnoc(es, SocketDisconnected);
    RunSnoc(es + [SocketDisconnected], ReconnectTick);
  }

  predicate RetiresTimer(es: seq<Event>, j: int) {
    0 <= j < |es| && (es[j].ReconnectTick? || es[j].DisconnectFromServer?)
  }

  ghost predicate RetryDue(es: seq<Event>, k: int) {
    Since(i => LostAt(es, i), j => RetiresTimer(es, j), k)
  }

  lemma {:induction false} RetryStep(es: seq<Event>, n: nat)
    requires n < |es|
    ensures RetryDue(es, n + 1) <==> LostAt(es, n) || (RetryDue(es, n) && !RetiresTimer(es, n))
  {
    SinceStep(i => LostAt(es, i), j => RetiresTimer(es, j), n);
  }

  /** In every run the reconnect timer runs exactly when a wanted socket was lost, and since then
      the timer has not fired and nobody has disconnected. */
  lemma {:induction false} TimerIff(es: seq<Event>, k: nat)
    requires k <= |es|
    ensures At(es, k).reconnectTimer <==> RetryDue(es, k)
    decreases k
  {
    if k == 0 {
    } else {
      TimerIff(es, k - 1);
      WantedIs(es, k - 1);
      RetryStep(es, k - 1);
    }
  }

  // ---- the delay ----

  /** How many wanted sockets were lost by events i..k. */
  ghost function Losses(es: seq<Event>, i: nat, k: nat): nat
    decreases k
  {
    if k <= i then 0 else Losses(es, i, k - 1) + if LostAt(es, k - 1) then 1 else 0
  }

  /** The socket has not connected since event i, which is the start or follows a connection. */
  ghost predicate UnconnectedSince(es: seq<Event>, i: int, k: int) {
    0 <= i <= k <= |es| && (i == 0 || ConnectsAt(es, i - 1)) && forall j :: i <= j < k ==> !ConnectsAt(es, j)
  }

  lemma StepAttempts(s: State, e: Event)
    requires s.attempt == |s.delays|
    ensures var s' := Step(s, e);
            var lost := e.SocketDisconnected? && !s.socket.Unconnected? && !s.intentional;
            s'.attempt == |s'.delays|
            == if e.SocketConnected? && s.socket.Opening? then 0 else s.attempt + if lost then 1 else 0
  {
  }

  lemma {:induction false} AttemptsAre(es: seq<Event>, i: nat, k: nat)
    requires UnconnectedSince(es, i, k)
    ensures At(es, k).attempt == |At(es, k).delays| == Losses(es, i, k)
    decreases k
  {
    if k == 0 {
    } else {
      if i == k {
        assert ConnectsAt(es, k - 1);
      } else {
        assert !ConnectsAt(es, k - 1);
        WantedIs(es, k - 1);
        AttemptsAre(es, i, k - 1);
        StepAttempts(At(es, k - 1), es[k - 1]);
      }
    }
  }

  /** In every run the n-th loss in a row without a connection between is retried after 1, 2, 4,
      8, 15 and from the sixth on 30 seconds. */
  lemma {:induction false} DelayIs(es: seq<Event>, i: nat, k: nat)
    requires k < |es| && LostAt(es, k) && UnconnectedSince(es, i, k)
    ensures var delays := At(es, k + 1).delays;
            var n := Losses(es, i, k + 1);
            && |delays| == n > 0
            && delays[n - 1] == if n <= 6 then [1000, 2000, 4000, 8000, 15000, 30000][n - 1] else 30000
  {
    AttemptsAre(es, i, k);
    WantedIs(es, k);
  }

  // ---- what is published ----

  predicate OpensSessionAt(es: seq<Event>, i: int) {
    0 <= i < |es| && es[i].SessionOpened? && At(es, i).socket.Open?
  }

  ghost predicate EndsSessionAt(es: seq<Event>, j: int) {
    OpensAt(es, j) || DisconnectsAt(es, j) || DropsAt(es, j)
  }

  /** A session was opened on an open socket, which has not been reopened, closed or lost since. */
  ghost predicate InSession(es: seq<Event>, k: int) {
    Since(i => OpensSessionAt(es, i), j => EndsSessionAt(es, j), k)
  }

  lemma {:induction false} SessionStep(es: seq<Event>, n: nat)
    requires n < |es|
    ensures InSession(es, n + 1) <==> OpensSessionAt(es, n) || (InSession(es, n) && !EndsSessionAt(es, n))
  {
    SinceStep(i => OpensSessionAt(es, i), j => EndsSessionAt(es, j), n);
  }

  ghost predicate StatusMeans(es: seq<Event>, k: int)
    requires 0 <= k <= |es|
  {
    var s := At(es, k);
    && (s.status.Disconnected? <==> !Wanted(es, k))
    && (s.status.Reconnecting? <==> Wanted(es, k) && s.socket.Unconnected?)
    && (s.status.Connected? <==> InSession(es, k))
    && (s.status.Connected? ==> s.socket.Open?)
    && (Wanted(es, k) ==> !s.socket.Closing?)
  }

  lemma {:induction false} StepStatus(es: seq<Event>, n: nat)
    requires n < |es| && StatusMeans(es, n) && WantedMeans(es, n) && WantedMeans(es, n + 1)
    ensures StatusMeans(es, n + 1)
  {
    SessionStep(es, n);
  }

  /** In every run: the status is Disconnected exactly while the socket is not wanted,
      Reconnecting while it is wanted and lost, Connected while a session is in place, and
      Connecting otherwise. */
  lemma {:induction false} StatusIff(es: seq<Event>, k: nat)
    requires k <= |es|
    ensures StatusMeans(es, k)
    decreases k
  {
    WantedIs(es, k);
    if k == 0 {
    } else {
      StatusIff(es, k - 1);
      WantedIs(es, k - 1);
      StepStatus(es, k - 1);
    }
  }

  /** Event i opened the session that is in place before event k. */
  ghost predicate SessionFrom(es: seq<Event>, i: int, k: int) {
    0 <= i < k <= |es| && OpensSessionAt(es, i)
    && forall j :: i < j < k ==> !EndsSessionAt(es, j) && !OpensSessionAt(es, j)
  }

  /** While a session is in place its id is published. */
  lemma {:induction false} SessionIdIs(es: seq<Event>, i: nat, k: nat)
    requires SessionFrom(es, i, k)
    ensures At(es, k).sessionId == es[i].id
    decreases k
  {
    if i == k - 1 {
    } else {
      assert !EndsSessionAt(es, k - 1) && !OpensSessionAt(es, k - 1);
      assert !OpensAt(es, k - 1) && !DisconnectsAt(es, k - 1) && !DropsAt(es, k - 1);
      SessionIdIs(es, i, k - 1);
    }
  }

  // ---- the heartbeat ----

  ghost predicate StopsHeartbeat(es: seq<Event>, j: int) { DropsAt(es, j) || DisconnectsAt(es, j) }

  /** In every run the heartbeat runs exactly when a socket has connected and neither ended nor
      been deliberately closed since. */
  lemma {:induction false} HeartbeatIff(es: seq<Event>, k: nat)
    requires k <= |es|
    ensures At(es, k).heartbeat <==> Since(i => ConnectsAt(es, i), j => StopsHeartbeat(es, j), k)
    decreases k
  {
    if k == 0 {
    } else {
      HeartbeatIff(es, k - 1);
      SinceStep(i => ConnectsAt(es, i), j => StopsHeartbeat(es, j), k - 1);
    }
  }
}
