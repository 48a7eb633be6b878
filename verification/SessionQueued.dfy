/**
  The session when the VAD runs on a thread of its own: its signals wait in a queue and are
  delivered in order, each within a given delay. The under-breath filter again.
 */
module SessionQueued {
  import opened Common
  import opened Session
  import S = Session
  import Safety = SessionSafety
  import V = Vad

  /** A signal and the time it was emitted. */
  datatype Pending = Pending(signal: V.Signal, at: nat)

  /** The speechStarted that last armed the filter: when it was emitted, and the interval then
      in force. */
  datatype Arming = Arming(emitted: nat, interval: nat)

  datatype State = State(session: Session, waiting: seq<Pending>, armed: Option<Arming>)

  datatype Event =
    | Direct(e: S.Event)   // anything but VAD inferences and their signals
    | Chunk(prob: real)          // one inference on the VAD's thread
    | Deliver                    // the oldest waiting signal reaches the orchestrator

  function Init(cfg: Config): State { State(S.Init(cfg), [], None) }

  predicate OfVad(e: S.Event) { e.VadChunk? || e.LateSpeechStarted? || e.LateSpeechEnded? }

  /** No signal may wait longer than d milliseconds: time stops until it is delivered. */
  predicate Overdue(s: State, d: nat, time: nat) {
    s.waiting != [] && time > s.waiting[0].at + d
  }

  function Infer(cfg: Config, s: State, prob: real): State {
    var r := V.Step(cfg.silenceEndMs, s.session.vad, V.Observation(prob, s.session.threshold, s.session.now));
    s.(session := s.session.(vad := r.state),
       waiting := s.waiting + if r.signal.Some? then [Pending(r.signal.value, s.session.now)] else [])
  }

  function DeliverHead(cfg: Config, s: State): State
    requires s.waiting != []
  {
    var head := s.waiting[0];
    var rest := s.waiting[1..];
    if head.signal.Started? then
      State(S.Step(cfg, s.session, LateSpeechStarted), rest,
            if s.session.state.PlayingBack? then Some(Arming(head.at, s.session.bargeInMs)) else s.armed)
    else State(S.Step(cfg, s.session, LateSpeechEnded), rest, s.armed)
  }

  function Step(cfg: Config, d: nat, s: State, e: Event): State {
    match e
    case Direct(se) =>
      if OfVad(se) || (se.Advance? && Overdue(s, d, s.session.now + se.ms)) then s
      else s.(session := S.Step(cfg, s.session, se))
    case Chunk(prob) => Infer(cfg, s, prob)
    case Deliver => if s.waiting == [] then s else DeliverHead(cfg, s)
  }

  function Run(cfg: Config, d: nat, es: seq<Event>): State {
    if es == [] then Init(cfg) else Step(cfg, d, Run(cfg, d, es[..|es| - 1]), es[|es| - 1])
  }

  /** The next delivery ends speech in PlayingBack and stops a running filter timer. */
  predicate CancelsNext(s: State) {
    s.waiting != [] && s.waiting[0].signal.Ended? && s.session.state.PlayingBack? && s.session.bargeIn.Due?
  }

  // ---- the invariant ----

  /** Waiting signals are in order of emission and none is overdue. */
  ghost predicate InOrder(s: State, d: nat) {
    && (forall i :: 0 <= i < |s.waiting| ==> s.waiting[i].at <= s.session.now <= s.waiting[i].at + d)
    && (forall i, j :: 0 <= i < j < |s.waiting| ==> s.waiting[i].at <= s.waiting[j].at)
  }

  /** A speech end emitted, or a silence begun, after a speechStarted of the given time leaves
      room for the whole silence window. */
  ghost predicate SilentFrom(cfg: Config, vad: V.State, waiting: seq<Pending>, time: nat) {
    && (vad.Trailing? ==> time <= vad.since)
    && (forall j :: 0 <= j < |waiting| && waiting[j].signal.Ended? ==> waiting[j].at - time >= cfg.silenceEndMs)
  }

  ghost predicate WaitingOk(cfg: Config, vad: V.State, waiting: seq<Pending>) {
    forall i :: 0 <= i < |waiting| && waiting[i].signal.Started? ==>
      SilentFrom(cfg, vad, waiting[i + 1..], waiting[i].at)
  }

  ghost predicate ArmedOk(cfg: Config, s: State, d: nat) {
    && (s.armed.Some? ==>
          s.armed.value.emitted <= s.session.now
          && SilentFrom(cfg, s.session.vad, s.waiting, s.armed.value.emitted))
    && (s.session.bargeIn.Due? ==>
          s.armed.Some? && s.session.bargeIn.at <= s.armed.value.emitted + d + s.armed.value.interval)
  }

  ghost predicate Inv(cfg: Config, s: State, d: nat) {
    Safety.Sane(s.session) && InOrder(s, d) && WaitingOk(cfg, s.session.vad, s.waiting) && ArmedOk(cfg, s, d)
  }

  /** A session event that is not the VAD's leaves its machine alone or resets it, and never
      starts the filter. */
  lemma OtherStep(cfg: Config, s: Session, e: S.Event)
    requires Safety.Sane(s) && !OfVad(e)
    ensures var s' := S.Step(cfg, s, e);
            && (s'.vad == s.vad || s'.vad == V.Idle)
            && (s'.bargeIn == s.bargeIn || s'.bargeIn == Off)
            && s.now <= s'.now && (!e.Advance? ==> s'.now == s.now) && (e.Advance? ==> s'.now <= s.now + e.ms)
  {
  }

  lemma {:induction false} DirectKeeps(cfg: Config, d: nat, s: State, e: S.Event)
    requires Inv(cfg, s, d)
    ensures Inv(cfg, Step(cfg, d, s, Direct(e)), d)
  {
    if OfVad(e) || (e.Advance? && Overdue(s, d, s.session.now + e.ms)) {
    } else {
      Safety.StepSane(cfg, s.session, e);
      OtherStep(cfg, s.session, e);
    }
  }

  lemma SilentGrows(cfg: Config, vad: V.State, waiting: seq<Pending>, time: nat, o: V.Observation)
    requires SilentFrom(cfg, vad, waiting, time) && time <= o.at
    ensures var r := V.Step(cfg.silenceEndMs, vad, o);
            SilentFrom(cfg, r.state, waiting + (if r.signal.Some? then [Pending(r.signal.value, o.at)] else []), time)
  {
  }

  lemma {:induction false} WaitingGrows(cfg: Config, vad: V.State, waiting: seq<Pending>, o: V.Observation)
    requires WaitingOk(cfg, vad, waiting) && o.at >= 0
    requires forall i :: 0 <= i < |waiting| ==> waiting[i].at <= o.at
    ensures var r := V.Step(cfg.silenceEndMs, vad, o);
            WaitingOk(cfg, r.state, waiting + (if r.signal.Some? then [Pending(r.signal.value, o.at)] else []))
  {
    var r := V.Step(cfg.silenceEndMs, vad, o);
    var more := if r.signal.Some? then [Pending(r.signal.value, o.at)] else [];
    var w := waiting + more;
    forall i | 0 <= i < |w| && w[i].signal.Started? ensures SilentFrom(cfg, r.state, w[i + 1..], w[i].at) {
      if i < |waiting| {
        SilentGrows(cfg, vad, waiting[i + 1..], waiting[i].at, o);
        assert w[i + 1..] == waiting[i + 1..] + more;
      }
    }
  }

  lemma {:induction false} ChunkKeeps(cfg: Config, d: nat, s: State, prob: real)
    requires Inv(cfg, s, d)
    ensures Inv(cfg, Infer(cfg, s, prob), d)
  {
    var o := V.Observation(prob, s.session.threshold, s.session.now);
    WaitingGrows(cfg, s.session.vad, s.waiting, o);
    if s.armed.Some? {
      SilentGrows(cfg, s.session.vad, s.waiting, s.armed.value.emitted, o);
    }
  }

  lemma DeliveredSession(cfg: Config, s: Session)
    requires Safety.Sane(s)
    ensures var a := S.Step(cfg, s, LateSpeechStarted);
            a == s.(bargeIn := if s.state.PlayingBack? then Due(s.now + s.bargeInMs) else s.bargeIn)
    ensures var b := S.Step(cfg, s, LateSpeechEnded);
            b.vad == s.vad && b.now == s.now && (b.bargeIn == s.bargeIn || b.bargeIn == Off)
  {
  }

  lemma WaitingShrinks(cfg: Config, vad: V.State, waiting: seq<Pending>)
    requires WaitingOk(cfg, vad, waiting) && waiting != []
    ensures WaitingOk(cfg, vad, waiting[1..])
  {
    forall i | 0 <= i < |waiting[1..]| && waiting[1..][i].signal.Started?
      ensures SilentFrom(cfg, vad, waiting[1..][i + 1..], waiting[1..][i].at)
    {
      assert waiting[1..][i] == waiting[i + 1] && waiting[1..][i + 1..] == waiting[i + 2..];
    }
  }

  lemma {:induction false} DeliverKeeps(cfg: Config, d: nat, s: State)
    requires Inv(cfg, s, d) && s.waiting != []
    ensures Inv(cfg, DeliverHead(cfg, s), d)
  {
    Safety.StepSane(cfg, s.session, LateSpeechStarted);
    Safety.StepSane(cfg, s.session, LateSpeechEnded);
    DeliveredSession(cfg, s.session);
    WaitingShrinks(cfg, s.session.vad, s.waiting);
  }

  lemma {:induction false} RunKeeps(cfg: Config, d: nat, es: seq<Event>)
    ensures Inv(cfg, Run(cfg, d, es), d)
    decreases |es|
  {
    if es == [] {
    } else {
      var s := Run(cfg, d, es[..|es| - 1]);
      RunKeeps(cfg, d, es[..|es| - 1]);
      match es[|es| - 1]
      case Direct(e) => DirectKeeps(cfg, d, s, e);
      case Chunk(prob) => ChunkKeeps(cfg, d, s, prob);
      case Deliver =>
        if s.waiting != [] {
          DeliverKeeps(cfg, d, s);
        }
    }
  }

  /** In every run in which signals are delivered within d milliseconds: a speech end about to
      cancel a running filter comes from a silence window of at most the interval the filter was
      armed with, plus d. */
  lemma {:induction false} DelayedCancelBound(cfg: Config, d: nat, es: seq<Event>)
    requires CancelsNext(Run(cfg, d, es))
    ensures var s := Run(cfg, d, es);
            s.armed.Some? && cfg.silenceEndMs <= s.armed.value.interval + d
  {
    RunKeeps(cfg, d, es);
    var s := Run(cfg, d, es);
    assert s.waiting[0].at - s.armed.value.emitted >= cfg.silenceEndMs;
  }

  // ---- the bound is exact ----

  lemma {:induction false} RunSnoc(cfg: Config, d: nat, es: seq<Event>, e: Event)
    ensures Run(cfg, d, es + [e]) == Step(cfg, d, Run(cfg, d, es), e)
  {
    assert (es + [e])[..|es|] == es;
  }

  /** Playing back since time 0, with a silence begun at time 0. */
  predicate Coughing(s: Session, m: nat, time: nat, filter: Timer) {
    s.now == time && s.state.PlayingBack? && s.speaking && s.silence == Due(time + PLAYBACK_SILENCE_MS)
    && s.streaming == Off && s.bargeIn == filter && s.bargeInMs == m && s.vad == V.Trailing(0)
    && s.threshold == BARGE_IN_THRESHOLD
  }

  /** A cough at the start of a reply whose speechStarted is still waiting. */
  function Cough(m: nat): seq<Event> {
    [Direct(SetBargeInInterval(m)), Direct(StartListening), Direct(PcmFrame), Chunk(1.0), Chunk(0.0)]
  }

  lemma {:induction false} Listens(cfg: Config, d: nat, m: nat)
    ensures Run(cfg, d, [Direct(SetBargeInInterval(m))] + [Direct(StartListening)])
         == State(S.Init(cfg).(state := AwaitingWake, bargeInMs := m), [], None)
  {
    IntervalSet(cfg, d, m);
    RunSnoc(cfg, d, [Direct(SetBargeInInterval(m))], Direct(StartListening));
  }

  lemma {:induction false} IntervalSet(cfg: Config, d: nat, m: nat)
    ensures Run(cfg, d, [Direct(SetBargeInInterval(m))]) == State(S.Init(cfg).(bargeInMs := m), [], None)
  {
    var e := Direct(SetBargeInInterval(m));
    RunSnoc(cfg, d, [], e);
    assert [e] == [] + [e];
  }

  lemma {:induction false} ReplyBegins(cfg: Config, d: nat, m: nat)
    ensures var s := Run(cfg, d, Cough(m)[..3]);
            && s.session == S.Init(cfg).(state := PlayingBack, bargeInMs := m, speaking := true,
                                         threshold := BARGE_IN_THRESHOLD, silence := Due(PLAYBACK_SILENCE_MS))
            && s.waiting == []
  {
    var two := [Direct(SetBargeInInterval(m))] + [Direct(StartListening)];
    Listens(cfg, d, m);
    RunSnoc(cfg, d, two, Direct(PcmFrame));
    assert two + [Direct(PcmFrame)] == Cough(m)[..3];
  }

  lemma {:induction false} Coughed(cfg: Config, d: nat, m: nat)
    ensures var s := Run(cfg, d, Cough(m));
            Coughing(s.session, m, 0, Off) && s.waiting == [Pending(V.Started, 0)]
  {
    var three := Cough(m)[..3];
    ReplyBegins(cfg, d, m);
    RunSnoc(cfg, d, three, Chunk(1.0));
    RunSnoc(cfg, d, three + [Chunk(1.0)], Chunk(0.0));
    assert three + [Chunk(1.0)] + [Chunk(0.0)] == Cough(m);
    SoundThenSilence(cfg, Run(cfg, d, three), m);
  }

  lemma SoundThenSilence(cfg: Config, s: State, m: nat)
    requires s.session.now == 0 && s.session.state.PlayingBack? && s.session.speaking && s.session.bargeInMs == m
    requires s.session.silence == Due(PLAYBACK_SILENCE_MS) && s.session.streaming == s.session.bargeIn == Off
    requires s.session.vad == V.Idle && s.session.threshold == BARGE_IN_THRESHOLD && s.waiting == []
    ensures var t := Infer(cfg, Infer(cfg, s, 1.0), 0.0);
            Coughing(t.session, m, 0, Off) && t.waiting == [Pending(V.Started, 0)]
  {
  }

  /** n milliseconds of playback. */
  function KeepPlaying(n: nat): seq<Event> {
    if n == 0 then [] else KeepPlaying(n - 1) + [Direct(Advance(1))] + [Direct(PcmFrame)]
  }

  /** From s to t nothing happened but playback, up to the given time. */
  predicate PlayedOn(s: State, t: State, m: nat, time: nat) {
    t == s.(session := t.session) && Coughing(t.session, m, time, s.session.bargeIn)
  }

  lemma OneMillisecond(cfg: Config, d: nat, s: State, m: nat, time: nat)
    requires PlayedOn(s, s, m, time) && s.session.bargeIn.Allows(time + 1) && !Overdue(s, d, time + 1)
    ensures PlayedOn(s, Step(cfg, d, Step(cfg, d, s, Direct(Advance(1))), Direct(PcmFrame)), m, time + 1)
  {
  }

  lemma {:induction false} PlaysStep(cfg: Config, d: nat, s: State, es: seq<Event>, m: nat, time: nat)
    requires PlayedOn(s, Run(cfg, d, es), m, time)
    requires s.session.bargeIn.Allows(time + 1) && !Overdue(s, d, time + 1)
    ensures PlayedOn(s, Run(cfg, d, es + [Direct(Advance(1))] + [Direct(PcmFrame)]), m, time + 1)
  {
    RunSnoc(cfg, d, es, Direct(Advance(1)));
    RunSnoc(cfg, d, es + [Direct(Advance(1))], Direct(PcmFrame));
    OneMillisecond(cfg, d, Run(cfg, d, es), m, time);
  }

  lemma PlayingSplits(es: seq<Event>, n: nat)
    requires n > 0
    ensures es + KeepPlaying(n) == es + KeepPlaying(n - 1) + [Direct(Advance(1))] + [Direct(PcmFrame)]
  {
  }

  lemma {:induction false} Plays(cfg: Config, d: nat, s: State, es: seq<Event>, m: nat, time: nat, n: nat)
    requires s == Run(cfg, d, es) && PlayedOn(s, s, m, time)
    requires s.session.bargeIn.Allows(time + n) && !Overdue(s, d, time + n)
    ensures PlayedOn(s, Run(cfg, d, es + KeepPlaying(n)), m, time + n)
    decreases n
  {
    if n == 0 {
      assert es + [] == es;
    } else {
      Plays(cfg, d, s, es, m, time, n - 1);
      PlaysStep(cfg, d, s, es + KeepPlaying(n - 1), m, time + n - 1);
      PlayingSplits(es, n);
    }
  }

  lemma DelayedArming(cfg: Config, s: State, m: nat, d: nat)
    requires Coughing(s.session, m, d, Off) && s.waiting == [Pending(V.Started, 0)]
    ensures var t := DeliverHead(cfg, s);
            Coughing(t.session, m, d, Due(d + m)) && t.waiting == [] && t.armed == Some(Arming(0, m))
  {
  }

  lemma LateSilence(cfg: Config, s: State, m: nat, time: nat, filter: nat)
    requires Coughing(s.session, m, time, Due(filter)) && s.waiting == [] && cfg.silenceEndMs <= time
    ensures CancelsNext(Infer(cfg, s, 0.0)) && Infer(cfg, s, 0.0).armed == s.armed
  {
  }

  ghost predicate CancelsWithin(cfg: Config, d: nat, es: seq<Event>, m: nat) {
    var s := Run(cfg, d, es);
    CancelsNext(s) && s.armed.Some? && s.armed.value.interval <= m
  }

  lemma {:induction false} ArmsLate(cfg: Config, d: nat, m: nat)
    ensures var s := Run(cfg, d, Cough(m) + KeepPlaying(d) + [Deliver]);
            PlayedOn(s, s, m, d) && s.session.bargeIn == Due(d + m) && s.waiting == [] && s.armed == Some(Arming(0, m))
  {
    var held := Cough(m) + KeepPlaying(d);
    Coughed(cfg, d, m);
    Plays(cfg, d, Run(cfg, d, Cough(m)), Cough(m), m, 0, d);
    RunSnoc(cfg, d, held, Deliver);
    DelayedArming(cfg, Run(cfg, d, held), m, d);
  }

  lemma {:induction false} DelayedCough(cfg: Config, d: nat, m: nat, time: nat)
    requires cfg.silenceEndMs <= time && d <= time <= m + d
    ensures exists es :: CancelsWithin(cfg, d, es, m)
  {
    var armed := Cough(m) + KeepPlaying(d) + [Deliver];
    var silent := armed + KeepPlaying(time - d);
    ArmsLate(cfg, d, m);
    Plays(cfg, d, Run(cfg, d, armed), armed, m, d, time - d);
    RunSnoc(cfg, d, silent, Chunk(0.0));
    LateSilence(cfg, Run(cfg, d, silent), m, time, d + m);
    assert CancelsWithin(cfg, d, silent + [Chunk(0.0)], m);
  }

  /** For every interval m and every delay d: with signals delivered within d milliseconds, a
      filter armed with an interval of at most m can be cancelled if and only if the VAD's silence
      window is no longer than m + d. With the defaults (800 and 400) that takes a delay of 400. */
  lemma {:induction false} DelayedFilterIff(cfg: Config, d: nat, m: nat)
    ensures (exists es :: CancelsWithin(cfg, d, es, m)) <==> cfg.silenceEndMs <= m + d
  {
    forall es | CancelsWithin(cfg, d, es, m) ensures cfg.silenceEndMs <= m + d {
      DelayedCancelBound(cfg, d, es);
    }
    if cfg.silenceEndMs <= m + d {
      DelayedCough(cfg, d, m, if cfg.silenceEndMs <= d then d else cfg.silenceEndMs);
    }
  }
}
