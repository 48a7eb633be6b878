/**
  When a barge-in is sent, and whether the under-breath filter can ever cancel one.
 */
module SessionTiming {
  import opened Common
  import opened Session
  import Safety = SessionSafety
  import V = Vad

  /** The signal the VAD emits when it runs a chunk of the given probability. */
  function ChunkSignal(cfg: Config, s: Session, prob: real): Option<V.Signal> {
    V.Step(cfg.silenceEndMs, s.vad, V.Observation(prob, s.threshold, s.now)).signal
  }

  predicate DeliversStart(cfg: Config, s: Session, e: Event) {
    e.LateSpeechStarted? || (e.VadChunk? && ChunkSignal(cfg, s, e.prob) == Some(V.Started))
  }

  predicate DeliversEnd(cfg: Config, s: Session, e: Event) {
    e.LateSpeechEnded? || (e.VadChunk? && ChunkSignal(cfg, s, e.prob) == Some(V.Ended))
  }

  predicate EndsTts(s: Session, e: Event) {
    s.speaking && (e.InboundEnd? || (e.SilenceTimeout? && s.silence.Fires(s.now)))
  }

  /** Event i delivers speechStarted while playing back. */
  predicate Arms(cfg: Config, es: seq<Event>, i: int) {
    0 <= i < |es| && Run(cfg, es[..i]).state.PlayingBack? && DeliversStart(cfg, Run(cfg, es[..i]), es[i])
  }

  /** When a filter armed by event i runs out. */
  function Deadline(cfg: Config, es: seq<Event>, i: int): nat
    requires 0 <= i < |es|
  {
    Run(cfg, es[..i]).now + Run(cfg, es[..i]).bargeInMs
  }

  /** The event restarts or cancels a filter that is due at the given time, or is its timeout. */
  predicate Touches(cfg: Config, s: Session, e: Event, due: nat) {
    (s.state.PlayingBack? && (DeliversStart(cfg, s, e) || DeliversEnd(cfg, s, e) || EndsTts(s, e)))
    || (e.BargeInTimeout? && due <= s.now)
  }

  /** Event i armed the filter, and nothing after it and before event k touched it. Teardowns
      may lie between: they do not touch the filter. */
  ghost predicate ArmedBy(cfg: Config, es: seq<Event>, i: int, k: int) {
    Arms(cfg, es, i) && Untouched(cfg, es, i, k)
  }

  ghost predicate Untouched(cfg: Config, es: seq<Event>, i: int, k: int)
    requires 0 <= i < |es|
  {
    i < k <= |es| && forall j :: i < j < k ==> !TouchedAt(cfg, es, j, Deadline(cfg, es, i))
  }

  predicate TouchedAt(cfg: Config, es: seq<Event>, j: int, due: nat) {
    0 <= j < |es| && Touches(cfg, Run(cfg, es[..j]), es[j], due)
  }

  lemma {:induction false} ArmedByPrefix(cfg: Config, es: seq<Event>, n: nat, i: int, k: int)
    requires k <= n <= |es|
    ensures ArmedBy(cfg, es[..n], i, k) <==> ArmedBy(cfg, es, i, k)
    ensures 0 <= i < n ==> Deadline(cfg, es[..n], i) == Deadline(cfg, es, i)
  {
    var p := es[..n];
    if 0 <= i < n {
      assert p[..i] == es[..i] && p[i] == es[i];
      var due := Deadline(cfg, es, i);
      forall j | i < j < k ensures TouchedAt(cfg, p, j, due) <==> TouchedAt(cfg, es, j, due) {
        assert p[..j] == es[..j] && p[j] == es[j];
      }
      assert Deadline(cfg, p, i) == due;
      if Untouched(cfg, p, i, k) {
        forall j | i < j < k ensures !TouchedAt(cfg, es, j, due) {
          assert !TouchedAt(cfg, p, j, due);
        }
      }
      if Untouched(cfg, es, i, k) {
        forall j | i < j < k ensures !TouchedAt(cfg, p, j, due) {
          assert !TouchedAt(cfg, es, j, due);
        }
      }
    }
  }

  lemma ArmedExtends(cfg: Config, es: seq<Event>, i: int, k: nat)
    requires k < |es| && ArmedBy(cfg, es, i, k) && !TouchedAt(cfg, es, k, Deadline(cfg, es, i))
    ensures ArmedBy(cfg, es, i, k + 1)
  {
  }

  /** What a step does to the filter timer: arms it, leaves it, or stops it. */
  lemma StepTimer(cfg: Config, s: Session, e: Event)
    requires Safety.Sane(s)
    ensures var s' := Step(cfg, s, e);
            s'.bargeIn ==
              if s.state.PlayingBack? && DeliversStart(cfg, s, e) then Due(s.now + s.bargeInMs)
              else if s.bargeIn.Due? && Touches(cfg, s, e, s.bargeIn.at) then Off
              else s.bargeIn
  {
  }

  /** In every run, a running filter was armed by an event untouched since, and has that
      event's deadline. */
  lemma {:induction false} TimerWasArmed(cfg: Config, es: seq<Event>)
    ensures Run(cfg, es).bargeIn.Due? ==>
              exists i :: ArmedBy(cfg, es, i, |es|) && Run(cfg, es).bargeIn.at == Deadline(cfg, es, i)
    decreases |es|
  {
    if es == [] {
    } else {
      var n := |es| - 1;
      var s := Run(cfg, es[..n]);
      TimerWasArmed(cfg, es[..n]);
      Safety.RunSane(cfg, es[..n]);
      StepTimer(cfg, s, es[n]);
      if s.state.PlayingBack? && DeliversStart(cfg, s, es[n]) {
        assert ArmedBy(cfg, es, n, |es|);
      } else if Run(cfg, es).bargeIn.Due? {
        var i :| ArmedBy(cfg, es[..n], i, n) && s.bargeIn.at == Deadline(cfg, es[..n], i);
        ArmedByPrefix(cfg, es, n, i, n);
        ArmedExtends(cfg, es, i, n);
      }
    }
  }

  /** Conversely, in every run, an armed and untouched filter is running with that deadline. */
  lemma {:induction false} ArmedRuns(cfg: Config, es: seq<Event>, i: int, k: nat)
    requires k <= |es| && ArmedBy(cfg, es, i, k)
    ensures Run(cfg, es[..k]).bargeIn == Due(Deadline(cfg, es, i))
    decreases k
  {
    var n := k - 1;
    RunPrefix(cfg, es, n);
    Safety.RunSane(cfg, es[..n]);
    StepTimer(cfg, Run(cfg, es[..n]), es[n]);
    if i == n {
    } else {
      assert !TouchedAt(cfg, es, n, Deadline(cfg, es, i));
      ArmedRuns(cfg, es, i, n);
    }
  }

  /** Event k puts a BargeIn on the wire. */
  predicate SendsBargeIn(cfg: Config, es: seq<Event>, k: int) {
    0 <= k < |es|
    && var before := Run(cfg, es[..k]).sent;
       var after := Run(cfg, es[..k + 1]).sent;
       |after| > |before| && after[|before|].BargeIn?
  }

  lemma StepBargeIn(cfg: Config, s: Session, e: Event)
    ensures var s' := Step(cfg, s, e);
            (|s'.sent| > |s.sent| && s'.sent[|s.sent|].BargeIn?)
            <==> (e.BargeInTimeout? && s.state.PlayingBack? && s.bargeIn.Fires(s.now))
  {
  }

  /** In every run, teardowns included, a BargeIn is sent exactly by a timeout event in
      PlayingBack at which the interval that was in force at an arming event, untouched since,
      has just run out. VAD signals may be queued: they are arbitrary events here. */
  lemma {:induction false} BargeInTiming(cfg: Config, es: seq<Event>, k: nat)
    requires k < |es|
    ensures SendsBargeIn(cfg, es, k)
       <==> es[k].BargeInTimeout? && Run(cfg, es[..k]).state.PlayingBack?
            && exists i :: ArmedBy(cfg, es, i, k) && Run(cfg, es[..k]).now == Deadline(cfg, es, i)
  {
    RunPrefix(cfg, es, k);
    StepBargeIn(cfg, Run(cfg, es[..k]), es[k]);
    FiresIff(cfg, es, k);
  }

  /** The filter timer fires exactly when an armed and untouched deadline has just come. */
  lemma {:induction false} FiresIff(cfg: Config, es: seq<Event>, k: nat)
    requires k < |es|
    ensures Run(cfg, es[..k]).bargeIn.Fires(Run(cfg, es[..k]).now)
       <==> exists i :: ArmedBy(cfg, es, i, k) && Run(cfg, es[..k]).now == Deadline(cfg, es, i)
  {
    var s := Run(cfg, es[..k]);
    Safety.RunSane(cfg, es[..k]);
    TimerWasArmed(cfg, es[..k]);
    if s.bargeIn.Due? {
      var i :| ArmedBy(cfg, es[..k], i, k) && s.bargeIn.at == Deadline(cfg, es[..k], i);
      ArmedByPrefix(cfg, es, k, i, k);
    }
    forall i | ArmedBy(cfg, es, i, k) ensures s.bargeIn == Due(Deadline(cfg, es, i)) {
      ArmedRuns(cfg, es, i, k);
    }
  }

  /** The plain timing rule: playing back from the arming event on, with no further
      speechStarted, no speechEnded and no TTS end. */
  ghost predicate Undisturbed(cfg: Config, es: seq<Event>, i: int, k: int) {
    0 <= i < k <= |es|
    && (forall j :: i < j < k ==> PlayingAt(cfg, es, j) && CalmAt(cfg, es, j))
    && PlayingAt(cfg, es, k)
  }

  predicate PlayingAt(cfg: Config, es: seq<Event>, j: int) {
    0 <= j <= |es| && Run(cfg, es[..j]).state.PlayingBack?
  }

  predicate CalmAt(cfg: Config, es: seq<Event>, j: int) {
    0 <= j < |es|
    && var s := Run(cfg, es[..j]);
       !DeliversStart(cfg, s, es[j]) && !DeliversEnd(cfg, s, es[j]) && !EndsTts(s, es[j])
  }

  ghost predicate NoTeardownBetween(es: seq<Event>, i: int, k: int) {
    0 <= i < k <= |es| && forall j :: i < j < k ==> !Teardown(es[j])
  }

  /** Only a teardown, a TTS end or the filter's timeout leaves PlayingBack. */
  lemma StepPlaying(cfg: Config, s: Session, e: Event)
    requires Safety.Sane(s) && s.state.PlayingBack?
    ensures Step(cfg, s, e).state.PlayingBack?
       <==> !Teardown(e) && !EndsTts(s, e) && !(e.BargeInTimeout? && s.bargeIn.Fires(s.now))
  {
  }

  lemma {:induction false} PlaysOn(cfg: Config, es: seq<Event>, i: int, k: nat)
    requires k <= |es| && ArmedBy(cfg, es, i, k) && NoTeardownBetween(es, i, k)
    ensures Undisturbed(cfg, es, i, k)
    decreases k
  {
    if k == i + 1 {
      ArmingPlaysOn(cfg, es, i);
    } else {
      ArmedBefore(cfg, es, i, k - 1);
      PlaysOn(cfg, es, i, k - 1);
      PlaysOnStep(cfg, es, i, k - 1);
      assert Undisturbed(cfg, es, i, k);
    }
  }

  lemma {:induction false} PlaysOnStep(cfg: Config, es: seq<Event>, i: int, k: nat)
    requires k < |es| && ArmedBy(cfg, es, i, k) && Undisturbed(cfg, es, i, k)
    requires !TouchedAt(cfg, es, k, Deadline(cfg, es, i)) && !Teardown(es[k])
    ensures Undisturbed(cfg, es, i, k + 1)
  {
    ArmedRuns(cfg, es, i, k);
    UntouchedPlaysOn(cfg, es, k, Deadline(cfg, es, i));
  }

  lemma ArmedBefore(cfg: Config, es: seq<Event>, i: int, k: nat)
    requires i < k < |es| && ArmedBy(cfg, es, i, k + 1) && NoTeardownBetween(es, i, k + 1)
    ensures ArmedBy(cfg, es, i, k) && !TouchedAt(cfg, es, k, Deadline(cfg, es, i))
    ensures NoTeardownBetween(es, i, k) && !Teardown(es[k])
  {
  }

  lemma ArmingPlaysOn(cfg: Config, es: seq<Event>, i: int)
    requires Arms(cfg, es, i)
    ensures PlayingAt(cfg, es, i + 1)
  {
    RunPrefix(cfg, es, i);
  }

  lemma {:induction false} UntouchedPlaysOn(cfg: Config, es: seq<Event>, j: nat, due: nat)
    requires j < |es| && PlayingAt(cfg, es, j) && !TouchedAt(cfg, es, j, due) && !Teardown(es[j])
    requires Run(cfg, es[..j]).bargeIn == Due(due)
    ensures CalmAt(cfg, es, j) && PlayingAt(cfg, es, j + 1)
  {
    RunPrefix(cfg, es, j);
    Safety.RunSane(cfg, es[..j]);
    StepPlaying(cfg, Run(cfg, es[..j]), es[j]);
  }

  /** A BargeIn meets the plain timing rule exactly when no teardown lies between the event
      that armed its timer and itself. */
  lemma {:induction false} PlainTimingIff(cfg: Config, es: seq<Event>, i: int, k: nat)
    requires SendsBargeIn(cfg, es, k) && ArmedBy(cfg, es, i, k)
    ensures Undisturbed(cfg, es, i, k) <==> NoTeardownBetween(es, i, k)
  {
    if NoTeardownBetween(es, i, k) {
      PlaysOn(cfg, es, i, k);
    }
    forall j | i < j < k && Undisturbed(cfg, es, i, k) ensures !Teardown(es[j]) {
      assert PlayingAt(cfg, es, j) && PlayingAt(cfg, es, j + 1);
      PlayingMeansNoTeardown(cfg, es, j);
    }
  }

  lemma {:induction false} PlayingMeansNoTeardown(cfg: Config, es: seq<Event>, j: nat)
    requires j < |es| && PlayingAt(cfg, es, j + 1)
    ensures !Teardown(es[j])
  {
    RunPrefix(cfg, es, j);
  }

  // ---- the under-breath filter ----

  /** VAD signals reach the orchestrator in the step that emits them. */
  predicate Synchronous(es: seq<Event>) {
    forall i :: 0 <= i < |es| ==> !es[i].LateSpeechStarted? && !es[i].LateSpeechEnded?
  }

  /** Event k ends speech in PlayingBack and stops a running filter timer. */
  predicate Cancels(cfg: Config, es: seq<Event>, k: int) {
    && 0 <= k < |es|
    && var s := Run(cfg, es[..k]);
       s.state.PlayingBack? && s.bargeIn.Due? && DeliversEnd(cfg, s, es[k])
  }

  /** The silence the VAD is in, if any, began at or after the given time. */
  predicate SilentFrom(s: Session, time: nat) {
    time <= s.now && (s.vad.Trailing? ==> time <= s.vad.since)
  }

  lemma StepSilentFrom(cfg: Config, s: Session, e: Event, time: nat)
    requires SilentFrom(s, time)
    ensures SilentFrom(Step(cfg, s, e), time)
  {
  }

  lemma ArmingIsSpeech(cfg: Config, s: Session, e: Event)
    requires DeliversStart(cfg, s, e) && !e.LateSpeechStarted? && s.state.PlayingBack?
    ensures SilentFrom(Step(cfg, s, e), s.now)
  {
  }

  /** With synchronous signals, any silence after an arming event began after it. */
  lemma {:induction false} SilentSinceArming(cfg: Config, es: seq<Event>, i: nat, n: nat)
    requires Synchronous(es) && Arms(cfg, es, i) && i < n <= |es|
    ensures SilentFrom(Run(cfg, es[..n]), Run(cfg, es[..i]).now)
    decreases n
  {
    RunPrefix(cfg, es, n - 1);
    if n == i + 1 {
      ArmingIsSpeech(cfg, Run(cfg, es[..i]), es[i]);
    } else {
      SilentSinceArming(cfg, es, i, n - 1);
      StepSilentFrom(cfg, Run(cfg, es[..n - 1]), es[n - 1], Run(cfg, es[..i]).now);
    }
  }

  /** In every synchronous run, teardowns included: a speech end that cancels a running filter
      comes from a silence window no longer than the interval in force when it was armed. */
  lemma {:induction false} CancelNeedsShortSilence(cfg: Config, es: seq<Event>, i: nat, k: nat)
    requires Synchronous(es) && Cancels(cfg, es, k) && ArmedBy(cfg, es, i, k)
    ensures cfg.silenceEndMs <= Run(cfg, es[..i]).bargeInMs
  {
    ArmedRuns(cfg, es, i, k);
    SilentSinceArming(cfg, es, i, k);
    Safety.RunSane(cfg, es[..k]);
    EndIsLate(cfg, Run(cfg, es[..k]), es[k], Run(cfg, es[..i]).now);
  }

  lemma EndIsLate(cfg: Config, s: Session, e: Event, time: nat)
    requires DeliversEnd(cfg, s, e) && !e.LateSpeechEnded? && SilentFrom(s, time)
    ensures cfg.silenceEndMs <= s.now - time
  {
  }

  /** No speech end can cancel a filter that was armed with an interval shorter than the
      silence the VAD waits for. */
  lemma {:induction false} CancelIsDead(cfg: Config, es: seq<Event>, i: nat, k: nat)
    requires Synchronous(es) && ArmedBy(cfg, es, i, k) && Run(cfg, es[..i]).bargeInMs < cfg.silenceEndMs
    ensures !Cancels(cfg, es, k)
  {
    if Cancels(cfg, es, k) {
      CancelNeedsShortSilence(cfg, es, i, k);
    }
  }

  /** n milliseconds of playback: a PCM frame every millisecond keeps the silence timer away. */
  function KeepPlaying(n: nat): seq<Event> {
    if n == 0 then [] else KeepPlaying(n - 1) + [Advance(1), PcmFrame]
  }

  /** Speech in the first chunk of a playback, silence from the second on. */
  function Cough(m: nat, wait: nat): seq<Event> {
    [SetBargeInInterval(m), StartListening, PcmFrame, VadChunk(1.0), VadChunk(0.0)] + KeepPlaying(wait)
  }

  /** Playing back since time 0, with a filter due at m and a silence begun at time 0. */
  predicate Coughing(s: Session, m: nat, wait: nat) {
    s.now == wait && s.state.PlayingBack? && s.speaking && s.silence == Due(wait + PLAYBACK_SILENCE_MS)
    && s.streaming == Off && s.bargeIn == Due(m) && s.vad == V.Trailing(0) && s.threshold == BARGE_IN_THRESHOLD
    && s.sent == [] && s.inboundId == ""
  }

  lemma {:induction false} CoughStarts(cfg: Config, m: nat)
    ensures Coughing(Run(cfg, Cough(m, 0)), m, 0)
  {
    var one := [SetBargeInInterval(m)];
    var two := one + [StartListening];
    var three := two + [PcmFrame];
    var four := three + [VadChunk(1.0)];
    assert one == [] + [SetBargeInInterval(m)];
    RunSnoc(cfg, [], SetBargeInInterval(m));
    RunSnoc(cfg, one, StartListening);
    RunSnoc(cfg, two, PcmFrame);
    RunSnoc(cfg, three, VadChunk(1.0));
    RunSnoc(cfg, four, VadChunk(0.0));
    assert four + [VadChunk(0.0)] == Cough(m, 0);
  }

  lemma KeepsCoughing(cfg: Config, s: Session, m: nat, wait: nat)
    requires Coughing(s, m, wait) && wait < m
    ensures Coughing(Step(cfg, Step(cfg, s, Advance(1)), PcmFrame), m, wait + 1)
  {
  }

  lemma {:induction false} CoughGrows(cfg: Config, m: nat, wait: nat)
    ensures Run(cfg, Cough(m, wait + 1)) == Step(cfg, Step(cfg, Run(cfg, Cough(m, wait)), Advance(1)), PcmFrame)
  {
    var prev := Cough(m, wait);
    RunSnoc(cfg, prev, Advance(1));
    RunSnoc(cfg, prev + [Advance(1)], PcmFrame);
    assert prev + [Advance(1)] + [PcmFrame] == Cough(m, wait + 1);
  }

  lemma {:induction false} CoughState(cfg: Config, m: nat, wait: nat)
    requires wait <= m
    ensures Coughing(Run(cfg, Cough(m, wait)), m, wait)
    decreases wait
  {
    if wait == 0 {
      CoughStarts(cfg, m);
    } else {
      CoughState(cfg, m, wait - 1);
      KeepsCoughing(cfg, Run(cfg, Cough(m, wait - 1)), m, wait - 1);
      CoughGrows(cfg, m, wait - 1);
    }
  }

  lemma {:induction false} CoughEvents(m: nat, wait: nat)
    ensures forall e :: e in Cough(m, wait) ==> !e.LateSpeechStarted? && !e.LateSpeechEnded?
    decreases wait
  {
    if wait == 0 {
    } else {
      CoughEvents(m, wait - 1);
      assert Cough(m, wait) == Cough(m, wait - 1) + [Advance(1), PcmFrame];
    }
  }

  /** Event k of a synchronous run cancels a filter that was armed with an interval of at
      most m. */
  ghost predicate CancelsWithin(cfg: Config, es: seq<Event>, k: int, m: nat) {
    Synchronous(es) && Cancels(cfg, es, k)
    && exists i :: ArmedBy(cfg, es, i, k) && Run(cfg, es[..i]).bargeInMs <= m
  }

  /** Exactly when the filter can filter anything: for every m, a filter armed with an interval
      of at most m can be cancelled if and only if the VAD's silence window is no longer than
      m. With the defaults (800 and 400) it never can. */
  lemma {:induction false} FilterIff(cfg: Config, m: nat)
    ensures (exists es, k :: CancelsWithin(cfg, es, k, m)) <==> cfg.silenceEndMs <= m
  {
    forall es, k | CancelsWithin(cfg, es, k, m) ensures cfg.silenceEndMs <= m {
      var i :| ArmedBy(cfg, es, i, k) && Run(cfg, es[..i]).bargeInMs <= m;
      CancelNeedsShortSilence(cfg, es, i, k);
    }
    if cfg.silenceEndMs <= m {
      CoughCancels(cfg, m);
    }
  }

  lemma {:induction false} CoughCancels(cfg: Config, m: nat)
    requires cfg.silenceEndMs <= m
    ensures exists es, k :: CancelsWithin(cfg, es, k, m)
  {
    var wait: nat := if cfg.silenceEndMs <= 0 then 0 else cfg.silenceEndMs;
    var cough := Cough(m, wait);
    var es := cough + [VadChunk(0.0)];
    var k := |cough|;
    CoughState(cfg, m, wait);
    CoughEvents(m, wait);
    assert es[..k] == cough;
    TimerWasArmed(cfg, cough);
    var i :| ArmedBy(cfg, cough, i, k) && Deadline(cfg, cough, i) == m;
    ArmedByPrefix(cfg, es, k, i, k);
    assert es[..k][..i] == es[..i];
    assert Synchronous(es);
    assert Cancels(cfg, es, k);
    assert CancelsWithin(cfg, es, k, m);
  }

  /** What the filter lets through, for every configuration and every interval: one chunk of
      sound at the start of a reply, then silence, and the reply is interrupted. */
  lemma {:induction false} CoughInterrupts(cfg: Config, m: nat, id: Id)
    ensures var s := Run(cfg, Cough(m, m) + [BargeInTimeout([], id)]);
            s.state.Streaming? && s.sent == [BargeIn(""), StreamStart(id)]
  {
    CoughState(cfg, m, m);
    RunSnoc(cfg, Cough(m, m), BargeInTimeout([], id));
  }
}
