/** What every run of the voice session keeps: timers, thresholds and the speaking flag. */
module SessionSafety {
  import opened Session

  /** The streaming timer runs exactly in Streaming, no timer is overdue, EndingSpeech is
      never entered, and PlayingBack means playback is speaking. */
  ghost predicate Sane(s: Session) {
    && (s.streaming.Due? <==> s.state.Streaming?)
    && (s.streaming.Due? ==> s.now <= s.streaming.at <= s.now + STREAMING_TIMEOUT_MS)
    && s.bargeIn.Allows(s.now)
    && s.silence.Allows(s.now)
    && !s.state.EndingSpeech?
    && (s.state.PlayingBack? ==> s.speaking)
  }

  lemma StepSane(cfg: Config, s: Session, e: Event)
    requires Sane(s)
    ensures Sane(Step(cfg, s, e))
  {
  }

  /** Holds in every reachable state, teardowns included. In particular the PlayingBack
      branch of AfterTtsStarted is dead: playback emits speaking only when it was not speaking. */
  lemma {:induction false} RunSane(cfg: Config, es: seq<Event>)
    ensures Sane(Run(cfg, es))
    ensures !Run(cfg, es).speaking ==> !Run(cfg, es).state.PlayingBack?
    decreases |es|
  {
    if es == [] {
    } else {
      RunSane(cfg, es[..|es| - 1]);
      StepSane(cfg, Run(cfg, es[..|es| - 1]), es[|es| - 1]);
    }
  }

  lemma StreamingKeepsDeadline(cfg: Config, s: Session, e: Event)
    requires Sane(s) && s.state.Streaming? && Step(cfg, s, e).state.Streaming?
    ensures Step(cfg, s, e).streaming == s.streaming && Step(cfg, s, e).now >= s.now
  {
  }

  /** A stretch of events that never leaves Streaming spans at most 30000 ms. */
  lemma {:induction false} StreamingBounded(cfg: Config, es: seq<Event>, k: nat)
    requires k <= |es|
    requires forall j :: k <= j <= |es| ==> Run(cfg, es[..j]).state.Streaming?
    ensures Run(cfg, es[..k]).streaming == Run(cfg, es).streaming
    ensures 0 <= Run(cfg, es).now - Run(cfg, es[..k]).now <= 30000
    decreases |es|
  {
    assert es[..|es|] == es;
    RunSane(cfg, es);
    RunSane(cfg, es[..k]);
    if k == |es| {
    } else {
      var init := es[..|es| - 1];
      forall j | k <= j <= |init| ensures Run(cfg, init[..j]).state.Streaming? {
        assert init[..j] == es[..j];
      }
      StreamingBounded(cfg, init, k);
      assert init[..k] == es[..k];
      assert init[..|init|] == init;
      RunSane(cfg, init);
      StreamingKeepsDeadline(cfg, Run(cfg, init), es[|es| - 1]);
    }
  }

  /** The threshold discipline: the saved value is the configured one, and the VAD runs at
      the barge-in threshold in PlayingBack and at the configured one elsewhere. */
  ghost predicate ThresholdOk(cfg: Config, s: Session) {
    && s.saved == cfg.normal
    && s.threshold == if s.state.PlayingBack? then BARGE_IN_THRESHOLD else cfg.normal
  }

  /** After a teardown from PlayingBack: the raised threshold is never lowered again. */
  ghost predicate StuckHigh(s: Session) {
    && s.threshold == BARGE_IN_THRESHOLD
    && (s.state.PlayingBack? ==> s.saved == BARGE_IN_THRESHOLD)
  }

  lemma StepThreshold(cfg: Config, s: Session, e: Event)
    requires Sane(s)
    ensures ThresholdOk(cfg, s) && !(Teardown(e) && s.state.PlayingBack?) ==> ThresholdOk(cfg, Step(cfg, s, e))
    ensures ThresholdOk(cfg, s) && Teardown(e) && s.state.PlayingBack? ==> StuckHigh(Step(cfg, s, e))
    ensures StuckHigh(s) ==> StuckHigh(Step(cfg, s, e))
  {
  }

  lemma {:induction false} RunThreshold(cfg: Config, es: seq<Event>)
    ensures TornDown(cfg, es, PlayingBack) ==> StuckHigh(Run(cfg, es))
    ensures !TornDown(cfg, es, PlayingBack) ==> ThresholdOk(cfg, Run(cfg, es))
    decreases |es|
  {
    if es == [] {
    } else {
      var init := es[..|es| - 1];
      RunThreshold(cfg, init);
      RunSane(cfg, init);
      StepThreshold(cfg, Run(cfg, init), es[|es| - 1]);
    }
  }

  /** Exactly when the threshold discipline holds: no teardown has ever been taken from
      PlayingBack, or the configured threshold already is the barge-in one. One such
      teardown breaks it for good, however long the run goes on. */
  lemma {:induction false} ThresholdIff(cfg: Config, es: seq<Event>)
    ensures ThresholdOk(cfg, Run(cfg, es))
       <==> !TornDown(cfg, es, PlayingBack) || cfg.normal == 0.7
    ensures TornDown(cfg, es, PlayingBack) ==> Run(cfg, es).threshold == 0.7
  {
    RunThreshold(cfg, es);
    if cfg.normal == BARGE_IN_THRESHOLD {
      EqualThresholds(cfg, es);
    }
  }

  lemma {:induction false} EqualThresholds(cfg: Config, es: seq<Event>)
    requires cfg.normal == BARGE_IN_THRESHOLD
    ensures Run(cfg, es).saved == Run(cfg, es).threshold == BARGE_IN_THRESHOLD
    decreases |es|
  {
    if es == [] {
    } else {
      EqualThresholds(cfg, es[..|es| - 1]);
    }
  }
}
