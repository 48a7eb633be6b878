/** Short concrete runs that show why the hypotheses of the session theorems are there. */
module SessionWitness {
  import opened Session
  import Safety = SessionSafety
  import Trace = SessionTrace

  /** A disconnect while Pairion speaks loses the normal threshold: after the reply has ended
      and the pipeline listens for the wake word again, the VAD still runs at 0.7. */
  function LostThreshold(): seq<Event> {
    [StartListening, PcmFrame, WsDisconnected, InboundEnd, WsReconnected]
  }

  lemma {:induction false} LostThresholdRun(cfg: Config)
    ensures var s := Run(cfg, LostThreshold());
            && s.state.AwaitingWake? && !s.speaking
            && s.threshold == BARGE_IN_THRESHOLD && s.saved == cfg.normal
  {
    var a := [StartListening, PcmFrame];
    var b := a + [WsDisconnected];
    var c := b + [InboundEnd];
    PlaybackBegins(cfg);
    RunSnoc(cfg, a, WsDisconnected);
    RunSnoc(cfg, b, InboundEnd);
    RunSnoc(cfg, c, WsReconnected);
    assert c + [WsReconnected] == LostThreshold();
  }

  lemma {:induction false} PlaybackBegins(cfg: Config)
    ensures Run(cfg, [StartListening, PcmFrame])
         == Init(cfg).(state := PlayingBack, threshold := BARGE_IN_THRESHOLD,
                       speaking := true, silence := Due(PLAYBACK_SILENCE_MS))
  {
    Listens(cfg);
    RunSnoc(cfg, [StartListening], PcmFrame);
    assert [StartListening] + [PcmFrame] == [StartListening, PcmFrame];
  }

  /** A pipeline error while the filter runs leaves its timer running: the next reply is
      barged into although nobody spoke during it. */
  function StaleFilter(id: Id): seq<Event> {
    [StartListening, PcmFrame, LateSpeechStarted, PipelineError, InboundEnd, StartListening, PcmFrame,
     Advance(BARGE_IN_MIN_DURATION_MS), BargeInTimeout([], id)]
  }

  /** After the error and the end of the reply: idle and silent, but the filter still runs. */
  lemma {:induction false} StaleFilterLeft(cfg: Config, id: Id)
    ensures var s := Run(cfg, StaleFilter(id)[..5]);
            && s.now == 0 && s.state.Idle? && !s.speaking && s.bargeIn == Due(BARGE_IN_MIN_DURATION_MS)
            && s.streaming == Off && s.silence == Off && s.sent == [] && s.inboundId == ""
  {
    var a := [StartListening, PcmFrame];
    var b := a + [LateSpeechStarted];
    var c := b + [PipelineError];
    PlaybackBegins(cfg);
    RunSnoc(cfg, a, LateSpeechStarted);
    RunSnoc(cfg, b, PipelineError);
    RunSnoc(cfg, c, InboundEnd);
    assert StaleFilter(id)[..5] == c + [InboundEnd];
  }

  lemma {:induction false} StaleFilterRun(cfg: Config, id: Id)
    ensures Run(cfg, StaleFilter(id)).sent == [BargeIn(""), StreamStart(id)]
    ensures Run(cfg, StaleFilter(id)[..5]).state.Idle? && !Run(cfg, StaleFilter(id)[..5]).speaking
    ensures forall j :: 5 <= j < 9 ==> !StaleFilter(id)[j].LateSpeechStarted? && !StaleFilter(id)[j].VadChunk?
  {
    var d := StaleFilter(id)[..5];
    var e := d + [StartListening];
    var f := e + [PcmFrame];
    var g := f + [Advance(BARGE_IN_MIN_DURATION_MS)];
    StaleFilterLeft(cfg, id);
    RunSnoc(cfg, d, StartListening);
    RunSnoc(cfg, e, PcmFrame);
    RunSnoc(cfg, f, Advance(BARGE_IN_MIN_DURATION_MS));
    RunSnoc(cfg, g, BargeInTimeout([], id));
    assert g + [BargeInTimeout([], id)] == StaleFilter(id);
  }

  lemma {:induction false} Listens(cfg: Config)
    ensures Run(cfg, [StartListening]) == Init(cfg).(state := AwaitingWake)
  {
    RunSnoc(cfg, [], StartListening);
    assert [] + [StartListening] == [StartListening];
  }

  lemma WakeOpens(cfg: Config, s: Session, id: Id)
    requires s.state.AwaitingWake?
    ensures var s' := Step(cfg, s, WakeWord(true, 1.0, [], id));
            s'.state.Streaming? && s'.sent == s.sent + [WakeWordDetected(1.0), StreamStart(id)]
  {
  }

  /** Shutting down in mid-utterance sends no AudioStreamEnd: the upload stays open. */
  lemma {:induction false} LostStreamEnd(cfg: Config, id: Id)
    ensures var s := Run(cfg, [StartListening, WakeWord(true, 1.0, [], id), Shutdown]);
            s.state.Idle? && s.sent == [WakeWordDetected(1.0), StreamStart(id)] && Trace.Unended(s.sent)
  {
    var b := [StartListening, WakeWord(true, 1.0, [], id)];
    Listens(cfg);
    WakeOpens(cfg, Run(cfg, [StartListening]), id);
    RunSnoc(cfg, [StartListening], WakeWord(true, 1.0, [], id));
    assert [StartListening] + [WakeWord(true, 1.0, [], id)] == b;
    RunSnoc(cfg, b, Shutdown);
    assert b + [Shutdown] == [StartListening, WakeWord(true, 1.0, [], id), Shutdown];
    var t := [WakeWordDetected(1.0), StreamStart(id)];
    assert Trace.LatestStart(t, 1, 2);
  }

  /** A barge-in, 400 ms into the user's speech. */
  function Interruption(id: Id): seq<Event> {
    [StartListening, PcmFrame, LateSpeechStarted, Advance(BARGE_IN_MIN_DURATION_MS), BargeInTimeout([], id)]
  }

  lemma {:induction false} Interrupted(cfg: Config, id: Id)
    ensures var s := Run(cfg, Interruption(id));
            s.state.Streaming? && !s.speaking && s.activeId == id && s.sent == [BargeIn(""), StreamStart(id)]
  {
    var a := [StartListening, PcmFrame];
    var b := a + [LateSpeechStarted];
    var c := b + [Advance(BARGE_IN_MIN_DURATION_MS)];
    PlaybackBegins(cfg);
    RunSnoc(cfg, a, LateSpeechStarted);
    RunSnoc(cfg, b, Advance(BARGE_IN_MIN_DURATION_MS));
    RunSnoc(cfg, c, BargeInTimeout([], id));
    assert c + [BargeInTimeout([], id)] == Interruption(id);
  }

  /** A reply frame still in flight when the barge-in stops playback ends the new upload at
      once: its closing pair follows its start although the user is still speaking.
      SessionUpload says exactly when an upload stays open. */
  lemma {:induction false} LateReplyEndsUpload(cfg: Config, id: Id)
    ensures var s := Run(cfg, Interruption(id) + [PcmFrame]);
            s.state.PlayingBack?
            && s.sent == [BargeIn(""), StreamStart(id), SpeechEnded(id), StreamEnd(id, Normal)]
  {
    Interrupted(cfg, id);
    RunSnoc(cfg, Interruption(id), PcmFrame);
  }

  /** The branch for a second TTS burst during playback would save the raised threshold as
      the normal one, and the end of playback would keep it. It is dead: in every run a PCM
      frame in PlayingBack does no more than restart the silence timer. */
  lemma {:induction false} DeadBranchSavesRaisedThreshold(cfg: Config, es: seq<Event>)
    requires Run(cfg, es).state.PlayingBack?
    ensures var s := Run(cfg, es);
            && AfterTtsEnded(AfterTtsStarted(s)).threshold == BARGE_IN_THRESHOLD
            && Run(cfg, es + [PcmFrame]) == s.(silence := Due(s.now + PLAYBACK_SILENCE_MS))
  {
    Safety.RunThreshold(cfg, es);
    Safety.RunSane(cfg, es);
    RunSnoc(cfg, es, PcmFrame);
  }
}
