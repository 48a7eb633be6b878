/**
  The orchestrator as the program writes it: slots that update fields and call each other,
  with the playback and VAD fields its direct connections reach. Each slot is proved to have
  exactly the net effect that Session gives it, re-entrant calls included.
 */
module Orchestrator {
  import opened Common
  import opened Framing
  import opened Session
  import V = Vad

  class AudioSessionOrchestrator {
    const cfg: Config
    var now: nat

    var state: State
    var activeStreamId: Id
    var inboundStreamId: Id
    var streamingTimeout: Timer
    var bargeInTimer: Timer
    var bargeInTimerIntervalMs: nat
    var normalVadThreshold: real

    var vadThreshold: real
    var vadState: V.State

    var isSpeaking: bool
    var silenceTimer: Timer

    var encodeCalls: nat
    var sent: seq<Message>

    function Abs(): Session
      reads this
    {
      Session(now, state, activeStreamId, inboundStreamId, streamingTimeout, bargeInTimer,
              bargeInTimerIntervalMs, normalVadThreshold, vadThreshold, vadState,
              isSpeaking, silenceTimer, encodeCalls, sent)
    }

    constructor (cfg: Config)
      ensures this.cfg == cfg && Abs() == Init(cfg)
    {
      this.cfg := cfg;
      now, state, activeStreamId, inboundStreamId := 0, Idle, "", "";
      streamingTimeout, bargeInTimer, bargeInTimerIntervalMs := Off, Off, BARGE_IN_MIN_DURATION_MS;
      normalVadThreshold, vadThreshold, vadState := cfg.normal, cfg.normal, V.Idle;
      isSpeaking, silenceTimer, encodeCalls, sent := false, Off, 0, [];
    }

    // ---- collaborators ----

    method Send(m: Message)
      modifies this`sent
      ensures sent == old(sent) + [m]
    {
      sent := sent + [m];
    }

    method VadReset()
      modifies this`vadState
      ensures vadState == V.Idle
    {
      vadState := V.Idle;
    }

    method VadSetThreshold(threshold: real)
      modifies this`vadThreshold
      ensures vadThreshold == threshold
    {
      vadThreshold := threshold;
    }

    /** One VAD inference; its signals run their slots before it returns. */
    method VadRunInference(prob: real)
      modifies this
      ensures Abs() == AfterVadChunk(cfg, old(Abs()), prob)
    {
      match vadState
      case Idle =>
        if prob >= vadThreshold {
          vadState := V.Speaking;
          OnVadSpeechStarted();
        }
      case Speaking =>
        if prob < vadThreshold {
          vadState := V.Trailing(now);
        }
      case Trailing(since) =>
        if prob >= vadThreshold {
          vadState := V.Speaking;
        } else if now - since >= cfg.silenceEndMs {
          vadState := V.Idle;
          OnSpeechEnded();
        }
    }

    /** The speakingStateChanged connection. */
    method SpeakingStateChanged(speaking: bool)
      modifies this
      ensures Abs() == if speaking then AfterTtsStarted(old(Abs())) else AfterTtsEnded(old(Abs()))
    {
      if speaking {
        OnTtsPlaybackStarted();
      } else {
        OnTtsPlaybackEnded();
      }
    }

    method PlaybackStop()
      modifies this
      ensures Abs() == FallSilent(old(Abs()).(silence := Off))
    {
      silenceTimer := Off;
      if isSpeaking {
        isSpeaking := false;
        SpeakingStateChanged(false);
      }
    }

    method PlaybackHandlePcmFrame()
      modifies this
      ensures Abs() == AfterPcmFrame(old(Abs()))
    {
      if !isSpeaking {
        isSpeaking := true;
        SpeakingStateChanged(true);
      }
      silenceTimer := Due(now + PLAYBACK_SILENCE_MS);
    }

    method PlaybackSilenceElapsed()
      requires silenceTimer == Off
      modifies this
      ensures Abs() == FallSilent(old(Abs()))
    {
      if isSpeaking {
        isSpeaking := false;
        SpeakingStateChanged(false);
      }
    }

    /** Encode and send every whole frame of a pre-roll under the active id. */
    method SendPreRoll(preRoll: seq<Byte>)
      modifies this`encodeCalls, this`sent
      ensures encodeCalls == old(encodeCalls) + |Frames(preRoll, FRAME_BYTES)|
      ensures sent == old(sent) + PreRollAudio(cfg, old(encodeCalls), activeStreamId, Frames(preRoll, FRAME_BYTES))
    {
      var offset := 0;
      assert preRoll[0..] == preRoll;
      while offset + FRAME_BYTES <= |preRoll|
        invariant offset <= |preRoll|
        invariant encodeCalls + |Frames(preRoll[offset..], FRAME_BYTES)|
               == old(encodeCalls) + |Frames(preRoll, FRAME_BYTES)|
        invariant sent + PreRollAudio(cfg, encodeCalls, activeStreamId, Frames(preRoll[offset..], FRAME_BYTES))
               == old(sent) + PreRollAudio(cfg, old(encodeCalls), activeStreamId, Frames(preRoll, FRAME_BYTES))
      {
        ghost var rest := preRoll[offset..];
        var frame := preRoll[offset..offset + FRAME_BYTES];
        assert rest[..FRAME_BYTES] == frame && rest[FRAME_BYTES..] == preRoll[offset + FRAME_BYTES..];
        assert Frames(rest, FRAME_BYTES)[1..] == Frames(preRoll[offset + FRAME_BYTES..], FRAME_BYTES);
        var encoded := cfg.encode(encodeCalls, frame);
        encodeCalls := encodeCalls + 1;
        if encoded.Some? {
          sent := sent + [Audio(activeStreamId, encoded.value)];
        }
        offset := offset + FRAME_BYTES;
      }
    }

    /** The block both openings share: announce, new id, stream start, pre-roll. */
    method BeginUpload(announce: Message, preRoll: seq<Byte>, freshId: Id)
      modifies this`activeStreamId, this`encodeCalls, this`sent
      ensures activeStreamId == freshId
      ensures encodeCalls == old(encodeCalls) + |Frames(preRoll, FRAME_BYTES)|
      ensures sent == old(sent) + [announce, StreamStart(freshId)]
                    + PreRollAudio(cfg, old(encodeCalls), freshId, Frames(preRoll, FRAME_BYTES))
    {
      Send(announce);
      activeStreamId := freshId;
      Send(StreamStart(activeStreamId));
      assert sent == old(sent) + [announce, StreamStart(freshId)];
      SendPreRoll(preRoll);
    }

    // ---- slots ----

    method TransitionTo(newState: State)
      modifies this`state
      ensures state == newState
    {
      if state == newState {
        return;
      }
      state := newState;
    }

    method StartListening()
      modifies this`state
      ensures state == if old(state).Idle? then AwaitingWake else old(state)
    {
      if state != Idle {
        return;
      }
      TransitionTo(AwaitingWake);
    }

    method Shutdown()
      modifies this
      ensures Abs() == old(Abs()).(state := Idle, streaming := Off)
    {
      streamingTimeout := Off;
      TransitionTo(Idle);
    }

    method OnWakeWordDetected(connected: bool, score: real, preRoll: seq<Byte>, freshId: Id)
      modifies this
      ensures Abs() == if old(state).AwaitingWake? && connected
                       then OpenStream(cfg, old(Abs()), WakeWordDetected(score), freshId, preRoll)
                       else old(Abs())
    {
      if state != AwaitingWake {
        return;
      }
      if !connected {
        return;
      }
      BeginUpload(WakeWordDetected(score), preRoll, freshId);
      TransitionTo(Streaming);
      streamingTimeout := Due(now + STREAMING_TIMEOUT_MS);
      VadReset();
    }

    method OnVadSpeechStarted()
      modifies this`bargeInTimer
      ensures Abs() == AfterSpeechStarted(old(Abs()))
    {
      if state != PlayingBack {
        return;
      }
      bargeInTimer := Due(now + bargeInTimerIntervalMs);
    }

    method OnSpeechEnded()
      modifies this
      ensures Abs() == AfterSpeechEnded(old(Abs()))
    {
      if state == Streaming {
        EndStream(Normal);
      } else if state == PlayingBack {
        if bargeInTimer.Due? {
          bargeInTimer := Off;
        }
      }
    }

    method OnOpusFrameEncoded(packet: Packet)
      modifies this`sent
      ensures Abs() == Step(cfg, old(Abs()), OpusFrame(packet))
    {
      if state != Streaming {
        return;
      }
      Send(Audio(activeStreamId, packet));
    }

    method OnStreamingTimeout()
      modifies this
      ensures Abs() == if old(state).Streaming? then CloseStream(old(Abs()), Timeout, AwaitingWake) else old(Abs())
    {
      if state != Streaming {
        return;
      }
      EndStream(Timeout);
    }

    method EndStream(reason: Reason)
      modifies this
      ensures Abs() == CloseStream(old(Abs()), reason, AwaitingWake)
    {
      streamingTimeout := Off;
      Send(SpeechEnded(activeStreamId));
      Send(StreamEnd(activeStreamId, reason));
      assert sent == old(sent) + [SpeechEnded(activeStreamId), StreamEnd(activeStreamId, reason)];
      activeStreamId := "";
      TransitionTo(Idle);
      StartListening();
    }

    method OnTtsPlaybackStarted()
      modifies this
      ensures Abs() == AfterTtsStarted(old(Abs()))
    {
      if state == Streaming {
        streamingTimeout := Off;
        Send(SpeechEnded(activeStreamId));
        Send(StreamEnd(activeStreamId, Normal));
        assert sent == old(sent) + [SpeechEnded(activeStreamId), StreamEnd(activeStreamId, Normal)];
        activeStreamId := "";
        TransitionTo(PlayingBack);
      } else if state == AwaitingWake {
        TransitionTo(PlayingBack);
      } else if state == PlayingBack {
        bargeInTimer := Off;
      } else {
        return;
      }
      normalVadThreshold := vadThreshold;
      VadReset();
      VadSetThreshold(BARGE_IN_THRESHOLD);
    }

    method OnTtsPlaybackEnded()
      modifies this
      ensures Abs() == AfterTtsEnded(old(Abs()))
    {
      if state != PlayingBack {
        return;
      }
      bargeInTimer := Off;
      VadSetThreshold(normalVadThreshold);
      VadReset();
      TransitionTo(Idle);
      StartListening();
    }

    method OnBargeInTimerExpired(preRoll: seq<Byte>, freshId: Id)
      requires bargeInTimer == Off
      modifies this
      ensures Abs() == if old(state).PlayingBack? then AfterBargeIn(cfg, old(Abs()), preRoll, freshId) else old(Abs())
    {
      if state != PlayingBack {
        return;
      }
      ExecuteBargeIn(preRoll, freshId);
    }

    /** Stop playback, which runs OnTtsPlaybackEnded, and restore the normal threshold. */
    method SilencePlayback()
      requires state == PlayingBack && bargeInTimer == Off
      modifies this
      ensures state in {PlayingBack, AwaitingWake} && (vadState == old(vadState) || vadState == V.Idle)
      ensures Abs() == old(Abs()).(state := state, vad := vadState, threshold := old(normalVadThreshold),
                                   speaking := false, silence := Off)
    {
      PlaybackStop();
      VadSetThreshold(normalVadThreshold);
    }

    /** Playback stops, and OnTtsPlaybackEnded runs, before the BargeIn message is sent. */
    method ExecuteBargeIn(preRoll: seq<Byte>, freshId: Id)
      requires state == PlayingBack && bargeInTimer == Off
      modifies this
      ensures Abs() == AfterBargeIn(cfg, old(Abs()), preRoll, freshId)
    {
      SilencePlayback();
      BeginUpload(BargeIn(inboundStreamId), preRoll, freshId);
      VadReset();
      TransitionTo(Streaming);
      streamingTimeout := Due(now + STREAMING_TIMEOUT_MS);
    }

    method OnInboundAudioStreamStart(id: Id)
      modifies this`inboundStreamId
      ensures Abs() == old(Abs()).(inboundId := id)
    {
      inboundStreamId := id;
    }

    method OnWsDisconnected()
      modifies this
      ensures Abs() == Step(cfg, old(Abs()), WsDisconnected)
    {
      streamingTimeout := Off;
      activeStreamId := "";
      TransitionTo(Idle);
    }

    method OnPipelineError()
      modifies this
      ensures Abs() == Step(cfg, old(Abs()), PipelineError)
    {
      streamingTimeout := Off;
      activeStreamId := "";
      TransitionTo(Idle);
    }

    /** Time passes, but never past a timer that is due. */
    method Elapse(ms: nat)
      modifies this`now
      ensures Abs() == Step(cfg, old(Abs()), Advance(ms))
    {
      var t := now + ms;
      if streamingTimeout.Allows(t) && bargeInTimer.Allows(t) && silenceTimer.Allows(t) {
        now := t;
      }
    }

    /** The event loop: one event, run to completion. A single-shot timer is inactive by the
        time its slot runs. */
    method Handle(e: Event)
      modifies this
      ensures Abs() == Step(cfg, old(Abs()), e)
    {
      match e
      case StartListening => StartListening();
      case Shutdown => Shutdown();
      case WakeWord(connected, score, preRoll, id) => OnWakeWordDetected(connected, score, preRoll, id);
      case VadChunk(prob) => VadRunInference(prob);
      case LateSpeechStarted => OnVadSpeechStarted();
      case LateSpeechEnded => OnSpeechEnded();
      case OpusFrame(packet) => OnOpusFrameEncoded(packet);
      case StreamingTimeout =>
        if streamingTimeout.Fires(now) {
          streamingTimeout := Off;
          OnStreamingTimeout();
        }
      case BargeInTimeout(preRoll, id) =>
        if bargeInTimer.Fires(now) {
          bargeInTimer := Off;
          OnBargeInTimerExpired(preRoll, id);
        }
      case SilenceTimeout =>
        if silenceTimer.Fires(now) {
          silenceTimer := Off;
          PlaybackSilenceElapsed();
        }
      case PcmFrame => PlaybackHandlePcmFrame();
      case InboundStart(id) => OnInboundAudioStreamStart(id);
      case InboundEnd =>
        silenceTimer := Off;
        PlaybackSilenceElapsed();
      case WsDisconnected => OnWsDisconnected();
      case WsReconnected => StartListening();
      case PipelineError => OnPipelineError();
      case SetBargeInInterval(ms) => bargeInTimerIntervalMs := ms;
      case Advance(ms) => Elapse(ms);
    }
  }

  /** Any number of events from construction: the object is in the state Run gives. */
  method Drive(cfg: Config, es: seq<Event>) returns (o: AudioSessionOrchestrator)
    ensures fresh(o) && o.cfg == cfg && o.Abs() == Run(cfg, es)
  {
    o := new AudioSessionOrchestrator(cfg);
    assert es[..0] == [];
    for i := 0 to |es|
      invariant fresh(o) && o.cfg == cfg && o.Abs() == Run(cfg, es[..i])
    {
      RunPrefix(cfg, es, i);
      o.Handle(es[i]);
    }
    assert es[..|es|] == es;
  }
}
