/**
  The voice session: orchestrator, playback speaking flag, VAD machine, their timers and a
  millisecond clock, composed as one step function over arbitrary events. Slots connected
  directly run inside the step that emits their signal; an event the environment cannot
  deliver now (a timer that is not due, time running past a due timer) leaves the state alone.
 */
module Session {
  import opened Common
  import opened Framing
  import V = Vad

  const STREAMING_TIMEOUT_MS: nat := 30000
  const BARGE_IN_THRESHOLD: real := 0.7
  const BARGE_IN_MIN_DURATION_MS: nat := 400
  const PLAYBACK_SILENCE_MS: nat := 500
  const FRAME_BYTES: nat := 640

  type Packet = seq<Byte>
  type Id = string

  datatype State = Idle | AwaitingWake | Streaming | EndingSpeech | PlayingBack

  /** A single-shot timer. */
  datatype Timer = Off | Due(at: nat) {
    predicate Allows(time: nat) { Due? ==> time <= at }
    predicate Fires(time: nat) { Due? && at <= time }
  }

  datatype Reason = Normal | Timeout

  /** What goes out on the socket, in order. Audio carries the id whose prefix tags the frame. */
  datatype Message =
    | WakeWordDetected(confidence: real)
    | StreamStart(id: Id)
    | Audio(id: Id, payload: Packet)
    | SpeechEnded(id: Id)
    | StreamEnd(id: Id, reason: Reason)
    | BargeIn(interrupted: Id)

  /** encode(k, frame) is what the pre-roll encoder emits on its k-th call, if anything. */
  datatype Config = Config(normal: real, silenceEndMs: int, encode: (nat, seq<Byte>) -> Option<Packet>)

  datatype Session = Session(
    now: nat,
    // orchestrator
    state: State, activeId: Id, inboundId: Id, streaming: Timer, bargeIn: Timer, bargeInMs: nat, saved: real,
    // VAD
    threshold: real, vad: V.State,
    // playback
    speaking: bool, silence: Timer,
    // pre-roll encoder and socket
    encodeCalls: nat, sent: seq<Message>)

  datatype Event =
    | StartListening
    | Shutdown
    | WakeWord(connected: bool, score: real, preRoll: seq<Byte>, id: Id)
    | VadChunk(prob: real)
    | LateSpeechStarted
    | LateSpeechEnded
    | OpusFrame(packet: Packet)
    | StreamingTimeout
    | BargeInTimeout(preRoll: seq<Byte>, id: Id)
    | SilenceTimeout
    | PcmFrame
    | InboundStart(id: Id)
    | InboundEnd
    | WsDisconnected
    | WsReconnected
    | PipelineError
    | SetBargeInInterval(ms: nat)
    | Advance(ms: nat)

  function Init(cfg: Config): Session {
    Session(0, Idle, "", "", Off, Off, BARGE_IN_MIN_DURATION_MS, cfg.normal,
            cfg.normal, V.Idle, false, Off, 0, [])
  }

  /** The audio messages for a pre-roll cut into whole frames; an encoder error sends nothing. */
  function PreRollAudio(cfg: Config, calls: nat, id: Id, frames: seq<seq<Byte>>): (msgs: seq<Message>)
    ensures forall m :: m in msgs ==> m.Audio? && m.id == id
    decreases |frames|
  {
    if frames == [] then []
    else
      var rest := PreRollAudio(cfg, calls + 1, id, frames[1..]);
      match cfg.encode(calls, frames[0])
      case None => rest
      case Some(p) => [Audio(id, p)] + rest
  }

  /** Announce a stream, open it, send the pre-roll, and stream until the timeout. */
  function OpenStream(cfg: Config, s: Session, announce: Message, id: Id, preRoll: seq<Byte>): Session {
    var frames := Frames(preRoll, FRAME_BYTES);
    s.(state := Streaming, activeId := id, vad := V.Idle,
       streaming := Due(s.now + STREAMING_TIMEOUT_MS),
       encodeCalls := s.encodeCalls + |frames|,
       sent := s.sent + [announce, StreamStart(id)] + PreRollAudio(cfg, s.encodeCalls, id, frames))
  }

  /** Stop the stream timer, send the closing pair and leave Streaming for next. */
  function CloseStream(s: Session, reason: Reason, next: State): Session {
    s.(state := next, streaming := Off, activeId := "",
       sent := s.sent + [SpeechEnded(s.activeId), StreamEnd(s.activeId, reason)])
  }

  function AfterSpeechStarted(s: Session): Session {
    if s.state.PlayingBack? then s.(bargeIn := Due(s.now + s.bargeInMs)) else s
  }

  function AfterSpeechEnded(s: Session): Session {
    match s.state
    case Streaming => CloseStream(s, Normal, AwaitingWake)
    case PlayingBack => s.(bargeIn := Off)
    case _ => s
  }

  /** Remember the threshold in force, raise it and clear the VAD. */
  function RaiseThreshold(s: Session): Session {
    s.(saved := s.threshold, threshold := BARGE_IN_THRESHOLD, vad := V.Idle)
  }

  function AfterTtsStarted(s: Session): Session {
    match s.state
    case Streaming => RaiseThreshold(CloseStream(s, Normal, PlayingBack))
    case AwaitingWake => RaiseThreshold(s.(state := PlayingBack))
    case PlayingBack => RaiseThreshold(s.(bargeIn := Off))
    case _ => s
  }

  function AfterTtsEnded(s: Session): Session {
    if s.state.PlayingBack?
    then s.(state := AwaitingWake, bargeIn := Off, threshold := s.saved, vad := V.Idle)
    else s
  }

  /** Playback falls silent: the idle signal runs AfterTtsEnded when it was speaking. */
  function FallSilent(s: Session): Session {
    if s.speaking then AfterTtsEnded(s.(speaking := false)) else s
  }

  function AfterVadChunk(cfg: Config, s: Session, prob: real): Session {
    var r := V.Step(cfg.silenceEndMs, s.vad, V.Observation(prob, s.threshold, s.now));
    var s' := s.(vad := r.state);
    match r.signal
    case None => s'
    case Some(Started) => AfterSpeechStarted(s')
    case Some(Ended) => AfterSpeechEnded(s')
  }

  function AfterPcmFrame(s: Session): Session {
    var s' := if s.speaking then s else AfterTtsStarted(s.(speaking := true));
    s'.(silence := Due(s.now + PLAYBACK_SILENCE_MS))
  }

  /** The net effect of a confirmed barge-in, the re-entrant stop of playback included. */
  function AfterBargeIn(cfg: Config, s: Session, preRoll: seq<Byte>, id: Id): Session {
    OpenStream(cfg, s.(bargeIn := Off, threshold := s.saved, speaking := false, silence := Off),
               BargeIn(s.inboundId), id, preRoll)
  }

  function Step(cfg: Config, s: Session, e: Event): Session {
    match e
    case StartListening => if s.state.Idle? then s.(state := AwaitingWake) else s
    case Shutdown => s.(state := Idle, streaming := Off)
    case WakeWord(connected, score, preRoll, id) =>
      if s.state.AwaitingWake? && connected
      then OpenStream(cfg, s, WakeWordDetected(score), id, preRoll) else s
    case VadChunk(prob) => AfterVadChunk(cfg, s, prob)
    case LateSpeechStarted => AfterSpeechStarted(s)
    case LateSpeechEnded => AfterSpeechEnded(s)
    case OpusFrame(packet) =>
      if s.state.Streaming? then s.(sent := s.sent + [Audio(s.activeId, packet)]) else s
    case StreamingTimeout =>
      if !s.streaming.Fires(s.now) then s
      else if s.state.Streaming? then CloseStream(s, Timeout, AwaitingWake)
      else s.(streaming := Off)
    case BargeInTimeout(preRoll, id) =>
      if !s.bargeIn.Fires(s.now) then s
      else if s.state.PlayingBack? then AfterBargeIn(cfg, s, preRoll, id)
      else s.(bargeIn := Off)
    case SilenceTimeout =>
      if !s.silence.Fires(s.now) then s else FallSilent(s.(silence := Off))
    case PcmFrame => AfterPcmFrame(s)
    case InboundStart(id) => s.(inboundId := id)
    case InboundEnd => FallSilent(s.(silence := Off))
    case WsDisconnected => s.(state := Idle, streaming := Off, activeId := "")
    case WsReconnected => if s.state.Idle? then s.(state := AwaitingWake) else s
    case PipelineError => s.(state := Idle, streaming := Off, activeId := "")
    case SetBargeInInterval(ms) => s.(bargeInMs := ms)
    case Advance(ms) =>
      var t := s.now + ms;
      if s.streaming.Allows(t) && s.bargeIn.Allows(t) && s.silence.Allows(t) then s.(now := t) else s
  }

  /** The state after a run from construction. */
  function Run(cfg: Config, es: seq<Event>): Session {
    if es == [] then Init(cfg) else Step(cfg, Run(cfg, es[..|es| - 1]), es[|es| - 1])
  }

  /** Shutdown, disconnect and pipeline error all drop to Idle. */
  predicate Teardown(e: Event) { e.Shutdown? || e.WsDisconnected? || e.PipelineError? }

  /** A teardown has been taken from the given state. */
  predicate TornDown(cfg: Config, es: seq<Event>, from: State) {
    es != [] &&
      var init := es[..|es| - 1];
      TornDown(cfg, init, from) || (Teardown(es[|es| - 1]) && Run(cfg, init).state == from)
  }

  lemma {:induction false} RunPrefix(cfg: Config, es: seq<Event>, k: nat)
    requires k < |es|
    ensures Run(cfg, es[..k + 1]) == Step(cfg, Run(cfg, es[..k]), es[k])
  {
    assert es[..k + 1][..k] == es[..k];
  }

  lemma {:induction false} RunSnoc(cfg: Config, es: seq<Event>, e: Event)
    ensures Run(cfg, es + [e]) == Step(cfg, Run(cfg, es), e)
  {
    assert (es + [e])[..|es|] == es;
  }

  lemma {:induction false} TornDownPrefix(cfg: Config, es: seq<Event>, k: nat, from: State)
    requires k <= |es|
    ensures TornDown(cfg, es[..k], from) ==> TornDown(cfg, es, from)
    decreases |es|
  {
    if k == |es| {
      assert es[..k] == es;
    } else {
      var init := es[..|es| - 1];
      assert init[..k] == es[..k];
      TornDownPrefix(cfg, init, k, from);
    }
  }
}
