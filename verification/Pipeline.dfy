/**
  The components put together: from the bytes the microphone delivers to what the wake-word
  models see, from the detector's pre-roll to the frames on the socket, and the session's
  playback flag against the playback engine itself.
 */
module Pipeline {
  import opened Common
  import opened Framing
  import C = Capture
  import D = Detector
  import W = DetectorWindows
  import P = Playback
  import S = Session
  import Trace = SessionTrace
  import Audio = SessionAudio
  import Safety = SessionSafety

  // ---- microphone to wake-word models ----

  lemma {:induction false} DecodeAppend(a: seq<Byte>, b: seq<Byte>)
    requires |a| % 2 == 0
    ensures D.Decode(a + b) == D.Decode(a) + D.Decode(b)
  {
    var h := |a| / 2;
    assert |a + b| / 2 == h + |b| / 2;
    forall i | 0 <= i < |b| / 2 ensures D.Decode(a + b)[h + i] == D.Decode(b)[i] {
      assert (a + b)[2 * (h + i)] == b[2 * i] && (a + b)[2 * (h + i) + 1] == b[2 * i + 1];
    }
  }

  lemma {:induction false} ConcatLength(frames: seq<seq<Byte>>)
    requires W.WholeFrames(frames)
    ensures |W.Concat(frames)| == W.FRAME_BYTES * |frames|
    decreases |frames|
  {
    if frames == [] {
    } else {
      ConcatLength(frames[..|frames| - 1]);
    }
  }

  lemma EvenLength(n: nat)
    ensures W.FRAME_BYTES * n % 2 == 0
  {
    assert W.FRAME_BYTES * n == 2 * (320 * n);
    Even(320 * n);
  }

  lemma Even(m: nat)
    ensures 2 * m % 2 == 0
  {
  }

  lemma {:induction false} DecodeFrames(frames: seq<seq<Byte>>)
    requires W.WholeFrames(frames)
    ensures W.DecodeAll(frames) == D.Decode(W.Concat(frames))
    decreases |frames|
  {
    if frames == [] {
    } else {
      var init := frames[..|frames| - 1];
      var last := frames[|frames| - 1];
      ConcatLength(init);
      EvenLength(|init|);
      DecodeFrames(init);
      DecodeAppend(W.Concat(init), last);
      assert W.Concat(frames) == W.Concat(init) + last;
      assert W.DecodeAll(frames) == W.DecodeAll(init) + D.Decode(last);
    }
  }

  lemma {:induction false} CapturedFrames(mic: seq<Byte>)
    ensures W.WholeFrames(Frames(mic, W.FRAME_BYTES))
  {
    var frames := Frames(mic, W.FRAME_BYTES);
    forall f | 0 <= f < |frames| ensures |frames[f]| == W.FRAME_BYTES {
      FrameAt(mic, W.FRAME_BYTES, f);
    }
  }

  /** What capture sends out for a list of deliveries. */
  function Captured(deliveries: seq<seq<Byte>>): seq<seq<Byte>> {
    C.OnDeliveries(C.Started(), deliveries).emitted
  }

  lemma {:induction false} CapturedIs(deliveries: seq<seq<Byte>>)
    ensures Captured(deliveries) == Frames(Flatten(deliveries), W.FRAME_BYTES)
    ensures W.WholeFrames(Captured(deliveries))
    ensures |Captured(deliveries)| == |Flatten(deliveries)| / W.FRAME_BYTES
  {
    var mic := Flatten(deliveries);
    C.DeliveriesReframe(C.Started(), deliveries);
    assert [] + mic == mic;
    CapturedFrames(mic);
    FrameCount(mic, W.FRAME_BYTES);
  }

  /** However the device splits its reads, and whether the detector was warmed up or not, the
      k-th mel input of the microphone is samples [1280k, 1280k + 1760) of 480 zeros followed by
      the samples of the microphone stream. */
  lemma {:induction false} MicToMel(cfg: D.Config, s: D.State, deliveries: seq<seq<Byte>>, at: int -> int, k: nat)
    requires W.Booted(cfg, s) && k < |Flatten(deliveries)| / 640 / 4
    ensures var mic := Flatten(deliveries);
            var t := W.Feed(cfg, s, Captured(deliveries), at);
            var stream := D.Zeros(480) + D.Decode(mic);
            && |t.melLog| == |s.melLog| + |mic| / 640 / 4
            && 1280 * k + 1760 <= |stream|
            && t.melLog[|s.melLog| + k].input == stream[1280 * k..1280 * k + 1760]
  {
    var frames := Captured(deliveries);
    var rest := Rest(Flatten(deliveries), W.FRAME_BYTES);
    CapturedIs(deliveries);
    W.MelInputsFromStart(cfg, s, frames, at, k);
    DecodedStream(deliveries);
    var b := D.MEL_CHUNK * k;
    SliceOfLonger(D.Zeros(D.MEL_CONTEXT), W.DecodeAll(frames), D.Decode(rest), b, b + D.MEL_WINDOW);
  }

  lemma {:induction false} DecodeParts(frames: seq<seq<Byte>>, rest: seq<Byte>)
    requires W.WholeFrames(frames)
    ensures D.Decode(Flatten(frames) + rest) == W.DecodeAll(frames) + D.Decode(rest)
  {
    W.ConcatIsFlatten(frames);
    ConcatLength(frames);
    EvenLength(|frames|);
    DecodeFrames(frames);
    DecodeAppend(Flatten(frames), rest);
  }

  /** The samples of the microphone stream: those captured, then those of the partial frame. */
  lemma {:induction false} DecodedStream(deliveries: seq<seq<Byte>>)
    ensures var mic := Flatten(deliveries);
            D.Decode(mic) == W.DecodeAll(Captured(deliveries)) + D.Decode(Rest(mic, W.FRAME_BYTES))
  {
    var mic := Flatten(deliveries);
    CapturedIs(deliveries);
    FlattenFrames(mic, W.FRAME_BYTES);
    DecodeParts(Captured(deliveries), Rest(mic, W.FRAME_BYTES));
  }

  lemma SliceOfLonger<T>(a: seq<T>, b: seq<T>, c: seq<T>, lo: nat, hi: nat)
    requires lo <= hi <= |a + b|
    ensures (a + b)[lo..hi] == (a + (b + c))[lo..hi]
  {
    assert a + (b + c) == (a + b) + c;
  }

  // ---- pre-roll to the socket ----

  /** Event e, after run es, opens a stream with the pre-roll of a detector that was fed these
      frames from state w on. */
  predicate OpensWith(
    cfg: S.Config, es: seq<S.Event>, e: S.Event, d: D.Config, w: D.State, frames: seq<seq<Byte>>, at: int -> int)
  {
    && Trace.Opens(e)
    && e.preRoll == W.Feed(d, w, frames, at).preRoll
    && !S.Run(cfg, es).state.Streaming? && S.Run(cfg, es + [e]).state.Streaming?
  }

  /** A wake word or a barge-in sends, under its new id, exactly the encodings of the last
      min(10, n) microphone frames, in order. */
  lemma {:induction false} PreRollReachesWire(
    cfg: S.Config, es: seq<S.Event>, e: S.Event, d: D.Config, w: D.State, frames: seq<seq<Byte>>, at: int -> int)
    requires Trace.FreshIds(es + [e]) && W.Booted(d, w) && W.WholeFrames(frames)
    requires OpensWith(cfg, es, e, d, w, frames, at)
    ensures Audio.Payloads(S.Run(cfg, es + [e]).sent, e.id)
         == Audio.Encoded(cfg, S.Run(cfg, es).encodeCalls, D.Suffix(frames, 10))
  {
    var s := S.Run(cfg, es);
    assert (es + [e])[..|es|] == es;
    S.RunSnoc(cfg, es, e);
    Safety.RunSane(cfg, es);
    Audio.RunAudio(cfg, es);
    var f := Trace.StepEffect(cfg, s, e);
    assert f.Opened?;
    Audio.OpenAdds(cfg, s, e);
    W.PreRollIsLastFrames(d, w, frames, at);
    assert Audio.Payloads(s.sent, e.id) == [];
  }

  // ---- the session's playback fields ----

  /** A session event with what it carries to the playback engine (decoded samples, the end
      reason, whether a sink can be had), or a tick of the drain timer, of which the session
      knows nothing. */
  datatype JointEvent =
    | Both(e: S.Event, pcm: seq<Byte>, normal: bool, available: bool)
    | Drain

  function SessionEvents(js: seq<JointEvent>): seq<S.Event> {
    if js == [] then []
    else SessionEvents(js[..|js| - 1]) + if js[|js| - 1].Both? then [js[|js| - 1].e] else []
  }

  /** What a joint event means to the playback engine when it meets session s. */
  function ToPlayback(s: S.Session, j: JointEvent): seq<P.Event> {
    match j
    case Drain => [P.DrainTick]
    case Both(e, pcm, normal, available) =>
      match e
      case PcmFrame => [P.Pcm(pcm)]
      case InboundStart(_) => [P.Prepare(available)]
      case InboundEnd => [P.StreamEnd(normal)]
      case SilenceTimeout => if s.silence.Fires(s.now) then [P.SilenceTimeout] else []
      case BargeInTimeout(_, _) => if s.bargeIn.Fires(s.now) && s.state.PlayingBack? then [P.Stop] else []
      case _ => []
  }

  function PlaybackEvents(cfg: S.Config, js: seq<JointEvent>): seq<P.Event> {
    if js == [] then []
    else
      var init := js[..|js| - 1];
      PlaybackEvents(cfg, init) + ToPlayback(S.Run(cfg, SessionEvents(init)), js[|js| - 1])
  }

  predicate Agree(s: S.Session, p: P.State) {
    s.speaking == p.speaking && s.silence.Due? == p.silenceRunning
  }

  /** The events that reach the playback engine. */
  predicate Reaches(e: S.Event) {
    e.PcmFrame? || e.InboundStart? || e.InboundEnd? || e.SilenceTimeout? || e.BargeInTimeout?
  }

  lemma OthersLeavePlayback(cfg: S.Config, s: S.Session, e: S.Event)
    requires !Reaches(e)
    ensures S.Step(cfg, s, e).speaking == s.speaking && S.Step(cfg, s, e).silence == s.silence
  {
  }

  lemma {:induction false} StepAgrees(
    cfg: S.Config, s: S.Session, e: S.Event, device: P.Device, p: P.State, j: JointEvent)
    requires Agree(s, p) && j.Both? && j.e == e
    ensures var pes := ToPlayback(s, j);
            |pes| <= 1 && Agree(S.Step(cfg, s, e), if pes == [] then p else P.Step(device, p, pes[0]))
  {
    if e.PcmFrame? {
      PcmAgrees(s, device, p, j.pcm);
    } else if Reaches(e) {
      ReachingAgrees(cfg, s, e, device, p, j);
    } else {
      OthersLeavePlayback(cfg, s, e);
    }
  }

  lemma {:induction false} ReachingAgrees(
    cfg: S.Config, s: S.Session, e: S.Event, device: P.Device, p: P.State, j: JointEvent)
    requires Agree(s, p) && j.Both? && j.e == e && Reaches(e) && !e.PcmFrame?
    ensures var pes := ToPlayback(s, j);
            |pes| <= 1 && Agree(S.Step(cfg, s, e), if pes == [] then p else P.Step(device, p, pes[0]))
  {
  }

  lemma {:induction false} PcmAgrees(s: S.Session, device: P.Device, p: P.State, pcm: seq<Byte>)
    requires Agree(s, p)
    ensures Agree(S.AfterPcmFrame(s), P.Step(device, p, P.Pcm(pcm)))
  {
    P.FlushKeepsSignals(device, P.Enqueue(p, pcm));
  }

  lemma {:induction false} PlaybackSnoc(device: P.Device, available: bool, pes: seq<P.Event>, more: seq<P.Event>)
    requires |more| <= 1
    ensures P.Run(device, available, pes + more)
         == if more == [] then P.Run(device, available, pes)
            else P.Step(device, P.Run(device, available, pes), more[0])
  {
    if more == [] {
      assert pes + more == pes;
    } else {
      assert (pes + more)[..|pes|] == pes;
    }
  }

  lemma {:induction false} BothAgrees(
    cfg: S.Config, device: P.Device, available: bool, es: seq<S.Event>, pes: seq<P.Event>, j: JointEvent)
    requires j.Both? && Agree(S.Run(cfg, es), P.Run(device, available, pes))
    ensures Agree(S.Run(cfg, es + [j.e]), P.Run(device, available, pes + ToPlayback(S.Run(cfg, es), j)))
  {
    StepAgrees(cfg, S.Run(cfg, es), j.e, device, P.Run(device, available, pes), j);
    S.RunSnoc(cfg, es, j.e);
    PlaybackSnoc(device, available, pes, ToPlayback(S.Run(cfg, es), j));
  }

  lemma {:induction false} DrainAgrees(device: P.Device, available: bool, s: S.Session, pes: seq<P.Event>)
    requires Agree(s, P.Run(device, available, pes))
    ensures Agree(s, P.Run(device, available, pes + [P.DrainTick]))
  {
    P.FlushKeepsSignals(device, P.Run(device, available, pes));
    PlaybackSnoc(device, available, pes, [P.DrainTick]);
  }

  /** In every joint run from construction, with drain ticks anywhere, any device, any frame
      contents and any sink availability: the session's speaking flag and silence timer are
      those of the playback engine. */
  lemma {:induction false} PlaybackAgrees(cfg: S.Config, device: P.Device, available: bool, js: seq<JointEvent>)
    ensures Agree(S.Run(cfg, SessionEvents(js)), P.Run(device, available, PlaybackEvents(cfg, js)))
    decreases |js|
  {
    if js == [] {
    } else {
      var init, j := js[..|js| - 1], js[|js| - 1];
      var es, pes := SessionEvents(init), PlaybackEvents(cfg, init);
      PlaybackAgrees(cfg, device, available, init);
      if j.Both? {
        BothAgrees(cfg, device, available, es, pes, j);
      } else {
        assert es + [] == es;
        DrainAgrees(device, available, S.Run(cfg, es), pes);
      }
    }
  }
}
