/**
  Inbound playback: a jitter queue of PCM frames pushed into an audio device that may take a
  frame whole, in part or not at all, a drain timer for the tail, and the speaking/idle signal.
 */
module Playback {
  import opened Common

  datatype Signal = SpeakingSignal | IdleSignal

  /** device(k, n) is what the k-th write of n bytes answers: an error or refusal is not
      positive, and no more than n bytes are ever taken. */
  type Device = (nat, nat) -> int

  function Written(device: Device, k: nat, n: nat): (w: int)
    ensures w <= n
  {
    if device(k, n) > n then n else device(k, n)
  }

  /** accepted and enqueued are the PCM bytes the sink took and the frames brought since the
      queue was last cleared; writes counts every write ever made. */
  datatype State = State(
    open: bool, jitter: seq<seq<Byte>>, draining: bool, speaking: bool, silenceRunning: bool,
    writes: nat, accepted: seq<Byte>, enqueued: seq<Byte>, signals: seq<Signal>)

  datatype Event =
    | Prepare(available: bool)
    | Pcm(frame: seq<Byte>)
    | StreamEnd(normal: bool)
    | Stop
    | SilenceTimeout
    | DrainTick

  function Init(available: bool): State { State(available, [], false, false, false, 0, [], [], []) }

  /** Write heads until the queue is empty, or a write is refused or partial. */
  function Flush(device: Device, s: State): State
    decreases |s.jitter|
  {
    if s.jitter == [] || !s.open then s
    else
      var head := s.jitter[0];
      var w := Written(device, s.writes, |head|);
      var s' := s.(writes := s.writes + 1);
      if w <= 0 then s'
      else if w < |head| then s'.(jitter := [head[w..]] + s.jitter[1..], accepted := s.accepted + head[..w])
      else Flush(device, s'.(jitter := s.jitter[1..], accepted := s.accepted + head))
  }

  /** A frame joins the queue, playback is speaking, and the silence timer starts again. */
  function Enqueue(s: State, frame: seq<Byte>): State {
    Speak(s.(jitter := s.jitter + [frame], enqueued := s.enqueued + frame)).(silenceRunning := true)
  }

  function Speak(s: State): State {
    if s.speaking then s else s.(speaking := true, signals := s.signals + [SpeakingSignal])
  }

  function Hush(s: State): State {
    if s.speaking then s.(speaking := false, signals := s.signals + [IdleSignal]) else s
  }

  /** Drop the queue and the device. */
  function Clear(s: State): State {
    s.(open := false, jitter := [], draining := false, accepted := [], enqueued := [])
  }

  /** A timer that is not running does not fire. */
  function Step(device: Device, s: State, e: Event): State {
    match e
    case Prepare(available) =>
      var s' := s.(open := s.open || available);
      if s'.open then s'.(writes := s.writes + 1) else s'
    case Pcm(frame) =>
      Flush(device, Enqueue(s, frame))
    case StreamEnd(normal) =>
      var s' := Hush(s.(silenceRunning := false));
      if !normal then Clear(s') else s'.(draining := s.draining || s.jitter != [])
    case Stop => Hush(Clear(s).(silenceRunning := false))
    case SilenceTimeout => if s.silenceRunning then Hush(s.(silenceRunning := false)) else s
    case DrainTick => if s.draining then Tick(device, s) else s
  }

  /** One firing of the drain timer. */
  function Tick(device: Device, s: State): State {
    var s' := Flush(device, s);
    if s'.jitter == [] then s'.(draining := false) else s'
  }

  function Run(device: Device, available: bool, es: seq<Event>): State {
    if es == [] then Init(available) else Step(device, Run(device, available, es[..|es| - 1]), es[|es| - 1])
  }

  class PairionAudioPlayback {
    const device: Device
    var audioDevice: bool
    var jitterBuffer: seq<seq<Byte>>
    var drainTimer: bool
    var isSpeaking: bool
    var silenceTimer: bool
    var writes: nat
    var accepted: seq<Byte>
    var enqueued: seq<Byte>
    var signals: seq<Signal>

    function Abs(): State
      reads this
    {
      State(audioDevice, jitterBuffer, drainTimer, isSpeaking, silenceTimer, writes, accepted, enqueued, signals)
    }

    constructor (device: Device, available: bool)
      ensures this.device == device && Abs() == Init(available)
    {
      this.device := device;
      audioDevice, jitterBuffer, drainTimer, isSpeaking, silenceTimer := available, [], false, false, false;
      writes, accepted, enqueued, signals := 0, [], [], [];
    }

    /** The loop of handlePcmFrame and of the drain timer. */
    method WriteHeads()
      modifies this
      ensures Abs() == Flush(device, old(Abs()))
    {
      while jitterBuffer != [] && audioDevice
        invariant Flush(device, Abs()) == Flush(device, old(Abs()))
        decreases |jitterBuffer|
      {
        var head := jitterBuffer[0];
        var written := Written(device, writes, |head|);
        writes := writes + 1;
        if written <= 0 {
          return;
        }
        accepted := accepted + head[..written];
        if written < |head| {
          jitterBuffer := [head[written..]] + jitterBuffer[1..];
          return;
        }
        assert head[..written] == head;
        jitterBuffer := jitterBuffer[1..];
      }
    }

    method PreparePlayback(available: bool)
      modifies this
      ensures Abs() == Step(device, old(Abs()), Prepare(available))
    {
      if !audioDevice {
        audioDevice := available;
      }
      if audioDevice {
        writes := writes + 1;
      }
    }

    method HandlePcmFrame(pcm: seq<Byte>)
      modifies this
      ensures Abs() == Step(device, old(Abs()), Pcm(pcm))
    {
      jitterBuffer := jitterBuffer + [pcm];
      enqueued := enqueued + pcm;
      if !isSpeaking {
        isSpeaking := true;
        signals := signals + [SpeakingSignal];
      }
      silenceTimer := true;
      WriteHeads();
    }

    method EmitIdle()
      modifies this`isSpeaking, this`signals
      ensures Abs() == Hush(old(Abs()))
    {
      if isSpeaking {
        isSpeaking := false;
        signals := signals + [IdleSignal];
      }
    }

    method Discard()
      modifies this
      ensures Abs() == Clear(old(Abs()))
    {
      drainTimer := false;
      jitterBuffer := [];
      audioDevice := false;
      accepted, enqueued := [], [];
    }

    method HandleStreamEnd(normal: bool)
      modifies this
      ensures Abs() == Step(device, old(Abs()), StreamEnd(normal))
    {
      silenceTimer := false;
      EmitIdle();
      if !normal {
        Discard();
        return;
      }
      if jitterBuffer != [] {
        drainTimer := true;
      }
    }

    method StopPlayback()
      modifies this
      ensures Abs() == Step(device, old(Abs()), Stop)
    {
      Discard();
      silenceTimer := false;
      EmitIdle();
    }

    method OnSilenceTimeout()
      modifies this
      ensures Abs() == Step(device, old(Abs()), SilenceTimeout)
    {
      if silenceTimer {
        silenceTimer := false;
        EmitIdle();
      }
    }

    method OnDrainTimeout()
      modifies this
      ensures Abs() == Step(device, old(Abs()), DrainTick)
    {
      if drainTimer {
        WriteHeads();
        if jitterBuffer == [] {
          drainTimer := false;
        }
      }
    }
  }

  // ---- conservation ----

  ghost predicate Conserved(s: State) {
    s.accepted + Flatten(s.jitter) == s.enqueued
  }

  lemma {:induction false} FlushConserves(device: Device, s: State)
    requires Conserved(s)
    ensures Conserved(Flush(device, s)) && Flush(device, s).enqueued == s.enqueued
    decreases |s.jitter|
  {
    if s.jitter == [] || !s.open {
    } else {
      var head := s.jitter[0];
      var rest := s.jitter[1..];
      var w := Written(device, s.writes, |head|);
      if 0 < w < |head| {
        var parts := [head[w..]] + rest;
        assert parts[1..] == rest;
        assert head == head[..w] + head[w..];
        assert (s.accepted + head[..w]) + (head[w..] + Flatten(rest)) == s.accepted + (head + Flatten(rest));
      } else if w >= |head| && w > 0 {
        assert (s.accepted + head) + Flatten(rest) == s.accepted + (head + Flatten(rest));
        FlushConserves(device, s.(writes := s.writes + 1, jitter := rest, accepted := s.accepted + head));
      }
    }
  }

  lemma {:induction false} EnqueueConserves(s: State, frame: seq<Byte>)
    requires Conserved(s)
    ensures Conserved(s.(jitter := s.jitter + [frame], enqueued := s.enqueued + frame))
  {
    FlattenAppend(s.jitter, [frame]);
    assert [frame][1..] == [];
    assert s.accepted + (Flatten(s.jitter) + frame) == s.enqueued + frame;
  }

  /** In every run, with full, partial and refused writes in any order: what the sink has
      accepted followed by what is queued is what was enqueued since the last clear. Not a
      byte is lost, repeated or reordered. */
  lemma {:induction false} PcmConserved(device: Device, available: bool, es: seq<Event>)
    ensures Conserved(Run(device, available, es))
    decreases |es|
  {
    if es == [] {
    } else {
      var s := Run(device, available, es[..|es| - 1]);
      PcmConserved(device, available, es[..|es| - 1]);
      match es[|es| - 1]
      case Pcm(frame) =>
        EnqueueConserves(s, frame);
        FlushConserves(device, Enqueue(s, frame));
      case DrainTick => FlushConserves(device, s);
      case _ =>
    }
  }

  /** The speaking and idle signals alternate, beginning with speaking. */
  ghost predicate Alternates(s: State) {
    && (forall i :: 0 <= i < |s.signals| ==> s.signals[i] == if i % 2 == 0 then SpeakingSignal else IdleSignal)
    && (s.speaking <==> |s.signals| % 2 == 1)
  }

  lemma {:induction false} FlushKeepsSignals(device: Device, s: State)
    ensures Flush(device, s).signals == s.signals && Flush(device, s).speaking == s.speaking
    ensures Flush(device, s).open == s.open && Flush(device, s).silenceRunning == s.silenceRunning
    decreases |s.jitter|
  {
    if s.jitter == [] || !s.open {
    } else {
      var head := s.jitter[0];
      if Written(device, s.writes, |head|) >= |head| {
        FlushKeepsSignals(device, s.(writes := s.writes + 1, jitter := s.jitter[1..], accepted := s.accepted + head));
      }
    }
  }

  lemma {:induction false} StepAlternates(device: Device, s: State, e: Event)
    requires Alternates(s)
    ensures Alternates(Step(device, s, e))
  {
    match e
    case Pcm(frame) =>
      FlushKeepsSignals(device, Enqueue(s, frame));
    case DrainTick => FlushKeepsSignals(device, s);
    case _ =>
  }

  lemma {:induction false} SignalsAlternate(device: Device, available: bool, es: seq<Event>)
    ensures Alternates(Run(device, available, es))
    decreases |es|
  {
    if es == [] {
    } else {
      SignalsAlternate(device, available, es[..|es| - 1]);
      StepAlternates(device, Run(device, available, es[..|es| - 1]), es[|es| - 1]);
    }
  }

  // ---- the end of a stream ----

  /** A drain timer that runs without a sink has something to drain. */
  ghost predicate Settled(s: State) { s.draining && !s.open ==> s.jitter != [] }

  lemma {:induction false} FlushKeepsTimer(device: Device, s: State)
    ensures Flush(device, s).draining == s.draining
    ensures !s.open ==> Flush(device, s) == s
    decreases |s.jitter|
  {
    if s.jitter == [] || !s.open {
    } else {
      var head := s.jitter[0];
      if Written(device, s.writes, |head|) >= |head| {
        FlushKeepsTimer(device, s.(writes := s.writes + 1, jitter := s.jitter[1..], accepted := s.accepted + head));
      }
    }
  }

  lemma {:induction false} StepSettled(device: Device, s: State, e: Event)
    requires Settled(s)
    ensures Settled(Step(device, s, e))
  {
    match e
    case Pcm(frame) =>
      FlushKeepsTimer(device, Enqueue(s, frame));
      FlushKeepsSignals(device, Enqueue(s, frame));
    case DrainTick =>
      FlushKeepsTimer(device, s);
      FlushKeepsSignals(device, s);
    case _ =>
  }

  lemma {:induction false} RunSettled(device: Device, available: bool, es: seq<Event>)
    ensures Settled(Run(device, available, es))
    decreases |es|
  {
    if es == [] {
    } else {
      RunSettled(device, available, es[..|es| - 1]);
      StepSettled(device, Run(device, available, es[..|es| - 1]), es[|es| - 1]);
    }
  }

  /** In every run: the end of a stream does what stop does exactly when its reason is not
      normal, or when there is no sink and nothing queued or accepted. */
  lemma {:induction false} StreamEndIsStopIff(device: Device, available: bool, es: seq<Event>, normal: bool)
    ensures var s := Run(device, available, es);
            (Step(device, s, StreamEnd(normal)) == Step(device, s, Stop))
            <==> !normal || (!s.open && s.jitter == [] && s.accepted == [])
  {
    RunSettled(device, available, es);
    PcmConserved(device, available, es);
  }

  /** In every run: preparing a stream opens a sink when there is none and one is to be had, makes
      one write of its own to it, and touches nothing that is queued or was accepted. */
  lemma {:induction false} PrepareWarms(device: Device, available: bool, es: seq<Event>, opens: bool)
    ensures var s, t := Run(device, available, es), Run(device, available, es + [Prepare(opens)]);
            && t.open == (s.open || opens)
            && t.writes == s.writes + (if t.open then 1 else 0)
            && t.jitter == s.jitter && t.accepted == s.accepted && t.enqueued == s.enqueued
            && t.draining == s.draining
  {
    assert (es + [Prepare(opens)])[..|es|] == es;
  }

  // ---- draining ----

  predicate NoEmptyFrames(jitter: seq<seq<Byte>>) { forall i :: 0 <= i < |jitter| ==> jitter[i] != [] }

  function Ticks(device: Device, s: State, n: nat): State {
    if n == 0 then s else Tick(device, Ticks(device, s, n - 1))
  }

  /** The first write of the next tick is not refused. */
  predicate Takes(device: Device, s: State) {
    s.jitter != [] ==> s.open && device(s.writes, |s.jitter[0]|) >= 1
  }

  lemma {:induction false} FlushShrinks(device: Device, s: State)
    requires NoEmptyFrames(s.jitter)
    ensures NoEmptyFrames(Flush(device, s).jitter)
    ensures |Flatten(Flush(device, s).jitter)| <= |Flatten(s.jitter)|
    ensures Takes(device, s) && s.jitter != [] ==> |Flatten(Flush(device, s).jitter)| < |Flatten(s.jitter)|
    decreases |s.jitter|
  {
    if s.jitter == [] || !s.open {
    } else {
      var head := s.jitter[0];
      var rest := s.jitter[1..];
      var w := Written(device, s.writes, |head|);
      if 0 < w < |head| {
        assert ([head[w..]] + rest)[1..] == rest;
      } else if w >= |head| {
        FlushShrinks(device, s.(writes := s.writes + 1, jitter := rest, accepted := s.accepted + head));
      }
    }
  }

  lemma {:induction false} TicksShrink(device: Device, s: State, n: nat)
    requires NoEmptyFrames(s.jitter)
    requires forall i :: 0 <= i < n ==> Takes(device, Ticks(device, s, i))
    ensures var t := Ticks(device, s, n);
            NoEmptyFrames(t.jitter) && (t.jitter == [] || |Flatten(t.jitter)| <= |Flatten(s.jitter)| - n)
    decreases n
  {
    if n == 0 {
    } else {
      TicksShrink(device, s, n - 1);
      var t := Ticks(device, s, n - 1);
      assert Takes(device, t);
      FlushShrinks(device, t);
    }
  }

  lemma {:induction false} NoBytesLeft(jitter: seq<seq<Byte>>)
    requires NoEmptyFrames(jitter)
    ensures jitter == [] <==> |Flatten(jitter)| == 0
  {
  }

  /** With non-empty frames and a device that takes at least one byte per tick, the drain
      timer empties the queue within as many ticks as it holds bytes, and then stops. */
  lemma {:induction false} DrainTerminates(device: Device, s: State, n: nat)
    requires NoEmptyFrames(s.jitter) && 0 < n && n >= |Flatten(s.jitter)|
    requires forall i :: 0 <= i < n ==> Takes(device, Ticks(device, s, i))
    ensures Ticks(device, s, n).jitter == [] && !Ticks(device, s, n).draining
  {
    TicksShrink(device, s, n);
    NoBytesLeft(Ticks(device, s, n).jitter);
  }

  predicate HasEmptyFrame(jitter: seq<seq<Byte>>) { exists i :: 0 <= i < |jitter| && jitter[i] == [] }

  lemma {:induction false} EmptyFrameStays(device: Device, s: State)
    requires HasEmptyFrame(s.jitter)
    ensures HasEmptyFrame(Flush(device, s).jitter)
    decreases |s.jitter|
  {
    if !s.open {
    } else {
      var i :| 0 <= i < |s.jitter| && s.jitter[i] == [];
      var head := s.jitter[0];
      var rest := s.jitter[1..];
      var w := Written(device, s.writes, |head|);
      if 0 < w < |head| {
        assert ([head[w..]] + rest)[i] == [];
      } else if 0 < w {
        assert rest[i - 1] == [];
        EmptyFrameStays(device, s.(writes := s.writes + 1, jitter := rest, accepted := s.accepted + head));
      }
    }
  }

  /** An empty PCM frame, for which every write answers 0, is never dequeued, and blocks
      everything behind it on any device. */
  lemma {:induction false} EmptyFrameBlocks(device: Device, s: State, n: nat)
    requires HasEmptyFrame(s.jitter)
    ensures HasEmptyFrame(Ticks(device, s, n).jitter)
    decreases n
  {
    if n == 0 {
    } else {
      EmptyFrameBlocks(device, s, n - 1);
      EmptyFrameStays(device, Ticks(device, s, n - 1));
    }
  }

  lemma {:induction false} GreedyFlush(device: Device, s: State)
    requires s.open && NoEmptyFrames(s.jitter)
    requires forall k, n :: device(k, n) == n
    ensures Flush(device, s).jitter == []
    decreases |s.jitter|
  {
    if s.jitter == [] {
    } else {
      var head := s.jitter[0];
      GreedyFlush(device, s.(writes := s.writes + 1, jitter := s.jitter[1..], accepted := s.accepted + head));
    }
  }

  /** Exactly when an open queue can be drained at all, by some device in some number of
      ticks: when no frame in it is empty. */
  lemma {:induction false} DrainsIff(s: State)
    requires s.open
    ensures (exists device, n :: Ticks(device, s, n).jitter == []) <==> NoEmptyFrames(s.jitter)
  {
    if NoEmptyFrames(s.jitter) {
      var device: Device := (k: nat, n: nat) => n as int;
      GreedyFlush(device, s);
      assert Ticks(device, s, 0) == s;
      assert Ticks(device, s, 1) == Tick(device, s);
      assert Ticks(device, s, 1).jitter == [];
    } else {
      forall device, n ensures Ticks(device, s, n).jitter != [] {
        EmptyFrameBlocks(device, s, n);
      }
    }
  }
}
