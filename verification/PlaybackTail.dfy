/** How the tail of a reply is played: writing stops only at a short write, and after the end of
    the stream the drain timer plays what is left. */
module PlaybackTail {
  import opened Common
  import opened Playback
  import opened PlaybackStale

  // ---- what is held, in terms of the events ----

  lemma {:induction false} EmptyFramesStay(device: Device, s: State)
    ensures HasEmptyFrame(Flush(device, s).jitter) <==> HasEmptyFrame(s.jitter)
  {
    if HasEmptyFrame(s.jitter) {
      EmptyFrameStays(device, s);
    } else {
      FlushShrinks(device, s);
    }
  }

  /** The queue holds an empty frame exactly when one came since it was cleared, and the bytes
      enqueued are those of the frames that did. */
  ghost predicate Holds(s: State, frames: seq<seq<Byte>>) {
    s.enqueued == Flatten(frames) && (HasEmptyFrame(s.jitter) <==> HasEmptyFrame(frames))
  }

  lemma {:induction false} EnqueueHolds(s: State, frames: seq<seq<Byte>>, frame: seq<Byte>)
    requires Holds(s, frames)
    ensures Holds(Enqueue(s, frame), frames + [frame])
  {
    FlattenAppend(frames, [frame]);
    assert [frame][1..] == [];
    EmptySnoc(frames, frame);
    EmptySnoc(s.jitter, frame);
  }

  lemma EmptySnoc(frames: seq<seq<Byte>>, frame: seq<Byte>)
    ensures HasEmptyFrame(frames + [frame]) <==> HasEmptyFrame(frames) || frame == []
  {
    var all := frames + [frame];
    if HasEmptyFrame(frames) {
      var i :| 0 <= i < |frames| && frames[i] == [];
      assert all[i] == [];
    } else if frame == [] {
      assert all[|frames|] == [];
    }
  }

  lemma {:induction false} FlushHolds(device: Device, s: State, frames: seq<seq<Byte>>)
    requires Holds(s, frames) && Conserved(s)
    ensures Holds(Flush(device, s), frames)
  {
    EmptyFramesStay(device, s);
    FlushConserves(device, s);
  }

  lemma {:induction false} StepHolds(device: Device, s: State, e: Event, frames: seq<seq<Byte>>)
    requires Holds(s, frames) && Conserved(s)
    ensures Holds(Step(device, s, e), if Clears(e) then [] else frames + if e.Pcm? then [e.frame] else [])
  {
    assert frames + [] == frames;
    match e
    case Pcm(frame) =>
      EnqueueHolds(s, frames, frame);
      EnqueueConserves(s, frame);
      FlushHolds(device, Enqueue(s, frame), frames + [frame]);
    case DrainTick => FlushHolds(device, s, frames);
    case _ =>
  }

  lemma {:induction false} RunHolds(device: Device, available: bool, es: seq<Event>)
    ensures Holds(Run(device, available, es), Held(es))
    decreases |es|
  {
    if es == [] {
    } else {
      var init := es[..|es| - 1];
      RunHolds(device, available, init);
      PcmConserved(device, available, init);
      StepHolds(device, Run(device, available, init), es[|es| - 1], Held(init));
    }
  }

  // ---- writing stops only at a short write ----

  /** The last write offered m bytes and did not take them all; what it left heads the queue. */
  ghost predicate ShortWrite(device: Device, s: State, m: nat) {
    && s.writes > 0 && s.jitter != []
    && var w := Written(device, s.writes - 1, m);
       (w < m || m == 0) && |s.jitter[0]| == m - if w > 0 then w else 0
  }

  lemma {:induction false} FlushStops(device: Device, s: State)
    ensures var t := Flush(device, s);
            t.open && t.jitter != [] ==> exists m :: ShortWrite(device, t, m)
    decreases |s.jitter|
  {
    if s.jitter == [] || !s.open {
    } else {
      var head := s.jitter[0];
      var t := Flush(device, s);
      var w := Written(device, s.writes, |head|);
      if w <= 0 || w < |head| {
        assert ShortWrite(device, t, |head|);
      } else {
        FlushStops(device, s.(writes := s.writes + 1, jitter := s.jitter[1..], accepted := s.accepted + head));
      }
    }
  }

  /** In every run: once a frame has come in on an open sink, the sink has taken all that came
      since the queue was last cleared, or its last write was short. */
  lemma {:induction false} PlaysPromptly(device: Device, available: bool, es: seq<Event>, frame: seq<Byte>)
    requires Run(device, available, es).open
    ensures var t := Run(device, available, es + [Pcm(frame)]);
            t.accepted == Flatten(Held(es + [Pcm(frame)])) || exists m :: ShortWrite(device, t, m)
  {
    var s := Run(device, available, es);
    RunSnoc(device, available, es, Pcm(frame));
    RunHolds(device, available, es + [Pcm(frame)]);
    PcmConserved(device, available, es + [Pcm(frame)]);
    FlushKeepsSignals(device, Enqueue(s, frame));
    FlushStops(device, Enqueue(s, frame));
  }

  // ---- the end of a stream ----

  function DrainTicks(n: nat): seq<Event> { seq(n, _ => DrainTick) }

  /** The drain timer runs if there is something to drain. */
  ghost predicate Armed(s: State) { s.jitter != [] ==> s.draining }

  lemma {:induction false} TickIsStep(device: Device, s: State)
    requires Armed(s)
    ensures Step(device, s, DrainTick) == Tick(device, s) && Armed(Tick(device, s))
  {
    FlushKeepsTimer(device, s);
  }

  lemma {:induction false} TicksAreEvents(device: Device, available: bool, es: seq<Event>, n: nat)
    requires Armed(Run(device, available, es))
    ensures Run(device, available, es + DrainTicks(n)) == Ticks(device, Run(device, available, es), n)
    ensures Armed(Run(device, available, es + DrainTicks(n)))
    decreases n
  {
    if n == 0 {
      assert es + DrainTicks(0) == es;
    } else {
      TicksAreEvents(device, available, es, n - 1);
      assert es + DrainTicks(n) == (es + DrainTicks(n - 1)) + [DrainTick];
      RunSnoc(device, available, es + DrainTicks(n - 1), DrainTick);
      TickIsStep(device, Ticks(device, Run(device, available, es), n - 1));
    }
  }

  lemma {:induction false} EndArms(device: Device, available: bool, es: seq<Event>)
    ensures var s, t := Run(device, available, es), Run(device, available, es + [StreamEnd(true)]);
            && Armed(t) && t.jitter == s.jitter && t.open == s.open
            && t.accepted == s.accepted && t.enqueued == s.enqueued
    ensures Held(es + [StreamEnd(true)]) == Held(es)
  {
    RunSnoc(device, available, es, StreamEnd(true));
    assert (es + [StreamEnd(true)])[..|es|] == es;
    assert Held(es) + [] == Held(es);
  }

  /** Until the i-th tick after the end of the stream, the sink has not refused a tick's first
      write outright. */
  ghost predicate Willing(device: Device, available: bool, es: seq<Event>, n: nat) {
    forall i: nat :: i < n ==> Takes(device, Run(device, available, es + [StreamEnd(true)] + DrainTicks(i)))
  }

  /** In every run: after the normal end of a reply on an open sink, when no frame since the queue
      was last cleared was empty and the sink takes at least a byte at each tick, as many ticks
      as bytes are left play them all, and the timer stops. */
  lemma {:induction false} TailIsPlayed(device: Device, available: bool, es: seq<Event>, n: nat)
    requires Run(device, available, es).open && !HasEmptyFrame(Held(es)) && Willing(device, available, es, n)
    requires n > 0 && n >= |Flatten(Held(es))| - |Run(device, available, es).accepted|
    ensures var t := Run(device, available, es + [StreamEnd(true)] + DrainTicks(n));
            t.jitter == [] && t.accepted == Flatten(Held(es)) && !t.draining
  {
    var end := es + [StreamEnd(true)];
    var s := Run(device, available, end);
    EndArms(device, available, es);
    RunHolds(device, available, es);
    PcmConserved(device, available, es);
    forall i: nat | i < n ensures Takes(device, Ticks(device, s, i)) {
      TicksAreEvents(device, available, end, i);
      assert Takes(device, Run(device, available, end + DrainTicks(i)));
    }
    NoEmptyIff(s.jitter);
    DrainTerminates(device, s, n);
    TicksAreEvents(device, available, end, n);
    TicksKeepHeld(end, n);
    RunHolds(device, available, end + DrainTicks(n));
    PcmConserved(device, available, end + DrainTicks(n));
  }

  lemma NoEmptyIff(jitter: seq<seq<Byte>>)
    ensures NoEmptyFrames(jitter) <==> !HasEmptyFrame(jitter)
  {
  }

  lemma {:induction false} TicksKeepHeld(es: seq<Event>, n: nat)
    ensures Held(es + DrainTicks(n)) == Held(es)
    decreases n
  {
    if n == 0 {
      assert es + DrainTicks(0) == es;
    } else {
      TicksKeepHeld(es, n - 1);
      var prev := es + DrainTicks(n - 1);
      assert es + DrainTicks(n) == prev + [DrainTick];
      assert (prev + [DrainTick])[..|prev|] == prev;
      assert Held(prev) + [] == Held(prev);
    }
  }

  /** In every run, the tail left at the normal end of a reply on an open sink can be played, by
      some device in some number of ticks, exactly when no frame since the queue was last cleared
      was empty. */
  lemma {:induction false} TailPlaysIff(device: Device, available: bool, es: seq<Event>)
    requires Run(device, available, es).open
    ensures (exists d, n :: Ticks(d, Run(device, available, es + [StreamEnd(true)]), n).jitter == [])
       <==> !HasEmptyFrame(Held(es))
  {
    var s := Run(device, available, es + [StreamEnd(true)]);
    EndArms(device, available, es);
    RunHolds(device, available, es);
    NoEmptyIff(s.jitter);
    DrainsIff(s);
  }
}
