/** What becomes of reply frames that arrive after playback was stopped: a barge-in closes the
    sink, and frames of the interrupted reply still in flight wait in the queue for the next one. */
module PlaybackStale {
  import opened Common
  import opened Playback

  predicate Clears(e: Event) { e.Stop? || (e.StreamEnd? && !e.normal) }

  ghost predicate NoClear(es: seq<Event>) { forall e :: e in es ==> !Clears(e) }

  ghost predicate NoPrepare(es: seq<Event>) { forall e :: e in es ==> !e.Prepare? }

  /** The frames that arrived since the queue was last cleared. */
  function Held(late: seq<Event>): seq<seq<Byte>> {
    if late == [] then []
    else
      var e := late[|late| - 1];
      if Clears(e) then []
      else Held(late[..|late| - 1]) + if e.Pcm? then [e.frame] else []
  }

  /** Everything a list of events brings. */
  function Brought(es: seq<Event>): seq<Byte> {
    if es == [] then []
    else Brought(es[..|es| - 1]) + if es[|es| - 1].Pcm? then es[|es| - 1].frame else []
  }

  function After(device: Device, s: State, es: seq<Event>): State {
    if es == [] then s else Step(device, After(device, s, es[..|es| - 1]), es[|es| - 1])
  }

  /** There is no sink, and the queue holds all that came since it was cleared. */
  ghost predicate Waiting(s: State, frames: seq<seq<Byte>>) {
    !s.open && s.accepted == [] && s.jitter == frames && s.enqueued == Flatten(frames)
  }

  lemma {:induction false} StepWaits(device: Device, s: State, frames: seq<seq<Byte>>, e: Event)
    requires Waiting(s, frames) && !e.Prepare?
    ensures Waiting(Step(device, s, e),
                    if Clears(e) then [] else frames + if e.Pcm? then [e.frame] else [])
  {
    match e
    case Pcm(frame) =>
      FlushKeepsTimer(device, Enqueue(s, frame));
      FlattenAppend(frames, [frame]);
      assert [frame][1..] == [];
    case DrainTick => FlushKeepsTimer(device, s);
    case _ =>
  }

  lemma {:induction false} RunSnoc(device: Device, available: bool, es: seq<Event>, e: Event)
    ensures Run(device, available, es + [e]) == Step(device, Run(device, available, es), e)
  {
    assert (es + [e])[..|es|] == es;
  }

  /** In every run: from a stop until the next stream is prepared, late frames are held. */
  lemma {:induction false} LateFramesWait(
    device: Device, available: bool, before: seq<Event>, late: seq<Event>)
    requires NoPrepare(late)
    ensures Waiting(Run(device, available, before + [Stop] + late), Held(late))
    decreases |late|
  {
    var start := before + [Stop];
    if late == [] {
      assert start + late == start;
      RunSnoc(device, available, before, Stop);
    } else {
      var init, e := late[..|late| - 1], late[|late| - 1];
      LateFramesWait(device, available, before, init);
      assert start + late == (start + init) + [e];
      RunSnoc(device, available, start + init, e);
      StepWaits(device, Run(device, available, start + init), Held(init), e);
    }
  }

  // ---- what reaches the sink ----

  lemma {:induction false} FlushExtends(device: Device, s: State)
    ensures s.accepted <= Flush(device, s).accepted
    decreases |s.jitter|
  {
    if s.jitter == [] || !s.open {
    } else {
      var head := s.jitter[0];
      if Written(device, s.writes, |head|) >= |head| {
        FlushExtends(device, s.(writes := s.writes + 1, jitter := s.jitter[1..], accepted := s.accepted + head));
      }
    }
  }

  lemma {:induction false} StepBrings(device: Device, s: State, e: Event)
    requires Conserved(s) && !Clears(e)
    ensures var t := Step(device, s, e);
            Conserved(t) && t.enqueued == s.enqueued + (if e.Pcm? then e.frame else [])
  {
    match e
    case Pcm(frame) =>
      EnqueueConserves(s, frame);
      FlushConserves(device, Enqueue(s, frame));
    case DrainTick => FlushConserves(device, s);
    case _ =>
  }

  lemma {:induction false} AfterBrings(device: Device, s: State, es: seq<Event>)
    requires Conserved(s) && NoClear(es)
    ensures var t := After(device, s, es); Conserved(t) && t.enqueued == s.enqueued + Brought(es)
    decreases |es|
  {
    if es == [] {
    } else {
      var init, e := es[..|es| - 1], es[|es| - 1];
      AfterBrings(device, s, init);
      StepBrings(device, After(device, s, init), e);
      assert (s.enqueued + Brought(init)) + (if e.Pcm? then e.frame else []) == s.enqueued + Brought(es);
    }
  }

  /** On every device and until the queue is cleared: the sink gets the held frames first, and
      no byte of the new reply before the last of theirs. */
  lemma {:induction false} HeldBytesFirst(device: Device, s: State, frames: seq<seq<Byte>>, es: seq<Event>)
    requires Waiting(s, frames) && NoClear(es)
    ensures After(device, s, es).accepted <= Flatten(frames) + Brought(es)
  {
    assert Conserved(s);
    AfterBrings(device, s, es);
  }

  /** An empty frame at the head keeps everything from the sink. */
  ghost predicate HeadBlocked(s: State) { s.accepted == [] && s.jitter != [] && s.jitter[0] == [] }

  lemma {:induction false} StepBlocked(device: Device, s: State, e: Event)
    requires HeadBlocked(s) && !Clears(e)
    ensures HeadBlocked(Step(device, s, e))
  {
  }

  lemma {:induction false} StaysBlocked(device: Device, s: State, es: seq<Event>)
    requires HeadBlocked(s) && NoClear(es)
    ensures HeadBlocked(After(device, s, es))
    decreases |es|
  {
    if es == [] {
    } else {
      StaysBlocked(device, s, es[..|es| - 1]);
      StepBlocked(device, After(device, s, es[..|es| - 1]), es[|es| - 1]);
    }
  }

  /** Some device and some continuation without a clear put held bytes on the sink. */
  ghost predicate HeldBytesPlay(s: State) {
    exists device, es :: NoClear(es) && Flatten(s.jitter) != [] && After(device, s, es).accepted != []
  }

  lemma {:induction false} NextReplyPlaysHeld(s: State, frames: seq<seq<Byte>>)
    requires Waiting(s, frames) && frames != [] && frames[0] != []
    ensures HeldBytesPlay(s)
  {
    var device: Device := (k: nat, n: nat) => n as int;
    var s' := Enqueue(Step(device, s, Prepare(true)), []);
    AfterTwo(device, s, Prepare(true), Pcm([]));
    assert s'.open && s'.jitter == frames + [[]];
    HeadIsWritten(device, s');
    assert After(device, s, [Prepare(true), Pcm([])]).accepted != [];
  }

  lemma {:induction false} AfterTwo(device: Device, s: State, e: Event, e': Event)
    ensures After(device, s, [e, e']) == Step(device, Step(device, s, e), e')
  {
    assert [e, e'][..1] == [e] && [e][..0] == [];
    assert After(device, s, [e]) == Step(device, s, e);
  }

  lemma {:induction false} HeadIsWritten(device: Device, s: State)
    requires s.open && s.jitter != [] && s.jitter[0] != []
    requires Written(device, s.writes, |s.jitter[0]|) == |s.jitter[0]|
    ensures Flush(device, s).accepted != []
  {
    FlushExtends(device, s.(writes := s.writes + 1, jitter := s.jitter[1..], accepted := s.accepted + s.jitter[0]));
  }

  /** In every run: bytes of a stopped reply can reach the sink, ahead of all of the next reply,
      exactly when frames of it arrive after the stop and before the next stream is prepared, and
      the first of them is not empty. */
  lemma {:induction false} StaleBytesIff(device: Device, available: bool, before: seq<Event>, late: seq<Event>)
    requires NoPrepare(late)
    ensures HeldBytesPlay(Run(device, available, before + [Stop] + late))
       <==> Held(late) != [] && Held(late)[0] != []
  {
    var s := Run(device, available, before + [Stop] + late);
    LateFramesWait(device, available, before, late);
    if Held(late) != [] && Held(late)[0] != [] {
      NextReplyPlaysHeld(s, Held(late));
    } else if Held(late) != [] {
      forall d, es | NoClear(es) ensures After(d, s, es).accepted == [] {
        StaysBlocked(d, s, es);
      }
    }
  }
}
