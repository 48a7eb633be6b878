/**
  The stream grammar of the outbound trace, over every run in which stream ids are fresh
  (each id is a newly created UUID), with teardowns allowed anywhere.
 */
module SessionTrace {
  import opened Framing
  import opened Session
  import Safety = SessionSafety

  predicate Announces(m: Message) { m.WakeWordDetected? || m.BargeIn? }

  /** j is the latest stream start before position i. */
  ghost predicate LatestStart(t: seq<Message>, j: int, i: int) {
    0 <= j < i <= |t| && t[j].StreamStart? && forall k :: j < k < i ==> !t[k].StreamStart?
  }

  predicate Closes(m: Message) { m.SpeechEnded? || m.StreamEnd? }

  /** The latest stream started before i is id, and nothing has closed it by i. */
  ghost predicate OpenBefore(t: seq<Message>, id: Id, i: int) {
    exists j :: LatestStart(t, j, i) && t[j].id == id && forall k :: j < k < i ==> !Closes(t[k])
  }

  /** The latest stream of the whole trace is still open. */
  ghost predicate Unended(t: seq<Message>) {
    exists j :: LatestStart(t, j, |t|) && forall k :: j < k < |t| ==> !t[k].StreamEnd?
  }

  ghost predicate StartsAnnounced(t: seq<Message>) {
    && (forall i :: 0 <= i < |t| && t[i].StreamStart? ==> i > 0 && Announces(t[i - 1]))
    && (forall i :: 0 <= i < |t| && Announces(t[i]) ==> i + 1 < |t| && t[i + 1].StreamStart?)
  }

  ghost predicate EndsPaired(t: seq<Message>) {
    && (forall i :: 0 <= i < |t| && t[i].SpeechEnded? ==>
          i + 1 < |t| && t[i + 1].StreamEnd? && t[i + 1].id == t[i].id)
    && (forall i :: 0 <= i < |t| && t[i].StreamEnd? ==>
          i > 0 && t[i - 1] == SpeechEnded(t[i].id))
  }

  /** No id is started twice and none is ended twice. */
  ghost predicate IdsUnique(t: seq<Message>) {
    && (forall i, j :: 0 <= i < j < |t| && t[i].StreamStart? && t[j].StreamStart? ==> t[i].id != t[j].id)
    && (forall i, j :: 0 <= i < j < |t| && t[i].StreamEnd? && t[j].StreamEnd? ==> t[i].id != t[j].id)
  }

  /** A closing pair names the latest start, which is open up to it; so does every audio frame. */
  ghost predicate InsideStream(t: seq<Message>) {
    && (forall i :: 0 <= i < |t| && t[i].SpeechEnded? ==> OpenBefore(t, t[i].id, i))
    && (forall i :: 0 <= i < |t| && t[i].Audio? ==> OpenBefore(t, t[i].id, i))
  }

  ghost predicate Grammar(t: seq<Message>) {
    StartsAnnounced(t) && EndsPaired(t) && IdsUnique(t) && InsideStream(t)
  }

  predicate Opens(e: Event) { e.WakeWord? || e.BargeInTimeout? }

  function Used(es: seq<Event>): set<Id> {
    if es == [] then {}
    else Used(es[..|es| - 1]) + if Opens(es[|es| - 1]) then {es[|es| - 1].id} else {}
  }

  /** Every id offered to open a stream is new. */
  predicate FreshIds(es: seq<Event>) {
    es != [] ==>
      var init := es[..|es| - 1];
      FreshIds(init) && (Opens(es[|es| - 1]) ==> es[|es| - 1].id !in Used(init))
  }

  ghost predicate StartedWithin(t: seq<Message>, ids: set<Id>) {
    forall i :: 0 <= i < |t| && t[i].StreamStart? ==> t[i].id in ids
  }

  // ---- appending the three kinds of block the session sends ----

  lemma {:induction false} OpenBeforeExtends(t: seq<Message>, u: seq<Message>, id: Id, i: int)
    requires i <= |t| && OpenBefore(t, id, i)
    ensures OpenBefore(t + u, id, i)
  {
    var j :| LatestStart(t, j, i) && t[j].id == id && forall k :: j < k < i ==> !Closes(t[k]);
    assert LatestStart(t + u, j, i);
  }

  lemma {:induction false} InsideExtends(t: seq<Message>, u: seq<Message>)
    requires InsideStream(t)
    ensures forall i :: 0 <= i < |t| && (t[i].SpeechEnded? || t[i].Audio?) ==> OpenBefore(t + u, t[i].id, i)
  {
    forall i | 0 <= i < |t| && (t[i].SpeechEnded? || t[i].Audio?) ensures OpenBefore(t + u, t[i].id, i) {
      OpenBeforeExtends(t, u, t[i].id, i);
    }
  }

  lemma {:induction false} StartAnnounced(t: seq<Message>, a: Message, id: Id)
    requires StartsAnnounced(t) && Announces(a)
    ensures StartsAnnounced(t + [a, StreamStart(id)])
  {
  }

  lemma {:induction false} StartUnique(t: seq<Message>, a: Message, id: Id)
    requires IdsUnique(t) && EndsPaired(t) && Announces(a)
    requires forall i :: 0 <= i < |t| && t[i].StreamStart? ==> t[i].id != id
    ensures IdsUnique(t + [a, StreamStart(id)]) && EndsPaired(t + [a, StreamStart(id)])
  {
  }

  lemma {:induction false} AppendStart(t: seq<Message>, a: Message, id: Id)
    requires Grammar(t) && Announces(a)
    requires forall i :: 0 <= i < |t| && t[i].StreamStart? ==> t[i].id != id
    ensures Grammar(t + [a, StreamStart(id)])
    ensures OpenBefore(t + [a, StreamStart(id)], id, |t| + 2)
  {
    var u := t + [a, StreamStart(id)];
    InsideExtends(t, [a, StreamStart(id)]);
    assert LatestStart(u, |t| + 1, |u|);
    StartAnnounced(t, a, id);
    StartUnique(t, a, id);
  }

  lemma {:induction false} OpenExtendsOverAudio(t: seq<Message>, id: Id, m: Message)
    requires OpenBefore(t, id, |t|) && m.Audio?
    ensures OpenBefore(t + [m], id, |t|) && OpenBefore(t + [m], id, |t| + 1)
  {
    var u := t + [m];
    var j :| LatestStart(t, j, |t|) && t[j].id == id && forall k :: j < k < |t| ==> !Closes(t[k]);
    assert LatestStart(u, j, |t|) && LatestStart(u, j, |u|);
    assert forall k :: j < k < |u| ==> !Closes(u[k]);
  }

  /** Messages that neither announce nor start a stream leave the announcements in order. */
  lemma {:induction false} AppendAnnounced(t: seq<Message>, w: seq<Message>)
    requires StartsAnnounced(t) && forall m :: m in w ==> m.Audio? || Closes(m)
    ensures StartsAnnounced(t + w)
  {
    var u := t + w;
    forall i | 0 <= i < |u| ensures i < |t| || u[i].Audio? || Closes(u[i]) {
      if i >= |t| {
        assert u[i] == w[i - |t|];
      }
    }
  }

  lemma {:induction false} AppendAudio(t: seq<Message>, id: Id, p: Packet)
    requires Grammar(t) && OpenBefore(t, id, |t|)
    ensures Grammar(t + [Audio(id, p)])
    ensures OpenBefore(t + [Audio(id, p)], id, |t| + 1)
  {
    var m := Audio(id, p);
    AppendAnnounced(t, [m]);
    OpenExtendsOverAudio(t, id, m);
    assert EndsPaired(t + [m]);
    assert IdsUnique(t + [m]);
    InsideExtends(t, [m]);
  }

  lemma {:induction false} AppendAudios(t: seq<Message>, id: Id, msgs: seq<Message>)
    requires Grammar(t) && OpenBefore(t, id, |t|)
    requires forall m :: m in msgs ==> m.Audio? && m.id == id
    ensures Grammar(t + msgs) && OpenBefore(t + msgs, id, |t + msgs|)
    decreases |msgs|
  {
    if msgs == [] {
      assert t + msgs == t;
    } else {
      AppendAudio(t, id, msgs[0].payload);
      assert t + [Audio(id, msgs[0].payload)] + msgs[1..] == t + msgs;
      AppendAudios(t + [Audio(id, msgs[0].payload)], id, msgs[1..]);
    }
  }

  /** An id that is open has not been ended. */
  lemma {:induction false} OpenNotEnded(t: seq<Message>, id: Id)
    requires Grammar(t) && OpenBefore(t, id, |t|)
    ensures forall i :: 0 <= i < |t| && t[i].StreamEnd? ==> t[i].id != id
  {
    var j :| LatestStart(t, j, |t|) && t[j].id == id && forall k :: j < k < |t| ==> !Closes(t[k]);
    forall i | 0 <= i < |t| && t[i].StreamEnd? ensures t[i].id != id {
      assert t[i - 1] == SpeechEnded(t[i].id);
      var j' :| LatestStart(t, j', i - 1) && t[j'].id == t[i].id;
      assert j' < j;
    }
  }

  lemma {:induction false} ClosePaired(t: seq<Message>, id: Id, r: Reason)
    requires EndsPaired(t)
    ensures EndsPaired(t + [SpeechEnded(id), StreamEnd(id, r)])
  {
  }

  lemma {:induction false} CloseUnique(t: seq<Message>, id: Id, r: Reason)
    requires Grammar(t) && OpenBefore(t, id, |t|)
    ensures IdsUnique(t + [SpeechEnded(id), StreamEnd(id, r)])
  {
    OpenNotEnded(t, id);
  }

  lemma {:induction false} CloseInside(t: seq<Message>, id: Id, r: Reason)
    requires InsideStream(t) && OpenBefore(t, id, |t|)
    ensures InsideStream(t + [SpeechEnded(id), StreamEnd(id, r)])
  {
    var w := [SpeechEnded(id), StreamEnd(id, r)];
    InsideExtends(t, w);
    OpenBeforeExtends(t, w, id, |t|);
  }

  lemma {:induction false} AppendClose(t: seq<Message>, id: Id, r: Reason)
    requires Grammar(t) && OpenBefore(t, id, |t|)
    ensures Grammar(t + [SpeechEnded(id), StreamEnd(id, r)])
    ensures !Unended(t + [SpeechEnded(id), StreamEnd(id, r)])
  {
    AppendAnnounced(t, [SpeechEnded(id), StreamEnd(id, r)]);
    ClosePaired(t, id, r);
    CloseUnique(t, id, r);
    CloseInside(t, id, r);
    ClosedIsEnded(t, id, r);
  }

  lemma {:induction false} ClosedIsEnded(t: seq<Message>, id: Id, r: Reason)
    ensures !Unended(t + [SpeechEnded(id), StreamEnd(id, r)])
  {
    var u := t + [SpeechEnded(id), StreamEnd(id, r)];
    forall j | LatestStart(u, j, |u|) ensures exists k :: j < k < |u| && u[k].StreamEnd? {
      assert u[|t| + 1].StreamEnd? && u[|t|].SpeechEnded?;
    }
  }

  lemma {:induction false} OpenIsUnended(t: seq<Message>, id: Id)
    requires OpenBefore(t, id, |t|)
    ensures Unended(t)
  {
  }

  // ---- one step, then every run ----

  /** How one step changes the trace: it opens a stream, closes the active one, sends one
      frame of it, or sends nothing. */
  datatype Effect = Opened | Closed | Sent | Quiet

  ghost predicate Effects(cfg: Config, s: Session, e: Event, f: Effect) {
    var s' := Step(cfg, s, e);
    match f
    case Opened =>
      && Opens(e) && !s.state.Streaming? && s'.state.Streaming? && s'.activeId == e.id
      && exists a :: Announces(a) && s'.sent == s.sent + [a, StreamStart(e.id)]
                      + PreRollAudio(cfg, s.encodeCalls, e.id, Frames(e.preRoll, FRAME_BYTES))
    case Closed =>
      && s.state.Streaming? && !s'.state.Streaming? && !Teardown(e)
      && exists r :: s'.sent == s.sent + [SpeechEnded(s.activeId), StreamEnd(s.activeId, r)]
    case Sent =>
      && e.OpusFrame? && s.state.Streaming?
      && s' == s.(sent := s.sent + [Audio(s.activeId, e.packet)])
    case Quiet =>
      && s'.sent == s.sent
      && (s'.state.Streaming? ==> s.state.Streaming? && s'.activeId == s.activeId)
      && (s.state.Streaming? && !s'.state.Streaming? ==> Teardown(e))
  }

  lemma StepEffect(cfg: Config, s: Session, e: Event) returns (f: Effect)
    requires Safety.Sane(s)
    ensures Effects(cfg, s, e, f)
    ensures f.Quiet? || !Teardown(e)
  {
    var s' := Step(cfg, s, e);
    if s'.sent == s.sent {
      f := Quiet;
    } else if e.OpusFrame? {
      f := Sent;
    } else if Opens(e) {
      f := Opened;
      var a := if e.WakeWord? then WakeWordDetected(e.score) else BargeIn(s.inboundId);
      assert Announces(a);
    } else {
      f := Closed;
      var r := if e.StreamingTimeout? then Timeout else Normal;
      assert s'.sent == s.sent + [SpeechEnded(s.activeId), StreamEnd(s.activeId, r)];
    }
  }

  /** The latest stream was torn down: its upload was dropped without a closing pair. */
  predicate Abandoned(cfg: Config, es: seq<Event>) {
    es != [] &&
      var init := es[..|es| - 1];
      !Run(cfg, es).state.Streaming?
      && (Abandoned(cfg, init) || (Teardown(es[|es| - 1]) && Run(cfg, init).state.Streaming?))
  }

  ghost predicate TraceInv(s: Session, used: set<Id>, abandoned: bool) {
    && Grammar(s.sent)
    && StartedWithin(s.sent, used)
    && (s.state.Streaming? ==> OpenBefore(s.sent, s.activeId, |s.sent|))
    && (Unended(s.sent) <==> s.state.Streaming? || abandoned)
  }

  lemma {:induction false} OpenedKeeps(cfg: Config, s: Session, e: Event, used: set<Id>)
    requires Effects(cfg, s, e, Opened) && Grammar(s.sent) && StartedWithin(s.sent, used) && e.id !in used
    ensures TraceInv(Step(cfg, s, e), used + {e.id}, false)
  {
    var s' := Step(cfg, s, e);
    var msgs := PreRollAudio(cfg, s.encodeCalls, e.id, Frames(e.preRoll, FRAME_BYTES));
    var a :| Announces(a) && s'.sent == s.sent + [a, StreamStart(e.id)] + msgs;
    AppendStart(s.sent, a, e.id);
    AppendAudios(s.sent + [a, StreamStart(e.id)], e.id, msgs);
    OpenIsUnended(s'.sent, e.id);
  }

  lemma {:induction false} ClosedKeeps(cfg: Config, s: Session, e: Event, used: set<Id>)
    requires Effects(cfg, s, e, Closed) && TraceInv(s, used, false)
    ensures TraceInv(Step(cfg, s, e), used, false)
  {
    var s' := Step(cfg, s, e);
    var r :| s'.sent == s.sent + [SpeechEnded(s.activeId), StreamEnd(s.activeId, r)];
    AppendClose(s.sent, s.activeId, r);
  }

  lemma {:induction false} SentKeeps(cfg: Config, s: Session, e: Event, used: set<Id>)
    requires Effects(cfg, s, e, Sent) && TraceInv(s, used, false)
    ensures TraceInv(Step(cfg, s, e), used, false)
  {
    AppendAudio(s.sent, s.activeId, e.packet);
    OpenIsUnended(Step(cfg, s, e).sent, s.activeId);
  }

  /** Over every run with fresh ids the trace obeys the grammar; and the latest stream is
      unended exactly in Streaming or when it was torn down. */
  lemma {:induction false} RunTrace(cfg: Config, es: seq<Event>)
    requires FreshIds(es)
    ensures TraceInv(Run(cfg, es), Used(es), Abandoned(cfg, es))
    decreases |es|
  {
    if es == [] {
    } else {
      var init := es[..|es| - 1];
      var e := es[|es| - 1];
      var s := Run(cfg, init);
      RunTrace(cfg, init);
      Safety.RunSane(cfg, init);
      var f := StepEffect(cfg, s, e);
      match f
      case Opened => OpenedKeeps(cfg, s, e, Used(init));
      case Closed => ClosedKeeps(cfg, s, e, Used(init));
      case Sent => SentKeeps(cfg, s, e, Used(init));
      case Quiet =>
    }
  }

  /** The trace obeys the grammar in every run with fresh ids. */
  lemma {:induction false} GrammarHolds(cfg: Config, es: seq<Event>)
    requires FreshIds(es)
    ensures Grammar(Run(cfg, es).sent)
  {
    RunTrace(cfg, es);
  }

  /** Being in Streaming agrees with the latest stream being unended, exactly when that
      stream was not torn down; in particular always, if no teardown is taken from Streaming. */
  lemma {:induction false} StreamingIffUnended(cfg: Config, es: seq<Event>)
    requires FreshIds(es)
    ensures (Run(cfg, es).state.Streaming? <==> Unended(Run(cfg, es).sent)) <==> !Abandoned(cfg, es)
    ensures !TornDown(cfg, es, Streaming) ==> !Abandoned(cfg, es)
  {
    RunTrace(cfg, es);
    AbandonedNeedsTeardown(cfg, es);
  }

  lemma {:induction false} AbandonedNeedsTeardown(cfg: Config, es: seq<Event>)
    ensures Abandoned(cfg, es) ==> TornDown(cfg, es, Streaming)
    decreases |es|
  {
    if es == [] {
    } else {
      AbandonedNeedsTeardown(cfg, es[..|es| - 1]);
    }
  }
}
