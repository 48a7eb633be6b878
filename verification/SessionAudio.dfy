/**
  Audio conservation: what is sent under one stream id is the encoded pre-roll followed by one
  contiguous slice of the live encoder output, and the slices of successive streams are
  disjoint and in order.
 */
module SessionAudio {
  import opened Common
  import opened Framing
  import opened Session
  import Safety = SessionSafety
  import Trace = SessionTrace

  /** The payloads sent under an id. */
  function Payloads(t: seq<Message>, id: Id): seq<Packet> {
    if t == [] then []
    else
      var m := t[|t| - 1];
      Payloads(t[..|t| - 1], id) + if m.Audio? && m.id == id then [m.payload] else []
  }

  /** Everything the live encoder has delivered, whatever state it arrived in. */
  function Live(es: seq<Event>): seq<Packet> {
    if es == [] then []
    else Live(es[..|es| - 1]) + if es[|es| - 1].OpusFrame? then [es[|es| - 1].packet] else []
  }

  /** The packets a pre-roll is encoded into. */
  function Encoded(cfg: Config, calls: nat, frames: seq<seq<Byte>>): seq<Packet>
    decreases |frames|
  {
    if frames == [] then []
    else
      var rest := Encoded(cfg, calls + 1, frames[1..]);
      match cfg.encode(calls, frames[0])
      case None => rest
      case Some(p) => [p] + rest
  }

  /** One upload: its encoded pre-roll and the range of live output sent after it. */
  datatype Upload = Upload(id: Id, preRoll: seq<Packet>, from: nat, to: nat)

  /** The upload that event e opens when n live packets have been delivered. */
  function NewUpload(cfg: Config, s: Session, e: Event, n: nat): Upload
    requires Trace.Opens(e)
  {
    Upload(e.id, Encoded(cfg, s.encodeCalls, Frames(e.preRoll, FRAME_BYTES)), n, n)
  }

  /** The uploads of a run, oldest first. */
  function Uploads(cfg: Config, es: seq<Event>): seq<Upload> {
    if es == [] then []
    else
      var init := es[..|es| - 1];
      var e := es[|es| - 1];
      var s := Run(cfg, init);
      var ups := Uploads(cfg, init);
      var n := |Live(init)|;
      if !s.state.Streaming? && Run(cfg, es).state.Streaming? && Trace.Opens(e) then
        ups + [NewUpload(cfg, s, e, n)]
      else if e.OpusFrame? && s.state.Streaming? && ups != [] then
        ups[|ups| - 1 := ups[|ups| - 1].(to := n + 1)]
      else ups
  }

  /** The uploads account for a trace: ids in start order, slices in order and disjoint, and
      the payloads under each id are its pre-roll and its slice. */
  ghost predicate Accounts(t: seq<Message>, live: seq<Packet>, ups: seq<Upload>) {
    Ordered(ups, |live|) && Paid(t, live, ups) && StartIds(t) == UploadIds(ups)
  }

  /** Distinct ids, and slices of the first n live packets that follow one another. */
  ghost predicate Ordered(ups: seq<Upload>, n: nat) {
    && (forall k :: 0 <= k < |ups| ==> ups[k].from <= ups[k].to <= n)
    && (forall j, k :: 0 <= j < k < |ups| ==> ups[j].to <= ups[k].from && ups[j].id != ups[k].id)
  }

  ghost predicate Paid(t: seq<Message>, live: seq<Packet>, ups: seq<Upload>)
    requires Ordered(ups, |live|)
  {
    forall k :: 0 <= k < |ups| ==>
      Payloads(t, ups[k].id) == ups[k].preRoll + live[ups[k].from..ups[k].to]
  }

  function UploadIds(ups: seq<Upload>): (ids: seq<Id>)
    ensures |ids| == |ups| && forall k :: 0 <= k < |ups| ==> ids[k] == ups[k].id
  {
    seq(|ups|, k requires 0 <= k < |ups| => ups[k].id)
  }

  /** The ids of the streams started, in order. */
  function StartIds(t: seq<Message>): seq<Id> {
    if t == [] then []
    else StartIds(t[..|t| - 1]) + if t[|t| - 1].StreamStart? then [t[|t| - 1].id] else []
  }

  lemma {:induction false} PayloadsAppend(t: seq<Message>, u: seq<Message>, id: Id)
    ensures Payloads(t + u, id) == Payloads(t, id) + Payloads(u, id)
    decreases |u|
  {
    if u == [] {
      assert t + u == t;
    } else {
      var v := u[..|u| - 1];
      PayloadsAppend(t, v, id);
      assert (t + u)[..|t + u| - 1] == t + v;
    }
  }

  lemma {:induction false} StartIdsAppend(t: seq<Message>, u: seq<Message>)
    ensures StartIds(t + u) == StartIds(t) + StartIds(u)
    decreases |u|
  {
    if u == [] {
      assert t + u == t;
    } else {
      var v := u[..|u| - 1];
      var last := if u[|u| - 1].StreamStart? then [u[|u| - 1].id] else [];
      StartIdsAppend(t, v);
      assert (t + u)[..|t + u| - 1] == t + v && (t + u)[|t + u| - 1] == u[|u| - 1];
      assert StartIds(u) == StartIds(v) + last && StartIds(t + u) == StartIds(t + v) + last;
    }
  }

  lemma {:induction false} OneMessage(m: Message, id: Id)
    ensures Payloads([m], id) == if m.Audio? && m.id == id then [m.payload] else []
    ensures StartIds([m]) == if m.StreamStart? then [m.id] else []
  {
    assert [m][..0] == [];
  }

  lemma {:induction false} AppendOne(t: seq<Message>, m: Message, id: Id)
    ensures Payloads(t + [m], id) == Payloads(t, id) + if m.Audio? && m.id == id then [m.payload] else []
    ensures StartIds(t + [m]) == StartIds(t) + if m.StreamStart? then [m.id] else []
  {
    assert (t + [m])[..|t|] == t;
  }

  /** Two messages without payload. */
  lemma {:induction false} AppendTwo(t: seq<Message>, m: Message, n: Message, id: Id)
    requires !m.Audio? && !n.Audio? && !m.StreamStart?
    ensures Payloads(t + [m, n], id) == Payloads(t, id)
    ensures StartIds(t + [m, n]) == StartIds(t) + if n.StreamStart? then [n.id] else []
  {
    AppendOne(t, m, id);
    AppendOne(t + [m], n, id);
    assert t + [m] + [n] == t + [m, n];
  }

  lemma {:induction false} PreRollPayloads(cfg: Config, calls: nat, id: Id, frames: seq<seq<Byte>>, other: Id)
    ensures var msgs := PreRollAudio(cfg, calls, id, frames);
            && Payloads(msgs, other) == (if other == id then Encoded(cfg, calls, frames) else [])
            && StartIds(msgs) == []
    decreases |frames|
  {
    if frames == [] {
    } else {
      PreRollPayloads(cfg, calls + 1, id, frames[1..], other);
      var rest := PreRollAudio(cfg, calls + 1, id, frames[1..]);
      match cfg.encode(calls, frames[0])
      case None =>
      case Some(p) =>
        OneMessage(Audio(id, p), other);
        PayloadsAppend([Audio(id, p)], rest, other);
        StartIdsAppend([Audio(id, p)], rest);
    }
  }

  /** What a stream's opening block adds under each id. */
  lemma {:induction false} OpenPayloads(
    cfg: Config, t: seq<Message>, a: Message, calls: nat, id: Id, frames: seq<seq<Byte>>, other: Id)
    requires Trace.Announces(a)
    ensures var u := t + [a, StreamStart(id)] + PreRollAudio(cfg, calls, id, frames);
            && Payloads(u, other) == Payloads(t, other) + (if other == id then Encoded(cfg, calls, frames) else [])
            && StartIds(u) == StartIds(t) + [id]
  {
    var head := [a, StreamStart(id)];
    PreRollPayloads(cfg, calls, id, frames, other);
    AppendTwo(t, a, StreamStart(id), other);
    PayloadsAppend(t + head, PreRollAudio(cfg, calls, id, frames), other);
    StartIdsAppend(t + head, PreRollAudio(cfg, calls, id, frames));
  }

  /** Only started ids carry payloads. */
  ghost predicate PayloadsWithin(t: seq<Message>, used: set<Id>) {
    forall id :: id !in used ==> Payloads(t, id) == []
  }

  ghost predicate AudioInv(s: Session, live: seq<Packet>, ups: seq<Upload>, used: set<Id>) {
    && Accounts(s.sent, live, ups)
    && PayloadsWithin(s.sent, used)
    && (forall k :: 0 <= k < |ups| ==> ups[k].id in used)
    && (s.state.Streaming? ==>
          ups != [] && ups[|ups| - 1].id == s.activeId && ups[|ups| - 1].to == |live|)
  }

  /** From t to t' a message block added payloads under one id only, and these start ids. */
  ghost predicate Adds(t: seq<Message>, t': seq<Message>, id: Id, payloads: seq<Packet>, ids: seq<Id>) {
    && StartIds(t') == StartIds(t) + ids
    && Payloads(t', id) == Payloads(t, id) + payloads
    && forall other :: other != id ==> Payloads(t', other) == Payloads(t, other)
  }

  lemma {:induction false} OrderedSnoc(ups: seq<Upload>, up: Upload, n: nat)
    requires Ordered(ups, n) && up.from == up.to == n && forall k :: 0 <= k < |ups| ==> ups[k].id != up.id
    ensures Ordered(ups + [up], n)
  {
  }

  lemma {:induction false} AccountForOpen(
    t: seq<Message>, t': seq<Message>, live: seq<Packet>, ups: seq<Upload>, up: Upload)
    requires Accounts(t, live, ups) && Adds(t, t', up.id, up.preRoll, [up.id])
    requires up.from == up.to == |live| && Payloads(t, up.id) == []
    requires forall k :: 0 <= k < |ups| ==> ups[k].id != up.id
    ensures Accounts(t', live, ups + [up])
  {
    var ups' := ups + [up];
    OrderedSnoc(ups, up, |live|);
    forall k | 0 <= k < |ups'|
      ensures Payloads(t', ups'[k].id) == ups'[k].preRoll + live[ups'[k].from..ups'[k].to]
    {
      if k < |ups| {
        assert ups'[k] == ups[k];
      } else {
        assert ups'[k] == up && live[up.from..up.to] == [];
      }
    }
    assert UploadIds(ups') == UploadIds(ups) + [up.id];
  }

  lemma {:induction false} AccountForFrame(
    t: seq<Message>, t': seq<Message>, live: seq<Packet>, ups: seq<Upload>, p: Packet)
    requires Accounts(t, live, ups) && ups != [] && ups[|ups| - 1].to == |live|
    requires Adds(t, t', ups[|ups| - 1].id, [p], [])
    ensures Accounts(t', live + [p], ups[|ups| - 1 := ups[|ups| - 1].(to := |live| + 1)])
  {
    var last := |ups| - 1;
    var ups' := ups[last := ups[last].(to := |live| + 1)];
    forall k | 0 <= k < |ups'|
      ensures Payloads(t', ups'[k].id) == ups'[k].preRoll + (live + [p])[ups'[k].from..ups'[k].to]
    {
      if k == last {
        assert (live + [p])[ups[k].from..|live| + 1] == live[ups[k].from..|live|] + [p];
      } else {
        assert (live + [p])[ups[k].from..ups[k].to] == live[ups[k].from..ups[k].to];
      }
    }
    assert UploadIds(ups') == UploadIds(ups);
  }

  lemma {:induction false} OpenAdds(cfg: Config, s: Session, e: Event)
    requires Trace.Effects(cfg, s, e, Trace.Opened)
    ensures Adds(s.sent, Step(cfg, s, e).sent, e.id,
                 Encoded(cfg, s.encodeCalls, Frames(e.preRoll, FRAME_BYTES)), [e.id])
  {
    var t' := Step(cfg, s, e).sent;
    var frames := Frames(e.preRoll, FRAME_BYTES);
    var audio := PreRollAudio(cfg, s.encodeCalls, e.id, frames);
    var a :| Trace.Announces(a) && t' == s.sent + [a, StreamStart(e.id)] + audio;
    OpenPayloads(cfg, s.sent, a, s.encodeCalls, e.id, frames, e.id);
    forall other | other != e.id ensures Payloads(t', other) == Payloads(s.sent, other) {
      OpenPayloads(cfg, s.sent, a, s.encodeCalls, e.id, frames, other);
    }
  }

  lemma {:induction false} FrameAdds(t: seq<Message>, id: Id, p: Packet)
    ensures Adds(t, t + [Audio(id, p)], id, [p], [])
  {
    forall other ensures Payloads(t + [Audio(id, p)], other) == Payloads(t, other) + (if other == id then [p] else [])
    {
      AppendOne(t, Audio(id, p), other);
    }
    AppendOne(t, Audio(id, p), id);
  }

  lemma {:induction false} OpenKeeps(
    cfg: Config, s: Session, e: Event, live: seq<Packet>, ups: seq<Upload>, used: set<Id>)
    requires AudioInv(s, live, ups, used) && Trace.Effects(cfg, s, e, Trace.Opened) && e.id !in used
    ensures var up := NewUpload(cfg, s, e, |live|);
            AudioInv(Step(cfg, s, e), live, ups + [up], used + {e.id})
  {
    var up := NewUpload(cfg, s, e, |live|);
    OpenAdds(cfg, s, e);
    AccountForOpen(s.sent, Step(cfg, s, e).sent, live, ups, up);
  }

  lemma {:induction false} FrameKeeps(
    cfg: Config, s: Session, e: Event, live: seq<Packet>, ups: seq<Upload>, used: set<Id>)
    requires AudioInv(s, live, ups, used) && Trace.Effects(cfg, s, e, Trace.Sent)
    ensures AudioInv(Step(cfg, s, e), live + [e.packet], ups[|ups| - 1 := ups[|ups| - 1].(to := |live| + 1)], used)
  {
    FrameAdds(s.sent, s.activeId, e.packet);
    AccountForFrame(s.sent, s.sent + [Audio(s.activeId, e.packet)], live, ups, e.packet);
  }

  lemma {:induction false} CloseKeeps(
    cfg: Config, s: Session, e: Event, live: seq<Packet>, ups: seq<Upload>, used: set<Id>)
    requires AudioInv(s, live, ups, used) && Trace.Effects(cfg, s, e, Trace.Closed)
    ensures AudioInv(Step(cfg, s, e), live, ups, used)
  {
    var s' := Step(cfg, s, e);
    var r :| s'.sent == s.sent + [SpeechEnded(s.activeId), StreamEnd(s.activeId, r)];
    forall other
      ensures Payloads(s'.sent, other) == Payloads(s.sent, other) && StartIds(s'.sent) == StartIds(s.sent)
    {
      AppendTwo(s.sent, SpeechEnded(s.activeId), StreamEnd(s.activeId, r), other);
    }
  }

  /** A frame that is not sent leaves every slice as it was. */
  lemma {:induction false} LiveGrows(s: Session, live: seq<Packet>, ups: seq<Upload>, used: set<Id>, p: Packet)
    requires AudioInv(s, live, ups, used) && !s.state.Streaming?
    ensures AudioInv(s, live + [p], ups, used)
  {
    forall k | 0 <= k < |ups|
      ensures (live + [p])[ups[k].from..ups[k].to] == live[ups[k].from..ups[k].to]
    {
    }
  }

  /** How the bookkeeping moves with each effect of a step. */
  lemma {:induction false} UploadsStep(cfg: Config, es: seq<Event>, f: Trace.Effect)
    requires es != []
    requires var init := es[..|es| - 1]; Trace.Effects(cfg, Run(cfg, init), es[|es| - 1], f)
    requires Run(cfg, es[..|es| - 1]).state.Streaming? ==> Uploads(cfg, es[..|es| - 1]) != []
    ensures
      var init := es[..|es| - 1];
      var e := es[|es| - 1];
      var s := Run(cfg, init);
      var ups := Uploads(cfg, init);
      var n := |Live(init)|;
      match f
      case Opened =>
        Live(es) == Live(init)
        && Uploads(cfg, es) == ups + [NewUpload(cfg, s, e, n)]
      case Sent =>
        Live(es) == Live(init) + [e.packet]
        && Uploads(cfg, es) == ups[|ups| - 1 := ups[|ups| - 1].(to := n + 1)]
      case _ =>
        Uploads(cfg, es) == ups
        && Live(es) == Live(init) + if e.OpusFrame? && !s.state.Streaming? then [e.packet] else []
  {
  }

  lemma {:induction false} RunAudio(cfg: Config, es: seq<Event>)
    requires Trace.FreshIds(es)
    ensures AudioInv(Run(cfg, es), Live(es), Uploads(cfg, es), Trace.Used(es))
    decreases |es|
  {
    if es == [] {
    } else {
      var init := es[..|es| - 1];
      var e := es[|es| - 1];
      var s := Run(cfg, init);
      RunAudio(cfg, init);
      Safety.RunSane(cfg, init);
      var f := Trace.StepEffect(cfg, s, e);
      UploadsStep(cfg, es, f);
      StepAudio(cfg, s, e, f, Live(init), Uploads(cfg, init), Trace.Used(init));
      UsedGrows(Run(cfg, es), Live(es), Uploads(cfg, es), Trace.Used(init), Trace.Used(es), e, f);
    }
  }

  lemma {:induction false} UsedGrows(
    s: Session, live: seq<Packet>, ups: seq<Upload>, used: set<Id>, used': set<Id>, e: Event, f: Trace.Effect)
    requires used' == used + if Trace.Opens(e) then {e.id} else {}
    requires AudioInv(s, live, ups, if f.Opened? && Trace.Opens(e) then used + {e.id} else used)
    ensures AudioInv(s, live, ups, used')
  {
  }

  lemma {:induction false} StepAudio(
    cfg: Config, s: Session, e: Event, f: Trace.Effect, live: seq<Packet>, ups: seq<Upload>, used: set<Id>)
    requires AudioInv(s, live, ups, used) && Trace.Effects(cfg, s, e, f)
    requires Trace.Opens(e) ==> e.id !in used
    ensures
      var s' := Step(cfg, s, e);
      match f
      case Opened =>
        AudioInv(s', live, ups + [NewUpload(cfg, s, e, |live|)], used + {e.id})
      case Sent =>
        AudioInv(s', live + [e.packet], ups[|ups| - 1 := ups[|ups| - 1].(to := |live| + 1)], used)
      case _ =>
        AudioInv(s', live + if e.OpusFrame? && !s.state.Streaming? then [e.packet] else [], ups, used)
  {
    match f
    case Opened => OpenKeeps(cfg, s, e, live, ups, used);
    case Closed =>
      CloseKeeps(cfg, s, e, live, ups, used);
      assert live + [] == live;
    case Sent => FrameKeeps(cfg, s, e, live, ups, used);
    case Quiet =>
      assert live + [] == live;
      if e.OpusFrame? && !s.state.Streaming? {
        LiveGrows(s, live, ups, used, e.packet);
      }
  }

  /** Conservation, over every run with fresh ids and any teardowns. */
  lemma {:induction false} AudioConserved(cfg: Config, es: seq<Event>)
    requires Trace.FreshIds(es)
    ensures Accounts(Run(cfg, es).sent, Live(es), Uploads(cfg, es))
    ensures Run(cfg, es).state.Streaming? ==>
              var ups := Uploads(cfg, es);
              ups != [] && ups[|ups| - 1].id == Run(cfg, es).activeId && ups[|ups| - 1].to == |Live(es)|
  {
    RunAudio(cfg, es);
  }
}
