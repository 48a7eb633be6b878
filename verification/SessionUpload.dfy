/** When an upload ends: what takes the session out of Streaming, over single steps and runs. */
module SessionUpload {
  import opened Session
  import Safety = SessionSafety
  import Timing = SessionTiming
  import Trace = SessionTrace

  /** The user stopped talking, the streaming timeout came due, or a reply frame arrived while
      playback was silent: each sends the closing pair. */
  predicate Closes(cfg: Config, s: Session, e: Event) {
    Timing.DeliversEnd(cfg, s, e)
    || (e.StreamingTimeout? && s.streaming.Fires(s.now))
    || (e.PcmFrame? && !s.speaking)
  }

  predicate Interrupts(cfg: Config, s: Session, e: Event) { Teardown(e) || Closes(cfg, s, e) }

  ghost predicate SendsClose(cfg: Config, s: Session, e: Event, r: Reason) {
    Step(cfg, s, e).sent == s.sent + [SpeechEnded(s.activeId), StreamEnd(s.activeId, r)]
  }

  /** Exactly when a Streaming session leaves Streaming; otherwise it keeps its stream. */
  lemma LeavesStreaming(cfg: Config, s: Session, e: Event)
    requires Safety.Sane(s) && s.state.Streaming?
    ensures Step(cfg, s, e).state.Streaming? <==> !Interrupts(cfg, s, e)
    ensures Step(cfg, s, e).state.Streaming? ==> Step(cfg, s, e).activeId == s.activeId
  {
  }

  /** Exactly when a step sends a closing pair, and for which reason. */
  lemma {:induction false} ClosingPairIff(cfg: Config, s: Session, e: Event, r: Reason)
    requires Safety.Sane(s)
    ensures SendsClose(cfg, s, e, r)
       <==> s.state.Streaming? && Closes(cfg, s, e) && r == if e.StreamingTimeout? then Timeout else Normal
  {
    var f := Trace.StepEffect(cfg, s, e);
    var s' := Step(cfg, s, e);
    var n := |s.sent|;
    assert SendsClose(cfg, s, e, r) ==> s'.sent[n] == SpeechEnded(s.activeId) && s'.sent[n + 1].reason == r;
  }

  /** Event k opens a stream. */
  predicate OpenedAt(cfg: Config, es: seq<Event>, k: int) {
    0 <= k < |es| && !Run(cfg, es[..k]).state.Streaming? && Run(cfg, es[..k + 1]).state.Streaming?
  }

  lemma StepOpens(cfg: Config, s: Session, e: Event)
    requires !s.state.Streaming? && Step(cfg, s, e).state.Streaming?
    ensures Trace.Opens(e) && Step(cfg, s, e).activeId == e.id
  {
  }

  lemma {:induction false} FreshPrefix(es: seq<Event>, n: nat)
    requires n <= |es| && Trace.FreshIds(es)
    ensures Trace.FreshIds(es[..n])
    decreases |es|
  {
    if n == |es| {
      assert es[..n] == es;
    } else {
      var init := es[..|es| - 1];
      FreshPrefix(init, n);
      assert init[..n] == es[..n];
    }
  }

  lemma {:induction false} UsedHolds(es: seq<Event>, k: nat)
    requires k < |es| && Trace.Opens(es[k])
    ensures es[k].id in Trace.Used(es)
    decreases |es|
  {
    if k == |es| - 1 {
    } else {
      UsedHolds(es[..|es| - 1], k);
    }
  }

  /** An id opened at event k is not opened again. */
  lemma {:induction false} OpensOnce(es: seq<Event>, k: nat, n: nat)
    requires k < n < |es| && Trace.FreshIds(es) && Trace.Opens(es[k]) && Trace.Opens(es[n])
    ensures es[n].id != es[k].id
  {
    FreshPrefix(es, n + 1);
    assert es[..n + 1][..n] == es[..n];
    UsedHolds(es[..n], k);
  }

  /** The stream opened at event k is the one being sent before event n. */
  predicate StillOpen(cfg: Config, es: seq<Event>, k: int, n: int)
    requires 0 <= k < |es| && Trace.Opens(es[k]) && 0 <= n <= |es|
  {
    Run(cfg, es[..n]).state.Streaming? && Run(cfg, es[..n]).activeId == es[k].id
  }

  predicate InterruptedAt(cfg: Config, es: seq<Event>, j: int) {
    0 <= j < |es| && Interrupts(cfg, Run(cfg, es[..j]), es[j])
  }

  ghost predicate Uninterrupted(cfg: Config, es: seq<Event>, k: int, n: int) {
    0 <= k < n <= |es| && forall j :: k < j < n ==> !InterruptedAt(cfg, es, j)
  }

  /** In every run with fresh ids: the upload opened at event k is still open before event n
      exactly when none of the events between is a teardown, a speechEnded, a due timeout or a
      reply frame arriving at silent playback. */
  lemma {:induction false} UploadStaysOpenIff(cfg: Config, es: seq<Event>, k: nat, n: nat)
    requires Trace.FreshIds(es) && OpenedAt(cfg, es, k) && k < n <= |es|
    ensures Trace.Opens(es[k])
    ensures StillOpen(cfg, es, k, n) <==> Uninterrupted(cfg, es, k, n)
  {
    OpeningIsOpen(cfg, es, k);
    StaysOpenIff(cfg, es, k, n);
  }

  ghost predicate OpenExactly(cfg: Config, es: seq<Event>, k: int, n: int)
    requires 0 <= k < |es| && Trace.Opens(es[k]) && 0 <= n <= |es|
  {
    StillOpen(cfg, es, k, n) <==> Uninterrupted(cfg, es, k, n)
  }

  lemma {:induction false} StaysOpenIff(cfg: Config, es: seq<Event>, k: nat, n: nat)
    requires Trace.FreshIds(es) && k < n <= |es| && Trace.Opens(es[k]) && StillOpen(cfg, es, k, k + 1)
    ensures OpenExactly(cfg, es, k, n)
    decreases n
  {
    if n == k + 1 {
    } else {
      StaysOpenIff(cfg, es, k, n - 1);
      StaysOpenStep(cfg, es, k, n - 1);
    }
  }

  lemma {:induction false} StaysOpenStep(cfg: Config, es: seq<Event>, k: nat, n: nat)
    requires Trace.FreshIds(es) && k < n < |es| && Trace.Opens(es[k]) && OpenExactly(cfg, es, k, n)
    ensures OpenExactly(cfg, es, k, n + 1)
  {
    StillOpenStep(cfg, es, k, n);
    UninterruptedStep(cfg, es, k, n);
  }

  lemma {:induction false} OpeningIsOpen(cfg: Config, es: seq<Event>, k: nat)
    requires OpenedAt(cfg, es, k)
    ensures Trace.Opens(es[k]) && StillOpen(cfg, es, k, k + 1)
  {
    RunPrefix(cfg, es, k);
    StepOpens(cfg, Run(cfg, es[..k]), es[k]);
  }

  lemma UninterruptedStep(cfg: Config, es: seq<Event>, k: nat, n: nat)
    requires k < n < |es|
    ensures Uninterrupted(cfg, es, k, n + 1)
       <==> Uninterrupted(cfg, es, k, n) && !InterruptedAt(cfg, es, n)
  {
  }

  lemma {:induction false} StillOpenStep(cfg: Config, es: seq<Event>, k: nat, n: nat)
    requires Trace.FreshIds(es) && k < n < |es| && Trace.Opens(es[k])
    ensures StillOpen(cfg, es, k, n + 1)
       <==> StillOpen(cfg, es, k, n) && !InterruptedAt(cfg, es, n)
  {
    var s := Run(cfg, es[..n]);
    RunPrefix(cfg, es, n);
    Safety.RunSane(cfg, es[..n]);
    if s.state.Streaming? {
      LeavesStreaming(cfg, s, es[n]);
    } else if Step(cfg, s, es[n]).state.Streaming? {
      StepOpens(cfg, s, es[n]);
      OpensOnce(es, k, n);
    }
  }

  /** An upload that is still open is open on the wire: its start is the latest, and nothing
      has closed it. */
  lemma {:induction false} OpenOnTheWire(cfg: Config, es: seq<Event>, k: nat, n: nat)
    requires Trace.FreshIds(es) && OpenedAt(cfg, es, k) && Uninterrupted(cfg, es, k, n)
    ensures Trace.Opens(es[k])
    ensures var t := Run(cfg, es[..n]).sent; Trace.OpenBefore(t, es[k].id, |t|)
  {
    UploadStaysOpenIff(cfg, es, k, n);
    FreshPrefix(es, n);
    Trace.RunTrace(cfg, es[..n]);
  }
}
