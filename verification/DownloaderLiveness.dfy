/** When the download queue makes progress, and exactly when a check can strand it. */
module DownloaderLiveness {
  import opened Downloader
  import opened DownloaderSafety

  /** The reply stores a file that matches the entry it was requested for. */
  predicate RightReply(cfg: Config, s: State, e: Event) {
    e.Finish? && e.reply < |s.inFlight| && e.outcome.Stored?
    && s.inFlight[e.reply] < |cfg.manifest| && Matches(cfg, e.outcome.body, s.inFlight[e.reply])
  }

  /** A check is made only with no reply in flight, and every reply is a right one. */
  predicate QuietStep(cfg: Config, s: State, e: Event) {
    (e.Check? && s.inFlight == []) || RightReply(cfg, s, e)
  }

  predicate QuietRun(cfg: Config, disk: map<string, Body>, es: seq<Event>)
    decreases |es|
  {
    es == []
    || (QuietRun(cfg, disk, es[..|es| - 1]) && QuietStep(cfg, Run(cfg, disk, es[..|es| - 1]), es[|es| - 1]))
  }

  /** The head of the queue, and nothing else, is in flight. */
  predicate HeadInFlight(s: State) {
    s.inFlight == if s.pending == [] then [] else [s.pending[0]]
  }

  /** An empty queue has been reported. */
  predicate Reported(s: State) { s.pending == [] ==> Ready in s.signals }

  predicate QueueInManifest(cfg: Config, s: State) {
    forall a :: 0 <= a < |s.pending| ==> s.pending[a] < |cfg.manifest|
  }

  lemma RequestPuts(s: State)
    requires s.inFlight == []
    ensures HeadInFlight(RequestNext(s)) && Reported(RequestNext(s))
    ensures RequestNext(s).pending == s.pending
  {
    if s.pending == [] {
      assert RequestNext(s).signals[|s.signals|] == Ready;
    } else {
      assert [] + [s.pending[0]] == [s.pending[0]];
    }
  }

  /** A right reply for the head of the queue verifies, and the next entry is requested. */
  lemma {:induction false} HeadReplied(cfg: Config, s: State, e: Event)
    requires QueueInManifest(cfg, s) && HeadInFlight(s) && RightReply(cfg, s, e)
    ensures var s' := Step(cfg, s, e);
            QueueInManifest(cfg, s') && HeadInFlight(s') && Reported(s') && s'.pending == s.pending[1..]
  {
    var k := s.pending[0];
    var name := cfg.manifest[k].name;
    var disk := s.disk[name := e.outcome.body];
    var mid := s.(inFlight := [], pending := s.pending[1..], disk := disk, completed := s.completed + 1,
                  signals := Step(cfg, s, e).signals[..|s.signals|]
                             + [Progress(if s.total == 0 then 0 else (s.completed + 1) * 100 / s.total)]);
    assert s.inFlight[..0] + s.inFlight[1..] == [];
    assert VerifyFile(cfg, disk, name, cfg.manifest[k].sha);
    RequestPuts(mid);
  }

  lemma {:induction false} CheckPuts(cfg: Config, s: State)
    requires s.inFlight == []
    ensures var s' := CheckAndDownload(cfg, s);
            QueueInManifest(cfg, s') && HeadInFlight(s') && Reported(s')
  {
    var n := |cfg.manifest|;
    UnverifiedExact(cfg, s.disk, n);
    UnverifiedSize(cfg, s.disk, n);
    var todo := Unverified(cfg, s.disk, n);
    RequestPuts(s.(total := n, completed := n - |todo|, pending := todo));
  }

  /** For every manifest, disk and quiet run: the head of the queue is exactly what is in
      flight, and after any check an empty queue has been reported as ready. So while models
      are missing a reply is always on its way. */
  lemma {:induction false} QuietRunProgresses(cfg: Config, disk: map<string, Body>, es: seq<Event>)
    requires QuietRun(cfg, disk, es)
    ensures var s := Run(cfg, disk, es);
            QueueInManifest(cfg, s) && HeadInFlight(s) && (Check in es && s.inFlight == [] ==> Ready in s.signals)
    decreases |es|
  {
    if es == [] {
    } else {
      var init := es[..|es| - 1];
      var e := es[|es| - 1];
      var s := Run(cfg, disk, init);
      QuietRunProgresses(cfg, disk, init);
      if e.Check? {
        CheckPuts(cfg, s);
      } else {
        HeadReplied(cfg, s, e);
      }
    }
  }

  /** Every reply of a quiet run shortens the queue, so a check is followed by at most as many
      downloads as it found entries unverified. */
  lemma {:induction false} QuietReplyShortens(cfg: Config, disk: map<string, Body>, es: seq<Event>, e: Event)
    requires QuietRun(cfg, disk, es) && RightReply(cfg, Run(cfg, disk, es), e)
    ensures |Step(cfg, Run(cfg, disk, es), e).pending| == |Run(cfg, disk, es).pending| - 1
  {
    QuietRunProgresses(cfg, disk, es);
    HeadReplied(cfg, Run(cfg, disk, es), e);
  }

  lemma {:induction false} QuietStepKeeps(cfg: Config, s: State, e: Event)
    requires DistinctNames(cfg) && Inv(cfg, s) && HeadInFlight(s) && QuietStep(cfg, s, e)
    ensures Inv(cfg, Step(cfg, s, e))
  {
    if e.Check? {
      CheckKeeps(cfg, s);
    } else {
      var c :| QueueInv(cfg, s, c);
      var t := s.(inFlight := []);
      assert s.inFlight[..0] + s.inFlight[1..] == [];
      assert QueueInv(cfg, t, c);
      assert VerifiedBelow(cfg, s.disk, s.inFlight[0]);
      FinishTaken(cfg, t, c, e.outcome, s.pending[0]);
    }
  }

  /** In a quiet run ready is sound even when entries share a hash, and with nothing in flight
      after a check every model is on disk. */
  lemma {:induction false} QuietRunCompletes(cfg: Config, disk: map<string, Body>, es: seq<Event>)
    requires DistinctNames(cfg) && QuietRun(cfg, disk, es)
    ensures var s := Run(cfg, disk, es);
            && (Ready in s.signals ==> AllVerified(cfg, s.disk))
            && (Check in es && s.inFlight == [] ==> AllVerified(cfg, s.disk))
  {
    QuietRunProgresses(cfg, disk, es);
    QuietRunKeeps(cfg, disk, es);
  }

  lemma {:induction false} QuietRunKeeps(cfg: Config, disk: map<string, Body>, es: seq<Event>)
    requires DistinctNames(cfg) && QuietRun(cfg, disk, es)
    ensures Inv(cfg, Run(cfg, disk, es))
    decreases |es|
  {
    if es == [] {
      InitKeeps(cfg, disk);
    } else {
      var init := es[..|es| - 1];
      QuietRunKeeps(cfg, disk, init);
      QuietRunProgresses(cfg, disk, init);
      QuietStepKeeps(cfg, Run(cfg, disk, init), es[|es| - 1]);
    }
  }

  // ---- a reply that is not right ----

  /** Checks are made only with no reply in flight; replies end in any way. */
  predicate QuietChecks(cfg: Config, disk: map<string, Body>, es: seq<Event>)
    decreases |es|
  {
    es == []
    || (QuietChecks(cfg, disk, es[..|es| - 1])
        && (es[|es| - 1].Check? ==> Run(cfg, disk, es[..|es| - 1]).inFlight == []))
  }

  /** A reply since the last check failed, could not be stored, or stored a wrong file. */
  predicate WrongSinceCheck(cfg: Config, disk: map<string, Body>, es: seq<Event>)
    decreases |es|
  {
    es != [] &&
      var s := Run(cfg, disk, es[..|es| - 1]);
      var e := es[|es| - 1];
      e.Finish?
      && (WrongSinceCheck(cfg, disk, es[..|es| - 1]) || (e.reply < |s.inFlight| && !RightReply(cfg, s, e)))
  }

  /** The head of the queue is in flight and an empty queue was reported. */
  ghost predicate Progressing(cfg: Config, s: State, checked: bool) {
    QueueInManifest(cfg, s) && HeadInFlight(s) && (checked ==> Reported(s))
  }

  /** Nothing is on its way although a model is missing. */
  ghost predicate Stranded(cfg: Config, s: State) { s.inFlight == [] && !AllVerified(cfg, s.disk) }

  /** Any reply to the only request in flight is applied to the entry it was requested for. */
  lemma {:induction false} HeadReplyKeeps(cfg: Config, s: State, e: Event)
    requires DistinctNames(cfg) && Inv(cfg, s) && HeadInFlight(s) && e.Finish? && e.reply < |s.inFlight|
    ensures Inv(cfg, Step(cfg, s, e))
  {
    var c :| QueueInv(cfg, s, c);
    var t := s.(inFlight := []);
    assert s.inFlight[..0] + s.inFlight[1..] == [];
    assert QueueInv(cfg, t, c);
    assert VerifiedBelow(cfg, s.disk, s.inFlight[0]);
    FinishTaken(cfg, t, c, e.outcome, s.pending[0]);
  }

  lemma {:induction false} WrongReplyStrands(cfg: Config, s: State, e: Event)
    requires DistinctNames(cfg) && Inv(cfg, s) && QueueInManifest(cfg, s) && HeadInFlight(s)
    requires e.Finish? && e.reply < |s.inFlight| && !RightReply(cfg, s, e)
    ensures Stranded(cfg, Step(cfg, s, e))
  {
    var c :| QueueInv(cfg, s, c);
    var k := s.pending[0];
    var name := cfg.manifest[k].name;
    assert s.inFlight[..0] + s.inFlight[1..] == [];
    if e.outcome.Stored? {
      assert !VerifyFile(cfg, s.disk[name := e.outcome.body], name, cfg.manifest[k].sha);
    }
    assert !Verified(cfg, Step(cfg, s, e).disk, k);
  }

  /** One step of a run with quiet checks, before any wrong reply and after. */
  ghost predicate LivenessInv(cfg: Config, s: State, checked: bool, wrong: bool) {
    Inv(cfg, s) && if wrong then Stranded(cfg, s) else Progressing(cfg, s, checked)
  }

  lemma {:induction false} LivenessStep(cfg: Config, s: State, e: Event, checked: bool, wrong: bool)
    requires DistinctNames(cfg) && LivenessInv(cfg, s, checked, wrong)
    requires e.Check? ==> s.inFlight == []
    ensures LivenessInv(cfg, Step(cfg, s, e), checked || e.Check?,
                        e.Finish? && (wrong || (e.reply < |s.inFlight| && !RightReply(cfg, s, e))))
  {
    if e.Check? {
      CheckKeeps(cfg, s);
      CheckPuts(cfg, s);
    } else if e.reply < |s.inFlight| {
      HeadReplyKeeps(cfg, s, e);
      if RightReply(cfg, s, e) {
        HeadReplied(cfg, s, e);
      } else {
        WrongReplyStrands(cfg, s, e);
      }
    }
  }

  lemma {:induction false} RunLiveness(cfg: Config, disk: map<string, Body>, es: seq<Event>)
    requires DistinctNames(cfg) && QuietChecks(cfg, disk, es)
    ensures LivenessInv(cfg, Run(cfg, disk, es), Check in es, WrongSinceCheck(cfg, disk, es))
    decreases |es|
  {
    if es == [] {
      InitKeeps(cfg, disk);
    } else {
      var init, e := es[..|es| - 1], es[|es| - 1];
      assert es == init + [e];
      assert (Check in es) == (Check in init || e.Check?);
      RunLiveness(cfg, disk, init);
      LivenessStep(cfg, Run(cfg, disk, init), e, Check in init, WrongSinceCheck(cfg, disk, init));
    }
  }

  /** For every manifest of distinct names, every disk and every run with quiet checks, whatever
      the replies: after a check the queue is stranded exactly when some reply since the last
      check was not a right one. */
  lemma {:induction false} StrandedIff(cfg: Config, disk: map<string, Body>, es: seq<Event>)
    requires DistinctNames(cfg) && QuietChecks(cfg, disk, es) && Check in es
    ensures Stranded(cfg, Run(cfg, disk, es)) <==> WrongSinceCheck(cfg, disk, es)
  {
    RunLiveness(cfg, disk, es);
  }

  // ---- a check that strands the queue ----

  function Continue(cfg: Config, s: State, fs: seq<Event>): State
    decreases |fs|
  {
    if fs == [] then s else Continue(cfg, Step(cfg, s, fs[0]), fs[1..])
  }

  lemma {:induction false} ContinueIsRun(cfg: Config, disk: map<string, Body>, es: seq<Event>, fs: seq<Event>)
    ensures Run(cfg, disk, es + fs) == Continue(cfg, Run(cfg, disk, es), fs)
    decreases |fs|
  {
    if fs == [] {
      assert es + fs == es;
    } else {
      var es' := es + [fs[0]];
      assert es'[..|es|] == es;
      assert es + fs == es' + fs[1..];
      ContinueIsRun(cfg, disk, es', fs[1..]);
    }
  }

  /** Only right replies follow. */
  predicate RightReplies(cfg: Config, s: State, fs: seq<Event>)
    decreases |fs|
  {
    fs == [] || (RightReply(cfg, s, fs[0]) && RightReplies(cfg, Step(cfg, s, fs[0]), fs[1..]))
  }

  /** Nothing is on its way, a model is missing, and ready was never emitted. */
  ghost predicate Stalled(cfg: Config, s: State) {
    s.inFlight == [] && Ready !in s.signals && !AllVerified(cfg, s.disk)
  }

  /** A check now can be followed by right replies only and still strand the queue. */
  ghost predicate CanStall(cfg: Config, s: State) {
    var t := CheckAndDownload(cfg, s);
    exists fs :: RightReplies(cfg, t, fs) && Stalled(cfg, Continue(cfg, t, fs))
  }

  /** Models are missing while a reply is in flight that is not for the only missing one. */
  predicate Risky(cfg: Config, s: State) {
    var todo := Unverified(cfg, s.disk, |cfg.manifest|);
    && todo != [] && s.inFlight != []
    && (|todo| >= 2 || exists r :: 0 <= r < |s.inFlight| && s.inFlight[r] != todo[0])
  }

  /** Every model in the manifest has a right file. */
  ghost predicate RightFiles(cfg: Config, bodies: seq<Body>) {
    |bodies| == |cfg.manifest| && forall k :: 0 <= k < |bodies| ==> Matches(cfg, bodies[k], k)
  }

  function Reply(r: nat, body: Body): Event { Finish(r, Stored(body)) }

  /** The oldest replies arrive one after another. */
  function Replies(inFlight: seq<nat>, bodies: seq<Body>): seq<Event>
    requires forall i :: 0 <= i < |inFlight| ==> inFlight[i] < |bodies|
    decreases |inFlight|
  {
    if inFlight == [] then [] else [Reply(0, bodies[inFlight[0]])] + Replies(inFlight[1..], bodies)
  }

  /** Entry x was missing and stays so, and ready stays unemitted. */
  ghost predicate StillMissing(cfg: Config, s: State, x: nat) {
    x < |cfg.manifest| && !Verified(cfg, s.disk, x) && Ready !in s.signals
  }

  /** A right file for j, taken for another entry, is rejected: the queue loses its head and
      nothing is requested. */
  lemma {:induction false} Mismatch(cfg: Config, bodies: seq<Body>, s: State, r: nat, x: nat)
    requires DistinctNames(cfg) && DistinctHashes(cfg) && RightFiles(cfg, bodies)
    requires r < |s.inFlight| && s.inFlight[r] < |bodies| && QueueInManifest(cfg, s) && StillMissing(cfg, s, x)
    requires s.pending != [] ==> s.pending[0] != s.inFlight[r]
    ensures var s' := Step(cfg, s, Reply(r, bodies[s.inFlight[r]]));
            && StillMissing(cfg, s', x) && QueueInManifest(cfg, s')
            && s'.inFlight == s.inFlight[..r] + s.inFlight[r + 1..]
            && s'.pending == if s.pending == [] then [] else s.pending[1..]
  {
    if s.pending == [] {
    } else {
      var k, body := s.pending[0], bodies[s.inFlight[r]];
      var name := cfg.manifest[k].name;
      assert Matches(cfg, body, s.inFlight[r]);
      HashesDiffer(cfg, k, s.inFlight[r]);
      assert !VerifyFile(cfg, s.disk[name := body], name, cfg.manifest[k].sha);
      RejectedStaysMissing(cfg, s.disk, body, k, x);
    }
  }

  lemma HashesDiffer(cfg: Config, i: nat, j: nat)
    requires DistinctHashes(cfg) && i < |cfg.manifest| && j < |cfg.manifest| && i != j
    ensures cfg.manifest[i].sha != cfg.manifest[j].sha
  {
  }

  lemma {:induction false} RejectedStaysMissing(cfg: Config, disk: map<string, Body>, body: Body, k: nat, x: nat)
    requires DistinctNames(cfg) && k < |cfg.manifest| && x < |cfg.manifest| && !Verified(cfg, disk, x)
    ensures !Verified(cfg, disk[cfg.manifest[k].name := body] - {cfg.manifest[k].name}, x)
  {
    var name := cfg.manifest[k].name;
    var disk' := disk[name := body] - {name};
    if x != k {
      assert disk' - {name} == disk - {name};
      OthersUntouched(cfg, disk, disk', k);
    }
  }

  /** When each reply in turn meets a head it was not requested for, all are used up. */
  lemma {:induction false} DrainStalls(cfg: Config, bodies: seq<Body>, s: State, x: nat)
    requires DistinctNames(cfg) && DistinctHashes(cfg) && RightFiles(cfg, bodies)
    requires QueueInManifest(cfg, s) && StillMissing(cfg, s, x)
    requires forall i :: 0 <= i < |s.inFlight| ==> s.inFlight[i] < |bodies|
    requires forall i :: 0 <= i < |s.inFlight| && i < |s.pending| ==> s.inFlight[i] != s.pending[i]
    ensures var fs := Replies(s.inFlight, bodies);
            RightReplies(cfg, s, fs) && Stalled(cfg, Continue(cfg, s, fs))
    decreases |s.inFlight|
  {
    if s.inFlight == [] {
    } else {
      var e := Reply(0, bodies[s.inFlight[0]]);
      var s' := Step(cfg, s, e);
      Mismatch(cfg, bodies, s, 0, x);
      assert s'.inFlight == s.inFlight[1..];
      DrainStalls(cfg, bodies, s', x);
      var fs := Replies(s.inFlight, bodies);
      assert fs[0] == e && fs[1..] == Replies(s'.inFlight, bodies);
      assert Matches(cfg, bodies[s.inFlight[0]], s.inFlight[0]);
    }
  }

  lemma {:induction false} FirstThenDrain(cfg: Config, bodies: seq<Body>, s: State, e: Event, fs: seq<Event>)
    requires RightReply(cfg, s, e) && RightReplies(cfg, Step(cfg, s, e), fs)
    requires Stalled(cfg, Continue(cfg, Step(cfg, s, e), fs))
    ensures RightReplies(cfg, s, [e] + fs) && Stalled(cfg, Continue(cfg, s, [e] + fs))
  {
    assert ([e] + fs)[0] == e && ([e] + fs)[1..] == fs;
  }

  /** What a check finds and does when entries are missing. */
  lemma {:induction false} CheckFinds(cfg: Config, s: State)
    requires Inv(cfg, s) && Unverified(cfg, s.disk, |cfg.manifest|) != []
    ensures var todo := Unverified(cfg, s.disk, |cfg.manifest|);
            var t := CheckAndDownload(cfg, s);
            && t.pending == todo && t.inFlight == s.inFlight + [todo[0]] && t.disk == s.disk
            && t.signals == s.signals && QueueInManifest(cfg, t) && Ascending(todo, -1, |cfg.manifest|)
            && (forall a :: 0 <= a < |todo| ==> StillMissing(cfg, t, todo[a]))
            && (forall r :: 0 <= r < |s.inFlight| ==> s.inFlight[r] <= todo[0])
  {
    var n := |cfg.manifest|;
    var todo := Unverified(cfg, s.disk, n);
    UnverifiedExact(cfg, s.disk, n);
    UnverifiedSize(cfg, s.disk, n);
    forall a | 0 <= a < |todo| ensures !Verified(cfg, s.disk, todo[a]) {
      assert todo[a] in todo;
    }
    forall r | 0 <= r < |s.inFlight| ensures s.inFlight[r] <= todo[0] {
      assert VerifiedBelow(cfg, s.disk, s.inFlight[r]);
    }
  }

  /** One entry is missing: a stale reply takes its place in the queue, and its own reply
      finds the queue empty. */
  lemma {:induction false} LoneEntryStalls(cfg: Config, bodies: seq<Body>, s: State, r: nat)
    requires DistinctNames(cfg) && DistinctHashes(cfg) && RightFiles(cfg, bodies) && Inv(cfg, s)
    requires |Unverified(cfg, s.disk, |cfg.manifest|)| == 1 && r < |s.inFlight|
    requires s.inFlight[r] != Unverified(cfg, s.disk, |cfg.manifest|)[0]
    ensures CanStall(cfg, s)
  {
    var t := CheckAndDownload(cfg, s);
    CheckFinds(cfg, s);
    var x := t.pending[0];
    var e := Reply(r, bodies[t.inFlight[r]]);
    Mismatch(cfg, bodies, t, r, x);
    var t' := Step(cfg, t, e);
    InFlightKeeps(cfg, t, r);
    DrainStalls(cfg, bodies, t', x);
    assert Matches(cfg, bodies[t.inFlight[r]], t.inFlight[r]);
    FirstThenDrain(cfg, bodies, t, e, Replies(t'.inFlight, bodies));
  }

  lemma InFlightKeeps(cfg: Config, t: State, r: nat)
    requires r < |t.inFlight| && forall i :: 0 <= i < |t.inFlight| ==> t.inFlight[i] < |cfg.manifest|
    ensures var rest := t.inFlight[..r] + t.inFlight[r + 1..];
            forall i :: 0 <= i < |rest| ==> rest[i] < |cfg.manifest|
  {
  }

  /** A right reply for the head, from the end of the in-flight list, is accepted. */
  lemma {:induction false} HeadAccepted(cfg: Config, bodies: seq<Body>, t: State)
    requires DistinctNames(cfg) && RightFiles(cfg, bodies) && QueueInManifest(cfg, t)
    requires |t.pending| >= 2 && t.inFlight != [] && t.inFlight[|t.inFlight| - 1] == t.pending[0] != t.pending[1]
    requires StillMissing(cfg, t, t.pending[1])
    ensures var t' := Step(cfg, t, Reply(|t.inFlight| - 1, bodies[t.pending[0]]));
            && t'.pending == t.pending[1..] && StillMissing(cfg, t', t.pending[1]) && QueueInManifest(cfg, t')
            && t'.inFlight == t.inFlight[..|t.inFlight| - 1] + [t.pending[1]]
  {
    var k, last := t.pending[0], |t.inFlight| - 1;
    var name := cfg.manifest[k].name;
    var disk := t.disk[name := bodies[k]];
    assert Matches(cfg, bodies[k], k);
    assert VerifyFile(cfg, disk, name, cfg.manifest[k].sha);
    assert disk - {name} == t.disk - {name};
    OthersUntouched(cfg, t.disk, disk, k);
    assert t.inFlight[..last] + t.inFlight[last + 1..] == t.inFlight[..last];
  }

  /** Two entries are missing: the reply to the check requests the second, and the older
      replies then meet heads they were not requested for. */
  lemma {:induction false} EarlyCheckStalls(cfg: Config, bodies: seq<Body>, s: State)
    requires DistinctNames(cfg) && DistinctHashes(cfg) && RightFiles(cfg, bodies) && Inv(cfg, s)
    requires |Unverified(cfg, s.disk, |cfg.manifest|)| >= 2 && s.inFlight != []
    ensures CanStall(cfg, s)
  {
    var t := CheckAndDownload(cfg, s);
    CheckFinds(cfg, s);
    var e := Reply(|s.inFlight|, bodies[t.pending[0]]);
    HeadAccepted(cfg, bodies, t);
    var t' := Step(cfg, t, e);
    assert t'.inFlight == s.inFlight + [t.pending[1]];
    MeetsOthers(t.pending, s.inFlight);
    DrainStalls(cfg, bodies, t', t.pending[1]);
    assert Matches(cfg, bodies[t.pending[0]], t.pending[0]);
    FirstThenDrain(cfg, bodies, t, e, Replies(t'.inFlight, bodies));
  }

  lemma MeetsOthers(todo: seq<nat>, older: seq<nat>)
    requires |todo| >= 2 && older != [] && forall a, b :: 0 <= a < b < |todo| ==> todo[a] < todo[b]
    requires forall r :: 0 <= r < |older| ==> older[r] <= todo[0]
    ensures var inFlight := older + [todo[1]];
            forall i :: 0 <= i < |inFlight| && i < |todo[1..]| ==> inFlight[i] != todo[1..][i]
  {
  }

  // ---- and a check that does not ----

  lemma {:induction false} ReadyStays(cfg: Config, s: State, fs: seq<Event>)
    requires Ready in s.signals
    ensures Ready in Continue(cfg, s, fs).signals
    decreases |fs|
  {
    if fs == [] {
    } else {
      StepKeepsReady(cfg, s, fs[0]);
      ReadyStays(cfg, Step(cfg, s, fs[0]), fs[1..]);
    }
  }

  lemma StepKeepsReady(cfg: Config, s: State, e: Event)
    requires Ready in s.signals
    ensures Ready in Step(cfg, s, e).signals
  {
  }

  lemma {:induction false} QuietContinues(cfg: Config, s: State, fs: seq<Event>)
    requires QueueInManifest(cfg, s) && HeadInFlight(s) && Reported(s) && RightReplies(cfg, s, fs)
    ensures var t := Continue(cfg, s, fs); HeadInFlight(t) && Reported(t)
    decreases |fs|
  {
    if fs == [] {
    } else {
      HeadReplied(cfg, s, fs[0]);
      QuietContinues(cfg, Step(cfg, s, fs[0]), fs[1..]);
    }
  }

  /** Every reply in flight is for the only entry queued: the first right one completes. */
  lemma {:induction false} FirstCompletes(cfg: Config, s: State, fs: seq<Event>, x: nat)
    requires s.pending == [x] && s.inFlight != [] && x < |cfg.manifest|
    requires forall i :: 0 <= i < |s.inFlight| ==> s.inFlight[i] == x
    requires RightReplies(cfg, s, fs)
    ensures !Stalled(cfg, Continue(cfg, s, fs))
  {
    if fs == [] {
    } else {
      var disk := s.disk[cfg.manifest[x].name := fs[0].outcome.body];
      assert VerifyFile(cfg, disk, cfg.manifest[x].name, cfg.manifest[x].sha);
      var s' := Step(cfg, s, fs[0]);
      assert s'.signals[|s'.signals| - 1] == Ready;
      ReadyStays(cfg, s', fs[1..]);
    }
  }

  lemma {:induction false} SafeCheck(cfg: Config, s: State, fs: seq<Event>)
    requires Inv(cfg, s) && !Risky(cfg, s) && RightReplies(cfg, CheckAndDownload(cfg, s), fs)
    ensures !Stalled(cfg, Continue(cfg, CheckAndDownload(cfg, s), fs))
  {
    var t := CheckAndDownload(cfg, s);
    var todo := Unverified(cfg, s.disk, |cfg.manifest|);
    UnverifiedSize(cfg, s.disk, |cfg.manifest|);
    if todo == [] {
      assert t.signals[|t.signals| - 1] == Ready;
      ReadyStays(cfg, t, fs);
    } else if s.inFlight == [] {
      CheckPuts(cfg, s);
      QuietContinues(cfg, t, fs);
    } else {
      CheckFinds(cfg, s);
      FirstCompletes(cfg, t, fs, todo[0]);
    }
  }

  /** After every honest run, for every manifest of distinct names and hashes that all belong
      to some file: a check can be followed by right replies only and still strand the queue,
      exactly when models are missing while a reply is in flight, unless all replies in flight
      are for the only missing model. */
  lemma {:induction false} CheckStallsIff(cfg: Config, disk: map<string, Body>, es: seq<Event>, bodies: seq<Body>)
    requires DistinctNames(cfg) && DistinctHashes(cfg) && RightFiles(cfg, bodies) && HonestRun(cfg, disk, es)
    ensures CanStall(cfg, Run(cfg, disk, es)) <==> Risky(cfg, Run(cfg, disk, es))
  {
    var s := Run(cfg, disk, es);
    var todo := Unverified(cfg, s.disk, |cfg.manifest|);
    RunKeeps(cfg, disk, es);
    if Risky(cfg, s) {
      if |todo| >= 2 {
        EarlyCheckStalls(cfg, bodies, s);
      } else {
        var r :| 0 <= r < |s.inFlight| && s.inFlight[r] != todo[0];
        LoneEntryStalls(cfg, bodies, s, r);
      }
    } else {
      forall fs | RightReplies(cfg, CheckAndDownload(cfg, s), fs)
        ensures !Stalled(cfg, Continue(cfg, CheckAndDownload(cfg, s), fs))
      {
        SafeCheck(cfg, s, fs);
      }
    }
  }

  /** The stall as a run: the check, then right replies only, and nothing ever comes. */
  lemma {:induction false} RiskyCheckStalls(cfg: Config, disk: map<string, Body>, es: seq<Event>, bodies: seq<Body>)
    requires DistinctNames(cfg) && DistinctHashes(cfg) && RightFiles(cfg, bodies) && HonestRun(cfg, disk, es)
    requires Risky(cfg, Run(cfg, disk, es))
    ensures exists fs ::
              RightReplies(cfg, Run(cfg, disk, es + [Check]), fs) && Stalled(cfg, Run(cfg, disk, es + [Check] + fs))
  {
    CheckStallsIff(cfg, disk, es, bodies);
    var t := CheckAndDownload(cfg, Run(cfg, disk, es));
    var fs :| RightReplies(cfg, t, fs) && Stalled(cfg, Continue(cfg, t, fs));
    assert (es + [Check])[..|es|] == es;
    ContinueIsRun(cfg, disk, es + [Check], fs);
  }
}
