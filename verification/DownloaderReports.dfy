/** What the downloader reports and what it leaves on disk, for replies of any kind in any order. */
module DownloaderReports {
  import opened Framing
  import opened Downloader
  import opened DownloaderSafety

  /** The entries below n that verify. */
  function VerifiedSet(cfg: Config, disk: map<string, Body>, n: nat): set<nat>
    requires n <= |cfg.manifest|
  {
    set i: nat | i < n && Verified(cfg, disk, i)
  }

  function AllVerifiedSet(cfg: Config, disk: map<string, Body>): set<nat> {
    VerifiedSet(cfg, disk, |cfg.manifest|)
  }

  lemma {:induction false} SetSizes(cfg: Config, disk: map<string, Body>, n: nat)
    requires n <= |cfg.manifest|
    ensures |VerifiedSet(cfg, disk, n)| + |Unverified(cfg, disk, n)| == n
    decreases n
  {
    if n == 0 {
    } else {
      SetSizes(cfg, disk, n - 1);
      var less := VerifiedSet(cfg, disk, n - 1);
      if Verified(cfg, disk, n - 1) {
        assert VerifiedSet(cfg, disk, n) == less + {n - 1};
      } else {
        assert VerifiedSet(cfg, disk, n) == less;
      }
    }
  }

  /** The queue holds different, unverified entries; after a check the count is exact. */
  ghost predicate Tallied(cfg: Config, s: State, checked: bool) {
    && QueueOpen(cfg, s.disk, s.pending)
    && (s.pending != [] ==> checked)
    && (checked ==> s.total == |cfg.manifest| && s.completed == |AllVerifiedSet(cfg, s.disk)|)
  }

  ghost predicate QueueOpen(cfg: Config, disk: map<string, Body>, pending: seq<nat>) {
    && (forall a :: 0 <= a < |pending| ==> pending[a] < |cfg.manifest| && !Verified(cfg, disk, pending[a]))
    && (forall a, b :: 0 <= a < b < |pending| ==> pending[a] != pending[b])
  }

  lemma {:induction false} UnverifiedOpen(cfg: Config, disk: map<string, Body>)
    ensures QueueOpen(cfg, disk, Unverified(cfg, disk, |cfg.manifest|))
  {
    var todo := Unverified(cfg, disk, |cfg.manifest|);
    UnverifiedExact(cfg, disk, |cfg.manifest|);
    forall a | 0 <= a < |todo| ensures todo[a] < |cfg.manifest| && !Verified(cfg, disk, todo[a]) {
      assert todo[a] in todo;
    }
  }

  lemma RequestKeepsTally(cfg: Config, s: State)
    requires Tallied(cfg, s, true)
    ensures Tallied(cfg, RequestNext(s), true) && RequestNext(s).disk == s.disk
  {
  }

  lemma {:induction false} CheckTallies(cfg: Config, s: State)
    ensures Tallied(cfg, CheckAndDownload(cfg, s), true)
    ensures CheckAndDownload(cfg, s).disk == s.disk
  {
    var n := |cfg.manifest|;
    var todo := Unverified(cfg, s.disk, n);
    UnverifiedSize(cfg, s.disk, n);
    var t := s.(total := n, completed := n - |todo|, pending := todo);
    assert CheckAndDownload(cfg, s) == RequestNext(t);
    UnverifiedOpen(cfg, s.disk);
    SetSizes(cfg, s.disk, n);
    RequestKeepsTally(cfg, t);
  }

  lemma TailOpen(cfg: Config, disk: map<string, Body>, pending: seq<nat>)
    requires pending != [] && QueueOpen(cfg, disk, pending)
    ensures QueueOpen(cfg, disk, pending[1..]) && pending[0] !in pending[1..]
  {
  }

  /** Only the file of entry k may have changed, and it was not verified before. */
  lemma {:induction false} SetGrows(cfg: Config, disk: map<string, Body>, disk': map<string, Body>, k: nat)
    requires DistinctNames(cfg) && k < |cfg.manifest| && !Verified(cfg, disk, k)
    requires disk' - {cfg.manifest[k].name} == disk - {cfg.manifest[k].name}
    ensures AllVerifiedSet(cfg, disk') == AllVerifiedSet(cfg, disk) + if Verified(cfg, disk', k) then {k} else {}
    ensures k !in AllVerifiedSet(cfg, disk)
  {
    OthersUntouched(cfg, disk, disk', k);
  }

  lemma {:induction false} QueueStaysOpen(
    cfg: Config, disk: map<string, Body>, disk': map<string, Body>, k: nat, pending: seq<nat>)
    requires DistinctNames(cfg) && k < |cfg.manifest| && QueueOpen(cfg, disk, pending) && k !in pending
    requires disk' - {cfg.manifest[k].name} == disk - {cfg.manifest[k].name}
    ensures QueueOpen(cfg, disk', pending)
  {
    OthersUntouched(cfg, disk, disk', k);
    forall a | 0 <= a < |pending| ensures pending[a] < |cfg.manifest| && !Verified(cfg, disk', pending[a]) {
      assert pending[a] in pending;
    }
  }

  /** The head of the queue is taken and only its file may have changed. */
  lemma {:induction false} HeadTaken(cfg: Config, s: State, disk: map<string, Body>)
    requires DistinctNames(cfg) && s.pending != [] && QueueOpen(cfg, s.disk, s.pending)
    requires disk - {cfg.manifest[s.pending[0]].name} == s.disk - {cfg.manifest[s.pending[0]].name}
    ensures QueueOpen(cfg, disk, s.pending[1..])
    ensures AllVerifiedSet(cfg, disk)
         == AllVerifiedSet(cfg, s.disk) + if Verified(cfg, disk, s.pending[0]) then {s.pending[0]} else {}
    ensures |AllVerifiedSet(cfg, disk)|
         == |AllVerifiedSet(cfg, s.disk)| + if Verified(cfg, disk, s.pending[0]) then 1 else 0
  {
    var k := s.pending[0];
    TailOpen(cfg, s.disk, s.pending);
    QueueStaysOpen(cfg, s.disk, disk, k, s.pending[1..]);
    SetGrows(cfg, s.disk, disk, k);
  }

  function Percent(cfg: Config, disk: map<string, Body>): int
    requires |cfg.manifest| > 0
  {
    |AllVerifiedSet(cfg, disk)| * 100 / |cfg.manifest|
  }

  /** A reply applied to the head k of the queue, by its result. */
  ghost predicate ReportedAs(cfg: Config, s: State, s': State, k: nat)
    requires k < |cfg.manifest|
  {
    && |s'.signals| > |s.signals| && s'.signals[..|s.signals|] == s.signals
    && s'.signals[|s.signals|]
       == (if Verified(cfg, s'.disk, k) then Progress(Percent(cfg, s'.disk)) else Failed(k))
    && s'.signals[|s.signals| + 1..]
       == (if Verified(cfg, s'.disk, k) && s'.pending == [] then [Ready] else [])
    && AllVerifiedSet(cfg, s'.disk)
       == AllVerifiedSet(cfg, s.disk) + (if Verified(cfg, s'.disk, k) then {k} else {})
  }

  /** What a reply stores, and whether it is accepted. */
  function DiskAfter(cfg: Config, s: State, outcome: Outcome): map<string, Body>
    requires s.pending != [] && s.pending[0] < |cfg.manifest|
  {
    var name := cfg.manifest[s.pending[0]].name;
    if !outcome.Stored? then s.disk
    else if Matches(cfg, outcome.body, s.pending[0]) then s.disk[name := outcome.body]
    else s.disk - {name}
  }

  lemma {:induction false} DiskAfterIs(cfg: Config, s: State, outcome: Outcome)
    requires s.pending != [] && s.pending[0] < |cfg.manifest| && !Verified(cfg, s.disk, s.pending[0])
    ensures var disk := DiskAfter(cfg, s, outcome);
            && disk - {cfg.manifest[s.pending[0]].name} == s.disk - {cfg.manifest[s.pending[0]].name}
            && (Verified(cfg, disk, s.pending[0]) <==> outcome.Stored? && Matches(cfg, outcome.body, s.pending[0]))
  {
  }

  lemma {:induction false} FinishIs(cfg: Config, s: State, outcome: Outcome)
    requires s.pending != [] && s.pending[0] < |cfg.manifest| && s.total == |cfg.manifest|
    ensures var disk := DiskAfter(cfg, s, outcome);
            var t := s.(pending := s.pending[1..], disk := disk);
            DownloadFinished(cfg, s, outcome)
            == if outcome.Stored? && Matches(cfg, outcome.body, s.pending[0])
               then RequestNext(t.(completed := s.completed + 1,
                      signals := s.signals + [Progress((s.completed + 1) * 100 / |cfg.manifest|)]))
               else t.(signals := s.signals + [Failed(s.pending[0])])
  {
    var name := cfg.manifest[s.pending[0]].name;
    if outcome.Stored? {
      assert s.disk[name := outcome.body] - {name} == s.disk - {name};
    }
  }

  lemma {:induction false} FinishTallies(cfg: Config, s: State, outcome: Outcome)
    requires DistinctNames(cfg) && Tallied(cfg, s, true) && s.pending != []
    ensures Tallied(cfg, DownloadFinished(cfg, s, outcome), true)
  {
    FinishIs(cfg, s, outcome);
    DiskAfterIs(cfg, s, outcome);
    HeadTaken(cfg, s, DiskAfter(cfg, s, outcome));
  }

  lemma {:induction false} FinishReports(cfg: Config, s: State, outcome: Outcome)
    requires DistinctNames(cfg) && Tallied(cfg, s, true) && s.pending != []
    ensures ReportedAs(cfg, s, DownloadFinished(cfg, s, outcome), s.pending[0])
    ensures Verified(cfg, DownloadFinished(cfg, s, outcome).disk, s.pending[0])
       <==> outcome.Stored? && Matches(cfg, outcome.body, s.pending[0])
  {
    var s' := DownloadFinished(cfg, s, outcome);
    FinishIs(cfg, s, outcome);
    assert s'.disk == DiskAfter(cfg, s, outcome);
    DiskAfterIs(cfg, s, outcome);
    HeadTaken(cfg, s, s'.disk);
  }

  lemma {:induction false} StepTallies(cfg: Config, s: State, e: Event, checked: bool)
    requires DistinctNames(cfg) && Tallied(cfg, s, checked)
    ensures Tallied(cfg, Step(cfg, s, e), checked || e.Check?)
  {
    match e
    case Check => CheckTallies(cfg, s);
    case Finish(r, outcome) =>
      if r < |s.inFlight| {
        var t := s.(inFlight := s.inFlight[..r] + s.inFlight[r + 1..]);
        assert Tallied(cfg, t, checked);
        if s.pending != [] {
          FinishTallies(cfg, t, outcome);
        }
      }
  }

  lemma {:induction false} RunTallies(cfg: Config, disk: map<string, Body>, es: seq<Event>, k: nat)
    requires DistinctNames(cfg) && k <= |es|
    ensures Tallied(cfg, Run(cfg, disk, es[..k]), Check in es[..k])
    decreases k
  {
    if k == 0 {
    } else {
      var n := k - 1;
      RunTallies(cfg, disk, es, n);
      StepTallies(cfg, Run(cfg, disk, es[..n]), es[n], Check in es[..n]);
      assert es[..k] == es[..n] + [es[n]];
      assert es[..k][..n] == es[..n];
    }
  }

  /** Event k finishes a reply while something is queued. */
  predicate RepliesAt(cfg: Config, disk: map<string, Body>, es: seq<Event>, k: int) {
    && 0 <= k < |es| && es[k].Finish?
    && es[k].reply < |Run(cfg, disk, es[..k]).inFlight| && Run(cfg, disk, es[..k]).pending != []
  }

  /** For every manifest of distinct names, every disk and every run, whatever the replies: a
      reply makes no entry unverified, and at most the head of the queue verified. If it does
      that, it reports the true share of verified entries, and ready if the queue is now empty;
      otherwise it reports that entry as failed. */
  lemma {:induction false} ReportsAreExact(cfg: Config, disk: map<string, Body>, es: seq<Event>, k: nat)
    requires DistinctNames(cfg) && RepliesAt(cfg, disk, es, k)
    ensures var s, s' := Run(cfg, disk, es[..k]), Run(cfg, disk, es[..k + 1]);
            && s.pending[0] < |cfg.manifest| && ReportedAs(cfg, s, s', s.pending[0])
            && (Verified(cfg, s'.disk, s.pending[0])
                <==> es[k].outcome.Stored? && Matches(cfg, es[k].outcome.body, s.pending[0]))
  {
    var s, e := Run(cfg, disk, es[..k]), es[k];
    RunTallies(cfg, disk, es, k);
    FinishReports(cfg, s.(inFlight := s.inFlight[..e.reply] + s.inFlight[e.reply + 1..]), e.outcome);
    assert es[..k + 1][..k] == es[..k];
  }

  /** So 100 percent is reported exactly when every entry is verified. */
  lemma {:induction false} FullIff(cfg: Config, disk: map<string, Body>)
    requires |cfg.manifest| > 0
    ensures Percent(cfg, disk) == 100 <==> AllVerified(cfg, disk)
  {
    SetSizes(cfg, disk, |cfg.manifest|);
    NothingTodoIff(cfg, disk);
    Share(|AllVerifiedSet(cfg, disk)|, |cfg.manifest|);
  }

  lemma NothingTodoIff(cfg: Config, disk: map<string, Body>)
    ensures Unverified(cfg, disk, |cfg.manifest|) == [] <==> AllVerified(cfg, disk)
  {
    var todo := Unverified(cfg, disk, |cfg.manifest|);
    UnverifiedExact(cfg, disk, |cfg.manifest|);
    if todo != [] {
      assert todo[0] in todo;
    }
  }

  lemma Share(v: nat, n: nat)
    requires v <= n && n > 0
    ensures v * 100 / n == 100 <==> v == n
  {
    var q := v * 100 / n;
    if v == n {
      DivUnique(v * 100, n, 100);
    } else {
      DivUnique(v * 100, n, q);
      if q >= 100 {
        MulStrict(n, 99, q);
      }
    }
  }

  // ---- the disk ----

  /** Each file is as it was at the start, or matches an entry of its name. */
  ghost predicate Kept(cfg: Config, disk0: map<string, Body>, disk: map<string, Body>) {
    forall name :: name in disk ==>
      (name in disk0 && disk0[name] == disk[name])
      || exists k :: 0 <= k < |cfg.manifest| && cfg.manifest[k].name == name && Matches(cfg, disk[name], k)
  }

  /** Files of other names are as they were. */
  ghost predicate OthersKept(cfg: Config, disk0: map<string, Body>, disk: map<string, Body>) {
    forall name :: (forall k :: 0 <= k < |cfg.manifest| ==> cfg.manifest[k].name != name) ==>
      (name in disk <==> name in disk0) && (name in disk ==> disk[name] == disk0[name])
  }

  lemma {:induction false} FinishKeepsDisk(cfg: Config, disk0: map<string, Body>, s: State, outcome: Outcome)
    requires Kept(cfg, disk0, s.disk) && OthersKept(cfg, disk0, s.disk)
    ensures var disk := DownloadFinished(cfg, s, outcome).disk;
            Kept(cfg, disk0, disk) && OthersKept(cfg, disk0, disk)
  {
    var disk := DownloadFinished(cfg, s, outcome).disk;
    if s.pending != [] && outcome.Stored? && s.pending[0] < |cfg.manifest| {
      var k := s.pending[0];
      forall name | name in disk
        ensures (name in disk0 && disk0[name] == disk[name])
             || exists k :: 0 <= k < |cfg.manifest| && cfg.manifest[k].name == name && Matches(cfg, disk[name], k)
      {
        if name == cfg.manifest[k].name {
          assert Matches(cfg, disk[name], k);
        } else {
          assert disk[name] == s.disk[name];
        }
      }
    }
  }

  /** For every manifest, shared names included, every disk and every run, whatever the replies:
      no download leaves a file that does not match its entry's hash, and files that are in no
      entry are not touched. */
  lemma {:induction false} NothingCorruptKept(cfg: Config, disk: map<string, Body>, es: seq<Event>)
    ensures Kept(cfg, disk, Run(cfg, disk, es).disk) && OthersKept(cfg, disk, Run(cfg, disk, es).disk)
    decreases |es|
  {
    if es == [] {
    } else {
      var s := Run(cfg, disk, es[..|es| - 1]);
      NothingCorruptKept(cfg, disk, es[..|es| - 1]);
      match es[|es| - 1]
      case Check => CheckTallies(cfg, s);
      case Finish(r, outcome) =>
        if r < |s.inFlight| {
          FinishKeepsDisk(cfg, disk, s.(inFlight := s.inFlight[..r] + s.inFlight[r + 1..]), outcome);
        }
    }
  }
}
