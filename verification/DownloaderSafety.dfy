/** When allModelsReady is true, over every interleaving of checks and replies. */
module DownloaderSafety {
  import opened Downloader

  ghost predicate DistinctNames(cfg: Config) {
    forall i, j :: 0 <= i < j < |cfg.manifest| ==> cfg.manifest[i].name != cfg.manifest[j].name
  }

  /** The bytes match entry k's hash. */
  predicate Matches(cfg: Config, body: Body, k: nat)
    requires k < |cfg.manifest|
  {
    cfg.manifest[k].sha != "" && cfg.hash(body) == cfg.manifest[k].sha
  }

  /** What was stored for a reply requested for entry j matches no other entry's hash. */
  ghost predicate Honest(cfg: Config, s: State, e: Event) {
    e.Finish? && e.outcome.Stored? && e.reply < |s.inFlight| ==>
      forall k :: 0 <= k < |cfg.manifest| && Matches(cfg, e.outcome.body, k) ==> k == s.inFlight[e.reply]
  }

  ghost predicate HonestRun(cfg: Config, disk: map<string, Body>, es: seq<Event>) {
    forall k :: 0 <= k < |es| ==> Honest(cfg, Run(cfg, disk, es[..k]), es[k])
  }

  ghost predicate AllVerified(cfg: Config, disk: map<string, Body>) {
    forall i :: 0 <= i < |cfg.manifest| ==> Verified(cfg, disk, i)
  }

  ghost predicate VerifiedBelow(cfg: Config, disk: map<string, Body>, j: nat)
    requires j <= |cfg.manifest|
  {
    forall i :: 0 <= i < j ==> Verified(cfg, disk, i)
  }

  ghost predicate Ascending(p: seq<nat>, c: int, n: nat) {
    && (forall a :: 0 <= a < |p| ==> c < p[a] < n)
    && (forall a, b :: 0 <= a < b < |p| ==> p[a] < p[b])
  }

  /** c is the last queue position taken since the last check. The queue is an ascending list
      of unverified positions after c, and holds every unverified position after c. */
  ghost predicate QueueInv(cfg: Config, s: State, c: int) {
    var n := |cfg.manifest|;
    && -1 <= c < n
    && Ascending(s.pending, c, n)
    && (forall a :: 0 <= a < |s.pending| ==> !Verified(cfg, s.disk, s.pending[a]))
    && (forall i :: c < i < n && !Verified(cfg, s.disk, i) ==> i in s.pending)
  }

  /** A reply in flight for entry j means every entry before j is verified. */
  ghost predicate FlightInv(cfg: Config, s: State) {
    forall f :: 0 <= f < |s.inFlight| ==>
      s.inFlight[f] < |cfg.manifest| && VerifiedBelow(cfg, s.disk, s.inFlight[f])
  }

  ghost predicate Inv(cfg: Config, s: State) {
    && (exists c :: QueueInv(cfg, s, c))
    && FlightInv(cfg, s)
    && (Ready in s.signals ==> AllVerified(cfg, s.disk))
  }

  lemma {:induction false} UnverifiedExact(cfg: Config, disk: map<string, Body>, n: nat)
    requires n <= |cfg.manifest|
    ensures Ascending(Unverified(cfg, disk, n), -1, n)
    ensures forall i :: i in Unverified(cfg, disk, n) <==> 0 <= i < n && !Verified(cfg, disk, i)
    decreases n
  {
    if n == 0 {
    } else {
      UnverifiedExact(cfg, disk, n - 1);
    }
  }

  /** Everything before the head of the queue is verified, given that it is up to c. */
  lemma {:induction false} RequestKeeps(cfg: Config, s: State, c: int)
    requires QueueInv(cfg, s, c) && FlightInv(cfg, s) && VerifiedBelow(cfg, s.disk, c + 1)
    requires Ready in s.signals ==> AllVerified(cfg, s.disk)
    ensures Inv(cfg, RequestNext(s))
  {
    var s' := RequestNext(s);
    assert QueueInv(cfg, s', c);
    if s.pending != [] {
      assert VerifiedBelow(cfg, s.disk, s.pending[0]);
    } else {
      assert AllVerified(cfg, s.disk);
    }
  }

  lemma {:induction false} CheckKeeps(cfg: Config, s: State)
    requires Inv(cfg, s)
    ensures Inv(cfg, CheckAndDownload(cfg, s))
  {
    var n := |cfg.manifest|;
    var todo := Unverified(cfg, s.disk, n);
    UnverifiedSize(cfg, s.disk, n);
    var t := s.(total := n, completed := n - |todo|, pending := todo);
    assert CheckAndDownload(cfg, s) == RequestNext(t);
    UnverifiedQueue(cfg, t);
    assert FlightInv(cfg, t);
    RequestKeeps(cfg, t, -1);
  }

  lemma {:induction false} UnverifiedQueue(cfg: Config, s: State)
    requires s.pending == Unverified(cfg, s.disk, |cfg.manifest|)
    ensures QueueInv(cfg, s, -1)
  {
    var todo := s.pending;
    UnverifiedExact(cfg, s.disk, |cfg.manifest|);
    forall a | 0 <= a < |todo| ensures !Verified(cfg, s.disk, todo[a]) {
      assert todo[a] in todo;
    }
  }

  /** Rewriting or deleting one entry's file leaves every other entry as it was. */
  lemma {:induction false} OthersUntouched(cfg: Config, disk: map<string, Body>, disk': map<string, Body>, k: nat)
    requires DistinctNames(cfg) && k < |cfg.manifest|
    requires disk' - {cfg.manifest[k].name} == disk - {cfg.manifest[k].name}
    ensures forall i :: 0 <= i < |cfg.manifest| && i != k ==> (Verified(cfg, disk', i) <==> Verified(cfg, disk, i))
  {
    forall i | 0 <= i < |cfg.manifest| && i != k ensures Verified(cfg, disk', i) <==> Verified(cfg, disk, i) {
      var name := cfg.manifest[i].name;
      assert name != cfg.manifest[k].name;
      assert name in disk <==> name in disk - {cfg.manifest[k].name};
      assert name in disk' <==> name in disk' - {cfg.manifest[k].name};
      if name in disk {
        assert disk[name] == (disk - {cfg.manifest[k].name})[name];
        assert disk'[name] == (disk' - {cfg.manifest[k].name})[name];
      }
    }
  }

  /** Taking the head k and leaving the disk as it was, or touching only k's file. */
  lemma {:induction false} TakeKeeps(cfg: Config, s: State, c: int, s': State)
    requires DistinctNames(cfg) && QueueInv(cfg, s, c) && FlightInv(cfg, s) && s.pending != []
    requires Ready in s.signals ==> AllVerified(cfg, s.disk)
    requires s'.pending == s.pending[1..] && s'.inFlight == s.inFlight
    requires s'.disk - {cfg.manifest[s.pending[0]].name} == s.disk - {cfg.manifest[s.pending[0]].name}
    ensures QueueInv(cfg, s', s.pending[0]) && FlightInv(cfg, s')
    ensures Ready !in s.signals
    ensures VerifiedBelow(cfg, s.disk, s.pending[0]) ==> VerifiedBelow(cfg, s'.disk, s.pending[0])
  {
    var k := s.pending[0];
    OthersUntouched(cfg, s.disk, s'.disk, k);
    assert forall a :: 0 <= a < |s'.pending| ==> s'.pending[a] == s.pending[a + 1];
    forall i | k < i < |cfg.manifest| && !Verified(cfg, s'.disk, i) ensures i in s'.pending {
      var a :| 0 <= a < |s.pending| && s.pending[a] == i;
      assert s'.pending[a - 1] == i;
    }
    forall f | 0 <= f < |s'.inFlight| ensures VerifiedBelow(cfg, s'.disk, s'.inFlight[f]) {
      assert VerifiedBelow(cfg, s.disk, s.inFlight[f]);
    }
  }

  lemma {:induction false} FinishKeeps(cfg: Config, s: State, e: Event)
    requires DistinctNames(cfg) && Inv(cfg, s) && e.Finish? && Honest(cfg, s, e)
    ensures Inv(cfg, Step(cfg, s, e))
  {
    if e.reply < |s.inFlight| && s.pending != [] {
      var j := s.inFlight[e.reply];
      var c :| QueueInv(cfg, s, c);
      var rest := s.inFlight[..e.reply] + s.inFlight[e.reply + 1..];
      var t := s.(inFlight := rest);
      assert forall f :: 0 <= f < |rest| ==> rest[f] in s.inFlight;
      assert QueueInv(cfg, t, c) && FlightInv(cfg, t);
      var k := s.pending[0];
      assert VerifiedBelow(cfg, s.disk, j);
      FinishTaken(cfg, t, c, e.outcome, j);
    } else if e.reply < |s.inFlight| {
      var rest := s.inFlight[..e.reply] + s.inFlight[e.reply + 1..];
      assert forall f :: 0 <= f < |rest| ==> rest[f] in s.inFlight;
      var c :| QueueInv(cfg, s, c);
      assert QueueInv(cfg, s.(inFlight := rest), c);
    }
  }

  /** A finished reply, requested for j, is applied to the head of the queue. */
  lemma {:induction false} FinishTaken(cfg: Config, t: State, c: int, outcome: Outcome, j: nat)
    requires DistinctNames(cfg) && QueueInv(cfg, t, c) && FlightInv(cfg, t) && t.pending != []
    requires Ready in t.signals ==> AllVerified(cfg, t.disk)
    requires j < |cfg.manifest| && VerifiedBelow(cfg, t.disk, j)
    requires outcome.Stored? && Matches(cfg, outcome.body, t.pending[0]) ==> t.pending[0] == j
    ensures Inv(cfg, DownloadFinished(cfg, t, outcome))
  {
    var k := t.pending[0];
    var t' := DownloadFinished(cfg, t, outcome);
    var name := cfg.manifest[k].name;
    if !outcome.Stored? {
      TakeKeeps(cfg, t, c, t');
    } else {
      var disk := t.disk[name := outcome.body];
      assert disk - {name} == t.disk - {name};
      if !VerifyFile(cfg, disk, name, cfg.manifest[k].sha) {
        assert (disk - {name}) - {name} == t.disk - {name};
        TakeKeeps(cfg, t, c, t');
      } else {
        assert Matches(cfg, outcome.body, k);
        assert k == j;
        var done := t.completed + 1;
        var mid := t.(pending := t.pending[1..], disk := disk, completed := done,
                      signals := t.signals + [Progress(if t.total == 0 then 0 else done * 100 / t.total)]);
        TakeKeeps(cfg, t, c, mid);
        assert Verified(cfg, disk, k);
        assert VerifiedBelow(cfg, disk, k + 1);
        RequestKeeps(cfg, mid, k);
      }
    }
  }

  lemma InitKeeps(cfg: Config, disk: map<string, Body>)
    ensures Inv(cfg, Init(disk))
  {
    if |cfg.manifest| == 0 {
      assert QueueInv(cfg, Init(disk), -1);
    } else {
      assert QueueInv(cfg, Init(disk), |cfg.manifest| - 1);
    }
  }

  lemma {:induction false} RunKeeps(cfg: Config, disk: map<string, Body>, es: seq<Event>)
    requires DistinctNames(cfg) && HonestRun(cfg, disk, es)
    ensures Inv(cfg, Run(cfg, disk, es))
    decreases |es|
  {
    if es == [] {
      InitKeeps(cfg, disk);
    } else {
      var init := es[..|es| - 1];
      var e := es[|es| - 1];
      forall k | 0 <= k < |init| ensures Honest(cfg, Run(cfg, disk, init[..k]), init[k]) {
        assert init[..k] == es[..k];
      }
      RunKeeps(cfg, disk, init);
      match e
      case Check => CheckKeeps(cfg, Run(cfg, disk, init));
      case Finish(_, _) => FinishKeeps(cfg, Run(cfg, disk, init), e);
    }
  }

  /** Once allModelsReady has been emitted, every manifest entry is verified on disk and stays
      so, whatever checks, late replies, failures and stale replies came before or follow. */
  lemma {:induction false} ReadyMeansVerified(cfg: Config, disk: map<string, Body>, es: seq<Event>)
    requires DistinctNames(cfg) && HonestRun(cfg, disk, es)
    ensures Ready in Run(cfg, disk, es).signals ==> AllVerified(cfg, Run(cfg, disk, es).disk)
    ensures forall j :: j in Run(cfg, disk, es).inFlight ==>
              j < |cfg.manifest| && VerifiedBelow(cfg, Run(cfg, disk, es).disk, j)
  {
    RunKeeps(cfg, disk, es);
  }

  // ---- the hypothesis is exact ----

  /** A server that serves, for each entry, the right file or a corrupted one: what it sends
      for entry j matches j's hash or nobody's. */
  ghost predicate Served(cfg: Config, s: State, e: Event) {
    e.Finish? && e.outcome.Stored? && e.reply < |s.inFlight| && s.inFlight[e.reply] < |cfg.manifest| ==>
      Matches(cfg, e.outcome.body, s.inFlight[e.reply])
      || forall k :: 0 <= k < |cfg.manifest| ==> !Matches(cfg, e.outcome.body, k)
  }

  ghost predicate ServedRun(cfg: Config, disk: map<string, Body>, es: seq<Event>) {
    forall k :: 0 <= k < |es| ==> Served(cfg, Run(cfg, disk, es[..k]), es[k])
  }

  ghost predicate Sound(cfg: Config, disk: map<string, Body>, es: seq<Event>) {
    Ready in Run(cfg, disk, es).signals ==> AllVerified(cfg, Run(cfg, disk, es).disk)
  }

  ghost predicate DistinctHashes(cfg: Config) {
    forall i, j :: 0 <= i < j < |cfg.manifest| ==> cfg.manifest[i].sha != cfg.manifest[j].sha
  }

  lemma {:induction false} ServedPrefix(cfg: Config, disk: map<string, Body>, es: seq<Event>, n: nat)
    requires n <= |es| && ServedRun(cfg, disk, es)
    ensures ServedRun(cfg, disk, es[..n])
  {
    forall k | 0 <= k < n ensures Served(cfg, Run(cfg, disk, es[..n][..k]), es[..n][k]) {
      assert es[..n][..k] == es[..k];
      assert Served(cfg, Run(cfg, disk, es[..k]), es[k]);
    }
  }

  lemma {:induction false} HonestExtends(cfg: Config, disk: map<string, Body>, es: seq<Event>)
    requires es != [] && HonestRun(cfg, disk, es[..|es| - 1])
    requires Honest(cfg, Run(cfg, disk, es[..|es| - 1]), es[|es| - 1])
    ensures HonestRun(cfg, disk, es)
  {
    var init := es[..|es| - 1];
    forall k | 0 <= k < |es| ensures Honest(cfg, Run(cfg, disk, es[..k]), es[k]) {
      if k < |init| {
        assert init[..k] == es[..k];
        assert Honest(cfg, Run(cfg, disk, init[..k]), init[k]);
      }
    }
  }

  lemma {:induction false} ServedIsHonest(cfg: Config, disk: map<string, Body>, es: seq<Event>)
    requires DistinctNames(cfg) && DistinctHashes(cfg) && ServedRun(cfg, disk, es)
    ensures HonestRun(cfg, disk, es)
    decreases |es|
  {
    if es == [] {
    } else {
      var n := |es| - 1;
      ServedPrefix(cfg, disk, es, n);
      ServedIsHonest(cfg, disk, es[..n]);
      RunKeeps(cfg, disk, es[..n]);
      assert Served(cfg, Run(cfg, disk, es[..n]), es[n]);
      HonestStep(cfg, Run(cfg, disk, es[..n]), es[n]);
      HonestExtends(cfg, disk, es);
    }
  }

  lemma {:induction false} HonestStep(cfg: Config, s: State, e: Event)
    requires DistinctHashes(cfg) && FlightInv(cfg, s) && Served(cfg, s, e)
    ensures Honest(cfg, s, e)
  {
  }

  /** Two checks put two replies for the same entry in flight; the first fails, and the
      second is stored as the next entry. */
  function StaleReply(body: Body): seq<Event> {
    [Check, Check, Finish(0, NetworkError), Finish(0, Stored(body))]
  }

  /** A disk on which exactly entries i and j are missing. */
  function AllBut(cfg: Config, bodies: seq<Body>, i: nat, j: nat, n: nat): map<string, Body>
    requires n <= |cfg.manifest| == |bodies|
  {
    if n == 0 then map[]
    else if n - 1 == i || n - 1 == j then AllBut(cfg, bodies, i, j, n - 1)
    else AllBut(cfg, bodies, i, j, n - 1)[cfg.manifest[n - 1].name := bodies[n - 1]]
  }

  lemma {:induction false} AllButHolds(cfg: Config, bodies: seq<Body>, i: nat, j: nat, n: nat)
    requires n <= |cfg.manifest| == |bodies| && DistinctNames(cfg)
    ensures var disk := AllBut(cfg, bodies, i, j, n);
            forall k :: 0 <= k < |cfg.manifest| ==>
              (cfg.manifest[k].name in disk <==> k < n && k != i && k != j)
              && (cfg.manifest[k].name in disk ==> disk[cfg.manifest[k].name] == bodies[k])
    decreases n
  {
    if n == 0 {
    } else {
      AllButHolds(cfg, bodies, i, j, n - 1);
    }
  }

  /** An ascending list of exactly two positions. */
  lemma {:induction false} TwoPending(p: seq<nat>, i: nat, j: nat, n: nat)
    requires i < j < n && Ascending(p, -1, n) && forall k :: k in p <==> k == i || k == j
    ensures p == [i, j]
  {
    assert i in p && j in p;
    var a :| 0 <= a < |p| && p[a] == i;
    var b :| 0 <= b < |p| && p[b] == j;
    assert p[0] in p && p[1] in p && p[|p| - 1] in p;
    assert a == 0 && b == 1 && b == |p| - 1;
  }

  /** After two checks of that disk, both replies in flight are for entry i. */
  lemma {:induction false} TwoChecks(cfg: Config, bodies: seq<Body>, i: nat, j: nat)
    requires DistinctNames(cfg) && |bodies| == |cfg.manifest| && i < j < |bodies|
    requires forall k :: 0 <= k < |bodies| ==> Matches(cfg, bodies[k], k)
    ensures var disk := AllBut(cfg, bodies, i, j, |bodies|);
            var s := Step(cfg, Step(cfg, Init(disk), Check), Check);
            s.disk == disk && s.pending == [i, j] && s.inFlight == [i, i]
            && cfg.manifest[i].name !in disk
  {
    var n := |bodies|;
    var disk := AllBut(cfg, bodies, i, j, n);
    AllButHolds(cfg, bodies, i, j, n);
    UnverifiedExact(cfg, disk, n);
    assert forall k :: 0 <= k < n ==> (Verified(cfg, disk, k) <==> k != i && k != j);
    TwoPending(Unverified(cfg, disk, n), i, j, n);
  }

  lemma {:induction false} StaleReplyRun(cfg: Config, disk: map<string, Body>, body: Body)
    ensures var es := StaleReply(body);
            var s2 := Step(cfg, Step(cfg, Init(disk), Check), Check);
            var s3 := Step(cfg, s2, Finish(0, NetworkError));
            && Run(cfg, disk, es[..2]) == s2 && Run(cfg, disk, es[..3]) == s3
            && Run(cfg, disk, es) == Step(cfg, s3, Finish(0, Stored(body)))
  {
    var es := StaleReply(body);
    assert es[..0] == [] && es[..4] == es;
    RunStep(cfg, disk, es, 0);
    RunStep(cfg, disk, es, 1);
    RunStep(cfg, disk, es, 2);
    RunStep(cfg, disk, es, 3);
  }

  /** With two equal hashes that some file has, a disk and four events end in a false ready. */
  lemma {:induction false} FalseReady(cfg: Config, bodies: seq<Body>, i: nat, j: nat)
    requires DistinctNames(cfg) && |bodies| == |cfg.manifest|
    requires forall k :: 0 <= k < |bodies| ==> Matches(cfg, bodies[k], k)
    requires i < j < |cfg.manifest| && cfg.manifest[i].sha == cfg.manifest[j].sha
    ensures var disk := AllBut(cfg, bodies, i, j, |bodies|);
            ServedRun(cfg, disk, StaleReply(bodies[i])) && !Sound(cfg, disk, StaleReply(bodies[i]))
  {
    var disk := AllBut(cfg, bodies, i, j, |bodies|);
    TwoChecks(cfg, bodies, i, j);
    StaleReplyRun(cfg, disk, bodies[i]);
    var s2 := Step(cfg, Step(cfg, Init(disk), Check), Check);
    var s3 := Step(cfg, s2, Finish(0, NetworkError));
    assert s3.pending == [j] && s3.inFlight == [i] && s3.disk == disk;
    FalseReadyStep(cfg, s3, bodies[i], i, j);
    assert Matches(cfg, bodies[i], i);
    StaleReplyServed(cfg, disk, bodies[i], s3);
  }

  lemma {:induction false} StaleReplyServed(cfg: Config, disk: map<string, Body>, body: Body, s3: State)
    requires Run(cfg, disk, StaleReply(body)[..3]) == s3
    requires Served(cfg, s3, Finish(0, Stored(body)))
    ensures ServedRun(cfg, disk, StaleReply(body))
  {
    var es := StaleReply(body);
    forall k | 0 <= k < |es| ensures Served(cfg, Run(cfg, disk, es[..k]), es[k]) {
      if k == 3 {
        assert es[3] == Finish(0, Stored(body));
      }
    }
  }

  lemma {:induction false} RunStep(cfg: Config, disk: map<string, Body>, es: seq<Event>, k: nat)
    requires k < |es|
    ensures Run(cfg, disk, es[..k + 1]) == Step(cfg, Run(cfg, disk, es[..k]), es[k])
  {
    assert es[..k + 1][..k] == es[..k];
  }

  lemma {:induction false} FalseReadyStep(cfg: Config, s: State, body: Body, i: nat, j: nat)
    requires DistinctNames(cfg) && i < j < |cfg.manifest| && cfg.manifest[i].name !in s.disk
    requires s.pending == [j] && s.inFlight == [i] && Matches(cfg, body, j)
    ensures var s' := Step(cfg, s, Finish(0, Stored(body)));
            Ready in s'.signals && !AllVerified(cfg, s'.disk)
  {
    var s' := Step(cfg, s, Finish(0, Stored(body)));
    assert s'.pending == [];
    assert s'.signals[|s'.signals| - 1] == Ready;
    assert !Verified(cfg, s'.disk, i);
  }

  /** For a manifest of distinct names whose hashes all belong to some file, and a server that
      sends the right file or a corrupted one: allModelsReady is sound from every disk in every
      run, if and only if no two entries share a hash. */
  lemma {:induction false} ReadyIff(cfg: Config, bodies: seq<Body>)
    requires DistinctNames(cfg) && |bodies| == |cfg.manifest|
    requires forall k :: 0 <= k < |bodies| ==> Matches(cfg, bodies[k], k)
    ensures (forall disk, es :: ServedRun(cfg, disk, es) ==> Sound(cfg, disk, es)) <==> DistinctHashes(cfg)
  {
    if DistinctHashes(cfg) {
      forall disk, es | ServedRun(cfg, disk, es) ensures Sound(cfg, disk, es) {
        ServedIsHonest(cfg, disk, es);
        RunKeeps(cfg, disk, es);
      }
    } else {
      var i, j :| 0 <= i < j < |cfg.manifest| && cfg.manifest[i].sha == cfg.manifest[j].sha;
      FalseReady(cfg, bodies, i, j);
    }
  }

  /** Stale replies also cost liveness. Two entries, two checks, and three replies that all
      deliver the right file: yet nothing is in flight, entry 1 is missing and allModelsReady
      was never emitted. Only another check recovers. */
  lemma {:induction false} StaleReplyStalls(cfg: Config, a: Body, b: Body)
    requires |cfg.manifest| == 2 && DistinctNames(cfg) && DistinctHashes(cfg)
    requires Matches(cfg, a, 0) && Matches(cfg, b, 1)
    ensures var es := [Check, Check, Finish(0, Stored(a)), Finish(0, Stored(a)), Finish(0, Stored(b))];
            var s := Run(cfg, map[], es);
            && Run(cfg, map[], es[..2]).inFlight == [0, 0]
            && Run(cfg, map[], es[..4]).inFlight == [1]
            && s.inFlight == [] && s.pending == [] && Ready !in s.signals && !Verified(cfg, s.disk, 1)
  {
    var es := [Check, Check, Finish(0, Stored(a)), Finish(0, Stored(a)), Finish(0, Stored(b))];
    var empty: map<string, Body> := map[];
    assert es[..0] == [] && es[..5] == es;
    RunStep(cfg, empty, es, 0);
    RunStep(cfg, empty, es, 1);
    RunStep(cfg, empty, es, 2);
    RunStep(cfg, empty, es, 3);
    RunStep(cfg, empty, es, 4);
    StallHead(cfg);
    StallTail(cfg, Run(cfg, empty, es[..2]), a, b);
  }

  lemma {:induction false} StallHead(cfg: Config)
    requires |cfg.manifest| == 2
    ensures var s := Step(cfg, Step(cfg, Init(map[]), Check), Check);
            s.pending == [0, 1] && s.inFlight == [0, 0] && s.signals == [] && s.disk == map[]
  {
    var empty: map<string, Body> := map[];
    assert Unverified(cfg, empty, 1) == [0] by {
      assert Unverified(cfg, empty, 0) == [];
    }
    assert Unverified(cfg, empty, 2) == [0, 1];
  }

  lemma {:induction false} StallTail(cfg: Config, s: State, a: Body, b: Body)
    requires |cfg.manifest| == 2 && DistinctNames(cfg) && DistinctHashes(cfg)
    requires Matches(cfg, a, 0) && Matches(cfg, b, 1)
    requires s.pending == [0, 1] && s.inFlight == [0, 0] && s.signals == [] && s.disk == map[]
    ensures var s3 := Step(cfg, s, Finish(0, Stored(a)));
            var s4 := Step(cfg, s3, Finish(0, Stored(a)));
            var s5 := Step(cfg, s4, Finish(0, Stored(b)));
            && s4.inFlight == [1]
            && s5.inFlight == [] && s5.pending == [] && Ready !in s5.signals && !Verified(cfg, s5.disk, 1)
  {
    var s3 := Step(cfg, s, Finish(0, Stored(a)));
    var s4 := Step(cfg, s3, Finish(0, Stored(a)));
    assert s3.pending == [1] && s3.inFlight == [0, 1];
    assert s4.pending == [] && s4.inFlight == [1];
    assert cfg.manifest[0].sha != cfg.manifest[1].sha;
  }
}
