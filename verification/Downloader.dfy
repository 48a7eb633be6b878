/**
  The model downloader: a work queue rebuilt by every check while replies to earlier checks
  are still in flight. A reply is matched with whatever heads the queue when it finishes.
 */
module Downloader {
  import opened Common

  type Body = seq<Byte>

  datatype Entry = Entry(name: string, sha: string)

  /** The manifest resource and the hash function. An entry is named by its position. */
  datatype Config = Config(manifest: seq<Entry>, hash: Body -> string)

  datatype Signal = Progress(percent: int) | Ready | Failed(entry: nat)

  /** How a reply ends: a network error, a file that cannot be opened for writing, or the
      bytes that were stored. */
  datatype Outcome = NetworkError | CannotWrite | Stored(body: Body)

  /** inFlight lists, for every unfinished reply, the entry whose URL it was requested from. */
  datatype State = State(
    disk: map<string, Body>, pending: seq<nat>, total: nat, completed: nat,
    inFlight: seq<nat>, signals: seq<Signal>)

  datatype Event = Check | Finish(reply: nat, outcome: Outcome)

  function Init(disk: map<string, Body>): State { State(disk, [], 0, 0, [], []) }

  /** An empty hash never verifies. */
  predicate VerifyFile(cfg: Config, disk: map<string, Body>, name: string, sha: string) {
    sha != "" && name in disk && cfg.hash(disk[name]) == sha
  }

  predicate Verified(cfg: Config, disk: map<string, Body>, i: nat)
    requires i < |cfg.manifest|
  {
    VerifyFile(cfg, disk, cfg.manifest[i].name, cfg.manifest[i].sha)
  }

  /** The positions below n that do not verify, in manifest order. */
  function Unverified(cfg: Config, disk: map<string, Body>, n: nat): seq<nat>
    requires n <= |cfg.manifest|
  {
    if n == 0 then []
    else Unverified(cfg, disk, n - 1) + if Verified(cfg, disk, n - 1) then [] else [n - 1]
  }

  function RequestNext(s: State): State {
    if s.pending == [] then s.(signals := s.signals + [Ready])
    else s.(inFlight := s.inFlight + [s.pending[0]])
  }

  function CheckAndDownload(cfg: Config, s: State): State {
    var n := |cfg.manifest|;
    var todo := Unverified(cfg, s.disk, n);
    UnverifiedSize(cfg, s.disk, n);
    RequestNext(s.(total := n, completed := n - |todo|, pending := todo))
  }

  function DownloadFinished(cfg: Config, s: State, outcome: Outcome): State {
    if s.pending == [] then s
    else
      var k := s.pending[0];
      var s1 := s.(pending := s.pending[1..]);
      if !outcome.Stored? || k >= |cfg.manifest| then s1.(signals := s.signals + [Failed(k)])
      else
        var name := cfg.manifest[k].name;
        var disk := s.disk[name := outcome.body];
        if !VerifyFile(cfg, disk, name, cfg.manifest[k].sha)
        then s1.(disk := disk - {name}, signals := s.signals + [Failed(k)])
        else
          var done := s.completed + 1;
          RequestNext(s1.(disk := disk, completed := done,
                           signals := s.signals + [Progress(if s.total == 0 then 0 else done * 100 / s.total)]))
  }

  /** A reply that is not in flight cannot finish. */
  function Step(cfg: Config, s: State, e: Event): State {
    match e
    case Check => CheckAndDownload(cfg, s)
    case Finish(r, outcome) =>
      if r >= |s.inFlight| then s
      else DownloadFinished(cfg, s.(inFlight := s.inFlight[..r] + s.inFlight[r + 1..]), outcome)
  }

  function Run(cfg: Config, disk: map<string, Body>, es: seq<Event>): State {
    if es == [] then Init(disk)
    else Step(cfg, Run(cfg, disk, es[..|es| - 1]), es[|es| - 1])
  }

  lemma {:induction false} UnverifiedSize(cfg: Config, disk: map<string, Body>, n: nat)
    requires n <= |cfg.manifest|
    ensures |Unverified(cfg, disk, n)| <= n
    decreases n
  {
    if n == 0 {
    } else {
      UnverifiedSize(cfg, disk, n - 1);
    }
  }

  class ModelDownloader {
    const cfg: Config
    var disk: map<string, Body>
    var pending: seq<nat>
    var totalCount: nat
    var completedCount: nat
    var inFlight: seq<nat>
    var signals: seq<Signal>

    function Abs(): State
      reads this
    {
      State(disk, pending, totalCount, completedCount, inFlight, signals)
    }

    /** Queue positions are positions in the manifest. */
    ghost predicate Valid()
      reads this
    {
      && (forall a :: 0 <= a < |pending| ==> pending[a] < |cfg.manifest|)
      && (pending != [] ==> totalCount == |cfg.manifest|)
    }

    constructor (cfg: Config, disk: map<string, Body>)
      ensures Valid() && this.cfg == cfg && Abs() == Init(disk)
    {
      this.cfg := cfg;
      this.disk := disk;
      pending, totalCount, completedCount, inFlight, signals := [], 0, 0, [], [];
    }

    method CheckAndDownload()
      requires Valid()
      modifies this
      ensures Valid() && Abs() == Step(cfg, old(Abs()), Check)
    {
      QueueUnverified();
      if pending == [] {
        signals := signals + [Ready];
        return;
      }
      DownloadNext();
    }

    /** Sort the manifest into verified and pending. */
    method QueueUnverified()
      modifies this`totalCount, this`completedCount, this`pending
      ensures pending == Unverified(cfg, disk, |cfg.manifest|) && totalCount == |cfg.manifest|
      ensures completedCount + |pending| == |cfg.manifest|
      ensures forall a :: 0 <= a < |pending| ==> pending[a] < |cfg.manifest|
    {
      totalCount := |cfg.manifest|;
      completedCount := 0;
      pending := [];
      for i := 0 to |cfg.manifest|
        modifies this`pending, this`completedCount
        invariant pending == Unverified(cfg, disk, i) && completedCount + |pending| == i
        invariant forall a :: 0 <= a < |pending| ==> pending[a] < |cfg.manifest|
      {
        if VerifyFile(cfg, disk, cfg.manifest[i].name, cfg.manifest[i].sha) {
          completedCount := completedCount + 1;
        } else {
          pending := pending + [i];
        }
      }
    }

    method DownloadNext()
      requires Valid()
      modifies this`inFlight, this`signals
      ensures Valid() && Abs() == RequestNext(old(Abs()))
    {
      if pending == [] {
        signals := signals + [Ready];
        return;
      }
      inFlight := inFlight + [pending[0]];
    }

    method OnDownloadFinished(reply: nat, outcome: Outcome)
      requires Valid()
      modifies this
      ensures Valid() && Abs() == Step(cfg, old(Abs()), Finish(reply, outcome))
    {
      if reply >= |inFlight| {
        return;
      }
      inFlight := inFlight[..reply] + inFlight[reply + 1..];
      if pending == [] {
        return;
      }
      var k := pending[0];
      var entry := cfg.manifest[k];
      pending := pending[1..];
      if !outcome.Stored? {
        signals := signals + [Failed(k)];
        return;
      }
      disk := disk[entry.name := outcome.body];
      if !VerifyFile(cfg, disk, entry.name, entry.sha) {
        disk := disk - {entry.name};
        signals := signals + [Failed(k)];
        return;
      }
      completedCount := completedCount + 1;
      signals := signals + [Progress(completedCount * 100 / totalCount)];
      DownloadNext();
    }
  }
}
