/**
  The voice activity detector: the per-chunk Idle/Speaking/Trailing machine, a declarative
  account of when it signals, and the class that cuts the microphone stream into chunks.
 */
module Vad {
  import opened Common

  const CHUNK_BYTES: nat := 1024

  /** Trailing carries the time the silence timer was started. */
  datatype State = Idle | Speaking | Trailing(since: int)

  datatype Signal = Started | Ended

  /** One inference: the speech probability, the threshold then in force and the clock. */
  datatype Observation = Observation(prob: real, threshold: real, at: int) {
    predicate Above() { prob >= threshold }
  }

  datatype Outcome = Outcome(state: State, signal: Option<Signal>)

  /** The transition taken after one inference. */
  function Step(silenceEndMs: int, s: State, o: Observation): Outcome {
    match s
    case Idle => if o.Above() then Outcome(Speaking, Some(Started)) else Outcome(Idle, None)
    case Speaking => Outcome(if o.Above() then Speaking else Trailing(o.at), None)
    case Trailing(since) =>
      if o.Above() then Outcome(Speaking, None)
      else if o.at - since >= silenceEndMs then Outcome(Idle, Some(Ended))
      else Outcome(s, None)
  }

  /** The state after a run of chunks that starts at a reset. */
  function After(silenceEndMs: int, obs: seq<Observation>): State {
    if obs == [] then Idle
    else Step(silenceEndMs, After(silenceEndMs, obs[..|obs| - 1]), obs[|obs| - 1]).state
  }

  function SignalAt(silenceEndMs: int, obs: seq<Observation>, j: nat): Option<Signal>
    requires j < |obs|
  {
    Step(silenceEndMs, After(silenceEndMs, obs[..j]), obs[j]).signal
  }

  /** The signals of a run, in order. */
  function Signals(silenceEndMs: int, obs: seq<Observation>): seq<Signal> {
    if obs == [] then []
    else
      var init := Signals(silenceEndMs, obs[..|obs| - 1]);
      match SignalAt(silenceEndMs, obs, |obs| - 1)
      case None => init
      case Some(sig) => init + [sig]
  }

  /** Chunks i..j are all below the threshold in force and the chunk before i was not. */
  ghost predicate SilentSince(obs: seq<Observation>, i: int, j: int) {
    && 1 <= i <= j < |obs|
    && obs[i - 1].Above()
    && forall k :: i <= k <= j ==> !obs[k].Above()
  }

  /** j is the first chunk after i at which silenceEndMs have passed since i. */
  ghost predicate FirstDue(silenceEndMs: int, obs: seq<Observation>, i: int, j: int)
    requires 0 <= i && j < |obs|
  {
    && i < j
    && obs[j].at - obs[i].at >= silenceEndMs
    && forall k :: i < k < j ==> obs[k].at - obs[i].at < silenceEndMs
  }

  /** The declarative reading of "speech ended at chunk j": no machine state appears in it. */
  ghost predicate EndsAt(silenceEndMs: int, obs: seq<Observation>, j: int) {
    exists i :: SilentSince(obs, i, j) && FirstDue(silenceEndMs, obs, i, j)
  }

  /** Every chunk above its threshold among the first n is followed, before n, by an end. */
  ghost predicate AllEnded(silenceEndMs: int, obs: seq<Observation>, n: nat)
    requires n <= |obs|
  {
    forall p :: 0 <= p < n && obs[p].Above() ==> EndedWithin(silenceEndMs, obs, p, n)
  }

  ghost predicate EndedWithin(silenceEndMs: int, obs: seq<Observation>, p: int, n: int) {
    exists e :: p < e < n && EndsAt(silenceEndMs, obs, e)
  }

  /** The declarative reading of "speech started at chunk j". */
  ghost predicate StartsAt(silenceEndMs: int, obs: seq<Observation>, j: int) {
    && 0 <= j < |obs|
    && obs[j].Above()
    && AllEnded(silenceEndMs, obs, j)
  }

  lemma {:induction false} SilentSinceUnique(obs: seq<Observation>, i: int, i': int, j: int)
    requires SilentSince(obs, i, j) && SilentSince(obs, i', j)
    ensures i == i'
  {
  }

  /** i starts the silence that is still running at the last chunk. */
  ghost predicate RunningSince(silenceEndMs: int, obs: seq<Observation>, i: int) {
    && SilentSince(obs, i, |obs| - 1)
    && forall k :: i < k < |obs| ==> obs[k].at - obs[i].at < silenceEndMs
  }

  /** What each machine state says about the chunks so far. */
  ghost predicate StateMeans(silenceEndMs: int, obs: seq<Observation>, s: State) {
    var n := |obs|;
    match s
    case Speaking => n > 0 && obs[n - 1].Above()
    case Trailing(since) =>
      exists i :: RunningSince(silenceEndMs, obs, i) && since == obs[i].at
    case Idle =>
      n > 0 ==>
        && !obs[n - 1].Above()
        && AllEnded(silenceEndMs, obs, n)
  }

  lemma {:induction false} EndsAtPrefix(silenceEndMs: int, obs: seq<Observation>, n: nat, e: int)
    requires e < n <= |obs|
    ensures EndsAt(silenceEndMs, obs[..n], e) <==> EndsAt(silenceEndMs, obs, e)
  {
    var p := obs[..n];
    if EndsAt(silenceEndMs, p, e) {
      var i :| SilentSince(p, i, e) && FirstDue(silenceEndMs, p, i, e);
      assert SilentSince(obs, i, e) && FirstDue(silenceEndMs, obs, i, e);
    }
    if EndsAt(silenceEndMs, obs, e) {
      var i :| SilentSince(obs, i, e) && FirstDue(silenceEndMs, obs, i, e);
      assert SilentSince(p, i, e) && FirstDue(silenceEndMs, p, i, e);
    }
  }

  lemma {:induction false} AfterMeans(silenceEndMs: int, obs: seq<Observation>)
    ensures StateMeans(silenceEndMs, obs, After(silenceEndMs, obs))
    decreases |obs|
  {
    if obs == [] {
    } else {
      var n := |obs| - 1;
      AfterMeans(silenceEndMs, obs[..n]);
      StepMeans(silenceEndMs, obs, After(silenceEndMs, obs[..n]));
    }
  }

  /** The new state means what it should, and the signal is the declarative one. */
  ghost predicate StepOk(silenceEndMs: int, obs: seq<Observation>, r: Outcome)
    requires obs != []
  {
    && StateMeans(silenceEndMs, obs, r.state)
    && (r.signal == Some(Ended) <==> EndsAt(silenceEndMs, obs, |obs| - 1))
    && (r.signal == Some(Started) <==> StartsAt(silenceEndMs, obs, |obs| - 1))
  }

  /** A silence that has already ended cannot end again. */
  lemma {:induction false} EndsOnce(silenceEndMs: int, obs: seq<Observation>, i: int, e: int, j: int)
    requires SilentSince(obs, i, j) && i - 1 < e < j && EndsAt(silenceEndMs, obs, e)
    ensures !FirstDue(silenceEndMs, obs, i, j)
  {
    var i' :| SilentSince(obs, i', e) && FirstDue(silenceEndMs, obs, i', e);
    assert SilentSince(obs, i, e);
    SilentSinceUnique(obs, i, i', e);
  }

  lemma {:induction false} AllEndedInit(silenceEndMs: int, obs: seq<Observation>)
    requires obs != [] && AllEnded(silenceEndMs, obs[..|obs| - 1], |obs| - 1)
    ensures AllEnded(silenceEndMs, obs, |obs| - 1)
  {
    var n := |obs| - 1;
    forall p | 0 <= p < n && obs[p].Above() ensures EndedWithin(silenceEndMs, obs, p, n) {
      assert obs[..n][p].Above();
      var e :| p < e < n && EndsAt(silenceEndMs, obs[..n], e);
      EndsAtPrefix(silenceEndMs, obs, n, e);
    }
  }

  lemma {:induction false} AllEndedNoEnd(silenceEndMs: int, obs: seq<Observation>, n: nat)
    requires n < |obs| && AllEnded(silenceEndMs, obs, n) && (n > 0 ==> !obs[n - 1].Above())
    ensures !EndsAt(silenceEndMs, obs, n)
  {
    forall i | SilentSince(obs, i, n) ensures !FirstDue(silenceEndMs, obs, i, n) {
      if i < n {
        assert obs[i - 1].Above();
        var e :| i - 1 < e < n && EndsAt(silenceEndMs, obs, e);
        EndsOnce(silenceEndMs, obs, i, e, n);
      }
    }
  }

  lemma {:induction false} AllEndedGrows(silenceEndMs: int, obs: seq<Observation>, n: nat)
    requires n < |obs| && AllEnded(silenceEndMs, obs, n) && !obs[n].Above()
    ensures AllEnded(silenceEndMs, obs, n + 1)
  {
    forall p | 0 <= p < n + 1 && obs[p].Above() ensures EndedWithin(silenceEndMs, obs, p, n + 1) {
      var e :| p < e < n && EndsAt(silenceEndMs, obs, e);
    }
  }

  lemma {:induction false} IdleStep(silenceEndMs: int, obs: seq<Observation>)
    requires obs != [] && StateMeans(silenceEndMs, obs[..|obs| - 1], Idle)
    ensures StepOk(silenceEndMs, obs, Step(silenceEndMs, Idle, obs[|obs| - 1]))
  {
    var n := |obs| - 1;
    AllEndedInit(silenceEndMs, obs);
    if n > 0 {
      assert !obs[..n][n - 1].Above();
    }
    AllEndedNoEnd(silenceEndMs, obs, n);
    if !obs[n].Above() {
      AllEndedGrows(silenceEndMs, obs, n);
    }
  }

  lemma {:induction false} SpeakingStep(silenceEndMs: int, obs: seq<Observation>)
    requires obs != [] && StateMeans(silenceEndMs, obs[..|obs| - 1], Speaking)
    ensures StepOk(silenceEndMs, obs, Step(silenceEndMs, Speaking, obs[|obs| - 1]))
  {
    var n := |obs| - 1;
    assert obs[n - 1].Above();
    if !obs[n].Above() {
      assert SilentSince(obs, n, n);
      forall i | SilentSince(obs, i, n) ensures i == n { SilentSinceUnique(obs, i, n, n); }
    }
  }

  lemma {:induction false} TrailingStep(silenceEndMs: int, obs: seq<Observation>, since: int)
    requires obs != [] && StateMeans(silenceEndMs, obs[..|obs| - 1], Trailing(since))
    ensures StepOk(silenceEndMs, obs, Step(silenceEndMs, Trailing(since), obs[|obs| - 1]))
  {
    var n := |obs| - 1;
    var i :| RunningSince(silenceEndMs, obs[..n], i) && since == obs[..n][i].at;
    if obs[n].Above() {
      TrailingResumes(silenceEndMs, obs, i);
    } else {
      TrailingContinues(silenceEndMs, obs, i);
    }
  }

  lemma {:induction false} TrailingResumes(silenceEndMs: int, obs: seq<Observation>, i: int)
    requires obs != [] && RunningSince(silenceEndMs, obs[..|obs| - 1], i) && obs[|obs| - 1].Above()
    ensures StepOk(silenceEndMs, obs, Outcome(Speaking, None))
  {
    NoEndYet(silenceEndMs, obs, i);
    assert obs[..|obs| - 1][i - 1].Above();
  }

  lemma {:induction false} TrailingContinues(silenceEndMs: int, obs: seq<Observation>, i: int)
    requires obs != [] && RunningSince(silenceEndMs, obs[..|obs| - 1], i) && !obs[|obs| - 1].Above()
    ensures StepOk(silenceEndMs, obs, Step(silenceEndMs, Trailing(obs[i].at), obs[|obs| - 1]))
  {
    var n := |obs| - 1;
    assert forall k :: 0 <= k < n ==> obs[..n][k] == obs[k];
    assert SilentSince(obs, i, n);
    forall i' | SilentSince(obs, i', n) ensures i' == i { SilentSinceUnique(obs, i, i', n); }
    if obs[n].at - obs[i].at >= silenceEndMs {
      EndedCovers(silenceEndMs, obs, i, n);
    } else {
      assert RunningSince(silenceEndMs, obs, i);
    }
  }

  lemma {:induction false} StepMeans(silenceEndMs: int, obs: seq<Observation>, s: State)
    requires obs != [] && StateMeans(silenceEndMs, obs[..|obs| - 1], s)
    ensures StepOk(silenceEndMs, obs, Step(silenceEndMs, s, obs[|obs| - 1]))
  {
    match s
    case Idle => IdleStep(silenceEndMs, obs);
    case Speaking => SpeakingStep(silenceEndMs, obs);
    case Trailing(since) => TrailingStep(silenceEndMs, obs, since);
  }

  /** While the silence since i has not run out, nothing has ended at or after i - 1. */
  lemma {:induction false} NoEndYet(silenceEndMs: int, obs: seq<Observation>, i: int)
    requires obs != [] && RunningSince(silenceEndMs, obs[..|obs| - 1], i)
    ensures forall e :: i - 1 < e < |obs| - 1 ==> !EndsAt(silenceEndMs, obs, e)
  {
    var init := obs[..|obs| - 1];
    assert forall k :: 0 <= k < |init| ==> init[k] == obs[k];
    forall e, i' | i - 1 < e < |obs| - 1 && SilentSince(obs, i', e) ensures i' == i {
      assert SilentSince(obs, i, e);
      SilentSinceUnique(obs, i, i', e);
    }
  }

  /** Every chunk above the threshold lies before the silence that ends at the last chunk. */
  lemma {:induction false} EndedCovers(silenceEndMs: int, obs: seq<Observation>, i: int, j: int)
    requires SilentSince(obs, i, j) && FirstDue(silenceEndMs, obs, i, j) && j == |obs| - 1
    ensures StateMeans(silenceEndMs, obs, Idle) && EndsAt(silenceEndMs, obs, j)
  {
    forall p | 0 <= p < |obs| && obs[p].Above() ensures EndedWithin(silenceEndMs, obs, p, |obs|) {
      assert p < j < |obs| && EndsAt(silenceEndMs, obs, j);
    }
  }

  /** speechEnded fires at chunk j exactly when j is the first chunk, after some i at which
      every chunk i..j is below its threshold and the chunk before i was not, by which
      silenceEndMs have passed since i; speechStarted fires at j exactly when j is above its
      threshold and every earlier chunk above its own is separated from j by such an end. */
  lemma {:induction false} SignalsAreDeclarative(silenceEndMs: int, obs: seq<Observation>, j: nat)
    requires j < |obs|
    ensures SignalAt(silenceEndMs, obs, j) == Some(Ended) <==> EndsAt(silenceEndMs, obs, j)
    ensures SignalAt(silenceEndMs, obs, j) == Some(Started) <==> StartsAt(silenceEndMs, obs, j)
  {
    var p := obs[..j + 1];
    assert p[..j] == obs[..j];
    AfterMeans(silenceEndMs, p[..j]);
    StepMeans(silenceEndMs, p, After(silenceEndMs, p[..j]));
    EndsAtPrefix(silenceEndMs, obs, j + 1, j);
    AllEndedPrefix(silenceEndMs, obs, j);
  }

  lemma {:induction false} AllEndedPrefix(silenceEndMs: int, obs: seq<Observation>, j: nat)
    requires j < |obs|
    ensures AllEnded(silenceEndMs, obs[..j + 1], j) <==> AllEnded(silenceEndMs, obs, j)
  {
    var p := obs[..j + 1];
    forall q | 0 <= q < j
      ensures EndedWithin(silenceEndMs, p, q, j) <==> EndedWithin(silenceEndMs, obs, q, j)
    {
      forall e | e < j ensures EndsAt(silenceEndMs, p, e) <==> EndsAt(silenceEndMs, obs, e) {
        EndsAtPrefix(silenceEndMs, obs, j + 1, e);
      }
    }
    assert forall q :: 0 <= q < j ==> p[q] == obs[q];
  }

  /** Between two resets the signals alternate, beginning with speechStarted. */
  lemma {:induction false} SignalsAlternate(silenceEndMs: int, obs: seq<Observation>)
    ensures var sigs := Signals(silenceEndMs, obs);
            && (forall m :: 0 <= m < |sigs| ==> sigs[m] == if m % 2 == 0 then Started else Ended)
            && (After(silenceEndMs, obs).Idle? <==> |sigs| % 2 == 0)
    decreases |obs|
  {
    if obs == [] {
    } else {
      SignalsAlternate(silenceEndMs, obs[..|obs| - 1]);
    }
  }
}
