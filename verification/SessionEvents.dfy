/**
  The session's fields read off the events: which reply a barge-in names, when the session is
  idle, speaking or playing back, when a stream opens, and which chunks the VAD judges by.
 */
module SessionEvents {
  import opened Common
  import opened Framing
  import opened Session
  import opened SessionTiming
  import Safety = SessionSafety
  import Upload = SessionUpload
  import V = Vad

  // ---- the reply a barge-in names ----

  function InboundAt(es: seq<Event>, i: int): Option<Id> {
    if 0 <= i < |es| && es[i].InboundStart? then Some(es[i].id) else None
  }

  /** The id of the latest inbound stream announced before event k, or "" without one. */
  ghost predicate NamesReply(es: seq<Event>, k: int, id: Id) {
    Latest(i => InboundAt(es, i), "", k, id)
  }

  lemma StepInbound(cfg: Config, s: Session, e: Event)
    ensures Step(cfg, s, e).inboundId == if e.InboundStart? then e.id else s.inboundId
  {
  }

  lemma {:induction false} InboundIs(cfg: Config, es: seq<Event>, k: nat)
    requires k <= |es|
    ensures NamesReply(es, k, Run(cfg, es[..k]).inboundId)
    decreases k
  {
    if k == 0 {
    } else {
      var s := Run(cfg, es[..k - 1]);
      InboundIs(cfg, es, k - 1);
      LatestStep(i => InboundAt(es, i), "", k - 1, s.inboundId);
      RunPrefix(cfg, es, k - 1);
      StepInbound(cfg, s, es[k - 1]);
    }
  }

  /** The message with which event k's barge-in begins. */
  function Announcement(cfg: Config, es: seq<Event>, k: int): Message
    requires SendsBargeIn(cfg, es, k)
  {
    Run(cfg, es[..k + 1]).sent[|Run(cfg, es[..k]).sent|]
  }

  lemma StepAnnounces(cfg: Config, s: Session, e: Event)
    requires e.BargeInTimeout? && s.state.PlayingBack? && s.bargeIn.Fires(s.now)
    ensures var s' := Step(cfg, s, e);
            |s'.sent| >= |s.sent| + 2 && s'.sent[|s.sent|] == BargeIn(s.inboundId)
            && s'.sent[|s.sent| + 1] == StreamStart(e.id)
  {
  }

  /** In every run, a BargeIn names the latest inbound stream announced before it. */
  lemma {:induction false} BargeInNames(cfg: Config, es: seq<Event>, k: nat)
    requires SendsBargeIn(cfg, es, k)
    ensures NamesReply(es, k, Announcement(cfg, es, k).interrupted)
  {
    RunPrefix(cfg, es, k);
    StepBargeIn(cfg, Run(cfg, es[..k]), es[k]);
    StepAnnounces(cfg, Run(cfg, es[..k]), es[k]);
    InboundIs(cfg, es, k);
  }

  // ---- the barge-in interval ----

  function IntervalAt(es: seq<Event>, i: int): Option<nat> {
    if 0 <= i < |es| && es[i].SetBargeInInterval? then Some(es[i].ms) else None
  }

  ghost predicate IntervalInForce(es: seq<Event>, k: int, ms: nat) {
    Latest(i => IntervalAt(es, i), 400, k, ms)
  }

  lemma StepInterval(cfg: Config, s: Session, e: Event)
    ensures Step(cfg, s, e).bargeInMs == if e.SetBargeInInterval? then e.ms else s.bargeInMs
  {
  }

  /** In every run, the interval a filter is armed with is the one last set, 400 ms at first. */
  lemma {:induction false} IntervalIs(cfg: Config, es: seq<Event>, k: nat)
    requires k <= |es|
    ensures IntervalInForce(es, k, Run(cfg, es[..k]).bargeInMs)
    decreases k
  {
    if k == 0 {
    } else {
      var s := Run(cfg, es[..k - 1]);
      IntervalIs(cfg, es, k - 1);
      LatestStep(i => IntervalAt(es, i), 400, k - 1, s.bargeInMs);
      RunPrefix(cfg, es, k - 1);
      StepInterval(cfg, s, es[k - 1]);
    }
  }

  // ---- idle ----

  predicate StartsListening(e: Event) { e.StartListening? || e.WsReconnected? }

  predicate TeardownAt(es: seq<Event>, j: int) { 0 <= j < |es| && Teardown(es[j]) }

  predicate StartsAt(es: seq<Event>, i: int) { 0 <= i < |es| && StartsListening(es[i]) }

  /** The pipeline was started or reconnected, and not torn down since. */
  ghost predicate Up(es: seq<Event>, k: int) { Since(i => StartsAt(es, i), j => TeardownAt(es, j), k) }

  lemma StepIdle(cfg: Config, s: Session, e: Event)
    ensures Step(cfg, s, e).state.Idle? <==> Teardown(e) || (s.state.Idle? && !StartsListening(e))
  {
  }

  /** In every run, the session is out of Idle exactly when it was started or reconnected and
      nothing has torn it down since. */
  lemma {:induction false} UpIff(cfg: Config, es: seq<Event>, k: nat)
    requires k <= |es|
    ensures !Run(cfg, es[..k]).state.Idle? <==> Up(es, k)
    decreases k
  {
    if k == 0 {
    } else {
      UpIff(cfg, es, k - 1);
      SinceStep(i => StartsAt(es, i), j => TeardownAt(es, j), k - 1);
      RunPrefix(cfg, es, k - 1);
      StepIdle(cfg, Run(cfg, es[..k - 1]), es[k - 1]);
    }
  }

  // ---- speaking ----

  function TimeAt(cfg: Config, es: seq<Event>, i: int): nat
    requires 0 <= i <= |es|
  {
    Run(cfg, es[..i]).now
  }

  /** Event j ends what event i, the latest frame, has kept audible. */
  predicate Hushes(cfg: Config, es: seq<Event>, i: int, j: int) {
    && 0 <= i < j < |es|
    && (es[j].InboundEnd? || SendsBargeIn(cfg, es, j)
        || (es[j].SilenceTimeout? && TimeAt(cfg, es, j) >= TimeAt(cfg, es, i) + 500))
  }

  /** Event i is the latest reply frame before k, and nothing has ended the reply since. */
  predicate HeardSince(cfg: Config, es: seq<Event>, i: int, k: int) {
    0 <= i < k <= |es| && es[i].PcmFrame?
    && forall j :: i < j < k ==> !es[j].PcmFrame? && !Hushes(cfg, es, i, j)
  }

  ghost predicate Heard(cfg: Config, es: seq<Event>, k: int) { exists i :: HeardSince(cfg, es, i, k) }

  /** A silence timer runs exactly while speaking. */
  predicate SilenceOk(s: Session) { s.silence.Due? <==> s.speaking }

  lemma StepSpeaking(cfg: Config, s: Session, e: Event)
    requires Safety.Sane(s) && SilenceOk(s)
    ensures var s' := Step(cfg, s, e);
            var barges := e.BargeInTimeout? && s.state.PlayingBack? && s.bargeIn.Fires(s.now);
            var hushes := e.InboundEnd? || barges || (e.SilenceTimeout? && s.silence.Fires(s.now));
            SilenceOk(s')
            && (e.PcmFrame? ==> s'.silence == Due(s.now + 500))
            && (hushes ==> s'.silence == Off)
            && (!e.PcmFrame? && !hushes ==> s'.silence == s.silence)
  {
  }

  /** What the silence timer says: the latest frame, and 500 ms. */
  ghost predicate SilenceMeans(cfg: Config, es: seq<Event>, k: int)
    requires 0 <= k <= |es|
  {
    var s := Run(cfg, es[..k]);
    && SilenceOk(s)
    && (s.speaking <==> Heard(cfg, es, k))
    && forall i :: HeardSince(cfg, es, i, k) ==> s.silence == Due(TimeAt(cfg, es, i) + 500)
  }

  lemma {:induction false} HeardStep(cfg: Config, es: seq<Event>, i: int, n: nat)
    requires n < |es| && i < n
    ensures HeardSince(cfg, es, i, n + 1)
       <==> HeardSince(cfg, es, i, n) && !es[n].PcmFrame? && !Hushes(cfg, es, i, n)
  {
  }

  lemma {:induction false} SilenceStep(cfg: Config, es: seq<Event>, n: nat)
    requires n < |es| && SilenceMeans(cfg, es, n)
    ensures SilenceMeans(cfg, es, n + 1)
  {
    var s := Run(cfg, es[..n]);
    RunPrefix(cfg, es, n);
    Safety.RunSane(cfg, es[..n]);
    StepSpeaking(cfg, s, es[n]);
    StepBargeIn(cfg, s, es[n]);
    forall i | i < n
      ensures HeardSince(cfg, es, i, n + 1)
         <==> HeardSince(cfg, es, i, n) && !es[n].PcmFrame? && !Hushes(cfg, es, i, n)
    {
      HeardStep(cfg, es, i, n);
    }
    if es[n].PcmFrame? {
      assert HeardSince(cfg, es, n, n + 1);
    } else if s.speaking {
      var i :| HeardSince(cfg, es, i, n);
      assert s.silence == Due(TimeAt(cfg, es, i) + 500);
    }
  }

  /** In every run, playback counts as speaking exactly when a reply frame has come, and since
      the latest one no end of the reply, no barge-in and no timeout 500 ms after it. */
  lemma {:induction false} SpeakingIff(cfg: Config, es: seq<Event>, k: nat)
    requires k <= |es|
    ensures SilenceMeans(cfg, es, k)
    ensures Run(cfg, es[..k]).speaking <==> Heard(cfg, es, k)
    decreases k
  {
    if k == 0 {
    } else {
      SpeakingIff(cfg, es, k - 1);
      SilenceStep(cfg, es, k - 1);
    }
  }

  // ---- playing back ----

  predicate SpeakingAt(cfg: Config, es: seq<Event>, j: int) { 0 <= j <= |es| && Run(cfg, es[..j]).speaking }

  /** Event i began a reply while the session was up; it has been audible since, and nothing
      has torn the session down. */
  predicate ReplyingSince(cfg: Config, es: seq<Event>, i: int, k: int) {
    && 0 <= i < k <= |es|
    && es[i].PcmFrame? && !SpeakingAt(cfg, es, i) && !Run(cfg, es[..i]).state.Idle?
    && (forall j :: i < j <= k ==> SpeakingAt(cfg, es, j))
    && (forall j :: i < j < k ==> !Teardown(es[j]))
  }

  ghost predicate Replying(cfg: Config, es: seq<Event>, k: int) { exists i :: ReplyingSince(cfg, es, i, k) }

  lemma StepPlayback(cfg: Config, s: Session, e: Event)
    requires Safety.Sane(s)
    ensures var s' := Step(cfg, s, e);
            s'.state.PlayingBack?
            <==> (e.PcmFrame? && !s.speaking && !s.state.Idle?)
                 || (s.state.PlayingBack? && s'.speaking && !Teardown(e))
    ensures e.PcmFrame? ==> Step(cfg, s, e).speaking
  {
  }

  lemma {:induction false} ReplyingStep(cfg: Config, es: seq<Event>, n: nat)
    requires n < |es|
    ensures Replying(cfg, es, n + 1)
       <==> (es[n].PcmFrame? && !SpeakingAt(cfg, es, n) && !Run(cfg, es[..n]).state.Idle?
             && SpeakingAt(cfg, es, n + 1))
            || (Replying(cfg, es, n) && SpeakingAt(cfg, es, n + 1) && !Teardown(es[n]))
  {
    if Replying(cfg, es, n + 1) {
      var i :| ReplyingSince(cfg, es, i, n + 1);
      assert i < n ==> ReplyingSince(cfg, es, i, n);
    }
    if Replying(cfg, es, n) && SpeakingAt(cfg, es, n + 1) && !Teardown(es[n]) {
      var i :| ReplyingSince(cfg, es, i, n);
      assert ReplyingSince(cfg, es, i, n + 1);
    }
    if es[n].PcmFrame? && !SpeakingAt(cfg, es, n) && !Run(cfg, es[..n]).state.Idle? && SpeakingAt(cfg, es, n + 1) {
      assert ReplyingSince(cfg, es, n, n + 1);
    }
  }

  /** In every run, the session is playing back exactly when a reply began while it was up, has
      been audible ever since, and nothing tore the session down. */
  lemma {:induction false} PlayingBackIff(cfg: Config, es: seq<Event>, k: nat)
    requires k <= |es|
    ensures Run(cfg, es[..k]).state.PlayingBack? <==> Replying(cfg, es, k)
    decreases k
  {
    if k == 0 {
    } else {
      var n := k - 1;
      PlayingBackIff(cfg, es, n);
      ReplyingStep(cfg, es, n);
      RunPrefix(cfg, es, n);
      Safety.RunSane(cfg, es[..n]);
      StepPlayback(cfg, Run(cfg, es[..n]), es[n]);
    }
  }

  // ---- opening a stream ----

  lemma StepOpening(cfg: Config, s: Session, e: Event)
    requires Safety.Sane(s)
    ensures var s' := Step(cfg, s, e);
            var barges := e.BargeInTimeout? && s.state.PlayingBack? && s.bargeIn.Fires(s.now);
            var wakes := e.WakeWord? && e.connected && s.state.AwaitingWake?;
            (!s.state.Streaming? && s'.state.Streaming? <==> barges || wakes)
            && (wakes ==> |s'.sent| >= |s.sent| + 2 && s'.sent[|s.sent|] == WakeWordDetected(e.score)
                          && s'.sent[|s.sent| + 1] == StreamStart(e.id))
  {
  }

  /** In every run, event k opens a stream exactly when it is a barge-in, or a wake word heard
      on a connected socket while the session is up, not uploading and not playing back; the
      wake word is announced with its own score. */
  lemma {:induction false} OpensIff(cfg: Config, es: seq<Event>, k: nat)
    requires k < |es|
    ensures var s := Run(cfg, es[..k]);
            Upload.OpenedAt(cfg, es, k)
            <==> SendsBargeIn(cfg, es, k)
                 || (es[k].WakeWord? && es[k].connected && Up(es, k)
                     && !s.state.Streaming? && !Replying(cfg, es, k))
    ensures Upload.OpenedAt(cfg, es, k) && es[k].WakeWord? ==>
              var n, sent := |Run(cfg, es[..k]).sent|, Run(cfg, es[..k + 1]).sent;
              |sent| >= n + 2 && sent[n] == WakeWordDetected(es[k].score) && sent[n + 1] == StreamStart(es[k].id)
  {
    RunPrefix(cfg, es, k);
    Safety.RunSane(cfg, es[..k]);
    StepOpening(cfg, Run(cfg, es[..k]), es[k]);
    StepBargeIn(cfg, Run(cfg, es[..k]), es[k]);
    UpIff(cfg, es, k);
    PlayingBackIff(cfg, es, k);
  }

  /** Event i opened the upload that is still being sent before event k. */
  predicate UploadingSince(cfg: Config, es: seq<Event>, i: int, k: int) {
    Upload.OpenedAt(cfg, es, i) && i < k <= |es|
    && forall j :: i < j <= k ==> StreamingAt(cfg, es, j)
  }

  predicate StreamingAt(cfg: Config, es: seq<Event>, j: int) {
    0 <= j <= |es| && Run(cfg, es[..j]).state.Streaming?
  }

  lemma StepDeadline(cfg: Config, s: Session, e: Event)
    requires Safety.Sane(s) && Step(cfg, s, e).state.Streaming?
    ensures Step(cfg, s, e).streaming == if s.state.Streaming? then s.streaming else Due(s.now + 30000)
    ensures s.state.Streaming? && e.StreamingTimeout? ==> !s.streaming.Fires(s.now)
  {
  }

  /** In every run: the streaming timeout of an upload comes due 30000 ms after it was opened,
      and leaves it alone before. */
  lemma {:induction false} UploadDeadline(cfg: Config, es: seq<Event>, i: nat, k: nat)
    requires UploadingSince(cfg, es, i, k)
    ensures Run(cfg, es[..k]).streaming == Due(TimeAt(cfg, es, i) + 30000)
    ensures i < k - 1 && es[k - 1].StreamingTimeout? ==> TimeAt(cfg, es, k - 1) < TimeAt(cfg, es, i) + 30000
    decreases k
  {
    RunPrefix(cfg, es, k - 1);
    Safety.RunSane(cfg, es[..k - 1]);
    assert StreamingAt(cfg, es, k);
    StepDeadline(cfg, Run(cfg, es[..k - 1]), es[k - 1]);
    if i < k - 1 {
      assert StreamingAt(cfg, es, k - 1);
      UploadDeadline(cfg, es, i, k - 1);
    }
  }

  /** How many pre-roll frames the streams opened by the first k events have encoded. */
  function Encoded(cfg: Config, es: seq<Event>, k: nat): nat
    requires k <= |es|
  {
    if k == 0 then 0
    else
      Encoded(cfg, es, k - 1)
      + if Upload.OpenedAt(cfg, es, k - 1) && (es[k - 1].WakeWord? || es[k - 1].BargeInTimeout?)
        then |es[k - 1].preRoll| / 640 else 0
  }

  lemma {:induction false} StepEncodes(cfg: Config, s: Session, e: Event)
    ensures var opens := !s.state.Streaming? && Step(cfg, s, e).state.Streaming?;
            Step(cfg, s, e).encodeCalls
            == s.encodeCalls + if opens && (e.WakeWord? || e.BargeInTimeout?) then |e.preRoll| / 640 else 0
  {
    if e.WakeWord? || e.BargeInTimeout? {
      FrameCount(e.preRoll, 640);
    }
  }

  /** In every run the pre-roll encoder has been called once for every whole frame of every stream
      opened, so that its calls are numbered on from stream to stream. */
  lemma {:induction false} EncodedIs(cfg: Config, es: seq<Event>, k: nat)
    requires k <= |es|
    ensures Run(cfg, es[..k]).encodeCalls == Encoded(cfg, es, k)
    decreases k
  {
    if k == 0 {
    } else {
      EncodedIs(cfg, es, k - 1);
      RunPrefix(cfg, es, k - 1);
      StepEncodes(cfg, Run(cfg, es[..k - 1]), es[k - 1]);
    }
  }

  // ---- the chunks the VAD judges by ----

  /** Event j opens a stream, begins a reply, or ends one other than by a teardown. */
  predicate ResetsAt(cfg: Config, es: seq<Event>, j: int) {
    0 <= j < |es|
    && (Upload.OpenedAt(cfg, es, j)
        || (!PlayingAt(cfg, es, j) && PlayingAt(cfg, es, j + 1))
        || (PlayingAt(cfg, es, j) && !PlayingAt(cfg, es, j + 1) && !Teardown(es[j])))
  }

  predicate NoResetIn(cfg: Config, es: seq<Event>, i: int, k: int) {
    0 <= i <= k <= |es| && (i == 0 || ResetsAt(cfg, es, i - 1))
    && forall j :: i <= j < k ==> !ResetsAt(cfg, es, j)
  }

  /** There is always such a point to count from. */
  lemma {:induction false} ResetExists(cfg: Config, es: seq<Event>, k: nat)
    requires k <= |es|
    ensures exists i :: NoResetIn(cfg, es, i, k)
    decreases k
  {
    if k == 0 || ResetsAt(cfg, es, k - 1) {
      assert NoResetIn(cfg, es, k, k);
    } else {
      ResetExists(cfg, es, k - 1);
      var i :| NoResetIn(cfg, es, i, k - 1);
      assert NoResetIn(cfg, es, i, k);
    }
  }

  /** The chunks among events i..k, with the threshold and the time of each. */
  function Observed(cfg: Config, es: seq<Event>, i: nat, k: nat): seq<V.Observation>
    requires k <= |es|
    decreases k
  {
    if k <= i then []
    else
      var s := Run(cfg, es[..k - 1]);
      Observed(cfg, es, i, k - 1)
      + if es[k - 1].VadChunk? then [V.Observation(es[k - 1].prob, s.threshold, s.now)] else []
  }

  lemma StepVad(cfg: Config, s: Session, e: Event)
    requires Safety.Sane(s)
    ensures var s' := Step(cfg, s, e);
            var resets := (!s.state.Streaming? && s'.state.Streaming?)
                          || (!s.state.PlayingBack? && s'.state.PlayingBack?)
                          || (s.state.PlayingBack? && !s'.state.PlayingBack? && !Teardown(e));
            s'.vad == if resets then V.Idle
                      else if e.VadChunk?
                           then V.Step(cfg.silenceEndMs, s.vad, V.Observation(e.prob, s.threshold, s.now)).state
                           else s.vad
  {
  }

  lemma {:induction false} VadAt(cfg: Config, es: seq<Event>, n: nat)
    requires n < |es|
    ensures var s := Run(cfg, es[..n]);
            Run(cfg, es[..n + 1]).vad
            == if ResetsAt(cfg, es, n) then V.Idle
               else if es[n].VadChunk?
                    then V.Step(cfg.silenceEndMs, s.vad, V.Observation(es[n].prob, s.threshold, s.now)).state
                    else s.vad
  {
    RunPrefix(cfg, es, n);
    Safety.RunSane(cfg, es[..n]);
    StepVad(cfg, Run(cfg, es[..n]), es[n]);
  }

  lemma {:induction false} VadIs(cfg: Config, es: seq<Event>, i: nat, k: nat)
    requires NoResetIn(cfg, es, i, k)
    ensures Run(cfg, es[..k]).vad == V.After(cfg.silenceEndMs, Observed(cfg, es, i, k))
    decreases k
  {
    if k == 0 {
    } else {
      var n := k - 1;
      VadAt(cfg, es, n);
      if i == k {
        assert ResetsAt(cfg, es, n);
      } else {
        assert !ResetsAt(cfg, es, n);
        VadIs(cfg, es, i, n);
        AfterChunk(cfg, es, i, n);
      }
    }
  }

  lemma AfterChunk(cfg: Config, es: seq<Event>, i: nat, n: nat)
    requires i <= n < |es|
    ensures var s := Run(cfg, es[..n]);
            var obs := Observed(cfg, es, i, n);
            V.After(cfg.silenceEndMs, Observed(cfg, es, i, n + 1))
            == if es[n].VadChunk?
               then V.Step(cfg.silenceEndMs, V.After(cfg.silenceEndMs, obs),
                           V.Observation(es[n].prob, s.threshold, s.now)).state
               else V.After(cfg.silenceEndMs, obs)
  {
    var obs := Observed(cfg, es, i, n);
    if es[n].VadChunk? {
      assert Observed(cfg, es, i, n + 1)[..|obs|] == obs;
    } else {
      assert obs + [] == obs;
    }
  }

  /** In every run: what a chunk signals is the declarative account of the chunks since the
      latest stream opened, reply began or reply ended; earlier ones leave no trace. */
  lemma {:induction false} SignalsSinceReset(cfg: Config, es: seq<Event>, i: nat, k: nat)
    requires k < |es| && NoResetIn(cfg, es, i, k) && es[k].VadChunk?
    ensures var obs := Observed(cfg, es, i, k + 1);
            && |obs| == |Observed(cfg, es, i, k)| + 1
            && (DeliversStart(cfg, Run(cfg, es[..k]), es[k]) <==> V.StartsAt(cfg.silenceEndMs, obs, |obs| - 1))
            && (DeliversEnd(cfg, Run(cfg, es[..k]), es[k]) <==> V.EndsAt(cfg.silenceEndMs, obs, |obs| - 1))
  {
    var obs := Observed(cfg, es, i, k + 1);
    var n := |Observed(cfg, es, i, k)|;
    VadIs(cfg, es, i, k);
    assert obs[..n] == Observed(cfg, es, i, k);
    V.SignalsAreDeclarative(cfg.silenceEndMs, obs, n);
  }
}
