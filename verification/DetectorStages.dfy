/**
  The three stages of the detector against plain lists: every row, feature and detection is what
  the models answered to the inputs on record, and each model is called exactly when due.
 */
module DetectorStages {
  import opened Common
  import opened Detector
  import opened DetectorWindows

  // ---- what the models' answers amount to ----

  /** Row f of a flat list of rows of 32 values, each value divided by 10, plus 2. */
  function ScaledRow(data: seq<real>, f: nat): Row
    requires 32 * f + 32 <= |data|
  {
    seq(32, j requires 0 <= j < 32 => data[32 * f + j] / 10.0 + 2.0)
  }

  /** The last (at most eight) whole rows. */
  function LastRows(data: seq<real>): seq<Row> {
    var total := |data| / 32;
    var taken := Least(total, 8);
    seq(taken, i requires 0 <= i < taken => ScaledRow(data, total - taken + i))
  }

  /** All the rows that the mel calls on record yielded, in order. */
  function RowsOut(cfg: Config, log: seq<Taken<int>>): seq<Row> {
    if log == [] then []
    else
      var n := |log| - 1;
      var out := cfg.mel(n, log[n].input);
      RowsOut(cfg, log[..n]) + if out.Some? then LastRows(out.value) else []
  }

  /** How many rows there were at each mel call that yielded something and left at least 76. */
  function EmbeddingsDue(cfg: Config, log: seq<Taken<int>>): seq<nat> {
    if log == [] then []
    else
      var n := |log| - 1;
      var out := cfg.mel(n, log[n].input);
      var rows := |RowsOut(cfg, log)|;
      EmbeddingsDue(cfg, log[..n]) + if out.Some? && out.value != [] && rows >= 76 then [rows] else []
  }

  /** All the non-empty features that the embedding calls on record yielded, in order. */
  function FeaturesOut(cfg: Config, log: seq<Taken<Row>>): seq<Row> {
    if log == [] then []
    else
      var n := |log| - 1;
      var out := cfg.embed(n, log[n].input);
      FeaturesOut(cfg, log[..n]) + if out.Some? && out.value != [] then [out.value] else []
  }

  /** How many features there were at each embedding call that yielded one and left at least 16. */
  function ScoresDue(cfg: Config, log: seq<Taken<Row>>): seq<nat> {
    if log == [] then []
    else
      var n := |log| - 1;
      var out := cfg.embed(n, log[n].input);
      var features := |FeaturesOut(cfg, log)|;
      ScoresDue(cfg, log[..n]) + if out.Some? && out.value != [] && features >= 16 then [features] else []
  }

  /** Call k scores at least the threshold, and no earlier detection is less than 500 ms before. */
  predicate Detects(cfg: Config, log: seq<Judged>, k: nat)
    requires k < |log|
    decreases k
  {
    var score := cfg.classify(k, log[k].input);
    && score.Some? && score.value >= cfg.threshold
    && forall j: nat | j < k :: Detects(cfg, log, j) ==> log[k].at - log[j].at >= 500
  }

  function Prefix<T>(s: seq<T>, n: nat): seq<T> { s[..Least(n, |s|)] }

  /** The detections among the first n calls, each with its score and the last 6400 bytes
      heard by then. */
  function Detections(cfg: Config, log: seq<Judged>, bytes: seq<Byte>, n: nat): seq<Fire>
    requires n <= |log|
  {
    if n == 0 then []
    else
      var c := log[n - 1];
      Detections(cfg, log, bytes, n - 1)
      + if Detects(cfg, log, n - 1)
        then [Fire(c.at, cfg.classify(n - 1, c.input).value, Suffix(Prefix(bytes, c.heard), 6400))] else []
  }

  function Counts<T>(log: seq<Taken<T>>): seq<nat> { seq(|log|, k requires 0 <= k < |log| => log[k].count) }

  function JudgedCounts(log: seq<Judged>): seq<nat> { seq(|log|, k requires 0 <= k < |log| => log[k].count) }

  // ---- rows ----

  lemma {:induction false} RowAt(data: seq<real>, f: nat, total: nat, i: nat)
    requires f + i < total && ROW_WIDTH * total <= |data|
    ensures MelRows(data, f, total)[i] == ScaleRow(data[(f + i) * ROW_WIDTH..(f + i + 1) * ROW_WIDTH])
    decreases i
  {
    if i == 0 {
    } else {
      RowAt(data, f + 1, total, i - 1);
    }
  }

  lemma {:induction false} ScaledAt(row: seq<real>, j: nat)
    requires j < |row|
    ensures ScaleRow(row)[j] == row[j] / 10.0 + 2.0
    decreases j
  {
    if j == 0 {
    } else {
      ScaledAt(row[1..], j - 1);
    }
  }

  lemma {:induction false} ScaledRowIs(data: seq<real>, f: nat)
    requires 32 * f + 32 <= |data|
    ensures ScaleRow(data[f * ROW_WIDTH..(f + 1) * ROW_WIDTH]) == ScaledRow(data, f)
  {
    var row := data[f * ROW_WIDTH..(f + 1) * ROW_WIDTH];
    forall j | 0 <= j < 32 ensures ScaleRow(row)[j] == data[32 * f + j] / 10.0 + 2.0 {
      ScaledAt(row, j);
    }
  }

  lemma {:induction false} NewRowsAre(data: seq<real>)
    ensures NewRows(data) == LastRows(data)
  {
    var total := |data| / 32;
    var taken := Least(total, 8);
    forall i | 0 <= i < taken ensures NewRows(data)[i] == LastRows(data)[i] {
      RowAt(data, total - taken, total, i);
      ScaledRowIs(data, total - taken + i);
    }
  }

  // ---- the state agrees with the record ----

  ghost predicate RowsOk(cfg: Config, s: State) {
    s.allRows == RowsOut(cfg, s.melLog) && Counts(s.embLog) == EmbeddingsDue(cfg, s.melLog)
  }

  ghost predicate FeaturesOk(cfg: Config, s: State) {
    s.allFeatures == FeaturesOut(cfg, s.embLog) && JudgedCounts(s.clsLog) == ScoresDue(cfg, s.embLog)
  }

  ghost predicate HeardOk(s: State) {
    forall k :: 0 <= k < |s.clsLog| ==> s.clsLog[k].heard <= |s.bytes|
  }

  /** The time of the latest detection is the greatest of all. */
  ghost predicate LastOk(cfg: Config, s: State) {
    && (forall k: nat :: k < |s.clsLog| && Detects(cfg, s.clsLog, k) ==>
          s.lastFire.Some? && s.clsLog[k].at <= s.lastFire.value)
    && (s.lastFire.Some? ==>
          exists k: nat :: k < |s.clsLog| && Detects(cfg, s.clsLog, k) && s.clsLog[k].at == s.lastFire.value)
  }

  ghost predicate FiresAgree(cfg: Config, s: State) {
    && HeardOk(s) && LastOk(cfg, s)
    && s.fires == Detections(cfg, s.clsLog, s.bytes, |s.clsLog|)
    && s.preRoll == Suffix(s.bytes, 6400)
  }

  ghost predicate Staged(cfg: Config, s: State) { RowsOk(cfg, s) && FeaturesOk(cfg, s) && FiresAgree(cfg, s) }

  // ---- detections ----

  lemma {:induction false} DetectsPrefix(cfg: Config, log: seq<Judged>, c: Judged, k: nat)
    requires k < |log|
    ensures Detects(cfg, log + [c], k) <==> Detects(cfg, log, k)
    decreases k
  {
    forall j: nat | j < k ensures Detects(cfg, log + [c], j) <==> Detects(cfg, log, j) {
      DetectsPrefix(cfg, log, c, j);
    }
  }

  lemma {:induction false} DetectionsPrefix(cfg: Config, log: seq<Judged>, c: Judged, bytes: seq<Byte>, n: nat)
    requires n <= |log|
    ensures Detections(cfg, log + [c], bytes, n) == Detections(cfg, log, bytes, n)
    decreases n
  {
    if n == 0 {
    } else {
      DetectionsPrefix(cfg, log, c, bytes, n - 1);
      DetectsPrefix(cfg, log, c, n - 1);
    }
  }

  lemma {:induction false} DetectionsHeard(cfg: Config, log: seq<Judged>, bytes: seq<Byte>, more: seq<Byte>, n: nat)
    requires n <= |log| && forall k :: 0 <= k < |log| ==> log[k].heard <= |bytes|
    ensures Detections(cfg, log, bytes + more, n) == Detections(cfg, log, bytes, n)
    decreases n
  {
    if n == 0 {
    } else {
      DetectionsHeard(cfg, log, bytes, more, n - 1);
      assert (bytes + more)[..log[n - 1].heard] == bytes[..log[n - 1].heard];
    }
  }

  /** The new call is a detection exactly when the program fires. */
  lemma {:induction false} DetectsIff(cfg: Config, s: State, c: Judged)
    requires LastOk(cfg, s)
    ensures var score := cfg.classify(|s.clsLog|, c.input);
            Detects(cfg, s.clsLog + [c], |s.clsLog|)
            <==> score.Some? && score.value >= cfg.threshold && !Suppressed(s, c.at)
  {
    var n := |s.clsLog|;
    var log := s.clsLog + [c];
    forall j: nat | j < n ensures Detects(cfg, log, j) <==> Detects(cfg, s.clsLog, j) {
      DetectsPrefix(cfg, s.clsLog, c, j);
    }
    if s.lastFire.Some? {
      var k: nat :| k < n && Detects(cfg, s.clsLog, k) && s.clsLog[k].at == s.lastFire.value;
      assert Detects(cfg, log, k);
    }
  }

  lemma {:induction false} LastStep(cfg: Config, s: State, c: Judged, t: State)
    requires LastOk(cfg, s) && t.clsLog == s.clsLog + [c]
    requires t.lastFire == if Detects(cfg, t.clsLog, |s.clsLog|) then Some(c.at) else s.lastFire
    ensures LastOk(cfg, t)
  {
    var n := |s.clsLog|;
    forall j: nat | j < n ensures Detects(cfg, t.clsLog, j) <==> Detects(cfg, s.clsLog, j) {
      DetectsPrefix(cfg, s.clsLog, c, j);
    }
    DetectsIff(cfg, s, c);
    if Detects(cfg, t.clsLog, n) {
      assert t.clsLog[n].at == t.lastFire.value;
    } else if s.lastFire.Some? {
      var k: nat :| k < n && Detects(cfg, s.clsLog, k) && s.clsLog[k].at == s.lastFire.value;
      assert Detects(cfg, t.clsLog, k) && t.clsLog[k].at == t.lastFire.value;
    }
  }

  lemma {:induction false} ScoreAgrees(cfg: Config, s: State, now: int)
    requires FiresAgree(cfg, s) && |s.features| >= FEATURES_NEEDED
    ensures FiresAgree(cfg, RunClassifier(cfg, s, now))
  {
    var c := Judged(|s.allFeatures|, ClassifierInput(s), now, |s.bytes|);
    var t := RunClassifier(cfg, s, now);
    var n := |s.clsLog|;
    assert t.clsLog == s.clsLog + [c];
    DetectsIff(cfg, s, c);
    LastStep(cfg, s, c, t);
    DetectionsPrefix(cfg, s.clsLog, c, s.bytes, n);
    assert Prefix(s.bytes, |s.bytes|) == s.bytes;
  }

  lemma RunClassifierFrame(cfg: Config, s: State, now: int)
    requires |s.features| >= FEATURES_NEEDED
    ensures var t := RunClassifier(cfg, s, now);
            && t.allRows == s.allRows && t.melLog == s.melLog && t.embLog == s.embLog
            && t.allFeatures == s.allFeatures && t.bytes == s.bytes
            && |t.clsLog| == |s.clsLog| + 1 && t.clsLog[..|s.clsLog|] == s.clsLog
            && t.clsLog[|s.clsLog|].count == |s.allFeatures|
  {
  }

  // ---- one chunk through the stages ----

  lemma {:induction false} CountsAppend<T>(log: seq<Taken<T>>, c: Taken<T>)
    ensures Counts(log + [c]) == Counts(log) + [c.count]
  {
  }

  lemma {:induction false} JudgedAppend(log: seq<Judged>, log': seq<Judged>)
    requires |log'| == |log| + 1 && log'[..|log|] == log
    ensures JudgedCounts(log') == JudgedCounts(log) + [log'[|log|].count]
  {
    forall k | 0 <= k < |log| ensures log'[k] == log[k] {
      assert log'[..|log|][k] == log'[k];
    }
  }

  lemma {:induction false} FeatureLogged(cfg: Config, s: State, out: Option<seq<real>>)
    requires |s.mel| >= ROWS_NEEDED && out == cfg.embed(|s.embLog|, Suffix(s.mel, ROWS_NEEDED))
    ensures var log := EmbeddingTaken(s).embLog;
            var more := if out.Some? && out.value != [] then [out.value] else [];
            var features := FeaturesOut(cfg, s.embLog) + more;
            && FeaturesOut(cfg, log) == features
            && ScoresDue(cfg, log)
               == ScoresDue(cfg, s.embLog) + if more != [] && |features| >= 16 then [|features|] else []
  {
    var log := EmbeddingTaken(s).embLog;
    assert log[..|s.embLog|] == s.embLog;
  }

  lemma {:induction false} RowsLogged(cfg: Config, s: State, out: Option<seq<real>>)
    requires |s.raw| >= MEL_WINDOW && out == cfg.mel(|s.melLog|, Suffix(s.raw, MEL_WINDOW))
    ensures var log := MelTaken(s).melLog;
            var rows := RowsOut(cfg, s.melLog) + if out.Some? then LastRows(out.value) else [];
            && RowsOut(cfg, log) == rows
            && EmbeddingsDue(cfg, log)
               == EmbeddingsDue(cfg, s.melLog)
                  + if out.Some? && out.value != [] && |rows| >= 76 then [|rows|] else []
  {
    var log := MelTaken(s).melLog;
    assert log[..|s.melLog|] == s.melLog;
  }

  /** A feature is in, and the classifier has not yet been called for it. */
  ghost predicate ScoreOwed(cfg: Config, s: State) {
    && s.allFeatures == FeaturesOut(cfg, s.embLog)
    && JudgedCounts(s.clsLog) + (if |s.allFeatures| >= 16 then [|s.allFeatures|] else []) == ScoresDue(cfg, s.embLog)
  }

  lemma {:induction false} ClassifyAgrees(cfg: Config, s: State, now: int)
    requires RowsOk(cfg, s) && ScoreOwed(cfg, s) && FiresAgree(cfg, s) && Rolling(s)
    ensures Staged(cfg, ClassifyIfReady(cfg, s, now)) && Rolling(ClassifyIfReady(cfg, s, now))
  {
    if |s.features| >= FEATURES_NEEDED {
      ScoreAgrees(cfg, s, now);
      RunClassifierFrame(cfg, s, now);
      JudgedAppend(s.clsLog, RunClassifier(cfg, s, now).clsLog);
    } else {
      assert JudgedCounts(s.clsLog) + [] == JudgedCounts(s.clsLog);
    }
  }

  /** Rows are in, and the embedding model has not yet been called for them. */
  ghost predicate EmbeddingOwed(cfg: Config, s: State) {
    && s.allRows == RowsOut(cfg, s.melLog)
    && Counts(s.embLog) + (if |s.allRows| >= 76 then [|s.allRows|] else []) == EmbeddingsDue(cfg, s.melLog)
  }

  lemma {:induction false} EmbedAgrees(cfg: Config, s: State, now: int)
    requires EmbeddingOwed(cfg, s) && FeaturesOk(cfg, s) && FiresAgree(cfg, s) && Rolling(s)
    ensures Staged(cfg, EmbedAndClassify(cfg, s, now)) && Rolling(EmbedAndClassify(cfg, s, now))
  {
    if |s.mel| < ROWS_NEEDED {
      assert Counts(s.embLog) + [] == Counts(s.embLog);
    } else {
      var out := cfg.embed(|s.embLog|, Suffix(s.mel, ROWS_NEEDED));
      var t := EmbeddingTaken(s);
      CountsAppend(s.embLog, Taken(|s.allRows|, Suffix(s.mel, ROWS_NEEDED)));
      FeatureLogged(cfg, s, out);
      assert RowsOk(cfg, t);
      EmbeddingAgrees(cfg, s, t, out, now);
    }
  }

  lemma {:induction false} EmbeddingAgrees(cfg: Config, s: State, t: State, out: Option<seq<real>>, now: int)
    requires FeaturesOk(cfg, s) && FiresAgree(cfg, s) && Rolling(s) && RowsOk(cfg, t)
    requires t == s.(embLog := t.embLog)
    requires var more := if out.Some? && out.value != [] then [out.value] else [];
             var features := s.allFeatures + more;
             && FeaturesOut(cfg, t.embLog) == features
             && ScoresDue(cfg, t.embLog)
                == ScoresDue(cfg, s.embLog) + if more != [] && |features| >= 16 then [|features|] else []
    ensures Staged(cfg, AfterEmbedding(cfg, t, out, now)) && Rolling(AfterEmbedding(cfg, t, out, now))
  {
    assert s.allFeatures + [] == s.allFeatures;
    assert ScoresDue(cfg, s.embLog) + [] == ScoresDue(cfg, s.embLog);
    if out.Some? && out.value != [] {
      ClassifyAgrees(cfg, WithFeature(t, out.value), now);
    }
  }

  lemma {:induction false} ProcessAgrees(cfg: Config, s: State, now: int)
    requires Staged(cfg, s) && Rolling(s)
    ensures Staged(cfg, ProcessAccumulated(cfg, s, now)) && Rolling(ProcessAccumulated(cfg, s, now))
  {
    if |s.raw| >= MEL_WINDOW {
      var out := cfg.mel(|s.melLog|, Suffix(s.raw, MEL_WINDOW));
      ProcessIs(cfg, s, out, now);
      RowsLogged(cfg, s, out);
      MelAgrees(cfg, s, MelTaken(s), out, now);
    }
  }

  lemma {:induction false} MelAgrees(cfg: Config, s: State, t: State, out: Option<seq<real>>, now: int)
    requires Staged(cfg, s) && Rolling(s) && t == s.(melLog := t.melLog)
    requires var rows := s.allRows + if out.Some? then LastRows(out.value) else [];
             && RowsOut(cfg, t.melLog) == rows
             && EmbeddingsDue(cfg, t.melLog)
                == EmbeddingsDue(cfg, s.melLog)
                   + if out.Some? && out.value != [] && |rows| >= 76 then [|rows|] else []
    ensures Staged(cfg, AfterMel(cfg, t, out, now)) && Rolling(AfterMel(cfg, t, out, now))
  {
    if out.Some? && out.value != [] {
      NewRowsAre(out.value);
      EmbedAgrees(cfg, WithRows(t, NewRows(out.value)), now);
    } else {
      assert out.Some? ==> LastRows(out.value) == [];
      assert s.allRows + [] == s.allRows;
      assert EmbeddingsDue(cfg, s.melLog) + [] == EmbeddingsDue(cfg, s.melLog);
    }
  }

  // ---- runs ----

  lemma {:induction false} FrameAddedAgrees(cfg: Config, s: State, pcm: seq<Byte>)
    requires Staged(cfg, s)
    ensures Staged(cfg, WithFrame(s, pcm))
  {
    SuffixStep(s.bytes, pcm, PRE_ROLL_BYTES);
    DetectionsHeard(cfg, s.clsLog, s.bytes, pcm, |s.clsLog|);
  }

  lemma {:induction false} FrameAgrees(cfg: Config, s: State, pcm: seq<Byte>, now: int)
    requires Staged(cfg, s) && Rolling(s)
    ensures Staged(cfg, ProcessFrame(cfg, s, pcm, now)) && Rolling(ProcessFrame(cfg, s, pcm, now))
  {
    FrameAddedAgrees(cfg, s, pcm);
    ProcessAgrees(cfg, WithFrame(s, pcm), now);
  }

  lemma {:induction false} WarmupChunkAgrees(cfg: Config, s: State, now: int)
    requires Staged(cfg, s) && Rolling(s)
    ensures Staged(cfg, WarmupChunk(cfg, s, now)) && Rolling(WarmupChunk(cfg, s, now))
  {
    ProcessAgrees(cfg, AddSamples(s, Zeros(MEL_CHUNK)).(accumulated := MEL_CHUNK), now);
  }

  ghost predicate StagedAndRolling(cfg: Config, s: State) { Staged(cfg, s) && Rolling(s) }

  lemma {:induction false} WarmupAgrees(cfg: Config, s: State, n: nat, now: int)
    requires StagedAndRolling(cfg, s)
    ensures StagedAndRolling(cfg, WarmupChunks(cfg, s, n, now))
  {
    forall t: State | StagedAndRolling(cfg, t) ensures StagedAndRolling(cfg, WarmupChunk(cfg, t, now)) {
      WarmupChunkAgrees(cfg, t, now);
    }
    RepeatKeeps((t: State) => StagedAndRolling(cfg, t), (t: State) => WarmupChunk(cfg, t, now), s, n);
  }

  /** In every run, for frames of any size and warm-ups anywhere: the rows are exactly what the
      mel model answered, the features what the embedding model answered, each model was called
      exactly when there was enough for it, and the detections are exactly the scores at or above
      the threshold with no detection less than 500 ms before, each with the last 6400 bytes
      heard by then. WindowsAgree says what each call was given. */
  lemma {:induction false} DetectorIs(cfg: Config, es: seq<Event>)
    ensures StagedAndRolling(cfg, Run(cfg, es))
    decreases |es|
  {
    if es == [] {
    } else {
      var s := Run(cfg, es[..|es| - 1]);
      DetectorIs(cfg, es[..|es| - 1]);
      match es[|es| - 1]
      case Frame(pcm, at) => FrameAgrees(cfg, s, pcm, at);
      case Warmup(at) => WarmupAgrees(cfg, s, WarmupCount(), at);
    }
  }

  // ---- when the classifier is called, and what it is given ----

  /** The calls made from s to t were all made now, with the bytes heard by now. */
  ghost predicate Stamped(s: State, t: State, now: int) {
    && s.clsLog <= t.clsLog && t.bytes == s.bytes
    && forall k :: |s.clsLog| <= k < |t.clsLog| ==> t.clsLog[k].at == now && t.clsLog[k].heard == |s.bytes|
  }

  lemma {:induction false} ProcessStamps(cfg: Config, s: State, now: int)
    ensures Stamped(s, ProcessAccumulated(cfg, s, now), now)
  {
  }

  lemma StampedOn(s: State, t: State, u: State, now: int)
    requires Stamped(s, t, now) && Stamped(t, u, now)
    ensures Stamped(s, u, now)
  {
  }

  lemma {:induction false} WarmupChunkStamps(cfg: Config, s: State, t: State, now: int)
    requires Stamped(s, t, now)
    ensures Stamped(s, WarmupChunk(cfg, t, now), now)
  {
    var t' := AddSamples(t, Zeros(MEL_CHUNK)).(accumulated := MEL_CHUNK);
    ProcessStamps(cfg, t', now);
    StampedOn(s, t', ProcessAccumulated(cfg, t', now), now);
  }

  lemma {:induction false} WarmupStamps(cfg: Config, s: State, n: nat, now: int)
    ensures Stamped(s, WarmupChunks(cfg, s, n, now), now)
  {
    forall t: State | Stamped(s, t, now) ensures Stamped(s, WarmupChunk(cfg, t, now), now) {
      WarmupChunkStamps(cfg, s, t, now);
    }
    RepeatKeeps((t: State) => Stamped(s, t, now), (t: State) => WarmupChunk(cfg, t, now), s, n);
  }

  /** The calls that an event makes are dated with the event, and count the bytes up to it. */
  lemma {:induction false} CallsAreStamped(cfg: Config, s: State, e: Event)
    ensures var t := Step(cfg, s, e);
            && t.bytes == s.bytes + (if e.Frame? then e.pcm else [])
            && s.clsLog <= t.clsLog
            && forall k :: |s.clsLog| <= k < |t.clsLog| ==> t.clsLog[k].at == e.at && t.clsLog[k].heard == |t.bytes|
  {
    match e
    case Frame(pcm, at) => ProcessStamps(cfg, WithFrame(s, pcm), at);
    case Warmup(at) =>
      WarmupStamps(cfg, s, WarmupCount(), at);
      assert s.bytes + [] == s.bytes;
  }

  /** In every run, each classifier input is the 16 latest features of its time, each cut or
      zero-padded to 96 values. */
  lemma {:induction false} ClassifierSees(cfg: Config, es: seq<Event>, k: nat, i: nat, j: nat)
    requires k < |Run(cfg, es).clsLog| && i < 16 && j < 96
    ensures var s := Run(cfg, es);
            var c := s.clsLog[k];
            && 16 <= c.count <= |s.allFeatures| && |c.input| == 16 && |c.input[i]| == 96
            && var feature := s.allFeatures[c.count - 16 + i];
               c.input[i][j] == if j < |feature| then feature[j] else 0.0
  {
    WindowsAgree(cfg, es);
    FittedAt(Run(cfg, es).clsLog, Run(cfg, es).allFeatures, k, i, j);
  }

  lemma {:induction false} FittedAt(log: seq<Judged>, h: seq<Row>, k: nat, i: nat, j: nat)
    requires FittedWindowsOf(log, h, FEATURES_NEEDED) && k < |log| && i < 16 && j < 96
    ensures var c := log[k];
            && 16 <= c.count <= |h| && |c.input| == 16 && |c.input[i]| == 96
            && c.input[i][j] == if j < |h[c.count - 16 + i]| then h[c.count - 16 + i][j] else 0.0
  {
    var c := log[k];
    var window := h[c.count - 16..c.count];
    assert c.input == FitAll(window);
    assert window[i] == h[c.count - 16 + i];
  }

  // ---- samples ----

  predicate Int16s(samples: seq<int>) { forall i :: 0 <= i < |samples| ==> -32768 <= samples[i] < 32768 }

  /** Signed 16-bit samples as bytes, the low byte first. */
  function LittleEndian(samples: seq<int>): (pcm: seq<Byte>)
    requires Int16s(samples)
    ensures |pcm| == 2 * |samples|
  {
    seq(2 * |samples|, i requires 0 <= i < 2 * |samples| =>
      var u := if samples[i / 2] < 0 then samples[i / 2] + 65536 else samples[i / 2];
      if i % 2 == 0 then u % 256 else u / 256)
  }

  /** The detector reads back the samples that a little-endian writer wrote, and drops an odd
      last byte. */
  lemma {:induction false} DecodeReads(samples: seq<int>, odd: seq<Byte>)
    requires Int16s(samples) && |odd| <= 1
    ensures Decode(LittleEndian(samples) + odd) == samples
  {
    var pcm := LittleEndian(samples) + odd;
    forall i | 0 <= i < |samples| ensures Decode(pcm)[i] == samples[i] {
      assert pcm[2 * i] == LittleEndian(samples)[2 * i] && pcm[2 * i + 1] == LittleEndian(samples)[2 * i + 1];
    }
  }
}
