/** The rolling buffers of the wake-word detector against plain indexing. */
module DetectorWindows {
  import opened Common
  import opened Framing
  import opened Detector

  ghost predicate IsSuffix<T>(s: seq<T>, h: seq<T>) {
    |s| <= |h| && s == Suffix(h, |s|)
  }

  /** A log of model inputs: each was the last n elements of the untrimmed history, at the
      length the history had then. */
  ghost predicate WindowsOf<T>(log: seq<Taken<T>>, h: seq<T>, n: nat) {
    forall k :: 0 <= k < |log| ==> n <= log[k].count <= |h| && log[k].input == h[log[k].count - n..log[k].count]
  }

  /** The classifier log: each input was the last 16 features, fitted to 96 values each. */
  ghost predicate FittedWindowsOf(log: seq<Judged>, h: seq<Row>, n: nat) {
    forall k :: 0 <= k < |log| ==>
      n <= log[k].count <= |h| && log[k].input == FitAll(h[log[k].count - n..log[k].count])
  }

  /** Detections are at least the suppression interval apart. */
  ghost predicate FiresOk(last: Option<int>, fires: seq<Fire>) {
    && (last == if fires == [] then None else Some(fires[|fires| - 1].at))
    && (forall k :: 0 <= k < |fires| - 1 ==> fires[k + 1].at - fires[k].at >= SUPPRESSION_MS)
  }

  /** The raw buffer is the end of the stream, and holds the context and the chunk so far. */
  ghost predicate RawOk(s: State) {
    IsSuffix(s.raw, s.allSamples) && |s.raw| >= MEL_CONTEXT + s.accumulated
  }

  /** Everything but the chunk counter's bound, which is broken while a chunk is due. */
  ghost predicate Buffers(s: State) {
    && RawOk(s)
    && s.mel == Suffix(s.allRows, 200)
    && s.features == Suffix(s.allFeatures, 120)
    && s.preRoll == Suffix(s.bytes, 6400)
    && WindowsOf(s.melLog, s.allSamples, MEL_WINDOW)
    && WindowsOf(s.embLog, s.allRows, ROWS_NEEDED)
    && FittedWindowsOf(s.clsLog, s.allFeatures, FEATURES_NEEDED)
    && FiresOk(s.lastFire, s.fires)
  }

  ghost predicate Inv(s: State) {
    Buffers(s) && s.accumulated < MEL_CHUNK
  }

  /** Trimming as the data arrives keeps what trimming at the end would. */
  lemma SuffixStep<T>(h: seq<T>, d: seq<T>, n: nat)
    ensures Suffix(Suffix(h, n) + d, n) == Suffix(h + d, n)
  {
    if |h| > n {
      assert (h[|h| - n..] + d)[|d|..] == (h + d)[|h| + |d| - n..];
    }
  }

  lemma SliceOfPrefix<T>(h: seq<T>, d: seq<T>, a: nat, b: nat)
    requires a <= b <= |h|
    ensures (h + d)[a..b] == h[a..b]
  {
  }

  lemma LogAppend<T>(log: seq<Taken<T>>, h: seq<T>, n: nat)
    requires WindowsOf(log, h, n) && |h| >= n
    ensures WindowsOf(log + [Taken(|h|, Suffix(h, n))], h, n)
  {
    SuffixSlice(h, n);
    assert h[|h| - n..] == h[|h| - n..|h|];
  }

  lemma {:induction false} LogExtend<T>(log: seq<Taken<T>>, h: seq<T>, d: seq<T>, n: nat)
    requires WindowsOf(log, h, n)
    ensures WindowsOf(log, h + d, n)
  {
    forall k | 0 <= k < |log|
      ensures (h + d)[log[k].count - n..log[k].count] == h[log[k].count - n..log[k].count]
    {
      SliceOfPrefix(h, d, log[k].count - n, log[k].count);
    }
  }

  lemma FittedLogAppend(log: seq<Judged>, h: seq<Row>, n: nat, now: int, heard: nat)
    requires FittedWindowsOf(log, h, n) && |h| >= n
    ensures FittedWindowsOf(log + [Judged(|h|, FitAll(Suffix(h, n)), now, heard)], h, n)
  {
    SuffixSlice(h, n);
    assert h[|h| - n..] == h[|h| - n..|h|];
  }

  lemma {:induction false} FittedLogExtend(log: seq<Judged>, h: seq<Row>, d: seq<Row>, n: nat)
    requires FittedWindowsOf(log, h, n)
    ensures FittedWindowsOf(log, h + d, n)
  {
    forall k | 0 <= k < |log|
      ensures (h + d)[log[k].count - n..log[k].count] == h[log[k].count - n..log[k].count]
    {
      SliceOfPrefix(h, d, log[k].count - n, log[k].count);
    }
  }

  lemma SuffixOfSuffix<T>(s: seq<T>, h: seq<T>, n: nat)
    requires IsSuffix(s, h) && n <= |s|
    ensures Suffix(s, n) == Suffix(h, n)
  {
    SuffixSlice(s, n);
    SuffixSlice(h, n);
  }

  lemma SuffixIs<T>(h: seq<T>, n: nat)
    ensures IsSuffix(Suffix(h, n), h)
  {
  }

  lemma {:induction false} ClsLogged(s: State, now: int)
    requires Buffers(s) && |s.features| >= FEATURES_NEEDED
    ensures Buffers(ClassifierTaken(s, now))
  {
    SuffixIs(s.allFeatures, FEATURES_KEPT);
    SuffixOfSuffix(s.features, s.allFeatures, FEATURES_NEEDED);
    FittedLogAppend(s.clsLog, s.allFeatures, FEATURES_NEEDED, now, |s.bytes|);
  }

  lemma {:induction false} AfterScoreKeeps(cfg: Config, s: State, score: Option<real>, now: int)
    requires Buffers(s)
    ensures Buffers(AfterScore(cfg, s, score, now))
  {
  }

  lemma {:induction false} ClassifyKeeps(cfg: Config, s: State, now: int)
    requires Buffers(s)
    ensures Buffers(ClassifyIfReady(cfg, s, now))
  {
    if |s.features| >= FEATURES_NEEDED {
      var score := cfg.classify(|s.clsLog|, ClassifierInput(s));
      assert ClassifyIfReady(cfg, s, now) == AfterScore(cfg, ClassifierTaken(s, now), score, now);
      ClsLogged(s, now);
      AfterScoreKeeps(cfg, ClassifierTaken(s, now), score, now);
    }
  }

  lemma {:induction false} EmbLogged(s: State)
    requires Buffers(s) && |s.mel| >= ROWS_NEEDED
    ensures Buffers(EmbeddingTaken(s))
  {
    SuffixIs(s.allRows, ROWS_KEPT);
    SuffixOfSuffix(s.mel, s.allRows, ROWS_NEEDED);
    LogAppend(s.embLog, s.allRows, ROWS_NEEDED);
  }

  lemma {:induction false} FeatureAdded(s: State, feature: Row)
    requires Buffers(s)
    ensures Buffers(WithFeature(s, feature))
  {
    SuffixStep(s.allFeatures, [feature], FEATURES_KEPT);
    FittedLogExtend(s.clsLog, s.allFeatures, [feature], FEATURES_NEEDED);
  }

  lemma {:induction false} RowsAdded(s: State, rows: seq<Row>)
    requires Buffers(s)
    ensures Buffers(WithRows(s, rows))
  {
    SuffixStep(s.allRows, rows, ROWS_KEPT);
    LogExtend(s.embLog, s.allRows, rows, ROWS_NEEDED);
  }

  lemma {:induction false} MelLogged(s: State)
    requires Buffers(s) && |s.raw| >= MEL_WINDOW
    ensures Buffers(MelTaken(s))
  {
    SuffixOfSuffix(s.raw, s.allSamples, MEL_WINDOW);
    LogAppend(s.melLog, s.allSamples, MEL_WINDOW);
  }

  lemma {:induction false} EmbedKeeps(cfg: Config, s: State, now: int)
    requires Buffers(s)
    ensures Buffers(EmbedAndClassify(cfg, s, now))
  {
    if |s.mel| >= ROWS_NEEDED {
      var out := cfg.embed(|s.embLog|, Suffix(s.mel, ROWS_NEEDED));
      assert EmbedAndClassify(cfg, s, now) == AfterEmbedding(cfg, EmbeddingTaken(s), out, now);
      EmbLogged(s);
      AfterEmbeddingKeeps(cfg, EmbeddingTaken(s), out, now);
    }
  }

  lemma {:induction false} AfterEmbeddingKeeps(cfg: Config, s: State, output: Option<seq<real>>, now: int)
    requires Buffers(s)
    ensures Buffers(AfterEmbedding(cfg, s, output, now))
  {
    if output.Some? && output.value != [] {
      FeatureAdded(s, output.value);
      ClassifyKeeps(cfg, WithFeature(s, output.value), now);
    }
  }

  /** What processing a due chunk does to the inputs: nothing, except that it logs one mel
      input, taken at the current end of the stream. The short-buffer guard is not taken. */
  lemma {:induction false} ProcessLogs(cfg: Config, s: State, now: int)
    requires |s.raw| >= MEL_WINDOW
    ensures var t := ProcessAccumulated(cfg, s, now);
            && t.melLog == s.melLog + [Taken(|s.allSamples|, Suffix(s.raw, MEL_WINDOW))]
            && t.allSamples == s.allSamples && t.accumulated == s.accumulated && t.bytes == s.bytes
  {
  }

  lemma {:induction false} AfterMelKeeps(cfg: Config, s: State, output: Option<seq<real>>, now: int)
    requires Buffers(s)
    ensures Buffers(AfterMel(cfg, s, output, now))
  {
    if output.Some? && output.value != [] {
      RowsAdded(s, NewRows(output.value));
      EmbedKeeps(cfg, WithRows(s, NewRows(output.value)), now);
    }
  }

  lemma {:induction false} ProcessKeeps(cfg: Config, s: State, now: int)
    requires Buffers(s) && s.accumulated >= MEL_CHUNK
    ensures Buffers(ProcessAccumulated(cfg, s, now))
  {
    var out := cfg.mel(|s.melLog|, Suffix(s.raw, MEL_WINDOW));
    assert ProcessAccumulated(cfg, s, now) == AfterMel(cfg, MelTaken(s), out, now);
    MelLogged(s);
    AfterMelKeeps(cfg, MelTaken(s), out, now);
  }

  /** For frames of any size, a frame that completes a chunk is analysed: exactly one mel
      input is logged, the last 1760 samples of the stream. */
  lemma {:induction false} EveryChunkAnalysed(cfg: Config, s: State, pcm: seq<Byte>, now: int)
    requires RawOk(s)
    ensures var t := ProcessFrame(cfg, s, pcm, now);
            && t.allSamples == s.allSamples + Decode(pcm) && t.bytes == s.bytes + pcm
            && (if s.accumulated + |pcm| / 2 >= MEL_CHUNK
                then && |t.allSamples| >= MEL_WINDOW && t.accumulated == 0
                     && t.melLog == s.melLog + [Taken(|t.allSamples|, Suffix(t.allSamples, MEL_WINDOW))]
                else t.melLog == s.melLog && t.accumulated == s.accumulated + |pcm| / 2)
  {
    var s1 := WithFrame(s, pcm);
    if s1.accumulated >= MEL_CHUNK {
      ProcessLogs(cfg, s1, now);
      assert IsSuffix(s1.raw, s1.allSamples);
      SuffixOfSuffix(s1.raw, s1.allSamples, MEL_WINDOW);
    }
  }

  lemma {:induction false} SamplesAdded(s: State, d: seq<int>)
    requires Buffers(s)
    ensures Buffers(AddSamples(s, d))
  {
    var s' := AddSamples(s, d);
    assert s'.raw == s'.allSamples[|s'.allSamples| - |s'.raw|..];
    LogExtend(s.melLog, s.allSamples, d, MEL_WINDOW);
  }

  lemma {:induction false} FrameKeeps(cfg: Config, s: State, pcm: seq<Byte>, now: int)
    requires Inv(s)
    ensures Inv(ProcessFrame(cfg, s, pcm, now))
  {
    FrameAdded(s, pcm);
    DueKeeps(cfg, WithFrame(s, pcm), now);
    TrimKeeps(WhenDue(cfg, WithFrame(s, pcm), now));
  }

  lemma {:induction false} FrameAdded(s: State, pcm: seq<Byte>)
    requires Buffers(s)
    ensures Buffers(WithFrame(s, pcm))
  {
    SuffixStep(s.bytes, pcm, PRE_ROLL_BYTES);
    SamplesAdded(s.(preRoll := Suffix(s.preRoll + pcm, PRE_ROLL_BYTES), bytes := s.bytes + pcm), Decode(pcm));
  }

  lemma {:induction false} DueKeeps(cfg: Config, s: State, now: int)
    requires Buffers(s)
    ensures Inv(WhenDue(cfg, s, now))
  {
    if s.accumulated >= MEL_CHUNK {
      ProcessKeeps(cfg, s, now);
      CounterReset(ProcessAccumulated(cfg, s, now));
    }
  }

  lemma {:induction false} CounterReset(s: State)
    requires Buffers(s)
    ensures Inv(s.(accumulated := 0))
  {
  }

  lemma {:induction false} TrimKeeps(s: State)
    requires Inv(s)
    ensures Inv(s.(raw := Suffix(s.raw, RAW_KEPT)))
  {
    var t := Suffix(s.raw, RAW_KEPT);
    assert t == s.allSamples[|s.allSamples| - |t|..];
  }

  lemma {:induction false} WarmupChunkKeeps(cfg: Config, s: State, now: int)
    requires Inv(s)
    ensures Inv(WarmupChunk(cfg, s, now))
    ensures WarmupChunk(cfg, s, now).accumulated == 0
  {
    var t := AddSamples(s, Zeros(MEL_CHUNK)).(accumulated := MEL_CHUNK);
    SamplesAdded(s, Zeros(MEL_CHUNK));
    CounterRaised(AddSamples(s, Zeros(MEL_CHUNK)));
    ProcessKeeps(cfg, t, now);
    CounterReset(ProcessAccumulated(cfg, t, now));
  }

  lemma {:induction false} CounterRaised(s: State)
    requires Buffers(s) && s.accumulated >= MEL_CHUNK
    ensures Buffers(s.(accumulated := MEL_CHUNK))
  {
  }

  lemma {:induction false} WarmupKeeps(cfg: Config, s: State, n: nat, now: int)
    requires Inv(s)
    ensures Inv(WarmupChunks(cfg, s, n, now))
  {
    forall t: State | Inv(t) ensures Inv(WarmupChunk(cfg, t, now)) {
      WarmupChunkKeeps(cfg, t, now);
    }
    RepeatKeeps((t: State) => Inv(t), (t: State) => WarmupChunk(cfg, t, now), s, n);
  }

  /** In every run, for frames of any size and warm-ups anywhere, every window agrees with
      indexing into the untrimmed histories, and detections respect the suppression window. */
  lemma {:induction false} WindowsAgree(cfg: Config, es: seq<Event>)
    ensures Inv(Run(cfg, es))
    decreases |es|
  {
    if es == [] {
    } else {
      var s := Run(cfg, es[..|es| - 1]);
      WindowsAgree(cfg, es[..|es| - 1]);
      match es[|es| - 1]
      case Frame(pcm, at) => FrameKeeps(cfg, s, pcm, at);
      case Warmup(at) =>
        var n := WarmupCount();
        WarmupKeeps(cfg, s, n, at);
    }
  }

  // ---- 640-byte frames ----

  const FRAME_BYTES: nat := 640
  const FRAME_SAMPLES: nat := 320

  function Feed(cfg: Config, s: State, frames: seq<seq<Byte>>, at: int -> int): State {
    if frames == [] then s
    else ProcessFrame(cfg, Feed(cfg, s, frames[..|frames| - 1], at), frames[|frames| - 1], at(|frames| - 1))
  }

  ghost predicate WholeFrames(frames: seq<seq<Byte>>) {
    forall f :: 0 <= f < |frames| ==> |frames[f]| == FRAME_BYTES
  }

  /** After n more frames: a mel input for every fourth, taken when 1280 more samples were in. */
  ghost predicate Fed(s: State, t: State, n: nat) {
    && |t.allSamples| == |s.allSamples| + FRAME_SAMPLES * n
    && t.accumulated == FRAME_SAMPLES * (n % 4)
    && |t.melLog| == |s.melLog| + n / 4
    && forall j :: |s.melLog| <= j < |t.melLog| ==>
         t.melLog[j].count == |s.allSamples| + MEL_CHUNK * (j - |s.melLog| + 1)
  }

  lemma {:induction false} FrameFeeds(cfg: Config, s: State, t: State, n: nat, pcm: seq<Byte>, now: int)
    requires Inv(t) && Fed(s, t, n) && |pcm| == FRAME_BYTES
    ensures Fed(s, ProcessFrame(cfg, t, pcm, now), n + 1)
  {
    EveryChunkAnalysed(cfg, t, pcm, now);
    if n % 4 == 3 {
      assert (n + 1) / 4 == n / 4 + 1 && (n + 1) % 4 == 0;
      assert n + 1 == 4 * (n / 4 + 1);
    } else {
      assert (n + 1) / 4 == n / 4 && (n + 1) % 4 == n % 4 + 1;
    }
  }

  lemma {:induction false} FeedKeeps(cfg: Config, s: State, frames: seq<seq<Byte>>, at: int -> int)
    requires Inv(s) && s.accumulated == 0 && WholeFrames(frames)
    ensures Inv(Feed(cfg, s, frames, at)) && Fed(s, Feed(cfg, s, frames, at), |frames|)
    decreases |frames|
  {
    if frames == [] {
    } else {
      var n := |frames| - 1;
      FeedKeeps(cfg, s, frames[..n], at);
      var t := Feed(cfg, s, frames[..n], at);
      FrameKeeps(cfg, t, frames[n], at(n));
      FrameFeeds(cfg, s, t, n, frames[n], at(n));
    }
  }

  /** From any state at a chunk boundary, the k-th mel input that follows is the samples
      [b + 1280k, b + 1280k + 1760) of the whole stream, b being 480 before its end. */
  lemma {:induction false} MelInputs(cfg: Config, s: State, frames: seq<seq<Byte>>, at: int -> int, k: nat)
    requires Inv(s) && s.accumulated == 0 && WholeFrames(frames) && k < |frames| / 4
    requires |s.allSamples| >= MEL_CONTEXT
    ensures var t := Feed(cfg, s, frames, at);
            var b := |s.allSamples| - MEL_CONTEXT + MEL_CHUNK * k;
            && |t.melLog| == |s.melLog| + |frames| / 4
            && b + MEL_WINDOW <= |t.allSamples|
            && t.melLog[|s.melLog| + k].input == t.allSamples[b..b + MEL_WINDOW]
  {
    FeedKeeps(cfg, s, frames, at);
    FedAt(s, Feed(cfg, s, frames, at), |frames|, k);
  }

  lemma FedAt(s: State, t: State, n: nat, k: nat)
    requires Fed(s, t, n) && k < n / 4 && WindowsOf(t.melLog, t.allSamples, MEL_WINDOW)
    requires |s.allSamples| >= MEL_CONTEXT
    ensures var b := |s.allSamples| - MEL_CONTEXT + MEL_CHUNK * k;
            && |s.melLog| + k < |t.melLog| && b + MEL_WINDOW <= |t.allSamples|
            && t.melLog[|s.melLog| + k].input == t.allSamples[b..b + MEL_WINDOW]
  {
    assert t.melLog[|s.melLog| + k].count == |s.allSamples| + MEL_CHUNK * (k + 1);
  }

  function DecodeAll(frames: seq<seq<Byte>>): seq<int> {
    if frames == [] then [] else DecodeAll(frames[..|frames| - 1]) + Decode(frames[|frames| - 1])
  }

  lemma {:induction false} FeedKeepsInv(cfg: Config, s: State, frames: seq<seq<Byte>>, at: int -> int)
    requires Inv(s)
    ensures Inv(Feed(cfg, s, frames, at))
    decreases |frames|
  {
    if frames == [] {
    } else {
      var n := |frames| - 1;
      FeedKeepsInv(cfg, s, frames[..n], at);
      FrameKeeps(cfg, Feed(cfg, s, frames[..n], at), frames[n], at(n));
    }
  }

  lemma AppendAssoc<T>(a: seq<T>, b: seq<T>, c: seq<T>)
    ensures (a + b) + c == a + (b + c)
  {
  }

  /** The stream a detector has seen: what was there, followed by all samples. */
  lemma {:induction false} StreamIs(cfg: Config, s: State, frames: seq<seq<Byte>>, at: int -> int)
    requires Inv(s)
    ensures Feed(cfg, s, frames, at).allSamples == s.allSamples + DecodeAll(frames)
    ensures Feed(cfg, s, frames, at).bytes == s.bytes + Concat(frames)
    decreases |frames|
  {
    if frames == [] {
    } else {
      var n := |frames| - 1;
      var init, last := frames[..n], frames[n];
      StreamIs(cfg, s, init, at);
      FeedKeepsInv(cfg, s, init, at);
      EveryChunkAnalysed(cfg, Feed(cfg, s, init, at), last, at(n));
      AppendAssoc(s.allSamples, DecodeAll(init), Decode(last));
      AppendAssoc(s.bytes, Concat(init), last);
    }
  }

  function Concat(frames: seq<seq<Byte>>): seq<Byte> {
    if frames == [] then [] else Concat(frames[..|frames| - 1]) + frames[|frames| - 1]
  }

  lemma InitInv()
    ensures Inv(Init()) && Init().accumulated == 0 && Init().melLog == []
    ensures Init().allSamples == Zeros(MEL_CONTEXT) && |Init().allSamples| == MEL_CONTEXT
    ensures Init().allRows == [] && Init().allFeatures == [] && AtRest(Init())
  {
    assert Zeros(MEL_CONTEXT)[0..] == Zeros(MEL_CONTEXT);
  }

  /** The states in which the program may start feeding the detector: newly built, or after
      any number of warm-up chunks. */
  ghost predicate Booted(cfg: Config, s: State) {
    exists n: nat, now: int :: s == WarmupChunks(cfg, Init(), n, now)
  }

  /** A new detector is booted, and so is one that was warmed up. */
  lemma {:induction false} Boots(cfg: Config, now: int)
    ensures Booted(cfg, Init())
    ensures Booted(cfg, Step(cfg, Init(), Warmup(now)))
  {
    assert WarmupChunks(cfg, Init(), 0, now) == Init();
    assert Step(cfg, Init(), Warmup(now)) == WarmupChunks(cfg, Init(), WarmupCount(), now);
  }

  /** At a chunk boundary, with nothing heard yet and 480 zeros at the end of the stream. */
  ghost predicate AtRest(s: State) {
    Inv(s) && s.accumulated == 0 && s.bytes == [] && IsSuffix(Zeros(MEL_CONTEXT), s.allSamples)
  }

  lemma ProcessKeepsStreams(cfg: Config, s: State, now: int)
    ensures ProcessAccumulated(cfg, s, now).allSamples == s.allSamples
    ensures ProcessAccumulated(cfg, s, now).bytes == s.bytes
  {
  }

  lemma {:induction false} WarmupChunkStream(cfg: Config, s: State, now: int)
    ensures WarmupChunk(cfg, s, now).allSamples == s.allSamples + Zeros(MEL_CHUNK)
    ensures WarmupChunk(cfg, s, now).bytes == s.bytes
  {
    ProcessKeepsStreams(cfg, AddSamples(s, Zeros(MEL_CHUNK)).(accumulated := MEL_CHUNK), now);
  }

  lemma {:induction false} ChunkKeepsRest(cfg: Config, s: State, now: int)
    requires AtRest(s)
    ensures AtRest(WarmupChunk(cfg, s, now))
  {
    WarmupChunkKeeps(cfg, s, now);
    WarmupChunkStream(cfg, s, now);
    EndsInZeros(s.allSamples);
  }

  lemma EndsInZeros(h: seq<int>)
    ensures IsSuffix(Zeros(MEL_CONTEXT), h + Zeros(MEL_CHUNK))
  {
    var z := h + Zeros(MEL_CHUNK);
    SuffixSlice(z, MEL_CONTEXT);
    assert z[|z| - MEL_CONTEXT..] == Zeros(MEL_CONTEXT);
  }

  lemma {:induction false} BootedIsAtRest(cfg: Config, s: State)
    requires Booted(cfg, s)
    ensures AtRest(s)
  {
    var n: nat, now: int :| s == WarmupChunks(cfg, Init(), n, now);
    InitInv();
    ChunksAreAtRest(cfg, Init(), n, now);
  }

  lemma {:induction false} ChunksAreAtRest(cfg: Config, s: State, n: nat, now: int)
    requires AtRest(s)
    ensures AtRest(WarmupChunks(cfg, s, n, now))
  {
    forall t: State | AtRest(t) ensures AtRest(WarmupChunk(cfg, t, now)) {
      ChunkKeepsRest(cfg, t, now);
    }
    RepeatKeeps((t: State) => AtRest(t), (t: State) => WarmupChunk(cfg, t, now), s, n);
  }

  lemma TailSlice<T>(a: seq<T>, z: seq<T>, d: seq<T>, lo: nat, hi: nat)
    requires IsSuffix(z, a) && lo <= hi <= |z + d|
    ensures (a + d)[|a| - |z| + lo..|a| - |z| + hi] == (z + d)[lo..hi]
  {
    var older := a[..|a| - |z|];
    assert a + d == older + (z + d);
  }

  /** For any number of 640-byte frames fed from construction, warmed up or not, the k-th mel
      input is samples [1280k, 1280k + 1760) of 480 zeros followed by all samples, despite the
      trimming. */
  lemma {:induction false} MelInputsFromStart(cfg: Config, s: State, frames: seq<seq<Byte>>, at: int -> int, k: nat)
    requires Booted(cfg, s) && WholeFrames(frames) && k < |frames| / 4
    ensures var t := Feed(cfg, s, frames, at);
            var stream := Zeros(MEL_CONTEXT) + DecodeAll(frames);
            && |t.melLog| == |s.melLog| + |frames| / 4
            && MEL_CHUNK * k + MEL_WINDOW <= |stream|
            && t.melLog[|s.melLog| + k].input == stream[MEL_CHUNK * k..MEL_CHUNK * k + MEL_WINDOW]
  {
    BootedIsAtRest(cfg, s);
    MelInputsAtRest(cfg, s, frames, at, k);
  }

  lemma {:induction false} MelInputsAtRest(cfg: Config, s: State, frames: seq<seq<Byte>>, at: int -> int, k: nat)
    requires AtRest(s) && WholeFrames(frames) && k < |frames| / 4
    ensures var t := Feed(cfg, s, frames, at);
            var stream := Zeros(MEL_CONTEXT) + DecodeAll(frames);
            && |t.melLog| == |s.melLog| + |frames| / 4
            && MEL_CHUNK * k + MEL_WINDOW <= |stream|
            && t.melLog[|s.melLog| + k].input == stream[MEL_CHUNK * k..MEL_CHUNK * k + MEL_WINDOW]
  {
    MelInputs(cfg, s, frames, at, k);
    StreamIs(cfg, s, frames, at);
    StreamLength(frames);
    var b := MEL_CHUNK * k;
    TailSlice(s.allSamples, Zeros(MEL_CONTEXT), DecodeAll(frames), b, b + MEL_WINDOW);
  }

  lemma {:induction false} StreamLength(frames: seq<seq<Byte>>)
    requires WholeFrames(frames)
    ensures |DecodeAll(frames)| == FRAME_SAMPLES * |frames|
    decreases |frames|
  {
    if frames == [] {
    } else {
      StreamLength(frames[..|frames| - 1]);
    }
  }

  // ---- pre-roll ----

  lemma {:induction false} ConcatIsFlatten(frames: seq<seq<Byte>>)
    ensures Concat(frames) == Flatten(frames)
    decreases |frames|
  {
    if frames == [] {
    } else {
      var n := |frames| - 1;
      var last := [frames[n]];
      ConcatIsFlatten(frames[..n]);
      FlattenAppend(frames[..n], last);
      assert last[1..] == [] && frames[..n] + last == frames;
    }
  }

  lemma {:induction false} SuffixOfFrames(frames: seq<seq<Byte>>)
    requires WholeFrames(frames)
    ensures Suffix(Flatten(frames), PRE_ROLL_BYTES) == Flatten(Suffix(frames, 10))
  {
    var kept := Suffix(frames, 10);
    var older := frames[..|frames| - |kept|];
    assert older + kept == frames;
    FlattenAppend(older, kept);
    FlattenLength(kept, FRAME_BYTES);
    FlattenLength(older, FRAME_BYTES);
  }

  lemma {:induction false} BytesFromStart(cfg: Config, s: State, frames: seq<seq<Byte>>, at: int -> int)
    requires AtRest(s)
    ensures Feed(cfg, s, frames, at).preRoll == Suffix(Flatten(frames), PRE_ROLL_BYTES)
  {
    StreamIs(cfg, s, frames, at);
    FeedKeepsInv(cfg, s, frames, at);
    ConcatIsFlatten(frames);
    assert [] + Concat(frames) == Concat(frames);
  }

  /** With 640-byte frames from construction, warmed up or not, the pre-roll is exactly the
      last min(10, n) frames, and cutting it up again gives those frames back with nothing left
      over. */
  lemma {:induction false} PreRollIsLastFrames(cfg: Config, s: State, frames: seq<seq<Byte>>, at: int -> int)
    requires Booted(cfg, s) && WholeFrames(frames)
    ensures var kept := Suffix(frames, 10);
            var p := Feed(cfg, s, frames, at).preRoll;
            p == Flatten(kept) && Frames(p, FRAME_BYTES) == kept && Rest(p, FRAME_BYTES) == []
  {
    BootedIsAtRest(cfg, s);
    PreRollAtRest(cfg, s, frames, at);
  }

  lemma {:induction false} PreRollAtRest(cfg: Config, s: State, frames: seq<seq<Byte>>, at: int -> int)
    requires AtRest(s) && WholeFrames(frames)
    ensures var kept := Suffix(frames, 10);
            var p := Feed(cfg, s, frames, at).preRoll;
            p == Flatten(kept) && Frames(p, FRAME_BYTES) == kept && Rest(p, FRAME_BYTES) == []
  {
    BytesFromStart(cfg, s, frames, at);
    SuffixOfFrames(frames);
    var kept := Suffix(frames, 10);
    forall p | p in kept ensures |p| == FRAME_BYTES {
      assert p in frames;
    }
    FramesOfFlatten(kept, FRAME_BYTES);
  }

  // ---- warm-up ----

  /** Every mel call yields at least 8 rows, and every embedding call a feature. */
  ghost predicate Generous(cfg: Config) { MelAnswers(cfg) && EmbeddingAnswers(cfg) }

  ghost predicate MelAnswers(cfg: Config) {
    forall k, input :: cfg.mel(k, input).Some? && |cfg.mel(k, input).value| >= ROW_WIDTH * ROWS_PER_CHUNK
  }

  ghost predicate EmbeddingAnswers(cfg: Config) {
    forall k, input :: cfg.embed(k, input).Some? && cfg.embed(k, input).value != []
  }

  /** What one chunk adds when the models answer. */
  lemma {:induction false} ChunkAdds(cfg: Config, s: State, now: int)
    requires Rolling(s) && |s.raw| >= MEL_WINDOW && Generous(cfg)
    ensures Adds(s, ProcessAccumulated(cfg, s, now))
  {
    var out := cfg.mel(|s.melLog|, Suffix(s.raw, MEL_WINDOW));
    ProcessIs(cfg, s, out, now);
    AfterMelAdds(cfg, MelTaken(s), out, now);
  }

  lemma ProcessIs(cfg: Config, s: State, out: Option<seq<real>>, now: int)
    requires |s.raw| >= MEL_WINDOW && out == cfg.mel(|s.melLog|, Suffix(s.raw, MEL_WINDOW))
    ensures ProcessAccumulated(cfg, s, now) == AfterMel(cfg, MelTaken(s), out, now)
  {
  }

  /** Eight rows were added, a feature if there are then enough rows, and a classifier call if
      there are then enough features. */
  ghost predicate Adds(s: State, t: State) {
    && |t.allRows| == |s.allRows| + ROWS_PER_CHUNK
    && |t.allFeatures| == |s.allFeatures| + (if |t.allRows| < ROWS_NEEDED then 0 else 1)
    && |t.clsLog| == |s.clsLog| + (if |t.allRows| >= ROWS_NEEDED && |t.allFeatures| >= FEATURES_NEEDED then 1 else 0)
    && Rolling(t) && t.raw == s.raw
  }

  lemma RowsCount(data: seq<real>)
    requires |data| >= ROW_WIDTH * ROWS_PER_CHUNK
    ensures |NewRows(data)| == ROWS_PER_CHUNK
  {
  }

  lemma {:induction false} AfterMelAdds(cfg: Config, s: State, output: Option<seq<real>>, now: int)
    requires Rolling(s) && EmbeddingAnswers(cfg)
    requires output.Some? && |output.value| >= ROW_WIDTH * ROWS_PER_CHUNK
    ensures Adds(s, AfterMel(cfg, s, output, now))
  {
    var rows := NewRows(output.value);
    assert AfterMel(cfg, s, output, now) == EmbedAndClassify(cfg, WithRows(s, rows), now);
    RowsCount(output.value);
    EmbeddingAdds(cfg, WithRows(s, rows), now);
  }

  /** The rows and features kept are the ends of their histories. */
  ghost predicate Rolling(s: State) {
    |s.mel| == Least(|s.allRows|, ROWS_KEPT) && |s.features| == Least(|s.allFeatures|, FEATURES_KEPT)
  }

  function Least(a: nat, b: nat): nat { if a <= b then a else b }

  lemma {:induction false} EmbeddingAdds(cfg: Config, s: State, now: int)
    requires Rolling(s) && EmbeddingAnswers(cfg)
    ensures var t := EmbedAndClassify(cfg, s, now);
            && t.allRows == s.allRows
            && |t.allFeatures| == |s.allFeatures| + (if |s.allRows| < ROWS_NEEDED then 0 else 1)
            && |t.clsLog| == |s.clsLog|
                 + (if |s.allRows| >= ROWS_NEEDED && |t.allFeatures| >= FEATURES_NEEDED then 1 else 0)
            && Rolling(t) && t.raw == s.raw
  {
    if |s.mel| >= ROWS_NEEDED {
      var out := cfg.embed(|s.embLog|, Suffix(s.mel, ROWS_NEEDED));
      ClassifierReached(cfg, WithFeature(EmbeddingTaken(s), out.value), now);
    }
  }

  lemma {:induction false} ClassifierReached(cfg: Config, s: State, now: int)
    ensures var t := ClassifyIfReady(cfg, s, now);
            && t.allRows == s.allRows && t.allFeatures == s.allFeatures
            && t.mel == s.mel && t.features == s.features && t.raw == s.raw
            && |t.clsLog| == |s.clsLog| + if |s.features| >= FEATURES_NEEDED then 1 else 0
  {
  }

  lemma {:induction false} WarmupChunkAdds(cfg: Config, s: State, now: int)
    requires Generous(cfg) && Rolling(s) && |s.raw| >= MEL_CONTEXT
    ensures var t := WarmupChunk(cfg, s, now);
            && |t.allRows| == |s.allRows| + ROWS_PER_CHUNK
            && |t.allFeatures| == |s.allFeatures| + (if |t.allRows| < ROWS_NEEDED then 0 else 1)
            && Rolling(t) && |t.raw| >= MEL_CONTEXT
  {
    var t := AddSamples(s, Zeros(MEL_CHUNK)).(accumulated := MEL_CHUNK);
    assert WarmupChunk(cfg, s, now) == ProcessAccumulated(cfg, t, now).(accumulated := 0);
    ChunkAdds(cfg, t, now);
  }

  /** The lengths of the histories after n chunks of warm-up. */
  ghost predicate Warmed(t: State, n: nat) {
    && Rolling(t) && |t.raw| >= MEL_CONTEXT
    && |t.allRows| == ROWS_PER_CHUNK * n && |t.allFeatures| == if n < 10 then 0 else n - 9
  }

  lemma {:induction false} WarmupAdds(cfg: Config, s: State, n: nat, now: int)
    requires Generous(cfg) && Warmed(s, 0)
    ensures Warmed(WarmupChunks(cfg, s, n, now), n)
    decreases n
  {
    if n == 0 {
    } else {
      WarmupAdds(cfg, s, n - 1, now);
      WarmupChunkAdds(cfg, WarmupChunks(cfg, s, n - 1, now), now);
    }
  }

  lemma InvRolls(s: State)
    requires Inv(s)
    ensures Rolling(s) && RawOk(s)
  {
  }

  /** Ready to classify at every chunk. */
  ghost predicate Primed(s: State) {
    |s.allRows| >= ROWS_NEEDED && |s.allFeatures| >= FEATURES_NEEDED
  }

  /** Warm-up from construction runs 27 chunks and leaves 18 features. */
  lemma {:induction false} WarmupPrimes(cfg: Config, now: int)
    requires Generous(cfg)
    ensures WarmupCount() == 27
    ensures var t := Step(cfg, Init(), Warmup(now));
            Inv(t) && Primed(t) && |t.features| == |t.allFeatures| == 18 && |t.mel| == ROWS_KEPT
  {
    var n := WarmupCount();
    InitInv();
    ChunksAreAtRest(cfg, Init(), n, now);
    WarmupAdds(cfg, Init(), n, now);
  }

  /** Once primed, a frame that completes a chunk always reaches the classifier, and the
      detector stays primed. */
  lemma {:induction false} PrimedReachesClassifier(cfg: Config, s: State, pcm: seq<Byte>, now: int)
    requires Generous(cfg) && Rolling(s) && RawOk(s) && Primed(s)
    ensures var t := ProcessFrame(cfg, s, pcm, now);
            && Primed(t)
            && |t.clsLog| == |s.clsLog| + if s.accumulated + |pcm| / 2 >= MEL_CHUNK then 1 else 0
  {
    var s1 := WithFrame(s, pcm);
    if s1.accumulated >= MEL_CHUNK {
      ChunkAdds(cfg, s1, now);
    }
  }

  /** From a primed chunk boundary, n 640-byte frames reach the classifier n / 4 times. */
  lemma {:induction false} PrimedFeed(cfg: Config, s: State, frames: seq<seq<Byte>>, at: int -> int)
    requires Generous(cfg) && Inv(s) && Primed(s) && s.accumulated == 0 && WholeFrames(frames)
    ensures var t := Feed(cfg, s, frames, at);
            Primed(t) && |t.clsLog| == |s.clsLog| + |frames| / 4
    decreases |frames|
  {
    if frames == [] {
    } else {
      var n := |frames| - 1;
      PrimedFeed(cfg, s, frames[..n], at);
      FeedKeeps(cfg, s, frames[..n], at);
      InvRolls(Feed(cfg, s, frames[..n], at));
      PrimedReachesClassifier(cfg, Feed(cfg, s, frames[..n], at), frames[n], at(n));
      FrameCompletes(n);
    }
  }

  lemma FrameCompletes(n: nat)
    ensures FRAME_SAMPLES * (n % 4) + FRAME_SAMPLES >= MEL_CHUNK <==> n % 4 == 3
    ensures (n + 1) / 4 == n / 4 + if n % 4 == 3 then 1 else 0
  {
  }

  /** After a warm-up and n 640-byte frames the classifier has run exactly n / 4 times more
      than during the warm-up. */
  lemma {:induction false} WarmedUpClassifies(cfg: Config, now: int, frames: seq<seq<Byte>>, at: int -> int)
    requires Generous(cfg) && WholeFrames(frames)
    ensures var s := Step(cfg, Init(), Warmup(now));
            |Feed(cfg, s, frames, at).clsLog| == |s.clsLog| + |frames| / 4
  {
    InitInv();
    WarmupPrimes(cfg, now);
    ChunksAreAtRest(cfg, Init(), WarmupCount(), now);
    PrimedFeed(cfg, Step(cfg, Init(), Warmup(now)), frames, at);
  }
}
