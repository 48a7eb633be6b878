/**
  The wake-word detector: raw samples, mel rows and embedding features in rolling buffers that
  are trimmed as they grow. The state also keeps the untrimmed histories and a log of what
  each model was given, so that the rolling windows can be compared with plain indexing.
 */
module Detector {
  import opened Common

  const MEL_CHUNK: nat := 1280
  const MEL_CONTEXT: nat := 480
  const MEL_WINDOW: nat := MEL_CHUNK + MEL_CONTEXT
  const ROWS_PER_CHUNK: nat := 8
  const ROW_WIDTH: nat := 32
  const ROWS_NEEDED: nat := 76
  const ROWS_KEPT: nat := 200
  const FEATURES_NEEDED: nat := 16
  const FEATURE_SIZE: nat := 96
  const FEATURES_KEPT: nat := 120
  const RAW_KEPT: nat := 32000
  const PRE_ROLL_BYTES: nat := 6400
  const SUPPRESSION_MS: int := 500

  type Row = seq<real>

  /** The three models, as functions of the call number and the input; None or an empty
      tensor is an output the detector gives up on. */
  datatype Config = Config(
    mel: (nat, seq<int>) -> Option<seq<real>>,
    embed: (nat, seq<Row>) -> Option<seq<real>>,
    classify: (nat, seq<Row>) -> Option<real>,
    threshold: real)

  /** A model input together with how long its source history was when it was taken. */
  datatype Taken<T> = Taken(count: nat, input: seq<T>)

  /** A classifier input, with its time and how many bytes had then been heard. */
  datatype Judged = Judged(count: nat, input: seq<Row>, at: int, heard: nat)

  datatype Fire = Fire(at: int, score: real, preRoll: seq<Byte>)

  datatype State = State(
    raw: seq<int>, accumulated: nat, mel: seq<Row>, features: seq<Row>, preRoll: seq<Byte>,
    lastFire: Option<int>,
    // histories
    bytes: seq<Byte>, allSamples: seq<int>, allRows: seq<Row>, allFeatures: seq<Row>,
    melLog: seq<Taken<int>>, embLog: seq<Taken<Row>>, clsLog: seq<Judged>, fires: seq<Fire>)

  /** The last n elements, or all of a shorter sequence. */
  function Suffix<T>(s: seq<T>, n: nat): seq<T> {
    if |s| <= n then s else s[|s| - n..]
  }

  lemma SuffixSlice<T>(s: seq<T>, n: nat)
    requires n <= |s|
    ensures Suffix(s, n) == s[|s| - n..]
  {
  }

  function Zeros(n: nat): (z: seq<int>)
    ensures |z| == n
  {
    seq(n, _ => 0)
  }

  function Init(): State {
    State(Zeros(MEL_CONTEXT), 0, [], [], [], None, [], Zeros(MEL_CONTEXT), [], [], [], [], [], [])
  }

  /** One little-endian int16. */
  function Sample(lo: Byte, hi: Byte): int {
    var u := lo + 256 * hi;
    if u >= 32768 then u - 65536 else u
  }

  /** An odd last byte is dropped. */
  function Decode(pcm: seq<Byte>): (s: seq<int>)
    ensures |s| == |pcm| / 2
  {
    seq(|pcm| / 2, i requires 0 <= i < |pcm| / 2 => Sample(pcm[2 * i], pcm[2 * i + 1]))
  }

  function ScaleRow(row: seq<real>): (r: Row)
    ensures |r| == |row|
  {
    if row == [] then [] else [row[0] / 10.0 + 2.0] + ScaleRow(row[1..])
  }

  /** Rows f..total of a flat mel output, scaled. */
  function MelRows(data: seq<real>, f: nat, total: nat): (rows: seq<Row>)
    requires f <= total && ROW_WIDTH * total <= |data|
    ensures |rows| == total - f
    decreases total - f
  {
    if f == total then []
    else [ScaleRow(data[f * ROW_WIDTH..(f + 1) * ROW_WIDTH])] + MelRows(data, f + 1, total)
  }

  /** The last (at most eight) rows of a mel output. */
  function NewRows(data: seq<real>): (rows: seq<Row>)
    ensures |rows| == if |data| / ROW_WIDTH < ROWS_PER_CHUNK then |data| / ROW_WIDTH else ROWS_PER_CHUNK
  {
    var total := |data| / ROW_WIDTH;
    var taken := if total < ROWS_PER_CHUNK then total else ROWS_PER_CHUNK;
    MelRows(data, total - taken, total)
  }

  /** A feature cut or zero-padded to the classifier's width. */
  function Fit(feature: Row): Row {
    if |feature| >= FEATURE_SIZE then feature[..FEATURE_SIZE]
    else feature + seq(FEATURE_SIZE - |feature|, _ => 0.0)
  }

  function FitAll(features: seq<Row>): (r: seq<Row>)
    ensures |r| == |features|
  {
    seq(|features|, i requires 0 <= i < |features| => Fit(features[i]))
  }

  /** What the classifier is given: the last 16 features, fitted. */
  function ClassifierInput(s: State): seq<Row>
    requires |s.features| >= FEATURES_NEEDED
  {
    FitAll(Suffix(s.features, FEATURES_NEEDED))
  }

  function ClassifierTaken(s: State, now: int): State
    requires |s.features| >= FEATURES_NEEDED
  {
    s.(clsLog := s.clsLog + [Judged(|s.allFeatures|, ClassifierInput(s), now, |s.bytes|)])
  }

  predicate Suppressed(s: State, now: int) {
    s.lastFire.Some? && now - s.lastFire.value < SUPPRESSION_MS
  }

  function AfterScore(cfg: Config, s: State, score: Option<real>, now: int): State {
    if score == None || score.value < cfg.threshold || Suppressed(s, now) then s
    else s.(lastFire := Some(now), fires := s.fires + [Fire(now, score.value, s.preRoll)])
  }

  function RunClassifier(cfg: Config, s: State, now: int): State
    requires |s.features| >= FEATURES_NEEDED
  {
    AfterScore(cfg, ClassifierTaken(s, now), cfg.classify(|s.clsLog|, ClassifierInput(s)), now)
  }

  function ClassifyIfReady(cfg: Config, s: State, now: int): State {
    if |s.features| < FEATURES_NEEDED then s else RunClassifier(cfg, s, now)
  }

  function WithFeature(s: State, feature: Row): State {
    s.(features := Suffix(s.features + [feature], FEATURES_KEPT), allFeatures := s.allFeatures + [feature])
  }

  function AfterEmbedding(cfg: Config, s: State, output: Option<seq<real>>, now: int): State {
    if output == None || output.value == [] then s
    else ClassifyIfReady(cfg, WithFeature(s, output.value), now)
  }

  function EmbeddingTaken(s: State): State
    requires |s.mel| >= ROWS_NEEDED
  {
    s.(embLog := s.embLog + [Taken(|s.allRows|, Suffix(s.mel, ROWS_NEEDED))])
  }

  function EmbedAndClassify(cfg: Config, s: State, now: int): State {
    if |s.mel| < ROWS_NEEDED then s
    else AfterEmbedding(cfg, EmbeddingTaken(s), cfg.embed(|s.embLog|, Suffix(s.mel, ROWS_NEEDED)), now)
  }

  function WithRows(s: State, rows: seq<Row>): State {
    s.(mel := Suffix(s.mel + rows, ROWS_KEPT), allRows := s.allRows + rows)
  }

  /** The mel input is taken, then its output used. */
  function MelTaken(s: State): State
    requires |s.raw| >= MEL_WINDOW
  {
    s.(melLog := s.melLog + [Taken(|s.allSamples|, Suffix(s.raw, MEL_WINDOW))])
  }

  function AfterMel(cfg: Config, s: State, output: Option<seq<real>>, now: int): State {
    if output == None || output.value == [] then s
    else EmbedAndClassify(cfg, WithRows(s, NewRows(output.value)), now)
  }

  function ProcessAccumulated(cfg: Config, s: State, now: int): State {
    if |s.raw| < MEL_WINDOW then s
    else AfterMel(cfg, MelTaken(s), cfg.mel(|s.melLog|, Suffix(s.raw, MEL_WINDOW)), now)
  }

  function AddSamples(s: State, samples: seq<int>): State {
    s.(raw := s.raw + samples, allSamples := s.allSamples + samples, accumulated := s.accumulated + |samples|)
  }

  function WithFrame(s: State, pcm: seq<Byte>): State {
    AddSamples(s.(preRoll := Suffix(s.preRoll + pcm, PRE_ROLL_BYTES), bytes := s.bytes + pcm), Decode(pcm))
  }

  function WhenDue(cfg: Config, s: State, now: int): State {
    if s.accumulated >= MEL_CHUNK then ProcessAccumulated(cfg, s, now).(accumulated := 0) else s
  }

  function ProcessFrame(cfg: Config, s: State, pcm: seq<Byte>, now: int): State {
    var s' := WhenDue(cfg, WithFrame(s, pcm), now);
    s'.(raw := Suffix(s'.raw, RAW_KEPT))
  }

  /** One round of warm-up: a chunk of silence. */
  function WarmupChunk(cfg: Config, s: State, now: int): State {
    ProcessAccumulated(cfg, AddSamples(s, Zeros(MEL_CHUNK)).(accumulated := MEL_CHUNK), now).(accumulated := 0)
  }

  /** Enough chunks to fill the mel window, then the features, and two more. */
  function WarmupCount(): nat { ROWS_NEEDED / ROWS_PER_CHUNK + FEATURES_NEEDED + 2 }

  function WarmupChunks(cfg: Config, s: State, n: nat, now: int): State {
    Repeat((t: State) => WarmupChunk(cfg, t, now), s, n)
  }

  datatype Event = Frame(pcm: seq<Byte>, at: int) | Warmup(at: int)

  function Step(cfg: Config, s: State, e: Event): State {
    match e
    case Frame(pcm, at) => ProcessFrame(cfg, s, pcm, at)
    case Warmup(at) => WarmupChunks(cfg, s, WarmupCount(), at)
  }

  function Run(cfg: Config, es: seq<Event>): State {
    if es == [] then Init() else Step(cfg, Run(cfg, es[..|es| - 1]), es[|es| - 1])
  }

  class OpenWakewordDetector {
    const cfg: Config
    var rawAudioBuffer: seq<int>
    var accumulatedSamples: nat
    var melBuffer: seq<Row>
    var embFeatures: seq<Row>
    var preRollBuffer: seq<Byte>
    var lastFire: Option<int>
    var fires: seq<Fire>
    var melCalls: nat
    var embCalls: nat
    var clsCalls: nat
    ghost var past: State

    /** The rolling buffers, with the histories carried along as a ghost. */
    ghost function Abs(): State
      reads this
    {
      past.(raw := rawAudioBuffer, accumulated := accumulatedSamples, mel := melBuffer,
            features := embFeatures, preRoll := preRollBuffer, lastFire := lastFire, fires := fires)
    }

    ghost predicate Valid()
      reads this
    {
      melCalls == |past.melLog| && embCalls == |past.embLog| && clsCalls == |past.clsLog|
    }

    constructor (cfg: Config)
      ensures Valid() && this.cfg == cfg && Abs() == Init()
    {
      this.cfg := cfg;
      rawAudioBuffer, accumulatedSamples := Zeros(MEL_CONTEXT), 0;
      melBuffer, embFeatures, preRollBuffer, lastFire, fires := [], [], [], None, [];
      melCalls, embCalls, clsCalls := 0, 0, 0;
      past := Init();
    }

    method WarmUp(now: int)
      requires Valid()
      modifies this
      ensures Valid() && Abs() == WarmupChunks(cfg, old(Abs()), WarmupCount(), now)
    {
      var warmupChunks := ROWS_NEEDED / ROWS_PER_CHUNK + FEATURES_NEEDED + 2;
      assert warmupChunks == WarmupCount();
      for i := 0 to warmupChunks
        invariant Valid() && Abs() == WarmupChunks(cfg, old(Abs()), i, now)
      {
        WarmUpChunk(now);
      }
    }

    method WarmUpChunk(now: int)
      requires Valid()
      modifies this
      ensures Valid() && Abs() == WarmupChunk(cfg, old(Abs()), now)
    {
      ghost var s := Abs();
      rawAudioBuffer := rawAudioBuffer + Zeros(MEL_CHUNK);
      past := past.(allSamples := past.allSamples + Zeros(MEL_CHUNK));
      accumulatedSamples := MEL_CHUNK;
      assert Abs() == AddSamples(s, Zeros(MEL_CHUNK)).(accumulated := MEL_CHUNK);
      ProcessAccumulatedAudio(now);
      accumulatedSamples := 0;
    }

    method ProcessPcmFrame(pcm: seq<Byte>, now: int)
      requires Valid()
      modifies this
      ensures Valid() && Abs() == ProcessFrame(cfg, old(Abs()), pcm, now)
    {
      AppendFrame(pcm);
      ProcessIfDue(now);
      if |rawAudioBuffer| > RAW_KEPT {
        rawAudioBuffer := rawAudioBuffer[|rawAudioBuffer| - RAW_KEPT..];
      }
    }

    method AppendFrame(pcm: seq<Byte>)
      requires Valid()
      modifies this
      ensures Valid() && Abs() == WithFrame(old(Abs()), pcm)
    {
      preRollBuffer := preRollBuffer + pcm;
      if |preRollBuffer| > PRE_ROLL_BYTES {
        preRollBuffer := preRollBuffer[|preRollBuffer| - PRE_ROLL_BYTES..];
      }
      PushSamples(pcm);
      past := past.(bytes := past.bytes + pcm, allSamples := past.allSamples + Decode(pcm));
      accumulatedSamples := accumulatedSamples + |pcm| / 2;
    }

    method ProcessIfDue(now: int)
      requires Valid()
      modifies this
      ensures Valid() && Abs() == WhenDue(cfg, old(Abs()), now)
    {
      if accumulatedSamples >= MEL_CHUNK {
        ProcessAccumulatedAudio(now);
        accumulatedSamples := 0;
      }
    }

    method PushSamples(pcm: seq<Byte>)
      modifies this`rawAudioBuffer
      ensures rawAudioBuffer == old(rawAudioBuffer) + Decode(pcm)
    {
      ghost var samples := Decode(pcm);
      for i := 0 to |pcm| / 2
        invariant rawAudioBuffer == old(rawAudioBuffer) + samples[..i]
      {
        assert samples[..i + 1] == samples[..i] + [samples[i]];
        rawAudioBuffer := rawAudioBuffer + [Sample(pcm[2 * i], pcm[2 * i + 1])];
      }
      assert samples[..|pcm| / 2] == samples;
    }

    method ProcessAccumulatedAudio(now: int)
      requires Valid()
      modifies this
      ensures Valid() && Abs() == ProcessAccumulated(cfg, old(Abs()), now)
    {
      if |rawAudioBuffer| < MEL_WINDOW {
        return;
      }
      ghost var s := Abs();
      var melInput := rawAudioBuffer[|rawAudioBuffer| - MEL_WINDOW..];
      SuffixSlice(rawAudioBuffer, MEL_WINDOW);
      var melOutput := cfg.mel(melCalls, melInput);
      melCalls := melCalls + 1;
      past := past.(melLog := past.melLog + [Taken(|past.allSamples|, melInput)]);
      if melOutput == None || melOutput.value == [] {
        return;
      }
      PushMelRows(melOutput.value);
      assert Abs() == WithRows(MelTaken(s), NewRows(melOutput.value));
      RunEmbedding(now);
    }

    /** Append the new rows, then pop from the front down to the limit. */
    method PushMelRows(melData: seq<real>)
      requires Valid()
      modifies this`melBuffer, this`past
      ensures Valid()
      ensures melBuffer == Suffix(old(melBuffer) + NewRows(melData), ROWS_KEPT)
      ensures past == old(past).(allRows := old(past).allRows + NewRows(melData))
    {
      AppendMelRows(melData);
      ghost var grown := melBuffer;
      past := past.(allRows := past.allRows + NewRows(melData));
      while |melBuffer| > ROWS_KEPT
        modifies this`melBuffer
        invariant Suffix(melBuffer, ROWS_KEPT) == Suffix(grown, ROWS_KEPT)
      {
        melBuffer := melBuffer[1..];
      }
    }

    method AppendMelRows(melData: seq<real>)
      modifies this`melBuffer
      ensures melBuffer == old(melBuffer) + NewRows(melData)
    {
      var totalMelRows := |melData| / ROW_WIDTH;
      var newRows := if totalMelRows < ROWS_PER_CHUNK then totalMelRows else ROWS_PER_CHUNK;
      var startRow := totalMelRows - newRows;
      ghost var rows := NewRows(melData);
      for f := startRow to totalMelRows
        invariant melBuffer + MelRows(melData, f, totalMelRows) == old(melBuffer) + rows
      {
        ghost var rest := MelRows(melData, f + 1, totalMelRows);
        var row := ScaleRow(melData[f * ROW_WIDTH..(f + 1) * ROW_WIDTH]);
        assert melBuffer + ([row] + rest) == (melBuffer + [row]) + rest;
        melBuffer := melBuffer + [row];
      }
    }

    method RunEmbedding(now: int)
      requires Valid()
      modifies this
      ensures Valid() && Abs() == EmbedAndClassify(cfg, old(Abs()), now)
    {
      if |melBuffer| < ROWS_NEEDED {
        return;
      }
      ghost var s := Abs();
      var embInput := melBuffer[|melBuffer| - ROWS_NEEDED..];
      SuffixSlice(melBuffer, ROWS_NEEDED);
      var embOutput := cfg.embed(embCalls, embInput);
      embCalls := embCalls + 1;
      past := past.(embLog := past.embLog + [Taken(|past.allRows|, embInput)]);
      assert Abs() == EmbeddingTaken(s);
      if embOutput == None || embOutput.value == [] {
        return;
      }
      PushFeature(embOutput.value);
      if |embFeatures| < FEATURES_NEEDED {
        return;
      }
      Classify(now);
    }

    /** Append the feature, then pop from the front down to the limit. */
    method PushFeature(feature: Row)
      requires Valid()
      modifies this`embFeatures, this`past
      ensures Valid() && Abs() == WithFeature(old(Abs()), feature)
    {
      embFeatures := embFeatures + [feature];
      past := past.(allFeatures := past.allFeatures + [feature]);
      ghost var grown := embFeatures;
      while |embFeatures| > FEATURES_KEPT
        modifies this`embFeatures
        invariant Suffix(embFeatures, FEATURES_KEPT) == Suffix(grown, FEATURES_KEPT)
      {
        embFeatures := embFeatures[1..];
      }
    }

    method Classify(now: int)
      requires Valid() && |embFeatures| >= FEATURES_NEEDED
      modifies this
      ensures Valid() && Abs() == RunClassifier(cfg, old(Abs()), now)
    {
      var startFeat := |embFeatures| - FEATURES_NEEDED;
      var clsInput := [];
      for i := 0 to FEATURES_NEEDED
        invariant |clsInput| == i
        invariant forall k :: 0 <= k < i ==> clsInput[k] == Fit(embFeatures[startFeat + k])
      {
        clsInput := clsInput + [Fit(embFeatures[startFeat + i])];
      }
      assert clsInput == FitAll(embFeatures[startFeat..]);
      SuffixSlice(embFeatures, FEATURES_NEEDED);
      var score := cfg.classify(clsCalls, clsInput);
      clsCalls := clsCalls + 1;
      past := past.(clsLog := past.clsLog + [Judged(|past.allFeatures|, clsInput, now, |past.bytes|)]);
      if score == None || score.value < cfg.threshold {
        return;
      }
      if lastFire.Some? && now - lastFire.value < SUPPRESSION_MS {
        return;
      }
      lastFire := Some(now);
      fires := fires + [Fire(now, score.value, preRollBuffer)];
    }
  }
}
