/**
  The detector as a stream processor: the accumulator of SileroVad cut into 1024-byte chunks,
  each run through the model and the Idle/Speaking/Trailing machine.
 */
module VadStream {
  import opened Common
  import opened Framing
  import V = Vad

  /** What the ONNX session returns for one chunk: the probability tensor may be empty, and
      the next recurrent state is only taken when a second output is present. */
  datatype Inference<R> = Inference(prob: Option<real>, next: Option<R>)

  /** clock(k) is the time at which the k-th inference since construction reads the timer. */
  datatype Model<!R> = Model(infer: (seq<Byte>, R) -> Inference<R>, zero: R, silenceEndMs: int, clock: nat -> int)

  datatype Detector<R> = Detector(
    threshold: real, state: V.State, acc: seq<Byte>, recurrent: R, inferences: nat, signals: seq<V.Signal>)

  function Fresh<R>(m: Model<R>, threshold: real): Detector<R> {
    Detector(threshold, V.Idle, [], m.zero, 0, [])
  }

  function Observe<R>(m: Model<R>, d: Detector<R>, chunk: seq<Byte>): V.Observation {
    var p := m.infer(chunk, d.recurrent).prob;
    V.Observation(if p.Some? then p.value else 0.0, d.threshold, m.clock(d.inferences))
  }

  function RunChunk<R>(m: Model<R>, d: Detector<R>, chunk: seq<Byte>): Detector<R> {
    var out := m.infer(chunk, d.recurrent);
    var r := V.Step(m.silenceEndMs, d.state, Observe(m, d, chunk));
    d.(state := r.state,
       recurrent := if out.next.Some? then out.next.value else d.recurrent,
       inferences := d.inferences + 1,
       signals := if r.signal.Some? then d.signals + [r.signal.value] else d.signals)
  }

  function RunChunks<R>(m: Model<R>, d: Detector<R>, chunks: seq<seq<Byte>>): Detector<R>
    decreases |chunks|
  {
    if chunks == [] then d else RunChunks(m, RunChunk(m, d, chunks[0]), chunks[1..])
  }

  /** Run every whole chunk that is in the accumulator. */
  function Drain<R>(m: Model<R>, d: Detector<R>): Detector<R> {
    RunChunks(m, d, Frames(d.acc, V.CHUNK_BYTES)).(acc := Rest(d.acc, V.CHUNK_BYTES))
  }

  function Process<R>(m: Model<R>, d: Detector<R>, pcm: seq<Byte>): Detector<R> {
    Drain(m, d.(acc := d.acc + pcm))
  }

  function ProcessAll<R>(m: Model<R>, d: Detector<R>, frames: seq<seq<Byte>>): Detector<R>
    decreases |frames|
  {
    if frames == [] then d else ProcessAll(m, Process(m, d, frames[0]), frames[1..])
  }

  /** The observations the machine sees while it runs the given chunks. */
  function Observations<R>(m: Model<R>, d: Detector<R>, chunks: seq<seq<Byte>>): seq<V.Observation>
    decreases |chunks|
  {
    if chunks == [] then [] else [Observe(m, d, chunks[0])] + Observations(m, RunChunk(m, d, chunks[0]), chunks[1..])
  }

  lemma {:induction false} RunChunksAcc<R>(m: Model<R>, d: Detector<R>, chunks: seq<seq<Byte>>, a: seq<Byte>)
    ensures RunChunks(m, d.(acc := a), chunks) == RunChunks(m, d, chunks).(acc := a)
    decreases |chunks|
  {
    if chunks == [] {
    } else {
      var d' := RunChunk(m, d, chunks[0]);
      assert RunChunk(m, d.(acc := a), chunks[0]) == d'.(acc := a);
      RunChunksAcc(m, d', chunks[1..], a);
    }
  }

  lemma {:induction false} RunChunksAppend<R>(m: Model<R>, d: Detector<R>, a: seq<seq<Byte>>, b: seq<seq<Byte>>)
    ensures RunChunks(m, d, a + b) == RunChunks(m, RunChunks(m, d, a), b)
    decreases |a|
  {
    if a == [] {
      assert a + b == b;
    } else {
      RunChunksAppend(m, RunChunk(m, d, a[0]), a[1..], b);
      assert (a + b)[1..] == a[1..] + b;
    }
  }

  lemma {:induction false} RunChunksCount<R>(m: Model<R>, d: Detector<R>, chunks: seq<seq<Byte>>)
    ensures RunChunks(m, d, chunks).inferences == d.inferences + |chunks|
    decreases |chunks|
  {
    if chunks == [] {
    } else {
      RunChunksCount(m, RunChunk(m, d, chunks[0]), chunks[1..]);
    }
  }

  /** How the stream was split into calls leaves no trace: not in the machine, not in the
      recurrent state, not in the signals already sent. */
  lemma {:induction false} ProcessSplit<R>(m: Model<R>, d: Detector<R>, a: seq<Byte>, b: seq<Byte>)
    ensures Process(m, Process(m, d, a), b) == Process(m, d, a + b)
  {
    var n := V.CHUNK_BYTES;
    var h := d.acc + a;
    assert d.acc + (a + b) == h + b;
    FramesAppend(h, b, n);
    var whole := d.(acc := h + b);
    RunChunksAppend(m, whole, Frames(h, n), Frames(Rest(h, n) + b, n));
    var mid := Process(m, d, a);
    RunChunksAcc(m, d.(acc := h), Frames(h, n), h + b);
    assert whole == d.(acc := h).(acc := h + b);
    var at := RunChunks(m, whole, Frames(h, n));
    assert at == mid.(acc := h + b);
    RunChunksAcc(m, mid.(acc := Rest(h, n) + b), Frames(Rest(h, n) + b, n), h + b);
  }

  lemma {:induction false} ProcessAllFlattens<R>(m: Model<R>, d: Detector<R>, frames: seq<seq<Byte>>)
    requires |d.acc| < V.CHUNK_BYTES
    ensures ProcessAll(m, d, frames) == Process(m, d, Flatten(frames))
    decreases |frames|
  {
    if frames == [] {
      assert d.acc + [] == d.acc;
    } else {
      var d' := Process(m, d, frames[0]);
      FrameCount(d.acc + frames[0], V.CHUNK_BYTES);
      ProcessAllFlattens(m, d', frames[1..]);
      ProcessSplit(m, d, frames[0], Flatten(frames[1..]));
    }
  }

  /** State and signals are those the declarative account in Vad gives for the chunks seen. */
  ghost predicate Follows<R>(m: Model<R>, d: Detector<R>, seen: seq<V.Observation>, before: seq<V.Signal>) {
    && d.state == V.After(m.silenceEndMs, seen)
    && d.signals == before + V.Signals(m.silenceEndMs, seen)
  }

  lemma {:induction false} RunChunkFollows<R>(
    m: Model<R>, d: Detector<R>, chunk: seq<Byte>, seen: seq<V.Observation>, before: seq<V.Signal>)
    requires Follows(m, d, seen, before)
    ensures Follows(m, RunChunk(m, d, chunk), seen + [Observe(m, d, chunk)], before)
  {
    var seen' := seen + [Observe(m, d, chunk)];
    assert seen'[..|seen|] == seen;
  }

  /** From a reset on, the stream processor follows the declarative account. */
  lemma {:induction false} RunChunksFollow<R>(
    m: Model<R>, d: Detector<R>, chunks: seq<seq<Byte>>, seen: seq<V.Observation>, before: seq<V.Signal>)
    requires Follows(m, d, seen, before)
    ensures Follows(m, RunChunks(m, d, chunks), seen + Observations(m, d, chunks), before)
    decreases |chunks|
  {
    if chunks == [] {
      assert seen + [] == seen;
    } else {
      var d' := RunChunk(m, d, chunks[0]);
      var seen' := seen + [Observe(m, d, chunks[0])];
      RunChunkFollows(m, d, chunks[0], seen, before);
      RunChunksFollow(m, d', chunks[1..], seen', before);
      var later := Observations(m, d', chunks[1..]);
      assert seen' + later == seen + ([Observe(m, d, chunks[0])] + later);
    }
  }

  // ---- the recurrent state ----

  /** The state the model has returned last, or r0 while it has returned none. */
  function Memory<R>(m: Model<R>, r0: R, chunks: seq<seq<Byte>>): R {
    if chunks == [] then r0
    else
      var r := Memory(m, r0, chunks[..|chunks| - 1]);
      var out := m.infer(chunks[|chunks| - 1], r);
      if out.next.Some? then out.next.value else r
  }

  /** Chunk i is judged by the model in the state it was left in by the chunks before, with the
      threshold in force, at the time of its own inference. */
  function Heard<R>(m: Model<R>, d: Detector<R>, chunks: seq<seq<Byte>>): seq<V.Observation> {
    seq(|chunks|, i requires 0 <= i < |chunks| =>
      var p := m.infer(chunks[i], Memory(m, d.recurrent, chunks[..i])).prob;
      V.Observation(if p.Some? then p.value else 0.0, d.threshold, m.clock(d.inferences + i)))
  }

  lemma {:induction false} ObservationsAppend<R>(m: Model<R>, d: Detector<R>, a: seq<seq<Byte>>, b: seq<seq<Byte>>)
    ensures Observations(m, d, a + b) == Observations(m, d, a) + Observations(m, RunChunks(m, d, a), b)
    decreases |a|
  {
    if a == [] {
      assert a + b == b;
    } else {
      var d' := RunChunk(m, d, a[0]);
      assert (a + b)[1..] == a[1..] + b && (a + b)[0] == a[0];
      assert Observations(m, d, a + b) == [Observe(m, d, a[0])] + Observations(m, d', a[1..] + b);
      assert Observations(m, d, a) == [Observe(m, d, a[0])] + Observations(m, d', a[1..]);
      ObservationsAppend(m, d', a[1..], b);
    }
  }

  lemma {:induction false} ChunksAreHeard<R>(m: Model<R>, d: Detector<R>, chunks: seq<seq<Byte>>)
    ensures Observations(m, d, chunks) == Heard(m, d, chunks)
    ensures var t := RunChunks(m, d, chunks);
            t.recurrent == Memory(m, d.recurrent, chunks) && t.inferences == d.inferences + |chunks|
            && t.threshold == d.threshold
    decreases |chunks|
  {
    if chunks == [] {
    } else {
      var n := |chunks| - 1;
      var init, last := chunks[..n], chunks[n];
      var single: seq<seq<Byte>> := [last];
      var t := RunChunks(m, d, init);
      ChunksAreHeard(m, d, init);
      assert init + single == chunks && single[1..] == [];
      RunChunksAppend(m, d, init, single);
      ObservationsAppend(m, d, init, single);
      assert RunChunks(m, t, single) == RunChunk(m, t, last);
      assert Observations(m, t, single) == [Observe(m, t, last)];
      forall i | 0 <= i < n ensures Heard(m, d, chunks)[i] == Heard(m, d, init)[i] {
        assert chunks[..i] == init[..i];
      }
      assert Heard(m, d, chunks) == Heard(m, d, init) + [Observe(m, t, last)];
    }
  }

  /** From construction or a reset on, however the stream is cut into frames: its whole 1024-byte
      chunks are judged in order, each with the recurrent state the chunks before it left, the
      signals are the declarative ones, and the bytes after the last whole chunk are kept. */
  lemma {:induction false} StreamFollows<R>(m: Model<R>, d: Detector<R>, frames: seq<seq<Byte>>)
    requires d.state == V.Idle && d.acc == []
    ensures var chunks := Frames(Flatten(frames), V.CHUNK_BYTES);
            var t := ProcessAll(m, d, frames);
            && t.signals == d.signals + V.Signals(m.silenceEndMs, Heard(m, d, chunks))
            && t.state == V.After(m.silenceEndMs, Heard(m, d, chunks))
            && t.recurrent == Memory(m, d.recurrent, chunks)
            && t.acc == Rest(Flatten(frames), V.CHUNK_BYTES)
  {
    var stream := Flatten(frames);
    var chunks := Frames(stream, V.CHUNK_BYTES);
    ProcessAllFlattens(m, d, frames);
    assert d.acc + stream == stream;
    RunChunksAcc(m, d, chunks, stream);
    assert d.signals + V.Signals(m.silenceEndMs, []) == d.signals;
    RunChunksFollow(m, d, chunks, [], d.signals);
    assert [] + Observations(m, d, chunks) == Observations(m, d, chunks);
    ChunksAreHeard(m, d, chunks);
  }

  class SileroVad<R> {
    const model: Model<R>
    var threshold: real
    var state: V.State
    var accumulator: seq<Byte>
    var recurrent: R
    var inferences: nat
    var signals: seq<V.Signal>

    function Abs(): Detector<R>
      reads this
    {
      Detector(threshold, state, accumulator, recurrent, inferences, signals)
    }

    constructor (model: Model<R>, threshold: real)
      ensures this.model == model && Abs() == Fresh(model, threshold)
    {
      this.model := model;
      this.threshold := threshold;
      state, accumulator, recurrent := V.Idle, [], model.zero;
      inferences, signals := 0, [];
    }

    method ProcessPcmFrame(pcm: seq<Byte>)
      modifies this
      ensures Abs() == Process(model, old(Abs()), pcm)
    {
      ghost var whole := Process(model, Abs(), pcm);
      accumulator := accumulator + pcm;
      while |accumulator| >= V.CHUNK_BYTES
        invariant Drain(model, Abs()) == whole
        decreases |accumulator|
      {
        label Head:
        ghost var d := Abs();
        var chunk := accumulator[..V.CHUNK_BYTES];
        accumulator := accumulator[V.CHUNK_BYTES..];
        RunInference(chunk);
        assert Abs() == RunChunk(model, d, chunk).(acc := accumulator);
        RunChunksAcc(model, RunChunk(model, d, chunk), Frames(accumulator, V.CHUNK_BYTES), accumulator);
        assert Frames(d.acc, V.CHUNK_BYTES)[1..] == Frames(accumulator, V.CHUNK_BYTES);
      }
    }

    method RunInference(chunk: seq<Byte>)
      modifies this
      ensures Abs() == RunChunk(model, old(Abs()), chunk)
    {
      var out := model.infer(chunk, recurrent);
      var now := model.clock(inferences);
      inferences := inferences + 1;
      if out.next.Some? {
        recurrent := out.next.value;
      }
      var prob := if out.prob == None then 0.0 else out.prob.value;
      match state
      case Idle =>
        if prob >= threshold {
          state := V.Speaking;
          signals := signals + [V.Started];
        }
      case Speaking =>
        if prob < threshold {
          state := V.Trailing(now);
        }
      case Trailing(since) =>
        if prob >= threshold {
          state := V.Speaking;
        } else if now - since >= model.silenceEndMs {
          state := V.Idle;
          signals := signals + [V.Ended];
        }
    }

    method Reset()
      modifies this
      ensures Abs() == old(Abs()).(state := V.Idle, acc := [], recurrent := model.zero)
    {
      state := V.Idle;
      accumulator := [];
      recurrent := model.zero;
    }

    method SetThreshold(threshold: real)
      modifies this
      ensures Abs() == old(Abs()).(threshold := threshold)
    {
      this.threshold := threshold;
    }
  }
}
