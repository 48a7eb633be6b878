/**
  Microphone capture: whatever byte counts the device delivers are re-framed into 640-byte
  frames, which the VAD re-frames again into 1024-byte chunks.
 */
module Capture {
  import opened Common
  import opened Framing
  import V = Vad
  import opened VadStream

  const FRAME_BYTES: nat := 640

  /** connected says whether reads reach the slot: a device error stops the capture and leaves
      them connected. */
  datatype Reframer = Reframer(running: bool, connected: bool, acc: seq<Byte>, emitted: seq<seq<Byte>>)

  /** DeviceError is the device reporting that it has stopped by itself. */
  datatype Event = Start | Stop | Read(data: seq<Byte>) | DeviceError

  function Init(): Reframer { Reframer(false, false, [], []) }

  function Started(): Reframer { Reframer(true, true, [], []) }

  /** One readyRead: an empty read is dropped, anything else is appended and cut up. */
  function OnData(c: Reframer, data: seq<Byte>): Reframer {
    if !c.connected || data == [] then c
    else
      var h := c.acc + data;
      c.(acc := Rest(h, FRAME_BYTES), emitted := c.emitted + Frames(h, FRAME_BYTES))
  }

  function Step(c: Reframer, e: Event): Reframer {
    match e
    case Start => if c.running then c else c.(running := true, connected := true)
    case Stop => if c.running then c.(running := false, connected := false, acc := []) else c
    case Read(data) => OnData(c, data)
    case DeviceError => c.(running := false)
  }

  function OnDeliveries(c: Reframer, deliveries: seq<seq<Byte>>): Reframer
    decreases |deliveries|
  {
    if deliveries == [] then c else OnDeliveries(OnData(c, deliveries[0]), deliveries[1..])
  }

  class PairionAudioCapture {
    var running: bool
    var connected: bool
    var accumulator: seq<Byte>
    var emitted: seq<seq<Byte>>

    function Abs(): Reframer
      reads this
    {
      Reframer(running, connected, accumulator, emitted)
    }

    constructor ()
      ensures Abs() == Init()
    {
      running, connected, accumulator, emitted := false, false, [], [];
    }

    method Start()
      modifies this
      ensures Abs() == Step(old(Abs()), Event.Start)
    {
      if running {
        return;
      }
      connected := true;
      running := true;
    }

    method Stop()
      modifies this
      ensures Abs() == Step(old(Abs()), Event.Stop)
    {
      if !running {
        return;
      }
      running := false;
      connected := false;
      accumulator := [];
    }

    method OnAudioSourceError()
      modifies this
      ensures Abs() == Step(old(Abs()), DeviceError)
    {
      running := false;
    }

    method OnAudioDataReady(data: seq<Byte>)
      modifies this
      ensures Abs() == Step(old(Abs()), Read(data))
    {
      if !connected || data == [] {
        return;
      }
      accumulator := accumulator + data;
      ProcessAccumulator();
    }

    method ProcessAccumulator()
      modifies this
      ensures running == old(running) && connected == old(connected)
      ensures accumulator == Rest(old(accumulator), FRAME_BYTES)
      ensures emitted == old(emitted) + Frames(old(accumulator), FRAME_BYTES)
    {
      while |accumulator| >= FRAME_BYTES
        invariant running == old(running) && connected == old(connected)
        invariant Rest(accumulator, FRAME_BYTES) == Rest(old(accumulator), FRAME_BYTES)
        invariant emitted + Frames(accumulator, FRAME_BYTES) == old(emitted) + Frames(old(accumulator), FRAME_BYTES)
        decreases |accumulator|
      {
        var frame := accumulator[..FRAME_BYTES];
        accumulator := accumulator[FRAME_BYTES..];
        emitted := emitted + [frame];
      }
    }
  }

  /** The frames sent out depend only on the bytes captured, not on how reads split them. */
  lemma {:induction false} DeliveriesReframe(c: Reframer, deliveries: seq<seq<Byte>>)
    requires c.connected && |c.acc| < FRAME_BYTES
    ensures var h := c.acc + Flatten(deliveries);
            OnDeliveries(c, deliveries)
              == c.(acc := Rest(h, FRAME_BYTES), emitted := c.emitted + Frames(h, FRAME_BYTES))
    decreases |deliveries|
  {
    if deliveries == [] {
      assert c.acc + [] == c.acc;
      assert c.emitted + [] == c.emitted;
    } else {
      var h := c.acc + deliveries[0];
      var rest := Flatten(deliveries[1..]);
      FrameCount(h, FRAME_BYTES);
      FramesAppend(h, rest, FRAME_BYTES);
      assert c.acc + Flatten(deliveries) == h + rest;
      if deliveries[0] == [] {
        assert h == c.acc;
      }
      DeliveriesReframe(OnData(c, deliveries[0]), deliveries[1..]);
      assert (c.emitted + Frames(h, FRAME_BYTES)) + Frames(Rest(h, FRAME_BYTES) + rest, FRAME_BYTES)
          == c.emitted + Frames(h + rest, FRAME_BYTES);
    }
  }

  /** The bytes of the mic stream that have left capture in whole frames. */
  function Delivered(mic: seq<Byte>): seq<Byte> {
    mic[..FRAME_BYTES * (|mic| / FRAME_BYTES)]
  }

  lemma {:induction false} FramesFlattenToPrefix(mic: seq<Byte>)
    ensures Flatten(Frames(mic, FRAME_BYTES)) == Delivered(mic)
  {
    FlattenFrames(mic, FRAME_BYTES);
    FrameCount(mic, FRAME_BYTES);
    var f := Flatten(Frames(mic, FRAME_BYTES));
    assert |f| == FRAME_BYTES * (|mic| / FRAME_BYTES);
    assert f == (f + Rest(mic, FRAME_BYTES))[..|f|];
  }

  /** The VAD chunks of the delivered bytes are plain slices of the mic stream. */
  lemma {:induction false} ChunksOfDelivered(mic: seq<Byte>)
    ensures var chunks := Frames(Delivered(mic), V.CHUNK_BYTES);
            && |chunks| == FRAME_BYTES * (|mic| / FRAME_BYTES) / V.CHUNK_BYTES
            && (forall k :: 0 <= k < |chunks| ==>
                  V.CHUNK_BYTES * k + V.CHUNK_BYTES <= |mic|
                  && chunks[k] == mic[V.CHUNK_BYTES * k..V.CHUNK_BYTES * k + V.CHUNK_BYTES])
  {
    var del := Delivered(mic);
    var chunks := Frames(del, V.CHUNK_BYTES);
    FrameCount(del, V.CHUNK_BYTES);
    forall k | 0 <= k < |chunks|
      ensures V.CHUNK_BYTES * k + V.CHUNK_BYTES <= |mic|
              && chunks[k] == mic[V.CHUNK_BYTES * k..V.CHUNK_BYTES * k + V.CHUNK_BYTES]
    {
      FrameAt(del, V.CHUNK_BYTES, k);
    }
  }

  /** Capture and VAD together run the chunks of the delivered bytes, and nothing is lost:
      chunks run, VAD residue and capture residue add up to the mic stream. */
  lemma {:induction false} CaptureIntoVad<R>(m: Model<R>, d: Detector<R>, deliveries: seq<seq<Byte>>)
    requires d.acc == []
    ensures var mic := Flatten(deliveries);
            var c := OnDeliveries(Started(), deliveries);
            var v := ProcessAll(m, d, c.emitted);
            var chunks := Frames(Delivered(mic), V.CHUNK_BYTES);
            && v == RunChunks(m, d, chunks).(acc := Rest(Delivered(mic), V.CHUNK_BYTES))
            && c.acc == Rest(mic, FRAME_BYTES)
            && Flatten(chunks) + v.acc + c.acc == mic
  {
    var mic := Flatten(deliveries);
    var c := OnDeliveries(Started(), deliveries);
    DeliveriesReframe(Started(), deliveries);
    assert [] + mic == mic;
    assert c.emitted == Frames(mic, FRAME_BYTES);
    FramesFlattenToPrefix(mic);
    var del := Delivered(mic);
    ProcessAllFlattens(m, d, c.emitted);
    assert d.acc + del == del;
    RunChunksAcc(m, d, Frames(del, V.CHUNK_BYTES), del);
    FlattenFrames(del, V.CHUNK_BYTES);
    FlattenFrames(mic, FRAME_BYTES);
  }

  /** Framing independence. From a started capture and a detector with an empty accumulator,
      and with no stop or reset, after n captured bytes the VAD has run exactly
      floor(640*floor(n/640)/1024) chunks, chunk k being bytes [1024k, 1024k+1024) of the mic
      stream, whatever the read sizes were; less than a frame waits in capture and less than
      a chunk in the VAD. */
  lemma {:induction false} FramingIndependence<R>(m: Model<R>, d: Detector<R>, deliveries: seq<seq<Byte>>)
    requires d.acc == []
    ensures var mic := Flatten(deliveries);
            var c := OnDeliveries(Started(), deliveries);
            var chunks := Frames(Delivered(mic), V.CHUNK_BYTES);
            var v := ProcessAll(m, d, c.emitted);
            && v == RunChunks(m, d, chunks).(acc := v.acc)
            && v.inferences - d.inferences == 640 * (|mic| / 640) / 1024 == |chunks|
            && (forall k :: 0 <= k < |chunks| ==>
                  1024 * k + 1024 <= |mic|
                  && chunks[k] == mic[1024 * k..1024 * k + 1024])
            && |c.acc| < 640 && |v.acc| < 1024
            && Flatten(chunks) + v.acc + c.acc == mic
  {
    var mic := Flatten(deliveries);
    CaptureIntoVad(m, d, deliveries);
    ChunksOfDelivered(mic);
    RunChunksCount(m, d, Frames(Delivered(mic), V.CHUNK_BYTES));
    FrameCount(mic, FRAME_BYTES);
    FrameCount(Delivered(mic), V.CHUNK_BYTES);
  }

  // ---- starts, stops and device errors ----

  /** The state after the first k events. */
  function At(es: seq<Event>, k: nat): Reframer
    requires k <= |es|
  {
    if k == 0 then Init() else Step(At(es, k - 1), es[k - 1])
  }

  /** Event j stops a running capture. */
  predicate StopsAt(es: seq<Event>, j: int) { 0 <= j < |es| && es[j].Stop? && At(es, j).running }

  predicate StartsAt(es: seq<Event>, j: int) { 0 <= j < |es| && es[j].Start? && !At(es, j).running }

  /** What reads brought among events i..k. */
  function Heard(es: seq<Event>, i: nat, k: nat): seq<Byte>
    requires k <= |es|
    decreases k
  {
    if k <= i then []
    else
      Heard(es, i, k - 1) + if es[k - 1].Read? && At(es, k - 1).connected then es[k - 1].data else []
  }

  /** i is the start, or follows a stop, and nothing has stopped the capture since. */
  ghost predicate UnstoppedFrom(es: seq<Event>, i: int, k: int) {
    0 <= i <= k <= |es| && (i == 0 || StopsAt(es, i - 1)) && forall j :: i <= j < k ==> !StopsAt(es, j)
  }

  /** In every run, starts, stops and device errors anywhere: what has come since the latest stop
      is cut up as one stream. A device error does not end it. */
  lemma {:induction false} CutSinceStop(es: seq<Event>, i: nat, k: nat)
    requires UnstoppedFrom(es, i, k)
    ensures At(es, k).acc == Rest(Heard(es, i, k), FRAME_BYTES)
    ensures At(es, k).emitted == At(es, i).emitted + Frames(Heard(es, i, k), FRAME_BYTES)
    decreases k
  {
    if k == i {
      if i > 0 {
        assert StopsAt(es, i - 1);
      }
    } else {
      assert !StopsAt(es, k - 1);
      CutSinceStop(es, i, k - 1);
      CutStep(At(es, k - 1), At(es, i).emitted, Heard(es, i, k - 1), es[k - 1]);
    }
  }

  lemma {:induction false} CutStep(c: Reframer, before: seq<seq<Byte>>, heard: seq<Byte>, e: Event)
    requires c.acc == Rest(heard, FRAME_BYTES) && c.emitted == before + Frames(heard, FRAME_BYTES)
    requires !(e.Stop? && c.running)
    ensures var heard' := heard + if e.Read? && c.connected then e.data else [];
            && Step(c, e).acc == Rest(heard', FRAME_BYTES)
            && Step(c, e).emitted == before + Frames(heard', FRAME_BYTES)
  {
    assert heard + [] == heard;
    if e.Read? && c.connected && e.data != [] {
      FramesAppend(heard, e.data, FRAME_BYTES);
    }
  }

  /** Whatever is read from now on is cut up from its first byte. */
  ghost predicate CutFromStart(es: seq<Event>, i: nat)
    requires i <= |es|
  {
    forall data: seq<Byte> ::
      OnData(At(es, i), data).emitted == At(es, i).emitted + Frames(data, FRAME_BYTES)
  }

  /** A recording that starts with event i is cut up from its own first byte, whatever it brings,
      exactly when the bytes read since the latest stop, before it, are whole frames. After a stop
      they are none; after a device error they can be any number. */
  lemma {:induction false} CleanStartIff(es: seq<Event>, i: nat, k: nat)
    requires StartsAt(es, k) && UnstoppedFrom(es, i, k)
    ensures CutFromStart(es, k + 1) <==> |Heard(es, i, k)| % FRAME_BYTES == 0
  {
    var heard := Heard(es, i, k);
    var c := At(es, k + 1);
    CutSinceStop(es, i, k);
    FrameCount(heard, FRAME_BYTES);
    if c.acc == [] {
      forall data: seq<Byte> ensures OnData(c, data).emitted == c.emitted + Frames(data, FRAME_BYTES) {
        assert [] + data == data;
      }
    } else {
      var data := seq(FRAME_BYTES - |c.acc|, _ => 0);
      assert |c.acc + data| == FRAME_BYTES;
      assert OnData(c, data).emitted != c.emitted + Frames(data, FRAME_BYTES);
    }
  }

  /** A byte left over when the device fails shifts every frame of the next recording. */
  lemma {:induction false} ErrorShiftsFrames(b: Byte, data: seq<Byte>)
    requires |data| == FRAME_BYTES
    ensures At([Start, Read([b]), DeviceError, Start, Read(data)], 5).emitted == [[b] + data[..FRAME_BYTES - 1]]
  {
    var es := [Start, Read([b]), DeviceError, Start, Read(data)];
    assert At(es, 1) == Started();
    assert At(es, 2) == Reframer(true, true, [b], []);
    assert At(es, 4) == Reframer(true, true, [b], []);
    var h := [b] + data;
    assert h[..FRAME_BYTES] == [b] + data[..FRAME_BYTES - 1];
    assert Frames(h, FRAME_BYTES) == [h[..FRAME_BYTES]];
  }
}
