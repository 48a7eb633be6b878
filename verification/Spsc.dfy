/**
  The ring buffer under one producer and one consumer, as interleaved atomic steps. Every
  access to an index or a slot is a step of its own. A side reads its own index exactly; a
  load of the other side's index may return any value published since that side's last load
  of it (coherence of one atomic object, [intro.races] of ISO/IEC 14882:2020), which is what
  an acquire load of a release store allows ([atomics.order]). Slots are plain memory.
 */
module Spsc {
  import opened Framing
  import opened Bits

  datatype Producer<T> =
    | Ready
    | Checking(item: T, w: nat)               // own index loaded, about to load the other
    | Writing(item: T, w: nat, next: nat)     // not full, about to write slot w
    | Storing(item: T, next: nat)             // slot written, about to publish next

  datatype Consumer<T> =
    | Waiting
    | Comparing(r: nat)                       // own index loaded, about to load the other
    | Reading(r: nat)                         // not empty, about to read slot r
    | Releasing(r: nat, item: T)              // slot read, about to publish r + 1

  /** writeIdxs and readIdxs are the values ever published for the two indices, oldest first;
      readsSeen and writesSeen are how far each side's last load of the other's index got.
      pushed and popped are what the successful calls took in and handed out. */
  datatype Buffer<T> = Buffer(
    data: seq<T>, writeIdxs: seq<nat>, readIdxs: seq<nat>, readsSeen: nat, writesSeen: nat,
    producer: Producer<T>, consumer: Consumer<T>, pushed: seq<T>, popped: seq<T>)

  datatype Action<T> =
    | Push(item: T)
    | LoadReadIdx(version: nat)
    | WriteSlot
    | StoreWriteIdx
    | Pop
    | LoadWriteIdx(version: nat)
    | ReadSlot(movedFrom: T)
    | StoreReadIdx

  function Last<T>(s: seq<T>): T
    requires s != []
  {
    s[|s| - 1]
  }

  function Init<T>(slots: seq<T>): Buffer<T> {
    Buffer(slots, [0], [0], 0, 0, Ready, Waiting, [], [])
  }

  predicate Shaped<T>(b: Buffer<T>) {
    b.writeIdxs != [] && b.readIdxs != []
  }

  /** One atomic step. An action that is not that side's next one changes nothing. ReadSlot
      moves the element out and leaves an arbitrary value behind. */
  function Step<T>(mask: nat, b: Buffer<T>, a: Action<T>): (b': Buffer<T>)
    requires Shaped(b)
    ensures Shaped(b')
  {
    match (a, b.producer, b.consumer)
    case (Push(item), Ready, _) => b.(producer := Checking(item, Last(b.writeIdxs)))
    case (LoadReadIdx(v), Checking(item, w), _) =>
      if !(b.readsSeen <= v < |b.readIdxs|) then b
      else
        var next := And(w + 1, mask);
        b.(readsSeen := v,
           producer := if next == b.readIdxs[v] then Ready else Writing(item, w, next))
    case (WriteSlot, Writing(item, w, next), _) =>
      if w < |b.data| then b.(data := b.data[w := item], producer := Storing(item, next)) else b
    case (StoreWriteIdx, Storing(item, next), _) =>
      b.(writeIdxs := b.writeIdxs + [next], pushed := b.pushed + [item], producer := Ready)
    case (Pop, _, Waiting) => b.(consumer := Comparing(Last(b.readIdxs)))
    case (LoadWriteIdx(v), _, Comparing(r)) =>
      if !(b.writesSeen <= v < |b.writeIdxs|) then b
      else b.(writesSeen := v, consumer := if r == b.writeIdxs[v] then Waiting else Reading(r))
    case (ReadSlot(junk), _, Reading(r)) =>
      if r < |b.data| then b.(data := b.data[r := junk], consumer := Releasing(r, b.data[r])) else b
    case (StoreReadIdx, _, Releasing(r, item)) =>
      b.(readIdxs := b.readIdxs + [And(r + 1, mask)], popped := b.popped + [item], consumer := Waiting)
    case _ => b
  }

  function Run<T>(mask: nat, slots: seq<T>, acts: seq<Action<T>>): (b: Buffer<T>)
    ensures Shaped(b)
  {
    if acts == [] then Init(slots)
    else Step(mask, Run(mask, slots, acts[..|acts| - 1]), acts[|acts| - 1])
  }

  // ---- circular indices against running counts ----

  lemma {:induction false} NextMod(i: nat, n: nat)
    requires n > 0
    ensures (i % n + 1) % n == (i + 1) % n
  {
    var q, r := i / n, i % n;
    assert i == n * q + r;
    if r + 1 < n {
      ModUnique(i + 1, n, q, r + 1);
      SmallMod(r + 1, n);
    } else {
      Distribute(n, q, 1);
      ModUnique(i + 1, n, q + 1, 0);
      ModUnique(r + 1, n, 1, 0);
    }
  }

  /** Counts less than a lap apart share a slot only if they are equal. */
  lemma {:induction false} SameSlot(a: nat, b: nat, n: nat)
    requires n > 0 && a <= b < a + n
    ensures a % n == b % n <==> a == b
  {
    if a % n == b % n {
      var p, q := a / n, b / n;
      assert a == n * p + a % n && b == n * q + b % n;
      if p < q {
        MulStrict(n, p, q);
      } else if q < p {
        MulStrict(n, q, p);
      }
    }
  }

  // ---- the invariant ----

  ghost predicate Published(idx: seq<nat>, count: nat, n: nat)
    requires n > 0
  {
    |idx| == count + 1 && forall i :: 0 <= i <= count ==> idx[i] == i % n
  }

  /** Elements from position lo to hi of the pushed sequence sit in their slots. */
  ghost predicate Stored<T>(b: Buffer<T>, lo: nat, hi: nat, n: nat)
    requires n > 0 && |b.data| == n && hi <= |b.pushed|
  {
    forall i :: lo <= i < hi ==> b.data[i % n] == b.pushed[i]
  }

  ghost predicate Counts<T>(b: Buffer<T>, n: nat)
    requires n > 0
  {
    var np, nc := |b.pushed|, |b.popped|;
    && |b.data| == n
    && Published(b.writeIdxs, np, n) && Published(b.readIdxs, nc, n)
    && nc <= np < nc + n
    && b.readsSeen <= nc && np < b.readsSeen + n
    && nc <= b.writesSeen <= np
    && b.popped == b.pushed[..nc]
  }

  ghost predicate ProducerOk<T>(b: Buffer<T>, n: nat)
    requires n > 0 && |b.data| == n
  {
    var np := |b.pushed|;
    match b.producer
    case Ready => true
    case Checking(_, w) => w == np % n
    case Writing(_, w, next) => w == np % n && next == (np + 1) % n && np + 1 < b.readsSeen + n
    case Storing(item, next) => next == (np + 1) % n && np + 1 < b.readsSeen + n && b.data[np % n] == item
  }

  ghost predicate ConsumerOk<T>(b: Buffer<T>, n: nat)
    requires n > 0 && |b.data| == n
  {
    var nc := |b.popped|;
    match b.consumer
    case Waiting => true
    case Comparing(r) => r == nc % n
    case Reading(r) => r == nc % n && nc < b.writesSeen
    case Releasing(r, item) => r == nc % n && nc < b.writesSeen && nc < |b.pushed| && item == b.pushed[nc]
  }

  /** The first element still in its slot. */
  function FirstStored<T>(b: Buffer<T>): nat {
    if b.consumer.Releasing? then |b.popped| + 1 else |b.popped|
  }

  ghost predicate Inv<T>(b: Buffer<T>, n: nat)
    requires n > 0
  {
    Counts(b, n) && ProducerOk(b, n) && ConsumerOk(b, n) && Stored(b, FirstStored(b), |b.pushed|, n)
  }

  lemma {:induction false} MaskedNext(i: nat, k: nat)
    ensures And(i % Pow2(k) + 1, Pow2(k) - 1) == (i + 1) % Pow2(k)
  {
    MaskIsMod(i % Pow2(k) + 1, k);
    NextMod(i, Pow2(k));
  }

  /** The full test compares masked indices, and is true exactly when, counting the pops the
      producer has seen, capacity - 1 elements are queued. */
  lemma {:induction false} FullTest<T>(b: Buffer<T>, k: nat, v: nat)
    requires Inv(b, Pow2(k)) && b.readsSeen <= v < |b.readIdxs|
    ensures And(|b.pushed| % Pow2(k) + 1, Pow2(k) - 1) == b.readIdxs[v] <==> |b.pushed| - v == Pow2(k) - 1
  {
    var n := Pow2(k);
    assert b.readIdxs[v] == v % n;
    FullCounts(k, |b.pushed|, v);
  }

  lemma {:induction false} EmptyTest<T>(b: Buffer<T>, n: nat, v: nat)
    requires n > 0 && Inv(b, n) && b.writesSeen <= v < |b.writeIdxs|
    ensures |b.popped| % n == b.writeIdxs[v] <==> v == |b.popped|
  {
    SameSlot(|b.popped|, v, n);
  }

  /** Where the producer writes, no element is waiting, and the consumer is not reading. */
  lemma {:induction false} SlotIsFree<T>(b: Buffer<T>, n: nat)
    requires n > 0 && Inv(b, n) && |b.pushed| + 1 < b.readsSeen + n
    ensures forall i :: |b.popped| <= i < |b.pushed| ==> i % n != |b.pushed| % n
  {
    forall i | |b.popped| <= i < |b.pushed| ensures i % n != |b.pushed| % n {
      SameSlot(i, |b.pushed|, n);
    }
  }

  lemma {:induction false} ReadSlotKeeps<T>(b: Buffer<T>, n: nat, junk: T)
    requires n > 0 && Inv(b, n) && b.consumer.Reading?
    ensures var r := b.consumer.r;
            Inv(b.(data := b.data[r := junk], consumer := Releasing(r, b.data[r])), n)
  {
    var nc, np := |b.popped|, |b.pushed|;
    forall i | nc < i < np ensures i % n != nc % n {
      SameSlot(nc, i, n);
    }
    if b.producer.Storing? {
      SameSlot(nc, np, n);
    }
  }

  lemma {:induction false} LoadReadKeeps<T>(k: nat, b: Buffer<T>, v: nat)
    requires Inv(b, Pow2(k)) && b.producer.Checking? && b.readsSeen <= v < |b.readIdxs|
    ensures Inv(Step(Pow2(k) - 1, b, LoadReadIdx(v)), Pow2(k))
  {
    FullTest(b, k, v);
    MaskedNext(|b.pushed|, k);
  }

  lemma {:induction false} WriteKeeps<T>(n: nat, b: Buffer<T>)
    requires n > 0 && Inv(b, n) && b.producer.Writing?
    ensures Inv(Step(n - 1, b, WriteSlot), n)
  {
    SlotIsFree(b, n);
  }

  lemma {:induction false} StoreWriteKeeps<T>(n: nat, b: Buffer<T>)
    requires n > 0 && Inv(b, n) && b.producer.Storing?
    ensures Inv(Step(n - 1, b, StoreWriteIdx), n)
  {
    SlotIsFree(b, n);
  }

  lemma {:induction false} ProducerStepKeeps<T>(k: nat, b: Buffer<T>, a: Action<T>)
    requires Inv(b, Pow2(k)) && (a.Push? || a.LoadReadIdx? || a.WriteSlot? || a.StoreWriteIdx?)
    ensures Inv(Step(Pow2(k) - 1, b, a), Pow2(k))
  {
    if a.LoadReadIdx? && b.producer.Checking? && b.readsSeen <= a.version < |b.readIdxs| {
      LoadReadKeeps(k, b, a.version);
    } else if a.WriteSlot? && b.producer.Writing? {
      WriteKeeps(Pow2(k), b);
    } else if a.StoreWriteIdx? && b.producer.Storing? {
      StoreWriteKeeps(Pow2(k), b);
    }
  }

  lemma {:induction false} ConsumerStepKeeps<T>(k: nat, b: Buffer<T>, a: Action<T>)
    requires Inv(b, Pow2(k)) && (a.Pop? || a.LoadWriteIdx? || a.ReadSlot? || a.StoreReadIdx?)
    ensures Inv(Step(Pow2(k) - 1, b, a), Pow2(k))
  {
    var n := Pow2(k);
    match (a, b.consumer)
    case (LoadWriteIdx(v), Comparing(_)) =>
      if b.writesSeen <= v < |b.writeIdxs| {
        EmptyTest(b, n, v);
      }
    case (ReadSlot(junk), Reading(_)) =>
      ReadSlotKeeps(b, n, junk);
    case (StoreReadIdx, Releasing(_, _)) =>
      MaskedNext(|b.popped|, k);
    case _ =>
  }

  lemma {:induction false} RunKeeps<T>(k: nat, slots: seq<T>, acts: seq<Action<T>>)
    requires |slots| == Pow2(k)
    ensures Inv(Run(Pow2(k) - 1, slots, acts), Pow2(k))
    decreases |acts|
  {
    var n := Pow2(k);
    if acts == [] {
      SmallMod(0, n);
    } else {
      var b := Run(n - 1, slots, acts[..|acts| - 1]);
      var a := acts[|acts| - 1];
      RunKeeps(k, slots, acts[..|acts| - 1]);
      if a.Push? || a.LoadReadIdx? || a.WriteSlot? || a.StoreWriteIdx? {
        ProducerStepKeeps(k, b, a);
      } else {
        ConsumerStepKeeps(k, b, a);
      }
    }
  }

  // ---- what the invariant says about every interleaving ----

  /** The abstract queue: pushed and not yet popped. */
  function Queue<T>(b: Buffer<T>): seq<T>
    requires |b.popped| <= |b.pushed|
  {
    b.pushed[|b.popped|..]
  }

  /** For every capacity 2^k, every interleaving and every stale load: pops come out in push
      order, at most capacity - 1 elements are held, and the slot being written is never the
      slot being read. The element last in the slot being written was released by a pop the
      producer has seen, and the element being read was published by a push the consumer has
      seen, so each plain access is ordered after the other side's. */
  lemma {:induction false} EveryInterleaving<T>(k: nat, slots: seq<T>, acts: seq<Action<T>>)
    requires |slots| == Pow2(k)
    ensures var b := Run(Pow2(k) - 1, slots, acts);
            && b.popped <= b.pushed
            && |b.pushed| - |b.popped| <= Pow2(k) - 1
            && (b.producer.Writing? && b.consumer.Reading? ==> b.producer.w != b.consumer.r)
            && (b.producer.Writing? ==> b.producer.w < |b.data| && |b.pushed| < b.readsSeen + Pow2(k) - 1)
            && (b.consumer.Reading? ==> b.consumer.r < |b.data| && |b.popped| < b.writesSeen <= |b.pushed|
                                        && b.data[b.consumer.r] == b.pushed[|b.popped|])
  {
    RunKeeps(k, slots, acts);
    var b := Run(Pow2(k) - 1, slots, acts);
    if b.producer.Writing? && b.consumer.Reading? {
      SlotIsFree(b, Pow2(k));
    }
  }

  /** From b to b' nothing happened, an element was appended to a queue that was not full, or
      the head of a non-empty queue was removed and handed out. */
  ghost predicate FifoStep<T>(b: Buffer<T>, b': Buffer<T>, capacity: nat)
    requires |b.popped| <= |b.pushed| && |b'.popped| <= |b'.pushed|
  {
    || (b'.pushed == b.pushed && b'.popped == b.popped)
    || (b.producer.Storing? && b'.popped == b.popped
        && |Queue(b)| < capacity - 1 && Queue(b') == Queue(b) + [b.producer.item])
    || (b.consumer.Releasing? && b'.pushed == b.pushed && Queue(b) != []
        && Queue(b') == Queue(b)[1..] && b'.popped == b.popped + [Queue(b)[0]])
  }

  /** A step of the queue, in which only publishing an index appends or removes. */
  ghost predicate Refines<T>(b: Buffer<T>, a: Action<T>, b': Buffer<T>, capacity: nat) {
    && |b.popped| <= |b.pushed| && |b'.popped| <= |b'.pushed| && FifoStep(b, b', capacity)
    && (b'.pushed != b.pushed ==> a.StoreWriteIdx?) && (b'.popped != b.popped ==> a.StoreReadIdx?)
  }

  lemma {:induction false} StepIsFifo<T>(n: nat, b: Buffer<T>, a: Action<T>)
    requires n > 0 && Inv(b, n) && Inv(Step(n - 1, b, a), n)
    ensures Refines(b, a, Step(n - 1, b, a), n)
  {
    var b' := Step(n - 1, b, a);
    if a.StoreWriteIdx? && b.producer.Storing? {
      assert Queue(b') == Queue(b) + [b.producer.item];
    } else if a.StoreReadIdx? && b.consumer.Releasing? {
      assert Queue(b') == Queue(b)[1..];
    }
  }

  /** Every step is a stutter, an append to a queue that is not full, or the removal of the
      head of a non-empty one, handed to the caller: the buffer refines a bounded FIFO. */
  lemma {:induction false} RefinesBoundedFifo<T>(k: nat, slots: seq<T>, acts: seq<Action<T>>, a: Action<T>)
    requires |slots| == Pow2(k)
    ensures Refines(Run(Pow2(k) - 1, slots, acts), a, Run(Pow2(k) - 1, slots, acts + [a]), Pow2(k))
  {
    RunSnoc(Pow2(k) - 1, slots, acts, a);
    RunKeeps(k, slots, acts);
    RunKeeps(k, slots, acts + [a]);
    StepIsFifo(Pow2(k), Run(Pow2(k) - 1, slots, acts), a);
  }

  /** A push gives up exactly when the queue, counted with the pops it has seen, is full; on
      an up-to-date load that is the queue itself. */
  lemma {:induction false} FailedPushIsHonest<T>(k: nat, slots: seq<T>, acts: seq<Action<T>>, v: nat)
    requires |slots| == Pow2(k)
    requires var b := Run(Pow2(k) - 1, slots, acts);
             b.producer.Checking? && b.readsSeen <= v < |b.readIdxs|
    ensures var b := Run(Pow2(k) - 1, slots, acts);
            var gaveUp := Step(Pow2(k) - 1, b, LoadReadIdx(v)).producer.Ready?;
            && |b.popped| <= |b.pushed|
            && (gaveUp <==> |b.pushed| - v == Pow2(k) - 1)
            && (v == |b.readIdxs| - 1 ==> (gaveUp <==> |Queue(b)| == Pow2(k) - 1))
  {
    RunKeeps(k, slots, acts);
    FullTest(Run(Pow2(k) - 1, slots, acts), k, v);
  }

  /** A pop gives up exactly when every push it has seen is popped; on an up-to-date load that
      is an empty queue. */
  lemma {:induction false} FailedPopIsHonest<T>(k: nat, slots: seq<T>, acts: seq<Action<T>>, v: nat)
    requires |slots| == Pow2(k)
    requires var b := Run(Pow2(k) - 1, slots, acts);
             b.consumer.Comparing? && b.writesSeen <= v < |b.writeIdxs|
    ensures var b := Run(Pow2(k) - 1, slots, acts);
            var gaveUp := Step(Pow2(k) - 1, b, LoadWriteIdx(v)).consumer.Waiting?;
            && |b.popped| <= |b.pushed|
            && (gaveUp <==> v == |b.popped|)
            && (v == |b.writeIdxs| - 1 ==> (gaveUp <==> Queue(b) == []))
  {
    RunKeeps(k, slots, acts);
    EmptyTest(Run(Pow2(k) - 1, slots, acts), Pow2(k), v);
  }

  // ---- size, isEmpty and isFull ----

  function SizeOf(w: nat, r: nat, mask: nat): nat { And(WordSub(w, r), mask) }

  predicate EmptyOf(w: nat, r: nat) { r == w }

  predicate FullOf(w: nat, r: nat, mask: nat) { And(w + 1, mask) == r }

  /** For counts less than a lap apart, the masked queries are queries about their difference. */
  lemma {:induction false} QueriesCount(k: nat, wc: nat, rc: nat)
    requires k < WORD_BITS && rc <= wc < rc + Pow2(k)
    ensures var n := Pow2(k);
            && SizeOf(wc % n, rc % n, n - 1) == wc - rc
            && (EmptyOf(wc % n, rc % n) <==> wc == rc)
            && (FullOf(wc % n, rc % n, n - 1) <==> wc - rc == n - 1)
  {
    var n := Pow2(k);
    MaskedDifference(wc % n, rc % n, k);
    AheadIsDifference(wc, rc, n);
    SameSlot(rc, wc, n);
    FullCounts(k, wc, rc);
  }

  lemma {:induction false} FullCounts(k: nat, wc: nat, rc: nat)
    requires rc <= wc < rc + Pow2(k)
    ensures FullOf(wc % Pow2(k), rc % Pow2(k), Pow2(k) - 1) <==> wc - rc == Pow2(k) - 1
  {
    MaskedNext(wc, k);
    if wc + 1 < rc + Pow2(k) {
      SameSlot(rc, wc + 1, Pow2(k));
    } else {
      ModShift(rc, Pow2(k));
    }
  }

  lemma {:induction false} AheadIsDifference(wc: nat, rc: nat, n: nat)
    requires n > 0 && rc <= wc < rc + n
    ensures Ahead(wc % n, rc % n, n) == wc - rc
  {
    var q, r := rc / n, rc % n;
    assert rc == n * q + r;
    var d := wc - rc;
    if r + d < n {
      ModUnique(wc, n, q, r + d);
    } else {
      Distribute(n, q, 1);
      ModUnique(wc, n, q + 1, r + d - n);
    }
  }

  /** Called from either side, the queries return the length or status of the queue counted
      with what that side has seen of the other's index; that is the length of the queue itself
      exactly on an up-to-date load. The caller's own index cannot move between its two loads. */
  lemma {:induction false} QueriesAreExact<T>(k: nat, slots: seq<T>, acts: seq<Action<T>>, v: nat)
    requires |slots| == Pow2(k) && k < WORD_BITS
    ensures var mask := Pow2(k) - 1;
            var b := Run(mask, slots, acts);
            && |b.popped| <= |b.pushed|
            && (b.readsSeen <= v < |b.readIdxs| ==>
                  var w := Last(b.writeIdxs);
                  var r := b.readIdxs[v];
                  && SizeOf(w, r, mask) == |b.pushed| - v >= |Queue(b)|
                  && (EmptyOf(w, r) <==> |b.pushed| == v)
                  && (FullOf(w, r, mask) <==> |b.pushed| - v == mask)
                  && (SizeOf(w, r, mask) == |Queue(b)| <==> v == |b.readIdxs| - 1))
            && (b.writesSeen <= v < |b.writeIdxs| ==>
                  var w := b.writeIdxs[v];
                  var r := Last(b.readIdxs);
                  && SizeOf(w, r, mask) == v - |b.popped| <= |Queue(b)|
                  && (EmptyOf(w, r) <==> v == |b.popped|)
                  && (FullOf(w, r, mask) <==> v - |b.popped| == mask)
                  && (SizeOf(w, r, mask) == |Queue(b)| <==> v == |b.writeIdxs| - 1))
  {
    RunKeeps(k, slots, acts);
    var b := Run(Pow2(k) - 1, slots, acts);
    if b.readsSeen <= v < |b.readIdxs| {
      QueriesCount(k, |b.pushed|, v);
    }
    if b.writesSeen <= v < |b.writeIdxs| {
      QueriesCount(k, v, |b.popped|);
    }
  }

  // ---- a third thread ----

  lemma StepPops<T>(mask: nat, b: Buffer<T>, a: Action<T>)
    requires Shaped(b)
    ensures |Step(mask, b, a).popped| >= |b.popped|
  {
  }

  lemma {:induction false} PopsGrow<T>(mask: nat, slots: seq<T>, acts: seq<Action<T>>, more: seq<Action<T>>)
    ensures |Run(mask, slots, acts).popped| <= |Run(mask, slots, acts + more).popped|
    decreases |more|
  {
    if more == [] {
      assert acts + more == acts;
    } else {
      var init := more[..|more| - 1];
      assert acts + more == (acts + init) + [more[|more| - 1]];
      PopsGrow(mask, slots, acts, init);
      RunSnoc(mask, slots, acts + init, more[|more| - 1]);
      StepPops(mask, Run(mask, slots, acts + init), more[|more| - 1]);
    }
  }

  lemma {:induction false} AddLaps(x: nat, n: nat, d: nat)
    requires n > 0
    ensures x % n == (x + d) % n <==> d % n == 0
  {
    assert x == n * (x / n) + x % n && d == n * (d / n) + d % n;
    Distribute(n, x / n, d / n);
    var r := x % n + d % n;
    if r < n {
      ModUnique(x + d, n, x / n + d / n, r);
    } else {
      Distribute(n, x / n + d / n, 1);
      ModUnique(x + d, n, x / n + d / n + 1, r - n);
    }
  }

  /** The circular distance does not change exactly when the reader goes round whole laps. */
  lemma AheadAgrees(w: nat, r: nat, r': nat, n: nat)
    requires w < n && r < n && r' < n
    ensures Ahead(w, r, n) == Ahead(w, r', n) <==> r == r'
  {
  }

  /** The published indices are the running counts, masked. */
  lemma {:induction false} RunIndices<T>(k: nat, slots: seq<T>, acts: seq<Action<T>>)
    requires |slots| == Pow2(k)
    ensures Indexed(Run(Pow2(k) - 1, slots, acts), Pow2(k))
  {
    RunKeeps(k, slots, acts);
  }

  ghost predicate Indexed<T>(b: Buffer<T>, n: nat)
    requires n > 0
  {
    && Shaped(b) && |b.popped| <= |b.pushed| < |b.popped| + n
    && Last(b.writeIdxs) == |b.pushed| % n && Last(b.readIdxs) == |b.popped| % n
  }

  /** The write index of b and the read index of b' give the length of the queue at b exactly when
      the pops completed from b to b' are a multiple of the capacity. */
  ghost predicate ReadsLengthIff<T>(b: Buffer<T>, b': Buffer<T>, n: nat)
    requires n > 0
  {
    && Shaped(b) && Shaped(b') && |b.popped| <= |b.pushed| && |b.popped| <= |b'.popped|
    && (SizeOf(Last(b.writeIdxs), Last(b'.readIdxs), n - 1) == |Queue(b)|
        <==> (|b'.popped| - |b.popped|) % n == 0)
  }

  lemma {:induction false} ObserverReads<T>(k: nat, b: Buffer<T>, b': Buffer<T>)
    requires k < WORD_BITS && Indexed(b, Pow2(k)) && Indexed(b', Pow2(k)) && |b.popped| <= |b'.popped|
    ensures ReadsLengthIff(b, b', Pow2(k))
  {
    ObserverCounts(k, |b.pushed|, |b.popped|, |b'.popped|);
  }

  /** For every capacity 2^k and every interleaving: a third thread that loads the write index
      after some actions and the read index after some more, both up to date, gets the length
      of the queue at its first load exactly when the pops completed in between are a multiple
      of the capacity. */
  lemma {:induction false} ObserverIff<T>(k: nat, slots: seq<T>, acts: seq<Action<T>>, more: seq<Action<T>>)
    requires |slots| == Pow2(k) && k < WORD_BITS
    ensures ReadsLengthIff(Run(Pow2(k) - 1, slots, acts), Run(Pow2(k) - 1, slots, acts + more), Pow2(k))
  {
    RunIndices(k, slots, acts);
    RunIndices(k, slots, acts + more);
    PopsGrow(Pow2(k) - 1, slots, acts, more);
    ObserverReads(k, Run(Pow2(k) - 1, slots, acts), Run(Pow2(k) - 1, slots, acts + more));
  }

  lemma {:induction false} ObserverCounts(k: nat, wc: nat, rc: nat, rc': nat)
    requires k < WORD_BITS && rc <= wc < rc + Pow2(k) && rc <= rc'
    ensures SizeOf(wc % Pow2(k), rc' % Pow2(k), Pow2(k) - 1) == wc - rc <==> (rc' - rc) % Pow2(k) == 0
  {
    var n := Pow2(k);
    MaskedDifference(wc % n, rc' % n, k);
    AheadIsDifference(wc, rc, n);
    AheadAgrees(wc % n, rc % n, rc' % n, n);
    AddLaps(rc, n, rc' - rc);
  }

  function PushOne<T>(item: T): seq<Action<T>> { [Push(item), LoadReadIdx(0), WriteSlot, StoreWriteIdx] }

  lemma {:induction false} NextOfZero(k: nat)
    requires k >= 1
    ensures And(0 + 1, Pow2(k) - 1) == 1 && Pow2(k) >= 2
  {
    MaskIsMod(1, k);
    SmallMod(1, Pow2(k));
  }

  lemma {:induction false} PushOneRun<T>(k: nat, slots: seq<T>, item: T)
    requires k >= 1 && |slots| == Pow2(k)
    ensures Run(Pow2(k) - 1, slots, PushOne(item))
         == Buffer(slots[0 := item], [0, 1], [0], 0, 0, Ready, Waiting, [item], [])
  {
    var mask := Pow2(k) - 1;
    var a1 := [Push(item)];
    var a2 := a1 + [LoadReadIdx(0)];
    var a3 := a2 + [WriteSlot];
    NextOfZero(k);
    RunSnoc(mask, slots, [], Push(item));
    assert [] + a1 == a1;
    RunSnoc(mask, slots, a1, LoadReadIdx(0));
    RunSnoc(mask, slots, a2, WriteSlot);
    RunSnoc(mask, slots, a3, StoreWriteIdx);
    assert a3 + [StoreWriteIdx] == PushOne(item);
  }

  function PopOne<T>(junk: T): seq<Action<T>> { [Pop, LoadWriteIdx(1), ReadSlot(junk), StoreReadIdx] }

  lemma {:induction false} PopOneRun<T>(k: nat, slots: seq<T>, item: T, junk: T)
    requires k >= 1 && |slots| == Pow2(k)
    ensures Run(Pow2(k) - 1, slots, PushOne(item) + PopOne(junk))
         == Buffer(slots[0 := junk], [0, 1], [0, 1], 0, 1, Ready, Waiting, [item], [item])
  {
    var mask := Pow2(k) - 1;
    var a4 := PushOne(item);
    var a5 := a4 + [Pop];
    var a6 := a5 + [LoadWriteIdx(1)];
    var a7 := a6 + [ReadSlot(junk)];
    PushOneRun(k, slots, item);
    NextOfZero(k);
    RunSnoc(mask, slots, a4, Pop);
    RunSnoc(mask, slots, a5, LoadWriteIdx(1));
    RunSnoc(mask, slots, a6, ReadSlot(junk));
    RunSnoc(mask, slots, a7, StoreReadIdx);
    assert a7 + [StoreReadIdx] == PushOne(item) + PopOne(junk);
  }

  /** For every capacity from 2 on: loading the write index before and the read index after one
      push and one pop reports capacity - 1, though the queue never held more than one element. */
  lemma {:induction false} ObserverMiscounts<T>(k: nat, slots: seq<T>, item: T, junk: T)
    requires 1 <= k < WORD_BITS && |slots| == Pow2(k)
    ensures var b := Run(Pow2(k) - 1, slots, PushOne(item) + PopOne(junk));
            && b.pushed == b.popped == [item]
            && SizeOf(Last(Init(slots).writeIdxs), Last(b.readIdxs), Pow2(k) - 1) == Pow2(k) - 1
  {
    PopOneRun(k, slots, item, junk);
    NextOfZero(k);
    MaskedDifference(0, 1, k);
  }

  lemma {:induction false} RunSnoc<T>(mask: nat, slots: seq<T>, acts: seq<Action<T>>, a: Action<T>)
    ensures Run(mask, slots, acts + [a]) == Step(mask, Run(mask, slots, acts), a)
  {
    assert (acts + [a])[..|acts|] == acts;
  }
}
