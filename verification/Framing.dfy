/**
  Re-framing of a byte stream. Capture (640-byte frames) and the VAD (1024-byte chunks)
  share one loop: append what arrived, then cut fixed-size pieces off the front.
  Frames and Rest say what that loop leaves; the lemmas tie them to plain indexing.
 */
module Framing {
  import opened Common

  /** The pieces a cutting loop takes from a buffer. */
  function Frames<T>(h: seq<T>, n: nat): seq<seq<T>>
    requires n > 0
  {
    if |h| < n then [] else [h[..n]] + Frames(h[n..], n)
  }

  /** What the cutting loop leaves in the buffer. */
  function Rest<T>(h: seq<T>, n: nat): seq<T>
    requires n > 0
  {
    if |h| < n then h else Rest(h[n..], n)
  }

  lemma MulStrict(n: nat, a: int, b: int)
    requires a < b
    ensures n * a + n <= n * b
  {
    var d := b - a - 1;
    Distribute(n, a, 1 + d);
    Distribute(n, 1, d);
  }

  lemma Distribute(n: int, a: int, b: int)
    ensures n * (a + b) == n * a + n * b
  {
  }

  /** The quotient is the only q with n*q <= x < n*q + n. */
  lemma DivUnique(x: nat, n: nat, q: int)
    requires n > 0 && n * q <= x < n * q + n
    ensures x / n == q
  {
    var p := x / n;
    assert x == n * p + x % n;
    if p < q {
      MulStrict(n, p, q);
    } else if q < p {
      MulStrict(n, q, p);
    }
  }

  lemma DivStep(x: nat, n: nat)
    requires 0 < n <= x
    ensures x / n == (x - n) / n + 1
  {
    var q := (x - n) / n;
    assert x - n == n * q + (x - n) % n;
    assert n * (q + 1) == n * q + n;
    DivUnique(x, n, q + 1);
  }

  /** Plain indexing: piece k of a stream is its bytes [n*k, n*k + n). */
  lemma {:induction false} FrameAt<T>(h: seq<T>, n: nat, k: nat)
    requires n > 0 && k < |Frames(h, n)|
    ensures n * k + n <= |h| && Frames(h, n)[k] == h[n * k..n * k + n]
    decreases |h|
  {
    if k == 0 {
    } else {
      var t := h[n..];
      FrameAt(t, n, k - 1);
      Distribute(n, k - 1, 1);
      assert Frames(h, n)[k] == Frames(t, n)[k - 1];
      assert t[n * (k - 1)..n * (k - 1) + n] == h[n * k..n * k + n];
    }
  }

  /** There are |h| / n pieces, and what is left is everything after the last of them,
      always less than one piece. */
  lemma {:induction false} FrameCount<T>(h: seq<T>, n: nat)
    requires n > 0
    ensures |Frames(h, n)| == |h| / n
    ensures n * |Frames(h, n)| <= |h| && Rest(h, n) == h[n * |Frames(h, n)|..]
    ensures |Rest(h, n)| < n
    decreases |h|
  {
    if |h| < n {
      DivUnique(|h|, n, 0);
    } else {
      var t := h[n..];
      FrameCount(t, n);
      DivStep(|h|, n);
      var q := |Frames(t, n)|;
      Distribute(n, q, 1);
      assert t[n * q..] == h[n * q + n..];
    }
  }

  /** Cutting as data arrives is cutting the whole stream at once. */
  lemma {:induction false} FramesAppend<T>(h: seq<T>, d: seq<T>, n: nat)
    requires n > 0
    ensures Frames(h + d, n) == Frames(h, n) + Frames(Rest(h, n) + d, n)
    ensures Rest(h + d, n) == Rest(Rest(h, n) + d, n)
    decreases |h|
  {
    if |h| < n {
    } else {
      var t := h[n..];
      assert (h + d)[..n] == h[..n] && (h + d)[n..] == t + d;
      FramesAppend(t, d, n);
      assert [h[..n]] + (Frames(t, n) + Frames(Rest(t, n) + d, n)) == Frames(h, n) + Frames(Rest(h, n) + d, n);
    }
  }

  lemma FlattenCons<T>(part: seq<T>, parts: seq<seq<T>>)
    ensures Flatten([part] + parts) == part + Flatten(parts)
  {
    assert ([part] + parts)[1..] == parts;
  }

  /** Gluing the pieces back gives the stream without its last partial piece. */
  lemma {:induction false} FlattenFrames<T>(h: seq<T>, n: nat)
    requires n > 0
    ensures Flatten(Frames(h, n)) + Rest(h, n) == h
    decreases |h|
  {
    if |h| < n {
    } else {
      var t := h[n..];
      FlattenFrames(t, n);
      FlattenCons(h[..n], Frames(t, n));
      assert h[..n] + Flatten(Frames(t, n)) + Rest(t, n) == h[..n] + t;
    }
  }

  /** Pieces that already have the right size are cut back into themselves. */
  lemma {:induction false} FramesOfFlatten<T>(parts: seq<seq<T>>, n: nat)
    requires n > 0
    requires forall p :: p in parts ==> |p| == n
    ensures Frames(Flatten(parts), n) == parts && Rest(Flatten(parts), n) == []
    decreases |parts|
  {
    if parts == [] {
    } else {
      var rest := parts[1..];
      FramesOfFlatten(rest, n);
      var h := Flatten(parts);
      assert h[..n] == parts[0];
      assert h[n..] == Flatten(rest);
      assert parts == [parts[0]] + rest;
    }
  }

  lemma {:induction false} FlattenLength<T>(parts: seq<seq<T>>, n: nat)
    requires forall p :: p in parts ==> |p| == n
    ensures |Flatten(parts)| == n * |parts|
  {
    if parts == [] {
    } else {
      FlattenLength(parts[1..], n);
      Distribute(n, |parts[1..]|, 1);
    }
  }
}
