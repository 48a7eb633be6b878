/** Types shared by every component of the model. */
module Common {

  datatype Option<+T> = None | Some(value: T)

  /** One byte of PCM, of an Opus packet or of a model file. */
  type Byte = b: int | 0 <= b < 256

  /** The concatenation of a list of byte runs. */
  function Flatten<T>(parts: seq<seq<T>>): seq<T> {
    if parts == [] then [] else parts[0] + Flatten(parts[1..])
  }

  lemma {:induction false} FlattenAppend<T>(a: seq<seq<T>>, b: seq<seq<T>>)
    ensures Flatten(a + b) == Flatten(a) + Flatten(b)
  {
    if a == [] {
      assert a + b == b;
    } else {
      var rest := a[1..];
      FlattenAppend(rest, b);
      assert (a + b)[1..] == rest + b;
      assert (a + b)[0] == a[0];
    }
  }

  /** Some event before k started it and none after that one stopped it. */
  ghost predicate Since(starts: int -> bool, stops: int -> bool, k: int) {
    exists i :: SinceAt(starts, stops, i, k)
  }

  ghost predicate SinceAt(starts: int -> bool, stops: int -> bool, i: int, k: int) {
    0 <= i < k && starts(i) && forall j :: i < j < k ==> !stops(j)
  }

  lemma {:induction false} SinceStep(starts: int -> bool, stops: int -> bool, n: nat)
    ensures Since(starts, stops, n + 1) <==> starts(n) || (Since(starts, stops, n) && !stops(n))
  {
    if starts(n) {
      assert SinceAt(starts, stops, n, n + 1);
    }
    if Since(starts, stops, n) && !stops(n) {
      var i :| SinceAt(starts, stops, i, n);
      assert SinceAt(starts, stops, i, n + 1);
    }
    if Since(starts, stops, n + 1) {
      var i :| SinceAt(starts, stops, i, n + 1);
      assert i < n ==> SinceAt(starts, stops, i, n);
    }
  }

  /** v is what the latest event before k that says anything says, or initial if none does. */
  ghost predicate Latest<T(!new)>(says: int -> Option<T>, initial: T, k: int, v: T) {
    (exists i :: LatestAt(says, i, k) && says(i) == Some(v))
    || (v == initial && forall i :: 0 <= i < k ==> says(i).None?)
  }

  ghost predicate LatestAt<T(!new)>(says: int -> Option<T>, i: int, k: int) {
    0 <= i < k && says(i).Some? && forall j :: i < j < k ==> says(j).None?
  }

  lemma {:induction false} LatestStep<T(!new)>(says: int -> Option<T>, initial: T, n: nat, v: T)
    requires Latest(says, initial, n, v)
    ensures Latest(says, initial, n + 1, if says(n).Some? then says(n).value else v)
  {
    if says(n).Some? {
      assert LatestAt(says, n, n + 1);
    } else if i :| LatestAt(says, i, n) && says(i) == Some(v) {
      assert LatestAt(says, i, n + 1);
    }
  }

  /** A step taken n times. */
  function Repeat<S>(f: S -> S, s: S, n: nat): S {
    if n == 0 then s else f(Repeat(f, s, n - 1))
  }

  lemma {:induction false} RepeatKeeps<S(!new)>(p: S -> bool, f: S -> S, s: S, n: nat)
    requires p(s) && forall x :: p(x) ==> p(f(x))
    ensures p(Repeat(f, s, n))
    decreases n
  {
    if n == 0 {
    } else {
      RepeatKeeps(p, f, s, n - 1);
    }
  }
}
