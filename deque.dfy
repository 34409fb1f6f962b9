/**
 * The semantics of a Python `collections.deque` created with a `maxlen`, as far as the
 * telemetry buffers use it: `append` and `extend` on the right, eviction on the left.
 * A deque is modelled by the sequence of its elements, oldest first.
 */
module Deque {

  function Min(a: int, b: int): (m: int) {
    if a <= b then a else b
  }

  /** The newest `maxLen` elements of `s`, in their order (all of `s` when it is shorter). */
  function Keep<T>(s: seq<T>, maxLen: nat): (r: seq<T>) {
    if |s| <= maxLen then s else s[|s| - maxLen..]
  }

  /**
   * `d.append(x)` on a deque whose elements are `s`: `x` becomes the newest element
   * and, when the deque already held `maxLen` elements, the oldest one is dropped.
   */
  function Append<T>(s: seq<T>, x: T, maxLen: nat): (r: seq<T>)
    ensures |r| <= maxLen
    ensures 0 < maxLen ==> 0 < |r| && r[|r| - 1] == x
  {
    Keep(s + [x], maxLen)
  }

  /** `d.extend(xs)`: the elements of `xs` appended one after another, leftmost first. */
  function Extend<T>(s: seq<T>, xs: seq<T>, maxLen: nat): (r: seq<T>)
    ensures |s| <= maxLen ==> |r| <= maxLen
    ensures 0 < |xs| && 0 < maxLen ==> 0 < |r| && r[|r| - 1] == xs[|xs| - 1]
    decreases |xs|
  {
    if xs == [] then s else Extend(Append(s, xs[0], maxLen), xs[1..], maxLen)
  }

  /** A bounded deque holds a suffix of what was added: the newest `min(|s|, maxLen)`. */
  lemma KeepSuffix<T>(s: seq<T>, maxLen: nat)
    ensures |Keep(s, maxLen)| == Min(|s|, maxLen)
    ensures Keep(s, maxLen) == s[|s| - |Keep(s, maxLen)|..]
  {
  }

  /**
   * Below capacity an append adds the element last; at capacity it first drops the
   * oldest element. Either way the length becomes `min(|s| + 1, maxLen)`.
   */
  lemma AppendShape<T>(s: seq<T>, x: T, maxLen: nat)
    requires |s| <= maxLen
    ensures |s| < maxLen ==> Append(s, x, maxLen) == s + [x]
    ensures 0 < |s| == maxLen ==> Append(s, x, maxLen) == s[1..] + [x]
    ensures |Append(s, x, maxLen)| == Min(|s| + 1, maxLen)
  {
    if 0 < |s| == maxLen {
      assert (s + [x])[1..] == s[1..] + [x];
    }
  }

  /** Trimming twice to the same bound is trimming once. */
  lemma KeepKeep<T>(a: seq<T>, b: seq<T>, maxLen: nat)
    ensures Keep(Keep(a, maxLen) + b, maxLen) == Keep(a + b, maxLen)
  {
    var k := Keep(a, maxLen);
    var n := Min(|a + b|, maxLen);
    KeepSuffix(a, maxLen);
    KeepSuffix(k + b, maxLen);
    KeepSuffix(a + b, maxLen);
    forall i | 0 <= i < n
      ensures Keep(k + b, maxLen)[i] == Keep(a + b, maxLen)[i]
    {
      var j := |a + b| - n + i;
      if j < |a| {
        assert (a + b)[j] == a[j];
        assert (k + b)[|k + b| - n + i] == k[|k| - |a| + j];
      } else {
        assert (k + b)[|k + b| - n + i] == b[j - |a|];
      }
    }
  }

  /**
   * FIFO law: extending a deque leaves exactly the newest `maxLen` of all the elements
   * ever added, in insertion order.
   */
  lemma {:induction false} ExtendKeepsNewest<T>(s: seq<T>, xs: seq<T>, maxLen: nat)
    requires |s| <= maxLen
    ensures Extend(s, xs, maxLen) == Keep(s + xs, maxLen)
    decreases |xs|
  {
    if xs == [] {
      assert s + xs == s;
    } else {
      var s' := Append(s, xs[0], maxLen);
      AppendShape(s, xs[0], maxLen);
      calc {
        Extend(s, xs, maxLen);
        Extend(s', xs[1..], maxLen);
        { ExtendKeepsNewest(s', xs[1..], maxLen); }
        Keep(Keep(s + [xs[0]], maxLen) + xs[1..], maxLen);
        { KeepKeep(s + [xs[0]], xs[1..], maxLen); }
        Keep(s + [xs[0]] + xs[1..], maxLen);
        { assert s + [xs[0]] + xs[1..] == s + xs; }
        Keep(s + xs, maxLen);
      }
    }
  }

  /**
   * The scenario of 1001 appends of 0, 1, ..., 1000 to an empty deque bounded by 1000:
   * it holds the 1000 newest values, and the oldest remaining one is 1.
   */
  lemma OverflowByOne()
    ensures |Extend([], seq(1001, i => i), 1000)| == 1000
    ensures Extend([], seq(1001, i => i), 1000)[0] == 1
    ensures Extend([], seq(1001, i => i), 1000)[999] == 1000
  {
    ExtendKeepsNewest([], seq(1001, i => i), 1000);
    assert [] + seq(1001, i => i) == seq(1001, i => i);
  }
}
