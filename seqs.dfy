/** Small facts about sequence concatenation and slicing, stated once so
    that the proofs using them need not rediscover them. */
module Seqs {
  lemma ConsAppend<T>(x: T, a: seq<T>, b: seq<T>)
    ensures [x] + (a + b) == ([x] + a) + b
  {
  }

  lemma ConsSlice<T>(b: seq<T>, i: nat)
    requires i < |b|
    ensures b[i..] == [b[i]] + b[i + 1..]
  {
  }

  lemma Assoc<T>(x: seq<T>, y: seq<T>, z: seq<T>)
    ensures (x + y) + z == x + (y + z)
  {
  }

  lemma SliceRight<T>(a: seq<T>, b: seq<T>, i: nat, j: nat)
    requires i <= j <= |b|
    ensures (a + b)[|a| + i..|a| + j] == b[i..j]
  {
  }

  lemma PlaceLeft<T>(a: seq<T>, b: seq<T>)
    ensures |a| <= |a + b| && (a + b)[0..|a|] == a
  {
  }

  lemma PlaceRight<T>(a: seq<T>, b: seq<T>, o: nat, x: seq<T>, off: nat)
    requires o + |x| <= |b| && b[o..o + |x|] == x && off == |a| + o
    ensures off + |x| <= |a + b| && (a + b)[off..off + |x|] == x
  {
    SliceRight(a, b, o, o + |x|);
  }

  lemma EmptyTail<T>(x: seq<T>, a: seq<T>, b: seq<T>, c: seq<T>)
    requires a == [] && b == [] && c == []
    ensures x + a + b + c == x && x + a + b == x
  {
  }

  lemma EmptyMiddle<T>(p: seq<T>, e: seq<T>, t: seq<T>, r: seq<T>)
    requires e == []
    ensures p + e + t + r == (p + t) + r
  {
  }

  lemma AppendBlock<T>(x: seq<T>, a: seq<T>, b: seq<T>, c: seq<T>, rest: seq<T>)
    ensures x + a + b + c + rest == x + (a + b + c + rest)
  {
  }
}
