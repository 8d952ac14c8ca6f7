/** Generic sequence operations that the event emitter relies on: the element-wise
    `map` of an array and the in-order concatenation of an array of arrays. They are
    the specifications against which the emitter's loops and maps are proved. */
module Sequences {

  /** Element-wise map, as `Array.prototype.map` does: same length, element k is `f`
      applied to input element k. */
  function Map<A, B>(f: A -> B, s: seq<A>): (r: seq<B>)
    ensures |r| == |s|
    ensures forall k :: 0 <= k < |s| ==> r[k] == f(s[k])
  {
    if s == [] then [] else [f(s[0])] + Map(f, s[1..])
  }

  /** The total number of elements held by the inner sequences. */
  function SumLengths<T>(ss: seq<seq<T>>): (n: nat)
  {
    if ss == [] then 0 else SumLengths(ss[..|ss| - 1]) + |ss[|ss| - 1]|
  }

  /** Left-to-right concatenation of the inner sequences, one inner sequence appended
      after another, as a loop `acc = acc.concat(ss[i])` builds it. */
  function Concat<T>(ss: seq<seq<T>>): (r: seq<T>)
    ensures |r| == SumLengths(ss)
  {
    if ss == [] then [] else Concat(ss[..|ss| - 1]) + ss[|ss| - 1]
  }

  /** Concatenation of a prefix extended by one more inner sequence. */
  lemma ConcatSnoc<T>(ss: seq<seq<T>>, i: nat)
    requires i < |ss|
    ensures Concat(ss[..i + 1]) == Concat(ss[..i]) + ss[i]
    ensures SumLengths(ss[..i + 1]) == SumLengths(ss[..i]) + |ss[i]|
  {
    assert ss[..i + 1][..i] == ss[..i];
  }

  /** Order preservation: element j of inner sequence i lands in the result right after
      all elements of the inner sequences before it, at offset j. */
  lemma {:induction false} ConcatAt<T>(ss: seq<seq<T>>, i: nat, j: nat)
    requires i < |ss| && j < |ss[i]|
    ensures SumLengths(ss[..i]) + j < |Concat(ss)|
    ensures Concat(ss)[SumLengths(ss[..i]) + j] == ss[i][j]
  {
    var n := |ss| - 1;
    var init := ss[..n];
    if i == n {
      assert init == ss[..i];
    } else {
      assert init[..i] == ss[..i];
      ConcatAt(init, i, j);
      assert SumLengths(init[..i]) + j < |Concat(init)|;
    }
  }

  /** Mapping after concatenating is the same as concatenating the mapped inner
      sequences. */
  lemma {:induction false} MapConcat<A, B>(f: A -> B, ss: seq<seq<A>>)
    ensures Map(f, Concat(ss)) == Concat(Map(s => Map(f, s), ss))
  {
    var g := (s: seq<A>) => Map(f, s);
    if ss != [] {
      var n := |ss| - 1;
      var init := ss[..n];
      MapConcat(f, init);
      assert Map(g, ss)[..n] == Map(g, init);
      MapAppend(f, Concat(init), ss[n]);
    }
  }

  /** Mapping distributes over appending. */
  lemma MapAppend<A, B>(f: A -> B, a: seq<A>, b: seq<A>)
    ensures Map(f, a + b) == Map(f, a) + Map(f, b)
  {
    assert forall k :: 0 <= k < |a + b| ==> Map(f, a + b)[k] == (Map(f, a) + Map(f, b))[k];
  }
}
