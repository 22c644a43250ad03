/** Sequence operations the engine is built from: order-preserving filtering
    (Array.prototype.filter), first-occurrence de-duplication (spreading a Set
    built from a sequence), integer sums and reversal. */
module Sequences {

  /** No element occurs twice. */
  predicate Distinct<T(==)>(s: seq<T>) {
    forall i, j :: 0 <= i < j < |s| ==> s[i] != s[j]
  }

  /** The elements of `s` satisfying `p`, in their original order. */
  function Keep<T>(s: seq<T>, p: T -> bool): (r: seq<T>)
    ensures |r| <= |s|
  {
    if s == [] then []
    else (if p(s[0]) then [s[0]] else []) + Keep(s[1..], p)
  }

  /** An element is kept exactly when it occurs and satisfies `p`. */
  lemma {:induction false} KeepMembers<T>(s: seq<T>, p: T -> bool)
    ensures forall x :: x in Keep(s, p) <==> x in s && p(x)
  {
    if s != [] {
      KeepMembers(s[1..], p);
      assert s == [s[0]] + s[1..];
    }
  }

  /** `idx` lists, in strictly increasing order, positions of `b` holding the
      elements of `a`: `a` is `b` with some elements left out and the rest kept
      in their relative order. */
  ghost predicate Embedding<T>(idx: seq<nat>, a: seq<T>, b: seq<T>) {
    && |idx| == |a|
    && (forall i :: 0 <= i < |idx| ==> idx[i] < |b| && a[i] == b[idx[i]])
    && (forall i, j :: 0 <= i < j < |idx| ==> idx[i] < idx[j])
  }

  function Shift(idx: seq<nat>): (r: seq<nat>)
    ensures |r| == |idx| && forall i :: 0 <= i < |idx| ==> r[i] == idx[i] + 1
  {
    if idx == [] then [] else [idx[0] + 1] + Shift(idx[1..])
  }

  /** The positions of `s` that `Keep(s, p)` retains. */
  function KeptIndices<T(!new)>(s: seq<T>, p: T -> bool): (idx: seq<nat>)
    ensures |idx| == |Keep(s, p)|
  {
    if s == [] then []
    else (if p(s[0]) then [0] else []) + Shift(KeptIndices(s[1..], p))
  }

  lemma {:induction false} ShiftMembers(idx: seq<nat>, j: nat)
    ensures j + 1 in Shift(idx) <==> j in idx
    ensures 0 !in Shift(idx)
  {
    var r := Shift(idx);
    if j + 1 in r {
      var k :| 0 <= k < |r| && r[k] == j + 1;
      assert idx[k] == j;
    }
    if j in idx {
      var k :| 0 <= k < |idx| && idx[k] == j;
      assert r[k] == j + 1;
    }
  }

  /** An embedding survives putting one more element in front of the larger
      sequence, kept or skipped. */
  lemma {:induction false} EmbeddingSkip<T>(idx: seq<nat>, a: seq<T>, b: seq<T>, x: T)
    requires Embedding(idx, a, b)
    ensures Embedding(Shift(idx), a, [x] + b)
  {
  }

  lemma {:induction false} EmbeddingKeep<T>(idx: seq<nat>, a: seq<T>, b: seq<T>, x: T)
    requires Embedding(idx, a, b)
    ensures Embedding([0] + Shift(idx), [x] + a, [x] + b)
  {
    var r, a', b' := [0] + Shift(idx), [x] + a, [x] + b;
    forall i | 0 <= i < |r|
      ensures r[i] < |b'| && a'[i] == b'[r[i]]
    {
      if i > 0 {
        assert r[i] == idx[i - 1] + 1;
      }
    }
    forall i, j | 0 <= i < j < |r|
      ensures r[i] < r[j]
    {
      assert r[j] == idx[j - 1] + 1;
      if i > 0 {
        assert r[i] == idx[i - 1] + 1;
      }
    }
  }

  /** `KeptIndices` embeds the retained elements in `s`. */
  lemma {:induction false} KeptIndicesEmbed<T(!new)>(s: seq<T>, p: T -> bool)
    ensures Embedding(KeptIndices(s, p), Keep(s, p), s)
  {
    if s != [] {
      var tail := s[1..];
      KeptIndicesEmbed(tail, p);
      assert s == [s[0]] + tail;
      if p(s[0]) {
        EmbeddingKeep(KeptIndices(tail, p), Keep(tail, p), tail, s[0]);
        assert KeptIndices(s, p) == [0] + Shift(KeptIndices(tail, p));
        assert Keep(s, p) == [s[0]] + Keep(tail, p);
      } else {
        EmbeddingSkip(KeptIndices(tail, p), Keep(tail, p), tail, s[0]);
        assert KeptIndices(s, p) == Shift(KeptIndices(tail, p));
        assert Keep(s, p) == Keep(tail, p);
      }
    }
  }

  /** A position of `s` is among `KeptIndices(s, p)` exactly when its
      element satisfies `p`. */
  lemma {:induction false} KeptIndicesMembers<T(!new)>(s: seq<T>, p: T -> bool)
    ensures forall j :: 0 <= j < |s| ==> (j in KeptIndices(s, p) <==> p(s[j]))
  {
    if s != [] {
      var tail := s[1..];
      KeptIndicesMembers(tail, p);
      var rest := KeptIndices(tail, p);
      var head: seq<nat> := if p(s[0]) then [0] else [];
      var idx := KeptIndices(s, p);
      assert idx == head + Shift(rest);
      forall j | 0 <= j < |s|
        ensures j in idx <==> p(s[j])
      {
        assert j in idx <==> j in head || j in Shift(rest);
        if j == 0 {
          ShiftMembers(rest, 0);
        } else {
          ShiftMembers(rest, j - 1);
          assert j !in head;
          assert s[j] == tail[j - 1];
        }
      }
    }
  }

  lemma {:induction false} KeepAppend<T>(a: seq<T>, b: seq<T>, p: T -> bool)
    ensures Keep(a + b, p) == Keep(a, p) + Keep(b, p)
  {
    if a == [] {
      assert a + b == b;
    } else {
      var head := if p(a[0]) then [a[0]] else [];
      assert (a + b)[0] == a[0] && (a + b)[1..] == a[1..] + b;
      assert Keep(a + b, p) == head + Keep(a[1..] + b, p);
      KeepAppend(a[1..], b, p);
      assert head + (Keep(a[1..], p) + Keep(b, p)) == (head + Keep(a[1..], p)) + Keep(b, p);
    }
  }

  /** Filtering by a predicate every element satisfies changes nothing. */
  lemma {:induction false} KeepAll<T(!new)>(s: seq<T>, p: T -> bool)
    requires forall x :: x in s ==> p(x)
    ensures Keep(s, p) == s
  {
    if s != [] {
      KeepAll(s[1..], p);
    }
  }

  /** Filters that agree on every element of `s` keep the same elements. */
  lemma {:induction false} KeepCongruent<T(!new)>(s: seq<T>, p: T -> bool, q: T -> bool)
    requires forall x :: x in s ==> p(x) == q(x)
    ensures Keep(s, p) == Keep(s, q)
  {
    if s != [] {
      KeepCongruent(s[1..], p, q);
    }
  }

  /** Two filters one after the other keep what their conjunction keeps. */
  lemma {:induction false} KeepThenKeep<T(!new)>(s: seq<T>, p: T -> bool, q: T -> bool, both: T -> bool)
    requires forall x :: x in s ==> both(x) == (p(x) && q(x))
    ensures Keep(Keep(s, p), q) == Keep(s, both)
  {
    if s != [] {
      KeepThenKeep(s[1..], p, q, both);
      var head := if p(s[0]) then [s[0]] else [];
      KeepAppend(head, Keep(s[1..], p), q);
    }
  }

  /** Sum of a sequence of integers (a reduce from 0 with +). */
  function Sum(s: seq<int>): int {
    if s == [] then 0 else s[0] + Sum(s[1..])
  }

  /** The elements of `s`, each first occurrence kept and later repeats
      dropped; this is the order in which a Set built from `s` iterates. */
  function Dedup<T(==)>(s: seq<T>): seq<T> {
    if s == [] then []
    else
      var d := Dedup(s[..|s| - 1]);
      if s[|s| - 1] in d then d else d + [s[|s| - 1]]
  }

  /** De-duplication leaves every element once and loses none. */
  lemma {:induction false} DedupExact<T>(s: seq<T>)
    ensures Distinct(Dedup(s))
    ensures forall x :: x in Dedup(s) <==> x in s
  {
    if s != [] {
      var p, x := s[..|s| - 1], s[|s| - 1];
      DedupExact(p);
      assert s == p + [x];
    }
  }

  /** `s` back to front (Array.prototype.reverse). */
  function Reverse<T>(s: seq<T>): (r: seq<T>)
    ensures |r| == |s|
    ensures forall i :: 0 <= i < |s| ==> r[i] == s[|s| - 1 - i]
  {
    if s == [] then [] else Reverse(s[1..]) + [s[0]]
  }

  lemma {:induction false} ReverseMembers<T>(s: seq<T>)
    ensures forall x :: x in Reverse(s) <==> x in s
  {
    var r := Reverse(s);
    forall x | x in r
      ensures x in s
    {
      var i :| 0 <= i < |r| && r[i] == x;
      assert s[|s| - 1 - i] == x;
    }
    forall x | x in s
      ensures x in r
    {
      var i :| 0 <= i < |s| && s[i] == x;
      assert r[|s| - 1 - i] == x;
    }
  }
}
