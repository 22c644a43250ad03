/** The default ordering of Array.prototype.sort on strings: lexicographic
    comparison character by character, a proper prefix first. */
module Strings {
  import opened Sequences

  /** `a` sorts strictly before `b`. */
  predicate Less(a: string, b: string) {
    if a == [] then b != []
    else if b == [] then false
    else if a[0] != b[0] then a[0] < b[0]
    else Less(a[1..], b[1..])
  }

  predicate LessOrEqual(a: string, b: string) {
    a == b || Less(a, b)
  }

  lemma {:induction false} LessIrreflexive(a: string)
    ensures !Less(a, a)
  {
    if a != [] {
      LessIrreflexive(a[1..]);
    }
  }

  lemma {:induction false} LessTransitive(a: string, b: string, c: string)
    requires Less(a, b) && Less(b, c)
    ensures Less(a, c)
  {
    if a != [] && a[0] == b[0] && b[0] == c[0] {
      LessTransitive(a[1..], b[1..], c[1..]);
    }
  }

  /** Any two different strings are ordered one way or the other. */
  lemma {:induction false} LessTotal(a: string, b: string)
    requires a != b
    ensures Less(a, b) || Less(b, a)
  {
    if a != [] && b != [] && a[0] == b[0] {
      assert a == [a[0]] + a[1..] && b == [b[0]] + b[1..];
      LessTotal(a[1..], b[1..]);
    }
  }

  /** Every element is at most every later one. */
  predicate Ascending(s: seq<string>) {
    forall i, j :: 0 <= i < j < |s| ==> LessOrEqual(s[i], s[j])
  }

  /** Every element sorts strictly before every later one. */
  predicate StrictlyAscending(s: seq<string>) {
    forall i, j :: 0 <= i < j < |s| ==> Less(s[i], s[j])
  }

  /** Every element sorts strictly after every later one. */
  predicate StrictlyDescending(s: seq<string>) {
    forall i, j :: 0 <= i < j < |s| ==> Less(s[j], s[i])
  }

  /** `x` placed into `s` before the first element it does not follow. */
  function Insert(x: string, s: seq<string>): (r: seq<string>)
    ensures multiset(r) == multiset(s) + multiset{x}
  {
    if s == [] then [x]
    else if LessOrEqual(x, s[0]) then [x] + s
    else
      assert s == [s[0]] + s[1..];
      [s[0]] + Insert(x, s[1..])
  }

  /** Inserting into an ascending sequence keeps it ascending, and strictly
      so when `x` is new. */
  lemma {:induction false} InsertSorted(x: string, s: seq<string>)
    requires Ascending(s)
    ensures Ascending(Insert(x, s))
    ensures x !in s && StrictlyAscending(s) ==> StrictlyAscending(Insert(x, s))
  {
    if s == [] {
    } else if LessOrEqual(x, s[0]) {
      InsertAtFront(x, s);
    } else {
      InsertSorted(x, s[1..]);
      InsertBehind(x, s);
    }
  }

  /** `x` goes in front when it does not follow the first element. */
  lemma {:induction false} InsertAtFront(x: string, s: seq<string>)
    requires s != [] && LessOrEqual(x, s[0]) && Ascending(s)
    ensures Ascending([x] + s)
    ensures x != s[0] && StrictlyAscending(s) ==> StrictlyAscending([x] + s)
  {
    forall j | 0 < j < |s|
      ensures LessOrEqual(x, s[j])
      ensures x != s[0] && Less(s[0], s[j]) ==> Less(x, s[j])
    {
      if x != s[0] && s[0] != s[j] {
        LessTransitive(x, s[0], s[j]);
      }
    }
    var r := [x] + s;
    forall i, j | 0 <= i < j < |r|
      ensures LessOrEqual(r[i], r[j])
      ensures x != s[0] && StrictlyAscending(s) ==> Less(r[i], r[j])
    {
      if i > 0 {
        assert r[i] == s[i - 1] && r[j] == s[j - 1];
      }
    }
  }

  /** `x` goes behind the first element when it follows it; the first
      element precedes everything in the rest. */
  lemma {:induction false} InsertBehind(x: string, s: seq<string>)
    requires s != [] && !LessOrEqual(x, s[0]) && Ascending(s)
    requires Ascending(Insert(x, s[1..]))
    requires x !in s[1..] && StrictlyAscending(s[1..]) ==> StrictlyAscending(Insert(x, s[1..]))
    ensures Ascending(Insert(x, s))
    ensures x !in s && StrictlyAscending(s) ==> StrictlyAscending(Insert(x, s))
  {
    var rest := Insert(x, s[1..]);
    HeadPrecedesInsert(x, s);
    assert Insert(x, s) == [s[0]] + rest;
    ConsAscending(s[0], rest);
    if x !in s && StrictlyAscending(s) {
      assert x !in s[1..];
      ConsStrictlyAscending(s[0], rest);
    }
  }

  /** An element at most everything in an ascending sequence can go in front. */
  lemma {:induction false} ConsAscending(h: string, s: seq<string>)
    requires Ascending(s) && forall y :: y in s ==> LessOrEqual(h, y)
    ensures Ascending([h] + s)
  {
    var r := [h] + s;
    forall i, j | 0 <= i < j < |r|
      ensures LessOrEqual(r[i], r[j])
    {
      if i == 0 {
        assert r[j] in s;
      } else {
        assert r[i] == s[i - 1] && r[j] == s[j - 1];
      }
    }
  }

  lemma {:induction false} ConsStrictlyAscending(h: string, s: seq<string>)
    requires StrictlyAscending(s) && forall y :: y in s ==> Less(h, y)
    ensures StrictlyAscending([h] + s)
  {
    var r := [h] + s;
    forall i, j | 0 <= i < j < |r|
      ensures Less(r[i], r[j])
    {
      if i == 0 {
        assert r[j] in s;
      } else {
        assert r[i] == s[i - 1] && r[j] == s[j - 1];
      }
    }
  }

  /** When `x` follows the first element, that element precedes everything
      `x` is inserted among. */
  lemma {:induction false} HeadPrecedesInsert(x: string, s: seq<string>)
    requires s != [] && !LessOrEqual(x, s[0]) && Ascending(s)
    ensures forall y :: y in Insert(x, s[1..]) ==> LessOrEqual(s[0], y)
    ensures StrictlyAscending(s) ==> forall y :: y in Insert(x, s[1..]) ==> Less(s[0], y)
  {
    var rest := Insert(x, s[1..]);
    LessTotal(x, s[0]);
    forall y | y in rest
      ensures LessOrEqual(s[0], y)
      ensures StrictlyAscending(s) ==> Less(s[0], y)
    {
      assert y in multiset(rest);
      if y != x {
        assert y in s[1..];
        var k :| 0 <= k < |s[1..]| && s[1..][k] == y;
        assert s[k + 1] == y;
      }
    }
  }

  /** Ascending order of `s` (insertion sort). */
  function Sort(s: seq<string>): (r: seq<string>)
    ensures Ascending(r)
    ensures multiset(r) == multiset(s)
    ensures Distinct(s) ==> StrictlyAscending(r)
  {
    if s == [] then []
    else
      var rest := Sort(s[1..]);
      assert s == [s[0]] + s[1..];
      assert Distinct(s) ==> s[0] !in rest by {
        assert s[0] in rest ==> s[0] in multiset(s[1..]);
      }
      InsertSorted(s[0], rest);
      Insert(s[0], rest)
  }

  /** Sorting neither adds nor loses an element. */
  lemma {:induction false} SortMembers(s: seq<string>)
    ensures forall x :: x in Sort(s) <==> x in s
  {
    var r := Sort(s);
    assert forall x :: x in r <==> x in multiset(r);
    assert forall x :: x in s <==> x in multiset(s);
  }

  /** Reversing a strictly ascending sequence makes it strictly descending. */
  lemma {:induction false} ReverseStrictlyAscending(s: seq<string>)
    requires StrictlyAscending(s)
    ensures StrictlyDescending(Reverse(s))
  {
    var r := Reverse(s);
    forall i, j | 0 <= i < j < |r|
      ensures Less(r[j], r[i])
    {
      assert r[j] == s[|s| - 1 - j] && r[i] == s[|s| - 1 - i];
    }
  }
}
