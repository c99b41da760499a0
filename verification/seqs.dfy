/** Sequence helpers shared by the chart and the ranking: de-duplication in
    first-seen order (the key order of an insertion-ordered dictionary) and
    strictly ascending sequences (a sorted set). */
module Seqs {

  /** No element occurs twice. */
  ghost predicate Distinct<T>(s: seq<T>) {
    forall i, j :: 0 <= i < j < |s| ==> s[i] != s[j]
  }

  /** Every element is smaller than the next: sorted, without duplicates. */
  ghost predicate StrictlyIncreasing(s: seq<int>) {
    forall i, j :: 0 <= i < j < |s| ==> s[i] < s[j]
  }

  /** Position of the first occurrence of `x` in `s`. */
  function FirstIndex<T(==)>(s: seq<T>, x: T): (i: nat)
    requires x in s
    ensures i < |s| && s[i] == x
    ensures forall j :: 0 <= j < i ==> s[j] != x
  {
    if s[0] == x then 0 else 1 + FirstIndex(s[1..], x)
  }

  /** The elements of `s`, each once, in the order they are first seen:
      the keys of a dictionary filled by walking `s` from left to right. */
  function Dedup<T(==)>(s: seq<T>): (r: seq<T>)
    ensures forall i :: 0 <= i < |r| ==> r[i] in s
    ensures forall i :: 0 <= i < |s| ==> s[i] in r
    ensures Distinct(r)
    ensures |r| <= |s|
  {
    if |s| == 0 then []
    else
      var p := Dedup(s[..|s| - 1]);
      assert s == s[..|s| - 1] + [s[|s| - 1]];
      if s[|s| - 1] in p then p else p + [s[|s| - 1]]
  }

  /** Appending an element leaves first occurrences of earlier elements where they were. */
  lemma FirstIndexAppend<T>(s: seq<T>, y: T, x: T)
    requires x in s
    ensures FirstIndex(s + [y], x) == FirstIndex(s, x)
  {
    var i := FirstIndex(s, x);
    var k := FirstIndex(s + [y], x);
    assert (s + [y])[i] == x;
  }

  /** Dedup lists elements in the order of their first occurrence. */
  lemma {:induction false} DedupFirstSeen<T>(s: seq<T>, i: int, j: int)
    requires 0 <= i < j < |Dedup(s)|
    ensures FirstIndex(s, Dedup(s)[i]) < FirstIndex(s, Dedup(s)[j])
    decreases |s|
  {
    var s' := s[..|s| - 1];
    var x := s[|s| - 1];
    assert s == s' + [x];
    var p := Dedup(s');
    var a := Dedup(s)[i];
    var b := Dedup(s)[j];
    if x in p {
      assert Dedup(s) == p;
      DedupFirstSeen(s', i, j);
      FirstIndexAppend(s', x, a);
      FirstIndexAppend(s', x, b);
    } else {
      assert Dedup(s) == p + [x];
      if j < |p| {
        DedupFirstSeen(s', i, j);
        FirstIndexAppend(s', x, a);
        FirstIndexAppend(s', x, b);
      } else {
        assert b == x && a in s';
        FirstIndexAppend(s', x, a);
        assert x !in s';
        assert FirstIndex(s, b) == |s'|;
      }
    }
  }

  /** Appending an element to the input appends it to the de-duplicated
      listing exactly when it is new. */
  lemma DedupSnoc<T>(s: seq<T>, x: T)
    ensures Dedup(s + [x]) == if x in Dedup(s) then Dedup(s) else Dedup(s) + [x]
  {
    assert (s + [x])[..|s|] == s;
  }

  /** Concatenation is associative. */
  lemma ConcatAssoc<T>(a: seq<T>, b: seq<T>, c: seq<T>)
    ensures a + (b + c) == (a + b) + c
  {
  }

  /** A sequence is empty exactly when nothing is in it. */
  lemma EmptyIffNoMember(s: seq<int>)
    ensures |s| == 0 <==> forall d :: d !in s
  {
    if |s| > 0 {
      var d := s[0];
      assert d in s;
    } else {
      assert s == [];
    }
  }

  /** A finite set of integers has exactly one strictly ascending listing. */
  lemma {:induction false} StrictlyIncreasingUnique(a: seq<int>, b: seq<int>)
    requires StrictlyIncreasing(a) && StrictlyIncreasing(b)
    requires forall d :: d in a <==> d in b
    ensures a == b
    decreases |a|
  {
    EmptyIffNoMember(a);
    EmptyIffNoMember(b);
    if |a| > 0 {
      assert a[0] in a;
      assert |b| > 0;
      assert b[0] in b;
      assert a[0] == b[0];
      forall d
        ensures d in a[1..] <==> d in b[1..]
      {
        if d in a[1..] {
          var k :| 1 <= k < |a| && a[k] == d;
          assert d != a[0];
          assert d in b;
        }
        if d in b[1..] {
          var k :| 1 <= k < |b| && b[k] == d;
          assert d != b[0];
          assert d in a;
        }
      }
      StrictlyIncreasingUnique(a[1..], b[1..]);
      assert a == [a[0]] + a[1..];
      assert b == [b[0]] + b[1..];
    }
  }

  /** Inserts `x` into a strictly ascending sequence unless it is already there. */
  function InsertAscending(s: seq<int>, x: int): (r: seq<int>)
    requires StrictlyIncreasing(s)
    ensures StrictlyIncreasing(r)
    ensures forall d :: d in r <==> d in s || d == x
    ensures |r| > 0 && r[0] == if |s| > 0 && s[0] < x then s[0] else x
  {
    if |s| == 0 then [x]
    else if x < s[0] then [x] + s
    else if x == s[0] then s
    else
      var rest := InsertAscending(s[1..], x);
      assert forall j :: 0 <= j < |rest| ==> s[0] < rest[0] <= rest[j];
      [s[0]] + rest
  }

  /** `sorted(set(s))`: the distinct elements of `s` in ascending order. */
  function SortAscending(s: seq<int>): (r: seq<int>)
    ensures StrictlyIncreasing(r)
    ensures forall d :: d in r <==> d in s
  {
    if |s| == 0 then []
    else
      assert s == s[..|s| - 1] + [s[|s| - 1]];
      InsertAscending(SortAscending(s[..|s| - 1]), s[|s| - 1])
  }
}
