/**
 * List idioms the indexer repeats: first-seen de-duplication (`if x not in out:
 * out.append(x)`), flattening per-pattern match lists in pattern order, filtering.
 * Functions that a loop appends to are defined on their last element, so that a
 * loop's invariant `acc == F(s[..i])` advances by one unfolding.
 */
module Seqs {

  predicate NoDup<T(==)>(s: seq<T>)
  {
    forall i, j :: 0 <= i < j < |s| ==> s[i] != s[j]
  }

  /** Position of the first occurrence of `x` in `s`. */
  function FirstIndex<T(==)>(s: seq<T>, x: T): (i: nat)
    requires x in s
    ensures i < |s| && s[i] == x
    ensures forall j :: 0 <= j < i ==> s[j] != x
  {
    if s[0] == x then 0 else 1 + FirstIndex(s[1..], x)
  }

  /** The distinct elements of `s`, each kept where it is first seen. */
  function Dedup<T(==)>(s: seq<T>): (r: seq<T>)
    ensures NoDup(r)
    ensures forall k :: 0 <= k < |r| ==> r[k] in s
    ensures forall k :: 0 <= k < |s| ==> s[k] in r
    ensures |r| <= |s|
  {
    if |s| == 0 then []
    else
      var d := Dedup(s[..|s| - 1]);
      if s[|s| - 1] in d then d else d + [s[|s| - 1]]
  }

  lemma FirstIndexPrefix<T>(s: seq<T>, n: nat, x: T)
    requires n <= |s| && x in s[..n]
    ensures FirstIndex(s, x) == FirstIndex(s[..n], x)
  {
    var i := FirstIndex(s[..n], x);
    assert s[i] == x;
    assert forall j :: 0 <= j < i ==> s[j] == s[..n][j];
  }

  /** `Dedup` lists the distinct elements in the order of their first occurrences. */
  lemma {:induction false} DedupFirstSeenOrder<T>(s: seq<T>, i: nat, j: nat)
    requires i < j < |Dedup(s)|
    ensures Dedup(s)[i] in s && Dedup(s)[j] in s
    ensures FirstIndex(s, Dedup(s)[i]) < FirstIndex(s, Dedup(s)[j])
  {
    var n := |s|;
    var p := s[..n - 1];
    var d := Dedup(p);
    var last := s[n - 1];
    assert s == p + [last];
    var r := if last in d then d else d + [last];
    assert Dedup(s) == r;
    var x, y := r[i], r[j];
    if j < |d| {
      assert x == d[i] && y == d[j];
      DedupFirstSeenOrder(p, i, j);
      FirstIndexPrefix(s, n - 1, x);
      FirstIndexPrefix(s, n - 1, y);
    } else {
      assert x == d[i] && x in p;
      assert y == last && y !in p;
      FirstIndexPrefix(s, n - 1, x);
      assert s[n - 1] == y;
      assert forall k :: 0 <= k < n - 1 ==> s[k] == p[k];
    }
  }

  /** Concatenation of the lists in `ss`, in order. */
  function Flatten<T>(ss: seq<seq<T>>): seq<T>
  {
    if |ss| == 0 then [] else Flatten(ss[..|ss| - 1]) + ss[|ss| - 1]
  }

  function SumLengths<T>(ss: seq<seq<T>>): nat
  {
    if |ss| == 0 then 0 else SumLengths(ss[..|ss| - 1]) + |ss[|ss| - 1]|
  }

  lemma {:induction false} FlattenLength<T>(ss: seq<seq<T>>)
    ensures |Flatten(ss)| == SumLengths(ss)
  {
    if |ss| > 0 {
      FlattenLength(ss[..|ss| - 1]);
    }
  }

  lemma {:induction false} FlattenAppend<T>(a: seq<seq<T>>, b: seq<seq<T>>)
    ensures Flatten(a + b) == Flatten(a) + Flatten(b)
    decreases |b|
  {
    if |b| == 0 {
      AppendEmpty(a, b);
    } else {
      AppendLast(a, b);
      FlattenAppend(a, b[..|b| - 1]);
      AppendAssoc(Flatten(a), Flatten(b[..|b| - 1]), b[|b| - 1]);
    }
  }

  /** Flattening one more inner sequence of a prefix appends that sequence. */
  lemma FlattenStep<T>(ss: seq<seq<T>>, p: nat)
    requires p < |ss|
    ensures Flatten(ss[..p + 1]) == Flatten(ss[..p]) + ss[p]
  {
    assert ss[..p + 1][..p] == ss[..p];
  }

  lemma FlattenThree<T>(x: seq<T>, y: seq<T>, z: seq<T>)
    ensures Flatten([x, y, z]) == x + y + z
  {
    assert [x][..0] == [];
    assert Flatten([x]) == x;
    assert [x, y][..1] == [x];
    assert Flatten([x, y]) == x + y;
    assert [x, y, z][..2] == [x, y];
  }

  /** The elements of `s` satisfying `p`, in order. */
  function Filter<T>(s: seq<T>, p: T -> bool): (r: seq<T>)
    ensures |r| <= |s|
    ensures forall k :: 0 <= k < |r| ==> p(r[k])
  {
    if |s| == 0 then []
    else
      var f := Filter(s[..|s| - 1], p);
      if p(s[|s| - 1]) then f + [s[|s| - 1]] else f
  }

  /** The set of elements of a sequence (`set(s)`). */
  function Elements<T>(s: seq<T>): set<T>
  {
    set i | 0 <= i < |s| :: s[i]
  }

  lemma ElementsSnoc<T>(s: seq<T>, x: T)
    ensures Elements(s + [x]) == Elements(s) + {x}
  {
    var t := s + [x];
    assert t[|s|] == x;
    forall y | y in Elements(s) ensures y in Elements(t) {
      var i :| 0 <= i < |s| && s[i] == y;
      assert t[i] == y;
    }
  }

  function Sum(s: seq<nat>): nat
  {
    if |s| == 0 then 0 else Sum(s[..|s| - 1]) + s[|s| - 1]
  }

  /** Taking one more element of a prefix appends that element. */
  lemma TakeSnoc<T>(s: seq<T>, j: nat)
    requires j < |s|
    ensures s[..j + 1] == s[..j] + [s[j]]
  {
  }

  /** Dropping the last element of `a + b`, for a non-empty `b`, drops the last element of `b`. */
  lemma AppendLast<T>(a: seq<T>, b: seq<T>)
    requires |b| > 0
    ensures (a + b)[..|a + b| - 1] == a + b[..|b| - 1] && (a + b)[|a + b| - 1] == b[|b| - 1]
  {
  }

  lemma AppendAssoc<T>(x: seq<T>, y: seq<T>, z: seq<T>)
    ensures (x + y) + z == x + (y + z)
  {
  }

  lemma AppendEmpty<T>(a: seq<T>, b: seq<T>)
    requires |b| == 0
    ensures a + b == a
  {
  }

  lemma TakeAll<T>(s: seq<T>, done: seq<T>)
    ensures s[..|s|] == s && done + s[..0] == done
  {
  }

  /** The elements of every inner sequence, in order, appended one at a time. */
  method ConcatAll<T>(ss: seq<seq<T>>) returns (all: seq<T>)
    ensures all == Flatten(ss)
  {
    all := [];
    var p := 0;
    while p < |ss|
      invariant 0 <= p <= |ss|
      invariant all == Flatten(ss[..p])
    {
      var inner := ss[p];
      ghost var before := all;
      var m := 0;
      while m < |inner|
        invariant 0 <= m <= |inner|
        invariant all == before + inner[..m]
      {
        assert inner[..m + 1] == inner[..m] + [inner[m]];
        all := all + [inner[m]];
        m := m + 1;
      }
      assert inner[..m] == inner;
      assert ss[..p + 1] == ss[..p] + [inner];
      FlattenAppend(ss[..p], [inner]);
      assert Flatten([inner]) == inner;
      p := p + 1;
    }
    assert ss[..p] == ss;
  }
}
