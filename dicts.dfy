/**
 * Python's insertion-ordered `dict`, as a list of entries with distinct keys in
 * insertion order, in the two shapes the indexer fills in loops:
 * a dict of lists (`m[k].append(v)` on a `defaultdict(list)`, or
 * `if k not in m: m[k] = []` followed by `m[k].append(v)`) and a counter
 * (`m[k] += 1` on a `defaultdict(int)`, or `m[k] = m.get(k, 0) + 1`).
 */
module Dicts {
  import opened Wrappers
  import opened Seqs

  datatype Entry<V> = Entry(key: string, value: V)

  type Dict<V> = seq<Entry<V>>

  /** The keys in iteration (insertion) order. */
  function Keys<V>(d: Dict<V>): (ks: seq<string>)
    ensures |ks| == |d|
    ensures forall i :: 0 <= i < |d| ==> ks[i] == d[i].key
  {
    if |d| == 0 then [] else [d[0].key] + Keys(d[1..])
  }

  function Lookup<V>(d: Dict<V>, k: string): (r: Option<V>)
    ensures r.None? <==> k !in Keys(d)
  {
    if |d| == 0 then None
    else if d[0].key == k then Some(d[0].value)
    else Lookup(d[1..], k)
  }

  /** The list stored under `k`, with a `defaultdict(list)`'s empty default. */
  function ListOf<V>(d: Dict<seq<V>>, k: string): seq<V>
  {
    Lookup(d, k).GetOr([])
  }

  /** The count stored under `k`, with a `defaultdict(int)`'s zero default. */
  function CountOf(d: Dict<nat>, k: string): nat
  {
    Lookup(d, k).GetOr(0)
  }

  /** `d[k].append(v)`, creating the entry `k: []` at the end when `k` is new. */
  function Append<V>(d: Dict<seq<V>>, k: string, v: V): Dict<seq<V>>
  {
    if |d| == 0 then [Entry(k, [v])]
    else if d[0].key == k then [Entry(k, d[0].value + [v])] + d[1..]
    else [d[0]] + Append(d[1..], k, v)
  }

  /** `d[k] += 1`, creating the entry `k: 0` at the end when `k` is new. */
  function Bump(d: Dict<nat>, k: string): Dict<nat>
  {
    if |d| == 0 then [Entry(k, 1)]
    else if d[0].key == k then [Entry(k, d[0].value + 1)] + d[1..]
    else [d[0]] + Bump(d[1..], k)
  }

  /** `d[k] = v`: overwrites the value in place when `k` is present, appends otherwise. */
  function Put<V>(d: Dict<V>, k: string, v: V): Dict<V>
  {
    if |d| == 0 then [Entry(k, v)]
    else if d[0].key == k then [Entry(k, v)] + d[1..]
    else [d[0]] + Put(d[1..], k, v)
  }

  /** Sum of the lengths of all stored lists. */
  function TotalLength<V>(d: Dict<seq<V>>): nat
  {
    if |d| == 0 then 0 else |d[0].value| + TotalLength(d[1..])
  }

  /** Sum of all stored counts. */
  function TotalCount(d: Dict<nat>): nat
  {
    if |d| == 0 then 0 else d[0].value + TotalCount(d[1..])
  }

  // ---------------------------------------------------------------------------
  // One update

  lemma {:induction false} LookupAppend<V>(d: Dict<seq<V>>, k: string, v: V, j: string)
    ensures Lookup(Append(d, k, v), j) == if j == k then Some(ListOf(d, k) + [v]) else Lookup(d, j)
  {
    if |d| > 0 {
      if d[0].key != k {
        LookupAppend(d[1..], k, v, j);
        assert Append(d, k, v)[1..] == Append(d[1..], k, v);
      } else {
        assert Append(d, k, v)[1..] == d[1..];
      }
    } else {
      assert Append(d, k, v)[1..] == [];
      assert ListOf(d, k) + [v] == [v];
    }
  }

  /** Adding an entry at the end adds its key at the end. */
  lemma KeysSnoc<V>(d: Dict<V>, e: Entry<V>)
    ensures Keys(d + [e]) == Keys(d) + [e.key]
  {
    var ks := Keys(d + [e]);
    assert forall i :: 0 <= i < |d| ==> ks[i] == d[i].key;
  }

  lemma {:induction false} KeysAppend<V>(d: Dict<seq<V>>, k: string, v: V)
    ensures Keys(Append(d, k, v)) == if k in Keys(d) then Keys(d) else Keys(d) + [k]
  {
    if |d| > 0 {
      var a := Append(d, k, v);
      if d[0].key != k {
        KeysAppend(d[1..], k, v);
        assert a[1..] == Append(d[1..], k, v);
      } else {
        assert a[1..] == d[1..];
      }
    }
  }

  lemma {:induction false} TotalAppend<V>(d: Dict<seq<V>>, k: string, v: V)
    ensures TotalLength(Append(d, k, v)) == TotalLength(d) + 1
  {
    if |d| > 0 {
      if d[0].key == k {
        assert Append(d, k, v)[1..] == d[1..];
      } else {
        TotalAppend(d[1..], k, v);
        assert Append(d, k, v)[1..] == Append(d[1..], k, v);
      }
    }
  }

  lemma {:induction false} LookupPut<V>(d: Dict<V>, k: string, v: V, j: string)
    ensures Lookup(Put(d, k, v), j) == if j == k then Some(v) else Lookup(d, j)
  {
    if |d| > 0 {
      if d[0].key != k {
        LookupPut(d[1..], k, v, j);
        assert Put(d, k, v)[1..] == Put(d[1..], k, v);
      } else {
        assert Put(d, k, v)[1..] == d[1..];
      }
    } else {
      assert Put(d, k, v)[1..] == [];
    }
  }

  lemma {:induction false} KeysPut<V>(d: Dict<V>, k: string, v: V)
    ensures Keys(Put(d, k, v)) == if k in Keys(d) then Keys(d) else Keys(d) + [k]
  {
    if |d| > 0 {
      var a := Put(d, k, v);
      if d[0].key != k {
        KeysPut(d[1..], k, v);
        assert a[1..] == Put(d[1..], k, v);
      } else {
        assert a[1..] == d[1..];
      }
    }
  }

  lemma {:induction false} LookupBump(d: Dict<nat>, k: string, j: string)
    ensures Lookup(Bump(d, k), j) == if j == k then Some(CountOf(d, k) + 1) else Lookup(d, j)
  {
    if |d| > 0 {
      if d[0].key != k {
        LookupBump(d[1..], k, j);
        assert Bump(d, k)[1..] == Bump(d[1..], k);
      } else {
        assert Bump(d, k)[1..] == d[1..];
      }
    }
  }

  lemma {:induction false} KeysBump(d: Dict<nat>, k: string)
    ensures Keys(Bump(d, k)) == if k in Keys(d) then Keys(d) else Keys(d) + [k]
  {
    if |d| > 0 {
      var b := Bump(d, k);
      if d[0].key != k {
        KeysBump(d[1..], k);
        assert b[1..] == Bump(d[1..], k);
      } else {
        assert b[1..] == d[1..];
      }
    }
  }

  lemma {:induction false} TotalBump(d: Dict<nat>, k: string)
    ensures TotalCount(Bump(d, k)) == TotalCount(d) + 1
  {
    if |d| > 0 {
      if d[0].key == k {
        assert Bump(d, k)[1..] == d[1..];
      } else {
        TotalBump(d[1..], k);
        assert Bump(d, k)[1..] == Bump(d[1..], k);
      }
    }
  }

  // ---------------------------------------------------------------------------
  // A whole sequence of updates, in order

  /** The dict of lists built by appending each `(key, value)` event in turn to an empty dict. */
  function Group<V>(evs: seq<(string, V)>): Dict<seq<V>>
  {
    if |evs| == 0 then [] else Append(Group(evs[..|evs| - 1]), evs[|evs| - 1].0, evs[|evs| - 1].1)
  }

  /** The values of the events whose key is `k`, in event order. */
  function ValuesFor<V>(evs: seq<(string, V)>, k: string): seq<V>
  {
    if |evs| == 0 then []
    else
      var rest := ValuesFor(evs[..|evs| - 1], k);
      if evs[|evs| - 1].0 == k then rest + [evs[|evs| - 1].1] else rest
  }

  function EventKeys<V>(evs: seq<(string, V)>): (ks: seq<string>)
    ensures |ks| == |evs|
    ensures forall i :: 0 <= i < |evs| ==> ks[i] == evs[i].0
  {
    seq(|evs|, i requires 0 <= i < |evs| => evs[i].0)
  }

  /** Each key's list holds exactly that key's values, in event order. */
  lemma {:induction false} ListOfGroup<V>(evs: seq<(string, V)>, k: string)
    ensures ListOf(Group(evs), k) == ValuesFor(evs, k)
  {
    if |evs| > 0 {
      var p := evs[..|evs| - 1];
      var e := evs[|evs| - 1];
      ListOfGroup(p, k);
      LookupAppend(Group(p), e.0, e.1, k);
    }
  }

  /** The keys are the distinct event keys, in order of first appearance. */
  lemma {:induction false} KeysGroup<V>(evs: seq<(string, V)>)
    ensures Keys(Group(evs)) == Dedup(EventKeys(evs))
  {
    if |evs| > 0 {
      var p := evs[..|evs| - 1];
      var e := evs[|evs| - 1];
      var ks := EventKeys(evs);
      KeysGroup(p);
      KeysAppend(Group(p), e.0, e.1);
      assert ks[..|ks| - 1] == EventKeys(p);
      assert ks[|ks| - 1] == e.0;
      assert Dedup(ks) == if e.0 in Dedup(EventKeys(p)) then Dedup(EventKeys(p)) else Dedup(EventKeys(p)) + [e.0];
    }
  }

  /** No event is lost or duplicated: the lists hold one value per event. */
  lemma {:induction false} TotalGroup<V>(evs: seq<(string, V)>)
    ensures TotalLength(Group(evs)) == |evs|
  {
    if |evs| > 0 {
      var p := evs[..|evs| - 1];
      TotalGroup(p);
      TotalAppend(Group(p), evs[|evs| - 1].0, evs[|evs| - 1].1);
    }
  }

  lemma GroupSnoc<V>(evs: seq<(string, V)>, e: (string, V))
    ensures Group(evs + [e]) == Append(Group(evs), e.0, e.1)
  {
    assert (evs + [e])[..|evs|] == evs;
  }

  /** Grouping one more event of a run appended after `done` appends that event. */
  lemma GroupStep<V>(done: seq<(string, V)>, evs: seq<(string, V)>, j: nat)
    requires j < |evs|
    ensures Group(done + evs[..j + 1]) == Append(Group(done + evs[..j]), evs[j].0, evs[j].1)
  {
    TakeSnoc(evs, j);
    assert done + evs[..j + 1] == (done + evs[..j]) + [evs[j]];
    GroupSnoc(done + evs[..j], evs[j]);
  }

  /** The counter built by bumping each key in turn from an empty counter. */
  function CountAll(ks: seq<string>): Dict<nat>
  {
    if |ks| == 0 then [] else Bump(CountAll(ks[..|ks| - 1]), ks[|ks| - 1])
  }

  /** Number of occurrences of `k` in `ks`. */
  function Occurrences(ks: seq<string>, k: string): nat
  {
    if |ks| == 0 then 0
    else Occurrences(ks[..|ks| - 1], k) + (if ks[|ks| - 1] == k then 1 else 0)
  }

  /** Each key is counted as often as it occurs; the keys are the distinct inputs in first-seen order. */
  lemma {:induction false} CountAllSpec(ks: seq<string>, k: string)
    ensures CountOf(CountAll(ks), k) == Occurrences(ks, k)
    ensures Keys(CountAll(ks)) == Dedup(ks)
    ensures TotalCount(CountAll(ks)) == |ks|
  {
    if |ks| > 0 {
      var p := ks[..|ks| - 1];
      CountAllSpec(p, k);
      LookupBump(CountAll(p), ks[|ks| - 1], k);
      KeysBump(CountAll(p), ks[|ks| - 1]);
      TotalBump(CountAll(p), ks[|ks| - 1]);
    }
  }

  lemma CountAllSnoc(ks: seq<string>, k: string)
    ensures CountAll(ks + [k]) == Bump(CountAll(ks), k)
  {
    assert (ks + [k])[..|ks|] == ks;
  }

  lemma CountAllStep(ks: seq<string>, j: nat)
    requires j < |ks|
    ensures CountAll(ks[..j + 1]) == Bump(CountAll(ks[..j]), ks[j])
  {
    TakeSnoc(ks, j);
    CountAllSnoc(ks[..j], ks[j]);
  }

  /** With distinct keys, looking up an entry's key finds that entry's value. */
  lemma {:induction false} LookupAt<V>(d: Dict<V>, i: nat)
    requires i < |d| && NoDup(Keys(d))
    ensures Lookup(d, d[i].key) == Some(d[i].value)
  {
    if i > 0 {
      assert Keys(d)[0] == d[0].key && Keys(d)[i] == d[i].key;
      assert Keys(d[1..]) == Keys(d)[1..];
      LookupAt(d[1..], i - 1);
    }
  }
}
