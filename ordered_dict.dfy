/**
 * Python's insertion-ordered `dict` with string keys, as far as the emitter
 * writer uses it: item assignment, `update`, `pop` and a copy.
 */
module OrderedDict {
  import opened Wrappers

  /** The entries of a dict in insertion order. */
  type Dict<V> = seq<(string, V)>

  function Keys<V>(d: Dict<V>): (ks: seq<string>)
    ensures |ks| == |d|
    ensures forall i :: 0 <= i < |d| ==> ks[i] == d[i].0
  {
    seq(|d|, i requires 0 <= i < |d| => d[i].0)
  }

  predicate Distinct(ks: seq<string>) {
    forall i, j :: 0 <= i < j < |ks| ==> ks[i] != ks[j]
  }

  /** Every key occurs once, as in every Python dict. */
  predicate WellFormed<V>(d: Dict<V>) {
    Distinct(Keys(d))
  }

  /** Position of the first entry with key `k`. */
  function IndexOf<V>(d: Dict<V>, k: string): (r: Option<nat>)
    ensures r.Some? ==> r.value < |d| && d[r.value].0 == k
    ensures r.Some? ==> forall j :: 0 <= j < r.value ==> d[j].0 != k
    ensures r == None <==> k !in Keys(d)
  {
    if d == [] then None
    else if d[0].0 == k then Some(0)
    else match IndexOf(d[1..], k)
      case None => None
      case Some(i) => Some(i + 1)
  }

  lemma KeysAppend<V>(a: Dict<V>, b: Dict<V>)
    ensures Keys(a + b) == Keys(a) + Keys(b)
  {
    assert forall i :: 0 <= i < |a + b| ==> Keys(a + b)[i] == (Keys(a) + Keys(b))[i];
  }

  /** Two dicts without a common key concatenate to a dict. */
  lemma AppendWellFormed<V>(a: Dict<V>, b: Dict<V>)
    requires WellFormed(a) && WellFormed(b)
    requires forall k :: k in Keys(b) ==> k !in Keys(a)
    ensures WellFormed(a + b)
  {
    KeysAppend(a, b);
    var ks := Keys(a + b);
    forall i, j | 0 <= i < j < |ks| ensures ks[i] != ks[j] {
      if i < |a| && j >= |a| {
        assert ks[j] == Keys(b)[j - |a|] && ks[j] in Keys(b);
        assert ks[i] == Keys(a)[i] && ks[i] in Keys(a);
      } else if i >= |a| {
        assert ks[i] == Keys(b)[i - |a|] && ks[j] == Keys(b)[j - |a|];
      } else {
        assert ks[i] == Keys(a)[i] && ks[j] == Keys(a)[j];
      }
    }
  }

  /** `d.get(k)`. */
  function Get<V>(d: Dict<V>, k: string): Option<V> {
    match IndexOf(d, k)
    case None => None
    case Some(i) => Some(d[i].1)
  }

  lemma IndexOfDistinct<V>(d: Dict<V>, i: nat)
    requires WellFormed(d) && i < |d|
    ensures IndexOf(d, d[i].0) == Some(i)
  {
    assert Keys(d)[i] == d[i].0;
  }

  /** `d[k] = v`: an existing key keeps its position, a new key goes last. */
  function Assigned<V>(d: Dict<V>, k: string, v: V): (r: Dict<V>)
    ensures k in Keys(d) ==> Keys(r) == Keys(d)
    ensures k !in Keys(d) ==> Keys(r) == Keys(d) + [k]
    ensures Get(r, k) == Some(v)
    ensures WellFormed(d) ==> WellFormed(r)
    ensures forall i :: 0 <= i < |d| && d[i].0 != k ==> r[i] == d[i]
  {
    match IndexOf(d, k)
    case Some(i) => d[i := (k, v)]
    case None =>
      var r := d + [(k, v)];
      assert IndexOf(r, k) == Some(|d|) by {
        assert Keys(r) == Keys(d) + [k];
      }
      r
  }

  /** `d.update(e)`: the entries of `e` assigned one after another. */
  function Updated<V>(d: Dict<V>, e: Dict<V>): Dict<V>
    decreases |e|
  {
    if e == [] then d else Updated(Assigned(d, e[0].0, e[0].1), e[1..])
  }

  /** Updating with entries under new keys appends them in their order. */
  lemma {:induction false} UpdatedFresh<V>(d: Dict<V>, e: Dict<V>)
    requires WellFormed(d + e)
    ensures Updated(d, e) == d + e
    decreases |e|
  {
    if e != [] {
      var k := e[0].0;
      assert Keys(d + e)[|d|] == k;
      forall j | 0 <= j < |d| ensures Keys(d)[j] != k {
        assert Keys(d + e)[j] == Keys(d)[j];
      }
      assert (d + [e[0]]) + e[1..] == d + e;
      assert Keys(d + e)[..|d| + 1] == Keys(d + [e[0]]);
      assert WellFormed(d + [e[0]] + e[1..]);
      UpdatedFresh(d + [e[0]], e[1..]);
    }
  }

  /** `d` without the entries under key `k`. */
  function Removed<V>(d: Dict<V>, k: string): (r: Dict<V>)
    ensures forall x :: x in Keys(r) <==> x in Keys(d) && x != k
    ensures WellFormed(d) ==> WellFormed(r)
    decreases |d|
  {
    if d == [] then []
    else
      var tail := Removed(d[1..], k);
      assert forall x :: x in Keys(d[1..]) ==> x in Keys(d) by {
        forall x | x in Keys(d[1..]) ensures x in Keys(d) {
          var i :| 0 <= i < |d[1..]| && Keys(d[1..])[i] == x;
          assert Keys(d)[i + 1] == x;
        }
      }
      assert forall x :: x in Keys(d) ==> x == d[0].0 || x in Keys(d[1..]) by {
        forall x | x in Keys(d) ensures x == d[0].0 || x in Keys(d[1..]) {
          var i :| 0 <= i < |d| && Keys(d)[i] == x;
          if i > 0 {
            assert Keys(d[1..])[i - 1] == x;
          }
        }
      }
      if d[0].0 == k then tail
      else
        assert WellFormed(d) ==> WellFormed(d[1..]) && d[0].0 !in Keys(d[1..]) by {
          if WellFormed(d) {
            assert Keys(d[1..]) == Keys(d)[1..];
          }
        }
        assert Keys([d[0]] + tail) == [d[0].0] + Keys(tail);
        [d[0]] + tail
  }

  /** Deleting the one entry at position `i` removes its key. */
  lemma {:induction false} RemovedAt<V>(d: Dict<V>, i: nat)
    requires WellFormed(d) && i < |d|
    ensures Removed(d, d[i].0) == d[..i] + d[i + 1..]
    decreases |d|
  {
    var k := d[i].0;
    if i == 0 {
      if d[1..] != [] {
        assert Keys(d[1..]) == Keys(d)[1..];
        NotPresentRemoved(d[1..], k);
      }
    } else {
      assert Keys(d[1..]) == Keys(d)[1..];
      RemovedAt(d[1..], i - 1);
      assert d[1..][i - 1] == d[i];
      assert d[..i] + d[i + 1..] == [d[0]] + (d[1..][..i - 1] + d[1..][i..]);
    }
  }

  lemma {:induction false} NotPresentRemoved<V>(d: Dict<V>, k: string)
    requires k !in Keys(d)
    ensures Removed(d, k) == d
    decreases |d|
  {
    if d != [] {
      assert Keys(d)[0] == d[0].0;
      assert forall x :: x in Keys(d[1..]) ==> x in Keys(d) by {
        forall x | x in Keys(d[1..]) ensures x in Keys(d) {
          var j :| 0 <= j < |d[1..]| && Keys(d[1..])[j] == x;
          assert Keys(d)[j + 1] == x;
        }
      }
      NotPresentRemoved(d[1..], k);
    }
  }

  lemma GetFirst<V>(d: Dict<V>, k: string)
    requires d != []
    ensures Get(d, k) == if d[0].0 == k then Some(d[0].1) else Get(d[1..], k)
  {
  }

  /** Removing one key leaves the value under every other key as it was. */
  lemma {:induction false} GetRemoved<V>(d: Dict<V>, gone: string, k: string)
    requires gone != k
    ensures Get(Removed(d, gone), k) == Get(d, k)
    decreases |d|
  {
    if d != [] {
      GetRemoved(d[1..], gone, k);
      GetFirst(d, k);
      var tail := Removed(d[1..], gone);
      if d[0].0 != gone {
        assert Removed(d, gone) == [d[0]] + tail;
        assert ([d[0]] + tail)[1..] == tail;
        GetFirst([d[0]] + tail, k);
      }
    }
  }

  /** `d.pop(k)`: the value under `k` and the dict without it, or a KeyError naming `k`. */
  function Popped<V>(d: Dict<V>, k: string): (r: Result<(V, Dict<V>), string>)
    requires WellFormed(d)
    ensures r.Failure? <==> k !in Keys(d)
    ensures r.Failure? ==> r.error == k
    ensures r.Success? ==> Get(d, k) == Some(r.value.0) && r.value.1 == Removed(d, k)
  {
    match IndexOf(d, k)
    case None => Failure(k)
    case Some(i) =>
      RemovedAt(d, i);
      Success((d[i].1, d[..i] + d[i + 1..]))
  }

  /** A mutable Python dict. */
  class PyDict<V> {
    var entries: Dict<V>

    /** Every key occurs once. */
    ghost predicate Valid()
      reads this
    {
      WellFormed(entries)
    }

    constructor (e: Dict<V>)
      requires WellFormed(e)
      ensures entries == e && Valid()
    {
      entries := e;
    }

    /** `copy.deepcopy(d)`: the values are immutable, so copying the entries suffices. */
    method Copy() returns (c: PyDict<V>)
      requires Valid()
      ensures fresh(c) && c.entries == entries && c.Valid()
    {
      c := new PyDict(entries);
    }

    method SetItem(k: string, v: V)
      requires Valid()
      modifies this
      ensures Valid()
      ensures entries == Assigned(old(entries), k, v)
    {
      var i := IndexOf(entries, k);
      if i.Some? {
        entries := entries[i.value := (k, v)];
      } else {
        entries := entries + [(k, v)];
      }
    }

    method Update(e: Dict<V>)
      requires Valid()
      modifies this
      ensures Valid()
      ensures entries == Updated(old(entries), e)
    {
      for i := 0 to |e|
        invariant Valid()
        invariant Updated(entries, e[i..]) == Updated(old(entries), e)
      {
        assert e[i..][1..] == e[i + 1..];
        SetItem(e[i].0, e[i].1);
      }
      assert e[|e|..] == [];
    }

    method Pop(k: string) returns (r: Result<V, string>)
      requires Valid()
      modifies this
      ensures Valid()
      ensures r.Failure? <==> k !in Keys(old(entries))
      ensures r.Failure? ==> r.error == k && entries == old(entries)
      ensures r.Success? ==> Some(r.value) == Get(old(entries), k) && entries == Removed(old(entries), k)
    {
      var i := IndexOf(entries, k);
      if i == None {
        return Failure(k);
      }
      var before := entries;
      RemovedAt(before, i.value);
      assert before[i.value].0 == k;
      r := Success(before[i.value].1);
      entries := before[..i.value] + before[i.value + 1..];
      assert entries == Removed(before, k);
    }
  }
}
