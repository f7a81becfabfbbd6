/**
 * A Python `dict` whose iteration order matters: an association list in insertion order with
 * distinct keys. Assigning to a present key replaces its value in place (the key keeps its
 * position); assigning to a new key appends it.
 */
module OrderedDict {
  import opened Wrappers

  datatype Entry<V> = Entry(key: string, value: V)

  type ODict<V> = seq<Entry<V>>

  predicate HasKey<V>(d: ODict<V>, k: string) {
    exists i :: 0 <= i < |d| && d[i].key == k
  }

  /** No key occurs twice. */
  predicate WellFormed<V>(d: ODict<V>) {
    forall i, j :: 0 <= i < j < |d| ==> d[i].key != d[j].key
  }

  function Keys<V>(d: ODict<V>): (ks: seq<string>)
    ensures |ks| == |d|
    ensures forall i :: 0 <= i < |d| ==> ks[i] == d[i].key
  {
    seq(|d|, i requires 0 <= i < |d| => d[i].key)
  }

  /** `d.get(k)`. */
  function Get<V>(d: ODict<V>, k: string): (r: Option<V>)
    ensures r.Some? <==> HasKey(d, k)
  {
    if d == [] then None
    else if d[0].key == k then Some(d[0].value)
    else (assert forall i :: 1 <= i < |d| ==> d[i] == d[1..][i - 1]; Get(d[1..], k))
  }

  /** `d[k] = v`. */
  function Put<V>(d: ODict<V>, k: string, v: V): (r: ODict<V>)
    ensures HasKey(d, k) ==> |r| == |d|
    ensures !HasKey(d, k) ==> r == d + [Entry(k, v)]
  {
    if d == [] then [Entry(k, v)]
    else if d[0].key == k then [Entry(k, v)] + d[1..]
    else (assert HasKey(d, k) <==> HasKey(d[1..], k) by {
            assert forall i :: 1 <= i < |d| ==> d[i] == d[1..][i - 1];
          }
          [d[0]] + Put(d[1..], k, v))
  }

  /** In a well-formed dict, every entry is what `get` finds for its key. */
  lemma {:induction false} GetEntry<V>(d: ODict<V>, i: nat)
    requires WellFormed(d) && i < |d|
    ensures Get(d, d[i].key) == Some(d[i].value)
  {
    if i > 0 {
      assert d[1..][i - 1] == d[i];
      GetEntry(d[1..], i - 1);
    }
  }

  /** Extending a dict at the end with a new key does not change what older keys map to. */
  lemma {:induction false} GetAppend<V>(d: ODict<V>, e: Entry<V>, k: string)
    ensures Get(d + [e], k) == if HasKey(d, k) then Get(d, k) else if e.key == k then Some(e.value) else None
  {
    if d != [] {
      assert (d + [e])[1..] == d[1..] + [e];
      GetAppend(d[1..], e, k);
    }
  }

  /** After `d[k] = v`, `k` maps to `v` and every other key keeps its value. */
  lemma {:induction false} GetPut<V>(d: ODict<V>, k: string, v: V, k': string)
    ensures Get(Put(d, k, v), k') == if k' == k then Some(v) else Get(d, k')
  {
    if d != [] && d[0].key != k {
      GetPut(d[1..], k, v, k');
    }
  }

  lemma {:induction false} PutKeyOrder<V>(d: ODict<V>, k: string, v: V)
    ensures Keys(Put(d, k, v)) == if HasKey(d, k) then Keys(d) else Keys(d) + [k]
  {
    if d == [] {
      assert Keys(Put(d, k, v)) == [k];
    } else {
      KeysCons(d[0], d[1..]);
      assert d == [d[0]] + d[1..];
      if d[0].key == k {
        KeysCons(Entry(k, v), d[1..]);
      } else {
        PutKeyOrder(d[1..], k, v);
        assert HasKey(d, k) <==> HasKey(d[1..], k) by {
          assert forall i :: 1 <= i < |d| ==> d[i] == d[1..][i - 1];
        }
        KeysCons(d[0], Put(d[1..], k, v));
      }
    }
  }

  lemma KeysCons<V>(e: Entry<V>, rest: ODict<V>)
    ensures Keys([e] + rest) == [e.key] + Keys(rest)
  {
    assert forall i :: 1 <= i <= |rest| ==> ([e] + rest)[i] == rest[i - 1];
  }

  /** Assignment keeps the keys distinct, and their order: only a new key is added, at the end. */
  lemma PutKeys<V>(d: ODict<V>, k: string, v: V)
    requires WellFormed(d)
    ensures WellFormed(Put(d, k, v))
    ensures Keys(Put(d, k, v)) == if HasKey(d, k) then Keys(d) else Keys(d) + [k]
  {
    PutKeyOrder(d, k, v);
    var r := Put(d, k, v);
    forall i, j | 0 <= i < j < |r| ensures r[i].key != r[j].key {
      assert r[i].key == Keys(r)[i] && r[j].key == Keys(r)[j];
    }
  }
}
