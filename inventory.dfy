/**
 * The hardware inventory: a `Dictionary<string, string>` from dotted keys
 * ("CPU.Name", "GPU.0.RAM", ...) to free-text values. A .NET dictionary that is
 * only ever added to enumerates its keys in insertion order, so it is modelled as
 * the sequence of its entries in that order.
 */
module Inventory {
  import opened Wrappers
  import opened Text

  datatype Entry = Entry(key: string, value: string)

  type Dictionary = seq<Entry>

  function Keys(d: Dictionary): (ks: seq<string>)
    ensures |ks| == |d|
    ensures forall i :: 0 <= i < |d| ==> ks[i] == d[i].key
  {
    if d == [] then [] else [d[0].key] + Keys(d[1..])
  }

  /** `d.TryGetValue(k, out v)`: the value of the first entry with key `k`. */
  function Get(d: Dictionary, k: string): (r: Option<string>)
    ensures r.None? <==> k !in Keys(d)
    ensures r.Some? ==> exists i :: 0 <= i < |d| && d[i] == Entry(k, r.value)
  {
    if d == [] then None
    else if d[0].key == k then Some(d[0].value)
    else
      var r := Get(d[1..], k);
      assert Keys(d) == [d[0].key] + Keys(d[1..]);
      if r.Some? then
        var i :| 0 <= i < |d[1..]| && d[1..][i] == Entry(k, r.value);
        assert d[i + 1] == Entry(k, r.value);
        r
      else r
  }

  /** `d[k] = v`: replaces the value of an existing key in place, or appends a new entry. */
  function Put(d: Dictionary, k: string, v: string): (r: Dictionary)
    ensures k in Keys(d) ==> Keys(r) == Keys(d)
    ensures k !in Keys(d) ==> Keys(r) == Keys(d) + [k]
  {
    if d == [] then [Entry(k, v)]
    else if d[0].key == k then [Entry(k, v)] + d[1..]
    else
      var r := [d[0]] + Put(d[1..], k, v);
      assert Keys(d) == [d[0].key] + Keys(d[1..]);
      assert r[1..] == Put(d[1..], k, v);
      assert Keys(r) == [d[0].key] + Keys(Put(d[1..], k, v));
      r
  }

  /** `d[k] = v` adds no key but `k`. */
  lemma PutKeysFrom(d: Dictionary, k: string, v: string)
    ensures forall x :: x in Keys(Put(d, k, v)) ==> x in Keys(d) || x == k
  {
  }

  /** After `d[k] = v` the key `k` maps to `v` and every other key keeps its value. */
  lemma {:induction false} PutGet(d: Dictionary, k: string, v: string, k': string)
    ensures Get(Put(d, k, v), k') == if k' == k then Some(v) else Get(d, k')
  {
    if d != [] && d[0].key != k {
      PutGet(d[1..], k, v, k');
      assert Put(d, k, v)[1..] == Put(d[1..], k, v);
    } else if d != [] {
      assert Put(d, k, v)[1..] == d[1..];
    }
  }

  /** Two assignments of fresh, distinct keys append both, in order. */
  lemma PutPutKeys(d: Dictionary, k1: string, v1: string, k2: string, v2: string)
    requires k1 !in Keys(d) && k2 !in Keys(d) && k1 != k2
    ensures Keys(Put(Put(d, k1, v1), k2, v2)) == Keys(d) + [k1, k2]
  {
    assert k2 !in Keys(d) + [k1];
  }

  /** Assigning a key the dictionary does not hold adds its entry at the end. */
  lemma {:induction false} PutFresh(d: Dictionary, k: string, v: string)
    requires k !in Keys(d)
    ensures Put(d, k, v) == d + [Entry(k, v)]
  {
    if d != [] {
      assert d[0].key == Keys(d)[0] && k !in Keys(d[1..]);
      PutFresh(d[1..], k, v);
      calc {
        Put(d, k, v);
        [d[0]] + Put(d[1..], k, v);
        [d[0]] + (d[1..] + [Entry(k, v)]);
        { assert d == [d[0]] + d[1..]; }
        d + [Entry(k, v)];
      }
    }
  }

  predicate DistinctSeq(ks: seq<string>) {
    forall i, j :: 0 <= i < j < |ks| ==> ks[i] != ks[j]
  }

  /** Assignment through the indexer never creates a second entry for a key. */
  lemma PutKeepsDistinct(d: Dictionary, k: string, v: string)
    requires DistinctSeq(Keys(d))
    ensures DistinctSeq(Keys(Put(d, k, v)))
  {
  }

  /** `d.Keys.Any(k => k.StartsWith(p))` */
  predicate HasKeyWithPrefix(d: Dictionary, p: string) {
    exists i :: 0 <= i < |d| && StartsWith(d[i].key, p)
  }

  /** The entries whose key starts with `p`, in enumeration order (`d.Keys.Where(...)`). */
  function WithPrefix(d: Dictionary, p: string): (r: seq<Entry>)
    ensures |r| <= |d|
    ensures |r| > 0 <==> HasKeyWithPrefix(d, p)
  {
    if d == [] then []
    else
      var rest := WithPrefix(d[1..], p);
      assert HasKeyWithPrefix(d[1..], p) ==> HasKeyWithPrefix(d, p) by {
        if HasKeyWithPrefix(d[1..], p) {
          var i :| 0 <= i < |d[1..]| && StartsWith(d[1..][i].key, p);
          assert d[i + 1] == d[1..][i];
        }
      }
      assert HasKeyWithPrefix(d, p) && !StartsWith(d[0].key, p) ==> HasKeyWithPrefix(d[1..], p) by {
        if HasKeyWithPrefix(d, p) && !StartsWith(d[0].key, p) {
          var i :| 0 <= i < |d| && StartsWith(d[i].key, p);
          assert d[1..][i - 1] == d[i];
        }
      }
      if StartsWith(d[0].key, p) then [d[0]] + rest else rest
  }

  /** The filter keeps exactly the entries whose key has the prefix. */
  lemma {:induction false} WithPrefixMembers(d: Dictionary, p: string, e: Entry)
    ensures e in WithPrefix(d, p) <==> e in d && StartsWith(e.key, p)
  {
    if d != [] {
      WithPrefixMembers(d[1..], p, e);
      assert e in d <==> e == d[0] || e in d[1..];
    }
  }

  /**
   * Filtering an extended dictionary filters the old entries, in their order and each
   * as often as it occurs, then keeps the new entry exactly when its key has the prefix.
   */
  lemma {:induction false} WithPrefixSnoc(d: Dictionary, e: Entry, p: string)
    ensures WithPrefix(d + [e], p) == WithPrefix(d, p) + (if StartsWith(e.key, p) then [e] else [])
  {
    if d == [] {
      assert [] + [e] == [e];
      assert [e][1..] == [];
    } else {
      assert (d + [e])[0] == d[0];
      assert (d + [e])[1..] == d[1..] + [e];
      WithPrefixSnoc(d[1..], e, p);
    }
  }

  /** When the last entry's key has the prefix, it is the last entry of the filter too. */
  lemma {:induction false} WithPrefixLast(d: Dictionary, p: string)
    requires d != [] && StartsWith(d[|d| - 1].key, p)
    ensures WithPrefix(d, p) != [] && WithPrefix(d, p)[|WithPrefix(d, p)| - 1] == d[|d| - 1]
  {
    var t := d[1..];
    if t != [] {
      assert t[|t| - 1] == d[|d| - 1];
      WithPrefixLast(t, p);
    }
    var rest := WithPrefix(t, p);
    assert WithPrefix(d, p) == if StartsWith(d[0].key, p) then [d[0]] + rest else rest;
  }
}
