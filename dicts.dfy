/** Python dictionaries as the customer configuration builds them: entries in
    insertion order, each key at most once. */
module Dicts {

  import opened Wrappers

  type Dict<V> = seq<(string, V)>

  predicate UniqueKeys<V>(d: Dict<V>) {
    forall i, j :: 0 <= i < j < |d| ==> d[i].0 != d[j].0
  }

  /** list(d.keys()) */
  function KeySeq<V>(d: Dict<V>): seq<string> {
    seq(|d|, i requires 0 <= i < |d| => d[i].0)
  }

  /** set(d.keys()) */
  function Keys<V>(d: Dict<V>): set<string> {
    set i | 0 <= i < |d| :: d[i].0
  }

  /** list(d.values()) */
  function Values<V>(d: Dict<V>): seq<V> {
    seq(|d|, i requires 0 <= i < |d| => d[i].1)
  }

  /** d.get(k) */
  function Get<V>(d: Dict<V>, k: string): Option<V> {
    if d == [] then None
    else if d[0].0 == k then Some(d[0].1)
    else Get(d[1..], k)
  }

  /** A key that is absent gives nothing. */
  lemma {:induction false} GetAbsent<V>(d: Dict<V>, k: string)
    requires k !in Keys(d)
    ensures Get(d, k) == None
  {
    if d != [] {
      assert d[0].0 in Keys(d);
      assert Keys(d[1..]) <= Keys(d) by {
        forall x | x in Keys(d[1..]) ensures x in Keys(d) {
          var i :| 0 <= i < |d[1..]| && d[1..][i].0 == x;
          assert d[i + 1].0 == x;
        }
      }
      GetAbsent(d[1..], k);
    }
  }

  /** With unique keys, the entry at position i is the one found for its key. */
  lemma {:induction false} GetAt<V>(d: Dict<V>, i: nat)
    requires UniqueKeys(d) && i < |d|
    ensures Get(d, d[i].0) == Some(d[i].1)
  {
    if i > 0 {
      assert d[0].0 != d[i].0;
      assert UniqueKeys(d[1..]) by {
        forall a, b | 0 <= a < b < |d[1..]| ensures d[1..][a].0 != d[1..][b].0 {
          assert d[a + 1].0 != d[b + 1].0;
        }
      }
      assert d[1..][i - 1] == d[i];
      GetAt(d[1..], i - 1);
    }
  }

  /** Two dicts listing the same keys in the same order have the same key set, and
      one has unique keys exactly when the other does. */
  lemma SameKeys<V, W>(a: Dict<V>, b: Dict<W>)
    requires KeySeq(a) == KeySeq(b)
    ensures Keys(a) == Keys(b)
    ensures UniqueKeys(a) <==> UniqueKeys(b)
  {
    assert |a| == |KeySeq(a)| == |KeySeq(b)| == |b|;
    assert forall i :: 0 <= i < |a| ==> a[i].0 == KeySeq(a)[i] == KeySeq(b)[i] == b[i].0;
  }
}
