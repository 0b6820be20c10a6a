/**
 * Python dictionaries as the source uses them: insertion-ordered association lists with
 * distinct keys. Order matters because `sorted(d.items(), ...)` is stable, so ties keep
 * insertion order.
 */
module PyDict {
  import opened Wrappers

  function Keys<K, V>(d: seq<(K, V)>): (ks: seq<K>)
    ensures |ks| == |d|
    ensures forall i :: 0 <= i < |d| ==> ks[i] == d[i].0
  {
    seq(|d|, i requires 0 <= i < |d| => d[i].0)
  }

  /** `k in d` */
  predicate HasKey<K(==), V>(d: seq<(K, V)>, k: K) {
    k in Keys(d)
  }

  ghost predicate DistinctKeys<K, V>(d: seq<(K, V)>) {
    forall i, j :: 0 <= i < j < |d| ==> d[i].0 != d[j].0
  }

  /** The position of key `k`: the first entry that carries it. */
  function IndexOf<K(==), V>(d: seq<(K, V)>, k: K): (i: nat)
    requires HasKey(d, k)
    ensures i < |d| && d[i].0 == k
    ensures forall j :: 0 <= j < i ==> d[j].0 != k
  {
    if d[0].0 == k then 0
    else
      assert Keys(d) == [d[0].0] + Keys(d[1..]);
      1 + IndexOf(d[1..], k)
  }

  /** `d.get(k)` */
  function Lookup<K(==), V>(d: seq<(K, V)>, k: K): (r: Option<V>)
    ensures r.Some? <==> HasKey(d, k)
  {
    if HasKey(d, k) then Some(d[IndexOf(d, k)].1) else None
  }

  /** `d[k] = v`: an existing key keeps its position, a new key goes last. */
  function Put<K(==), V>(d: seq<(K, V)>, k: K, v: V): (r: seq<(K, V)>)
    ensures Lookup(r, k) == Some(v)
  {
    if HasKey(d, k) then
      var i := IndexOf(d, k);
      var r := d[i := (k, v)];
      assert r[i].0 == k && Keys(r)[i] == k;
      r
    else
      var r := d + [(k, v)];
      assert Keys(r)[|d|] == k;
      assert forall j :: 0 <= j < |d| ==> r[j].0 != k;
      r
  }

  /** In a dictionary, the entry at position `i` is what `d[d[i].0]` gives. */
  lemma LookupAt<K, V>(d: seq<(K, V)>, i: nat)
    requires DistinctKeys(d) && i < |d|
    ensures HasKey(d, d[i].0) && Lookup(d, d[i].0) == Some(d[i].1)
  {
    assert Keys(d)[i] == d[i].0;
  }

  /** `d[k] = v` leaves every other key, and its value, alone and keeps keys distinct. */
  lemma PutSpec<K, V>(d: seq<(K, V)>, k: K, v: V)
    requires DistinctKeys(d)
    ensures DistinctKeys(Put(d, k, v))
    ensures forall j :: j != k ==> Lookup(Put(d, k, v), j) == Lookup(d, j)
    ensures Keys(Put(d, k, v)) == if HasKey(d, k) then Keys(d) else Keys(d) + [k]
  {
    var r := Put(d, k, v);
    if HasKey(d, k) {
      var i := IndexOf(d, k);
      assert Keys(r) == Keys(d);
      forall j | j != k
        ensures Lookup(r, j) == Lookup(d, j)
      {
        if HasKey(d, j) {
          var m := IndexOf(d, j);
          LookupAt(d, m);
          LookupAt(r, m);
        }
      }
    } else {
      assert Keys(r) == Keys(d) + [k];
      forall j | j != k
        ensures Lookup(r, j) == Lookup(d, j)
      {
        if HasKey(d, j) {
          var m := IndexOf(d, j);
          assert DistinctKeys(r);
          LookupAt(d, m);
          LookupAt(r, m);
        }
      }
    }
  }

  /** `d[k] = v` read back at one key `j`. */
  lemma PutAt<K, V>(d: seq<(K, V)>, k: K, v: V, j: K)
    requires DistinctKeys(d)
    ensures DistinctKeys(Put(d, k, v))
    ensures Lookup(Put(d, k, v), j) == if j == k then Some(v) else Lookup(d, j)
  {
    PutSpec(d, k, v);
  }
}
