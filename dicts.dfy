/** Python dictionaries as association lists in insertion order: assigning to
    a key that is present replaces its value where it stands, assigning to a new
    key appends it at the end. */
module Dicts {
  import opened Wrappers

  predicate UniqueKeys<K(==), V>(d: seq<(K, V)>) {
    forall i, j :: 0 <= i < j < |d| ==> d[i].0 != d[j].0
  }

  function Keys<K, V>(d: seq<(K, V)>): (ks: seq<K>)
    ensures |ks| == |d|
  {
    seq(|d|, i requires 0 <= i < |d| => d[i].0)
  }

  /** The position of key `k`: the first entry holding it, or None. */
  function IndexOf<K(==), V>(d: seq<(K, V)>, k: K): (r: Option<nat>)
    ensures r.Some? ==> r.value < |d| && d[r.value].0 == k
    ensures r.Some? ==> forall j :: 0 <= j < r.value ==> d[j].0 != k
    ensures r.None? ==> forall j :: 0 <= j < |d| ==> d[j].0 != k
  {
    if |d| == 0 then None
    else if d[0].0 == k then Some(0)
    else match IndexOf(d[1..], k)
      case None => None
      case Some(i) => Some(i + 1)
  }

  /** d.get(k): the value stored under `k`, or None. */
  function Lookup<K(==), V>(d: seq<(K, V)>, k: K): Option<V> {
    match IndexOf(d, k)
    case Some(i) => Some(d[i].1)
    case None => None
  }

  /** d[k] = v. */
  function Assign<K(==), V>(d: seq<(K, V)>, k: K, v: V): seq<(K, V)> {
    match IndexOf(d, k)
    case Some(i) => d[i := (k, v)]
    case None => d + [(k, v)]
  }

  /** After d[k] = v, looking up k gives v and every other key keeps its value. */
  lemma LookupAssign<K, V>(d: seq<(K, V)>, k: K, v: V, k': K)
    ensures Lookup(Assign(d, k, v), k') == if k' == k then Some(v) else Lookup(d, k')
  {
    var r := Assign(d, k, v);
    match IndexOf(d, k)
    case Some(i) =>
      assert r[i] == (k, v);
      if k' != k {
        assert forall j :: 0 <= j < |d| ==> r[j].0 == d[j].0;
        match IndexOf(d, k')
        case Some(i') =>
          assert r[i'].0 == k';
          assert IndexOf(r, k') == Some(i');
        case None => assert IndexOf(r, k').None?;
      } else {
        assert IndexOf(r, k) == Some(i);
      }
    case None =>
      assert r[|d|] == (k, v);
      if k' != k {
        assert forall j :: 0 <= j < |d| ==> r[j].0 == d[j].0;
        match IndexOf(d, k')
        case Some(i') =>
          assert r[i'].0 == k';
          assert IndexOf(r, k') == Some(i');
        case None => assert IndexOf(r, k').None?;
      } else {
        assert IndexOf(r, k) == Some(|d|);
      }
  }

  /** Assignment never duplicates a key, and keeps the order of the keys: a new
      key goes last, a present one stays where it was. */
  lemma AssignKeys<K, V>(d: seq<(K, V)>, k: K, v: V)
    requires UniqueKeys(d)
    ensures UniqueKeys(Assign(d, k, v))
    ensures Keys(Assign(d, k, v)) == if Lookup(d, k).Some? then Keys(d) else Keys(d) + [k]
  {
    var r := Assign(d, k, v);
    match IndexOf(d, k)
    case Some(i) =>
      assert Keys(r) == Keys(d);
    case None =>
      assert Keys(r) == Keys(d) + [k];
  }
}
