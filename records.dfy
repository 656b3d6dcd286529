/** The optional value of a lookup that may find nothing (`undefined`). */
module Options {
  datatype Option<T> = None | Some(value: T) {
    function GetOr(default: T): T
    {
      if Some? then value else default
    }
  }
}

/**
 * A JavaScript object used as a dictionary, seen as `Object.entries` lists it:
 * its (key, value) pairs in insertion order. Assigning to a present key keeps
 * its position, assigning to a new key appends it, and `delete` removes it.
 */
module Records {
  import opened Options

  type Record<V> = seq<(string, V)>

  /** No key occurs twice, as in every JavaScript object. */
  ghost predicate Keyed<V>(r: Record<V>)
  {
    forall i, j :: 0 <= i < j < |r| ==> r[i].0 != r[j].0
  }

  ghost predicate HasKey<V>(r: Record<V>, k: string)
  {
    exists i :: 0 <= i < |r| && r[i].0 == k
  }

  /** `r[k]`: the value stored under `k`, or None when `k` is absent. */
  function Get<V>(r: Record<V>, k: string): (v: Option<V>)
    ensures v.Some? <==> HasKey(r, k)
    ensures v.Some? ==> (k, v.value) in r
    ensures Keyed(r) ==> forall i :: 0 <= i < |r| && r[i].0 == k ==> v == Some(r[i].1)
  {
    if r == [] then None
    else if r[0].0 == k then Some(r[0].1)
    else
      var v := Get(r[1..], k);
      assert forall i :: 1 <= i < |r| ==> r[i] == r[1..][i - 1];
      v
  }

  /** `r[k] = v` on a copy: replaces the entry of `k` in place, or appends one. */
  function Put<V>(r: Record<V>, k: string, v: V): (r': Record<V>)
    ensures forall k' :: Get(r', k') == if k' == k then Some(v) else Get(r, k')
    ensures forall i :: 0 <= i < |r'| ==> r'[i] == (k, v) || r'[i] in r
    ensures Keyed(r) ==> Keyed(r')
  {
    if r == [] then [(k, v)]
    else if r[0].0 == k then [(k, v)] + r[1..]
    else
      var t := Put(r[1..], k, v);
      assert Keyed(r) ==> forall i :: 0 <= i < |t| ==> t[i].0 != r[0].0;
      [r[0]] + t
  }

  /** `delete r[k]` on a copy. */
  function Remove<V>(r: Record<V>, k: string): (r': Record<V>)
    ensures forall k' :: Get(r', k') == if k' == k then None else Get(r, k')
    ensures forall i :: 0 <= i < |r'| ==> r'[i] in r && r'[i].0 != k
    ensures forall i :: 0 <= i < |r| && r[i].0 != k ==> r[i] in r'
    ensures Keyed(r) ==> Keyed(r')
  {
    if r == [] then []
    else if r[0].0 == k then Remove(r[1..], k)
    else [r[0]] + Remove(r[1..], k)
  }
}
