/** Lookup-by-field over a collection stored as a map from generated ids to records. A collection
    lists its records in ascending id order, which is the order in which they were inserted. */
module Collections {
  import opened Domain

  /** The records stored under ids below `hi` that satisfy `keep`, in ascending id order. */
  function Select<V>(m: map<nat, V>, keep: V -> bool, hi: nat): (r: seq<V>)
    ensures forall i :: 0 <= i < |r| ==> keep(r[i]) && exists k :: k in m && k < hi && m[k] == r[i]
    ensures forall k :: k in m && k < hi && keep(m[k]) ==> m[k] in r
    ensures (forall k :: k in m && k < hi ==> !keep(m[k])) ==> r == []
  {
    if hi == 0 then []
    else Select(m, keep, hi - 1) + (if hi - 1 in m && keep(m[hi - 1]) then [m[hi - 1]] else [])
  }

  /** When every record carries its own id, Select lists them in strictly ascending id order. */
  lemma {:induction false} SelectAscending<V>(m: map<nat, V>, keep: V -> bool, hi: nat, key: V -> nat)
    requires forall k :: k in m ==> key(m[k]) == k
    ensures forall i, j :: 0 <= i < j < |Select(m, keep, hi)| ==> key(Select(m, keep, hi)[i]) < key(Select(m, keep, hi)[j])
  {
    if hi > 0 {
      SelectAscending(m, keep, hi - 1, key);
      var r := Select(m, keep, hi - 1);
      assert forall i :: 0 <= i < |r| ==> key(r[i]) < hi - 1 by {
        forall i | 0 <= i < |r|
          ensures key(r[i]) < hi - 1
        {
          var k :| k in m && k < hi - 1 && m[k] == r[i];
        }
      }
      var tail := if hi - 1 in m && keep(m[hi - 1]) then [m[hi - 1]] else [];
      var full := r + tail;
      assert Select(m, keep, hi) == full;
      forall i, j | 0 <= i < j < |full|
        ensures key(full[i]) < key(full[j])
      {
        assert full[i] == r[i];
        if j < |r| {
          assert full[j] == r[j];
          assert key(r[i]) < key(r[j]);
        } else {
          assert tail == [m[hi - 1]] && j == |r|;
          assert full[j] == m[hi - 1];
          assert key(r[i]) < hi - 1;
        }
      }
    }
  }

  /** The lowest id in [lo, hi) whose record satisfies `keep`, if there is one. */
  function FirstKey<V>(m: map<nat, V>, keep: V -> bool, lo: nat, hi: nat): (r: Option<nat>)
    decreases hi - lo
    ensures r.Some? ==> lo <= r.value < hi && r.value in m && keep(m[r.value])
    ensures r.Some? ==> forall j :: lo <= j < r.value && j in m ==> !keep(m[j])
    ensures r.None? ==> forall j :: lo <= j < hi && j in m ==> !keep(m[j])
  {
    if lo >= hi then None
    else if lo in m && keep(m[lo]) then Some(lo)
    else FirstKey(m, keep, lo + 1, hi)
  }

  /** Overwriting one record with a value that `keep` judges the same way leaves the first match unchanged. */
  lemma {:induction false} FirstKeyUpdate<V>(m: map<nat, V>, keep: V -> bool, lo: nat, hi: nat, k: nat, v: V)
    requires k in m && keep(v) == keep(m[k])
    ensures FirstKey(m[k := v], keep, lo, hi) == FirstKey(m, keep, lo, hi)
    decreases hi - lo
  {
    if lo < hi {
      if lo in m {
        assert keep(m[k := v][lo]) == keep(m[lo]);
      }
      FirstKeyUpdate(m, keep, lo + 1, hi, k, v);
    }
  }
}
