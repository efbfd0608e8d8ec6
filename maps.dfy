// Building a std::map by `m[key] = value` over two parallel columns, in index order.
module Maps {

  /** m after `m[ks[i]] = vs[i]` for i = 0 .. |ks| - 1. */
  function InsertAll<K, V>(m: map<K, V>, ks: seq<K>, vs: seq<V>): map<K, V>
    requires |ks| == |vs|
    decreases |ks|
  {
    if ks == [] then m
    else InsertAll(m, ks[..|ks| - 1], vs[..|vs| - 1])[ks[|ks| - 1] := vs[|vs| - 1]]
  }

  /** The keys are the old keys plus every inserted key. */
  lemma {:induction false} InsertAllKeys<K, V>(m: map<K, V>, ks: seq<K>, vs: seq<V>)
    requires |ks| == |vs|
    ensures forall k :: k in InsertAll(m, ks, vs) <==> k in m || k in ks
    decreases |ks|
  {
    if ks != [] {
      var n := |ks| - 1;
      InsertAllKeys(m, ks[..n], vs[..n]);
      assert ks == ks[..n] + [ks[n]];
    }
  }

  /** A later duplicate key overwrites an earlier one: the value stored for a key is the one
      at its last occurrence. */
  lemma {:induction false} InsertAllLastWins<K, V>(m: map<K, V>, ks: seq<K>, vs: seq<V>, i: int)
    requires |ks| == |vs| && 0 <= i < |ks|
    requires forall j :: i < j < |ks| ==> ks[j] != ks[i]
    ensures ks[i] in InsertAll(m, ks, vs) && InsertAll(m, ks, vs)[ks[i]] == vs[i]
    decreases |ks|
  {
    var n := |ks| - 1;
    if i < n {
      InsertAllLastWins(m, ks[..n], vs[..n], i);
    }
  }

  /** A key that is never inserted keeps its old value. */
  lemma {:induction false} InsertAllUntouched<K, V>(m: map<K, V>, ks: seq<K>, vs: seq<V>, k: K)
    requires |ks| == |vs| && k in m
    requires forall j :: 0 <= j < |ks| ==> ks[j] != k
    ensures k in InsertAll(m, ks, vs) && InsertAll(m, ks, vs)[k] == m[k]
    decreases |ks|
  {
    if ks != [] {
      var n := |ks| - 1;
      InsertAllUntouched(m, ks[..n], vs[..n], k);
    }
  }

  /** Every stored value for an inserted key is one of the inserted values at that key. */
  lemma {:induction false} InsertAllSource<K, V>(m: map<K, V>, ks: seq<K>, vs: seq<V>, k: K)
    requires |ks| == |vs| && k in InsertAll(m, ks, vs)
    ensures (exists j :: 0 <= j < |ks| && ks[j] == k && InsertAll(m, ks, vs)[k] == vs[j])
         || (k in m && InsertAll(m, ks, vs)[k] == m[k])
    decreases |ks|
  {
    if ks != [] {
      var n := |ks| - 1;
      if k != ks[n] {
        InsertAllSource(m, ks[..n], vs[..n], k);
        if exists j :: 0 <= j < n && ks[..n][j] == k && InsertAll(m, ks[..n], vs[..n])[k] == vs[..n][j] {
          var j :| 0 <= j < n && ks[..n][j] == k && InsertAll(m, ks[..n], vs[..n])[k] == vs[..n][j];
          assert ks[j] == k && vs[j] == vs[..n][j];
        }
      } else {
        assert ks[n] == k;
      }
    }
  }
}
