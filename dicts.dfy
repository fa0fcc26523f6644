/** `merge_dicts(*dict_args)`: a fresh dictionary that takes the pairs of
    every argument in turn, so a later dictionary wins on a shared key. */
module Dicts {

  /** The dictionary `merge_dicts` returns, described by the last update first. */
  function MergeAll<K, V>(dicts: seq<map<K, V>>): map<K, V> {
    if dicts == [] then map[] else MergeAll(dicts[..|dicts| - 1]) + dicts[|dicts| - 1]
  }

  /** `k` is in `dicts[i]` and in none of the dictionaries after it. */
  predicate LastHolder<K, V>(dicts: seq<map<K, V>>, k: K, i: int) {
    0 <= i < |dicts| && k in dicts[i] && forall j :: i < j < |dicts| ==> k !in dicts[j]
  }

  /** The merged keys are the union of the arguments' keys. */
  lemma {:induction false} MergeAllKeys<K, V>(dicts: seq<map<K, V>>, k: K)
    ensures k in MergeAll(dicts) <==> exists i :: 0 <= i < |dicts| && k in dicts[i]
  {
    if dicts != [] {
      var n := |dicts| - 1;
      MergeAllKeys(dicts[..n], k);
      if k in MergeAll(dicts[..n]) {
        var i :| 0 <= i < n && k in dicts[..n][i];
        assert k in dicts[i];
      }
      if i :| 0 <= i < |dicts| && k in dicts[i] {
        if i < n {
          assert k in dicts[..n][i];
        }
      }
    }
  }

  /** On a shared key the value comes from the last dictionary holding it. */
  lemma {:induction false} MergeAllLastWins<K, V>(dicts: seq<map<K, V>>, k: K, i: int)
    requires LastHolder(dicts, k, i)
    ensures k in MergeAll(dicts) && MergeAll(dicts)[k] == dicts[i][k]
  {
    var n := |dicts| - 1;
    if i < n {
      assert LastHolder(dicts[..n], k, i);
      MergeAllLastWins(dicts[..n], k, i);
    }
  }

  /** `merge_dicts`: start from `{}` and `update` with each argument in turn.
      The arguments are values, so none of them is changed. */
  method MergeDicts<K, V>(dicts: seq<map<K, V>>) returns (result: map<K, V>)
    ensures result == MergeAll(dicts)
    ensures forall k :: k in result <==> exists i :: 0 <= i < |dicts| && k in dicts[i]
    ensures forall k, i :: LastHolder(dicts, k, i) ==> k in result && result[k] == dicts[i][k]
  {
    result := map[];
    for n := 0 to |dicts|
      invariant result == MergeAll(dicts[..n])
    {
      assert dicts[..n + 1][..n] == dicts[..n];
      result := result + dicts[n];
    }
    assert dicts[..|dicts|] == dicts;
    forall k ensures k in result <==> exists i :: 0 <= i < |dicts| && k in dicts[i] {
      MergeAllKeys(dicts, k);
    }
    forall k, i | LastHolder(dicts, k, i) ensures k in result && result[k] == dicts[i][k] {
      MergeAllLastWins(dicts, k, i);
    }
  }
}
