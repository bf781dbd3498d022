/** Python dict assignment `d[k] = v` applied in order: the last write to a key wins. */
module Dicts {

  /** The dict `m` after the assignments in `pairs`, first to last. */
  function AssignAll<K, V>(m: map<K, V>, pairs: seq<(K, V)>): map<K, V>
    decreases |pairs|
  {
    if |pairs| == 0 then m
    else
      var last := pairs[|pairs| - 1];
      AssignAll(m, pairs[..|pairs| - 1])[last.0 := last.1]
  }

  /** Assigning a concatenation is assigning one part after the other. */
  lemma {:induction false} AssignAllAppend<K, V>(m: map<K, V>, a: seq<(K, V)>, b: seq<(K, V)>)
    ensures AssignAll(m, a + b) == AssignAll(AssignAll(m, a), b)
    decreases |b|
  {
    if |b| == 0 {
      assert a + b == a;
    } else {
      assert (a + b)[..|a + b| - 1] == a + b[..|b| - 1];
      assert (a + b)[|a + b| - 1] == b[|b| - 1];
      AssignAllAppend(m, a, b[..|b| - 1]);
    }
  }

  /** A key is present afterwards iff it was present before or some pair writes it. */
  lemma {:induction false} AssignAllKeys<K, V>(m: map<K, V>, pairs: seq<(K, V)>, k: K)
    ensures k in AssignAll(m, pairs) <==> k in m || exists i :: 0 <= i < |pairs| && pairs[i].0 == k
    decreases |pairs|
  {
    if |pairs| > 0 {
      var init := pairs[..|pairs| - 1];
      AssignAllKeys(m, init, k);
      if exists i :: 0 <= i < |pairs| && pairs[i].0 == k {
        var i :| 0 <= i < |pairs| && pairs[i].0 == k;
        if i < |pairs| - 1 { assert init[i].0 == k; }
      }
      if exists i :: 0 <= i < |init| && init[i].0 == k {
        var i :| 0 <= i < |init| && init[i].0 == k;
        assert pairs[i].0 == k;
      }
    }
  }

  /** The value under a key is the one written by the last pair with that key. */
  lemma {:induction false} AssignAllLastWins<K, V>(m: map<K, V>, pairs: seq<(K, V)>, i: nat)
    requires i < |pairs|
    requires forall j :: i < j < |pairs| ==> pairs[j].0 != pairs[i].0
    ensures pairs[i].0 in AssignAll(m, pairs)
    ensures AssignAll(m, pairs)[pairs[i].0] == pairs[i].1
    decreases |pairs|
  {
    if i < |pairs| - 1 {
      AssignAllLastWins(m, pairs[..|pairs| - 1], i);
    }
  }

  /** A key no pair writes keeps its old value. */
  lemma {:induction false} AssignAllUntouched<K, V>(m: map<K, V>, pairs: seq<(K, V)>, k: K)
    requires k in m
    requires forall j :: 0 <= j < |pairs| ==> pairs[j].0 != k
    ensures k in AssignAll(m, pairs) && AssignAll(m, pairs)[k] == m[k]
    decreases |pairs|
  {
    if |pairs| > 0 {
      AssignAllUntouched(m, pairs[..|pairs| - 1], k);
    }
  }

  /** `for k, v in pairs: m[k] = v` */
  method AssignEach<K, V>(m: map<K, V>, pairs: seq<(K, V)>) returns (r: map<K, V>)
    ensures r == AssignAll(m, pairs)
  {
    r := m;
    var k := 0;
    while k < |pairs|
      invariant 0 <= k <= |pairs|
      invariant r == AssignAll(m, pairs[..k])
    {
      assert pairs[..k + 1][..k] == pairs[..k];
      r := r[pairs[k].0 := pairs[k].1];
      k := k + 1;
    }
    assert pairs[..k] == pairs;
  }
}
