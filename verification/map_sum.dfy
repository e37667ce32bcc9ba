/**
 Finite maps from account identifiers to token counts: the "effective"
 lookup that reads an absent key as zero, and the sum of all stored values,
 with the facts about that sum that a ledger needs (how one write changes it,
 and that no single entry exceeds it).
 */
module MapSum {

  /** Effective value of `k`: the stored value, or 0 when `k` is absent. */
  function Get(m: map<string, nat>, k: string): (r: nat)
    ensures k !in m ==> r == 0
    ensures k in m ==> r == m[k]
  {
    if k in m then m[k] else 0
  }

  /** Sum of the values stored under `keys`. */
  ghost function SumOver(m: map<string, nat>, keys: set<string>): nat
    requires keys <= m.Keys
    decreases keys
  {
    if keys == {} then 0
    else
      var k :| k in keys;
      m[k] + SumOver(m, keys - {k})
  }

  /** Sum of every value stored in `m`. */
  ghost function Sum(m: map<string, nat>): nat
  {
    SumOver(m, m.Keys)
  }

  /** Any key of `keys` may be taken out first, whichever one `SumOver` picks. */
  lemma {:induction false} SumOverPick(m: map<string, nat>, keys: set<string>, k: string)
    requires keys <= m.Keys
    requires k in keys
    ensures SumOver(m, keys) == m[k] + SumOver(m, keys - {k})
    decreases keys
  {
    var j :| j in keys && SumOver(m, keys) == m[j] + SumOver(m, keys - {j});
    if j != k {
      SumOverPick(m, keys - {j}, k);
      SumOverPick(m, keys - {k}, j);
      assert keys - {j} - {k} == keys - {k} - {j};
    }
  }

  /** The sum over `keys` only depends on the values stored under `keys`. */
  lemma {:induction false} SumOverFrame(m: map<string, nat>, m': map<string, nat>, keys: set<string>)
    requires keys <= m.Keys && keys <= m'.Keys
    requires forall k :: k in keys ==> m[k] == m'[k]
    ensures SumOver(m, keys) == SumOver(m', keys)
    decreases keys
  {
    if keys != {} {
      var k :| k in keys;
      SumOverPick(m, keys, k);
      SumOverPick(m', keys, k);
      SumOverFrame(m, m', keys - {k});
    }
  }

  /** One write replaces the key's effective value in the sum by the new value. */
  lemma SumUpdate(m: map<string, nat>, k: string, v: nat)
    ensures Sum(m[k := v]) + Get(m, k) == Sum(m) + v
  {
    var m' := m[k := v];
    var rest := m.Keys - {k};
    SumOverFrame(m, m', rest);
    SumOverPick(m', m'.Keys, k);
    assert m'.Keys - {k} == rest;
    if k in m {
      SumOverPick(m, m.Keys, k);
    } else {
      assert rest == m.Keys;
    }
  }

  /** No single effective value exceeds the sum. */
  lemma EntryBelowSum(m: map<string, nat>, k: string)
    ensures Get(m, k) <= Sum(m)
  {
    if k in m {
      SumOverPick(m, m.Keys, k);
    }
  }

  /** The effective values of two different keys together do not exceed the sum. */
  lemma TwoEntriesBelowSum(m: map<string, nat>, a: string, b: string)
    requires a != b
    ensures Get(m, a) + Get(m, b) <= Sum(m)
  {
    if a in m {
      SumOverPick(m, m.Keys, a);
      if b in m {
        SumOverPick(m, m.Keys - {a}, b);
      }
    } else {
      EntryBelowSum(m, b);
    }
  }
}
