/** The balance dictionary the projection carries from month to month, the
    single update it applies to it, and the total of all balances. */
module Ledger {

  type Balances = map<string, real>

  /** `if (b[id] !== undefined) b[id] += delta`: an unknown account is left
      alone, no account is ever added, and no other account changes. */
  function Adjust(b: Balances, id: string, delta: real): (r: Balances)
    ensures r.Keys == b.Keys
    ensures id !in b ==> r == b
    ensures id in b ==> r[id] == b[id] + delta
    ensures forall k :: k in b && k != id ==> r[k] == b[k]
  {
    if id in b then b[id := b[id] + delta] else b
  }

  /** Sum of the balances of the accounts in `keys`. */
  ghost function SumOver(b: Balances, keys: set<string>): real
    requires keys <= b.Keys
    decreases keys
  {
    if keys == {} then 0.0 else var k :| k in keys; b[k] + SumOver(b, keys - {k})
  }

  /** Sum of all balances. */
  ghost function MapSum(b: Balances): real {
    SumOver(b, b.Keys)
  }

  lemma {:induction false} SumOverRemove(b: Balances, keys: set<string>, k: string)
    requires keys <= b.Keys && k in keys
    ensures SumOver(b, keys) == b[k] + SumOver(b, keys - {k})
    decreases keys
  {
    var j :| j in keys && SumOver(b, keys) == b[j] + SumOver(b, keys - {j});
    if j != k {
      SumOverRemove(b, keys - {j}, k);
      SumOverRemove(b, keys - {k}, j);
      assert keys - {j} - {k} == keys - {k} - {j};
    }
  }

  lemma {:induction false} SumOverAgree(b: Balances, c: Balances, keys: set<string>)
    requires keys <= b.Keys && keys <= c.Keys
    requires forall k :: k in keys ==> b[k] == c[k]
    ensures SumOver(b, keys) == SumOver(c, keys)
    decreases keys
  {
    if keys != {} {
      var k :| k in keys;
      SumOverRemove(b, keys, k);
      SumOverRemove(c, keys, k);
      SumOverAgree(b, c, keys - {k});
    }
  }

  /** Adjusting a known account changes the total by exactly the adjustment;
      adjusting an unknown one leaves it as it was. */
  lemma MapSumAdjust(b: Balances, id: string, delta: real)
    ensures MapSum(Adjust(b, id, delta)) == MapSum(b) + (if id in b then delta else 0.0)
  {
    if id in b {
      var r := Adjust(b, id, delta);
      SumOverRemove(b, b.Keys, id);
      SumOverRemove(r, r.Keys, id);
      SumOverAgree(b, r, b.Keys - {id});
    }
  }

}
