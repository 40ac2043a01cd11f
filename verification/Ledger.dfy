/** Token balances, and sums over stored maps. */
module Ledger {
  import opened DaoTypes

  datatype Holding = Holding(asset: Address, owner: Address)

  type Bank = map<Holding, nat>

  function Balance(bank: Bank, asset: Address, owner: Address): nat {
    var h := Holding(asset, owner);
    if h in bank then bank[h] else 0
  }

  /** A token transfer: it fails when the sender does not hold the amount. */
  function Transfer(bank: Bank, asset: Address, from: Address, to: Address, amount: nat): Result<Bank> {
    if Balance(bank, asset, from) < amount then Err(CollateralError)
    else
      var paid := bank[Holding(asset, from) := Balance(bank, asset, from) - amount];
      Ok(paid[Holding(asset, to) := Balance(paid, asset, to) + amount])
  }

  /** A transfer moves exactly the amount between two accounts and touches nothing else. */
  lemma TransferMoves(bank: Bank, asset: Address, from: Address, to: Address, amount: nat, a: Address, x: Address)
    requires Transfer(bank, asset, from, to, amount).Ok? && from != to
    ensures var next := Transfer(bank, asset, from, to, amount).value;
            Balance(next, a, x) ==
            Balance(bank, a, x)
            - (if a == asset && x == from then amount else 0)
            + (if a == asset && x == to then amount else 0)
  {
  }

  /** A tally of amounts per asset. */
  function Amount(amounts: map<Address, nat>, asset: Address): nat {
    if asset in amounts then amounts[asset] else 0
  }

  function Plus(amounts: map<Address, nat>, asset: Address, n: nat): map<Address, nat> {
    amounts[asset := Amount(amounts, asset) + n]
  }

  /** The sum of all values of a map. */
  ghost function SumMap<K>(m: map<K, nat>): nat {
    if m == map[] then 0
    else
      var k :| k in m;
      m[k] + SumMap(m - {k})
  }

  lemma {:induction false} SumMapRemove<K>(m: map<K, nat>, k: K)
    requires k in m
    ensures SumMap(m) == m[k] + SumMap(m - {k})
    decreases m
  {
    var j :| j in m && SumMap(m) == m[j] + SumMap(m - {j});
    if j != k {
      SumMapRemove(m - {j}, k);
      SumMapRemove(m - {k}, j);
      assert m - {j} - {k} == m - {k} - {j};
    }
  }

  lemma SumMapUpdate<K>(m: map<K, nat>, k: K, n: nat)
    ensures SumMap(m[k := n]) == SumMap(m) + n - (if k in m then m[k] else 0)
  {
    var u := m[k := n];
    SumMapRemove(u, k);
    assert u - {k} == m - {k};
    if k in m {
      SumMapRemove(m, k);
    } else {
      assert m - {k} == m;
    }
  }

  /** One value never exceeds the sum. */
  lemma SumMapAtLeast<K>(m: map<K, nat>, k: K)
    requires k in m
    ensures m[k] <= SumMap(m)
  {
    SumMapRemove(m, k);
  }
}
