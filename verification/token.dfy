/** The token the deposit contract is configured with, reduced to a ledger of holdings.
    The token contract itself is not part of this model; only the effect of its
    `transfer` and of the test-only administrator `mint` is described. */
module TokenLedger {
  import opened Results
  import opened Ledgers

  /** The token contract's own abort when the sender holds less than the amount. */
  datatype TokenError = InsufficientHoldings

  /** Moves `amount` from `from` to `to`; aborts when `from` holds less than `amount`. */
  function Transfer(holdings: Ledger, from: Address, to: Address, amount: nat): (r: Result<Ledger, TokenError>)
    ensures r.Failure? <==> Get(holdings, from) < amount
    ensures r.Success? && from != to ==>
      && Get(r.value, from) == Get(holdings, from) - amount
      && Get(r.value, to) == Get(holdings, to) + amount
    ensures r.Success? ==> forall a :: a != from && a != to ==> Get(r.value, a) == Get(holdings, a)
  {
    if Get(holdings, from) < amount then Failure(InsufficientHoldings)
    else
      var debited := holdings[from := Get(holdings, from) - amount];
      var credited := debited[to := Get(debited, to) + amount];
      Success(credited)
  }

  /** A transfer neither creates nor destroys units. */
  lemma TransferConserves(holdings: Ledger, from: Address, to: Address, amount: nat)
    requires Transfer(holdings, from, to, amount).Success?
    ensures Total(Transfer(holdings, from, to, amount).value) == Total(holdings)
  {
    MoveConserves(holdings, from, to, amount);
  }

  /** Debiting `from` and then crediting `to` by the same amount keeps the sum. */
  lemma MoveConserves<K>(holdings: map<K, int>, from: K, to: K, amount: int)
    ensures
      var debited := holdings[from := Get(holdings, from) - amount];
      Total(debited[to := Get(debited, to) + amount]) == Total(holdings)
  {
    var debited := holdings[from := Get(holdings, from) - amount];
    var credited := debited[to := Get(debited, to) + amount];
    ShiftTotal(holdings, debited, from, -amount);
    ShiftTotal(debited, credited, to, amount);
  }

  /** Adding `delta` to one reading adds `delta` to the sum. */
  lemma ShiftTotal<K>(m: map<K, int>, m': map<K, int>, a: K, delta: int)
    requires m' == m[a := Get(m, a) + delta]
    ensures Total(m') == Total(m) + delta
  {
    TotalUpdate(m, a, Get(m, a) + delta);
  }

  /** A transfer never drives a holding negative. */
  lemma TransferKeepsNonNegative(holdings: Ledger, from: Address, to: Address, amount: nat)
    requires NonNegative(holdings)
    requires Transfer(holdings, from, to, amount).Success?
    ensures NonNegative(Transfer(holdings, from, to, amount).value)
  {
    var r := Transfer(holdings, from, to, amount).value;
    forall a | a in r
      ensures r[a] >= 0
    {
      assert r[a] == Get(r, a);
      if a != from && a != to {
        assert Get(holdings, a) == r[a];
      }
    }
  }

  /** The token administrator creates `amount` new units for `to` (used by the contract's tests). */
  function Mint(holdings: Ledger, to: Address, amount: nat): (r: Ledger)
    ensures Get(r, to) == Get(holdings, to) + amount
    ensures forall a :: a != to ==> Get(r, a) == Get(holdings, a)
    ensures Total(r) == Total(holdings) + amount
  {
    TotalUpdate(holdings, to, Get(holdings, to) + amount);
    holdings[to := Get(holdings, to) + amount]
  }
}
