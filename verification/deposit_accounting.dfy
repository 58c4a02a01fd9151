/** Accounting properties of `DepositContract` that relate several invocations: the contract
    holds at least what it has recorded, every movement is mirrored in the token ledger, and
    a deposit followed by a withdrawal of the same amount restores both ledgers. */
module DepositAccounting {
  import opened Results
  import opened Ledgers
  import TokenLedger
  import opened DepositContract

  /** What the contract holds in the token beyond the sum of what it has recorded. */
  ghost function Reserve(s: State): int {
    Get(s.holdings, s.contract) - Total(s.balances)
  }

  /** No recorded balance is negative, and the contract holds at least their sum. */
  ghost predicate Solvent(s: State) {
    NonNegative(s.balances) && Reserve(s) >= 0
  }

  /** The balances a successful deposit or withdrawal leaves behind, as a map update. */
  lemma SuccessfulDepositShape(s: State, from: Address, amount: I128)
    requires Authorized(s, from) && NoOverflow(s, from, amount)
    requires Deposit(s, from, amount).Success?
    ensures Deposit(s, from, amount).value.balances == s.balances[from := Get(s.balances, from) + amount]
  {
  }

  lemma SuccessfulWithdrawShape(s: State, to: Address, amount: I128)
    requires Authorized(s, to)
    requires Withdraw(s, to, amount).Success?
    ensures Withdraw(s, to, amount).value.balances == s.balances[to := Get(s.balances, to) - amount]
  {
  }

  /** A deposit moves the same amount into the contract's holdings and into the record. */
  lemma DepositKeepsReserve(s: State, from: Address, amount: I128)
    requires Authorized(s, from) && NoOverflow(s, from, amount)
    requires Deposit(s, from, amount).Success?
    ensures Reserve(Deposit(s, from, amount).value) == Reserve(s)
    ensures NonNegative(s.balances) ==> NonNegative(Deposit(s, from, amount).value.balances)
  {
    var s' := Deposit(s, from, amount).value;
    SuccessfulDepositShape(s, from, amount);
    TotalUpdate(s.balances, from, Get(s.balances, from) + amount);
    assert Total(s'.balances) == Total(s.balances) + amount;
  }

  /** A withdrawal moves the same amount out of the contract's holdings and out of the record. */
  lemma WithdrawKeepsReserve(s: State, to: Address, amount: I128)
    requires Authorized(s, to)
    requires Withdraw(s, to, amount).Success?
    ensures Reserve(Withdraw(s, to, amount).value) == Reserve(s)
    ensures NonNegative(s.balances) ==> NonNegative(Withdraw(s, to, amount).value.balances)
  {
    var s' := Withdraw(s, to, amount).value;
    SuccessfulWithdrawShape(s, to, amount);
    TotalUpdate(s.balances, to, Get(s.balances, to) - amount);
    assert Total(s'.balances) == Total(s.balances) - amount;
  }

  /** Every admissible invocation keeps the contract solvent: balances stay non-negative and
      the holdings keep covering them. */
  lemma InvokeKeepsSolvent(s: State, call: Call)
    requires Admissible(s, call)
    requires Solvent(s)
    ensures Solvent(Invoke(s, call).0)
  {
    match call
    case DepositCall(from, amount) =>
      if Deposit(s, from, amount).Success? {
        DepositKeepsReserve(s, from, amount);
      }
    case WithdrawCall(to, amount) =>
      if Withdraw(s, to, amount).Success? {
        WithdrawKeepsReserve(s, to, amount);
      }
    case InitializeCall(token) =>
    case GetBalanceCall(_) =>
    case GetTokenCall =>
  }

  /** In a solvent contract the token transfer of a withdrawal never aborts: a withdrawal
      fails only for the contract's own three reasons. */
  lemma SolventWithdrawOnlyFailsByPanic(s: State, to: Address, amount: I128)
    requires Authorized(s, to)
    requires Solvent(s)
    ensures Withdraw(s, to, amount).Success? <==> amount > 0 && GetBalance(s, to) >= amount && Has(s, Token)
  {
    TotalBoundsReading(s.balances, to);
  }

  /** Depositing and then withdrawing the same amount restores every recorded balance, every
      token holding and the token address; only the two events remain. */
  lemma DepositThenWithdrawRestores(s: State, user: Address, amount: I128)
    requires Authorized(s, user) && NoOverflow(s, user, amount)
    requires Solvent(s)
    requires Deposit(s, user, amount).Success?
    ensures Withdraw(Deposit(s, user, amount).value, user, amount).Success?
    ensures
      var s'' := Withdraw(Deposit(s, user, amount).value, user, amount).value;
      && SameReadings(s''.balances, s.balances)
      && SameReadings(s''.holdings, s.holdings)
      && s''.token == s.token
      && s''.events == s.events + [Event("deposit", user, amount, GetBalance(s, user) + amount),
                                   Event("withdraw", user, amount, GetBalance(s, user))]
  {
    var s' := Deposit(s, user, amount).value;
    TotalBoundsReading(s.balances, user);
    assert Withdraw(s', user, amount).Success?;
    var s'' := Withdraw(s', user, amount).value;
    forall a
      ensures Get(s''.holdings, a) == Get(s.holdings, a)
    {
      if a != user && a != s.contract {
        assert Get(s''.holdings, a) == Get(s'.holdings, a);
      }
    }
    forall a
      ensures Get(s''.balances, a) == Get(s.balances, a)
    {
      if a != user {
        assert GetBalance(s'', a) == GetBalance(s', a);
      }
    }
  }

  /** Invocations applied in order; each one sees the state the previous one left. */
  function Run(s: State, calls: seq<Call>): State
    requires AdmissibleRun(s, calls)
    decreases |calls|
  {
    if |calls| == 0 then s else Run(Invoke(s, calls[0]).0, calls[1..])
  }

  /** Each call of the sequence is admissible in the state it is invoked in. */
  predicate AdmissibleRun(s: State, calls: seq<Call>)
    decreases |calls|
  {
    |calls| == 0 || (Admissible(s, calls[0]) && AdmissibleRun(Invoke(s, calls[0]).0, calls[1..]))
  }

  /** Solvency holds after any admissible sequence of invocations. */
  lemma {:induction false} RunKeepsSolvent(s: State, calls: seq<Call>)
    requires AdmissibleRun(s, calls)
    requires Solvent(s)
    ensures Solvent(Run(s, calls))
    decreases |calls|
  {
    if |calls| != 0 {
      InvokeKeepsSolvent(s, calls[0]);
      RunKeepsSolvent(Invoke(s, calls[0]).0, calls[1..]);
    }
  }

  /** A freshly deployed contract is solvent whatever the token holdings. */
  lemma DeployedIsSolvent(contract: Address, holdings: Ledger)
    requires NonNegative(holdings)
    ensures Solvent(Deployed(contract, holdings))
  {
    assert Total<Address>(map[]) == 0;
    TotalBoundsReading(holdings, contract);
  }
}
