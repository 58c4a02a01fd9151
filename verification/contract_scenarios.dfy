/** The contract's unit-test scenarios, restated over the model: a contract at "CDEPOSIT",
    a token at "CTOKEN" and a user "GUSER" whose holdings the token administrator mints. */
module ContractScenarios {
  import opened Results
  import opened Ledgers
  import TokenLedger
  import opened DepositContract

  const ContractId: Address := "CDEPOSIT"
  const TokenId: Address := "CTOKEN"
  const User: Address := "GUSER"

  /** A deployed contract configured with `TokenId`. */
  function Initialized(holdings: Ledger): State {
    Initialize(Deployed(ContractId, holdings), TokenId).value
  }

  /** Initialising with a token makes `get_token` return it. */
  lemma InitializeThenGetToken()
    ensures Initialize(Deployed(ContractId, map[]), TokenId).Success?
    ensures GetToken(Initialized(map[])) == Success(TokenId)
  {
  }

  /** A second initialisation panics with "Contract already initialized" and changes nothing. */
  lemma InitializeTwicePanics()
    ensures Invoke(Initialized(map[]), InitializeCall(TokenId))
         == (Initialized(map[]), Aborted(Panicked("Contract already initialized")))
  {
  }

  /** Mint 1000 to the user and deposit 500: 500 recorded, 500 held by each side. */
  lemma DepositScenario()
    ensures
      var s := Initialized(TokenLedger.Mint(map[], User, 1000));
      && Deposit(s, User, 500).Success?
      && GetBalance(Deposit(s, User, 500).value, User) == 500
      && Get(Deposit(s, User, 500).value.holdings, ContractId) == 500
      && Get(Deposit(s, User, 500).value.holdings, User) == 500
  {
  }

  /** Mint 1000, deposit 500, withdraw 200: 300 recorded and 700 back with the user. */
  lemma WithdrawScenario()
    ensures
      var s := Initialized(TokenLedger.Mint(map[], User, 1000));
      var s' := Deposit(s, User, 500).value;
      && Withdraw(s', User, 200).Success?
      && GetBalance(Withdraw(s', User, 200).value, User) == 300
      && Get(Withdraw(s', User, 200).value.holdings, User) == 700
  {
  }

  /** Deposit 500 and withdraw 600: panics with "Insufficient balance". */
  lemma WithdrawInsufficientScenario()
    ensures
      var s := Initialized(TokenLedger.Mint(map[], User, 1000));
      Withdraw(Deposit(s, User, 500).value, User, 600) == Failure(Panicked("Insufficient balance"))
  {
  }

  /** Deposit 0: panics with "Amount must be positive". */
  lemma DepositZeroScenario()
    ensures Deposit(Initialized(map[]), User, 0) == Failure(Panicked("Amount must be positive"))
  {
  }
}
