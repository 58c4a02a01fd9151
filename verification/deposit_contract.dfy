/** The Soroban `DepositContract`: a token address configured once, a per-user record of
    deposits, and the token movements and events that accompany each deposit and withdrawal.
    Every entry point is a pure transition over `State`; a panic is a `Failure`, and since
    the host rolls back a panicking invocation, `Invoke` keeps the old state on any failure. */
module DepositContract {
  import opened Results
  import opened Ledgers
  import TokenLedger

  /** The Rust `i128` range of the `amount` arguments. */
  const MinI128: int := -0x8000_0000_0000_0000_0000_0000_0000_0000
  const MaxI128: int := 0x7fff_ffff_ffff_ffff_ffff_ffff_ffff_ffff
  type I128 = x: int | MinI128 <= x <= MaxI128

  const AlreadyInitializedMsg: string := "Contract already initialized"
  const AmountNotPositiveMsg: string := "Amount must be positive"
  const NotInitializedMsg: string := "Contract not initialized"
  const InsufficientBalanceMsg: string := "Insufficient balance"

  /** The storage keys: a per-user balance entry (persistent) and the token address (instance). */
  datatype DataKey = Balance(user: Address) | Token

  /** Why an invocation aborted: a `panic!` of the contract, or an abort of the token's `transfer`. */
  datatype Panic = Panicked(message: string) | TokenAborted(reason: TokenLedger.TokenError)

  /** A published event: topics (name, user) and data (amount, new recorded balance). */
  datatype Event = Event(name: string, user: Address, amount: int, newBalance: int)

  /** Everything an invocation can observe or change: the contract's own address, the stored
      token (`DataKey::Token`), the stored balances (`DataKey::Balance`), the holdings of the
      configured token, and the events published so far. */
  datatype State = State(
    contract: Address,
    token: Option<Address>,
    balances: Ledger,
    holdings: Ledger,
    events: seq<Event>)

  /** A freshly deployed contract at address `contract`, with nothing stored. */
  function Deployed(contract: Address, holdings: Ledger): State {
    State(contract, None, map[], holdings, [])
  }

  /** Whether the storage holds an entry under `key`. */
  predicate Has(s: State, key: DataKey) {
    match key
    case Token => s.token.Some?
    case Balance(user) => user in s.balances
  }

  /** `require_auth` is taken as satisfied for the caller; the contract's own address can never
      authorise an invocation coming from outside, so the caller is never the contract. */
  predicate Authorized(s: State, user: Address) {
    user != s.contract
  }

  /** When a deposit gets as far as the addition, the new recorded balance `current + amount`
      stays inside `i128`. A deposit that panics or whose token transfer aborts never adds. */
  predicate NoOverflow(s: State, user: Address, amount: int) {
    amount <= 0 || s.token.None? || Get(s.holdings, user) < amount || Get(s.balances, user) + amount <= MaxI128
  }

  /** `get_token`: the configured token, or a panic before initialisation. */
  function GetToken(s: State): (r: Result<Address, Panic>)
    ensures r.Success? <==> Has(s, Token)
    ensures r.Failure? ==> r.error == Panicked(NotInitializedMsg)
    ensures r.Success? ==> s.token == Some(r.value)
  {
    match s.token
    case Some(t) => Success(t)
    case None => Failure(Panicked(NotInitializedMsg))
  }

  /** `get_balance`: the recorded deposit of `user`, 0 when nothing is stored. */
  function GetBalance(s: State, user: Address): (r: int)
    ensures !Has(s, Balance(user)) ==> r == 0
    ensures Has(s, Balance(user)) ==> r == s.balances[user]
  {
    Get(s.balances, user)
  }

  /** `initialize`: stores the token address, exactly once. */
  function Initialize(s: State, token: Address): (r: Result<State, Panic>)
    ensures r.Failure? <==> Has(s, Token)
    ensures r.Failure? ==> r.error == Panicked(AlreadyInitializedMsg)
    ensures r.Success? ==>
      && GetToken(r.value) == Success(token)
      && r.value.contract == s.contract
      && r.value.balances == s.balances
      && r.value.holdings == s.holdings
      && r.value.events == s.events
  {
    if Has(s, Token) then Failure(Panicked(AlreadyInitializedMsg))
    else Success(s.(token := Some(token)))
  }

  /** `deposit`: positivity is checked first, then initialisation; the token transfer from the
      user to the contract must then go through before the record is updated. */
  function Deposit(s: State, from: Address, amount: I128): (r: Result<State, Panic>)
    requires Authorized(s, from)
    requires NoOverflow(s, from, amount)
    ensures amount <= 0 ==> r == Failure(Panicked(AmountNotPositiveMsg))
    ensures amount > 0 && !Has(s, Token) ==> r == Failure(Panicked(NotInitializedMsg))
    ensures amount > 0 && Has(s, Token) && Get(s.holdings, from) < amount ==>
      r == Failure(TokenAborted(TokenLedger.InsufficientHoldings))
    ensures r.Success? <==> amount > 0 && Has(s, Token) && Get(s.holdings, from) >= amount
    ensures r.Success? ==>
      && GetBalance(r.value, from) == GetBalance(s, from) + amount
      && (forall u :: u != from ==> GetBalance(r.value, u) == GetBalance(s, u))
      && r.value.contract == s.contract
      && r.value.token == s.token
      && Get(r.value.holdings, from) == Get(s.holdings, from) - amount
      && Get(r.value.holdings, s.contract) == Get(s.holdings, s.contract) + amount
      && (forall a :: a != from && a != s.contract ==> Get(r.value.holdings, a) == Get(s.holdings, a))
      && r.value.events == s.events + [Event("deposit", from, amount, GetBalance(r.value, from))]
  {
    if amount <= 0 then Failure(Panicked(AmountNotPositiveMsg))
    else if s.token.None? then Failure(Panicked(NotInitializedMsg))
    else
      var current := Get(s.balances, from);
      match TokenLedger.Transfer(s.holdings, from, s.contract, amount)
      case Failure(e) => Failure(TokenAborted(e))
      case Success(holdings) =>
        var newBalance := current + amount;
        Success(s.(
          balances := s.balances[from := newBalance],
          holdings := holdings,
          events := s.events + [Event("deposit", from, amount, newBalance)]))
  }

  /** `withdraw`: positivity first, then the recorded balance, then initialisation; the token
      transfer from the contract to the user must then go through. */
  function Withdraw(s: State, to: Address, amount: I128): (r: Result<State, Panic>)
    requires Authorized(s, to)
    ensures amount <= 0 ==> r == Failure(Panicked(AmountNotPositiveMsg))
    ensures amount > 0 && GetBalance(s, to) < amount ==> r == Failure(Panicked(InsufficientBalanceMsg))
    ensures amount > 0 && GetBalance(s, to) >= amount && !Has(s, Token) ==>
      r == Failure(Panicked(NotInitializedMsg))
    ensures r.Success? <==>
      amount > 0 && GetBalance(s, to) >= amount && Has(s, Token) && Get(s.holdings, s.contract) >= amount
    ensures r.Success? ==>
      && GetBalance(r.value, to) == GetBalance(s, to) - amount
      && (forall u :: u != to ==> GetBalance(r.value, u) == GetBalance(s, u))
      && r.value.contract == s.contract
      && r.value.token == s.token
      && Get(r.value.holdings, to) == Get(s.holdings, to) + amount
      && Get(r.value.holdings, s.contract) == Get(s.holdings, s.contract) - amount
      && (forall a :: a != to && a != s.contract ==> Get(r.value.holdings, a) == Get(s.holdings, a))
      && r.value.events == s.events + [Event("withdraw", to, amount, GetBalance(r.value, to))]
  {
    if amount <= 0 then Failure(Panicked(AmountNotPositiveMsg))
    else
      var current := Get(s.balances, to);
      if current < amount then Failure(Panicked(InsufficientBalanceMsg))
      else if s.token.None? then Failure(Panicked(NotInitializedMsg))
      else
        match TokenLedger.Transfer(s.holdings, s.contract, to, amount)
        case Failure(e) => Failure(TokenAborted(e))
        case Success(holdings) =>
          var newBalance := current - amount;
          Success(s.(
            balances := s.balances[to := newBalance],
            holdings := holdings,
            events := s.events + [Event("withdraw", to, amount, newBalance)]))
  }

  /** One invocation of a contract entry point. */
  datatype Call =
    | InitializeCall(token: Address)
    | DepositCall(from: Address, amount: I128)
    | WithdrawCall(to: Address, amount: I128)
    | GetBalanceCall(user: Address)
    | GetTokenCall

  /** What an invocation returns to its caller. */
  datatype Reply = Done | Amount(value: int) | TokenAddress(address: Address) | Aborted(panic: Panic)

  /** The conditions this model takes as given for a call: authorisation and no i128 overflow. */
  predicate Admissible(s: State, call: Call) {
    match call
    case DepositCall(from, amount) => Authorized(s, from) && NoOverflow(s, from, amount)
    case WithdrawCall(to, _) => Authorized(s, to)
    case _ => true
  }

  /** Runs one invocation; a panic rolls the whole invocation back. */
  function Invoke(s: State, call: Call): (r: (State, Reply))
    requires Admissible(s, call)
    ensures r.1.Aborted? ==> r.0 == s
    ensures call.GetBalanceCall? || call.GetTokenCall? ==> r.0 == s
    ensures call.GetBalanceCall? ==> r.1 == Amount(GetBalance(s, call.user))
    ensures r.0.contract == s.contract
    ensures !call.InitializeCall? ==> r.0.token == s.token
    ensures (call.DepositCall? || call.WithdrawCall?) && !r.1.Aborted? ==> |r.0.events| == |s.events| + 1
    ensures !(call.DepositCall? || call.WithdrawCall?) ==> r.0.events == s.events
  {
    match call
    case InitializeCall(token) =>
      (match Initialize(s, token)
       case Success(s') => (s', Done)
       case Failure(p) => (s, Aborted(p)))
    case DepositCall(from, amount) =>
      (match Deposit(s, from, amount)
       case Success(s') => (s', Done)
       case Failure(p) => (s, Aborted(p)))
    case WithdrawCall(to, amount) =>
      (match Withdraw(s, to, amount)
       case Success(s') => (s', Done)
       case Failure(p) => (s, Aborted(p)))
    case GetBalanceCall(user) => (s, Amount(GetBalance(s, user)))
    case GetTokenCall =>
      (match GetToken(s)
       case Success(t) => (s, TokenAddress(t))
       case Failure(p) => (s, Aborted(p)))
  }
}
