# Soroban deposit contract and deposit UI: a Dafny model

This project models two pieces of a small Stellar/Soroban deposit application.

1. **The `DepositContract` Soroban contract.** It stores a token address once (`initialize`).
   It records how much each user has deposited. Each successful `deposit` or `withdraw` is
   paired with a token transfer of the same amount between the user and the contract, and
   publishes one event. `get_balance` and `get_token` only read.
   The model (`deposit_contract.dfy`) is a pure state machine. The state holds the stored
   token (`DataKey::Token`), the stored balances (`DataKey::Balance`), the holdings of the
   configured token, and the event log.
   A panic is a `Failure` carrying the panic message. `Invoke` rolls the whole invocation
   back on any panic, as the host does.
   `deposit_accounting.dfy` proves the accounting properties that span several invocations.
   `contract_scenarios.dfy` restates the six unit tests.
2. **The control logic of the `SorobanDepositApp` React component**, without the rendering:
   - the bounded confirmation poll (`transaction_poll.dfy`);
   - the guards, step sequence and error-message mapping of `handleDeposit`
     (`deposit_flow.dfy`);
   - the auto-clear policy of `showMessage` (`message_board.dfy`);
   - `shortenAddress` with JavaScript `slice` semantics on its negative index (`text.dfy`).

   Every wallet, Horizon and RPC call is an oracle whose answer is an input. The same holds
   for the SDK's local transaction building and XDR decoding.

Shared pieces:
- `results.dfy` has `Option` and `Result`.
- `ledgers.dfy` has address-to-amount maps that read 0 for a missing key, plus their ghost
  sum `Total`.
- `token.dfy` reduces the token contract to a ledger with `transfer` and the test-only `mint`.

Three facts about the component shape the model:
- The component only deposits. It has no withdraw form and no contract-balance guard.
- A wallet rejection is recognised only by the substring `"user"` in the thrown message.
  There is no dedicated rejection signal.
- An info message is not guaranteed to persist until it is replaced (see Findings).

## Model

| member | source | states |
|---|---|---|
| DepositContract.Initialize | soroban-hello-world/contracts/hello-world/src/lib.rs:19-25 | fails with "Contract already initialized" exactly when a token is already stored; on success `get_token` returns the given address and balances, holdings and events are untouched |
| DepositContract.GetToken | soroban-hello-world/contracts/hello-world/src/lib.rs:121-127 | returns the stored token, and panics with "Contract not initialized" exactly when none is stored |
| DepositContract.GetBalance | soroban-hello-world/contracts/hello-world/src/lib.rs:68-75 | a user with no stored entry reads 0; otherwise the stored value |
| DepositContract.Deposit | soroban-hello-world/contracts/hello-world/src/lib.rs:27-66 | non-positive amount panics "Amount must be positive" before the initialisation check; uninitialised panics "Contract not initialized"; succeeds iff the amount is positive, a token is set and the user holds enough; then only the user's record rises by the amount, the amount moves user to contract in the token ledger, and one "deposit" event with the new stored balance is appended |
| DepositContract.Withdraw | soroban-hello-world/contracts/hello-world/src/lib.rs:77-119 | checks positivity, then "Insufficient balance", then initialisation, in that order; succeeds iff all pass and the contract holds the amount; then only the user's record falls by the amount, the amount moves contract to user, and one "withdraw" event with the new stored balance is appended |
| DepositContract.Invoke | soroban-hello-world/contracts/hello-world/src/lib.rs:17-128 | a panicking invocation leaves the state unchanged; `get_balance` and `get_token` never change state; only a successful deposit or withdraw adds an event, exactly one |
| TokenLedger.Transfer | soroban-hello-world/contracts/hello-world/src/lib.rs:51-53 | aborts iff the sender holds less than the amount; otherwise the sender loses and the receiver gains exactly the amount and every other holding is unchanged |
| TokenLedger.TransferConserves | soroban-hello-world/contracts/hello-world/src/lib.rs:104-106 | a transfer leaves the total supply of the token unchanged |
| TokenLedger.TransferKeepsNonNegative | soroban-hello-world/contracts/hello-world/src/lib.rs:51-53 | a transfer never makes a holding negative |
| TokenLedger.Mint | soroban-hello-world/contracts/hello-world/src/test.rs:57-58 | the administrator's mint raises one holding and the supply by the amount |
| DepositAccounting.DepositKeepsReserve | soroban-hello-world/contracts/hello-world/src/lib.rs:51-59 | contract holdings minus the sum of recorded balances is the same after a successful deposit, and records stay non-negative |
| DepositAccounting.WithdrawKeepsReserve | soroban-hello-world/contracts/hello-world/src/lib.rs:104-112 | contract holdings minus the sum of recorded balances is the same after a successful withdrawal, and records stay non-negative |
| DepositAccounting.InvokeKeepsSolvent | soroban-hello-world/contracts/hello-world/src/lib.rs:28-119 | every invocation keeps all records non-negative and the contract's holdings at least their sum |
| DepositAccounting.RunKeepsSolvent | soroban-hello-world/contracts/hello-world/src/lib.rs:28-119 | solvency holds after any sequence of invocations |
| DepositAccounting.DeployedIsSolvent | soroban-hello-world/contracts/hello-world/src/lib.rs:68-75 | a freshly deployed contract, where every user's stored balance is absent and reads 0, is solvent whatever the non-negative token holdings |
| DepositAccounting.SolventWithdrawOnlyFailsByPanic | soroban-hello-world/contracts/hello-world/src/lib.rs:81-106 | in a solvent contract the token transfer of a withdrawal cannot abort: it succeeds iff amount positive, record sufficient and token set |
| DepositAccounting.DepositThenWithdrawRestores | soroban-hello-world/contracts/hello-world/src/lib.rs:44-118 | deposit then withdraw of the same amount succeeds and restores every recorded balance and token holding, appending exactly the two events |
| ContractScenarios.InitializeThenGetToken | soroban-hello-world/contracts/hello-world/src/test.rs:15-26 | after initialisation with T, `get_token` returns T |
| ContractScenarios.InitializeTwicePanics | soroban-hello-world/contracts/hello-world/src/test.rs:28-40 | a second initialisation panics "Contract already initialized" and changes nothing |
| ContractScenarios.DepositScenario | soroban-hello-world/contracts/hello-world/src/test.rs:42-67 | mint 1000, deposit 500: recorded 500, contract holds 500, user holds 500 |
| ContractScenarios.WithdrawScenario | soroban-hello-world/contracts/hello-world/src/test.rs:69-90 | mint 1000, deposit 500, withdraw 200: recorded 300, user holds 700 |
| ContractScenarios.WithdrawInsufficientScenario | soroban-hello-world/contracts/hello-world/src/test.rs:92-110 | deposit 500, withdraw 600 panics "Insufficient balance" |
| ContractScenarios.DepositZeroScenario | soroban-hello-world/contracts/hello-world/src/test.rs:112-127 | deposit 0 panics "Amount must be positive" |
| TransactionPoll.PollFrom | soroban-deposit-dapp/components/SorobanDepositApp.tsx:175-185 | the loop makes at most `maxAttempts` queries; every reply before the last is pending; a non-timeout outcome is decided by the last reply, which is terminal; a timeout happens only after `maxAttempts` pending replies |
| TransactionPoll.PollIsBounded | soroban-deposit-dapp/components/SorobanDepositApp.tsx:173-175 | never more than `maxAttempts` status queries, none when it is not positive |
| TransactionPoll.PollStopsAtFirstTerminal | soroban-deposit-dapp/components/SorobanDepositApp.tsx:175-183 | the first SUCCESS, FAILED or thrown reply within the budget decides the outcome after exactly that many queries |
| TransactionPoll.PollTimesOutWhenAllPending | soroban-deposit-dapp/components/SorobanDepositApp.tsx:184-185 | all pending within the budget: "Transaction timeout" after exactly `maxAttempts` queries |
| TransactionPoll.PollConfirmsIff | soroban-deposit-dapp/components/SorobanDepositApp.tsx:178-180 | the poll returns normally iff SUCCESS arrives within `maxAttempts` replies with only pending replies before it |
| TransactionPoll.PollFailsIff | soroban-deposit-dapp/components/SorobanDepositApp.tsx:181-183 | the poll throws "Transaction failed on network" iff FAILED is the first terminal reply within the budget |
| TransactionPoll.PollTimesOutIff | soroban-deposit-dapp/components/SorobanDepositApp.tsx:175-185 | the poll times out iff no reply within the budget is terminal |
| TransactionPoll.AlwaysPendingTimesOutAfterTwenty | soroban-deposit-dapp/components/SorobanDepositApp.tsx:173-185 | with the default budget and only pending replies, timeout after exactly 20 queries |
| TransactionPoll.SuccessOnThirdQueryStopsThere | soroban-deposit-dapp/components/SorobanDepositApp.tsx:175-180 | SUCCESS on the third query confirms with exactly three queries |
| DepositFlow.AcceptedAmountIsPositive | soroban-deposit-dapp/components/SorobanDepositApp.tsx:94-99 | the JavaScript guard `!amount \|\| amount <= 0` lets through exactly the positive numbers (positive infinity included), rejecting NaN, zero and negatives |
| DepositFlow.CaughtMessage | soroban-deposit-dapp/components/SorobanDepositApp.tsx:157-164 | a message containing "user" is shown as "Transaction rejected"; any other non-empty message is shown as is; an absent or empty one as "Transaction failed" |
| DepositFlow.TryDeposit | soroban-deposit-dapp/components/SorobanDepositApp.tsx:106-156 | the `try` block shows info messages only, ending on the success message exactly when it completes; it completes iff every step completes, the send status is PENDING and a SUCCESS reply comes first within twenty queries, and it refreshes the balance exactly then |
| DepositFlow.HandleDeposit | soroban-deposit-dapp/components/SorobanDepositApp.tsx:93-168 | invalid amount rejected first, then not-connected, both with no gateway call and `loading` untouched; otherwise `loading` ends false; exactly one final success or error message after info messages only; input cleared iff balance refreshed iff the success message is shown iff every step completes, the send status is PENDING and the poll confirms |
| DepositFlow.ShownVerbatim | soroban-deposit-dapp/components/SorobanDepositApp.tsx:160-164 | a non-empty message with no "u" followed by "s" passes through the catch block unchanged |
| DepositFlow.OwnErrorsShownVerbatim | soroban-deposit-dapp/components/SorobanDepositApp.tsx:155-185 | "Transaction rejected by network", "Transaction failed on network" and "Transaction timeout" reach the screen unchanged |
| DepositFlow.NotPendingIsRejected | soroban-deposit-dapp/components/SorobanDepositApp.tsx:145-156 | a send status other than PENDING shows "Transaction rejected by network", with no status query and no input clearing |
| DepositFlow.ConfirmedRun | soroban-deposit-dapp/components/SorobanDepositApp.tsx:145-153 | a confirmation on query k+1 gives exactly the four submission calls, k+1 status queries and one balance refresh, the success message naming the amount, and a cleared input |
| DepositFlow.FailedOnNetworkRun | soroban-deposit-dapp/components/SorobanDepositApp.tsx:147-164 | FAILED on query k+1 shows "Transaction failed on network" after exactly k+1 queries, without refreshing or clearing |
| DepositFlow.TimedOutRun | soroban-deposit-dapp/components/SorobanDepositApp.tsx:147-164 | twenty pending replies show "Transaction timeout" after exactly twenty queries |
| DepositFlow.GetAccountThrowsRun | soroban-deposit-dapp/components/SorobanDepositApp.tsx:106-111 | when the account fetch throws message m, the run makes that one call and shows "Building transaction..." then the caught text of m, with `loading` false and the input kept |
| DepositFlow.BuildThrowsRun | soroban-deposit-dapp/components/SorobanDepositApp.tsx:112-129 | when the local transaction build throws m after the account fetch, the same single call and the caught text of m are shown |
| DepositFlow.PrepareThrowsRun | soroban-deposit-dapp/components/SorobanDepositApp.tsx:131-132 | when `prepareTransaction` throws m: the account fetch and the preparation, the two info messages, then the caught text of m |
| DepositFlow.SignThrowsRun | soroban-deposit-dapp/components/SorobanDepositApp.tsx:134-137 | when the wallet signature throws m: three calls, three info messages, then the caught text of m |
| DepositFlow.WalletRejectionRun | soroban-deposit-dapp/components/SorobanDepositApp.tsx:134-161 | a signature error whose message contains "user" ends the run on "Transaction rejected" after the three calls, without clearing the input |
| DepositFlow.DecodeThrowsRun | soroban-deposit-dapp/components/SorobanDepositApp.tsx:139-143 | when decoding the signed envelope throws m: no submission, four info messages, then the caught text of m |
| DepositFlow.SendThrowsRun | soroban-deposit-dapp/components/SorobanDepositApp.tsx:145 | when `sendTransaction` throws m: the four submission calls and no status query, then the caught text of m |
| DepositFlow.QueryErrorRun | soroban-deposit-dapp/components/SorobanDepositApp.tsx:148-178 | when status query k+1 throws m after k pending replies: exactly k+1 queries after submission, the "Waiting for confirmation..." info, then the caught text of m |
| MessageBoard.Show | soroban-deposit-dapp/components/SorobanDepositApp.tsx:188-193 | the new message replaces the shown one; every kind except info schedules one more clear, due `duration` later |
| MessageBoard.ShownNonInfoGoneByDeadline | soroban-deposit-dapp/components/SorobanDepositApp.tsx:188-193 | a success or error message is blank by its own deadline at the latest |
| MessageBoard.StaleClearBlanksInfo | soroban-deposit-dapp/components/SorobanDepositApp.tsx:188-193 | as written, an error at 0 ms then an info message at 1000 ms leaves a blank board at 3000 ms |
| MessageBoard.TimedReplayShowsLast | soroban-deposit-dapp/components/SorobanDepositApp.tsx:188-193 | with each new message cancelling the previous clear, the board shows the last message: for good if it is info, otherwise until its own deadline |
| MessageBoard.TimedBoardKeepsInfo | soroban-deposit-dapp/components/SorobanDepositApp.tsx:188-193 | on the corrected board the info message of the same history stays at every later time |
| Text.ShortenAddress | soroban-deposit-dapp/components/SorobanDepositApp.tsx:195-197 | `''` for the empty address; otherwise the first min(6, n) characters, "...", and the last min(4, n) characters, as JavaScript `slice` gives them for strings inside the Basic Multilingual Plane |
| Text.ShortenedLongAddressSplits | soroban-deposit-dapp/components/SorobanDepositApp.tsx:195-197 | for ten or more characters the result has 13 characters, and the address is its head, the elided middle and its tail |
| Text.ShortenedTinyAddressRepeats | soroban-deposit-dapp/components/SorobanDepositApp.tsx:195-197 | for one to four characters both slices are the whole address: `a + "..." + a` |

## Left out

- React state hooks, the mount effect, the focus listener and all JSX rendering: UI plumbing. The `disabled={loading}` gating is the only concurrency control, and it is not modelled beyond the `loading` flag.
- `checkWalletConnection`, `connectWallet` and `fetchBalance`: gateway sequencing with errors that are swallowed or forwarded, and floating-point formatting. `fetchBalance` catches every error, so in `handleDeposit` it is one `LoadAccount` call that cannot throw.
- Freighter, Horizon and Soroban RPC calls, transaction building and XDR decoding: each is an oracle answer (`Step`, `SendReply`, `StatusReply`). The transaction hash and server object are left out.
- `parseFloat`, `Math.floor(amount * 10_000_000)` and the `${amount}` formatting are floating point. The model takes the parsed value (`ParsedNumber`) and its printed form (`amountText`) as inputs.
- The one-second pause between status queries and the real-time behaviour of `setTimeout`: the poll counts queries. The message board uses an abstract millisecond clock.
- `require_auth`: taken as satisfied. The caller is required to differ from the contract's own address, which cannot authorise an invocation that comes from outside.
- DepositContract.Deposit: does not model an i128 overflow of `current_balance + amount`, because whether it panics or wraps depends on the crate's release profile (`overflow-checks`), which this model does not fix. The model requires the sum to stay within i128 only for deposits that reach the addition: positive, initialised, and covered by the user's token holdings.
- Text.ShortenAddress: strings are sequences of Unicode scalar values, while JavaScript `slice` counts UTF-16 code units; the two differ only on characters outside the Basic Multilingual Plane, which Stellar addresses (ASCII) never contain.
- The token contract is reduced to a ledger whose `transfer` aborts when the sender holds too little. Its own authorisation, overflow and storage rules are not part of this model.
- Soroban storage tiers, entry lifetimes and the event host's encoding: storage is two state fields and events are a sequence.
- A withdraw form and a contract-balance guard in the UI: the component modelled has neither.

## Findings

| source | as written | input that shows it | evidently intended | confidence | as-written member | corrected member |
|---|---|---|---|---|---|---|
| soroban-deposit-dapp/components/SorobanDepositApp.tsx:188-193 | every success or error message schedules a `setTimeout` that blanks the board, and no later `showMessage` cancels it | "Please enter a valid amount" at 0 ms, then a corrected retry showing "Building transaction..." (info) at 1000 ms: the board is blank at 3000 ms while the transaction is still in flight | an info message stays until the next message replaces it; each clear belongs only to the message that scheduled it | medium; not executed | MessageBoard.StaleClearBlanksInfo | MessageBoard.TimedReplayShowsLast |
