/** `handleDeposit`: the guards, the sequence of gateway calls with the info message shown
    before each step, and the mapping of whatever is thrown to the one error message shown.
    Every gateway and SDK step is an oracle whose answer is an input of the model. */
module DepositFlow {
  import opened Results
  import opened Text
  import opened TransactionPoll

  /** The result of `parseFloat` on the amount field. */
  datatype ParsedNumber = NaN | Finite(value: real) | Infinity(positive: bool)

  /** The JavaScript truthiness of a number: NaN and zero are falsy. */
  predicate Truthy(n: ParsedNumber) {
    match n
    case NaN => false
    case Finite(v) => v != 0.0
    case Infinity(_) => true
  }

  /** The JavaScript `n <= 0`, false whenever NaN is involved. */
  predicate AtMostZero(n: ParsedNumber) {
    match n
    case NaN => false
    case Finite(v) => v <= 0.0
    case Infinity(positive) => !positive
  }

  /** The amount guard: `!amount || amount <= 0` rejects. */
  predicate AcceptedAmount(n: ParsedNumber) {
    !(!Truthy(n) || AtMostZero(n))
  }

  /** The guard accepts exactly the positive numbers, positive infinity included. */
  lemma AcceptedAmountIsPositive(n: ParsedNumber)
    ensures AcceptedAmount(n) <==> (n.Finite? && n.value > 0.0) || n == Infinity(true)
  {
  }

  datatype MessageKind = SuccessMessage | ErrorMessage | InfoMessage | NoMessage

  /** A transient message as `showMessage` receives it. */
  datatype Message = Message(kind: MessageKind, text: string)

  /** The gateway operations the flow can call. */
  datatype GatewayCall = GetAccount | PrepareTransaction | SignTransaction | SendTransaction
                       | GetTransaction | LoadAccount

  /** One step that either completes or throws an error whose `message` may be absent. */
  datatype Step = Completes | Throws(message: Option<string>)

  /** What `sendTransaction` does: answers with a status, or throws. */
  datatype SendReply = Sent(status: string) | SendThrows(message: Option<string>)

  /** The answers of every collaborator for one run: the RPC account fetch, the local
      transaction build, the preparation, the wallet signature, the decoding of the signed
      envelope, the submission, and the replies of the status endpoint. */
  datatype Gateways = Gateways(
    getAccount: Step,
    build: Step,
    prepare: Step,
    sign: Step,
    decode: Step,
    send: SendReply,
    replies: nat -> StatusReply)

  /** The component state `handleDeposit` reads. `amountText` is how the parsed amount prints. */
  datatype Form = Form(amount: ParsedNumber, amountText: string, connected: bool, loading: bool)

  /** What one run leaves observable: the gateway calls in order, the messages shown in order,
      the `loading` flag afterwards, and whether the amount input was cleared. */
  datatype Trace = Trace(calls: seq<GatewayCall>, shown: seq<Message>, loading: bool, inputCleared: bool)

  const BuildingMsg: string := "Building transaction..."
  const PreparingMsg: string := "Preparing transaction..."
  const SigningMsg: string := "Please sign in Freighter..."
  const SubmittingMsg: string := "Submitting transaction..."
  const WaitingMsg: string := "Waiting for confirmation..."
  const InvalidAmountMsg: string := "Please enter a valid amount"
  const ConnectFirstMsg: string := "Please connect your wallet first"
  const RejectedByNetworkMsg: string := "Transaction rejected by network"
  const UserRejectedMsg: string := "Transaction rejected"
  const GenericFailureMsg: string := "Transaction failed"

  /** The body of the `try` block: the calls made and messages shown, and what it threw. */
  datatype Attempt = Attempt(calls: seq<GatewayCall>, shown: seq<Message>, thrown: Option<Option<string>>)

  function Info(text: string): Message { Message(InfoMessage, text) }

  /** An attempt shows info messages only, except that a completed one ends on the success
      message; it refreshes the balance exactly when it completes. */
  predicate WellFormed(a: Attempt) {
    && |a.shown| > 0
    && (forall i :: 0 <= i < |a.shown| - 1 ==> a.shown[i].kind == InfoMessage)
    && (a.thrown.None? ==> a.shown[|a.shown| - 1].kind == SuccessMessage)
    && (a.thrown.Some? ==> a.shown[|a.shown| - 1].kind == InfoMessage)
    && (a.thrown.None? <==> LoadAccount in a.calls)
  }

  /** The part of the `try` block after submission accepted the transaction as pending. */
  function Confirm(g: Gateways, amountText: string, calls: seq<GatewayCall>, shown: seq<Message>): (a: Attempt)
    requires LoadAccount !in calls
    requires forall i :: 0 <= i < |shown| ==> shown[i].kind == InfoMessage
    ensures WellFormed(a)
    ensures a.thrown.None? <==> Poll(g.replies, DefaultMaxAttempts).outcome == Confirmed
  {
    var shown := shown + [Info(WaitingMsg)];
    var poll := Poll(g.replies, DefaultMaxAttempts);
    var calls := calls + seq(poll.queries, _ => GetTransaction);
    if poll.outcome == Confirmed then
      Attempt(calls + [LoadAccount],
              shown + [Message(SuccessMessage, "Successfully deposited " + amountText + " XLM!")],
              None)
    else Attempt(calls, shown, Some(ThrownMessage(poll.outcome)))
  }

  /** The `try` block, step by step. */
  function TryDeposit(g: Gateways, amountText: string): (a: Attempt)
    ensures WellFormed(a)
    ensures a.thrown.None? <==> Succeeds(g)
  {
    PollConfirmsIff(g.replies, DefaultMaxAttempts);
    var shown := [Info(BuildingMsg)];
    if g.getAccount.Throws? then Attempt([GetAccount], shown, Some(g.getAccount.message))
    else if g.build.Throws? then Attempt([GetAccount], shown, Some(g.build.message))
    else
      var shown := shown + [Info(PreparingMsg)];
      if g.prepare.Throws? then Attempt([GetAccount, PrepareTransaction], shown, Some(g.prepare.message))
      else
        var shown := shown + [Info(SigningMsg)];
        var calls := [GetAccount, PrepareTransaction, SignTransaction];
        if g.sign.Throws? then Attempt(calls, shown, Some(g.sign.message))
        else
          var shown := shown + [Info(SubmittingMsg)];
          if g.decode.Throws? then Attempt(calls, shown, Some(g.decode.message))
          else
            var calls := calls + [SendTransaction];
            match g.send
            case SendThrows(m) => Attempt(calls, shown, Some(m))
            case Sent(status) =>
              if status == "PENDING" then Confirm(g, amountText, calls, shown)
              else Attempt(calls, shown, Some(Some(RejectedByNetworkMsg)))
  }

  /** The `catch` block: a message mentioning "user" reads as a rejection; otherwise the
      message itself, or a generic text when it is absent or empty. */
  function CaughtMessage(message: Option<string>): (text: string)
    ensures message.Some? && Contains(message.value, "user") ==> text == UserRejectedMsg
    ensures message.Some? && !Contains(message.value, "user") && message.value != "" ==> text == message.value
    ensures message == None || message == Some("") ==> text == GenericFailureMsg
  {
    if message.Some? && Contains(message.value, "user") then UserRejectedMsg
    else if message.Some? && message.value != "" then message.value
    else GenericFailureMsg
  }

  /** The error the `catch` block shows for a thrown `message`. */
  function Caught(message: Option<string>): Message {
    Message(ErrorMessage, CaughtMessage(message))
  }

  /** Pending submission followed by a confirming poll: the only way to succeed. */
  ghost predicate Succeeds(g: Gateways) {
    && g.getAccount == Completes && g.build == Completes && g.prepare == Completes
    && g.sign == Completes && g.decode == Completes && g.send == Sent("PENDING")
    && exists k: nat :: k < DefaultMaxAttempts && g.replies(k) == Succeeded && PendingBefore(g.replies, k)
  }

  /** `handleDeposit`. */
  function HandleDeposit(form: Form, g: Gateways): (r: Trace)
    ensures !AcceptedAmount(form.amount) ==>
      r == Trace([], [Message(ErrorMessage, InvalidAmountMsg)], form.loading, false)
    ensures AcceptedAmount(form.amount) && !form.connected ==>
      r == Trace([], [Message(ErrorMessage, ConnectFirstMsg)], form.loading, false)
    ensures AcceptedAmount(form.amount) && form.connected ==> !r.loading
    ensures |r.shown| > 0
    ensures r.shown[|r.shown| - 1].kind == SuccessMessage || r.shown[|r.shown| - 1].kind == ErrorMessage
    ensures forall i :: 0 <= i < |r.shown| - 1 ==> r.shown[i].kind == InfoMessage
    ensures r.inputCleared <==> r.shown[|r.shown| - 1].kind == SuccessMessage
    ensures r.inputCleared <==> LoadAccount in r.calls
    ensures r.inputCleared <==> AcceptedAmount(form.amount) && form.connected && Succeeds(g)
  {
    if !AcceptedAmount(form.amount) then Trace([], [Message(ErrorMessage, InvalidAmountMsg)], form.loading, false)
    else if !form.connected then Trace([], [Message(ErrorMessage, ConnectFirstMsg)], form.loading, false)
    else
      var a := TryDeposit(g, form.amountText);
      match a.thrown
      case None => Trace(a.calls, a.shown, false, true)
      case Some(m) => Trace(a.calls, a.shown + [Caught(m)], false, false)
  }

  /** No "u" in `s` is directly followed by "s". */
  ghost predicate NoUsPair(s: string) {
    forall i :: 0 <= i < |s| - 1 ==> !(s[i] == 'u' && s[i + 1] == 's')
  }

  /** A message without the pair "us" cannot contain "user". */
  lemma NoUsPairExcludesUser(s: string)
    requires NoUsPair(s)
    ensures !Contains(s, "user")
  {
    forall i | 0 <= i <= |s| - 4
      ensures !OccursAt(s, "user", i)
    {
      assert s[i..i + 4][0] == s[i] && s[i..i + 4][1] == s[i + 1];
    }
  }

  /** A non-empty message that cannot contain "user" is shown as it is. */
  lemma ShownVerbatim(message: string)
    requires message != [] && NoUsPair(message)
    ensures CaughtMessage(Some(message)) == message
  {
    NoUsPairExcludesUser(message);
  }

  /** The flow's own error texts pass through the `catch` block unchanged. */
  lemma OwnErrorsShownVerbatim()
    ensures CaughtMessage(Some(RejectedByNetworkMsg)) == RejectedByNetworkMsg
    ensures CaughtMessage(Some(FailedOnNetworkMsg)) == FailedOnNetworkMsg
    ensures CaughtMessage(Some(TimeoutMsg)) == TimeoutMsg
  {
    ShownVerbatim(RejectedByNetworkMsg);
    ShownVerbatim(FailedOnNetworkMsg);
    ShownVerbatim(TimeoutMsg);
  }

  /** Every step up to the submission completes. */
  predicate ReachesSubmission(g: Gateways) {
    && g.getAccount == Completes && g.build == Completes && g.prepare == Completes
    && g.sign == Completes && g.decode == Completes
  }

  const SubmissionCalls: seq<GatewayCall> := [GetAccount, PrepareTransaction, SignTransaction, SendTransaction]

  /** Any status other than PENDING is reported as a rejection, without polling. */
  lemma NotPendingIsRejected(form: Form, g: Gateways)
    requires AcceptedAmount(form.amount) && form.connected
    requires ReachesSubmission(g) && g.send.Sent? && g.send.status != "PENDING"
    ensures HandleDeposit(form, g).calls == SubmissionCalls
    ensures HandleDeposit(form, g).shown[|HandleDeposit(form, g).shown| - 1]
         == Message(ErrorMessage, RejectedByNetworkMsg)
    ensures !HandleDeposit(form, g).inputCleared
  {
    OwnErrorsShownVerbatim();
  }

  /** A confirmation on the (k+1)-th status query: k+1 queries, then one balance refresh, and
      the success message naming the amount. */
  lemma ConfirmedRun(form: Form, g: Gateways, k: nat)
    requires AcceptedAmount(form.amount) && form.connected
    requires ReachesSubmission(g) && g.send == Sent("PENDING")
    requires k < DefaultMaxAttempts && g.replies(k) == Succeeded && PendingBefore(g.replies, k)
    ensures HandleDeposit(form, g).calls
         == SubmissionCalls + seq(k + 1, _ => GetTransaction) + [LoadAccount]
    ensures HandleDeposit(form, g).shown[|HandleDeposit(form, g).shown| - 1]
         == Message(SuccessMessage, "Successfully deposited " + form.amountText + " XLM!")
    ensures HandleDeposit(form, g).inputCleared && !HandleDeposit(form, g).loading
  {
    PollStopsAtFirstTerminal(g.replies, DefaultMaxAttempts, k);
  }

  /** FAILED on the (k+1)-th status query: "Transaction failed on network" is shown. */
  lemma FailedOnNetworkRun(form: Form, g: Gateways, k: nat)
    requires AcceptedAmount(form.amount) && form.connected
    requires ReachesSubmission(g) && g.send == Sent("PENDING")
    requires k < DefaultMaxAttempts && g.replies(k) == Failed && PendingBefore(g.replies, k)
    ensures HandleDeposit(form, g).calls == SubmissionCalls + seq(k + 1, _ => GetTransaction)
    ensures HandleDeposit(form, g).shown[|HandleDeposit(form, g).shown| - 1]
         == Message(ErrorMessage, FailedOnNetworkMsg)
    ensures !HandleDeposit(form, g).inputCleared
  {
    PollStopsAtFirstTerminal(g.replies, DefaultMaxAttempts, k);
    OwnErrorsShownVerbatim();
  }

  /** Twenty pending replies: twenty queries, then "Transaction timeout". */
  lemma TimedOutRun(form: Form, g: Gateways)
    requires AcceptedAmount(form.amount) && form.connected
    requires ReachesSubmission(g) && g.send == Sent("PENDING")
    requires PendingBefore(g.replies, DefaultMaxAttempts)
    ensures HandleDeposit(form, g).calls == SubmissionCalls + seq(DefaultMaxAttempts, _ => GetTransaction)
    ensures HandleDeposit(form, g).shown[|HandleDeposit(form, g).shown| - 1]
         == Message(ErrorMessage, TimeoutMsg)
    ensures !HandleDeposit(form, g).inputCleared
  {
    PollTimesOutWhenAllPending(g.replies, DefaultMaxAttempts);
    OwnErrorsShownVerbatim();
  }

  /** `getAccount` throws: one call, and the thrown message is shown after the first info. */
  lemma GetAccountThrowsRun(form: Form, g: Gateways, m: Option<string>)
    requires AcceptedAmount(form.amount) && form.connected
    requires g.getAccount == Throws(m)
    ensures HandleDeposit(form, g) == Trace([GetAccount], [Info(BuildingMsg), Caught(m)], false, false)
  {
  }

  /** The local transaction build throws after the account fetch. */
  lemma BuildThrowsRun(form: Form, g: Gateways, m: Option<string>)
    requires AcceptedAmount(form.amount) && form.connected
    requires g.getAccount == Completes && g.build == Throws(m)
    ensures HandleDeposit(form, g) == Trace([GetAccount], [Info(BuildingMsg), Caught(m)], false, false)
  {
  }

  /** `prepareTransaction` throws. */
  lemma PrepareThrowsRun(form: Form, g: Gateways, m: Option<string>)
    requires AcceptedAmount(form.amount) && form.connected
    requires g.getAccount == Completes && g.build == Completes && g.prepare == Throws(m)
    ensures HandleDeposit(form, g)
         == Trace([GetAccount, PrepareTransaction], [Info(BuildingMsg), Info(PreparingMsg), Caught(m)], false, false)
  {
  }

  /** The wallet's `signTransaction` throws. */
  lemma SignThrowsRun(form: Form, g: Gateways, m: Option<string>)
    requires AcceptedAmount(form.amount) && form.connected
    requires g.getAccount == Completes && g.build == Completes && g.prepare == Completes
    requires g.sign == Throws(m)
    ensures HandleDeposit(form, g)
         == Trace([GetAccount, PrepareTransaction, SignTransaction],
                  [Info(BuildingMsg), Info(PreparingMsg), Info(SigningMsg), Caught(m)], false, false)
  {
  }

  /** A wallet error mentioning "user" ends the run on "Transaction rejected". */
  lemma WalletRejectionRun(form: Form, g: Gateways, m: string)
    requires AcceptedAmount(form.amount) && form.connected
    requires g.getAccount == Completes && g.build == Completes && g.prepare == Completes
    requires g.sign == Throws(Some(m)) && Contains(m, "user")
    ensures HandleDeposit(form, g).calls == [GetAccount, PrepareTransaction, SignTransaction]
    ensures HandleDeposit(form, g).shown[|HandleDeposit(form, g).shown| - 1]
         == Message(ErrorMessage, UserRejectedMsg)
    ensures !HandleDeposit(form, g).inputCleared
  {
    SignThrowsRun(form, g, Some(m));
  }

  /** Decoding the signed envelope throws: no submission is made. */
  lemma DecodeThrowsRun(form: Form, g: Gateways, m: Option<string>)
    requires AcceptedAmount(form.amount) && form.connected
    requires g.getAccount == Completes && g.build == Completes && g.prepare == Completes
    requires g.sign == Completes && g.decode == Throws(m)
    ensures HandleDeposit(form, g)
         == Trace([GetAccount, PrepareTransaction, SignTransaction],
                  [Info(BuildingMsg), Info(PreparingMsg), Info(SigningMsg), Info(SubmittingMsg), Caught(m)],
                  false, false)
  {
  }

  /** `sendTransaction` throws: the four submission calls, no status query. */
  lemma SendThrowsRun(form: Form, g: Gateways, m: Option<string>)
    requires AcceptedAmount(form.amount) && form.connected
    requires ReachesSubmission(g) && g.send == SendThrows(m)
    ensures HandleDeposit(form, g)
         == Trace(SubmissionCalls,
                  [Info(BuildingMsg), Info(PreparingMsg), Info(SigningMsg), Info(SubmittingMsg), Caught(m)],
                  false, false)
  {
  }

  /** The (k+1)-th status query throws: k+1 queries, then that error is shown. */
  lemma QueryErrorRun(form: Form, g: Gateways, k: nat, m: Option<string>)
    requires AcceptedAmount(form.amount) && form.connected
    requires ReachesSubmission(g) && g.send == Sent("PENDING")
    requires k < DefaultMaxAttempts && g.replies(k) == QueryError(m) && PendingBefore(g.replies, k)
    ensures HandleDeposit(form, g)
         == Trace(SubmissionCalls + seq(k + 1, _ => GetTransaction),
                  [Info(BuildingMsg), Info(PreparingMsg), Info(SigningMsg), Info(SubmittingMsg), Info(WaitingMsg),
                   Caught(m)],
                  false, false)
  {
    PollStopsAtFirstTerminal(g.replies, DefaultMaxAttempts, k);
  }
}
