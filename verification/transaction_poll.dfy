/** `pollTransactionStatus`: the bounded confirmation loop run after a transaction has been
    accepted as pending. The status endpoint is an oracle: `replies(i)` is what the i-th
    `getTransaction` query (counting from 0) answers. The one-second pause before each query
    is not modelled; only the number of queries is. */
module TransactionPoll {
  import opened Results

  /** The default `maxAttempts`. */
  const DefaultMaxAttempts: int := 20

  /** One answer of the status endpoint: a final status, a not-yet-known status, or a thrown
      error (with its `message`, which may be absent). */
  datatype StatusReply = Succeeded | Failed | NotFound | QueryError(message: Option<string>)

  /** How the poll ends: it returns, or it throws one of three kinds of error. */
  datatype PollOutcome = Confirmed | FailedOnNetwork | TimedOut | QueryRaised(message: Option<string>)

  datatype PollRun = PollRun(outcome: PollOutcome, queries: nat)

  const FailedOnNetworkMsg: string := "Transaction failed on network"
  const TimeoutMsg: string := "Transaction timeout"

  /** A reply that ends the loop. */
  predicate Terminal(reply: StatusReply) {
    !reply.NotFound?
  }

  /** The outcome a terminal reply decides. */
  function Verdict(reply: StatusReply): (o: PollOutcome)
    requires Terminal(reply)
    ensures o != TimedOut
  {
    match reply
    case Succeeded => Confirmed
    case Failed => FailedOnNetwork
    case QueryError(m) => QueryRaised(m)
  }

  function Max(a: int, b: int): int { if a >= b then a else b }

  /** The loop from iteration `i` on. */
  function PollFrom(replies: nat -> StatusReply, maxAttempts: int, i: nat): (r: PollRun)
    decreases maxAttempts - i
    ensures i <= r.queries <= Max(i, maxAttempts)
    ensures forall j :: i <= j && j + 1 < r.queries ==> replies(j).NotFound?
    ensures r.outcome != TimedOut ==>
      i < r.queries && Terminal(replies(r.queries - 1)) && r.outcome == Verdict(replies(r.queries - 1))
    ensures r.outcome == TimedOut ==>
      r.queries == Max(i, maxAttempts) && forall j :: i <= j < r.queries ==> replies(j).NotFound?
  {
    if i >= maxAttempts then PollRun(TimedOut, i)
    else if Terminal(replies(i)) then PollRun(Verdict(replies(i)), i + 1)
    else PollFrom(replies, maxAttempts, i + 1)
  }

  /** The whole loop, from the first query. */
  function Poll(replies: nat -> StatusReply, maxAttempts: int): PollRun {
    PollFrom(replies, maxAttempts, 0)
  }

  /** The message of the error the poll throws; the poll never throws on `Confirmed`. */
  function ThrownMessage(o: PollOutcome): Option<string>
    requires o != Confirmed
  {
    match o
    case FailedOnNetwork => Some(FailedOnNetworkMsg)
    case TimedOut => Some(TimeoutMsg)
    case QueryRaised(m) => m
  }

  /** Every reply before position `k` was still pending. */
  ghost predicate PendingBefore(replies: nat -> StatusReply, k: int) {
    forall j :: 0 <= j < k ==> replies(j).NotFound?
  }

  /** Never more than `maxAttempts` queries (none when it is not positive). */
  lemma PollIsBounded(replies: nat -> StatusReply, maxAttempts: int)
    ensures Poll(replies, maxAttempts).queries <= Max(0, maxAttempts)
  {
  }

  /** The first terminal reply within the budget decides the outcome, after exactly
      `k + 1` queries. */
  lemma PollStopsAtFirstTerminal(replies: nat -> StatusReply, maxAttempts: int, k: nat)
    requires k < maxAttempts
    requires Terminal(replies(k))
    requires PendingBefore(replies, k)
    ensures Poll(replies, maxAttempts) == PollRun(Verdict(replies(k)), k + 1)
  {
    var r := Poll(replies, maxAttempts);
    if r.outcome != TimedOut {
      assert !(r.queries - 1 < k);
      assert !(k < r.queries - 1);
    }
  }

  /** With every reply in the budget pending, the poll times out after `maxAttempts` queries. */
  lemma PollTimesOutWhenAllPending(replies: nat -> StatusReply, maxAttempts: nat)
    requires PendingBefore(replies, maxAttempts)
    ensures Poll(replies, maxAttempts) == PollRun(TimedOut, maxAttempts)
  {
  }

  /** The poll returns exactly when SUCCESS arrives within the budget before any other
      terminal reply. */
  lemma PollConfirmsIff(replies: nat -> StatusReply, maxAttempts: int)
    ensures Poll(replies, maxAttempts).outcome == Confirmed <==>
      exists k: nat :: k < maxAttempts && replies(k) == Succeeded && PendingBefore(replies, k)
  {
    var r := Poll(replies, maxAttempts);
    if r.outcome == Confirmed {
      var k: nat := r.queries - 1;
      assert replies(k) == Succeeded && PendingBefore(replies, k);
    }
    if k: nat :| k < maxAttempts && replies(k) == Succeeded && PendingBefore(replies, k) {
      PollStopsAtFirstTerminal(replies, maxAttempts, k);
    }
  }

  /** The poll throws "Transaction failed on network" exactly when FAILED arrives within the
      budget before any other terminal reply. */
  lemma PollFailsIff(replies: nat -> StatusReply, maxAttempts: int)
    ensures Poll(replies, maxAttempts).outcome == FailedOnNetwork <==>
      exists k: nat :: k < maxAttempts && replies(k) == Failed && PendingBefore(replies, k)
  {
    var r := Poll(replies, maxAttempts);
    if r.outcome == FailedOnNetwork {
      var k: nat := r.queries - 1;
      assert replies(k) == Failed && PendingBefore(replies, k);
    }
    if k: nat :| k < maxAttempts && replies(k) == Failed && PendingBefore(replies, k) {
      PollStopsAtFirstTerminal(replies, maxAttempts, k);
    }
  }

  /** The poll throws "Transaction timeout" exactly when no reply within the budget is terminal. */
  lemma PollTimesOutIff(replies: nat -> StatusReply, maxAttempts: int)
    ensures Poll(replies, maxAttempts).outcome == TimedOut <==> PendingBefore(replies, maxAttempts)
  {
  }

  /** Twenty pending replies: a timeout after exactly twenty queries. */
  lemma AlwaysPendingTimesOutAfterTwenty()
    ensures Poll(_ => NotFound, DefaultMaxAttempts) == PollRun(TimedOut, 20)
  {
    PollTimesOutWhenAllPending(_ => NotFound, 20);
  }

  /** SUCCESS on the third query: confirmed, and no fourth query is made. */
  lemma SuccessOnThirdQueryStopsThere()
    ensures Poll(i => if i == 2 then Succeeded else NotFound, DefaultMaxAttempts) == PollRun(Confirmed, 3)
  {
    PollStopsAtFirstTerminal(i => if i == 2 then Succeeded else NotFound, 20, 2);
  }
}
