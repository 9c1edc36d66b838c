/**
 * The submission side of `buyToken` and `sellToken` (src/contracts/PancakeSwap.ts):
 * the router call runs inside `async-retry` with `retries: 5`, and the
 * `onRetry` callback ends the process when it is told of failed attempt
 * number 5; a successful call is followed by `tx.wait()` and a process exit.
 *
 * The chain is an input: `replies[i]` is the router's answer to attempt i + 1,
 * `clock[i]` the value `Date.now()` returns inside that attempt, and `wait`
 * the outcome of waiting for the receipt.
 */
module Submission {
  import opened Common
  import opened Orders

  /** `onRetry` calls `process.exit()` when its retry number reaches this value. */
  const EXIT_RETRY_NUMBER: nat := 5

  /** The router's answer to one attempt: a transaction response, or a thrown error. */
  datatype Reply = Accepted(txHash: string) | Rejected

  /** How the retried closure ends: resolved on attempt `attempts`, or the process ended from `onRetry`. */
  datatype RetryResult = Submitted(attempts: nat, txHash: string) | Exhausted

  /** How a whole `buyToken`/`sellToken` run ends. */
  datatype RunEnd =
    | Completed(txHash: string)   // receipt received, then `process.exit()`
    | RetriesExhausted            // `process.exit()` inside `onRetry`
    | ReceiptRejected             // `tx.wait()` threw: the returned promise rejects
    | BalanceRejected             // `balanceOf` threw: the returned promise rejects
    | InvalidSellAmount           // `BigNumber.from(sellAmount)` threw: the returned promise rejects
    | QuoteRejected               // `getAmountsOut` threw: the returned promise rejects

  /** The outcome of `tx.wait()`. */
  datatype WaitResult = Mined(transactionHash: string) | WaitRejected

  /** The retry protocol from attempt k + 1 on (the reference the loop below is proved against). */
  function RunFrom(replies: seq<Reply>, k: nat): RetryResult
    requires k < EXIT_RETRY_NUMBER <= |replies|
    decreases EXIT_RETRY_NUMBER - k
  {
    match replies[k]
    case Accepted(h) => Submitted(k + 1, h)
    case Rejected => if k + 1 == EXIT_RETRY_NUMBER then Exhausted else RunFrom(replies, k + 1)
  }

  function RetryRun(replies: seq<Reply>): RetryResult
    requires EXIT_RETRY_NUMBER <= |replies|
  {
    RunFrom(replies, 0)
  }

  /** Attempts made before the retried closure ends. */
  function Attempts(r: RetryResult): nat
  {
    if r.Submitted? then r.attempts else EXIT_RETRY_NUMBER
  }

  lemma {:induction false} RunFromCharacterised(replies: seq<Reply>, k: nat)
    requires k < EXIT_RETRY_NUMBER <= |replies|
    ensures RunFrom(replies, k).Submitted? ==>
      && k < RunFrom(replies, k).attempts <= EXIT_RETRY_NUMBER
      && replies[RunFrom(replies, k).attempts - 1] == Accepted(RunFrom(replies, k).txHash)
      && forall j :: k <= j < RunFrom(replies, k).attempts - 1 ==> replies[j] == Rejected
    ensures RunFrom(replies, k).Exhausted? <==> forall j :: k <= j < EXIT_RETRY_NUMBER ==> replies[j] == Rejected
    decreases EXIT_RETRY_NUMBER - k
  {
    if replies[k].Rejected? && k + 1 < EXIT_RETRY_NUMBER {
      RunFromCharacterised(replies, k + 1);
    }
  }

  /** The run resolves on attempt n with hash h exactly when the first n - 1 attempts were rejected and
      attempt n (at most the fifth) was accepted with h; it ends the process exactly when all five
      attempts were rejected. */
  lemma RunCharacterised(replies: seq<Reply>, n: nat, h: string)
    requires EXIT_RETRY_NUMBER <= |replies|
    ensures RetryRun(replies) == Submitted(n, h) <==>
      1 <= n <= EXIT_RETRY_NUMBER && replies[n - 1] == Accepted(h) && forall j :: 0 <= j < n - 1 ==> replies[j] == Rejected
    ensures RetryRun(replies) == Exhausted <==> forall j :: 0 <= j < EXIT_RETRY_NUMBER ==> replies[j] == Rejected
  {
    RunFromCharacterised(replies, 0);
  }

  /** Success on the third attempt: the run resolves after exactly three attempts. */
  lemma ThirdAttemptSucceeds(h: string, later: seq<Reply>)
    requires |later| == 2
    ensures RetryRun([Rejected, Rejected, Accepted(h)] + later) == Submitted(3, h)
    ensures Attempts(RetryRun([Rejected, Rejected, Accepted(h)] + later)) == 3
  {
    var replies := [Rejected, Rejected, Accepted(h)] + later;
    assert replies[0] == Rejected && replies[1] == Rejected && replies[2] == Accepted(h);
  }

  /** Failure on every attempt: the process ends after exactly five attempts. */
  lemma EveryAttemptRejected(replies: seq<Reply>)
    requires |replies| == EXIT_RETRY_NUMBER && forall j :: 0 <= j < |replies| ==> replies[j] == Rejected
    ensures RetryRun(replies) == Exhausted && Attempts(RetryRun(replies)) == 5
  {
    RunCharacterised(replies, 0, "");
  }

  /**
   * `retry(async () => router.swap…(…, Date.now() + 1000 * 60 * 5, …), {retries: 5, onRetry})`.
   * Every attempt rebuilds the order from its own clock reading; `retryNumbers` lists the
   * numbers `onRetry` is called with.
   */
  method RetrySwap(spec: OrderSpec, clock: seq<int>, replies: seq<Reply>)
    returns (result: RetryResult, sent: seq<SwapCall>, retryNumbers: seq<nat>)
    requires EXIT_RETRY_NUMBER <= |clock| && EXIT_RETRY_NUMBER <= |replies|
    ensures result == RetryRun(replies)
    ensures |sent| == Attempts(result) <= EXIT_RETRY_NUMBER
    ensures forall i :: 0 <= i < |sent| ==> sent[i] == Order(spec, clock[i])
    ensures |retryNumbers| == (if result.Submitted? then result.attempts - 1 else EXIT_RETRY_NUMBER)
    ensures forall i :: 0 <= i < |retryNumbers| ==> retryNumbers[i] == i + 1
  {
    sent, retryNumbers := [], [];
    var n := 0;
    while true
      invariant n < EXIT_RETRY_NUMBER
      invariant RunFrom(replies, n) == RetryRun(replies)
      invariant |sent| == n && forall i :: 0 <= i < n ==> sent[i] == Order(spec, clock[i])
      invariant |retryNumbers| == n && forall i :: 0 <= i < n ==> retryNumbers[i] == i + 1
      decreases EXIT_RETRY_NUMBER - n
    {
      sent := sent + [Order(spec, clock[n])];
      match replies[n]
      case Accepted(h) =>
        result := Submitted(n + 1, h);
        return;
      case Rejected =>
        retryNumbers := retryNumbers + [n + 1];
        if n + 1 == EXIT_RETRY_NUMBER {
          result := Exhausted;
          return;
        }
      n := n + 1;
    }
  }

  /** What follows the retried closure: wait for the receipt, or nothing when `onRetry` ended the process. */
  function Finish(r: RetryResult, wait: WaitResult): (end: RunEnd)
    ensures end.Completed? <==> r.Submitted? && wait.Mined?
    ensures end.Completed? ==> end.txHash == wait.transactionHash
    ensures end == RetriesExhausted <==> r.Exhausted?
  {
    match r
    case Exhausted => RetriesExhausted
    case Submitted(_, _) =>
      match wait
      case Mined(h) => Completed(h)
      case WaitRejected => ReceiptRejected
  }

  /** The status `process.exit()` is called with: both calls pass no code, so both report 0.
      `None` means the flow calls no `process.exit()` and ends in a rejected promise instead. */
  function ExitStatus(end: RunEnd): (status: Option<nat>)
    ensures status.Some? <==> end.Completed? || end == RetriesExhausted
    ensures status.Some? ==> status.value == 0
  {
    if end.Completed? || end == RetriesExhausted then Some(0) else None
  }

  /** A run completes with hash h exactly when some attempt k + 1 of the first five is accepted after
      k rejections and the receipt then arrives with h. */
  lemma CompletedIff(replies: seq<Reply>, wait: WaitResult, h: string)
    requires EXIT_RETRY_NUMBER <= |replies|
    ensures Finish(RetryRun(replies), wait) == Completed(h) <==>
      && (exists k :: 0 <= k < EXIT_RETRY_NUMBER && replies[k].Accepted? && forall j :: 0 <= j < k ==> replies[j] == Rejected)
      && wait == Mined(h)
  {
    RunFromCharacterised(replies, 0);
    if exists k :: 0 <= k < EXIT_RETRY_NUMBER && replies[k].Accepted? && forall j :: 0 <= j < k ==> replies[j] == Rejected {
      var k :| 0 <= k < EXIT_RETRY_NUMBER && replies[k].Accepted? && forall j :: 0 <= j < k ==> replies[j] == Rejected;
      RunCharacterised(replies, k + 1, replies[k].txHash);
    }
  }

  /** `process.exit()` is called (with status 0) exactly when all five attempts are rejected, or when an
      attempt is accepted within the first five and its receipt arrives; otherwise the flow calls no
      `process.exit()` and ends in a rejected promise. */
  lemma ExitsIff(replies: seq<Reply>, wait: WaitResult)
    requires EXIT_RETRY_NUMBER <= |replies|
    ensures ExitStatus(Finish(RetryRun(replies), wait)) == Some(0) <==>
      || (forall j :: 0 <= j < EXIT_RETRY_NUMBER ==> replies[j] == Rejected)
      || ((exists k :: 0 <= k < EXIT_RETRY_NUMBER && replies[k].Accepted?) && wait.Mined?)
    ensures ExitStatus(Finish(RetryRun(replies), wait)) != Some(0) ==> ExitStatus(Finish(RetryRun(replies), wait)) == None
  {
    RunFromCharacterised(replies, 0);
    if exists k :: 0 <= k < EXIT_RETRY_NUMBER && replies[k].Accepted? {
      var k :| 0 <= k < EXIT_RETRY_NUMBER && replies[k].Accepted?;
      assert RetryRun(replies).Submitted? by {
        RunCharacterised(replies, 0, "");
        assert replies[k] != Rejected;
      }
    }
  }

  /** `buyToken(tokenAddress, buyAmount)`, with `utils.parseUnits(buyAmount, "ether")` already taken as `value`. */
  method BuyToken(token: Address, value: nat, recipient: Address, clock: seq<int>, replies: seq<Reply>, wait: WaitResult)
    returns (end: RunEnd, sent: seq<SwapCall>)
    requires EXIT_RETRY_NUMBER <= |clock| && EXIT_RETRY_NUMBER <= |replies|
    ensures end == Finish(RetryRun(replies), wait)
    ensures 1 <= |sent| == Attempts(RetryRun(replies)) <= EXIT_RETRY_NUMBER
    ensures forall i :: 0 <= i < |sent| ==> sent[i] == Order(BuySpec(token, value, recipient), clock[i])
  {
    var result, orders, _ := RetrySwap(BuySpec(token, value, recipient), clock, replies);
    RunFromCharacterised(replies, 0);
    end, sent := Finish(result, wait), orders;
  }

  /**
   * `sellToken(tokenAddress, sellAmount?)`: `balance` is the answer of `balanceOf`;
   * `parse` is `BigNumber.from` on a string and `quote(amountIn, path)` is `amounts[1]`
   * of `getAmountsOut`, `None` standing for the exception each may throw.
   */
  method SellToken(token: Address, sellAmount: Option<string>, parse: string -> Option<int>, balance: Option<nat>,
                   quote: (int, seq<Address>) -> Option<nat>, recipient: Address,
                   clock: seq<int>, replies: seq<Reply>, wait: WaitResult)
    returns (end: RunEnd, sent: seq<SwapCall>)
    requires EXIT_RETRY_NUMBER <= |clock| && EXIT_RETRY_NUMBER <= |replies|
    ensures balance.None? ==> end == BalanceRejected && sent == []
    ensures balance.Some? && SellAmount(sellAmount, balance.value, parse).None? ==> end == InvalidSellAmount && sent == []
    ensures balance.Some? && SellAmount(sellAmount, balance.value, parse).Some? ==>
      var amount := SellAmount(sellAmount, balance.value, parse).value;
      match quote(amount, SellPath(token))
      case None => end == QuoteRejected && sent == []
      case Some(quoted) =>
        && end == Finish(RetryRun(replies), wait)
        && 1 <= |sent| == Attempts(RetryRun(replies)) <= EXIT_RETRY_NUMBER
        && forall i :: 0 <= i < |sent| ==> sent[i] == Order(SellSpec(token, amount, SellMinOut(quoted), recipient), clock[i])
  {
    if balance.None? {
      return BalanceRejected, [];
    }
    var testSellAmount: int;
    if Truthy(sellAmount) {
      var parsed := parse(sellAmount.value);
      if parsed.None? {
        return InvalidSellAmount, [];
      }
      testSellAmount := parsed.value;
    } else {
      testSellAmount := balance.value;
    }
    var amounts := quote(testSellAmount, SellPath(token));
    if amounts.None? {
      return QuoteRejected, [];
    }
    var amountOutMin := SellMinOut(amounts.value);
    var result, orders, _ := RetrySwap(SellSpec(token, testSellAmount, amountOutMin, recipient), clock, replies);
    RunFromCharacterised(replies, 0);
    end, sent := Finish(result, wait), orders;
  }
}
