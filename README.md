# PancakeSwap-Automator: a Dafny model of the sniping and trading core

The system is a TypeScript bot for the PancakeSwap router on BNB Smart Chain.
`snipe(tokenAddress)` keeps a WebSocket connection alive. It watches the
node's pending transactions and reports "Sniped" when one of them adds
liquidity for the target token. `buyToken` and `sellToken` send one
fee-on-transfer swap through the router. The swap is retried until it is
accepted or `onRetry` ends the process, and a receipt ends the run.

The model has five modules, one per part of `src/contracts/PancakeSwap.ts`:

- `Common` (common.dfy): `Option`, addresses as strings, and JavaScript truthiness of an optional string.
- `Classifier` (classifier.dfy): the pending-transaction filter. The three
  gates are a truthy `to` equal to the router address, one of the selector
  prefixes `0xf305d719`, `0x267dd102`, `0xe8078d94` (the four-byte function
  selectors of the Solidity contract ABI), and strict equality of the first
  decoded argument with the EIP-55 checksum of the target. ABI decoding and
  checksumming are function parameters; `None` stands for the exception each
  may throw.
- `Orders` (orders.dfy): the swap paths, the buy minimum of 0, the sell
  minimum `q - q/12`, the choice of the sell amount, the gas settings and the
  deadline `now + 300000`. Everything is integer arithmetic.
- `Submission` (submission.dfy): the `async-retry` loop as a method with an
  attempt counter. It is proved against the reference function `RetryRun`. The
  module also holds the buy and sell flows, which end in a receipt, in
  `process.exit()` from `onRetry`, or in a rejected promise.
- `KeepAlive` (keepalive.dfy): the mutable closure state of `snipe`. The class
  `Connection` has one handler method per event. Each method is proved to
  change its fields as the value-level function `Step` says. The lemmas about
  `Step` state what each event does.

Chain calls, the clock and the socket are inputs:

- `replies[i]` is the router's answer to attempt `i + 1`.
- `clock[i]` is what `Date.now()` returns in that attempt.
- `wait` is the outcome of `tx.wait()`.
- `quote` stands for `getAmountsOut(...)[1]`.
- `parse` stands for `BigNumber.from` on a string.
- Socket events and timer firings arrive one at a time as `Event` values.

Behaviour of the code that the model keeps:

- The deadline is computed inside the retried closure. Each attempt therefore
  gets a fresh `Date.now() + 300000`. The deadline is not fixed once per order.
- Both `process.exit()` calls pass no code, so `process.exit()` is called with
  status 0 after a confirmed swap and also after retries run out
  (`Submission.ExitsIff`). Every other ending of `buyToken` or `sellToken` is
  a rejected promise, not an exit.
- `onRetry` exits on failed attempt 5, so at most five attempts are made.
  async-retry would allow six with `retries: 5`, but its own give-up path is
  never reached.
- Every `snipe` call registers its listeners on the same process-wide socket.
  Every close or error makes every registered listener set call `snipe`
  again. The number of listener sets therefore doubles on each close or error
  (`KeepAlive.SessionsDoublePerDisconnect`). The reconnect path has no bound.
- A keep-alive tick overwrites `pingTimeout` without clearing the deadline it
  held before, so that older deadline stays armed (`KeepAlive.TickArmsDeadline`). A close
  or error does not cancel it either. No new connection is opened: `snipe`
  registers its listeners again on the same socket. When the old deadline
  fires, it calls `terminate()` on that same, already closed socket, and the
  `terminated` flag records the call (`KeepAlive.OverwrittenDeadlineSurvivesReconnect`).
- There is no de-duplication of pending transactions. Each open handler adds
  one more "pending" subscription (`pendingListeners`).

## Model

| member | source | states |
|---|---|---|
| `Classifier.Classify` | src/contracts/PancakeSwap.ts:58-75 | each stage in terms of the transaction alone. The filter stops with no transaction exactly when `getTransaction` gave none. It stops as not routed exactly when `to` is missing, or is not the router, or the router address is empty. It stops at the selector test exactly when a routed transaction's data is shorter than ten characters or its first ten characters are none of the three selectors. Decoding fails exactly when the data passed both gates and the decoder throws. A bad target means the checksum threw; a miss means both calls succeeded and the first argument is not the checksummed target |
| `Classifier.HasSelectorIsPrefixMembership` | src/contracts/PancakeSwap.ts:61-65 | the three anchored regular expressions accept the data exactly when its first ten characters are one of the three selectors |
| `Classifier.SelectorMatchIsCaseSensitive` | src/contracts/PancakeSwap.ts:61-65 | for each of the three selectors, its spelling with upper-case hexadecimal letters is rejected whatever follows it, and the lower-case selector with any suffix is accepted |
| `Classifier.UnroutedNeverDecoded` | src/contracts/PancakeSwap.ts:59-60 | a missing transaction, a missing or empty `to`, or a `to` that is not the router is never decoded or reported: the verdict is the same for every decoder and every checksum function |
| `Classifier.UnknownSelectorNeverDecoded` | src/contracts/PancakeSwap.ts:61-66 | data without one of the selectors is rejected before decoding, whatever the decoder would answer |
| `Classifier.DecodedOnlyAfterBothGates` | src/contracts/PancakeSwap.ts:59-69 | the decoder is reached only for a routed transaction whose data begins with one of the selectors |
| `Classifier.SnipedIff` | src/contracts/PancakeSwap.ts:59-74 | "Sniped" is reported if and only if the transaction exists, `to` equals the non-empty router address, the data has a selector, decoding and checksumming succeed, and the first decoded argument is the string `getAddress(tokenAddress)` |
| `Classifier.NonStringFirstArgumentMisses` | src/contracts/PancakeSwap.ts:71 | under strict equality a first argument that is not a string never matches the target |
| `Orders.SellPathReversesBuyPath` | src/contracts/PancakeSwap.ts:199 | the sell path `[token, WBNB]` (also the quote path of lines 187-190) is the reverse of the buy path `[WBNB, token]` of line 127, and the other way round |
| `Orders.SellMinOutBounds` | src/contracts/PancakeSwap.ts:191 | the sell minimum is at most the quote and at least eleven twelfths of it; it equals the ceiling of 11q/12 |
| `Orders.SellMinOutExample` | src/contracts/PancakeSwap.ts:191 | a quote of 1,200,000 gives a minimum of 1,100,000 |
| `Orders.SellAmountChoice` | src/contracts/PancakeSwap.ts:177-183 | a supplied non-empty amount is parsed and used; a missing or empty amount sells the whole balance |
| `Orders.ZeroStringIsSupplied` | src/contracts/PancakeSwap.ts:179-180 | the string "0" is truthy, so it sells zero tokens rather than the balance |
| `Orders.OrderShape` | src/contracts/PancakeSwap.ts:124-135 | every order has deadline now + 300,000 ms, gas limit 350,000 and gas price 5 gwei. A buy has minimum 0, the buy path and the BNB value. A sell (lines 195-206) has the chosen amount, the computed minimum and the reversed path |
| `Orders.OrdersDifferOnlyInDeadline` | src/contracts/PancakeSwap.ts:201 | two attempts of one order agree in everything but the deadline, and their deadlines differ by the time between the attempts |
| `Submission.RunCharacterised` | src/contracts/PancakeSwap.ts:139-151 | the run resolves on attempt n with hash h if and only if attempts 1…n-1 failed and attempt n ≤ 5 returned h; it ends from `onRetry` if and only if all five attempts failed |
| `Submission.ThirdAttemptSucceeds` | src/contracts/PancakeSwap.ts:122-152 | two failures followed by an accepted third attempt resolve after exactly three attempts |
| `Submission.EveryAttemptRejected` | src/contracts/PancakeSwap.ts:143-149 | five failures end the run after exactly five attempts |
| `Submission.RetrySwap` | src/contracts/PancakeSwap.ts:193-222 | the attempt loop ends as `RetryRun` says and sends one order per attempt, at most five. Attempt i is the order rebuilt from clock reading i. `onRetry` is told 1, 2, … for each failed attempt |
| `Submission.CompletedIff` | src/contracts/PancakeSwap.ts:139-158 | the flow completes with hash h if and only if some attempt k + 1 ≤ 5 is accepted after k rejections and the receipt then arrives with hash h |
| `Submission.ExitsIff` | src/contracts/PancakeSwap.ts:146-158 | `process.exit()` is called, with status 0, if and only if all five attempts are rejected, or an attempt within five is accepted and its receipt arrives; otherwise the flow calls no `process.exit()` and ends in a rejected promise |
| `Submission.BuyToken` | src/contracts/PancakeSwap.ts:115-159 | the buy ends as `Finish` of the retry run. It sends between one and five orders, the i-th the buy order at clock reading i |
| `Submission.SellToken` | src/contracts/PancakeSwap.ts:161-230 | a failed `balanceOf`, an unparsable amount or a failed quote rejects the promise before any order. Otherwise the sell ends as `Finish` of the retry run, and its orders carry the chosen amount and `SellMinOut` of the quote for that amount along the sell path |
| `KeepAlive.StepKeepsValid` | src/contracts/PancakeSwap.ts:44-98 | every event keeps the handle bookkeeping consistent: all handles were issued, and every interval belongs to a registered session |
| `KeepAlive.StepKeepsToken` | src/contracts/PancakeSwap.ts:82-94 | every event keeps every registered session on the same token |
| `KeepAlive.RunWatchesToken` | src/contracts/PancakeSwap.ts:86 | for any sequence of events, `snipe` is only ever re-invoked with the token of the first call |
| `KeepAlive.TickArmsDeadline` | src/contracts/PancakeSwap.ts:46-55 | a tick of a session's interval pings once and arms a fresh, previously unarmed pong deadline. That session keeps its token and interval, and its `pingTimeout` now holds the new handle. The deadline held there before stays armed. The next handle number goes up by one; the other sessions, the intervals and the pending subscriptions are unchanged |
| `KeepAlive.PongClearsDeadlines` | src/contracts/PancakeSwap.ts:96-98 | a pong disarms exactly the deadlines named by the sessions' `pingTimeout` variables and changes nothing else |
| `KeepAlive.TimeoutTerminates` | src/contracts/PancakeSwap.ts:52-54 | an armed pong deadline that fires terminates the socket and is disarmed, while every other deadline stays armed and nothing else changes; an unarmed one changes nothing |
| `KeepAlive.DisconnectClearsAndResnipes` | src/contracts/PancakeSwap.ts:82-94 | close or error disarms every session's interval and pong deadline, keeps the registered sessions, and adds one new empty session per registered one for the same token. An interval or deadline that no session variable holds stays armed, and an interval keeps its owner. The pending subscriptions and the ping count are unchanged |
| `KeepAlive.SessionsDoublePerDisconnect` | src/contracts/PancakeSwap.ts:82-94 | after any sequence of events the number of listener sets is the initial number times 2 to the number of closes and errors |
| `KeepAlive.OverwrittenDeadlineSurvivesReconnect` | src/contracts/PancakeSwap.ts:46-94 | open, two ticks and a close leave the first pong deadline armed, because the second tick overwrote `pingTimeout` and the close cleared only the second. The close clears the interval and registers a second session. The stale deadline, when it fires, terminates the same socket and leaves the sessions as they are |
| `KeepAlive.MissedPongRecyclesOnce` | src/contracts/PancakeSwap.ts:44-94 | open, one tick, a missed pong and the resulting close leave the socket terminated with no timer armed and exactly one new `snipe` call |
| `KeepAlive.Connection.constructor` | src/contracts/PancakeSwap.ts:38-42 | the first `snipe` call starts with one session whose two slots are null |
| `KeepAlive.Connection.OnOpen` | src/contracts/PancakeSwap.ts:44-57 | the handler loop changes the state exactly as `Step` does for open |
| `KeepAlive.Connection.OnKeepAliveTick` | src/contracts/PancakeSwap.ts:46-55 | changes the state exactly as `Step` does for an interval firing |
| `KeepAlive.Connection.OnPong` | src/contracts/PancakeSwap.ts:96-98 | the handler loop changes the state exactly as `Step` does for pong |
| `KeepAlive.Connection.OnPingTimeout` | src/contracts/PancakeSwap.ts:52-54 | changes the state exactly as `Step` does for a deadline firing |
| `KeepAlive.Connection.OnClose` | src/contracts/PancakeSwap.ts:82-87 | changes the state exactly as `Step` does for close |
| `KeepAlive.Connection.OnError` | src/contracts/PancakeSwap.ts:89-94 | changes the state exactly as `Step` does for error |
| `KeepAlive.Connection.ClearAndResnipe` | src/contracts/PancakeSwap.ts:84-86 | the loop over the registered sessions clears both slots of each and registers one new session per session |

## Left out

- WebSocket and provider I/O is not modelled: `provider.on("pending")`, `getTransaction`, `ping`, `terminate` and listener registration. They appear only as inputs, events and counters.
- ethers contract calls are inputs: `swapExact…`, `getAmountsOut`, `balanceOf` and `tx.wait()`. So is the `Contract` construction in the constructor, `setFactory` and `setRouter`; the router's address is the parameter `router`.
- `parseTransaction` and `utils.getAddress` are uninterpreted parameters. EIP-55 needs keccak-256, which the model does not compute.
- `utils.parseUnits` is not modelled. The buy value in wei is an input, and the gas price is its result of 5,000,000,000 wei.
- `BigNumber.from` on the sell amount is a parameter.
- async-retry's backoff of 10,000 to 15,000 ms and its randomisation are left out; the clock readings are free inputs.
- async-retry's own give-up after a sixth attempt is left out, because `onRetry` exits first.
- The timer periods (15,000 ms keep-alive, 30,000 ms pong deadline) and any concurrency between callbacks are left out. Events are delivered one at a time, in an order the caller chooses.
- A thrown `parseTransaction` or `getAddress` inside the pending handler rejects a promise that nobody catches. The model records this as `DecodeFailed` or `BadTarget`. The same holds for the endings `ReceiptRejected`, `BalanceRejected`, `InvalidSellAmount` and `QuoteRejected` of `buyToken` and `sellToken`: each rejects the promise of an `async` function. src/server.ts:15 calls `buyToken` without awaiting or catching it, and `sellToken` has no caller there. Whether the runtime then stops the process, and with which status (Node's default since version 15 is to exit with status 1), depends on its unhandled-rejection setting, which the code does not control. The model only records the rejection.
- `tx.wait()` may never settle: the code sets no confirmation timeout. `WaitResult` has only the mined and rejected outcomes, so a wait that hangs forever is not modelled.
- Every handler in the model sees every event, including an "open" after a close. A real socket emits "open" once and is never replaced here.
- SessionsDoublePerDisconnect: holds for any event sequence, including many "close" events on the one socket. A real socket emits "close" at most once, so the lemma also covers sequences that socket never produces; which sequences a real socket emits is not modelled.
- `console.log` output is not modelled.
- `listenForNewPairs` only logs factory events, so it is not modelled.
- The commented-out `approve` and `buyToken` calls are not modelled.
- src/server.ts and src/services/provider.ts are startup and wrapper code; they are not part of this model.
- De-duplication of pending transactions by hash is not modelled, because the code has none.
- The deadline unit is kept as written: `Date.now()` in milliseconds plus 300,000. How the router compares it is outside the model.
