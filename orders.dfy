/**
 * The integer arithmetic and constants that `buyToken` and `sellToken`
 * (src/contracts/PancakeSwap.ts) use to build the router calls: swap paths,
 * minimum outputs, the amount to sell, gas settings and the deadline.
 */
module Orders {
  import opened Common

  /** `PancakeSwap.wbnbAddress`. */
  const WBNB_ADDRESS: Address := "0xbb4CdB9CBd36B01bD1cBaEBF2De08d9173bc095c"
  /** `PancakeSwap.gasLimit`. */
  const GAS_LIMIT: nat := 350000
  /** `PancakeSwap.gasPrice`: five gwei, in wei. */
  const GAS_PRICE_WEI: nat := 5_000_000_000
  /** `1000 * 60 * 5`: five minutes in milliseconds, added to `Date.now()`. */
  const DEADLINE_OFFSET_MS: nat := 300000
  /** The buy side's `amountOutMin`. */
  const BUY_AMOUNT_OUT_MIN: nat := 0
  /** The sell side keeps all but one twelfth of the quoted output. */
  const SLIPPAGE_DIVISOR: nat := 12

  /** `[PancakeSwap.wbnbAddress, tokenAddress]`. */
  function BuyPath(token: Address): seq<Address>
  {
    [WBNB_ADDRESS, token]
  }

  /** `[tokenAddress, PancakeSwap.wbnbAddress]`, used for the quote and for the swap. */
  function SellPath(token: Address): seq<Address>
  {
    [token, WBNB_ADDRESS]
  }

  function Reverse<T>(s: seq<T>): (r: seq<T>)
    ensures |r| == |s|
  {
    if s == [] then [] else Reverse(s[1..]) + [s[0]]
  }

  lemma {:induction false} ReverseAt<T>(s: seq<T>, k: nat)
    requires k < |s|
    ensures Reverse(s)[k] == s[|s| - 1 - k]
  {
    if k < |s| - 1 {
      ReverseAt(s[1..], k);
    }
  }

  /** The sell path is the buy path reversed, and the other way round. */
  lemma SellPathReversesBuyPath(token: Address)
    ensures SellPath(token) == Reverse(BuyPath(token))
    ensures BuyPath(token) == Reverse(SellPath(token))
  {
    ReverseAt(BuyPath(token), 0);
    ReverseAt(BuyPath(token), 1);
    ReverseAt(SellPath(token), 0);
    ReverseAt(SellPath(token), 1);
  }

  /** `amounts[1].sub(amounts[1].div(12))`; BigNumber division truncates, which is floor for the
      non-negative amounts a router quote returns. */
  function SellMinOut(quoted: nat): nat
  {
    quoted - quoted / SLIPPAGE_DIVISOR
  }

  /** The sell minimum lies between eleven twelfths of the quote and the quote itself, and is
      exactly the ceiling of eleven twelfths: 12 * r - 11 * q is between 0 and 11. */
  lemma SellMinOutBounds(quoted: nat)
    ensures SellMinOut(quoted) <= quoted
    ensures 11 * quoted <= 12 * SellMinOut(quoted) < 11 * quoted + 12
    ensures SellMinOut(quoted) == (11 * quoted + 11) / 12
  {
    var k, m := quoted / 12, quoted % 12;
    assert quoted == 12 * k + m;
    assert SellMinOut(quoted) == 11 * k + m;
    assert 11 * quoted + 11 == 12 * (11 * k + m) + (11 - m);
  }

  /** A quote of 1,200,000 gives a minimum of 1,100,000. */
  lemma SellMinOutExample()
    ensures SellMinOut(1200000) == 1100000
  {
  }

  /** `testSellAmount`: `BigNumber.from(sellAmount)` when `sellAmount` is truthy, else the balance.
      `parse` is `BigNumber.from` on a string; `None` is the exception it throws. */
  function SellAmount(sellAmount: Option<string>, balance: nat, parse: string -> Option<int>): Option<int>
  {
    if Truthy(sellAmount) then parse(sellAmount.value) else Some(balance)
  }

  /** A supplied amount is used as given; a missing or empty one sells the whole balance. */
  lemma SellAmountChoice(sellAmount: Option<string>, balance: nat, parse: string -> Option<int>)
    ensures sellAmount.Some? && sellAmount.value != "" ==> SellAmount(sellAmount, balance, parse) == parse(sellAmount.value)
    ensures sellAmount == None || sellAmount == Some("") ==> SellAmount(sellAmount, balance, parse) == Some(balance)
  {
  }

  /** "0" is a truthy string, so asking to sell "0" sells zero tokens rather than the balance. */
  lemma ZeroStringIsSupplied(balance: nat, parse: string -> Option<int>)
    requires parse("0") == Some(0)
    ensures SellAmount(Some("0"), balance, parse) == Some(0)
  {
  }

  /** Everything an order needs except the clock reading taken inside the retried closure. */
  datatype OrderSpec =
    | BuySpec(token: Address, value: nat, recipient: Address)
    | SellSpec(token: Address, amountIn: int, amountOutMin: nat, recipient: Address)

  /** One router call with its overrides:
      `swapExactETHForTokensSupportingFeeOnTransferTokens(amountOutMin, path, to, deadline, {value, gasLimit, gasPrice})` or
      `swapExactTokensForETHSupportingFeeOnTransferTokens(amountIn, amountOutMin, path, to, deadline, {gasLimit, gasPrice})`. */
  datatype SwapCall =
    | SwapExactEthForTokens(amountOutMin: nat, path: seq<Address>, recipient: Address, deadline: int,
                            value: nat, gasLimit: nat, gasPrice: nat)
    | SwapExactTokensForEth(amountIn: int, amountOutMin: nat, path: seq<Address>, recipient: Address, deadline: int,
                            gasLimit: nat, gasPrice: nat)

  /** The call one attempt of the retried closure makes when `Date.now()` reads `now`. */
  function Order(spec: OrderSpec, now: int): SwapCall
  {
    match spec
    case BuySpec(token, value, recipient) =>
      SwapExactEthForTokens(BUY_AMOUNT_OUT_MIN, BuyPath(token), recipient, now + DEADLINE_OFFSET_MS,
                            value, GAS_LIMIT, GAS_PRICE_WEI)
    case SellSpec(token, amountIn, amountOutMin, recipient) =>
      SwapExactTokensForEth(amountIn, amountOutMin, SellPath(token), recipient, now + DEADLINE_OFFSET_MS,
                            GAS_LIMIT, GAS_PRICE_WEI)
  }

  /** What every order carries: a buy never asks for a minimum output and swaps BNB into the token;
      a sell swaps the token into BNB along the reversed path; both pay the fixed gas settings and
      expire five minutes after the clock reading of their own attempt. */
  lemma OrderShape(spec: OrderSpec, now: int)
    ensures Order(spec, now).deadline - now == 300000
    ensures Order(spec, now).gasLimit == 350000 && Order(spec, now).gasPrice == 5 * 1000 * 1000 * 1000
    ensures Order(spec, now).recipient == spec.recipient
    ensures spec.BuySpec? <==> Order(spec, now).SwapExactEthForTokens?
    ensures spec.BuySpec? ==> Order(spec, now).amountOutMin == 0 && Order(spec, now).value == spec.value
                              && Order(spec, now).path == [WBNB_ADDRESS, spec.token]
    ensures spec.SellSpec? ==> Order(spec, now).amountIn == spec.amountIn && Order(spec, now).amountOutMin == spec.amountOutMin
                               && Order(spec, now).path == Reverse(BuyPath(spec.token))
  {
    SellPathReversesBuyPath(spec.token);
  }

  /** Two attempts of the same order differ at most in their deadline, and the deadlines differ
      by exactly the time between the attempts. */
  lemma OrdersDifferOnlyInDeadline(spec: OrderSpec, now1: int, now2: int)
    ensures Order(spec, now1).(deadline := 0) == Order(spec, now2).(deadline := 0)
    ensures Order(spec, now2).deadline - Order(spec, now1).deadline == now2 - now1
  {
  }
}
