/**
 * The filter that `snipe` applies to every pending transaction it fetches
 * (src/contracts/PancakeSwap.ts, the "pending" handler): the transaction must
 * be addressed to the router, its call data must start with one of three
 * function selectors, and the first decoded argument must equal the
 * checksummed target token address.
 *
 * ABI decoding (`Interface.parseTransaction`) and EIP-55 checksumming
 * (`utils.getAddress`) are library code; they are parameters here. Both
 * throw on bad input, which the model writes as `None`.
 */
module Classifier {
  import opened Common

  /** One decoded argument. Addresses and strings come back from the ABI layer as JavaScript strings;
      integers as BigNumber objects, booleans as booleans, everything else as some other object. */
  datatype AbiValue = Text(text: string) | Number(n: int) | Flag(b: bool) | Other

  /** What `parseTransaction` returns: the function name and its ordered arguments. */
  datatype DecodedCall = DecodedCall(name: string, args: seq<AbiValue>)

  /** A transaction body as `provider.getTransaction` delivers it (only the fields the filter reads). */
  datatype PendingTransaction = PendingTransaction(to: Option<Address>, data: string, value: int)

  /** The stage at which a pending transaction leaves the filter. */
  datatype Verdict =
    | NoTransaction      // getTransaction resolved to null
    | NotRouted          // no `to`, or `to` is not the router address
    | UnknownSelector    // call data starts with none of the three selectors
    | DecodeFailed       // parseTransaction threw
    | BadTarget          // getAddress(tokenAddress) threw
    | Miss               // decoded, but args[0] is not the target
    | Sniped             // the "Sniped" report

  /** The three four-byte function selectors, written as the hex prefixes the source matches. */
  const SELECTORS: seq<string> := ["0xf305d719", "0x267dd102", "0xe8078d94"]

  /** Length of a selector prefix: "0x" followed by eight hex digits. */
  const SELECTOR_LENGTH: nat := 10

  /** `tx.to` is truthy and strictly equal to the router's address. */
  predicate Routed(tx: PendingTransaction, router: Address)
  {
    Truthy(tx.to) && tx.to.value == router
  }

  /** `re1.test(data) || re2.test(data) || re3.test(data)` for the anchored, case-sensitive patterns. */
  predicate HasSelector(data: string)
  {
    SELECTORS[0] <= data || SELECTORS[1] <= data || SELECTORS[2] <= data
  }

  /** The target test `getAddress(tokenAddress) === decodedInput.args[0]`: strict equality with a string,
      so only a string argument can match, and a call without arguments never does. */
  predicate IsTarget(call: DecodedCall, target: Address)
  {
    |call.args| > 0 && call.args[0] == Text(target)
  }

  /** Runs the pending-transaction filter on the result of `getTransaction`. */
  function Classify(tx: Option<PendingTransaction>, router: Address, token: Address,
                    decode: (string, int) -> Option<DecodedCall>,
                    checksum: Address -> Option<Address>): (v: Verdict)
    ensures v == NoTransaction <==> tx.None?
    ensures v == NotRouted <==> tx.Some? && (tx.value.to != Some(router) || router == "")
    ensures v == UnknownSelector <==>
      && tx.Some? && tx.value.to == Some(router) && router != ""
      && (|tx.value.data| < SELECTOR_LENGTH || tx.value.data[..SELECTOR_LENGTH] !in SELECTORS)
    ensures v == DecodeFailed <==>
      && tx.Some? && tx.value.to == Some(router) && router != ""
      && |tx.value.data| >= SELECTOR_LENGTH && tx.value.data[..SELECTOR_LENGTH] in SELECTORS
      && decode(tx.value.data, tx.value.value).None?
    ensures v == BadTarget ==> checksum(token).None?
    ensures v == Miss ==> checksum(token).Some? && decode(tx.value.data, tx.value.value).Some?
                          && !IsTarget(decode(tx.value.data, tx.value.value).value, checksum(token).value)
  {
    if tx.None? then NoTransaction
    else
      HasSelectorIsPrefixMembership(tx.value.data);
      if !Routed(tx.value, router) then NotRouted
      else if !HasSelector(tx.value.data) then UnknownSelector
      else
        match decode(tx.value.data, tx.value.value)
        case None => DecodeFailed
        case Some(call) =>
          match checksum(token)
          case None => BadTarget
          case Some(target) => if IsTarget(call, target) then Sniped else Miss
  }

  /** The stages after which the decoder has been called. */
  predicate Decoded(v: Verdict)
  {
    v.DecodeFailed? || v.BadTarget? || v.Miss? || v.Sniped?
  }

  /** The selector test is exactly "the first ten characters are one of the selectors". */
  lemma HasSelectorIsPrefixMembership(data: string)
    ensures HasSelector(data) <==> |data| >= SELECTOR_LENGTH && data[..SELECTOR_LENGTH] in SELECTORS
  {
    if |data| >= SELECTOR_LENGTH {
      var head := data[..SELECTOR_LENGTH];
      forall i | 0 <= i < |SELECTORS|
        ensures SELECTORS[i] <= data <==> head == SELECTORS[i]
      {
        assert |SELECTORS[i]| == SELECTOR_LENGTH;
      }
    } else {
      forall i | 0 <= i < |SELECTORS|
        ensures !(SELECTORS[i] <= data)
      {
        assert |SELECTORS[i]| == SELECTOR_LENGTH;
      }
    }
  }

  /** The spelling of `s` with the hexadecimal letters `a`-`f` in upper case. */
  function UpperHex(s: string): string
  {
    seq(|s|, k requires 0 <= k < |s| => if 'a' <= s[k] <= 'f' then (s[k] as int - 32) as char else s[k])
  }

  /** Selectors are matched case-sensitively: the upper-case spelling of any selector is rejected,
      whatever follows it, and the lower-case one is accepted. */
  lemma SelectorMatchIsCaseSensitive(i: nat, rest: string)
    requires i < |SELECTORS|
    ensures !HasSelector(UpperHex(SELECTORS[i]) + rest)
    ensures HasSelector(SELECTORS[i] + rest)
  {
    var up := UpperHex(SELECTORS[i]) + rest;
    // the first hexadecimal letter of each selector: "0xF…", "0x267D…", "0xE…" once upper-cased
    var p := if i == 1 then 5 else 2;
    assert up[p] == (SELECTORS[i][p] as int - 32) as char;
    forall j | 0 <= j < |SELECTORS|
      ensures !(SELECTORS[j] <= up)
    {
      assert SELECTORS[j][p] != up[p];
    }
    assert (SELECTORS[i] + rest)[..SELECTOR_LENGTH] == SELECTORS[i];
  }

  /** A transaction that is missing, has no `to`, or is not addressed to the router is never decoded
      and never reported: its verdict does not depend on the decoder or the checksum at all. */
  lemma UnroutedNeverDecoded(tx: Option<PendingTransaction>, router: Address, token: Address,
                             decode1: (string, int) -> Option<DecodedCall>, checksum1: Address -> Option<Address>,
                             decode2: (string, int) -> Option<DecodedCall>, checksum2: Address -> Option<Address>)
    requires tx.None? || !Routed(tx.value, router)
    ensures Classify(tx, router, token, decode1, checksum1) == Classify(tx, router, token, decode2, checksum2)
    ensures !Decoded(Classify(tx, router, token, decode1, checksum1))
  {
  }

  /** A routed transaction whose call data starts with none of the selectors is rejected
      before decoding, whatever the decoder would have said. */
  lemma UnknownSelectorNeverDecoded(tx: PendingTransaction, router: Address, token: Address,
                                    decode1: (string, int) -> Option<DecodedCall>, checksum1: Address -> Option<Address>,
                                    decode2: (string, int) -> Option<DecodedCall>, checksum2: Address -> Option<Address>)
    requires !HasSelector(tx.data)
    ensures Classify(Some(tx), router, token, decode1, checksum1) == Classify(Some(tx), router, token, decode2, checksum2)
    ensures !Decoded(Classify(Some(tx), router, token, decode1, checksum1))
  {
  }

  /** Decoding is attempted only for routed transactions whose data carries one of the selectors. */
  lemma DecodedOnlyAfterBothGates(tx: Option<PendingTransaction>, router: Address, token: Address,
                                  decode: (string, int) -> Option<DecodedCall>, checksum: Address -> Option<Address>)
    requires Decoded(Classify(tx, router, token, decode, checksum))
    ensures tx.Some? && Routed(tx.value, router)
    ensures |tx.value.data| >= SELECTOR_LENGTH && tx.value.data[..SELECTOR_LENGTH] in SELECTORS
  {
    HasSelectorIsPrefixMembership(tx.value.data);
  }

  /** "Sniped" is reported if and only if the transaction is routed, carries a selector,
      decodes, the target checksums, and the first decoded argument is the checksummed target. */
  lemma SnipedIff(tx: Option<PendingTransaction>, router: Address, token: Address,
                  decode: (string, int) -> Option<DecodedCall>, checksum: Address -> Option<Address>)
    ensures Classify(tx, router, token, decode, checksum) == Sniped <==>
      && tx.Some?
      && tx.value.to == Some(router) && router != ""
      && |tx.value.data| >= SELECTOR_LENGTH && tx.value.data[..SELECTOR_LENGTH] in SELECTORS
      && decode(tx.value.data, tx.value.value).Some?
      && checksum(token).Some?
      && |decode(tx.value.data, tx.value.value).value.args| > 0
      && decode(tx.value.data, tx.value.value).value.args[0] == Text(checksum(token).value)
  {
    if tx.Some? {
      HasSelectorIsPrefixMembership(tx.value.data);
    }
  }

  /** An argument that is not a string (a BigNumber, say) never matches under strict equality,
      even when the decoder produced a call with the selector and the router right. */
  lemma NonStringFirstArgumentMisses(tx: PendingTransaction, router: Address, token: Address,
                                     decode: (string, int) -> Option<DecodedCall>, checksum: Address -> Option<Address>)
    requires decode(tx.data, tx.value).Some?
    requires |decode(tx.data, tx.value).value.args| > 0 && !decode(tx.data, tx.value).value.args[0].Text?
    ensures Classify(Some(tx), router, token, decode, checksum) != Sniped
  {
  }
}
