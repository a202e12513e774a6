/**
 * The pure helpers of the payment-provider client
 * (server/src/services/paystack.service.ts): naira/kobo conversion, the
 * unrounded scaling used when creating plans and initialising transactions,
 * payment references and the webhook signature comparison.
 *
 * Amounts are exact reals; the HMAC-SHA512 hex digest is an uninterpreted
 * function passed in by the caller.
 */
module Paystack {
  import opened Common

  /** `toKobo`: `Math.round(amount * 100)`. */
  function ToKobo(amount: real): (k: int)
    ensures amount * 100.0 - 0.5 < k as real <= amount * 100.0 + 0.5
  {
    JsRound(amount * 100.0)
  }

  /** `fromKobo`: `amount / 100`. */
  function FromKobo(kobo: real): (naira: real)
    ensures naira * 100.0 == kobo
  {
    kobo / 100.0
  }

  /** The amount sent by `createPlan` and `initializeTransaction`: scaled by 100, not rounded. */
  function ScaledAmount(amount: real): (k: real)
    ensures FromKobo(k) == amount
  {
    amount * 100.0
  }

  /** A whole naira amount converts to exactly 100 kobo per naira. */
  lemma ToKoboWhole(n: int)
    ensures ToKobo(n as real) == 100 * n
  {
  }

  /** Converting a whole naira amount to kobo and back gives it back. */
  lemma KoboRoundTripWhole(n: int)
    ensures FromKobo(ToKobo(n as real) as real) == n as real
  {
    ToKoboWhole(n);
  }

  /** Every amount with at most two decimals, i.e. a whole number of kobo, survives the round trip. */
  lemma KoboRoundTripCents(k: int)
    ensures ToKobo(FromKobo(k as real)) == k
  {
    assert FromKobo(k as real) * 100.0 == k as real;
  }

  /** Rounding to kobo moves an amount by at most half a kobo. */
  lemma ToKoboError(amount: real)
    ensures -0.005 <= FromKobo(ToKobo(amount) as real) - amount <= 0.005
  {
  }

  /**
   * The unrounded scaling sends what `toKobo` sends exactly when the amount is
   * a whole number of kobo; any other amount is sent as a fraction (0.125
   * naira as 12.5, where `toKobo` gives 13).
   */
  lemma ScalingMatchesRoundingOnWholeKobo(amount: real)
    ensures ScaledAmount(amount) == ToKobo(amount) as real <==> (amount * 100.0).Floor as real == amount * 100.0
  {
  }

  /** `generateReference(prefix = 'TX')`: `${prefix}_${timestamp}_${random}` upper-cased. */
  function GenerateReference(prefix: Option<string>, timestamp: nat, random: string): (r: string)
    ensures forall i :: 0 <= i < |r| ==> !('a' <= r[i] <= 'z')
    ensures |r| == |if prefix.Some? then prefix.value else "TX"| + |NatToDecimal(timestamp)| + |random| + 2
  {
    var p := if prefix.Some? then prefix.value else "TX";
    ToUpper(p + "_" + NatToDecimal(timestamp) + "_" + random)
  }

  lemma UpperOfDigits(s: string)
    requires AllDigits(s)
    ensures ToUpper(s) == s
  {
  }

  /** The reference embeds the upper-cased prefix and the timestamp digits, separated by underscores. */
  lemma ReferenceLayout(prefix: string, timestamp: nat, random: string)
    ensures var r := GenerateReference(Some(prefix), timestamp, random);
      var ts := NatToDecimal(timestamp);
      && r[..|prefix|] == ToUpper(prefix)
      && r[|prefix|] == '_'
      && r[|prefix| + 1..|prefix| + 1 + |ts|] == ts
      && r[|prefix| + 1 + |ts|] == '_'
  {
    var ts := NatToDecimal(timestamp);
    var whole := prefix + "_" + ts + "_" + random;
    var r := ToUpper(whole);
    assert forall i :: 0 <= i < |prefix| ==> whole[i] == prefix[i];
    assert forall i :: 0 <= i < |ts| ==> whole[|prefix| + 1 + i] == ts[i];
    assert r[|prefix| + 1..|prefix| + 1 + |ts|] == ToUpper(ts);
    UpperOfDigits(ts);
  }

  /** Without a prefix the reference starts with "TX_". */
  lemma DefaultReferencePrefix(timestamp: nat, random: string)
    ensures GenerateReference(None, timestamp, random)[..3] == "TX_"
  {
    ReferenceLayout("TX", timestamp, random);
    assert GenerateReference(None, timestamp, random) == GenerateReference(Some("TX"), timestamp, random);
  }

  /** `verifyWebhookSignature`: the hex digest of the payload under the secret equals the signature exactly. */
  function VerifyWebhookSignature(digest: (string, string) -> string, secret: string, payload: string, signature: string): (ok: bool)
  {
    digest(secret, payload) == signature
  }

  /** The signature check accepts exactly the computed digest. */
  lemma SignatureAcceptsOnlyDigest(digest: (string, string) -> string, secret: string, payload: string, signature: string)
    ensures VerifyWebhookSignature(digest, secret, payload, signature) <==> signature == digest(secret, payload)
  {
  }
}
