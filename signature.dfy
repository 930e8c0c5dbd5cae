/** `GitHubSignatureValidator`: checks the `X-Hub-Signature-256` header of a
    webhook delivery against an HMAC-SHA256 of the payload keyed with the
    configured webhook secret. The HMAC primitive is a parameter. */
module Signatures {
  import opened Common
  import opened Text
  import opened Encoding

  /** HMAC-SHA256 as a function of the key bytes and the message bytes. */
  type Hmac = (seq<Byte>, seq<Byte>) -> seq<Byte>

  const Prefix: string := "sha256="

  /** `ComputeHash(payload, secret)`: the HMAC of the UTF-8 payload under the
      UTF-8 secret, as upper-case hexadecimal then lower-cased. */
  function ComputeHash(hmac: Hmac, payload: string, secret: string): (r: string)
    ensures r == HexLower(hmac(Utf8(secret), Utf8(payload)))
  {
    LowerOfHexUpper(hmac(Utf8(secret), Utf8(payload)));
    ToLower(HexUpper(hmac(Utf8(secret), Utf8(payload))))
  }

  /** `ConstantTimeEquals(left, right)`: a fixed-time comparison of the UTF-8
      encodings, which is plain string equality. */
  function ConstantTimeEquals(left: string, right: string): (r: bool)
    ensures r <==> left == right
  {
    FixedTimeEqualsIsEquality(Utf8(left), Utf8(right));
    if FixedTimeEquals(Utf8(left), Utf8(right)) then
      Utf8Injective(left, right);
      true
    else
      false
  }

  /** `Validate(payload, signature)` with the configured `secret`. */
  function Validate(hmac: Hmac, secret: string, payload: string, signature: string): (r: Result<()>)
    ensures r.Ok? <==>
      && !IsBlank(secret) && !IsBlank(signature)
      && StartsWithIgnoreCase(signature, Prefix)
      && signature[|Prefix|..] == HexLower(hmac(Utf8(secret), Utf8(payload)))
    ensures IsBlank(secret) ==> r == Fail(InvalidOperation("GitHub webhook secret is not configured."))
    ensures !IsBlank(secret) && IsBlank(signature) ==> r == Fail(InvalidSignature("Missing webhook signature."))
    ensures !IsBlank(secret) && !IsBlank(signature) && !StartsWithIgnoreCase(signature, Prefix) ==>
      r == Fail(InvalidSignature("Invalid webhook signature format."))
    ensures !IsBlank(secret) && r.Fail? ==> r.error.InvalidSignature?
  {
    if IsBlank(secret) then
      Fail(InvalidOperation("GitHub webhook secret is not configured."))
    else if IsBlank(signature) then
      Fail(InvalidSignature("Missing webhook signature."))
    else if !StartsWithIgnoreCase(signature, Prefix) then
      Fail(InvalidSignature("Invalid webhook signature format."))
    else
      var expectedHash := ComputeHash(hmac, payload, secret);
      var providedHash := signature[|Prefix|..];
      if !ConstantTimeEquals(expectedHash, providedHash) then
        Fail(InvalidSignature("Webhook signature validation failed."))
      else
        Ok(())
  }

  /** A delivery signed by GitHub with the configured secret is accepted,
      whatever the letter case of the `sha256=` prefix. */
  lemma GitHubSignatureAccepted(hmac: Hmac, secret: string, payload: string, prefix: string)
    requires !IsBlank(secret)
    requires |prefix| == |Prefix| && EqualsIgnoreCase(prefix, Prefix)
    ensures Validate(hmac, secret, payload, prefix + HexLower(hmac(Utf8(secret), Utf8(payload)))) == Ok(())
  {
    PrefixedDigest(prefix, HexLower(hmac(Utf8(secret), Utf8(payload))));
  }

  /** A header made of a prefix equal to `sha256=` up to letter case and a
      digest is non-blank, passes the format check and carries the digest. */
  lemma PrefixedDigest(prefix: string, digest: string)
    requires |prefix| == |Prefix| && EqualsIgnoreCase(prefix, Prefix)
    ensures !IsBlank(prefix + digest) && StartsWithIgnoreCase(prefix + digest, Prefix)
    ensures (prefix + digest)[|Prefix|..] == digest
  {
    var signature := prefix + digest;
    assert signature[..|Prefix|] == prefix;
    assert !IsBlank(signature) by {
      assert ToLower(Prefix)[0] == 's';
      assert ToLowerChar(signature[0]) == 's';
    }
  }

  lemma LetterDigitsDiffer(d: nat)
    requires 10 <= d < 16
    ensures UpperDigits[d] != LowerDigits[d]
  {
  }

  /** The digest comparison is case-sensitive: a digest written in upper-case
      hexadecimal is refused as soon as it contains a letter. */
  lemma UpperCaseDigestRejected(hmac: Hmac, secret: string, payload: string, i: nat)
    requires i < |hmac(Utf8(secret), Utf8(payload))| && hmac(Utf8(secret), Utf8(payload))[i] % 16 >= 10
    ensures Validate(hmac, secret, payload, Prefix + HexUpper(hmac(Utf8(secret), Utf8(payload)))).Fail?
  {
    var mac := hmac(Utf8(secret), Utf8(payload));
    var signature := Prefix + HexUpper(mac);
    LetterDigitsDiffer(mac[i] % 16);
    assert HexUpper(mac)[2 * i + 1] != HexLower(mac)[2 * i + 1];
    assert signature[|Prefix|..] == HexUpper(mac);
  }

  /** A signature is accepted for at most one digest: two payloads that both
      validate under the same header have the same HMAC. */
  lemma AcceptedSignatureDeterminesMac(hmac: Hmac, secret: string, p1: string, p2: string, signature: string)
    requires Validate(hmac, secret, p1, signature).Ok? && Validate(hmac, secret, p2, signature).Ok?
    ensures hmac(Utf8(secret), Utf8(p1)) == hmac(Utf8(secret), Utf8(p2))
  {
    HexLowerInjective(hmac(Utf8(secret), Utf8(p1)), hmac(Utf8(secret), Utf8(p2)));
  }
}
