/**
 The inbound authentication gate that runs before every request
 (`verify_hmac`). It only looks at `POST /run-task-check`; there it applies a
 four-case policy on whether a local HMAC key is configured and whether the
 caller sent an `X-Tfc-Task-Signature` header. The gate is given the key, the
 request line, the header and the raw body, and nothing else: it never sees
 the token store.
 */
module HmacGate {
  import opened Common
  import opened Text

  /** What `hexdigest()` of HMAC-SHA-512 returns: 128 lower-case hexadecimal digits. */
  predicate IsHexDigest(s: string) {
    |s| == 128 && forall k :: 0 <= k < |s| ==> s[k] in "0123456789abcdef"
  }

  type Digest = s: string | IsHexDigest(s) witness seq(128, _ => '0')

  /**
   HMAC (RFC 2104) over SHA-512 (FIPS 180-4) of a raw body under the UTF-8
   encoded key, as a hex digest. The cryptography is outside the model, so the
   gate receives this function as a parameter.
   */
  type Mac = (string, seq<byte>) -> Digest

  const GuardedVerb := "POST"
  const GuardedPath := "/run-task-check"

  /** Why a request was turned away with status 403. */
  datatype Denial =
    | BadSignature          // both sides use HMAC and the digests differ
    | UnexpectedSignature   // a signature arrived but no local key is configured
    | MissingSignature      // a local key is configured but no signature arrived

  /**
   The gate's outcome: let the request through, refuse it with 403, or fail
   with 500 because `hmac.compare_digest` raised `TypeError` on a signature
   holding non-ASCII characters.
   */
  datatype Verdict = Continue | Deny(why: Denial) | Crash

  /** The gate acts on this HTTP method and path only. */
  predicate Guarded(verb: string, path: string) {
    path == GuardedPath && verb == GuardedVerb
  }

  /**
   `bool(HMAC_KEY)`. The header side, `bool(request.headers.get(...))`, is
   `Truthy`: present and non-empty, so a header of whitespace counts.
   */
  predicate KeyConfigured(key: string) {
    key != ""
  }

  /** `verify_hmac`. */
  function Check(key: string, mac: Mac, verb: string, path: string, sig: Option<string>, body: seq<byte>): (v: Verdict)
    // every other request passes untouched
    ensures !Guarded(verb, path) ==> v == Continue
    // the symmetric policy: pass iff both sides agree on using HMAC and, when they do, the digest matches
    ensures Guarded(verb, path) ==>
      (v == Continue <==>
        && (KeyConfigured(key) <==> Truthy(sig))
        && (KeyConfigured(key) ==> mac(key, body) == Strip(sig.value)))
    ensures v == Deny(UnexpectedSignature) <==>
      Guarded(verb, path) && !KeyConfigured(key) && Truthy(sig)
    ensures v == Deny(MissingSignature) <==>
      Guarded(verb, path) && KeyConfigured(key) && !Truthy(sig)
    ensures v == Deny(BadSignature) <==>
      && Guarded(verb, path) && KeyConfigured(key) && Truthy(sig)
      && IsAscii(Strip(sig.value)) && mac(key, body) != Strip(sig.value)
    ensures v == Crash <==>
      Guarded(verb, path) && KeyConfigured(key) && Truthy(sig) && !IsAscii(Strip(sig.value))
  {
    if !Guarded(verb, path) then
      Continue
    else if Truthy(sig) && KeyConfigured(key) then
      var provided := Strip(sig.value);
      var computed := mac(key, body);
      if !IsAscii(provided) then Crash
      else if computed != provided then Deny(BadSignature)
      else Continue
    else if !Truthy(sig) && !KeyConfigured(key) then
      Continue
    else if Truthy(sig) then
      Deny(UnexpectedSignature)
    else
      Deny(MissingSignature)
  }

  /** Hexadecimal digits are not whitespace. */
  lemma DigestHasNoSpace(d: Digest)
    ensures forall k :: 0 <= k < |d| ==> !IsSpace(d[k])
  {
    forall k | 0 <= k < |d| ensures !IsSpace(d[k]) {
      assert d[k] in "0123456789abcdef";
    }
  }

  /** A digest, padded with whitespace or not, strips to itself. */
  lemma StripKeepsDigest(d: Digest, before: string, after: string)
    requires forall k :: 0 <= k < |before| ==> IsSpace(before[k])
    requires forall k :: 0 <= k < |after| ==> IsSpace(after[k])
    ensures Strip(before + d + after) == d
  {
    DigestHasNoSpace(d);
    var padded := before + d + after;
    var i, j := |before|, |before| + |d|;
    assert padded[i..j] == d;
    assert forall k :: 0 <= k < i ==> padded[k] == before[k];
    assert forall k :: j <= k < |padded| ==> padded[k] == after[k - j];
    assert padded[i] == d[0] && padded[j - 1] == d[|d| - 1];
    assert StripAt(padded, i, j);
    StripAtCanonical(padded, i, j);
  }

  /** A guarded request let through under a configured key carried, once stripped, exactly the body's digest. */
  lemma AcceptedMeansAuthentic(key: string, mac: Mac, sig: Option<string>, body: seq<byte>)
    requires KeyConfigured(key)
    requires Check(key, mac, GuardedVerb, GuardedPath, sig, body) == Continue
    ensures sig.Some? && IsHexDigest(Strip(sig.value))
    ensures Strip(sig.value) == mac(key, body)
  {
  }

  /**
   A header of whitespace only counts as a signature, strips to the empty
   string and therefore never matches: under a configured key it is refused
   as a bad signature, and without one as unexpected.
   */
  lemma BlankSignatureRefused(key: string, mac: Mac, blank: string, body: seq<byte>)
    requires blank != "" && forall k :: 0 <= k < |blank| ==> IsSpace(blank[k])
    ensures Check(key, mac, GuardedVerb, GuardedPath, Some(blank), body)
         == if KeyConfigured(key) then Deny(BadSignature) else Deny(UnexpectedSignature)
  {
    StripBlank(blank);
  }

  /** A signature that strips to the body's digest is accepted under a configured key. */
  lemma MatchingSignatureAccepted(key: string, mac: Mac, sig: string, body: seq<byte>)
    requires KeyConfigured(key) && sig != ""
    requires Strip(sig) == mac(key, body)
    ensures Check(key, mac, GuardedVerb, GuardedPath, Some(sig), body) == Continue
  {
  }

  /** The correct digest, bare or padded with whitespace, is accepted. */
  lemma GoodSignatureAccepted(key: string, mac: Mac, body: seq<byte>)
    requires KeyConfigured(key)
    ensures Check(key, mac, GuardedVerb, GuardedPath, Some(mac(key, body)), body) == Continue
    ensures Check(key, mac, GuardedVerb, GuardedPath, Some(" " + mac(key, body) + "\n"), body) == Continue
  {
    var d := mac(key, body);
    StripKeepsDigest(d, "", "");
    assert "" + d + "" == d;
    MatchingSignatureAccepted(key, mac, d, body);
    StripKeepsDigest(d, " ", "\n");
    MatchingSignatureAccepted(key, mac, " " + d + "\n", body);
  }
}
