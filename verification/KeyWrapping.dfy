/** Wrapping of the user's keys: password stretching, the one-time pad over the class
    B key, and the encrypted bundles in which keys travel. */
module KeyWrapping {
  import opened Wrappers
  import opened Bytes

  type Key32 = b: Buffer | |b| == 32 witness seq(32, _ => 0)

  /** The cryptographic primitives, of which only output lengths are known. */
  datatype Crypto = Crypto(
    hkdf: (Buffer, string, nat) -> Buffer,
    hmac: (Buffer, Buffer) -> Buffer,
    scrypt: (Buffer, Buffer) -> Buffer)

  ghost predicate WellFormed(c: Crypto) {
    && (forall km, info, n :: |c.hkdf(km, info, n)| == n)
    && (forall key, data :: |c.hmac(key, data)| == 32)
    && (forall pw, salt :: |c.scrypt(pw, salt)| == 32)
  }

  // ---------- Passwords ----------

  /** The two ways a password has been stretched over time. */
  datatype Version = XorVersion | ScryptVersion

  function Stretch(c: Crypto, authPW: Key32, authSalt: Key32, version: Version): Buffer {
    match version
    case XorVersion => Xor(authPW, authSalt)
    case ScryptVersion => c.scrypt(authPW, authSalt)
  }

  function VerifyHash(c: Crypto, stretched: Buffer): Buffer {
    c.hkdf(stretched, "verifyHash", 32)
  }

  /** Wrapping and unwrapping are one operation. */
  function Wrap(c: Crypto, stretched: Buffer, wrapped: Key32): Key32
    requires WellFormed(c)
  {
    Xor(c.hkdf(stretched, "wrapwrapKey", 32), wrapped)
  }

  lemma UnwrapUndoesWrap(c: Crypto, stretched: Buffer, key: Key32)
    requires WellFormed(c)
    ensures Wrap(c, stretched, Wrap(c, stretched, key)) == key
  {
    XorInvolution(c.hkdf(stretched, "wrapwrapKey", 32), key);
  }

  // ---------- Bundles ----------

  datatype BundleKeys = BundleKeys(hmacKey: Buffer, xorKey: Buffer)

  function DeriveBundleKeys(c: Crypto, key: Buffer, info: string, payloadSize: nat): BundleKeys
    requires WellFormed(c)
  {
    var material := c.hkdf(key, info, 32 + payloadSize);
    BundleKeys(material[..32], material[32..])
  }

  function Bundle(c: Crypto, key: Buffer, info: string, payload: Buffer): (r: Buffer)
    requires WellFormed(c)
    ensures |r| == |payload| + 32
  {
    var keys := DeriveBundleKeys(c, key, info, |payload|);
    var ciphertext := Xor(payload, keys.xorKey);
    ciphertext + c.hmac(keys.hmacKey, ciphertext)
  }

  /** `None` is the error for a wrong signature. The last 32 bytes are the signature;
      a shorter text is all signature and never the right one. */
  function Unbundle(c: Crypto, key: Buffer, info: string, text: Buffer): Option<Buffer>
    requires WellFormed(c)
  {
    if |text| < 32 then None
    else
      var n := |text| - 32;
      var keys := DeriveBundleKeys(c, key, info, n);
      if c.hmac(keys.hmacKey, text[..n]) != text[n..] then None
      else Some(Xor(text[..n], keys.xorKey))
  }

  /** A text opens to a payload exactly when it is that payload's bundle: bundles open,
      and nothing else does. */
  lemma UnbundleInvertsBundle(c: Crypto, key: Buffer, info: string, text: Buffer, payload: Buffer)
    requires WellFormed(c)
    ensures Unbundle(c, key, info, text) == Some(payload) <==> text == Bundle(c, key, info, payload)
  {
    if text == Bundle(c, key, info, payload) {
      BundleOpens(c, key, info, payload);
    }
    if Unbundle(c, key, info, text) == Some(payload) {
      OnlyBundlesOpen(c, key, info, text);
    }
  }

  lemma BundleOpens(c: Crypto, key: Buffer, info: string, payload: Buffer)
    requires WellFormed(c)
    ensures Unbundle(c, key, info, Bundle(c, key, info, payload)) == Some(payload)
  {
    var keys := DeriveBundleKeys(c, key, info, |payload|);
    var text := Bundle(c, key, info, payload);
    var ciphertext := Xor(payload, keys.xorKey);
    assert text[..|payload|] == ciphertext && text[|payload|..] == c.hmac(keys.hmacKey, ciphertext);
    XorInvolution(keys.xorKey, payload);
    XorInvolution(keys.xorKey, ciphertext);
  }

  lemma OnlyBundlesOpen(c: Crypto, key: Buffer, info: string, text: Buffer)
    requires WellFormed(c) && Unbundle(c, key, info, text).Some?
    ensures text == Bundle(c, key, info, Unbundle(c, key, info, text).value)
  {
    var n := |text| - 32;
    var keys := DeriveBundleKeys(c, key, info, n);
    var payload := Unbundle(c, key, info, text).value;
    XorInvolution(keys.xorKey, text[..n]);
    XorInvolution(keys.xorKey, payload);
    assert Xor(payload, keys.xorKey) == text[..n];
    assert text == text[..n] + text[n..];
  }

  method BundlePayload(c: Crypto, key: Buffer, info: string, payload: Buffer) returns (r: Buffer)
    requires WellFormed(c)
    ensures Unbundle(c, key, info, r) == Some(payload)
  {
    var keys := DeriveBundleKeys(c, key, info, |payload|);
    var ciphertext := XorBuffers(payload, keys.xorKey);
    r := ciphertext.value + c.hmac(keys.hmacKey, ciphertext.value);
    UnbundleInvertsBundle(c, key, info, r, payload);
  }

  method UnbundlePayload(c: Crypto, key: Buffer, info: string, text: Buffer) returns (r: Option<Buffer>)
    requires WellFormed(c)
    ensures r.Some? ==> text == Bundle(c, key, info, r.value)
    ensures r.None? ==> forall payload :: text != Bundle(c, key, info, payload)
  {
    var n := if |text| < 32 then 0 else |text| - 32;
    var ciphertext, expectedHmac := text[..n], text[n..];
    var keys := DeriveBundleKeys(c, key, info, n);
    var mac := c.hmac(keys.hmacKey, ciphertext);
    var equal := BuffersAreEqual(mac, expectedHmac);
    forall payload
      ensures Unbundle(c, key, info, text) == Some(payload) <==> text == Bundle(c, key, info, payload)
    {
      UnbundleInvertsBundle(c, key, info, text, payload);
    }
    if !equal {
      return None;
    }
    r := XorBuffers(ciphertext, keys.xorKey);
  }

  // ---------- Key-fetch tokens ----------

  datatype TokenKeys = TokenKeys(id: Buffer, authKey: Buffer, bundleKey: Buffer)

  function DeriveTokenKeys(c: Crypto, tokenType: string, data: Key32): TokenKeys
    requires WellFormed(c)
  {
    var material := c.hkdf(data, tokenType, 3 * 32);
    TokenKeys(material[..32], material[32..64], material[64..96])
  }

  const KEY_FETCH_TOKEN := "keyFetchToken"

  const ACCOUNT_KEYS := "account/keys"

  /** What the server stores for a key-fetch token made from the given seed. */
  function KeyBundle(c: Crypto, seed: Key32, kA: Key32, wrapKb: Key32): Buffer
    requires WellFormed(c)
  {
    Bundle(c, DeriveTokenKeys(c, KEY_FETCH_TOKEN, seed).bundleKey, ACCOUNT_KEYS, kA + wrapKb)
  }

  datatype Keys = Keys(kA: Buffer, wrapKb: Buffer)

  /** What the holder of the seed makes of a bundle. */
  function UnbundleKeys(c: Crypto, seed: Key32, text: Buffer): Option<Keys>
    requires WellFormed(c)
  {
    match Unbundle(c, DeriveTokenKeys(c, KEY_FETCH_TOKEN, seed).bundleKey, ACCOUNT_KEYS, text)
    case None => None
    case Some(plaintext) =>
      var half := if |plaintext| < 32 then |plaintext| else 32;
      var end := if |plaintext| < 64 then |plaintext| else 64;
      Some(Keys(plaintext[..half], plaintext[half..end]))
  }

  lemma KeyBundleRoundTrip(c: Crypto, seed: Key32, kA: Key32, wrapKb: Key32)
    requires WellFormed(c)
    ensures UnbundleKeys(c, seed, KeyBundle(c, seed, kA, wrapKb)) == Some(Keys(kA, wrapKb))
  {
    UnbundleInvertsBundle(c, DeriveTokenKeys(c, KEY_FETCH_TOKEN, seed).bundleKey, ACCOUNT_KEYS,
                          KeyBundle(c, seed, kA, wrapKb), kA + wrapKb);
    assert (kA + wrapKb)[..32] == kA && (kA + wrapKb)[32..64] == wrapKb;
  }
}
