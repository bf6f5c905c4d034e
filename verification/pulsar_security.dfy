/** The `PulsarSecurity` object: the wallet address it has verified and the
    session key it has derived. Signature recovery (`ethers.utils.verifyMessage`),
    SHA-256 and AES-256-CBC are not modelled; they are function parameters,
    and the cipher is assumed only to decrypt what it encrypted. Randomness
    (the IV) and the clock are parameters too. Values handed to
    `encryptData` are taken as their JSON text, so `JSON.stringify` and
    `JSON.parse` do not appear. */
module PulsarSecurity {
  import opened Wrappers
  import opened Text
  import opened Hex

  /** A SHA-256 digest: 32 bytes, the AES-256 key size. */
  type Digest = s: seq<Byte> | |s| == 32 witness seq(32, _ => 0)

  /** The IV length of AES-256-CBC. */
  const IvLength: nat := 16

  /** `this.userAddress` and `this.encryptionKey`, both null at construction. */
  datatype Pulsar = Pulsar(userAddress: Option<string>, encryptionKey: Option<Digest>)

  const Fresh := Pulsar(None, None)

  /** What the object throws. */
  datatype PulsarError =
    | MissingInputs       // thrown before any recovery is attempted
    | RecoveryFailed      // `verifyMessage` threw; rethrown as a verification error
    | AddressMismatch     // recovered and expected address differ; rethrown the same way
    | SessionKeyMissing   // encrypt or decrypt before `generateSessionKey`
    | InvalidIv           // the IV does not decode to 16 bytes
    | OddCiphertext       // `decipher.update` refuses hex input of odd length
    | DecryptionFailed    // the cipher rejects the ciphertext

  /** JavaScript truthiness of an optional string argument. */
  predicate Present(s: Option<string>) {
    s.Some? && s.value != ""
  }

  // ---------------------------------------------------------------------------
  // Wallet identity
  // ---------------------------------------------------------------------------

  /** `verifyWalletSignature`: `recover` stands for `ethers.utils.verifyMessage`
      (None where it throws). On success the expected address, exactly as
      supplied, is recorded and returned. */
  function VerifyWalletSignature(st: Pulsar, message: Option<string>, signature: Option<string>,
                                 expectedAddress: Option<string>, recover: (string, string) -> Option<string>)
    : (r: (Pulsar, Result<string, PulsarError>))
    ensures !(Present(message) && Present(signature) && Present(expectedAddress)) ==>
      r == (st, Err(MissingInputs))
    ensures r.1.Ok? <==>
      Present(message) && Present(signature) && Present(expectedAddress) &&
      recover(message.value, signature.value).Some? &&
      EqualsIgnoreCase(recover(message.value, signature.value).value, expectedAddress.value)
    ensures r.1.Ok? ==> r.1.value == expectedAddress.value && r.0 == st.(userAddress := expectedAddress)
    ensures r.1.Err? ==> r.0 == st
  {
    if !Present(message) || !Present(signature) || !Present(expectedAddress) then (st, Err(MissingInputs))
    else match recover(message.value, signature.value)
      case None => (st, Err(RecoveryFailed))
      case Some(recovered) =>
        EqualsIgnoreCaseLower(recovered, expectedAddress.value);
        if Lower(recovered) != Lower(expectedAddress.value) then (st, Err(AddressMismatch))
        else (st.(userAddress := expectedAddress), Ok(expectedAddress.value))
  }

  /** The verified address keeps the caller's casing: a signature recovering to
      the lower-case form still verifies a mixed-case expected address, and
      that mixed-case form is what gets stored. */
  lemma VerifyKeepsSuppliedCasing(st: Pulsar, message: string, signature: string, expected: string,
                                  recover: (string, string) -> Option<string>)
    requires message != "" && signature != "" && expected != ""
    requires recover(message, signature) == Some(Lower(expected))
    ensures VerifyWalletSignature(st, Some(message), Some(signature), Some(expected), recover)
      == (st.(userAddress := Some(expected)), Ok(expected))
  {
    assert Lower(Lower(expected)) == Lower(expected);
  }

  // ---------------------------------------------------------------------------
  // Session key
  // ---------------------------------------------------------------------------

  /** What `generateSessionKey` returns. */
  datatype Session = Session(sessionId: string, timestamp: int)

  /** `generateSessionKey`: the key is SHA-256 of the signature, and the
      session id is the hex form of the very same digest. */
  function GenerateSessionKey(st: Pulsar, signature: string, sha256: string -> Digest, nowMs: int)
    : (r: (Pulsar, Session))
    ensures r.0 == st.(encryptionKey := Some(sha256(signature)))
    ensures |r.1.sessionId| == 64 && IsHex(r.1.sessionId) && r.1.timestamp == nowMs
  {
    var key := sha256(signature);
    (st.(encryptionKey := Some(key)), Session(HexEncode(key), nowMs))
  }

  /** The public session id gives away the private session key: decoding the
      id as hex yields exactly the key stored for encryption. */
  lemma SessionIdRevealsKey(st: Pulsar, signature: string, sha256: string -> Digest, nowMs: int)
    ensures var (st', session) := GenerateSessionKey(st, signature, sha256, nowMs);
      st'.encryptionKey == Some(HexDecode(session.sessionId))
  {
    HexRoundTrip(sha256(signature));
  }

  // ---------------------------------------------------------------------------
  // Encryption
  // ---------------------------------------------------------------------------

  /** AES-256-CBC as a pair of functions: `encrypt(key, iv, text)` gives the
      ciphertext bytes, `decrypt(key, iv, bytes)` the text or None where
      `decipher.final` throws. */
  datatype Cipher = Cipher(
    encrypt: (Digest, seq<Byte>, string) -> seq<Byte>,
    decrypt: (Digest, seq<Byte>, seq<Byte>) -> Option<string>)

  /** The one property assumed of the cipher: with the key and IV it was
      encrypted under, a ciphertext decrypts to its plaintext. */
  predicate Inverts(c: Cipher, key: Digest, iv: seq<Byte>, text: string) {
    c.decrypt(key, iv, c.encrypt(key, iv, text)) == Some(text)
  }

  /** The hex strings `encryptData` returns. */
  datatype Sealed = Sealed(iv: string, data: string)

  /** `encryptData`: requires a session key; the IV (16 random bytes, a
      parameter here) goes out hex-encoded beside the hex ciphertext. */
  function EncryptData(st: Pulsar, text: string, iv: seq<Byte>, c: Cipher): (r: Result<Sealed, PulsarError>)
    requires |iv| == IvLength
    ensures st.encryptionKey.None? <==> r == Err(SessionKeyMissing)
    ensures st.encryptionKey.Some? ==> r.Ok?
    ensures r.Ok? ==> |r.value.iv| == 2 * IvLength && IsHex(r.value.iv) && HexDecode(r.value.iv) == iv
    ensures r.Ok? ==> HexDecode(r.value.data) == c.encrypt(st.encryptionKey.value, iv, text)
  {
    match st.encryptionKey
    case None => Err(SessionKeyMissing)
    case Some(key) =>
      var bytes := c.encrypt(key, iv, text);
      HexRoundTrip(iv);
      HexRoundTrip(bytes);
      Ok(Sealed(HexEncode(iv), HexEncode(bytes)))
  }

  /** `decryptData`: requires a session key; the IV is read back from hex and
      `createDecipheriv` rejects one that is not 16 bytes; `decipher.update`
      then refuses ciphertext hex of odd length before reading any of it. */
  function DecryptData(st: Pulsar, data: string, iv: string, c: Cipher): (r: Result<string, PulsarError>)
    ensures st.encryptionKey.None? <==> r == Err(SessionKeyMissing)
    ensures st.encryptionKey.Some? ==> (|HexDecode(iv)| != IvLength <==> r == Err(InvalidIv))
    ensures st.encryptionKey.Some? && |HexDecode(iv)| == IvLength && |data| % 2 == 1 ==> r == Err(OddCiphertext)
    ensures r.Ok? ==> |data| % 2 == 0
    ensures r.Ok? ==> c.decrypt(st.encryptionKey.value, HexDecode(iv), HexDecode(data)) == Some(r.value)
    ensures st.encryptionKey.Some? && |HexDecode(iv)| == IvLength && |data| % 2 == 0 ==>
      (r.Ok? <==> c.decrypt(st.encryptionKey.value, HexDecode(iv), HexDecode(data)).Some?)
  {
    match st.encryptionKey
    case None => Err(SessionKeyMissing)
    case Some(key) =>
      var ivBytes := HexDecode(iv);
      if |ivBytes| != IvLength then Err(InvalidIv)
      else if |data| % 2 == 1 then Err(OddCiphertext)
      else match c.decrypt(key, ivBytes, HexDecode(data))
        case None => Err(DecryptionFailed)
        case Some(text) => Ok(text)
  }

  /** Decrypting what `encryptData` returned, under the same session key,
      gives back the text. */
  lemma EncryptDecryptRoundTrip(st: Pulsar, text: string, iv: seq<Byte>, c: Cipher)
    requires |iv| == IvLength && st.encryptionKey.Some?
    requires Inverts(c, st.encryptionKey.value, iv, text)
    ensures EncryptData(st, text, iv, c).Ok?
    ensures var sealed := EncryptData(st, text, iv, c).value;
      DecryptData(st, sealed.data, sealed.iv, c) == Ok(text)
  {
    var sealed := EncryptData(st, text, iv, c).value;
    HexRoundTrip(iv);
    HexRoundTrip(c.encrypt(st.encryptionKey.value, iv, text));
    assert HexDecode(sealed.iv) == iv;
  }

  /** Sealed data with one hex digit appended is refused rather than read
      without its last digit. */
  lemma TamperedCiphertextRefused(st: Pulsar, text: string, iv: seq<Byte>, c: Cipher, digit: char)
    requires |iv| == IvLength && st.encryptionKey.Some?
    ensures EncryptData(st, text, iv, c).Ok?
    ensures var sealed := EncryptData(st, text, iv, c).value;
      DecryptData(st, sealed.data + [digit], sealed.iv, c) == Err(OddCiphertext)
  {
    HexRoundTrip(iv);
  }

  /** Without a session key neither direction does anything but throw. */
  lemma KeyRequired(st: Pulsar, text: string, iv: seq<Byte>, data: string, ivText: string, c: Cipher)
    requires |iv| == IvLength && st.encryptionKey.None?
    ensures EncryptData(st, text, iv, c) == Err(SessionKeyMissing)
    ensures DecryptData(st, data, ivText, c) == Err(SessionKeyMissing)
  {
  }

  /** A full session: verify the wallet, derive the key from the same
      signature, then seal and open a message. */
  lemma SessionLifecycle(message: string, signature: string, address: string, text: string, iv: seq<Byte>,
                         recover: (string, string) -> Option<string>, sha256: string -> Digest, nowMs: int, c: Cipher)
    requires message != "" && signature != "" && address != ""
    requires recover(message, signature) == Some(address)
    requires |iv| == IvLength && Inverts(c, sha256(signature), iv, text)
    ensures var (p1, verified) := VerifyWalletSignature(Fresh, Some(message), Some(signature), Some(address), recover);
      var (p2, _) := GenerateSessionKey(p1, signature, sha256, nowMs);
      && verified == Ok(address)
      && p2 == Pulsar(Some(address), Some(sha256(signature)))
      && EncryptData(p2, text, iv, c).Ok?
      && DecryptData(p2, EncryptData(p2, text, iv, c).value.data, EncryptData(p2, text, iv, c).value.iv, c) == Ok(text)
  {
    var (p1, verified) := VerifyWalletSignature(Fresh, Some(message), Some(signature), Some(address), recover);
    var (p2, _) := GenerateSessionKey(p1, signature, sha256, nowMs);
    EncryptDecryptRoundTrip(p2, text, iv, c);
  }
}
