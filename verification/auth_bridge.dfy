/** The Angel Cloud authentication bridge: the startup check of the
    encryption secret, password hashing, SSO tokens and their middleware,
    registration into the user table, the wallet-linking endpoint, and the
    vault key derivation. bcrypt, JSON Web Tokens and PBKDF2 are symbolic
    values (a datatype recording what went in), so two of them are equal
    exactly when they were made from the same inputs. The clock, random
    bytes and salts are parameters. */
module AuthBridge {
  import opened Wrappers
  import opened Text
  import opened Hex
  import opened PulsarSecurity

  // ---------------------------------------------------------------------------
  // Constants
  // ---------------------------------------------------------------------------

  const MinPasswordLength: nat := 8
  const BcryptCost: nat := 12
  const SecretLength: nat := 64
  /** `expiresIn: '7d'`, in seconds. */
  const TokenLifetime: nat := 7 * 24 * 60 * 60
  const StandardScope: string := "standard"
  const PulsarScope: string := "pulsar-verified-sso"
  const Pbkdf2Iterations: nat := 600000
  const UserKeyLength: nat := 32
  const BearerPrefix: string := "Bearer "

  // ---------------------------------------------------------------------------
  // Startup: the encryption secret
  // ---------------------------------------------------------------------------

  /** The process exits when the secret is missing or not 64 characters long. */
  datatype StartupError = InvalidSecret

  /** Startup exactly as written: only presence and length are checked, then
      `Buffer.from(secret, 'hex')` is trusted to fail on a bad secret. It
      never does; it silently stops at the first non-hexadecimal pair. */
  function StartupAsWritten(secret: Option<string>): (r: Result<seq<Byte>, StartupError>)
    ensures r.Ok? <==> Present(secret) && |secret.value| == SecretLength
    ensures r.Ok? ==> r.value == HexDecode(secret.value)
  {
    if !Present(secret) || |secret.value| != SecretLength then Err(InvalidSecret)
    else Ok(HexDecode(secret.value))
  }

  /** Sixty-four `z`s pass the check as written and leave an empty key. */
  lemma StartupAcceptsNonHexSecret()
    ensures var zs := seq(64, _ => 'z');
      StartupAsWritten(Some(zs)) == Ok([])
  {
    var zs := seq(64, _ => 'z');
    HexDecodeStopsAtFirstBadPair(zs);
  }

  /** Startup as the error message describes it: a 64-character hexadecimal
      string, that is 32 bytes. */
  function Startup(secret: Option<string>): (r: Result<seq<Byte>, StartupError>)
    ensures r.Ok? <==> Present(secret) && |secret.value| == SecretLength && IsHex(secret.value)
    ensures r.Ok? ==> r.value == HexDecode(secret.value)
  {
    if !Present(secret) || |secret.value| != SecretLength || !IsHex(secret.value) then Err(InvalidSecret)
    else Ok(HexDecode(secret.value))
  }

  /** Every secret the corrected check accepts gives a full 32-byte key, and
      the check as written accepts it too, with the same key. */
  lemma StartupKeyIsFull(secret: Option<string>)
    requires Startup(secret).Ok?
    ensures |Startup(secret).value| == 32
    ensures StartupAsWritten(secret) == Startup(secret)
  {
    HexDecodeLength(secret.value);
  }

  // ---------------------------------------------------------------------------
  // Passwords
  // ---------------------------------------------------------------------------

  /** A bcrypt hash, recording the password, cost and salt it was made from. */
  datatype PasswordHash = Bcrypt(password: string, cost: nat, salt: seq<Byte>)

  datatype AuthError = WeakPassword

  /** `hashPassword`: a missing password or one under 8 characters is
      rejected before hashing; otherwise bcrypt with cost 12. */
  function HashPassword(password: Option<string>, salt: seq<Byte>): (r: Result<PasswordHash, AuthError>)
    ensures r.Err? <==> !Present(password) || |password.value| < MinPasswordLength
    ensures r.Ok? ==> r.value == Bcrypt(password.value, BcryptCost, salt)
  {
    if !Present(password) || |password.value| < MinPasswordLength then Err(WeakPassword)
    else Ok(Bcrypt(password.value, BcryptCost, salt))
  }

  /** `verifyPassword` (`bcrypt.compare`): true exactly for the password the
      hash was made from. */
  predicate VerifyPassword(password: string, hash: PasswordHash) {
    hash.password == password
  }

  /** A stored hash accepts the password it was made from and no other. */
  lemma PasswordRoundTrip(password: string, other: string, salt: seq<Byte>)
    requires HashPassword(Some(password), salt).Ok?
    ensures VerifyPassword(password, HashPassword(Some(password), salt).value)
    ensures other != password ==> !VerifyPassword(other, HashPassword(Some(password), salt).value)
  {
  }

  // ---------------------------------------------------------------------------
  // Tokens
  // ---------------------------------------------------------------------------

  /** The payload `generateToken` signs, with the `iat` and `exp` claims
      `jwt.sign` adds (seconds since the epoch). */
  datatype Claims = Claims(userId: string, scope: string, legacyAccess: bool, timestamp: int, iat: int, exp: int)

  /** A signed token: its claims and the secret it was signed with. */
  datatype Jwt = Jwt(claims: Claims, secret: string)

  /** How a token travels as text: `encode` serialises a token and `decode`
      reads one back (None where `jwt.verify` cannot parse it). */
  datatype TokenCodec = TokenCodec(encode: Jwt -> string, decode: string -> Option<Jwt>)

  /** `generateToken(userId, scope = 'standard')`, signed at `nowMs`. */
  function GenerateToken(userId: string, scope: Option<string>, secret: string, nowMs: nat): (t: Jwt)
    ensures t.claims.userId == userId && t.claims.legacyAccess && t.claims.timestamp == nowMs
    ensures t.claims.scope == (if scope.Some? then scope.value else StandardScope)
    ensures t.claims.exp - t.claims.iat == TokenLifetime && t.claims.iat * 1000 <= nowMs < t.claims.iat * 1000 + 1000
    ensures t.secret == secret
  {
    var iat := nowMs / 1000;
    Jwt(Claims(userId, scope.GetOr(StandardScope), true, nowMs, iat, iat + TokenLifetime), secret)
  }

  /** Why `jwt.verify` throws. */
  datatype JwtError = Malformed | InvalidSignature | TokenExpired

  /** `jwt.verify`: the token parses, was signed with this secret and has not
      expired (it expires once the clock reaches `exp`). */
  function JwtVerify(token: string, secret: string, codec: TokenCodec, nowMs: nat): (r: Result<Claims, JwtError>)
    ensures r.Ok? <==>
      codec.decode(token).Some? && codec.decode(token).value.secret == secret &&
      nowMs / 1000 < codec.decode(token).value.claims.exp
    ensures r.Ok? ==> r.value == codec.decode(token).value.claims
  {
    match codec.decode(token)
    case None => Err(Malformed)
    case Some(t) =>
      if t.secret != secret then Err(InvalidSignature)
      else if nowMs / 1000 >= t.claims.exp then Err(TokenExpired)
      else Ok(t.claims)
  }

  /** `verifyToken`: the claims when `jwt.verify` accepts the token, and null
      for every way it can throw. */
  function VerifyToken(token: string, secret: string, codec: TokenCodec, nowMs: nat): (r: Option<Claims>)
    ensures r.None? <==> JwtVerify(token, secret, codec, nowMs).Err?
    ensures r.Some? ==> r.value == JwtVerify(token, secret, codec, nowMs).value
  {
    match JwtVerify(token, secret, codec, nowMs)
    case Ok(claims) => Some(claims)
    case Err(_) => None
  }

  /** A token issued at `issuedMs` verifies under the same secret for seven
      days and is rejected from then on, and under any other secret always. */
  lemma {:induction false} TokenLifecycle(userId: string, scope: Option<string>, secret: string, other: string,
                                          codec: TokenCodec, issuedMs: nat, nowMs: nat)
    requires var t := GenerateToken(userId, scope, secret, issuedMs); codec.decode(codec.encode(t)) == Some(t)
    ensures var t := GenerateToken(userId, scope, secret, issuedMs);
      && (issuedMs <= nowMs < issuedMs / 1000 * 1000 + TokenLifetime * 1000 ==>
            VerifyToken(codec.encode(t), secret, codec, nowMs) == Some(t.claims))
      && (nowMs >= issuedMs / 1000 * 1000 + TokenLifetime * 1000 ==>
            VerifyToken(codec.encode(t), secret, codec, nowMs).None?)
      && (other != secret ==> VerifyToken(codec.encode(t), other, codec, nowMs).None?)
  {
    var t := GenerateToken(userId, scope, secret, issuedMs);
    var iat := issuedMs / 1000;
    assert t.claims.exp == iat + TokenLifetime;
    if nowMs < iat * 1000 + TokenLifetime * 1000 {
      assert nowMs / 1000 < iat + TokenLifetime;
    } else {
      assert nowMs / 1000 >= iat + TokenLifetime;
    }
  }

  // ---------------------------------------------------------------------------
  // The SSO middleware
  // ---------------------------------------------------------------------------

  /** What `verifySSO` does with a request. */
  datatype SsoOutcome =
    | Forbidden            // 403: no authorization header
    | Unauthorized         // 401: the token does not verify
    | Authorized(userId: string)   // `req.userId` is set and the next handler runs

  /** `verifySSO`: the first `Bearer ` in the header is removed, wherever it
      is, and the rest is verified as a token. */
  function VerifySso(header: Option<string>, secret: string, codec: TokenCodec, nowMs: nat): (r: SsoOutcome)
    ensures !Present(header) <==> r == Forbidden
    ensures Present(header) ==>
      var claims := JwtVerify(ReplaceFirst(header.value, BearerPrefix, ""), secret, codec, nowMs);
      && (claims.Err? <==> r == Unauthorized)
      && (claims.Ok? ==> r == Authorized(claims.value.userId))
  {
    if !Present(header) then Forbidden
    else match JwtVerify(ReplaceFirst(header.value, BearerPrefix, ""), secret, codec, nowMs)
      case Err(_) => Unauthorized
      case Ok(claims) => Authorized(claims.userId)
  }

  /** `Bearer <token>` authorises the token's user while the token is valid. */
  lemma {:induction false} BearerTokenAuthorizes(token: string, secret: string, codec: TokenCodec, nowMs: nat)
    requires JwtVerify(token, secret, codec, nowMs).Ok?
    ensures VerifySso(Some(BearerPrefix + token), secret, codec, nowMs)
      == Authorized(JwtVerify(token, secret, codec, nowMs).value.userId)
  {
    ReplaceFirstPrefix(BearerPrefix, token);
  }

  /** A header holding the bare token, with no `Bearer ` anywhere in it, is
      verified as it stands. */
  lemma BareTokenAccepted(token: string, secret: string, codec: TokenCodec, nowMs: nat)
    requires token != "" && IndexOf(token, BearerPrefix).None?
    ensures VerifySso(Some(token), secret, codec, nowMs) ==
      match JwtVerify(token, secret, codec, nowMs)
      case Err(_) => Unauthorized
      case Ok(c) => Authorized(c.userId)
  {
  }

  /** A freshly issued token, presented as `Bearer <token>`, lets its user in. */
  lemma {:induction false} IssuedTokenPassesSso(userId: string, scope: Option<string>, secret: string,
                                                 codec: TokenCodec, nowMs: nat)
    requires var t := GenerateToken(userId, scope, secret, nowMs); codec.decode(codec.encode(t)) == Some(t)
    ensures VerifySso(Some(BearerPrefix + codec.encode(GenerateToken(userId, scope, secret, nowMs))), secret, codec, nowMs)
      == Authorized(userId)
  {
    var t := GenerateToken(userId, scope, secret, nowMs);
    assert JwtVerify(codec.encode(t), secret, codec, nowMs) == Ok(t.claims);
    BearerTokenAuthorizes(codec.encode(t), secret, codec, nowMs);
  }

  // ---------------------------------------------------------------------------
  // Registration
  // ---------------------------------------------------------------------------

  /** A user record. Fields the request did not carry are None. */
  datatype Account = Account(
    userId: string, email: Option<string>, passwordHash: PasswordHash,
    name: Option<string>, legacyName: Option<string>, created: int,
    blockchainVerified: bool, walletAddress: Option<string>)

  type Users = map<string, Account>

  /** `generateUserId`: `angel_`, the clock in milliseconds, `_`, and four
      random bytes in hex. */
  function GenerateUserId(nowMs: nat, random: seq<Byte>): (id: string)
    requires |random| == 4
    ensures |id| == 6 + |NatToString(nowMs)| + 1 + 8
    ensures id[..6] == "angel_" && id[|id| - 9] == '_' && IsHex(id[|id| - 8..])
    ensures id[6..|id| - 9] == NatToString(nowMs) && id[|id| - 8..] == HexEncode(random)
  {
    "angel_" + NatToString(nowMs) + "_" + HexEncode(random)
  }

  /** Different clock readings or random bytes give different ids: the id
      can be read back into both. */
  lemma {:induction false} GenerateUserIdInjective(t1: nat, r1: seq<Byte>, t2: nat, r2: seq<Byte>)
    requires |r1| == 4 && |r2| == 4
    requires GenerateUserId(t1, r1) == GenerateUserId(t2, r2)
    ensures t1 == t2 && r1 == r2
  {
    var id := GenerateUserId(t1, r1);
    var n1 := NatToString(t1);
    var n2 := NatToString(t2);
    assert |n1| == |n2|;
    assert id[6..6 + |n1|] == n1;
    assert GenerateUserId(t2, r2)[6..6 + |n2|] == n2;
    NatToStringRoundTrip(t1);
    NatToStringRoundTrip(t2);
    assert id[|id| - 8..] == HexEncode(r1);
    assert GenerateUserId(t2, r2)[|id| - 8..] == HexEncode(r2);
    HexRoundTrip(r1);
    HexRoundTrip(r2);
  }

  /** The body of a registration request. */
  datatype Registration = Registration(email: Option<string>, password: Option<string>,
                                       name: Option<string>, legacyName: Option<string>)

  /** `register`: the id is generated first (at `idMs`), then the password is
      hashed; a rejected password throws and stores nothing. Otherwise the
      record, created at `createdMs` and not wallet-verified, is stored under
      the id. No field, the email included, is checked against existing
      records. */
  function Register(users: Users, data: Registration, idMs: nat, random: seq<Byte>, salt: seq<Byte>, createdMs: nat)
    : (r: Result<(Users, string, Account), AuthError>)
    requires |random| == 4
    ensures r.Err? <==> HashPassword(data.password, salt).Err?
    ensures r.Ok? ==>
      var (users', id, acct) := r.value;
      && id == GenerateUserId(idMs, random)
      && users' == users[id := acct]
      && acct == Account(id, data.email, Bcrypt(data.password.value, BcryptCost, salt),
                         data.name, data.legacyName, createdMs, false, None)
  {
    var id := GenerateUserId(idMs, random);
    match HashPassword(data.password, salt)
    case Err(e) => Err(e)
    case Ok(hash) =>
      var acct := Account(id, data.email, hash, data.name, data.legacyName, createdMs, false, None);
      Ok((users[id := acct], id, acct))
  }

  /** Registration under an id not yet taken adds exactly one record and keeps
      every other one; two accounts with the same email are both stored. */
  lemma RegisterAddsOneRecord(users: Users, data: Registration, idMs: nat, random: seq<Byte>, salt: seq<Byte>, createdMs: nat)
    requires |random| == 4 && GenerateUserId(idMs, random) !in users
    requires Register(users, data, idMs, random, salt, createdMs).Ok?
    ensures var (users', id, acct) := Register(users, data, idMs, random, salt, createdMs).value;
      && users'.Keys == users.Keys + {id}
      && |users'| == |users| + 1
      && (forall u :: u in users ==> users'[u] == users[u])
      && !users'[id].blockchainVerified
      && VerifyPassword(data.password.value, users'[id].passwordHash)
  {
    var (users', id, acct) := Register(users, data, idMs, random, salt, createdMs).value;
    assert users'.Keys == users.Keys + {id};
  }

  // ---------------------------------------------------------------------------
  // Linking a wallet: POST /api/pulsar/verify-blockchain
  // ---------------------------------------------------------------------------

  /** The server state the endpoint touches: the user table and the shared
      `PulsarSecurity` object. */
  datatype Bridge = Bridge(users: Users, pulsar: Pulsar)

  /** The request body. */
  datatype LinkRequest = LinkRequest(address: Option<string>, signature: Option<string>,
                                     message: Option<string>, userId: Option<string>)

  /** The response: the upgraded token, or an error status. */
  datatype LinkResponse = Linked(token: Jwt) | LinkFailed(status: int)

  /** The endpoint: 400 for a missing field; 500 when the signature does not
      verify; 404 for an unknown user (checked only after verification, whose
      effect on the verifier stays); otherwise the wallet is recorded on the
      account and a token with the upgraded scope is issued. */
  function LinkWallet(b: Bridge, req: LinkRequest, recover: (string, string) -> Option<string>,
                      secret: string, nowMs: nat): (r: (Bridge, LinkResponse))
    ensures !(Present(req.address) && Present(req.signature) && Present(req.message) && Present(req.userId)) ==>
      r == (b, LinkFailed(400))
    ensures r.1 == LinkFailed(500) ==> r.0 == b
    ensures r.1 == LinkFailed(404) ==> r.0.users == b.users
    ensures Present(req.address) && Present(req.signature) && Present(req.message) && Present(req.userId)
              && VerifyWalletSignature(b.pulsar, req.message, req.signature, req.address, recover).1.Err?
            <==> r == (b, LinkFailed(500))
    ensures Present(req.address) && Present(req.signature) && Present(req.message) && Present(req.userId)
              && VerifyWalletSignature(b.pulsar, req.message, req.signature, req.address, recover).1.Ok?
              && req.userId.value !in b.users
            <==> r.1 == LinkFailed(404)
    ensures r.1.Linked? <==>
      && Present(req.address) && Present(req.signature) && Present(req.message) && Present(req.userId)
      && VerifyWalletSignature(b.pulsar, req.message, req.signature, req.address, recover).1.Ok?
      && req.userId.value in b.users
    ensures r.1.LinkFailed? ==> r.1.status in {400, 404, 500}
  {
    if !(Present(req.address) && Present(req.signature) && Present(req.message) && Present(req.userId)) then
      (b, LinkFailed(400))
    else
      var (pulsar', verified) := VerifyWalletSignature(b.pulsar, req.message, req.signature, req.address, recover);
      match verified
      case Err(_) => (b.(pulsar := pulsar'), LinkFailed(500))
      case Ok(address) =>
        var id := req.userId.value;
        if id !in b.users then (b.(pulsar := pulsar'), LinkFailed(404))
        else
          var acct := b.users[id].(walletAddress := Some(address), blockchainVerified := true);
          (Bridge(b.users[id := acct], pulsar'), Linked(GenerateToken(id, Some(PulsarScope), secret, nowMs)))
  }

  /** On success exactly one record changes, and only in its wallet fields:
      the address as the client sent it, and the verified flag. The verifier
      remembers that address and the token carries the upgraded scope. */
  lemma LinkSuccess(b: Bridge, req: LinkRequest, recover: (string, string) -> Option<string>, secret: string, nowMs: nat)
    requires LinkWallet(b, req, recover, secret, nowMs).1.Linked?
    ensures var (b', resp) := LinkWallet(b, req, recover, secret, nowMs);
      var id := req.userId.value;
      && b'.users.Keys == b.users.Keys
      && (forall u :: u in b.users && u != id ==> b'.users[u] == b.users[u])
      && b'.users[id] == b.users[id].(walletAddress := req.address, blockchainVerified := true)
      && b'.pulsar == b.pulsar.(userAddress := req.address)
      && resp.token.claims.userId == id && resp.token.claims.scope == PulsarScope
  {
  }

  /** An unknown user is reported only after the signature was checked, so
      the verifier's address has already moved to the requested one, while no
      account changes. */
  lemma UnknownUserAfterVerification(b: Bridge, req: LinkRequest, recover: (string, string) -> Option<string>,
                                     secret: string, nowMs: nat)
    requires Present(req.address) && Present(req.signature) && Present(req.message) && Present(req.userId)
    requires VerifyWalletSignature(b.pulsar, req.message, req.signature, req.address, recover).1.Ok?
    requires req.userId.value !in b.users
    ensures LinkWallet(b, req, recover, secret, nowMs) ==
      (b.(pulsar := b.pulsar.(userAddress := req.address)), LinkFailed(404))
  {
  }

  // ---------------------------------------------------------------------------
  // Vault key derivation
  // ---------------------------------------------------------------------------

  /** A PBKDF2 output, recording its inputs. */
  datatype DerivedKey = Pbkdf2(password: string, salt: seq<Byte>, iterations: nat, length: nat, digest: string)

  /** `generateUserKey`: PBKDF2-SHA512 over the user id and master password
      run together with no separator, salted with the startup key. */
  function GenerateUserKey(userId: string, masterPassword: string, encryptionKey: seq<Byte>): (k: DerivedKey)
    ensures k.salt == encryptionKey && k.iterations == Pbkdf2Iterations && k.length == UserKeyLength && k.digest == "sha512"
  {
    Pbkdf2(userId + masterPassword, encryptionKey, Pbkdf2Iterations, UserKeyLength, "sha512")
  }

  /** Two users get the same vault key exactly when their id and password run
      together into the same text. */
  lemma UserKeyDependsOnConcatenation(u1: string, p1: string, u2: string, p2: string, key: seq<Byte>)
    ensures GenerateUserKey(u1, p1, key) == GenerateUserKey(u2, p2, key) <==> u1 + p1 == u2 + p2
  {
  }

  /** Hence distinct pairs can share a key: user `ab` with password `c` and
      user `a` with password `bc`. */
  lemma UserKeyCollision(key: seq<Byte>)
    ensures GenerateUserKey("ab", "c", key) == GenerateUserKey("a", "bc", key)
  {
    UserKeyDependsOnConcatenation("ab", "c", "a", "bc", key);
    assert "ab" + "c" == "a" + "bc";
  }
}
