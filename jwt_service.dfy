/** Token issuing and token parsing over an abstract signed token.

    A compact token is either one produced by the signer, carrying the
    payload it was built from and the key it was signed with, or some other
    text. The clock is a parameter: instants are milliseconds since the
    epoch, read once per call. The `exp` claim is a NumericDate in whole
    seconds (RFC 7519, section 4.1.4), so the instant is truncated when it
    goes into the token. */
module Jwt {
  import opened Wrappers
  import opened JavaStrings
  import opened Entities
  import opened KeyGen

  /** An instant in milliseconds since the epoch. */
  type Millis = nat

  const TokenLifetimeMinutes: nat := 60
  const MillisPerMinute: nat := 60_000
  const MillisPerSecond: nat := 1_000

  /** The payload of a signed token and the key that signed it. `claims`
      holds the custom claims; `subject` and `expiration` the registered
      `sub` and `exp` claims. */
  datatype Jws = Jws(subject: JString, expiration: nat, claims: map<string, JString>, key: SecretKey)

  /** A compact token string: one the signer produced, or any other text. */
  datatype CompactToken = Signed(jws: Jws) | Text(text: string)

  /** The value returned to an authenticated client. */
  datatype AccessToken = AccessToken(token: CompactToken)

  /** Why the token parser rejected a token; each is a JwtException. */
  datatype JwtFailure = Malformed | SignatureMismatch | Expired

  /** What the token parser throws: a JwtException of some kind, or an
      IllegalArgumentException for a null or blank token string. */
  datatype ParseError =
    | JwtException(kind: JwtFailure, message: string)
    | ParserIllegalArgument(message: string)

  /** What getEmailFromToken throws. */
  datatype TokenError =
    | InvalidToken(message: string)
    | TokenIllegalArgument(message: string)

  const BlankTokenMessage := "JWT String cannot be null or empty."

  /** Diagnostic text the parser attaches to each kind of failure. */
  function FailureMessage(kind: JwtFailure): string
  {
    match kind
    case Malformed => "Invalid compact JWT string"
    case SignatureMismatch => "JWT signature does not match locally computed signature"
    case Expired => "JWT expired"
  }

  /** The expiration instant of a token issued at `now`. */
  function ExpirationTime(now: Millis): (exp: Millis)
    ensures exp - now == 60 * MillisPerMinute
  {
    now + TokenLifetimeMinutes * MillisPerMinute
  }

  /** The NumericDate (whole seconds) of an instant. */
  function NumericDate(instant: Millis): nat
  {
    instant / MillisPerSecond
  }

  /** The custom claims of a user's token: a map built by one put. */
  function GetClaims(user: User): (claims: map<string, JString>)
    ensures claims.Keys == {"name"} && claims["name"] == user.name
  {
    var empty: map<string, JString> := map[];
    empty["name" := user.name]
  }

  /** The token the builder produces for `user`, signed with `key`, at `now`. */
  function Issue(user: User, key: SecretKey, now: Millis): (jws: Jws)
    ensures jws.subject == user.email && jws.key == key
    ensures jws.claims.Keys == {"name"} && jws.claims["name"] == user.name
    ensures jws.expiration * MillisPerSecond <= now + 60 * MillisPerMinute < jws.expiration * MillisPerSecond + MillisPerSecond
  {
    Jws(user.email, NumericDate(ExpirationTime(now)), GetClaims(user), key)
  }

  /** Parsing with signature verification at `now` against `key`: the null
      or blank string check, then the compact form, then the signature, then
      the expiration (no clock skew allowed). */
  function ParseSignedClaims(token: Option<CompactToken>, key: SecretKey, now: Millis): Result<Jws, ParseError>
  {
    match token
    case None => Failure(ParserIllegalArgument(BlankTokenMessage))
    case Some(Text(text)) =>
      if !HasText(Some(text)) then Failure(ParserIllegalArgument(BlankTokenMessage))
      else Failure(JwtException(Malformed, FailureMessage(Malformed)))
    case Some(Signed(jws)) =>
      if jws.key != key then Failure(JwtException(SignatureMismatch, FailureMessage(SignatureMismatch)))
      else if now > jws.expiration * MillisPerSecond then Failure(JwtException(Expired, FailureMessage(Expired)))
      else Success(jws)
  }

  /** getEmailFromToken given the key the generator hands out: the payload's
      subject, with every JwtException rethrown as InvalidTokenException
      carrying the same message. */
  function EmailFromToken(token: Option<CompactToken>, key: SecretKey, now: Millis): (r: Result<JString, TokenError>)
    ensures r.Success? <==> ParseSignedClaims(token, key, now).Success?
    ensures r.Success? ==> r.value == ParseSignedClaims(token, key, now).value.subject
    ensures ParseSignedClaims(token, key, now).Failure? ==>
              match ParseSignedClaims(token, key, now).error
              case JwtException(_, m) => r == Failure(InvalidToken(m))
              case ParserIllegalArgument(m) => r == Failure(TokenIllegalArgument(m))
  {
    match ParseSignedClaims(token, key, now)
    case Success(jws) => Success(jws.subject)
    case Failure(JwtException(_, m)) => Failure(InvalidToken(m))
    case Failure(ParserIllegalArgument(m)) => Failure(TokenIllegalArgument(m))
  }

  /** A signed token yields its subject exactly when it was signed with the
      current key and its expiration has not passed. */
  lemma SignedTokenAcceptedIff(jws: Jws, key: SecretKey, now: Millis)
    ensures EmailFromToken(Some(Signed(jws)), key, now) == Success(jws.subject)
            <==> jws.key == key && now <= jws.expiration * MillisPerSecond
    ensures EmailFromToken(Some(Signed(jws)), key, now).Failure? ==>
              EmailFromToken(Some(Signed(jws)), key, now).error.InvalidToken?
  {
  }

  /** A token issued for `user` gives back the user's email when parsed with
      the same key at any time up to its expiration. */
  lemma IssueThenParse(user: User, key: SecretKey, issuedAt: Millis, now: Millis)
    requires now <= NumericDate(ExpirationTime(issuedAt)) * MillisPerSecond
    ensures EmailFromToken(Some(Signed(Issue(user, key, issuedAt))), key, now) == Success(user.email)
  {
  }

  /** The same holds at every instant of the token's first 59 minutes and 59
      seconds, whatever the milliseconds of the issuing instant. */
  lemma IssueThenParseWithinLifetime(user: User, key: SecretKey, issuedAt: Millis, now: Millis)
    requires now + MillisPerSecond <= issuedAt + 60 * MillisPerMinute
    ensures EmailFromToken(Some(Signed(Issue(user, key, issuedAt))), key, now) == Success(user.email)
  {
    var jws := Issue(user, key, issuedAt);
    assert now <= jws.expiration * MillisPerSecond;
    IssueThenParse(user, key, issuedAt, now);
  }

  /** After 60 minutes every issued token is refused as an invalid token. */
  lemma IssuedTokenExpires(user: User, key: SecretKey, verifyKey: SecretKey, issuedAt: Millis, now: Millis)
    requires now > issuedAt + 60 * MillisPerMinute
    ensures EmailFromToken(Some(Signed(Issue(user, key, issuedAt))), verifyKey, now).Failure?
    ensures EmailFromToken(Some(Signed(Issue(user, key, issuedAt))), verifyKey, now).error.InvalidToken?
  {
  }

  /** A token signed with another key is refused as an invalid token. */
  lemma ForeignKeyRefused(user: User, key: SecretKey, verifyKey: SecretKey, issuedAt: Millis, now: Millis)
    requires key != verifyKey
    ensures EmailFromToken(Some(Signed(Issue(user, key, issuedAt))), verifyKey, now)
            == Failure(InvalidToken(FailureMessage(SignatureMismatch)))
  {
  }

  /** A null or blank token string escapes as IllegalArgumentException, not
      as InvalidTokenException; other text that no signer produced is
      refused as malformed. */
  lemma UnsignedTextRefused(text: string, key: SecretKey, now: Millis)
    ensures EmailFromToken(None, key, now) == Failure(TokenIllegalArgument(BlankTokenMessage))
    ensures EmailFromToken(Some(Text(text)), key, now)
            == if HasText(Some(text)) then Failure(InvalidToken(FailureMessage(Malformed)))
               else Failure(TokenIllegalArgument(BlankTokenMessage))
  {
  }

  class JwtService {
    const keyGenerator: SecretKeyGenerator

    constructor (keyGenerator: SecretKeyGenerator)
      ensures this.keyGenerator == keyGenerator
    {
      this.keyGenerator := keyGenerator;
    }

    /** Builds and signs the token of `user` with the generator's key. */
    method GenerateToken(user: User, now: Millis, generated: SecretKey) returns (t: AccessToken)
      requires keyGenerator.Valid()
      modifies keyGenerator
      ensures keyGenerator.Valid()
      ensures keyGenerator.key == GetKeyStep(old(keyGenerator.key), generated).0
      ensures t == AccessToken(Signed(Issue(user, keyGenerator.key.value, now)))
    {
      var key := keyGenerator.GetKey(generated);
      var expirationTime := ExpirationTime(now);
      var claims := GetClaims(user);
      t := AccessToken(Signed(Jws(user.email, NumericDate(expirationTime), claims, key)));
    }

    /** Parses `token` with the generator's key and returns its subject. */
    method GetEmailFromToken(token: Option<CompactToken>, now: Millis, generated: SecretKey)
      returns (r: Result<JString, TokenError>)
      requires keyGenerator.Valid()
      modifies keyGenerator
      ensures keyGenerator.Valid()
      ensures keyGenerator.key == GetKeyStep(old(keyGenerator.key), generated).0
      ensures r == EmailFromToken(token, keyGenerator.key.value, now)
    {
      var key := keyGenerator.GetKey(generated);
      r := EmailFromToken(token, key, now);
    }
  }

  /** Issuing and then parsing through one generator: the email comes back
      before expiry, because both calls use the key the generator holds. */
  method IssueAndParse(service: JwtService, user: User, issuedAt: Millis, now: Millis, generated1: SecretKey, generated2: SecretKey)
    returns (email: Result<JString, TokenError>)
    requires service.keyGenerator.Valid()
    requires now + MillisPerSecond <= issuedAt + 60 * MillisPerMinute
    modifies service.keyGenerator
    ensures email == Success(user.email)
  {
    var t := service.GenerateToken(user, issuedAt, generated1);
    ghost var key := service.keyGenerator.key.value;
    email := service.GetEmailFromToken(Some(t.token), now, generated2);
    IssueThenParseWithinLifetime(user, key, issuedAt, now);
  }
}
