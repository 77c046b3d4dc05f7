/** Registration and authentication over a user store keyed by email and an
    abstract password encoder. */
module Users {
  import opened Wrappers
  import opened JavaStrings
  import opened Entities
  import opened KeyGen
  import opened Jwt

  /** What the service throws. */
  datatype ServiceError =
    | IllegalArgument(message: string)
    | DuplicatedTuple(message: string)

  const UserNullMessage := "User cannot be null"
  const EmailBlankMessage := "User email cannot be null or empty"
  const PasswordBlankMessage := "User password cannot be null or empty"
  const DuplicateMessage := "O usuário já existe"
  const InvalidCredentialsMessage := "Invalid email or password"
  /** What the configured BCrypt encoder throws for a null raw password. */
  const RawPasswordNullMessage := "rawPassword cannot be null"

  /** The random salt behind one call of the encoder. */
  type Salt = seq<bv8>

  /** A one-way password encoder: `encode` hashes a raw password with a salt,
      `matches` compares a raw password with a stored hash. */
  datatype PasswordEncoder = PasswordEncoder(encode: (string, Salt) -> string, matches: (string, string) -> bool)

  /** The one property the service relies on: a password matches its own hash. */
  ghost predicate Sound(encoder: PasswordEncoder) {
    forall raw, salt :: encoder.matches(raw, encoder.encode(raw, salt))
  }

  /** The encoder's match test on nullable arguments: a null raw password is
      rejected, a null stored hash never matches. */
  function Matches(encoder: PasswordEncoder, raw: JString, encoded: JString): Result<bool, ServiceError>
  {
    if raw.None? then Failure(IllegalArgument(RawPasswordNullMessage))
    else if encoded.None? then Success(false)
    else Success(encoder.matches(raw.value, encoded.value))
  }

  /** The user repository: users by email. */
  type Store = map<string, User>

  /** Each stored user sits under its own email, which is not blank, and has
      a password hash. */
  ghost predicate ValidStore(store: Store) {
    forall e :: e in store ==>
      store[e].email == Some(e) && !IsNullOrBlank(Some(e)) && store[e].password.Some?
  }

  /** findByEmail: the user stored under `email`, or null. */
  function FindByEmail(store: Store, email: JString): Option<User>
  {
    if email.Some? && email.value in store then Some(store[email.value]) else None
  }

  /** The outcome of save: what it returns or throws and the store afterwards. */
  datatype Saved = Saved(result: Result<User, ServiceError>, store: Store)

  /** save: validation in a fixed order (no user, blank email, blank password,
      email taken), then the password is replaced by its hash and the user
      stored. */
  function Register(store: Store, encoder: PasswordEncoder, user: Option<User>, salt: Salt): (s: Saved)
    ensures s.result.Failure? ==> s.store == store
    ensures user.None? ==> s.result == Failure(IllegalArgument(UserNullMessage))
    ensures user.Some? && IsNullOrBlank(user.value.email) ==>
              s.result == Failure(IllegalArgument(EmailBlankMessage))
    ensures user.Some? && !IsNullOrBlank(user.value.email) && IsNullOrBlank(user.value.password) ==>
              s.result == Failure(IllegalArgument(PasswordBlankMessage))
    ensures user.Some? && !IsNullOrBlank(user.value.email) && !IsNullOrBlank(user.value.password)
            && user.value.email.value in store ==>
              s.result == Failure(DuplicatedTuple(DuplicateMessage))
    ensures s.result.Success? <==>
              user.Some? && !IsNullOrBlank(user.value.email) && !IsNullOrBlank(user.value.password)
              && user.value.email.value !in store
    ensures s.result.Success? ==>
              && s.result.value == user.value.(password := Some(encoder.encode(user.value.password.value, salt)))
              && s.store == store[user.value.email.value := s.result.value]
  {
    if user.None? then Saved(Failure(IllegalArgument(UserNullMessage)), store)
    else if IsNullOrBlank(user.value.email) then Saved(Failure(IllegalArgument(EmailBlankMessage)), store)
    else if IsNullOrBlank(user.value.password) then Saved(Failure(IllegalArgument(PasswordBlankMessage)), store)
    else if FindByEmail(store, user.value.email).Some? then Saved(Failure(DuplicatedTuple(DuplicateMessage)), store)
    else
      var hashed := user.value.(password := Some(encoder.encode(user.value.password.value, salt)));
      Saved(Success(hashed), store[user.value.email.value := hashed])
  }

  /** A save keeps the store valid. */
  lemma RegisterKeepsStoreValid(store: Store, encoder: PasswordEncoder, user: Option<User>, salt: Salt)
    requires ValidStore(store)
    ensures ValidStore(Register(store, encoder, user, salt).store)
  {
    var saved := Register(store, encoder, user, salt);
    if saved.result.Success? {
      var email := user.value.email.value;
      var stored := saved.result.value;
      assert stored.email == Some(email) && stored.password.Some?;
      forall e | e in saved.store
        ensures saved.store[e].email == Some(e) && !IsNullOrBlank(Some(e)) && saved.store[e].password.Some?
      {
        if e != email {
          assert e in store;
        }
      }
    }
  }

  /** A successful save adds exactly one entry and keeps every other entry. */
  lemma RegisterAddsOneEntry(store: Store, encoder: PasswordEncoder, user: Option<User>, salt: Salt)
    requires Register(store, encoder, user, salt).result.Success?
    ensures var after := Register(store, encoder, user, salt).store;
            var email := user.value.email.value;
            && email !in store
            && after.Keys == store.Keys + {email}
            && |after| == |store| + 1
            && forall e :: e in store ==> after[e] == store[e]
  {
    var after := Register(store, encoder, user, salt).store;
    var email := user.value.email.value;
    assert after.Keys == store.Keys + {email};
    assert |after.Keys| == |store.Keys| + 1;
  }

  /** The stored hash is not the plaintext's stand-in: it is what the encoder
      made of the plaintext, and the plaintext matches it. */
  lemma StoredPasswordMatches(store: Store, encoder: PasswordEncoder, user: Option<User>, salt: Salt)
    requires Sound(encoder)
    requires Register(store, encoder, user, salt).result.Success?
    ensures var stored := Register(store, encoder, user, salt).result.value;
            Matches(encoder, user.value.password, stored.password) == Success(true)
  {
    var raw := user.value.password.value;
    assert encoder.matches(raw, encoder.encode(raw, salt));
  }

  /** Saving a second user with the email of one just saved fails as a
      duplicate and leaves the store as the first save left it. */
  lemma SecondSaveIsDuplicate(store: Store, encoder: PasswordEncoder, first: User, second: User, salt1: Salt, salt2: Salt)
    requires Register(store, encoder, Some(first), salt1).result.Success?
    requires second.email == first.email && !IsNullOrBlank(second.password)
    ensures var after := Register(store, encoder, Some(first), salt1).store;
            Register(after, encoder, Some(second), salt2) == Saved(Failure(DuplicatedTuple(DuplicateMessage)), after)
  {
  }

  /** authenticationToken up to token issuing: the user to issue a token for,
      or the exception thrown. */
  function Authenticate(store: Store, encoder: PasswordEncoder, email: JString, password: JString): (r: Result<User, ServiceError>)
    ensures r.Success? <==>
              FindByEmail(store, email).Some? && Matches(encoder, password, FindByEmail(store, email).value.password) == Success(true)
    ensures r.Success? ==> r.value == store[email.value]
    ensures r.Failure? ==> r.error.IllegalArgument?
    ensures FindByEmail(store, email).None? ==> r == Failure(IllegalArgument(InvalidCredentialsMessage))
  {
    var user := FindByEmail(store, email);
    if user.None? then Failure(IllegalArgument(InvalidCredentialsMessage))
    else
      match Matches(encoder, password, user.value.password)
      case Failure(e) => Failure(e)
      case Success(ok) =>
        if !ok then Failure(IllegalArgument(InvalidCredentialsMessage)) else Success(user.value)
  }

  /** For a non-null password, an unknown email and a wrong password fail
      with the very same exception. */
  lemma UnknownEmailLooksLikeWrongPassword(store: Store, encoder: PasswordEncoder, email1: JString, email2: JString, password1: string, password2: string)
    requires ValidStore(store)
    requires FindByEmail(store, email1).None?
    requires email2.Some? && email2.value in store && !encoder.matches(password2, store[email2.value].password.value)
    ensures Authenticate(store, encoder, email1, Some(password1)) == Authenticate(store, encoder, email2, Some(password2))
    ensures Authenticate(store, encoder, email1, Some(password1)) == Failure(IllegalArgument(InvalidCredentialsMessage))
  {
  }

  /** A user who registered with a password authenticates with it. */
  lemma RegisteredUserAuthenticates(store: Store, encoder: PasswordEncoder, user: User, salt: Salt)
    requires Sound(encoder)
    requires Register(store, encoder, Some(user), salt).result.Success?
    ensures var saved := Register(store, encoder, Some(user), salt);
            Authenticate(saved.store, encoder, user.email, user.password) == Success(saved.result.value)
  {
    StoredPasswordMatches(store, encoder, Some(user), salt);
  }

  /** Registration, authentication and token parsing end to end: the token
      handed out for a registered user's password yields the user's email. */
  lemma RegisterAuthenticateParse(store: Store, encoder: PasswordEncoder, user: User, salt: Salt, key: SecretKey, issuedAt: Millis, now: Millis)
    requires Sound(encoder)
    requires Register(store, encoder, Some(user), salt).result.Success?
    requires now + MillisPerSecond <= issuedAt + 60 * MillisPerMinute
    ensures var saved := Register(store, encoder, Some(user), salt);
            var auth := Authenticate(saved.store, encoder, user.email, user.password);
            auth.Success? && EmailFromToken(Some(Signed(Issue(auth.value, key, issuedAt))), key, now) == Success(user.email)
  {
    RegisteredUserAuthenticates(store, encoder, user, salt);
    var saved := Register(store, encoder, Some(user), salt);
    IssueThenParseWithinLifetime(saved.result.value, key, issuedAt, now);
  }

  class UserServiceImpl {
    var store: Store
    const encoder: PasswordEncoder
    const jwtService: JwtService

    ghost predicate Valid()
      reads this
    {
      ValidStore(store) && Sound(encoder)
    }

    constructor (store: Store, encoder: PasswordEncoder, jwtService: JwtService)
      requires ValidStore(store) && Sound(encoder)
      ensures Valid()
      ensures this.store == store && this.encoder == encoder && this.jwtService == jwtService
    {
      this.store := store;
      this.encoder := encoder;
      this.jwtService := jwtService;
    }

    /** getByEmail: the stored user with this email, or null. */
    function GetByEmail(email: JString): (r: Option<User>)
      reads this
      requires Valid()
      ensures r.Some? <==> email.Some? && email.value in store
      ensures r.Some? ==> r.value == store[email.value] && r.value.email == email
    {
      FindByEmail(store, email)
    }

    /** save: validates, hashes the password and stores the user. */
    method Save(user: Option<User>, salt: Salt) returns (r: Result<User, ServiceError>)
      requires Valid()
      modifies this
      ensures Valid()
      ensures Saved(r, store) == Register(old(store), encoder, user, salt)
    {
      if user.None? {
        return Failure(IllegalArgument(UserNullMessage));
      }
      var u := user.value;
      if IsNullOrBlank(u.email) {
        return Failure(IllegalArgument(EmailBlankMessage));
      }
      if IsNullOrBlank(u.password) {
        return Failure(IllegalArgument(PasswordBlankMessage));
      }
      if FindByEmail(store, u.email).Some? {
        return Failure(DuplicatedTuple(DuplicateMessage));
      }
      u := u.(password := Some(encoder.encode(u.password.value, salt)));
      RegisterKeepsStoreValid(store, encoder, user, salt);
      store := store[u.email.value := u];
      r := Success(u);
    }

    /** authenticationToken: checks the credentials and issues a token. The
        store is never written; the key generator is touched only when a
        token is issued. */
    method AuthenticationToken(email: JString, password: JString, now: Millis, generated: SecretKey)
      returns (r: Result<AccessToken, ServiceError>)
      requires Valid() && jwtService.keyGenerator.Valid()
      modifies jwtService.keyGenerator
      ensures Valid() && jwtService.keyGenerator.Valid()
      ensures store == old(store)
      ensures match Authenticate(store, encoder, email, password)
              case Failure(e) => r == Failure(e) && unchanged(jwtService.keyGenerator)
              case Success(u) =>
                && jwtService.keyGenerator.key == GetKeyStep(old(jwtService.keyGenerator.key), generated).0
                && r == Success(AccessToken(Signed(Issue(u, jwtService.keyGenerator.key.value, now))))
    {
      var user := GetByEmail(email);
      if user.None? {
        return Failure(IllegalArgument(InvalidCredentialsMessage));
      }
      var matched := Matches(encoder, password, user.value.password);
      if matched.Failure? {
        return Failure(matched.error);
      }
      if !matched.value {
        return Failure(IllegalArgument(InvalidCredentialsMessage));
      }
      var token := jwtService.GenerateToken(user.value, now, generated);
      r := Success(token);
    }
  }
}
