# imagelite user registration and authentication kernel, in Dafny

This project models the part of the imagelite media API that registers
users and authenticates them with signed tokens:

- `UserServiceImpl`: `save` validates a new user in a fixed order. The order
  is: no user, blank email, blank password, email already taken. It then
  replaces the password with its hash and stores the user.
  `authenticationToken` looks the user up by email and checks the password.
  It throws one identical exception for an unknown email and for a wrong
  password. On success it asks the token service for a token.
- `SecretKeyGenerator`: the signing key, generated on the first call and
  returned unchanged after that.
- `JwtService`: builds a signed token whose subject is the email, whose only
  custom claim is `name`, and which expires 60 minutes after issue. It also
  parses a token back to its subject, turning every `JwtException` into an
  `InvalidTokenException` with the same message.
- `UserController`: maps the service outcomes to HTTP statuses 201, 400 and
  409 for registration, and 200 and 401 for authentication.
- `UserMapper`: copies the three fields between the request body and the
  entity.

Files, one module each: `wrappers.dfy` (Option, Result),
`java_strings.dfy` (`String.trim`, the null-or-blank test,
`Character.isWhitespace`), `entities.dfy` (User, UserDTO, CredentialsDTO),
`user_mapper.dfy`, `secret_key_generator.dfy` (module `KeyGen`),
`jwt_service.dfy` (module `Jwt`), `user_service.dfy` (module `Users`),
`user_controller.dfy` (module `Controller`).

How the outside world is modelled:

- A Java `String` that may be null is `Option<string>`. A thrown exception
  is the `Failure` side of a `Result`.
- The user repository is a map from email to user. `findByEmail` is a lookup
  in that map.
- The password encoder is a value holding two functions, `encode(raw, salt)`
  and `matches(raw, hash)`. The only thing assumed of them is the predicate
  `Sound`: every password matches its own hash. The random salt is a
  parameter. The configured encoder is BCrypt (`config/SecurityConfig.java`
  line 39). BCrypt throws `IllegalArgumentException("rawPassword cannot be
  null")` for a null raw password and never matches a null hash. Both
  behaviours are modelled in `Users.Matches`.
- Random key generation is a parameter. `generated` is the key the HS256
  key builder would return if it were called now.
- The clock is a parameter, in milliseconds since the epoch. The `exp`
  claim is a NumericDate in whole seconds (RFC 7519, section 4.1.4). The
  parser refuses a token once the clock is past `exp`, with no clock skew.
- A compact token is abstract. It is either `Signed(jws)`, the payload plus
  the key that signed it, or `Text(s)`, any string that no signer produced.
  The token parser runs its checks in this order: a null or blank string
  gives `IllegalArgumentException`; other unsigned text is malformed; then
  the signature is checked; then the expiration. The first of these is not
  a `JwtException`, so `getEmailFromToken` lets it escape untranslated. The
  diagnostic texts in `Jwt.FailureMessage` stand in for the library's
  messages. Only their equality through the translation matters.

Where the code differs from its Javadoc or from what a caller might expect,
the model follows the code:

- The Javadoc of `authenticationToken` says it returns null on failure. The
  code throws `IllegalArgumentException`.
- The service checks for a duplicate email before storing. A uniqueness
  violation at store time is not turned into `DuplicatedTupleException`.
- Token parsing has one failure outside `InvalidTokenException`: a null or
  blank token string.
- "Unknown email and wrong password look alike" holds exactly at the
  service for every non-null password. With a null password, a known
  email gives BCrypt's exception, while an unknown email gives "Invalid
  email or password". At the HTTP boundary every authentication failure is
  the same 401 with no body (`Controller.AuthenticationFailuresLookAlike`).

## Model

| member | source | states |
|---|---|---|
| `JavaStrings.TrimStart` | imageliteapi/imageliteapi/src/main/java/io/github/mapsegundo/imageliteapi/application/users/UserServiceImpl.java:51 | the leading part of `trim()`: a suffix of the input, every dropped character is at most U+0020, the first kept one is not |
| `JavaStrings.TrimEnd` | imageliteapi/imageliteapi/src/main/java/io/github/mapsegundo/imageliteapi/application/users/UserServiceImpl.java:51 | the trailing part of `trim()`: a prefix of the input, every dropped character is at most U+0020, the last kept one is not |
| `JavaStrings.TrimEmptyIff` | imageliteapi/imageliteapi/src/main/java/io/github/mapsegundo/imageliteapi/application/users/UserServiceImpl.java:51-56 | `trim().isEmpty()` holds exactly when every character is at most U+0020 |
| `JavaStrings.IsNullOrBlank` | imageliteapi/imageliteapi/src/main/java/io/github/mapsegundo/imageliteapi/application/users/UserServiceImpl.java:51-56 | the `== null \|\| trim().isEmpty()` test on email and password holds exactly for null or for a string made only of characters up to U+0020 |
| `UserMapper.ToDTO` | imageliteapi/imageliteapi/src/main/java/io/github/mapsegundo/imageliteapi/application/users/UserMapper.java:19-25 | name, email and password copied verbatim |
| `UserMapper.ToEntity` | imageliteapi/imageliteapi/src/main/java/io/github/mapsegundo/imageliteapi/application/users/UserMapper.java:33-39 | name, email and password copied verbatim, no trimming or hashing |
| `UserMapper.BodyRoundTrip` | imageliteapi/imageliteapi/src/main/java/io/github/mapsegundo/imageliteapi/application/users/UserMapper.java:19-39 | `toDTO(toEntity(dto)) == dto` |
| `UserMapper.EntityRoundTrip` | imageliteapi/imageliteapi/src/main/java/io/github/mapsegundo/imageliteapi/application/users/UserMapper.java:19-39 | `toEntity(toDTO(u))` equals `u` on all three fields |
| `KeyGen.GetKeyStep` | imageliteapi/imageliteapi/src/main/java/io/github/mapsegundo/imageliteapi/application/jwt/SecretKeyGenerator.java:27-30 | one call of getKey: the field is set afterwards, a set field is kept, and the key returned is the stored one or else the generated one |
| `KeyGen.SecretKeyGenerator.constructor` | imageliteapi/imageliteapi/src/main/java/io/github/mapsegundo/imageliteapi/application/jwt/SecretKeyGenerator.java:18 | the key field starts null and nothing has been generated |
| `KeyGen.SecretKeyGenerator.GetKey` | imageliteapi/imageliteapi/src/main/java/io/github/mapsegundo/imageliteapi/application/jwt/SecretKeyGenerator.java:26-31 | a null field gets the generated key, which is stored and returned; a set field is returned and left as it is; the field is set afterwards and at most one key is ever generated |
| `KeyGen.EveryCallReturnsOneKey` | imageliteapi/imageliteapi/src/main/java/io/github/mapsegundo/imageliteapi/application/jwt/SecretKeyGenerator.java:18-31 | over any sequence of calls, every call returns the same key: the stored one, or else the one generated by the first call |
| `KeyGen.GeneratedAtMostOnce` | imageliteapi/imageliteapi/src/main/java/io/github/mapsegundo/imageliteapi/application/jwt/SecretKeyGenerator.java:27-29 | at most one call of a sequence generates a key, and one does exactly when the field starts null and there is a call |
| `KeyGen.NoGenerationOnceSet` | imageliteapi/imageliteapi/src/main/java/io/github/mapsegundo/imageliteapi/application/jwt/SecretKeyGenerator.java:27-29 | once the field is set, no later call generates a key |
| `Jwt.ExpirationTime` | imageliteapi/imageliteapi/src/main/java/io/github/mapsegundo/imageliteapi/application/jwt/JwtService.java:52-56 | the expiration instant is exactly 60 minutes after the issue instant |
| `Jwt.GetClaims` | imageliteapi/imageliteapi/src/main/java/io/github/mapsegundo/imageliteapi/application/jwt/JwtService.java:64-68 | the claim map has exactly one entry, `name` to the user's name |
| `Jwt.Issue` | imageliteapi/imageliteapi/src/main/java/io/github/mapsegundo/imageliteapi/application/jwt/JwtService.java:32-56 | the token's subject is the email, its claims are the `name` claim, it is signed with the given key, and its `exp` is the issue instant plus 60 minutes truncated to whole seconds |
| `Jwt.EmailFromToken` | imageliteapi/imageliteapi/src/main/java/io/github/mapsegundo/imageliteapi/application/jwt/JwtService.java:70-81 | succeeds exactly when parsing does and then returns the subject verbatim; every JwtException becomes InvalidToken with the same message; the parser's IllegalArgumentException goes through unchanged |
| `Jwt.SignedTokenAcceptedIff` | imageliteapi/imageliteapi/src/main/java/io/github/mapsegundo/imageliteapi/application/jwt/JwtService.java:72-80 | a signed token yields its subject if and only if it was signed with the current key and the clock is not past `exp`; otherwise it is an InvalidToken |
| `Jwt.IssueThenParse` | imageliteapi/imageliteapi/src/main/java/io/github/mapsegundo/imageliteapi/application/jwt/JwtService.java:38-77 | the token issued for a user parses back to the user's email with the same key at any instant up to its `exp` |
| `Jwt.IssueThenParseWithinLifetime` | imageliteapi/imageliteapi/src/main/java/io/github/mapsegundo/imageliteapi/application/jwt/JwtService.java:52-56 | the same holds at every instant at least one second before issue time plus 60 minutes |
| `Jwt.IssuedTokenExpires` | imageliteapi/imageliteapi/src/main/java/io/github/mapsegundo/imageliteapi/application/jwt/JwtService.java:52-56 | more than 60 minutes after issue, every issued token is refused as InvalidToken, whatever the key |
| `Jwt.ForeignKeyRefused` | imageliteapi/imageliteapi/src/main/java/io/github/mapsegundo/imageliteapi/application/jwt/JwtService.java:72-80 | a token signed with another key is refused as InvalidToken carrying the signature message |
| `Jwt.UnsignedTextRefused` | imageliteapi/imageliteapi/src/main/java/io/github/mapsegundo/imageliteapi/application/jwt/JwtService.java:70-80 | a null or blank token string escapes as IllegalArgumentException; other text no signer produced is InvalidToken (malformed) |
| `Jwt.JwtService.constructor` | imageliteapi/imageliteapi/src/main/java/io/github/mapsegundo/imageliteapi/application/jwt/JwtService.java:21-24 | the service holds the given key generator |
| `Jwt.JwtService.GenerateToken` | imageliteapi/imageliteapi/src/main/java/io/github/mapsegundo/imageliteapi/application/jwt/JwtService.java:32-45 | the token is the one `Issue` describes, signed with the key the generator holds after its getKey call |
| `Jwt.JwtService.GetEmailFromToken` | imageliteapi/imageliteapi/src/main/java/io/github/mapsegundo/imageliteapi/application/jwt/JwtService.java:70-81 | the result is `EmailFromToken` with the key the generator holds after its getKey call |
| `Jwt.IssueAndParse` | imageliteapi/imageliteapi/src/main/java/io/github/mapsegundo/imageliteapi/application/jwt/JwtService.java:34-73 | issuing and then parsing through one generator gives back the email before expiry, because both calls use the same key provider |
| `Users.Register` | imageliteapi/imageliteapi/src/main/java/io/github/mapsegundo/imageliteapi/application/users/UserServiceImpl.java:47-62 | the error for no user, then blank email, then blank password, then a taken email (exact, untrimmed), each with the store unchanged; success exactly otherwise, storing the user under its email with the password replaced by `encode(password, salt)` |
| `Users.RegisterKeepsStoreValid` | imageliteapi/imageliteapi/src/main/java/io/github/mapsegundo/imageliteapi/application/users/UserServiceImpl.java:47-61 | every stored user stays under its own non-blank email with a non-null password |
| `Users.RegisterAddsOneEntry` | imageliteapi/imageliteapi/src/main/java/io/github/mapsegundo/imageliteapi/application/users/UserServiceImpl.java:57-61 | a successful save adds exactly one new key, grows the store by one and leaves every other entry unchanged |
| `Users.StoredPasswordMatches` | imageliteapi/imageliteapi/src/main/java/io/github/mapsegundo/imageliteapi/application/users/UserServiceImpl.java:60 | the stored password is the encoder's hash, and the original password matches it |
| `Users.SecondSaveIsDuplicate` | imageliteapi/imageliteapi/src/main/java/io/github/mapsegundo/imageliteapi/application/users/UserServiceImpl.java:57-61 | after a successful save, a second save with the same email fails with DuplicatedTupleException and the store keeps the first user |
| `Users.Authenticate` | imageliteapi/imageliteapi/src/main/java/io/github/mapsegundo/imageliteapi/application/users/UserServiceImpl.java:72-80 | succeeds exactly when the email is stored and the password matches its hash, giving the stored user; every failure is an IllegalArgumentException; an unknown email gives "Invalid email or password" |
| `Users.UnknownEmailLooksLikeWrongPassword` | imageliteapi/imageliteapi/src/main/java/io/github/mapsegundo/imageliteapi/application/users/UserServiceImpl.java:73-79 | with a non-null password, an unknown email and a wrong password throw the very same exception |
| `Users.RegisteredUserAuthenticates` | imageliteapi/imageliteapi/src/main/java/io/github/mapsegundo/imageliteapi/application/users/UserServiceImpl.java:57-80 | a user who just registered authenticates with the same email and password |
| `Users.RegisterAuthenticateParse` | imageliteapi/imageliteapi/src/main/java/io/github/mapsegundo/imageliteapi/application/users/UserServiceImpl.java:47-81 | register, authenticate and parse the issued token before expiry: the token yields the registered email |
| `Users.UserServiceImpl.constructor` | imageliteapi/imageliteapi/src/main/java/io/github/mapsegundo/imageliteapi/application/users/UserServiceImpl.java:19-24 | the service holds the given store, sound encoder and token service |
| `Users.UserServiceImpl.GetByEmail` | imageliteapi/imageliteapi/src/main/java/io/github/mapsegundo/imageliteapi/application/users/UserServiceImpl.java:32-35 | the stored user for the email, carrying that email, or null exactly when none is stored (always null for a null email) |
| `Users.UserServiceImpl.Save` | imageliteapi/imageliteapi/src/main/java/io/github/mapsegundo/imageliteapi/application/users/UserServiceImpl.java:47-62 | the result and the new store are those of `Register`, and the store stays valid |
| `Users.UserServiceImpl.AuthenticationToken` | imageliteapi/imageliteapi/src/main/java/io/github/mapsegundo/imageliteapi/application/users/UserServiceImpl.java:72-81 | the store is never written; a failure of `Authenticate` is thrown as it is and leaves the key generator untouched; on success the result is the token issued for the stored user |
| `Controller.SaveResponse` | imageliteapi/imageliteapi/src/main/java/io/github/mapsegundo/imageliteapi/application/users/UserController.java:37-46 | 201 with no body exactly on success, 409 with `{"error": message}` for DuplicatedTupleException, 400 with no body for IllegalArgumentException |
| `Controller.AuthenticateResponse` | imageliteapi/imageliteapi/src/main/java/io/github/mapsegundo/imageliteapi/application/users/UserController.java:57-62 | 200 with the token as body on success, 401 with no body for IllegalArgumentException, any other exception propagates |
| `Controller.SaveStatusFromRequest` | imageliteapi/imageliteapi/src/main/java/io/github/mapsegundo/imageliteapi/application/users/UserController.java:36-47 | for the entity mapped from the body: 400 exactly for a blank email or password, 409 with the duplicate message exactly when the email is taken, 201 exactly otherwise |
| `Controller.AuthenticationFailuresLookAlike` | imageliteapi/imageliteapi/src/main/java/io/github/mapsegundo/imageliteapi/application/users/UserController.java:56-63 | any two failed authentications get the same response, 401 with no body |
| `Controller.UserController.constructor` | imageliteapi/imageliteapi/src/main/java/io/github/mapsegundo/imageliteapi/application/users/UserController.java:23-27 | the controller holds the given service |
| `Controller.UserController.Save` | imageliteapi/imageliteapi/src/main/java/io/github/mapsegundo/imageliteapi/application/users/UserController.java:36-47 | hands exactly `toEntity(dto)` to the service's save; the response and the new store follow from `Register` |
| `Controller.UserController.Authenticate` | imageliteapi/imageliteapi/src/main/java/io/github/mapsegundo/imageliteapi/application/users/UserController.java:56-63 | never lets an exception escape: 401 with no body and the key generator untouched when `Authenticate` fails, otherwise 200 with the token issued for the stored user |

## Left out

- The request filter that checks tokens on each request is not modelled. `JwtFilter` is not part of this model, so the per-request gate is not described here.
- `SecurityConfig` route rules, CORS and CSRF are left out. They are Spring Security configuration, not logic of this kernel.
- The image endpoints and the image service are left out. They are upload, header and query glue over a repository whose query lives in the database.
- HS256 signing, the token's wire encoding, random key generation and BCrypt hashing are abstract. A signed token carries its payload and its key; the encoder is two functions and the `Sound` assumption.
- `Register` stores by email in a map. The persistence layer keys users by id, and any uniqueness constraint or case-insensitive email collation it may have is not modelled. User.java is not part of this model, so only the three fields the mapper copies are modelled.
- `Users.UserServiceImpl.Save` returns the updated user as a new value. In Java, `setPassword` changes the caller's `User` object in place. That aliasing is not modelled; the controller discards the object anyway.
- `Jwt.ExpirationTime`: not modelled is the daylight-saving edge of `LocalDateTime.now().plusMinutes(60)` converted through the system zone, so `Jwt.Issue` inherits it too. During the first occurrence of the repeated hour of a fall-back, the one under the earlier offset, that conversion gives 120 minutes instead of 60. The model reads the clock as an instant and adds exactly 60 minutes.
- `Jwt.GetClaims` keeps a null name as a claim value, as the HashMap does. The token library's handling of null-valued claims is not modelled.
- Concurrency is left out. Calls are sequential; the unsynchronised lazy initialisation of the key and the transaction around `save` are not modelled.
- The 72-byte password limit of newer BCrypt versions and storage failures at persist time are left out. Neither appears in `UserServiceImpl.java` or `SecurityConfig.java`.
- Java strings are UTF-16. The model uses Dafny characters; the trim and whitespace tests only compare against characters of the Basic Multilingual Plane, where the two agree.
