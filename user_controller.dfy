/** The users endpoints: each maps the service's return value or exception
    to an HTTP response. */
module Controller {
  import opened Wrappers
  import opened JavaStrings
  import opened Entities
  import opened KeyGen
  import opened Jwt
  import opened Users
  import opened UserMapper

  const OK: int := 200
  const CREATED: int := 201
  const BAD_REQUEST: int := 400
  const UNAUTHORIZED: int := 401
  const CONFLICT: int := 409

  datatype Body = NoBody | ErrorBody(fields: map<string, string>) | TokenBody(token: AccessToken)

  datatype Response = Response(status: int, body: Body)

  /** What leaves a handler: a response, or an exception it does not catch. */
  datatype Handled = Respond(response: Response) | Propagated(error: ServiceError)

  /** The response of the registration endpoint to the outcome of save. */
  function SaveResponse(outcome: Result<User, ServiceError>): (resp: Response)
    ensures resp.status == CREATED <==> outcome.Success?
    ensures outcome.Success? ==> resp.body == NoBody
    ensures outcome.Failure? && outcome.error.DuplicatedTuple? ==>
              resp == Response(CONFLICT, ErrorBody(map["error" := outcome.error.message]))
    ensures outcome.Failure? && outcome.error.IllegalArgument? ==> resp == Response(BAD_REQUEST, NoBody)
  {
    match outcome
    case Success(_) => Response(CREATED, NoBody)
    case Failure(DuplicatedTuple(m)) => Response(CONFLICT, ErrorBody(map["error" := m]))
    case Failure(IllegalArgument(_)) => Response(BAD_REQUEST, NoBody)
  }

  /** The response of the authentication endpoint to the outcome of
      authenticationToken; only IllegalArgumentException is caught. */
  function AuthenticateResponse(outcome: Result<AccessToken, ServiceError>): (h: Handled)
    ensures outcome.Success? ==> h == Respond(Response(OK, TokenBody(outcome.value)))
    ensures outcome.Failure? && outcome.error.IllegalArgument? ==> h == Respond(Response(UNAUTHORIZED, NoBody))
    ensures outcome.Failure? && outcome.error.DuplicatedTuple? ==> h == Propagated(outcome.error)
  {
    match outcome
    case Success(token) => Respond(Response(OK, TokenBody(token)))
    case Failure(IllegalArgument(_)) => Respond(Response(UNAUTHORIZED, NoBody))
    case Failure(e) => Propagated(e)
  }

  /** The registration endpoint's status in terms of the request body and
      the store: 400 for a blank field, 409 when the email is taken, 201
      otherwise. */
  lemma SaveStatusFromRequest(store: Store, encoder: PasswordEncoder, dto: UserDTO, salt: Salt)
    ensures var resp := SaveResponse(Register(store, encoder, Some(ToEntity(dto)), salt).result);
            && (resp.status == BAD_REQUEST <==> IsNullOrBlank(dto.email) || IsNullOrBlank(dto.password))
            && (resp.status == CONFLICT <==>
                  !IsNullOrBlank(dto.email) && !IsNullOrBlank(dto.password) && dto.email.value in store)
            && (resp.status == CONFLICT ==> resp.body == ErrorBody(map["error" := DuplicateMessage]))
            && (resp.status == CREATED <==>
                  !IsNullOrBlank(dto.email) && !IsNullOrBlank(dto.password) && dto.email.value !in store)
  {
  }

  /** Every failed authentication, whatever its cause, gets the same answer:
      401 with no body. */
  lemma AuthenticationFailuresLookAlike(store: Store, encoder: PasswordEncoder, c1: CredentialsDTO, c2: CredentialsDTO)
    requires Authenticate(store, encoder, c1.email, c1.password).Failure?
    requires Authenticate(store, encoder, c2.email, c2.password).Failure?
    ensures var o1 := Authenticate(store, encoder, c1.email, c1.password);
            var o2 := Authenticate(store, encoder, c2.email, c2.password);
            AuthenticateResponse(Failure(o1.error)) == AuthenticateResponse(Failure(o2.error))
            == Respond(Response(UNAUTHORIZED, NoBody))
  {
  }

  class UserController {
    const userService: UserServiceImpl

    constructor (userService: UserServiceImpl)
      ensures this.userService == userService
    {
      this.userService := userService;
    }

    /** POST /v1/users: maps the body to an entity and saves it. */
    method Save(dto: UserDTO, salt: Salt) returns (resp: Response)
      requires userService.Valid()
      modifies userService
      ensures userService.Valid()
      ensures var saved := Register(old(userService.store), userService.encoder, Some(ToEntity(dto)), salt);
              resp == SaveResponse(saved.result) && userService.store == saved.store
    {
      var user := ToEntity(dto);
      var outcome := userService.Save(Some(user), salt);
      resp := SaveResponse(outcome);
    }

    /** POST /v1/users/auth: exchanges credentials for a token. No exception
        escapes it. */
    method Authenticate(dto: CredentialsDTO, now: Millis, generated: SecretKey) returns (h: Handled)
      requires userService.Valid() && userService.jwtService.keyGenerator.Valid()
      modifies userService.jwtService.keyGenerator
      ensures userService.Valid() && userService.jwtService.keyGenerator.Valid()
      ensures h.Respond?
      ensures match Users.Authenticate(userService.store, userService.encoder, dto.email, dto.password)
              case Failure(_) => h == Respond(Response(UNAUTHORIZED, NoBody)) && unchanged(userService.jwtService.keyGenerator)
              case Success(u) =>
                && userService.jwtService.keyGenerator.key == GetKeyStep(old(userService.jwtService.keyGenerator.key), generated).0
                && h == Respond(Response(OK, TokenBody(AccessToken(Signed(Issue(u, userService.jwtService.keyGenerator.key.value, now))))))
    {
      var outcome := userService.AuthenticationToken(dto.email, dto.password, now, generated);
      h := AuthenticateResponse(outcome);
    }
  }
}
