/** api/user.go: signing up and logging in. Passwords reach the store only
    hashed, the hash never leaves the server, and a token is issued only to
    a caller whose password checked out. */
module ApiUser {
  import opened Db
  import opened Util
  import opened ApiCommon

  datatype CreateUserRequest = CreateUserRequest(username: string, password: string, fullName: string, email: string)

  datatype LoginUserRequest = LoginUserRequest(username: string, password: string)

  /** The user as the API shows it: no password hash. */
  datatype UserResponse = UserResponse(
    username: string,
    fullName: string,
    email: string,
    passwordChangedAt: Time,
    createdAt: Time)

  datatype LoginUserResponse = LoginUserResponse(accessToken: string, user: UserResponse)

  predicate IsAsciiAlphanumeric(c: char)
  {
    ('a' <= c <= 'z') || ('A' <= c <= 'Z') || ('0' <= c <= '9')
  }

  /** The `alphanum` tag: one or more ASCII letters or digits. */
  predicate Alphanumeric(s: string)
  {
    s != [] && forall i :: 0 <= i < |s| ==> IsAsciiAlphanumeric(s[i])
  }

  /** The tags of createUserRequest: username `required,alphanum`, password
      `required,min=6`, full name `required`, email `required,email`. */
  function ValidateCreateUserRequest(req: CreateUserRequest, isEmail: string -> bool): (errs: seq<FieldError>)
    ensures errs == [] <==>
      Alphanumeric(req.username) && |req.password| >= 6 && req.fullName != "" && req.email != "" && isEmail(req.email)
    ensures |errs| <= 4
  {
    TwoTagFailure("Username", Check("required", "", req.username != ""), Check("alphanum", "", Alphanumeric(req.username)))
    + TwoTagFailure("Password", Check("required", "", req.password != ""), Check("min", "6", |req.password| >= 6))
    + FirstFailure("FullName", [Check("required", "", req.fullName != "")])
    + TwoTagFailure("Email", Check("required", "", req.email != ""), Check("email", "", isEmail(req.email)))
  }

  /** The tags of loginUserRequest: username `required,alphanum`, password `required,min=6`. */
  function ValidateLoginUserRequest(req: LoginUserRequest): (errs: seq<FieldError>)
    ensures errs == [] <==> Alphanumeric(req.username) && |req.password| >= 6
    ensures |errs| <= 2
  {
    TwoTagFailure("Username", Check("required", "", req.username != ""), Check("alphanum", "", Alphanumeric(req.username)))
    + TwoTagFailure("Password", Check("required", "", req.password != ""), Check("min", "6", |req.password| >= 6))
  }

  /** The reply to a binding failure: the per-field messages for validation
      errors, the plain error body otherwise. */
  function BindFailureBody<T>(e: BindError): (body: Body<T>)
    ensures e.Invalid? ==> body == FieldMessages(MessageMap(e.errors)) && body.messages.Keys == Fields(e.errors)
    ensures e.Malformed? ==> body == ErrorJson(BindFailure(Malformed))
  {
    match e
    case Invalid(errs) => MessageMapKeys(errs); FieldMessages(MessageMap(errs))
    case Malformed => ErrorJson(BindFailure(Malformed))
  }

  /** newUserResponse: the user without its password hash. Nothing else is
      lost: the response and the hash together give back the user. */
  function NewUserResponse(u: User): (r: UserResponse)
    ensures User(r.username, u.hashedPassword, r.fullName, r.email, r.passwordChangedAt, r.createdAt) == u
  {
    UserResponse(u.username, u.fullName, u.email, u.passwordChangedAt, u.createdAt)
  }

  /** The password hash has no influence on the response: a different hash
      gives the same response. */
  lemma NewUserResponseDropsOnlyTheHash(u: User, otherHash: string)
    ensures NewUserResponse(u.(hashedPassword := otherHash)) == NewUserResponse(u)
  {
  }

  /** The row to insert: the request's fields with the hash in place of the password. */
  function NewUserParams(req: CreateUserRequest, hashed: string): CreateUserParams
  {
    CreateUserParams(req.username, hashed, req.fullName, req.email)
  }

  /** createUser. `hash` is the password hashing function, None when it fails. */
  function CreateUser(store: Store, hash: string -> Option<string>, isEmail: string -> bool, body: Decoded<CreateUserRequest>)
    : (r: Response<UserResponse>)
    ensures |r.writes| == 1
    ensures var bound := Bind(body, req => ValidateCreateUserRequest(req, isEmail));
      && (bound.BindFailed? <==> r.calls == [])
      && (bound.BindFailed? ==> r.Status() == StatusBadRequest && r.writes[0].body == BindFailureBody(bound.error))
      && (bound.Bound? ==>
            var req := body.value;
            var hashed := hash(req.password);
            && r.calls[0] == HashPassword(req.password)
            // a failed hash stops before the store
            && (hashed.None? ==> r.calls == [HashPassword(req.password)] && r.Status() == StatusInternalServerError)
            && (hashed.Some? ==>
                  var arg := CreateUserParams(req.username, hashed.value, req.fullName, req.email);
                  var created := store.createUser(arg);
                  && r.calls == [HashPassword(req.password), DbCreateUser(arg)]
                  && (created.Ok? <==> r.Status() == StatusCreated)
                  && (created.Ok? ==> r.writes[0].body == Json(NewUserResponse(created.value)))
                  && (created == Err(Pq("unique_violation")) <==> r.Status() == StatusConflict)
                  && ((created.Err? && created.error != Pq("unique_violation")) <==> r.Status() == StatusInternalServerError)))
    // the store only ever sees the hash of the request's password
    ensures forall arg :: DbCreateUser(arg) in r.calls ==>
              body.Decoded? && hash(body.value.password) == Some(arg.hashedPassword)
  {
    match Bind(body, req => ValidateCreateUserRequest(req, isEmail))
    case BindFailed(e) => Reply(StatusBadRequest, BindFailureBody(e), [])
    case Bound(req) =>
      var hashing := [HashPassword(req.password)];
      match hash(req.password)
      case None => Reply(StatusInternalServerError, ErrorJson(HashFailure), hashing)
      case Some(hashed) =>
        var arg := NewUserParams(req, hashed);
        var calls := hashing + [DbCreateUser(arg)];
        match store.createUser(arg)
        case Err(e) =>
          if e == Pq("unique_violation") then Reply(StatusConflict, ErrorJson(StoreFailure(e)), calls)
          else Reply(StatusInternalServerError, ErrorJson(StoreFailure(e)), calls)
        case Ok(user) => Reply(StatusCreated, Json(NewUserResponse(user)), calls)
  }

  /** The user exists and the password matches its stored hash. */
  ghost predicate PasswordAccepted(store: Store, checkPassword: (string, string) -> bool, req: LoginUserRequest)
  {
    store.getUser(req.username).Ok? && checkPassword(req.password, store.getUser(req.username).value.hashedPassword)
  }

  /** loginUser. `checkPassword(plain, hashed)` is the bcrypt comparison,
      `createToken(username)` the token maker (None when it fails). */
  function LoginUser(store: Store, checkPassword: (string, string) -> bool, createToken: string -> Option<string>,
                     body: Decoded<LoginUserRequest>)
    : (r: Response<LoginUserResponse>)
    ensures |r.writes| == 1
    ensures var bound := Bind(body, ValidateLoginUserRequest);
      && (bound.BindFailed? <==> r.calls == [])
      && (bound.BindFailed? ==> r.Status() == StatusBadRequest && r.writes[0].body == BindFailureBody(bound.error))
      && (bound.Bound? ==>
            var req := body.value;
            var found := store.getUser(req.username);
            && r.calls[0] == DbGetUser(req.username)
            && (found == Err(NoRows) ==> r.Status() == StatusNotFound && r.calls == [DbGetUser(req.username)])
            && (found.Err? && found.error != NoRows ==>
                  r.Status() == StatusInternalServerError && r.calls == [DbGetUser(req.username)])
            // a rejected password: 401 and no token
            && (found.Ok? && !checkPassword(req.password, found.value.hashedPassword) ==>
                  r.Status() == StatusUnauthorized
                  && r.calls == [DbGetUser(req.username), CheckPasswordHash(req.password, found.value.hashedPassword)])
            // the token is made exactly when the password was accepted, and for the requested name
            && (MakeToken(req.username) in r.calls <==> PasswordAccepted(store, checkPassword, req))
            // an accepted password: lookup, check, then the token, and nothing else
            && (PasswordAccepted(store, checkPassword, req) ==>
                  r.calls == [DbGetUser(req.username), CheckPasswordHash(req.password, found.value.hashedPassword),
                              MakeToken(req.username)])
            && (PasswordAccepted(store, checkPassword, req) ==>
                  var token := createToken(req.username);
                  && (token.None? ==> r.Status() == StatusInternalServerError)
                  && (token.Some? ==>
                        && r.Status() == StatusOK
                        && r.writes[0].body == Json(LoginUserResponse(token.value, NewUserResponse(found.value))))))
    ensures forall u :: MakeToken(u) in r.calls ==> body.Decoded? && u == body.value.username
    ensures r.Status() == StatusOK ==> body.Decoded? && PasswordAccepted(store, checkPassword, body.value)
  {
    match Bind(body, ValidateLoginUserRequest)
    case BindFailed(e) => Reply(StatusBadRequest, BindFailureBody(e), [])
    case Bound(req) =>
      var lookup := [DbGetUser(req.username)];
      match store.getUser(req.username)
      case Err(e) =>
        if e == NoRows then Reply(StatusNotFound, ErrorJson(StoreFailure(e)), lookup)
        else Reply(StatusInternalServerError, ErrorJson(StoreFailure(e)), lookup)
      case Ok(user) =>
        var checked := lookup + [CheckPasswordHash(req.password, user.hashedPassword)];
        if !checkPassword(req.password, user.hashedPassword) then
          Reply(StatusUnauthorized, ErrorJson(PasswordMismatch), checked)
        else
          var calls := checked + [MakeToken(req.username)];
          match createToken(req.username)
          case None => Reply(StatusInternalServerError, ErrorJson(TokenFailure), calls)
          case Some(accessToken) =>
            Reply(StatusOK, Json(LoginUserResponse(accessToken, NewUserResponse(user))), calls)
  }
}
