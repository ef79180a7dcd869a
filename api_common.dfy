/** What the handlers of package api share: the request binding step, the
    response a handler writes, and the trace of calls it makes into the store
    and the other collaborators (password hashing, token maker). */
module ApiCommon {
  import opened Db
  import opened Util

  const StatusOK := 200
  const StatusCreated := 201
  const StatusBadRequest := 400
  const StatusUnauthorized := 401
  const StatusNotFound := 404
  const StatusConflict := 409
  const StatusInternalServerError := 500

  datatype Option<T> = None | Some(value: T)

  /** What the binding library made of the request before validation: a
      decoded struct (absent fields hold Go's zero values, absent query
      parameters their declared defaults), or a decoding failure that leaves
      behind whatever the library had filled in so far. */
  datatype Decoded<T> = Decoded(value: T) | Undecodable(partial: T) {
    /** The struct the handler holds after the binding call, whether or not it failed. */
    function Payload(): T {
      if Decoded? then value else partial
    }
  }

  datatype BindError = Malformed | Invalid(errors: seq<FieldError>)

  datatype Bound<T> = Bound(request: T) | BindFailed(error: BindError)

  /** One tag of a field's `binding:"…"` list and whether the field's value satisfies it. */
  datatype Check = Check(tag: string, param: string, ok: bool)

  /** The validator tries a field's tags in order and reports the first one
      that fails, if any. */
  function FirstFailure(field: string, checks: seq<Check>): (errs: seq<FieldError>)
    ensures |errs| <= 1
    ensures forall e :: e in errs ==> e.field == field
    ensures errs == [] <==> forall i :: 0 <= i < |checks| ==> checks[i].ok
    ensures errs != [] ==>
              exists i :: (0 <= i < |checks| && !checks[i].ok &&
                           (forall j :: 0 <= j < i ==> checks[j].ok) &&
                           errs[0] == FieldError(field, checks[i].tag, checks[i].param))
  {
    if checks == [] then []
    else if !checks[0].ok then [FieldError(field, checks[0].tag, checks[0].param)]
    else
      var rest := FirstFailure(field, checks[1..]);
      assert forall i :: 1 <= i < |checks| ==> checks[i] == checks[1..][i - 1];
      rest
  }

  /** The checks of a field whose tag list has exactly two tags. */
  function TwoTagFailure(field: string, first: Check, second: Check): (errs: seq<FieldError>)
    ensures |errs| <= 1
    ensures forall e :: e in errs ==> e.field == field
    ensures errs == [] <==> first.ok && second.ok
    ensures !first.ok ==> errs == [FieldError(field, first.tag, first.param)]
    ensures first.ok && !second.ok ==> errs == [FieldError(field, second.tag, second.param)]
  {
    var checks := [first, second];
    assert checks[0] == first && checks[1] == second;
    FirstFailure(field, checks)
  }

  /** ShouldBind: a decoding failure, else the validation errors, else the request. */
  function Bind<T>(body: Decoded<T>, validate: T -> seq<FieldError>): (r: Bound<T>)
    ensures r.Bound? <==> body.Decoded? && validate(body.value) == []
    ensures r.Bound? ==> r.request == body.value
    ensures body.Undecodable? ==> r == BindFailed(Malformed)
    ensures body.Decoded? && validate(body.value) != [] ==> r == BindFailed(Invalid(validate(body.value)))
  {
    match body
    case Undecodable(_) => BindFailed(Malformed)
    case Decoded(req) =>
      var errs := validate(req);
      if errs == [] then Bound(req) else BindFailed(Invalid(errs))
  }

  /** The error text a handler puts in an `{"error": …}` body, as a kind. */
  datatype Failure =
    | BindFailure(bindError: BindError)
    | StoreFailure(dbError: DbError)
    | Message(text: string)
    | HashFailure
    | PasswordMismatch
    | TokenFailure

  datatype Body<T> = Json(value: T) | ErrorJson(failure: Failure) | FieldMessages(messages: map<string, string>)

  /** One `c.JSON(status, body)`. */
  datatype Write<T> = Write(status: int, body: Body<T>)

  /** A call the handler makes to a collaborator. */
  datatype Call =
    | DbGetAccount(id: Int64)
    | DbTransferTx(arg: TransferTxParams)
    | DbCreateAccount(createArg: CreateAccountParams)
    | DbListAccounts(listArg: ListAccountsParams)
    | DbCreateUser(userArg: CreateUserParams)
    | DbGetUser(username: string)
    | HashPassword(password: string)
    | CheckPasswordHash(plain: string, hashed: string)
    | MakeToken(tokenUser: string)

  /** Everything a handler does: the writes in order and the calls in order. */
  datatype Response<T> = Response(writes: seq<Write<T>>, calls: seq<Call>) {
    /** Once a body has been written the framework keeps that status and
        ignores later ones, so the client sees the first write's status. */
    function Status(): int
      requires writes != []
    {
      writes[0].status
    }
  }

  function Reply<T>(status: int, body: Body<T>, calls: seq<Call>): Response<T>
  {
    Response([Write(status, body)], calls)
  }
}
