/** api/transfer.go: admitting a funds transfer. The handler checks the
    request, both accounts and the caller's ownership, and only then hands the
    request's IDs and amount to the store's transfer transaction. */
module ApiTransfer {
  import opened Db
  import opened Util
  import opened ApiCommon

  datatype TransferRequest = TransferRequest(fromAccountId: Int64, toAccountId: Int64, amount: Int64, currency: string)

  /** The struct tags of transferRequest: both IDs `required,min=1`, amount
      `required,gt=0`, currency `required,currency`. */
  function ValidateTransferRequest(req: TransferRequest, isCurrency: string -> bool): (errs: seq<FieldError>)
    ensures errs == [] <==>
      req.fromAccountId >= 1 && req.toAccountId >= 1 && req.amount > 0 &&
      req.currency != "" && isCurrency(req.currency)
    ensures |errs| <= 4
    ensures forall e :: e in errs ==> e.field in {"FromAccountID", "ToAccountID", "Amount", "Currency"}
  {
    var from := TwoTagFailure("FromAccountID", Check("required", "", req.fromAccountId != 0), Check("min", "1", req.fromAccountId >= 1));
    var to := TwoTagFailure("ToAccountID", Check("required", "", req.toAccountId != 0), Check("min", "1", req.toAccountId >= 1));
    var amount := TwoTagFailure("Amount", Check("required", "", req.amount != 0), Check("gt", "0", req.amount > 0));
    var currency := TwoTagFailure("Currency", Check("required", "", req.currency != ""), Check("currency", "", isCurrency(req.currency)));
    from + to + amount + currency
  }

  /** The request passes the binding step. */
  predicate RequestValid(body: Decoded<TransferRequest>, isCurrency: string -> bool)
  {
    body.Decoded? && ValidateTransferRequest(body.value, isCurrency) == []
  }

  function InvalidCurrencyMessage(requested: string, actual: string): string
  {
    "invalid currency " + requested + ", account currency " + actual
  }

  const NotOwnerMessage := "you are not the owner of this account"

  datatype AccountCheck = Valid(account: Account) | Rejected(status: int, failure: Failure)

  /** The account exists and is held in the requested currency. */
  predicate AccountMatches(store: Store, id: Int64, currency: string)
  {
    store.getAccount(id).Ok? && store.getAccount(id).value.currency == currency
  }

  /** validAccount: look the account up and compare its currency. */
  function ValidAccount(store: Store, id: Int64, currency: string): (r: AccountCheck)
    ensures r.Valid? <==> AccountMatches(store, id, currency)
    ensures r.Valid? ==> r.account == store.getAccount(id).value
    ensures r == Rejected(StatusNotFound, StoreFailure(NoRows)) <==> store.getAccount(id) == Err(NoRows)
    ensures r.Rejected? && r.status == StatusInternalServerError <==>
              store.getAccount(id).Err? && store.getAccount(id).error != NoRows
    ensures r.Rejected? && r.status == StatusBadRequest <==>
              store.getAccount(id).Ok? && store.getAccount(id).value.currency != currency
    ensures r.Rejected? && r.status == StatusBadRequest ==>
              r.failure == Message(InvalidCurrencyMessage(currency, store.getAccount(id).value.currency))
  {
    match store.getAccount(id)
    case Err(e) =>
      if e == NoRows then Rejected(StatusNotFound, StoreFailure(e))
      else Rejected(StatusInternalServerError, StoreFailure(e))
    case Ok(account) =>
      if account.currency != currency then
        Rejected(StatusBadRequest, Message(InvalidCurrencyMessage(currency, account.currency)))
      else Valid(account)
  }

  /** The arguments of the transfer transaction, copied from the request. */
  function ParamsOf(req: TransferRequest): TransferTxParams
  {
    TransferTxParams(req.fromAccountId, req.toAccountId, req.amount)
  }

  /** The longest trace the handler can produce for a request. */
  function FullTrace(req: TransferRequest): seq<Call>
  {
    [DbGetAccount(req.fromAccountId), DbGetAccount(req.toAccountId), DbTransferTx(ParamsOf(req))]
  }

  /** Everything that must hold before the transfer transaction is run. */
  ghost predicate Admissible(store: Store, isCurrency: string -> bool, authUser: string, body: Decoded<TransferRequest>)
  {
    && RequestValid(body, isCurrency)
    && AccountMatches(store, body.value.fromAccountId, body.value.currency)
    && store.getAccount(body.value.fromAccountId).value.owner == authUser
    && AccountMatches(store, body.value.toAccountId, body.value.currency)
  }

  /** createTransfer, for the authenticated user `authUser`. */
  function CreateTransfer(store: Store, isCurrency: string -> bool, authUser: string, body: Decoded<TransferRequest>)
    : (r: Response<TransferTxResult>)
    ensures |r.writes| == 1
    // the calls are always a prefix of from-lookup, to-lookup, transfer
    ensures r.calls <= FullTrace(body.Payload())
    // a request failing binding is answered 400 without touching the store
    ensures !RequestValid(body, isCurrency) <==> r.calls == []
    ensures !RequestValid(body, isCurrency) ==> r.Status() == StatusBadRequest
    // an unusable from-account stops after one lookup, with validAccount's status
    ensures RequestValid(body, isCurrency) ==>
      var from := ValidAccount(store, body.value.fromAccountId, body.value.currency);
      from.Rejected? ==>
        && r.calls == [DbGetAccount(body.value.fromAccountId)]
        && r.Status() == from.status
        && r.writes[0].body == ErrorJson(from.failure)
    // someone else's from-account: 401, the to-account is never read
    ensures RequestValid(body, isCurrency) && AccountMatches(store, body.value.fromAccountId, body.value.currency) &&
            store.getAccount(body.value.fromAccountId).value.owner != authUser ==>
              r.Status() == StatusUnauthorized && r.calls == [DbGetAccount(body.value.fromAccountId)]
    // the caller owns the from-account but the to-account is unusable: both
    // lookups, then validAccount's status and error for the to-account
    ensures RequestValid(body, isCurrency) && AccountMatches(store, body.value.fromAccountId, body.value.currency) &&
            store.getAccount(body.value.fromAccountId).value.owner == authUser ==>
      var to := ValidAccount(store, body.value.toAccountId, body.value.currency);
      to.Rejected? ==>
        && r.calls == [DbGetAccount(body.value.fromAccountId), DbGetAccount(body.value.toAccountId)]
        && r.Status() == to.status
        && r.writes[0].body == ErrorJson(to.failure)
    // the transaction runs exactly when every check passed
    ensures |r.calls| == 3 <==> Admissible(store, isCurrency, authUser, body)
    ensures Admissible(store, isCurrency, authUser, body) ==>
      var tx := store.transferTx(ParamsOf(body.value));
      && (tx.Ok? ==> r.Status() == StatusCreated && r.writes[0].body == Json(tx.value))
      && (tx.Err? ==> r.Status() == StatusInternalServerError && r.writes[0].body == ErrorJson(StoreFailure(tx.error)))
    ensures r.Status() == StatusCreated ==> Admissible(store, isCurrency, authUser, body)
  {
    match Bind(body, req => ValidateTransferRequest(req, isCurrency))
    case BindFailed(e) => Reply(StatusBadRequest, ErrorJson(BindFailure(e)), [])
    case Bound(req) =>
      var fromLookup := [DbGetAccount(req.fromAccountId)];
      var from := ValidAccount(store, req.fromAccountId, req.currency);
      if from.Rejected? then Reply(from.status, ErrorJson(from.failure), fromLookup)
      else if authUser != from.account.owner then
        Reply(StatusUnauthorized, ErrorJson(Message(NotOwnerMessage)), fromLookup)
      else
        var bothLookups := fromLookup + [DbGetAccount(req.toAccountId)];
        var to := ValidAccount(store, req.toAccountId, req.currency);
        if to.Rejected? then Reply(to.status, ErrorJson(to.failure), bothLookups)
        else
          var arg := TransferTxParams(req.fromAccountId, req.toAccountId, req.amount);
          var calls := bothLookups + [DbTransferTx(arg)];
          match store.transferTx(arg)
          case Err(e) => Reply(StatusInternalServerError, ErrorJson(StoreFailure(e)), calls)
          case Ok(result) => Reply(StatusCreated, Json(result), calls)
  }

  /** The transaction is run only after every check passed and both lookups
      were made, and only with the request's own IDs and amount. */
  lemma TransferTxCallIsTheRequest(store: Store, isCurrency: string -> bool, authUser: string,
                                   body: Decoded<TransferRequest>, arg: TransferTxParams)
    requires DbTransferTx(arg) in CreateTransfer(store, isCurrency, authUser, body).calls
    ensures Admissible(store, isCurrency, authUser, body)
    ensures arg == TransferTxParams(body.value.fromAccountId, body.value.toAccountId, body.value.amount)
    ensures CreateTransfer(store, isCurrency, authUser, body).calls[..2] ==
              [DbGetAccount(body.value.fromAccountId), DbGetAccount(body.value.toAccountId)]
  {
    var r := CreateTransfer(store, isCurrency, authUser, body);
    assert r.calls[2] == DbTransferTx(arg);
  }

  /** The handler has no check that the two accounts differ: an admissible
      request naming one account twice reaches the transaction. */
  lemma SelfTransferIsForwarded(store: Store, isCurrency: string -> bool, authUser: string, req: TransferRequest)
    requires req.fromAccountId == req.toAccountId
    requires Admissible(store, isCurrency, authUser, Decoded(req))
    ensures DbTransferTx(TransferTxParams(req.fromAccountId, req.fromAccountId, req.amount))
              in CreateTransfer(store, isCurrency, authUser, Decoded(req)).calls
  {
    assert CreateTransfer(store, isCurrency, authUser, Decoded(req)).calls[2]
             == DbTransferTx(TransferTxParams(req.fromAccountId, req.fromAccountId, req.amount));
  }
}
