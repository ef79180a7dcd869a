/** api/account.go: creating, reading and listing the authenticated user's accounts. */
module ApiAccount {
  import opened Db
  import opened Util
  import opened ApiCommon

  // ---------------------------------------------------------------------
  // Go's int32 arithmetic

  /** The int32 value congruent to x modulo 2^32: what a Go int32 operation yields. */
  function Wrap32(x: int): (r: Int32)
    ensures MinInt32 <= x <= MaxInt32 ==> r == x
    ensures (x - r) % 0x1_0000_0000 == 0
  {
    var m := x % 0x1_0000_0000;
    if m <= MaxInt32 then m else m - 0x1_0000_0000
  }

  /** offset := (PageID - 1) * PageSize, both operations on int32. */
  function PageOffset(pageID: Int32, pageSize: Int32): (offset: Int32)
    ensures 1 <= pageID && 0 <= pageSize && (pageID - 1) * pageSize <= MaxInt32 ==>
              offset == (pageID - 1) * pageSize
  {
    Wrap32(Wrap32(pageID - 1) * pageSize)
  }

  /** A page size and page ID that satisfy the binding tags and whose product
      fits in int32 give the start of a page: the non-negative multiple
      (PageID - 1) * PageSize, one page after the previous page's start. */
  lemma PageOffsetIsPageStart(pageID: Int32, pageSize: Int32)
    requires 1 <= pageSize <= 10 && 1 <= pageID
    requires (pageID - 1) * pageSize <= MaxInt32
    ensures PageOffset(pageID, pageSize) >= 0
    ensures PageOffset(pageID, pageSize) == (pageID - 1) * pageSize
    ensures pageID > 1 ==> PageOffset(pageID, pageSize) == PageOffset(pageID - 1, pageSize) + pageSize
  {
    var k := pageID - 1;
    assert 0 <= k * pageSize;
    if pageID > 1 {
      assert (k - 1) * pageSize == k * pageSize - pageSize;
    }
  }

  /** The largest page ID passes binding, the offset wraps to a negative
      number, and that offset is what the list query receives. */
  lemma PageOffsetWrapsForLastPage(store: Store, authUser: string)
    ensures PageOffset(MaxInt32, 10) == -20
    ensures ValidateGetAccountsRequest(GetAccountsRequest(10, MaxInt32)) == []
    ensures GetAccounts(store, authUser, Decoded(GetAccountsRequest(10, MaxInt32))).calls
              == [DbListAccounts(ListAccountsParams(authUser, 10, -20))]
  {
  }

  // ---------------------------------------------------------------------
  // createAccount

  datatype CreateAccountRequest = CreateAccountRequest(currency: string)

  /** `binding:"required,currency"`. */
  function ValidateCreateAccountRequest(req: CreateAccountRequest, isCurrency: string -> bool): (errs: seq<FieldError>)
    ensures errs == [] <==> req.currency != "" && isCurrency(req.currency)
    ensures forall e :: e in errs ==> e.field == "Currency"
  {
    TwoTagFailure("Currency", Check("required", "", req.currency != ""), Check("currency", "", isCurrency(req.currency)))
  }

  /** The row the handler asks the store to insert: owned by the caller, empty, in the requested currency. */
  function NewAccountParams(authUser: string, req: CreateAccountRequest): CreateAccountParams
  {
    CreateAccountParams(authUser, 0, req.currency)
  }

  /** The status for a failed insert. */
  function CreateAccountErrorStatus(e: DbError): (status: int)
    ensures status == StatusBadRequest <==> e == Pq("foreign_key_violation")
    ensures status == StatusConflict <==> e == Pq("unique_violation")
    ensures status == StatusInternalServerError <==> e != Pq("foreign_key_violation") && e != Pq("unique_violation")
  {
    match e
    case Pq(code) =>
      if code == "foreign_key_violation" then StatusBadRequest
      else if code == "unique_violation" then StatusConflict
      else StatusInternalServerError
    case _ => StatusInternalServerError
  }

  /** createAccount, for the authenticated user `authUser`. */
  function CreateAccount(store: Store, isCurrency: string -> bool, authUser: string, body: Decoded<CreateAccountRequest>)
    : (r: Response<Account>)
    ensures |r.writes| == 1
    ensures var bound := Bind(body, req => ValidateCreateAccountRequest(req, isCurrency));
      && (bound.BindFailed? <==> r.calls == [])
      && (bound.BindFailed? ==> r.Status() == StatusBadRequest && r.writes[0].body == ErrorJson(BindFailure(bound.error)))
      && (bound.Bound? ==>
            var arg := CreateAccountParams(authUser, 0, body.value.currency);
            var created := store.createAccount(arg);
            && r.calls == [DbCreateAccount(arg)]
            && (created.Ok? <==> r.Status() == StatusCreated)
            && (created.Ok? ==> r.writes[0].body == Json(created.value))
            && (created == Err(Pq("foreign_key_violation")) <==> r.Status() == StatusBadRequest)
            && (created == Err(Pq("unique_violation")) <==> r.Status() == StatusConflict)
            && ((created.Err? && created.error != Pq("foreign_key_violation") && created.error != Pq("unique_violation"))
                  <==> r.Status() == StatusInternalServerError))
  {
    match Bind(body, req => ValidateCreateAccountRequest(req, isCurrency))
    case BindFailed(e) => Reply(StatusBadRequest, ErrorJson(BindFailure(e)), [])
    case Bound(req) =>
      var arg := NewAccountParams(authUser, req);
      var calls := [DbCreateAccount(arg)];
      match store.createAccount(arg)
      case Err(e) => Reply(CreateAccountErrorStatus(e), ErrorJson(StoreFailure(e)), calls)
      case Ok(account) => Reply(StatusCreated, Json(account), calls)
  }

  // ---------------------------------------------------------------------
  // getAccount

  datatype GetAccountRequest = GetAccountRequest(id: Int64)

  /** `uri:"id" binding:"required,min=1"`. */
  function ValidateGetAccountRequest(req: GetAccountRequest): (errs: seq<FieldError>)
    ensures errs == [] <==> req.id >= 1
    ensures forall e :: e in errs ==> e.field == "ID"
  {
    TwoTagFailure("ID", Check("required", "", req.id != 0), Check("min", "1", req.id >= 1))
  }

  const NotAccountOwnerMessage := "account does not belong to authenticated user"

  /** getAccount, for the authenticated user `authUser`. */
  function GetAccount(store: Store, authUser: string, uri: Decoded<GetAccountRequest>): (r: Response<Account>)
    ensures |r.writes| == 1
    // no lookup for an unparsable or non-positive ID
    ensures !(uri.Decoded? && uri.value.id >= 1) <==> r.calls == []
    ensures !(uri.Decoded? && uri.value.id >= 1) ==> r.Status() == StatusBadRequest
    ensures uri.Decoded? && uri.value.id >= 1 ==>
      var found := store.getAccount(uri.value.id);
      && r.calls == [DbGetAccount(uri.value.id)]
      && (found == Err(NoRows) <==> r.Status() == StatusNotFound)
      && (found.Err? && found.error != NoRows <==> r.Status() == StatusInternalServerError)
      && (found.Ok? && found.value.owner != authUser <==> r.Status() == StatusUnauthorized)
      && (found.Ok? && found.value.owner == authUser <==> r.Status() == StatusOK)
      && (r.Status() == StatusOK ==> r.writes[0].body == Json(found.value))
    // an account is only ever shown to its owner
    ensures forall a :: r.writes[0].body == Json(a) ==> a.owner == authUser
  {
    match Bind(uri, ValidateGetAccountRequest)
    case BindFailed(e) => Reply(StatusBadRequest, ErrorJson(BindFailure(e)), [])
    case Bound(req) =>
      var calls := [DbGetAccount(req.id)];
      match store.getAccount(req.id)
      case Err(e) =>
        if e == NoRows then Reply(StatusNotFound, ErrorJson(StoreFailure(e)), calls)
        else Reply(StatusInternalServerError, ErrorJson(StoreFailure(e)), calls)
      case Ok(account) =>
        if account.owner != authUser then
          Reply(StatusUnauthorized, ErrorJson(Message(NotAccountOwnerMessage)), calls)
        else Reply(StatusOK, Json(account), calls)
  }

  // ---------------------------------------------------------------------
  // getAccounts

  datatype GetAccountsRequest = GetAccountsRequest(pageSize: Int32, pageID: Int32)

  /** `page_size` `binding:"min=1,max=10"`, `page_id` `binding:"min=1"`. */
  function ValidateGetAccountsRequest(req: GetAccountsRequest): (errs: seq<FieldError>)
    ensures errs == [] <==> 1 <= req.pageSize <= 10 && req.pageID >= 1
  {
    TwoTagFailure("PageSize", Check("min", "1", req.pageSize >= 1), Check("max", "10", req.pageSize <= 10))
    + FirstFailure("PageID", [Check("min", "1", req.pageID >= 1)])
  }

  /** The list query for the caller's accounts on the requested page. */
  function ListParams(authUser: string, req: GetAccountsRequest): ListAccountsParams
  {
    ListAccountsParams(authUser, req.pageSize, PageOffset(req.pageID, req.pageSize))
  }

  /** The reply after the list query. */
  function ListReply(listed: Result<seq<Account>>): Write<seq<Account>>
  {
    match listed
    case Err(e) => Write(StatusInternalServerError, ErrorJson(StoreFailure(e)))
    case Ok(accounts) => Write(StatusOK, Json(accounts))
  }

  /** getAccounts as written: after a binding failure it writes 400 and, with
      no `return`, goes on to run the list query with whatever the struct
      holds and writes that reply too. */
  function GetAccounts(store: Store, authUser: string, query: Decoded<GetAccountsRequest>): (r: Response<seq<Account>>)
    // always exactly one list query, always filtered by the caller
    ensures r.calls == [DbListAccounts(ListAccountsParams(authUser, query.Payload().pageSize,
                                                          PageOffset(query.Payload().pageID, query.Payload().pageSize)))]
    ensures forall c :: c in r.calls ==> c.DbListAccounts? && c.listArg.owner == authUser
    ensures var bound := Bind(query, ValidateGetAccountsRequest);
      && (bound.Bound? ==> |r.writes| == 1)
      && (bound.BindFailed? ==> |r.writes| == 2 && r.writes[0] == Write(StatusBadRequest, ErrorJson(BindFailure(bound.error))))
    ensures var listed := store.listAccounts(r.calls[0].listArg);
      && (listed.Err? ==> r.writes[|r.writes| - 1] == Write(StatusInternalServerError, ErrorJson(StoreFailure(listed.error))))
      && (listed.Ok? ==> r.writes[|r.writes| - 1] == Write(StatusOK, Json(listed.value)))
    // a request that passed binding asks for at most 10 rows, from the page's start when the product fits
    ensures query.Decoded? && ValidateGetAccountsRequest(query.value) == [] ==>
              && 1 <= r.calls[0].listArg.limit <= 10
              && ((query.value.pageID - 1) * query.value.pageSize <= MaxInt32 ==>
                    r.calls[0].listArg.offset == (query.value.pageID - 1) * query.value.pageSize)
  {
    var bound := Bind(query, ValidateGetAccountsRequest);
    var early := if bound.BindFailed? then [Write(StatusBadRequest, ErrorJson(BindFailure(bound.error)))] else [];
    var req := query.Payload();
    var arg := ListParams(authUser, req);
    Response(early + [ListReply(store.listAccounts(arg))], [DbListAccounts(arg)])
  }

  /** getAccounts with the `return` it evidently lacks after the 400 reply. */
  function GetAccountsReturning(store: Store, authUser: string, query: Decoded<GetAccountsRequest>): (r: Response<seq<Account>>)
    ensures |r.writes| == 1
    ensures Bind(query, ValidateGetAccountsRequest).BindFailed? <==> r.calls == []
    ensures Bind(query, ValidateGetAccountsRequest).BindFailed? ==> r.Status() == StatusBadRequest
    // the only list query made is for the caller, with a page size in [1, 10] and the request's page offset
    ensures forall c :: c in r.calls ==>
              && c.DbListAccounts? && c.listArg.owner == authUser && 1 <= c.listArg.limit <= 10
              && c == DbListAccounts(ListParams(authUser, query.value))
  {
    match Bind(query, ValidateGetAccountsRequest)
    case BindFailed(e) => Reply(StatusBadRequest, ErrorJson(BindFailure(e)), [])
    case Bound(req) =>
      var arg := ListParams(authUser, req);
      Response([ListReply(store.listAccounts(arg))], [DbListAccounts(arg)])
  }

  /** A page size of 20 fails binding; as written, the handler still runs the
      list query with limit 20 and sends two bodies under the 400 status. */
  lemma GetAccountsBindFailureStillLists(store: Store, authUser: string)
    ensures var r := GetAccounts(store, authUser, Decoded(GetAccountsRequest(20, 1)));
      && r.Status() == StatusBadRequest
      && |r.writes| == 2
      && r.calls == [DbListAccounts(ListAccountsParams(authUser, 20, 0))]
  {
    assert PageOffset(1, 20) == 0;
  }
}
