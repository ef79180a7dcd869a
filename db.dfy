/** Row types, call parameters and the store interface of package db.
    The store's queries are generated code that this model does not contain:
    each query is an oracle, a total function from its arguments to a row or
    an error, so that the handlers above it can be stated precisely. */
module Db {

  const MinInt64: int := -0x8000_0000_0000_0000
  const MaxInt64: int := 0x7fff_ffff_ffff_ffff
  const MinInt32: int := -0x8000_0000
  const MaxInt32: int := 0x7fff_ffff

  /** Go's int64 and int32. */
  type Int64 = x: int | MinInt64 <= x <= MaxInt64
  type Int32 = x: int | MinInt32 <= x <= MaxInt32

  /** A timestamp; the handlers only copy it. */
  type Time = int

  datatype Account = Account(id: Int64, owner: string, balance: Int64, currency: string, createdAt: Time)

  datatype Entry = Entry(id: Int64, accountId: Int64, amount: Int64, createdAt: Time)

  datatype Transfer = Transfer(id: Int64, fromAccountId: Int64, toAccountId: Int64, amount: Int64, createdAt: Time)

  datatype TransferTxParams = TransferTxParams(fromAccountId: Int64, toAccountId: Int64, amount: Int64)

  datatype TransferTxResult = TransferTxResult(
    transfer: Transfer,
    fromAccount: Account,
    toAccount: Account,
    fromEntry: Entry,
    toEntry: Entry)

  datatype CreateAccountParams = CreateAccountParams(owner: string, balance: Int64, currency: string)

  datatype ListAccountsParams = ListAccountsParams(owner: string, limit: Int32, offset: Int32)

  datatype User = User(
    username: string,
    hashedPassword: string,
    fullName: string,
    email: string,
    passwordChangedAt: Time,
    createdAt: Time)

  datatype CreateUserParams = CreateUserParams(username: string, hashedPassword: string, fullName: string, email: string)

  /** What a query can fail with: no matching row (sql.ErrNoRows), a
      PostgreSQL error identified by its condition name (pq.Error), or any
      other driver or connection error. */
  datatype DbError = NoRows | Pq(code: string) | Driver

  datatype Result<T> = Ok(value: T) | Err(error: DbError)

  /** The store the server talks to, one oracle per query. TransferTx is the
      transfer transaction itself, whose body is not part of this model. */
  datatype Store = Store(
    getAccount: Int64 -> Result<Account>,
    transferTx: TransferTxParams -> Result<TransferTxResult>,
    createAccount: CreateAccountParams -> Result<Account>,
    listAccounts: ListAccountsParams -> Result<seq<Account>>,
    createUser: CreateUserParams -> Result<User>,
    getUser: string -> Result<User>)
}
