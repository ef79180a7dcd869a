# simple_bank: the request handlers around the transfer transaction

This project models the HTTP handler layer of the simple_bank backend: the
code that validates a request, consults the store, checks ownership and
currency, decides the response status, and — for a transfer — forwards the
request's IDs and amount to the store's transfer transaction. It also models
the utility that turns validation errors into per-field messages.

Each handler is a pure function from

- the store, given as one oracle per query (`Db.Store`: `getAccount`,
  `transferTx`, `createAccount`, `listAccounts`, `createUser`, `getUser`),
  each returning a row or a `DbError` (`NoRows`, a PostgreSQL error by
  condition name `Pq(code)`, or `Driver` for anything else);
- the authenticated username, which the authentication middleware stores in
  the request context;
- the outside collaborators it calls: the `currency` and `email` validators
  (predicates), the password hash (`string -> Option<string>`), the password
  check and the token maker;
- what the binding library made of the request (`ApiCommon.Decoded`);

to a `Response`: the writes (`c.JSON(status, body)`) in order and the calls
made to the store and to the collaborators, in order. The status the client
sees is that of the first write: once a body has been written, the web
framework ignores later status codes.

Binding follows the struct tags. The validator tries each field's tags in
order and reports the first one that fails (`ApiCommon.FirstFailure`);
fields are checked in struct order. `required` on an integer means non-zero
and on a string non-empty; `min`/`max` on an integer bound its value and on a
string its length; `alphanum` means one or more ASCII letters or digits.

Modules: `Db` (row types, call parameters, the store interface; Go's `int64`
and `int32` as subset types), `Util` (util/validator_error.go), `ApiCommon`
(binding, responses, call traces), `ApiTransfer` (api/transfer.go),
`ApiAccount` (api/account.go), `ApiUser` (api/user.go).

`Util.ValidatorError` is a method with a loop, as in the source; the
function `Util.MessageMap` (the fold over the first n errors, `MessageMapUpTo`, taken over the whole list) specifies it, and the handlers, being functions,
use `MessageMap`.

## Model

| member | source | states |
|---|---|---|
| `Util.ValidatorError` | util/validator_error.go:7-28 | the loop builds exactly `MessageMap(errs)`: keys are the fields named in the list, at most one per error, an empty list gives an empty map, and each field's message is that of the last error naming it |
| `Util.TagMessage` | util/validator_error.go:12-23 | the message for a failed tag: "is required", "must be alphanumeric" and "must be a valid email" for those tags, "invalid value" exactly for a tag other than required, alphanum, min and email; for `min` the text "must be at least " followed by the tag's parameter and " characters" |
| `Util.MessageMapKeys` | util/validator_error.go:10-24 | the key set of the folded map is the set of fields of the errors |
| `Util.MessageMapLastWins` | util/validator_error.go:10-24 | when several errors share a field, the last one in list order sets its message, `field + " " + TagMessage(tag, param)` |
| `Util.MessageMapValuesFromList` | util/validator_error.go:12-24 | every value is the message of some listed error naming that key |
| `Util.MessageMapSize` | util/validator_error.go:10-24 | the map has no more entries than the list has errors |
| `ApiCommon.FirstFailure` | api/transfer.go:14-19 | a field yields at most one error, none exactly when all its tags pass, otherwise the first failing tag with its parameter |
| `ApiCommon.TwoTagFailure` | api/transfer.go:15-18 | for a two-tag field: the first tag's error when it fails, the second's when only it fails, none when both pass |
| `ApiCommon.Bind` | api/transfer.go:23-26 | binding succeeds exactly when the body decodes and validation finds no error, and then yields the decoded request unchanged |
| `ApiTransfer.ValidateTransferRequest` | api/transfer.go:14-19 | no error exactly when both IDs are at least 1, the amount is positive and the currency is non-empty and supported |
| `ApiTransfer.ValidAccount` | api/transfer.go:60-76 | a missing account gives 404, any other lookup error 500, a currency mismatch 400 with the "invalid currency …, account currency …" message; otherwise the looked-up account is valid, and only then |
| `ApiTransfer.CreateTransfer` | api/transfer.go:21-58 | one write; the calls are always a prefix of [lookup from, lookup to, TransferTx(from, to, amount)]; a request failing binding gets 400 with no store call; a rejected from-account stops after one lookup with validAccount's status and error; someone else's from-account gives 401 without reading the to-account; a rejected to-account gives validAccount's status and error after both lookups; the transaction runs exactly when every check passed; its error gives 500, its result 201 with the result unchanged |
| `ApiTransfer.TransferTxCallIsTheRequest` | api/transfer.go:45-51 | a TransferTx call in the trace implies every check passed, comes after both lookups and carries exactly the request's IDs and amount |
| `ApiTransfer.SelfTransferIsForwarded` | api/transfer.go:28-51 | there is no from ≠ to check: an admissible request naming one account twice reaches the transaction |
| `ApiAccount.Wrap32` | api/account.go:94 | int32 arithmetic: the result is congruent to the exact value modulo 2^32 and equals it when it is in range |
| `ApiAccount.PageOffset` | api/account.go:94 | offset is (PageID − 1) · PageSize whenever PageID ≥ 1, PageSize ≥ 0 and the product fits in int32 |
| `ApiAccount.PageOffsetIsPageStart` | api/account.go:84-94 | for a page size in [1, 10], a page ID ≥ 1 and no overflow, the offset is the non-negative multiple (PageID − 1) · PageSize and each page starts one page size after the previous one |
| `ApiAccount.PageOffsetWrapsForLastPage` | api/account.go:85-94 | page ID 2147483647 with page size 10 passes binding, yet the int32 product wraps to offset −20 and the handler's list query receives limit 10 and offset −20 |
| `ApiAccount.ValidateCreateAccountRequest` | api/account.go:14-16 | no error exactly when the currency is non-empty and supported |
| `ApiAccount.CreateAccountErrorStatus` | api/account.go:33-46 | foreign_key_violation gives 400, unique_violation 409, every other error 500, each in both directions |
| `ApiAccount.CreateAccount` | api/account.go:18-50 | binding failure: 400 and no store call; otherwise exactly one insert with owner = the authenticated user, balance 0 and the request's currency; 201 with the row exactly on success, 400 / 409 / 500 exactly for foreign-key, unique and other errors |
| `ApiAccount.ValidateGetAccountRequest` | api/account.go:52-54 | no error exactly when the ID is at least 1 |
| `ApiAccount.GetAccount` | api/account.go:56-81 | an unparsable or non-positive ID gives 400 with no lookup; otherwise one lookup; 404 exactly for a missing row, 500 exactly for other errors, 401 exactly for someone else's account, 200 with the account exactly for the caller's own; an account body always belongs to the caller |
| `ApiAccount.ValidateGetAccountsRequest` | api/account.go:83-86 | no error exactly when the page size is in [1, 10] and the page ID at least 1 |
| `ApiAccount.GetAccounts` | api/account.go:88-110 | always exactly one list query, filtered by the authenticated owner, with limit = PageSize and offset = PageOffset; a binding failure writes 400 first and still lists, so two bodies are written; a list error's write is 500, a success's 200 with the rows; a request that bound asks for 1 to 10 rows from (PageID − 1) · PageSize when that fits |
| `ApiAccount.GetAccountsBindFailureStillLists` | api/account.go:90-103 | page size 20 fails binding, yet the handler answers 400, writes twice and runs the list query with limit 20 |
| `ApiAccount.GetAccountsReturning` | api/account.go:88-110 | with a return after the 400 reply: one write, no query on a binding failure, and every query made has the caller as owner and a limit in [1, 10] |
| `ApiUser.ValidateCreateUserRequest` | api/user.go:16-21 | no error exactly when the username is alphanumeric, the password has at least 6 characters, the full name is non-empty and the email is non-empty and valid |
| `ApiUser.ValidateLoginUserRequest` | api/user.go:86-89 | no error exactly when the username is alphanumeric and the password has at least 6 characters |
| `ApiUser.BindFailureBody` | api/user.go:43-51 | validation errors are answered with the per-field message map, whose keys are the failing fields; other binding errors with the plain error body |
| `ApiUser.NewUserResponse` | api/user.go:31-39 | the response copies username, full name, email and both timestamps from the user: with the user's hash it gives back the user |
| `ApiUser.NewUserResponseDropsOnlyTheHash` | api/user.go:31-39 | the password hash has no influence on the response: changing it leaves the response unchanged |
| `ApiUser.CreateUser` | api/user.go:41-84 | binding failure: 400 with the field map or the error, no call; then the password is hashed; a hash failure gives 500 with no store call; the store receives the request's username, full name and email with the hash of the password, never anything else; 409 exactly for unique_violation, 500 for other errors, 201 with the projected user on success |
| `ApiUser.LoginUser` | api/user.go:96-137 | binding failure: 400 and no call; an unknown user gives 404 and another lookup error 500, with nothing after the lookup; a failed password check gives 401 with no token; a token is made exactly when the password was accepted, and only for the requested username; an accepted password gives exactly the trace lookup, password check, token; 200 carries that token and the projected user |

## Left out

- The transfer transaction itself (the transfer row, the two entries, the balance updates and their lock order) is store code that is not part of this model; `transferTx` is an oracle, and no conservation, double-entry or deadlock property is stated.
- The binding library is not modelled: JSON, URI and query decoding, the application of form defaults (`page_size` 10, `page_id` 1) and what a decoding failure leaves in the struct are inputs (`Decoded`). Validation tags are modelled from the struct tags.
- The `currency` validator, the `email` validator, password hashing, the password check and the token maker (with its configured duration) are external functions and appear as parameters.
- Response bodies are a status and a small error kind; the text of `errorResponse` bodies and JSON encoding are not modelled, except the two fixed messages and the "invalid currency" message built in the handlers.
- `ApiUser.Alphanumeric` (the `alphanum` tag) tests each Unicode code point for an ASCII letter or digit, and the `min` tag on strings counts code points; byte strings that are not valid UTF-8 are not modelled.
- The authentication middleware, the router and the server set-up (main.go) are not part of this model; the authenticated username is a parameter.
- `ApiAccount.GetAccounts`: its offset clause holds only when (PageID − 1) · PageSize fits in int32. `ApiAccount.PageOffsetWrapsForLastPage` records the int32 edge that clause excludes: page ID 2147483647 passes binding, the offset wraps to −20, and that negative offset reaches the list query. This is Go's int32 arithmetic at api/account.go:94, modelled as written; no corrected handler is stated.
- The database tests, util/random.go and main.go are not modelled: they are integration tests against a live database, random test data and process start-up.

## Findings

| source | as written | input that shows it | evidently intended | confidence | as-written member | corrected member |
|---|---|---|---|---|---|---|
| api/account.go:90-92 | after a binding failure the handler writes 400 and, lacking a `return`, still runs the list query with the unvalidated values and writes a second body | `page_size=20`: the reply is 400 followed by the list result, and the store is queried with limit 20 | return after the 400 reply, as every other handler does | high, not executed | `ApiAccount.GetAccountsBindFailureStillLists` | `ApiAccount.GetAccountsReturning` |
