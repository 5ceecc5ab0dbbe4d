# Ledger service: request rules and entities

A Dafny model of a small Express/Knex ledger service. The service keeps two tables:

- `users`: id, name, email and password, all strings;
- `accounts`: id, balance, owner id and creation time.

It answers six requests: list and create users, list and create accounts, read an account's balance, and adjust it.

The model has five modules:

- `UserModel` (`user.dfy`): the `User` class, a mutable record with get/set pairs. `SetName` assigns `email` and leaves `name` as it was. That is what the source does, and the model keeps it.
- `AccountModel` (`account.dfy`): the `Account` class. Its `SetBalance` adds its argument to the balance instead of replacing it. `WithDelta` is the function that specifies this adjustment, and lemmas state how adjustments compose.
- `NewAccountModel` (`new_account.dfy`): the `NewAccount` class, the creation-time projection of an account. It has only `id` and `owner_id`, so balance and timestamp cannot be supplied through it.
- `Queries` (`queries.dfy`): the table rows and the pure parts of the handlers:
  - the lookup `where({ id })` (`FindById`, the first row with that id);
  - the name filter `LIKE '%q%'` (`NameLike`, taken as plain substring containment `Contains`);
  - the `GET /users` choice between filtered and unfiltered (`Listed`);
  - the update `update({ balance }).where({ id })` (`SetBalanceWhere`);
  - the row-to-entity `.map` (`Each`, `UserOf`, `AccountOf`).
- `Server` (`server.dfy`): class `Store`, whose fields `users` and `accounts` are the two tables as sequences in table order. It has one method per request handler. Each method returns the status code the handler sets and either the value it sends (`Sent`) or the kind of error it throws (`Thrown`). The store after the call is the handler's effect on the database.

Getters are `reads this` functions, so reading a field cannot change anything. Every setter's `modifies` clause names the single field it assigns. So `Account.create_at` is changed by no method after construction, and `User.SetName` can only touch `email`.

Each handler is one atomic step. The handlers that read (`GetUsers`, `GetAccounts`, `GetBalance`) have no `modifies` clause, so they cannot change the store. `PostUsers` may change only `users`, and `PostAccounts` and `PutBalance` only `accounts`. Each of these three leaves its table unchanged on every error path and keeps ids unique (`Valid`).

Field validation checks the type only: an empty string passes, as the code at src/index.ts:80-98 and 217-225 has it.

Request-body fields are modelled by their JavaScript type as far as `typeof` separates them: `JsString`, `JsNumber` or `JsOther`. The query parameter `q` is an `Option<string>`. Two values come from the store's schema and clock, which are not part of this model: the starting balance of a new account (`Store.defaultBalance`, a constructor parameter) and its `created_at` (the `now` parameter of `PostAccounts`).

## Model

| member | source | states |
|---|---|---|
| `UserModel.User.constructor` | src/models/User.ts:2-7 | each getter returns the matching constructor argument, and the serialized object has exactly those four fields |
| `UserModel.User.SetId` | src/models/User.ts:12-14 | `GetId()` becomes the argument; name, email and password are unchanged |
| `UserModel.User.SetName` | src/models/User.ts:20-22 | as written, `GetEmail()` becomes the argument; name, id and password are unchanged |
| `UserModel.User.SetEmail` | src/models/User.ts:28-30 | only `email` changes, to the argument |
| `UserModel.User.SetPassword` | src/models/User.ts:36-38 | only `password` changes, to the argument |
| `AccountModel.Account.constructor` | src/models/Account.ts:2-7 | `GetId`, `GetBalance`, `GetOwner` and `GetCreate` return the constructor arguments |
| `AccountModel.Account.SetId` | src/models/Account.ts:13-15 | only `id` changes, to the argument |
| `AccountModel.Account.SetBalance` | src/models/Account.ts:21-23 | the new balance is the old balance plus the argument; id, owner and `create_at` are unchanged |
| `AccountModel.Account.SetOwner` | src/models/Account.ts:29-31 | only `owner_id` changes, to the argument |
| `AccountModel.SetBalanceTwice` | src/models/Account.ts:21-23 | `SetBalance(d1)` then `SetBalance(d2)` leaves the old balance plus `d1 + d2`, all else unchanged |
| `AccountModel.DeltasAdd` | src/models/Account.ts:21-23 | two additive adjustments compose into one by the sum of the amounts |
| `AccountModel.ZeroDeltaKeeps` | src/models/Account.ts:21-23 | an adjustment by 0 changes nothing |
| `AccountModel.DeltaKeepsIdentity` | src/models/Account.ts:21-23 | an adjustment keeps id, owner and `create_at` |
| `NewAccountModel.NewAccount.constructor` | src/models/NewAccount.ts:2 | `GetId()` and `GetOwnerId()` return the constructor arguments |
| `NewAccountModel.NewAccount.SetId` | src/models/NewAccount.ts:8-10 | `GetId()` becomes the argument; `owner_id` is unchanged |
| `NewAccountModel.NewAccount.SetOwnerId` | src/models/NewAccount.ts:16-18 | `GetOwnerId()` becomes the argument; `id` is unchanged |
| `Queries.HasIdAt` | src/index.ts:102-106 | "some row has this id" holds exactly when some position of the table carries it |
| `Queries.FindById` | src/index.ts:181-185 | the lookup finds nothing exactly when no row has the id; otherwise it finds a row of the table with that id, the first one when it is at the head |
| `Queries.UniqueLookup` | src/index.ts:181-185 | when ids are unique, looking up the id of any row finds exactly that row |
| `Queries.FindAfterAppend` | src/index.ts:120-121 | after inserting a row whose id was absent, re-reading that id returns exactly the inserted row |
| `Queries.AppendKeepsUnique` | src/index.ts:102-120 | inserting after the duplicate check keeps ids unique |
| `Queries.OccurrenceShift` | src/index.ts:44-48 | an occurrence of `q` in the tail of a name is an occurrence in the name one place later, and back |
| `Queries.Contains` | src/index.ts:44-48 | the name filter holds exactly when `q` occurs at some position of the name |
| `Queries.ContainsEmpty` | src/index.ts:43-48 | every name contains the empty string |
| `Queries.NameLike` | src/index.ts:44-48 | a row is in the filtered result exactly when it is in the table and its name contains `q`; each matching row occurs as often as in the table and a non-matching row not at all; the result is no longer than the table |
| `Queries.NameLikeAllMatch` | src/index.ts:44-49 | when every name matches, the filter returns the table itself, same rows in the same order |
| `Queries.Listed` | src/index.ts:39-53 | a user is listed exactly when it is in the table and `q` is absent or its name contains `q`; with a non-empty `q`, each matching user occurs as often as in the table; absent or empty `q` lists the whole table in order |
| `Queries.EveryNameContainsEmpty` | src/index.ts:43-53 | every user's name contains the empty string |
| `Queries.EmptyFilterKeepsAll` | src/index.ts:43-53 | filtering by the empty string gives back the whole table, same rows in the same order |
| `Queries.SetBalanceWhere` | src/index.ts:292-294 | the update keeps the number of rows and every row's id, owner and creation time; rows with the id get the new balance, others keep theirs |
| `Queries.FindAfterSetBalance` | src/index.ts:274-294 | after the update, looking the id up finds the same row as before with the new balance |
| `Queries.SetBalanceKeepsUnique` | src/index.ts:292-294 | the update keeps ids unique |
| `Queries.Each` | src/index.ts:55-58 | the row-to-entity map keeps count and order: element k of the result is the entity of row k |
| `Queries.UserOf` | src/index.ts:55-58 | the `User` entity of a row carries the row's id, name, email and password |
| `Queries.AccountOf` | src/index.ts:147-155 | the `Account` entity of a row carries its id, balance and owner, and `create_at` is the row's `created_at` |
| `Server.Store.GetUsers` | src/index.ts:37-60 | status 200, and the response is the entities of the listed rows, in table order; the store is unchanged |
| `Server.Store.PostUsers` | src/index.ts:76-123 | the first non-string field among id, name, email, password gives 400 with that field; an existing id gives 400; otherwise 201, exactly one row with the four fields is appended, and the response is that row; every error leaves the store unchanged; ids stay unique |
| `Server.Store.GetAccounts` | src/index.ts:139-159 | status 200, and the response is the entity of every account row, in table order, with `created_at` sent as `create_at` |
| `Server.Store.GetBalance` | src/index.ts:175-197 | an absent id gives 404; otherwise 200 with exactly the stored balance; the store is unchanged |
| `Server.Store.PostAccounts` | src/index.ts:213-248 | a non-string id, then a non-string owner, gives 400; an existing id gives 400; otherwise 201, and one row with the given id and owner, the default balance and the given time is appended and returned; the owner is never checked against `users`; every error leaves the store unchanged; ids stay unique |
| `Server.Store.PutBalance` | src/index.ts:264-296 | a non-number value gives 400 before any lookup; an absent id gives 404; otherwise 200 with the stored account, its balance plus `value` and the other fields as stored; the row's balance becomes that sum; errors leave the store unchanged; ids stay unique |
| `Server.PutTwice` | src/index.ts:264-296 | two PUTs of `d1` then `d2`: on an absent id both answer 404 and the accounts are unchanged; on an existing one both answer 200 and the account ends with its first balance plus `d1 + d2`, its other columns as stored |
| `Server.PutsAccumulate` | src/index.ts:274-294 | two PUTs of `d1` then `d2` on an existing account: the second reads the first balance plus `d1`, and the account ends with the first balance plus `d1 + d2` |
| `Server.BalanceColumnAsWritten` | src/index.ts:293 | as written, the balance column receives an Account object whose balance is the old balance plus `value`, with id, owner and `create_at` from the row |
| `Server.BalanceColumnIntended` | src/index.ts:290-294 | the balance column should receive the number old balance plus `value` |
| `Server.BalanceColumnAsWrittenIsNotTheBalance` | src/index.ts:290-294 | as written, the balance column is handed the Account object, which is never the number old balance plus `value` |
| `Server.Scenario` | src/index.ts:76-310 | creating a user and an account, then PUT 50 and PUT -20, makes GET balance answer 200 with the starting balance plus 30 |

## Findings

| source | as written | input that shows it | evidently intended | confidence | as-written member | corrected member |
|---|---|---|---|---|---|---|
| src/index.ts:292-294 | `update({ balance: account })` hands the column the whole `Account` object after `setBalance` | any PUT with a numeric `value` on an existing id | store the number `account.getBalance()`, the old balance plus `value` | high that the value is not the number; what the database driver makes of an object is not modelled; not executed | `Server.BalanceColumnAsWritten` | `Server.Store.PutBalance` |

`Server.BalanceColumnAsWrittenIsNotTheBalance` proves the discrepancy for every row and amount. `Server.Store.PutBalance` stores the intended number, `Server.BalanceColumnIntended`. `Server.PutsAccumulate` and `Server.Scenario` prove the additive behaviour for successive PUTs under that correction.

## Left out

- HTTP and framework plumbing: app setup, CORS, JSON body parsing, `listen` and `GET /ping` (src/index.ts:10-35). They make no decisions.
- The generic catch blocks: the logging and the 500 fallback. The fallback tests `req.statusCode`, whose value depends on Express internals, so only the status codes set before each `throw` are modelled.
- Error message texts: an error kind (`WrongType(field)`, `IdExists`, `IdNotFound`) stands for each Portuguese message.
- SQL execution: the tables are in-memory sequences. Two parts of the `LIKE` pattern depend on the database and are not modelled: its case sensitivity, and the wildcard meaning of `%` and `_` inside `q`. `Contains` is plain, case-sensitive substring containment.
- Row order: the tables keep insertion order, and queries return rows in table order. A real database without `ORDER BY` promises no order.
- The users table's columns: `./types` is not part of this model, so a user row is the four columns `POST /users` inserts.
- Concurrency: each handler is one atomic step, so the lost-update race between the read and the update in `PUT /accounts/:id/balance` is not modelled.
- Number semantics: balances and `value` are unbounded integers, not IEEE doubles. NaN, infinities and fractions are not modelled.
- `q` given as an array or object, through a repeated or nested query parameter, is not modelled. `q` is absent or one string.
- Storage-assigned values: the starting balance and `created_at` are parameters, because the schema and the clock are not part of this model.
- Queries.FindById: its contract says the row found is the first match only when that match is the head row. The handlers keep ids unique, and then there is only one match, as `Queries.UniqueLookup` states.
- Getters have no rows of their own. They are `reads this` functions, so their lack of side effects holds by construction, and their results are stated by the constructor and setter rows.
- The unused import of `create` from `domain` and the `./database/knex` module.
