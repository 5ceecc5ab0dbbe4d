/**
 * The request handlers of src/index.ts over an in-memory store. Each handler is one
 * atomic step: it returns the status code it sets, the value it sends (or the kind of
 * error it throws) and leaves the store in its new state.
 */
module Server {
  import opened UserModel
  import opened AccountModel
  import opened NewAccountModel
  import opened Queries

  /** The JavaScript type of a request-body field, as far as `typeof` checks tell them apart. */
  datatype JsValue = JsString(s: string) | JsNumber(n: int) | JsOther

  /** The request fields whose type the handlers check. */
  datatype Field = Id | Name | Email | Password | OwnerId | Value

  /** The error a handler throws, tagged by kind instead of its message text. */
  datatype Failure = WrongType(field: Field) | IdExists | IdNotFound

  /** What a handler sends on success. */
  datatype Payload =
    | UserList(users: seq<UserSnapshot>)
    | CreatedUser(user: UserRow)
    | AccountList(accounts: seq<AccountSnapshot>)
    | CreatedAccount(account: AccountRow)
    | Balance(balance: int)
    | UpdatedAccount(updated: AccountSnapshot)

  datatype Body = Sent(payload: Payload) | Thrown(failure: Failure)

  /** A value handed to the `balance` column by an update. */
  datatype BalanceColumn = Amount(n: int) | AccountObject(account: AccountSnapshot)

  /**
   * What PUT /accounts/:id/balance hands to `update({ balance: ... })` as written, for the
   * stored `row` and the request's `value`: the adjusted Account object itself.
   */
  function BalanceColumnAsWritten(row: AccountRow, value: int): (c: BalanceColumn)
    ensures c.AccountObject?
    ensures c.account.balance == row.balance + value
    ensures c.account.id == row.id && c.account.owner_id == row.owner_id && c.account.create_at == row.created_at
  {
    AccountObject(WithDelta(AccountOf(row), value))
  }

  /** What the update evidently should receive: the adjusted balance, a number. */
  function BalanceColumnIntended(row: AccountRow, value: int): (c: BalanceColumn)
    ensures c == Amount(row.balance + value)
  {
    Amount(WithDelta(AccountOf(row), value).balance)
  }

  /** For every account and every amount, the column as written is not the new balance. */
  lemma BalanceColumnAsWrittenIsNotTheBalance(row: AccountRow, value: int)
    ensures BalanceColumnAsWritten(row, value) != BalanceColumnIntended(row, value)
    ensures BalanceColumnIntended(row, value) == Amount(row.balance + value)
  {
  }

  /** The row the store makes of the `NewAccount` columns: it adds the default balance and the time. */
  function StoredAccount(id: string, owner_id: string, defaultBalance: int, now: string): AccountRow
  {
    AccountRow(id, defaultBalance, owner_id, now)
  }

  class Store {
    var users: seq<UserRow>
    var accounts: seq<AccountRow>
    /** The balance the schema gives a new account. */
    const defaultBalance: int

    /** Ids are unique in each table. */
    ghost predicate Valid()
      reads this
    {
      UniqueIds(users, UserId) && UniqueIds(accounts, AccountId)
    }

    constructor (defaultBalance: int)
      ensures Valid()
      ensures users == [] && accounts == [] && this.defaultBalance == defaultBalance
    {
      users := [];
      accounts := [];
      this.defaultBalance := defaultBalance;
    }

    /** GET /users: every user, or those whose name contains a non-empty `q`, as entities. */
    method GetUsers(q: Option<string>) returns (status: int, body: Body)
      ensures status == 200
      ensures body.Sent? && body.payload.UserList?
      ensures body.payload.users == Each(Listed(users, q), UserOf)
    {
      var rows: seq<UserRow>;
      if q.Some? && q.value != "" {
        rows := NameLike(users, q.value);
      } else {
        rows := users;
      }
      status, body := 200, Sent(UserList(Each(rows, UserOf)));
    }

    /** POST /users. */
    method PostUsers(id: JsValue, name: JsValue, email: JsValue, password: JsValue) returns (status: int, body: Body)
      modifies this`users
      ensures !id.JsString? ==> status == 400 && body == Thrown(WrongType(Id))
      ensures id.JsString? && !name.JsString? ==> status == 400 && body == Thrown(WrongType(Name))
      ensures id.JsString? && name.JsString? && !email.JsString? ==> status == 400 && body == Thrown(WrongType(Email))
      ensures id.JsString? && name.JsString? && email.JsString? && !password.JsString? ==>
                status == 400 && body == Thrown(WrongType(Password))
      ensures id.JsString? && name.JsString? && email.JsString? && password.JsString? ==>
                if FindById(old(users), UserId, id.s).Some? then
                  status == 400 && body == Thrown(IdExists)
                else
                  var row := UserRow(id.s, name.s, email.s, password.s);
                  status == 201 && users == old(users) + [row] && body == Sent(CreatedUser(row))
      ensures status != 201 ==> users == old(users)
      ensures old(Valid()) ==> Valid()
    {
      if !id.JsString? {
        return 400, Thrown(WrongType(Id));
      }
      if !name.JsString? {
        return 400, Thrown(WrongType(Name));
      }
      if !email.JsString? {
        return 400, Thrown(WrongType(Email));
      }
      if !password.JsString? {
        return 400, Thrown(WrongType(Password));
      }
      var existing := FindById(users, UserId, id.s);
      if existing.Some? {
        return 400, Thrown(IdExists);
      }
      var newUser := new User(id.s, name.s, email.s, password.s);
      var newRow := UserRow(newUser.GetId(), newUser.GetName(), newUser.GetEmail(), newUser.GetPassword());
      FindAfterAppend(users, UserId, newRow);
      if UniqueIds(old(users), UserId) {
        AppendKeepsUnique(users, UserId, newRow);
      }
      users := users + [newRow];
      var created := FindById(users, UserId, id.s);
      status, body := 201, Sent(CreatedUser(created.value));
    }

    /** GET /accounts: every account, as entities. */
    method GetAccounts() returns (status: int, body: Body)
      ensures status == 200
      ensures body.Sent? && body.payload.AccountList?
      ensures body.payload.accounts == Each(accounts, AccountOf)
    {
      status, body := 200, Sent(AccountList(Each(accounts, AccountOf)));
    }

    /** GET /accounts/:id/balance. */
    method GetBalance(id: string) returns (status: int, body: Body)
      ensures FindById(accounts, AccountId, id).None? ==> status == 404 && body == Thrown(IdNotFound)
      ensures FindById(accounts, AccountId, id).Some? ==>
                status == 200 && body == Sent(Balance(FindById(accounts, AccountId, id).value.balance))
    {
      var found := FindById(accounts, AccountId, id);
      if found.None? {
        return 404, Thrown(IdNotFound);
      }
      var row := found.value;
      var confirmed := new Account(row.id, row.balance, row.owner_id, row.created_at);
      status, body := 200, Sent(Balance(confirmed.GetBalance()));
    }

    /** POST /accounts; `now` is the timestamp the store records as `created_at`. */
    method PostAccounts(id: JsValue, owner_id: JsValue, now: string) returns (status: int, body: Body)
      modifies this`accounts
      ensures !id.JsString? ==> status == 400 && body == Thrown(WrongType(Id))
      ensures id.JsString? && !owner_id.JsString? ==> status == 400 && body == Thrown(WrongType(OwnerId))
      ensures id.JsString? && owner_id.JsString? ==>
                if FindById(old(accounts), AccountId, id.s).Some? then
                  status == 400 && body == Thrown(IdExists)
                else
                  var row := StoredAccount(id.s, owner_id.s, defaultBalance, now);
                  status == 201 && accounts == old(accounts) + [row] && body == Sent(CreatedAccount(row))
      ensures status != 201 ==> accounts == old(accounts)
      ensures old(Valid()) ==> Valid()
    {
      if !id.JsString? {
        return 400, Thrown(WrongType(Id));
      }
      if !owner_id.JsString? {
        return 400, Thrown(WrongType(OwnerId));
      }
      var existing := FindById(accounts, AccountId, id.s);
      if existing.Some? {
        return 400, Thrown(IdExists);
      }
      var newAccount := new NewAccount(id.s, owner_id.s);
      var newRow := StoredAccount(newAccount.GetId(), newAccount.GetOwnerId(), defaultBalance, now);
      FindAfterAppend(accounts, AccountId, newRow);
      if UniqueIds(old(accounts), AccountId) {
        AppendKeepsUnique(accounts, AccountId, newRow);
      }
      accounts := accounts + [newRow];
      var created := FindById(accounts, AccountId, id.s);
      status, body := 201, Sent(CreatedAccount(created.value));
    }

    /**
     * PUT /accounts/:id/balance. The returned account is the stored one with `value` added
     * to its balance. The store receives that new balance, as BalanceColumnIntended has it;
     * BalanceColumnAsWritten is what the update is handed as written.
     */
    method PutBalance(id: string, value: JsValue) returns (status: int, body: Body)
      modifies this`accounts
      ensures !value.JsNumber? ==> status == 400 && body == Thrown(WrongType(Value)) && accounts == old(accounts)
      ensures value.JsNumber? ==>
                match FindById(old(accounts), AccountId, id)
                case None =>
                  status == 404 && body == Thrown(IdNotFound) && accounts == old(accounts)
                case Some(row) =>
                  status == 200 &&
                  body == Sent(UpdatedAccount(WithDelta(AccountOf(row), value.n))) &&
                  accounts == SetBalanceWhere(old(accounts), id, row.balance + value.n)
      ensures old(Valid()) ==> Valid()
    {
      if !value.JsNumber? {
        return 400, Thrown(WrongType(Value));
      }
      var found := FindById(accounts, AccountId, id);
      if found.None? {
        return 404, Thrown(IdNotFound);
      }
      var row := found.value;
      var account := new Account(row.id, row.balance, row.owner_id, row.created_at);
      account.SetBalance(value.n);
      var newBalance := account.GetBalance();
      assert newBalance == row.balance + value.n;
      if UniqueIds(old(accounts), AccountId) {
        SetBalanceKeepsUnique(accounts, id, newBalance);
      }
      accounts := SetBalanceWhere(accounts, id, newBalance);
      status, body := 200, Sent(UpdatedAccount(account.Snapshot()));
    }
  }

  /**
   * Two PUT /accounts/:id/balance requests in a row, with `d1` and then `d2`: on an existing
   * account both answer 200 and the account ends with its first balance plus `d1 + d2`;
   * on an absent id both answer 404 and nothing changes.
   */
  method PutTwice(store: Store, id: string, d1: int, d2: int) returns (s1: int, s2: int)
    modifies store`accounts
    ensures match FindById(old(store.accounts), AccountId, id)
            case None =>
              s1 == 404 && s2 == 404 && store.accounts == old(store.accounts)
            case Some(first) =>
              s1 == 200 && s2 == 200 &&
              FindById(store.accounts, AccountId, id) == Some(first.(balance := first.balance + d1 + d2))
  {
    ghost var before := store.accounts;
    var found := FindById(store.accounts, AccountId, id);
    var b1, b2;
    if found.None? {
      s1, b1 := store.PutBalance(id, JsNumber(d1));
      s2, b2 := store.PutBalance(id, JsNumber(d2));
      return;
    }
    var first := found.value;
    PutsAccumulate(before, id, first, d1, d2);
    s1, b1 := store.PutBalance(id, JsNumber(d1));
    assert store.accounts == SetBalanceWhere(before, id, first.balance + d1);
    s2, b2 := store.PutBalance(id, JsNumber(d2));
    assert store.accounts == SetBalanceWhere(SetBalanceWhere(before, id, first.balance + d1), id, first.balance + d1 + d2);
  }

  /**
   * Two PUTs with `d1` and then `d2` on an existing account, each reading what the
   * previous one stored: the second PUT reads the first balance plus `d1`, and afterwards
   * the account holds the first balance plus `d1 + d2`, its other columns untouched.
   */
  lemma PutsAccumulate(accounts: seq<AccountRow>, id: string, first: AccountRow, d1: int, d2: int)
    requires FindById(accounts, AccountId, id) == Some(first)
    ensures FindById(SetBalanceWhere(accounts, id, first.balance + d1), AccountId, id)
            == Some(first.(balance := first.balance + d1))
    ensures FindById(SetBalanceWhere(SetBalanceWhere(accounts, id, first.balance + d1), id, first.balance + d1 + d2), AccountId, id)
            == Some(first.(balance := first.balance + d1 + d2))
  {
    var b1, b2 := first.balance + d1, first.balance + d1 + d2;
    var afterFirst := SetBalanceWhere(accounts, id, b1);
    assert afterFirst == SetBalanceWhere(accounts, id, first.balance + d1);
    FindAfterSetBalance(accounts, id, b1);
    var afterSecond := SetBalanceWhere(afterFirst, id, b2);
    assert afterSecond == SetBalanceWhere(afterFirst, id, first.balance + d1 + d2);
    FindAfterSetBalance(afterFirst, id, b2);
  }

  /**
   * The end-to-end scenario, for any ids and fields: create a user and an account owned by
   * it, PUT 50, PUT -20, then GET the balance, which is the default balance plus 30.
   */
  method Scenario(userId: string, name: string, email: string, password: string, accountId: string,
                  defaultBalance: int, now: string)
    returns (status: int, body: Body)
    ensures status == 200 && body == Sent(Balance(defaultBalance + 30))
  {
    var store := new Store(defaultBalance);
    var s, b := store.PostUsers(JsString(userId), JsString(name), JsString(email), JsString(password));
    s, b := store.PostAccounts(JsString(accountId), JsString(userId), now);
    var acc := StoredAccount(accountId, userId, defaultBalance, now);
    ghost var created := store.accounts;
    assert FindById(created, AccountId, accountId) == Some(acc);
    PutsAccumulate(created, accountId, acc, 50, -20);
    s, b := store.PutBalance(accountId, JsNumber(50));
    s, b := store.PutBalance(accountId, JsNumber(-20));
    status, body := store.GetBalance(accountId);
  }
}
