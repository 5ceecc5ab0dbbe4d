/**
 * The pure parts of src/index.ts: the table rows, the lookups the handlers run against
 * the tables (`where({ id })`, the `LIKE` filter on names, `update(...).where({ id })`)
 * and the `.map` from rows to entities.
 */
module Queries {
  import opened UserModel
  import opened AccountModel

  datatype Option<T> = None | Some(value: T)

  /** A row of the `users` table: the four columns POST /users inserts. */
  datatype UserRow = UserRow(id: string, name: string, email: string, password: string)

  /** A row of the `accounts` table; `balance` and `created_at` are filled in by the store. */
  datatype AccountRow = AccountRow(id: string, balance: int, owner_id: string, created_at: string)

  function UserId(u: UserRow): string
  {
    u.id
  }

  function AccountId(a: AccountRow): string
  {
    a.id
  }

  /** No two rows of a table share an id. */
  ghost predicate UniqueIds<R>(rows: seq<R>, idOf: R -> string)
  {
    forall i, j :: 0 <= i < j < |rows| ==> idOf(rows[i]) != idOf(rows[j])
  }

  /** Some row of the table has id `id`. */
  predicate HasId<R>(rows: seq<R>, idOf: R -> string, id: string)
  {
    rows != [] && (idOf(rows[0]) == id || HasId(rows[1..], idOf, id))
  }

  /** `HasId` holds exactly when some position of the table carries the id. */
  lemma {:induction false} HasIdAt<R>(rows: seq<R>, idOf: R -> string, id: string)
    ensures HasId(rows, idOf, id) <==> exists k :: 0 <= k < |rows| && idOf(rows[k]) == id
  {
    if rows != [] {
      HasIdAt(rows[1..], idOf, id);
      if HasId(rows[1..], idOf, id) {
        var k :| 0 <= k < |rows| - 1 && idOf(rows[1..][k]) == id;
        assert idOf(rows[k + 1]) == id;
      }
      if idOf(rows[0]) != id && exists k :: 0 <= k < |rows| && idOf(rows[k]) == id {
        var k :| 0 <= k < |rows| && idOf(rows[k]) == id;
        assert idOf(rows[1..][k - 1]) == id;
      }
    }
  }

  /**
   * `const [row] = await db(table).where({ id })`: the first row whose id is `id`,
   * or nothing when no row has it.
   */
  function FindById<R>(rows: seq<R>, idOf: R -> string, id: string): (r: Option<R>)
    ensures r.None? <==> !HasId(rows, idOf, id)
    ensures r.Some? ==> r.value in rows && idOf(r.value) == id
    ensures r.Some? && |rows| > 0 && idOf(rows[0]) == id ==> r.value == rows[0]
  {
    if rows == [] then None
    else if idOf(rows[0]) == id then Some(rows[0])
    else FindById(rows[1..], idOf, id)
  }

  /** Appending a row whose id was absent makes a lookup of that id find exactly that row. */
  lemma {:induction false} FindAfterAppend<R>(rows: seq<R>, idOf: R -> string, row: R)
    requires FindById(rows, idOf, idOf(row)).None?
    ensures FindById(rows + [row], idOf, idOf(row)) == Some(row)
    ensures FindById(rows + [row], idOf, idOf(row)).value == row
  {
    if rows != [] {
      assert (rows + [row])[1..] == rows[1..] + [row];
      FindAfterAppend(rows[1..], idOf, row);
    }
  }

  /** Appending a row whose id was absent keeps ids unique. */
  lemma AppendKeepsUnique<R>(rows: seq<R>, idOf: R -> string, row: R)
    requires UniqueIds(rows, idOf)
    requires FindById(rows, idOf, idOf(row)).None?
    ensures UniqueIds(rows + [row], idOf)
  {
    HasIdAt(rows, idOf, idOf(row));
    var s := rows + [row];
    forall i, j | 0 <= i < j < |s|
      ensures idOf(s[i]) != idOf(s[j])
    {
      if j == |rows| {
        assert s[i] == rows[i];
      }
    }
  }

  /** `s[i..]` starts with `q`. */
  predicate OccursAt(s: string, q: string, i: nat)
  {
    i + |q| <= |s| && s[i..i + |q|] == q
  }

  /** An occurrence in `s[1..]` is an occurrence in `s` one position later, and back. */
  lemma {:induction false} OccurrenceShift(s: string, q: string)
    requires |s| > 0
    ensures (exists i: nat :: OccursAt(s, q, i)) <==> OccursAt(s, q, 0) || exists j: nat :: OccursAt(s[1..], q, j)
  {
    forall j: nat | OccursAt(s[1..], q, j)
      ensures OccursAt(s, q, j + 1)
    {
      assert s[1..][j..j + |q|] == s[j + 1..j + 1 + |q|];
    }
    forall i: nat | i > 0 && OccursAt(s, q, i)
      ensures OccursAt(s[1..], q, i - 1)
    {
      assert s[1..][i - 1..i - 1 + |q|] == s[i..i + |q|];
    }
  }

  /** Substring containment: the name filter `LIKE '%q%'`, taken literally. */
  function Contains(s: string, q: string): (r: bool)
    ensures r <==> exists i: nat :: OccursAt(s, q, i)
    decreases |s|
  {
    if |s| < |q| then
      false
    else if s[..|q|] == q then
      assert OccursAt(s, q, 0);
      true
    else
      OccurrenceShift(s, q);
      Contains(s[1..], q)
  }

  /** Every string contains the empty string. */
  lemma ContainsEmpty(s: string)
    ensures Contains(s, "")
  {
    assert OccursAt(s, "", 0);
  }

  /** `db("users").where("name", "LIKE", "%q%")`: the rows whose name contains `q`, in table order. */
  function NameLike(rows: seq<UserRow>, q: string): (r: seq<UserRow>)
    ensures forall u :: u in r <==> u in rows && Contains(u.name, q)
    ensures forall u :: multiset(r)[u] == if Contains(u.name, q) then multiset(rows)[u] else 0
    ensures |r| <= |rows|
  {
    if rows == [] then []
    else if Contains(rows[0].name, q) then
      assert rows == [rows[0]] + rows[1..];
      [rows[0]] + NameLike(rows[1..], q)
    else
      assert rows == [rows[0]] + rows[1..];
      NameLike(rows[1..], q)
  }

  /** When every name matches, the filter returns the table unchanged: same rows, same order. */
  lemma {:induction false} NameLikeAllMatch(rows: seq<UserRow>, q: string)
    requires forall k :: 0 <= k < |rows| ==> Contains(rows[k].name, q)
    ensures NameLike(rows, q) == rows
  {
    if rows != [] {
      NameLikeAllMatch(rows[1..], q);
      assert [rows[0]] + rows[1..] == rows;
    }
  }

  /**
   * The rows GET /users answers with: the whole table when `q` is absent or empty
   * (the empty string is falsy), otherwise the rows whose name contains `q`.
   */
  function Listed(users: seq<UserRow>, q: Option<string>): (r: seq<UserRow>)
    ensures forall u :: u in r <==> u in users && (q.None? || Contains(u.name, q.value))
    ensures q.Some? && q.value != "" ==>
              forall u :: multiset(r)[u] == if Contains(u.name, q.value) then multiset(users)[u] else 0
    ensures q.None? || q.value == "" ==> r == users
  {
    if q.Some? && q.value != "" then
      NameLike(users, q.value)
    else
      EveryNameContainsEmpty(users);
      users
  }

  lemma EveryNameContainsEmpty(users: seq<UserRow>)
    ensures forall u :: u in users ==> Contains(u.name, "")
  {
    forall u | u in users
      ensures Contains(u.name, "")
    {
      ContainsEmpty(u.name);
    }
  }

  /** Filtering by the empty string returns the whole table, same rows in the same order. */
  lemma EmptyFilterKeepsAll(users: seq<UserRow>)
    ensures NameLike(users, "") == users
  {
    EveryNameContainsEmpty(users);
    NameLikeAllMatch(users, "");
  }

  /** One row under `update({ balance: b }).where({ id })`. */
  function Updated(row: AccountRow, id: string, b: int): AccountRow
  {
    if row.id == id then row.(balance := b) else row
  }

  /**
   * `db("accounts").update({ balance: b }).where({ id })`: every row with that id gets
   * balance `b`; every other row, and every other column, is left as it was.
   */
  function SetBalanceWhere(rows: seq<AccountRow>, id: string, b: int): (r: seq<AccountRow>)
    ensures |r| == |rows|
    ensures forall k :: 0 <= k < |rows| ==> r[k].id == rows[k].id && r[k].owner_id == rows[k].owner_id && r[k].created_at == rows[k].created_at
    ensures forall k :: 0 <= k < |rows| ==> r[k].balance == if rows[k].id == id then b else rows[k].balance
  {
    seq(|rows|, k requires 0 <= k < |rows| => Updated(rows[k], id, b))
  }

  /** After the update, looking the id up finds the row it found before, with the new balance. */
  lemma {:induction false} FindAfterSetBalance(rows: seq<AccountRow>, id: string, b: int)
    requires FindById(rows, AccountId, id).Some?
    ensures FindById(SetBalanceWhere(rows, id, b), AccountId, id) == Some(FindById(rows, AccountId, id).value.(balance := b))
  {
    var r := SetBalanceWhere(rows, id, b);
    if rows[0].id == id {
      assert r[0] == rows[0].(balance := b);
    } else {
      assert r[0] == rows[0];
      assert r[1..] == SetBalanceWhere(rows[1..], id, b);
      FindAfterSetBalance(rows[1..], id, b);
    }
  }

  /** With unique ids, looking up the id of any row finds exactly that row. */
  lemma UniqueLookup<R>(rows: seq<R>, idOf: R -> string, k: int)
    requires UniqueIds(rows, idOf)
    requires 0 <= k < |rows|
    ensures FindById(rows, idOf, idOf(rows[k])) == Some(rows[k])
  {
    HasIdAt(rows, idOf, idOf(rows[k]));
    var r := FindById(rows, idOf, idOf(rows[k]));
    var j :| 0 <= j < |rows| && rows[j] == r.value;
    assert j == k;
  }

  /** The update changes balances only, so it keeps ids unique. */
  lemma SetBalanceKeepsUnique(rows: seq<AccountRow>, id: string, b: int)
    requires UniqueIds(rows, AccountId)
    ensures UniqueIds(SetBalanceWhere(rows, id, b), AccountId)
  {
    var r := SetBalanceWhere(rows, id, b);
    forall i, j | 0 <= i < j < |r|
      ensures AccountId(r[i]) != AccountId(r[j])
    {
      assert r[i].id == rows[i].id && r[j].id == rows[j].id;
    }
  }

  /** `Array.prototype.map`: one result per element, in the same order. */
  function Each<A, B>(s: seq<A>, f: A -> B): (r: seq<B>)
    ensures |r| == |s|
    ensures forall k :: 0 <= k < |s| ==> r[k] == f(s[k])
  {
    if s == [] then [] else [f(s[0])] + Each(s[1..], f)
  }

  /** The entity `new User(row.id, row.name, row.email, row.password)` serializes to. */
  function UserOf(row: UserRow): (u: UserSnapshot)
    ensures u.id == row.id && u.name == row.name && u.email == row.email && u.password == row.password
  {
    UserSnapshot(row.id, row.name, row.email, row.password)
  }

  /** The entity `new Account(row.id, row.balance, row.owner_id, row.created_at)` serializes to. */
  function AccountOf(row: AccountRow): (a: AccountSnapshot)
    ensures a.id == row.id && a.balance == row.balance && a.owner_id == row.owner_id
    ensures a.create_at == row.created_at
  {
    AccountSnapshot(row.id, row.balance, row.owner_id, row.created_at)
  }
}
