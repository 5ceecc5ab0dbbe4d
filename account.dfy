/** The `Account` entity of src/models/Account.ts: a mutable record whose balance setter adds. */
module AccountModel {

  /**
   * What an `Account` object serializes to in a response. The timestamp field is
   * `create_at` here, while the table column it is read from is `created_at`.
   */
  datatype AccountSnapshot = AccountSnapshot(id: string, balance: int, owner_id: string, create_at: string)

  /** The account after an additive balance adjustment by `delta`. */
  function WithDelta(a: AccountSnapshot, delta: int): AccountSnapshot
  {
    a.(balance := a.balance + delta)
  }

  /** Two adjustments in a row amount to one adjustment by their sum. */
  lemma DeltasAdd(a: AccountSnapshot, d1: int, d2: int)
    ensures WithDelta(WithDelta(a, d1), d2) == WithDelta(a, d1 + d2)
    ensures WithDelta(WithDelta(a, d1), d2).balance == a.balance + d1 + d2
  {
  }

  /** Adjusting by zero leaves the account as it was. */
  lemma ZeroDeltaKeeps(a: AccountSnapshot)
    ensures WithDelta(a, 0) == a
  {
  }

  /** An adjustment touches the balance and nothing else. */
  lemma DeltaKeepsIdentity(a: AccountSnapshot, delta: int)
    ensures WithDelta(a, delta).id == a.id
    ensures WithDelta(a, delta).owner_id == a.owner_id
    ensures WithDelta(a, delta).create_at == a.create_at
  {
  }

  class Account {
    var id: string
    var balance: int
    var owner_id: string
    var create_at: string

    constructor (id: string, balance: int, owner_id: string, create_at: string)
      ensures GetId() == id && GetBalance() == balance && GetOwner() == owner_id && GetCreate() == create_at
      ensures Snapshot() == AccountSnapshot(id, balance, owner_id, create_at)
    {
      this.id := id;
      this.balance := balance;
      this.owner_id := owner_id;
      this.create_at := create_at;
    }

    /** The JSON view of this object. */
    function Snapshot(): AccountSnapshot
      reads this
    {
      AccountSnapshot(id, balance, owner_id, create_at)
    }

    function GetId(): string
      reads this
    {
      id
    }

    function GetBalance(): int
      reads this
    {
      balance
    }

    function GetOwner(): string
      reads this
    {
      owner_id
    }

    /** The creation timestamp; there is no setter for it. */
    function GetCreate(): string
      reads this
    {
      create_at
    }

    method SetId(newId: string)
      modifies this`id
      ensures GetId() == newId
      ensures GetBalance() == old(GetBalance()) && GetOwner() == old(GetOwner()) && GetCreate() == old(GetCreate())
    {
      id := newId;
    }

    /** Despite its name, this adds its argument to the balance. */
    method SetBalance(newBalance: int)
      modifies this`balance
      ensures Snapshot() == WithDelta(old(Snapshot()), newBalance)
      ensures GetBalance() == old(GetBalance()) + newBalance
      ensures GetId() == old(GetId()) && GetOwner() == old(GetOwner()) && GetCreate() == old(GetCreate())
    {
      balance := balance + newBalance;
    }

    method SetOwner(newOwner: string)
      modifies this`owner_id
      ensures GetOwner() == newOwner
      ensures GetId() == old(GetId()) && GetBalance() == old(GetBalance()) && GetCreate() == old(GetCreate())
    {
      owner_id := newOwner;
    }
  }

  /** Two successive `SetBalance` calls on one object accumulate both amounts. */
  method SetBalanceTwice(a: Account, d1: int, d2: int)
    modifies a
    ensures a.GetBalance() == old(a.GetBalance()) + d1 + d2
    ensures a.Snapshot() == WithDelta(old(a.Snapshot()), d1 + d2)
  {
    a.SetBalance(d1);
    a.SetBalance(d2);
    DeltasAdd(old(a.Snapshot()), d1, d2);
  }
}
