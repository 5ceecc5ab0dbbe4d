/**
 * The `NewAccount` entity of src/models/NewAccount.ts: the creation-time projection of an
 * account. It has only an id and an owner; balance and timestamp are left to the store.
 */
module NewAccountModel {

  class NewAccount {
    var id: string
    var owner_id: string

    constructor (id: string, owner_id: string)
      ensures GetId() == id && GetOwnerId() == owner_id
    {
      this.id := id;
      this.owner_id := owner_id;
    }

    function GetId(): string
      reads this
    {
      id
    }

    function GetOwnerId(): string
      reads this
    {
      owner_id
    }

    method SetId(newId: string)
      modifies this`id
      ensures GetId() == newId
      ensures GetOwnerId() == old(GetOwnerId())
    {
      id := newId;
    }

    method SetOwnerId(newOwnerId: string)
      modifies this`owner_id
      ensures GetOwnerId() == newOwnerId
      ensures GetId() == old(GetId())
    {
      owner_id := newOwnerId;
    }
  }
}
