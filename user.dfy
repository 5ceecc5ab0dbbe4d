/** The `User` entity of src/models/User.ts: a mutable record of four strings. */
module UserModel {

  /** What a `User` object serializes to in a response: its four private fields under their own names. */
  datatype UserSnapshot = UserSnapshot(id: string, name: string, email: string, password: string)

  class User {
    var id: string
    var name: string
    var email: string
    var password: string

    constructor (id: string, name: string, email: string, password: string)
      ensures GetId() == id && GetName() == name && GetEmail() == email && GetPassword() == password
      ensures Snapshot() == UserSnapshot(id, name, email, password)
    {
      this.id := id;
      this.name := name;
      this.email := email;
      this.password := password;
    }

    /** The JSON view of this object. */
    function Snapshot(): UserSnapshot
      reads this
    {
      UserSnapshot(id, name, email, password)
    }

    // Getters are functions: reading a field has no side effect.

    function GetId(): string
      reads this
    {
      id
    }

    function GetName(): string
      reads this
    {
      name
    }

    function GetEmail(): string
      reads this
    {
      email
    }

    function GetPassword(): string
      reads this
    {
      password
    }

    method SetId(newId: string)
      modifies this`id
      ensures GetId() == newId
      ensures GetName() == old(GetName()) && GetEmail() == old(GetEmail()) && GetPassword() == old(GetPassword())
    {
      id := newId;
    }

    /** As written in the source, this setter assigns `email`; `name` keeps its value. */
    method SetName(newName: string)
      modifies this`email
      ensures GetEmail() == newName
      ensures GetName() == old(GetName()) && GetId() == old(GetId()) && GetPassword() == old(GetPassword())
    {
      email := newName;
    }

    method SetEmail(newEmail: string)
      modifies this`email
      ensures GetEmail() == newEmail
      ensures GetId() == old(GetId()) && GetName() == old(GetName()) && GetPassword() == old(GetPassword())
    {
      email := newEmail;
    }

    method SetPassword(newPassword: string)
      modifies this`password
      ensures GetPassword() == newPassword
      ensures GetId() == old(GetId()) && GetName() == old(GetName()) && GetEmail() == old(GetEmail())
    {
      password := newPassword;
    }
  }
}
