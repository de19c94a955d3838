/**
 * The user collection of backend/src/modules/users/user.model.ts: a record per
 * user with the four required fields and the timestamps, and a table whose
 * `email` index is unique.
 */
module Users {
  import opened Common

  datatype User = User(
    id: Id,
    name: string,
    email: string,
    passwordHash: string,
    role: Role,
    createdAt: int,
    updatedAt: int)

  /** The `{ id, name, email, role }` object that register and login send back. */
  datatype UserView = UserView(id: Id, name: string, email: string, role: Role)

  /** The document `findById(...).select('-passwordHash')` yields: every field but the hash. */
  datatype PublicUser = PublicUser(id: Id, name: string, email: string, role: Role, createdAt: int, updatedAt: int)

  function ViewOf(u: User): UserView
  {
    UserView(u.id, u.name, u.email, u.role)
  }

  function WithoutHash(u: User): PublicUser
  {
    PublicUser(u.id, u.name, u.email, u.role, u.createdAt, u.updatedAt)
  }

  /** `required: true` on a String path rejects the empty string. */
  predicate WellFormed(u: User)
  {
    u.name != "" && u.email != "" && u.passwordHash != ""
  }

  predicate EmailsUnique(users: seq<User>)
  {
    forall i, j :: 0 <= i < j < |users| ==> users[i].email != users[j].email
  }

  /** The table invariant: required fields present, unique emails, ids unique and below the next id. */
  predicate TableValid(users: seq<User>, nextId: nat)
  {
    && EmailsUnique(users)
    && (forall i :: 0 <= i < |users| ==> WellFormed(users[i]) && users[i].id < nextId)
    && (forall i, j :: 0 <= i < j < |users| ==> users[i].id != users[j].id)
  }

  /** `User.findOne({ email })`. */
  function FindByEmail(users: seq<User>, email: string): (r: Option<User>)
    ensures r.Some? <==> exists i :: 0 <= i < |users| && users[i].email == email
    ensures r.Some? ==> r.value in users && r.value.email == email
  {
    if users == [] then None
    else if users[0].email == email then Some(users[0])
    else
      var r := FindByEmail(users[1..], email);
      assert forall i :: 1 <= i < |users| ==> users[i] == users[1..][i - 1];
      r
  }

  /** `User.findById(id)`. */
  function FindById(users: seq<User>, id: Id): (r: Option<User>)
    ensures r.Some? <==> exists i :: 0 <= i < |users| && users[i].id == id
    ensures r.Some? ==> r.value in users && r.value.id == id
  {
    if users == [] then None
    else if users[0].id == id then Some(users[0])
    else
      var r := FindById(users[1..], id);
      assert forall i :: 1 <= i < |users| ==> users[i] == users[1..][i - 1];
      r
  }

  /** With unique emails, the lookup by email finds the one record that has it. */
  lemma FindByEmailUnique(users: seq<User>, i: nat)
    requires EmailsUnique(users) && i < |users|
    ensures FindByEmail(users, users[i].email) == Some(users[i])
  {
    var r := FindByEmail(users, users[i].email).value;
    var j :| 0 <= j < |users| && users[j] == r;
  }

  /** Appending a record whose email is absent keeps the table valid. */
  lemma AppendKeepsValid(users: seq<User>, nextId: nat, u: User)
    requires TableValid(users, nextId)
    requires WellFormed(u) && u.id == nextId
    requires FindByEmail(users, u.email).None?
    ensures TableValid(users + [u], nextId + 1)
  {
  }

  /** The schema's validation of a `User.create` document; None when it throws. */
  function Validated(id: Id, name: string, email: string, passwordHash: string, role: string, now: int): (r: Option<User>)
    ensures r.Some? <==> name != "" && email != "" && passwordHash != "" && ParseRole(role).Some?
    ensures r.Some? ==> WellFormed(r.value) && RoleName(r.value.role) == role
  {
    var parsed := ParseRole(role);
    if name != "" && email != "" && passwordHash != "" && parsed.Some?
    then Some(User(id, name, email, passwordHash, parsed.value, now, now))
    else None
  }

  /** The collection: records in insertion order and the id the next insert gets. */
  class UserStore {
    var users: seq<User>
    var nextId: nat

    ghost predicate Valid()
      reads this
    {
      TableValid(users, nextId)
    }

    constructor ()
      ensures Valid() && users == []
    {
      users := [];
      nextId := 0;
    }

    /**
     * `User.create(...)`: schema validation, then the unique index on `email`
     * (a duplicate raises E11000); either error leaves the table unchanged.
     */
    method Create(name: string, email: string, passwordHash: string, role: string, now: int) returns (r: Option<User>)
      requires Valid()
      modifies this
      ensures Valid()
      ensures r.Some? <==> Validated(old(nextId), name, email, passwordHash, role, now).Some? && FindByEmail(old(users), email).None?
      ensures r.Some? ==> r == Validated(old(nextId), name, email, passwordHash, role, now) && users == old(users) + [r.value]
      ensures r.None? ==> users == old(users)
    {
      var v := Validated(nextId, name, email, passwordHash, role, now);
      if v.None? || FindByEmail(users, email).Some? {
        return None;
      }
      AppendKeepsValid(users, nextId, v.value);
      users := users + [v.value];
      nextId := nextId + 1;
      r := v;
    }
  }
}
