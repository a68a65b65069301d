/** The user table of user_service/dist/controller.js: registration, login and
    lookup by id. Password hashing and token signing are modelled abstractly: a
    digest is made from the password and a salt and is checked only against that
    password; a token names the user it was issued for. */
module Accounts {
  import opened Wrappers

  /** `bcrypt.hash(password, 10)`: the salt is the hash's own randomness. */
  datatype Digest = Digest(password: string, salt: nat, rounds: nat)

  const SaltRounds: nat := 10

  function Hash(password: string, salt: nat): Digest
  {
    Digest(password, salt, SaltRounds)
  }

  /** `bcrypt.compare(password, digest)`. */
  predicate Verify(password: string, d: Digest)
  {
    d.password == password
  }

  /** A hash accepts the password it was made from, and only that one, whatever the salt. */
  lemma HashVerifies(password: string, other: string, salt: nat)
    ensures Verify(password, Hash(password, salt))
    ensures Verify(other, Hash(password, salt)) <==> other == password
  {
  }

  /** `jwt.sign({ _id }, secret, { expiresIn: "3d" })`, as an opaque value. */
  datatype Token = Token(subject: nat, expiresIn: string)

  const TokenLifetime: string := "3d"

  /** A stored user; the password field holds a digest, never the plain text. */
  datatype User = User(id: nat, name: string, email: string, password: Digest,
                       role: string, playlist: seq<string>)

  /** A JSON reply: status, message and, on success, the user and a token. */
  datatype Reply = Reply(status: nat, message: string, user: Option<User>, token: Option<Token>)

  /** The first user satisfying `p`, as a MongoDB `findOne` over the collection. */
  function FindFirst(users: seq<User>, p: User -> bool): (r: Option<User>)
    ensures r.None? <==> forall i :: 0 <= i < |users| ==> !p(users[i])
    ensures r.Some? ==> r.value in users && p(r.value)
  {
    if users == [] then None
    else if p(users[0]) then Some(users[0])
    else FindFirst(users[1..], p)
  }

  /** `User.findOne({ email })`: the first user with that email. */
  function FindByEmail(users: seq<User>, email: string): (r: Option<User>)
    ensures r.None? <==> forall i :: 0 <= i < |users| ==> users[i].email != email
    ensures r.Some? ==> r.value in users && r.value.email == email
  {
    FindFirst(users, (u: User) => u.email == email)
  }

  /** `User.findById(id)`. */
  function FindById(users: seq<User>, id: nat): (r: Option<User>)
    ensures r.None? <==> forall i :: 0 <= i < |users| ==> users[i].id != id
    ensures r.Some? ==> r.value in users && r.value.id == id
  {
    FindFirst(users, (u: User) => u.id == id)
  }

  /** Emails and ids are unique, and every id is below the next one to hand out. */
  ghost predicate Unique(users: seq<User>, nextId: nat)
  {
    && (forall i, j :: 0 <= i < j < |users| ==> users[i].email != users[j].email)
    && (forall i, j :: 0 <= i < j < |users| ==> users[i].id != users[j].id)
    && (forall i :: 0 <= i < |users| ==> users[i].id < nextId)
  }

  /** With unique emails, the user found by email is the one at any index holding it. */
  lemma FindByEmailUnique(users: seq<User>, nextId: nat, i: nat)
    requires Unique(users, nextId) && i < |users|
    ensures FindByEmail(users, users[i].email) == Some(users[i])
  {
    var u := FindByEmail(users, users[i].email).value;
    var j :| 0 <= j < |users| && users[j] == u;
    assert j == i;
  }

  /** A newly registered user can log in with the password it registered with, and
      with no other. */
  lemma RegisteredUserCanLogIn(users: seq<User>, nextId: nat, name: string, email: string,
                               password: string, other: string, salt: nat)
    requires FindByEmail(users, email).None?
    ensures var u := User(nextId, name, email, Hash(password, salt), "user", []);
      && FindByEmail(users + [u], email) == Some(u)
      && Verify(password, u.password)
      && (Verify(other, u.password) <==> other == password)
  {
    var u := User(nextId, name, email, Hash(password, salt), "user", []);
    var all := users + [u];
    assert all[|users|] == u;
    assert forall k :: 0 <= k < |users| ==> all[k] == users[k];
    var r := FindByEmail(all, email);
    var j :| 0 <= j < |all| && all[j] == r.value;
  }

  class UserStore {
    var users: seq<User>
    /** The id the next created user gets (MongoDB's `ObjectId`, as a counter). */
    var nextId: nat

    ghost predicate Valid()
      reads this
    {
      Unique(users, nextId)
    }

    constructor ()
      ensures users == [] && nextId == 0 && Valid()
    {
      users, nextId := [], 0;
    }

    /** `registerUser`: a taken email is refused with 400 and the table is left as
        it was; otherwise one user is appended, with role "user", an empty playlist
        and the hash of the password, and 201 comes back with the user and a token. */
    method Register(name: string, email: string, password: string, salt: nat) returns (r: Reply)
      requires Valid()
      modifies this
      ensures Valid()
      ensures old(FindByEmail(users, email)).Some? ==>
        r == Reply(400, "User already exists", None, None) && users == old(users) && nextId == old(nextId)
      ensures old(FindByEmail(users, email)).None? ==>
        var u := User(old(nextId), name, email, Hash(password, salt), "user", []);
        && users == old(users) + [u]
        && nextId == old(nextId) + 1
        && r == Reply(201, "User created successfully", Some(u), Some(Token(u.id, TokenLifetime)))
    {
      var existing := FindByEmail(users, email);
      if existing.Some? {
        return Reply(400, "User already exists", None, None);
      }
      var hashedPassword := Hash(password, salt);
      var user := User(nextId, name, email, hashedPassword, "user", []);
      users := users + [user];
      nextId := nextId + 1;
      r := Reply(201, "User created successfully", Some(user), Some(Token(user.id, TokenLifetime)));
    }

    /** `loginUser`: 400 for an unknown email, 400 for a wrong password, otherwise
        200 with the stored user and a token for it. The table is only read. */
    method Login(email: string, password: string) returns (r: Reply)
      ensures r == Reply(400, "User does not exist", None, None) <==>
        forall i :: 0 <= i < |users| ==> users[i].email != email
      ensures r == Reply(400, "Invalid credentials", None, None) <==>
        FindByEmail(users, email).Some? && !Verify(password, FindByEmail(users, email).value.password)
      ensures r.status == 200 <==>
        exists i :: 0 <= i < |users| && users[i].email == email &&
          FindByEmail(users, email) == Some(users[i]) && Verify(password, users[i].password)
      ensures r.status == 200 ==>
        && r.user.Some? && r.user.value in users && r.user.value.email == email
        && r.token == Some(Token(r.user.value.id, TokenLifetime))
        && r.message == "User logged in successfully"
      ensures r.status == 200 || r.status == 400
    {
      var user := FindByEmail(users, email);
      if user.None? {
        return Reply(400, "User does not exist", None, None);
      }
      var isMatch := Verify(password, user.value.password);
      if !isMatch {
        return Reply(400, "Invalid credentials", None, None);
      }
      r := Reply(200, "User logged in successfully", user, Some(Token(user.value.id, TokenLifetime)));
      assert user.value in users;
    }

    /** `getUser`: 400 when no user has the id, otherwise 200 with that user. */
    method GetUser(id: nat) returns (r: Reply)
      ensures r.status == 400 <==> forall i :: 0 <= i < |users| ==> users[i].id != id
      ensures r.status == 400 ==> r == Reply(400, "User does not exist", None, None)
      ensures r.status == 200 ==>
        r.user.Some? && r.user.value in users && r.user.value.id == id && r.token.None?
      ensures r.status == 200 || r.status == 400
    {
      var user := FindById(users, id);
      if user.None? {
        return Reply(400, "User does not exist", None, None);
      }
      r := Reply(200, "User fetched successfully", user, None);
    }
  }
}
