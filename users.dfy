/**
 * The users endpoint (app/api/users/route.ts). POST registers a user under
 * an email nobody has yet, with a hashed password, the given role or
 * `employee`, and no permissions; the reply never holds the password. GET
 * lists every user without password, newest first.
 *
 * `hash` stands for bcrypt's hashing of a password.
 */
module UsersApi {
  import opened Common
  import opened Store
  import opened UserModel
  import Login

  /**
   * The document `User.create` stores, or None when the call throws: a
   * missing password makes the hashing throw; a missing name or email, or a
   * role outside the enum, fails validation.
   */
  function NewUser(name: string, email: string, password: Option<string>, role: string,
                   hash: string -> string): (u: Option<User>)
    ensures u.Some? <==> password.Some? && name != "" && email != "" && (role == "" || ParseRole(role).Some?)
    ensures u.Some? ==> u.value.name == name && u.value.email == email
    ensures u.Some? ==> u.value.password == Some(hash(password.value))
    ensures u.Some? ==> u.value.role == (if role == "" then DefaultRole else ParseRole(role).value)
    ensures u.Some? ==> u.value.permissions == [] && u.value.avatar.None?
  {
    if password.None? then None
    else
      var r := if Truthy(role) then ParseRole(role) else Some(DefaultRole);
      if !Truthy(name) || !Truthy(email) || r.None? then None
      else Some(User(name, email, Some(hash(password.value)), r.value, None, []))
  }

  /** POST: refuse a taken email, otherwise insert the new user and reply with it minus the password. */
  method Post(users: Collection<User>, name: string, email: string, password: Option<string>, role: string,
              hash: string -> string, now: int) returns (r: Reply<PublicUser>)
    requires users.Valid() && ValidUsers(users.docs)
    modifies users
    ensures users.Valid() && ValidUsers(users.docs)
    ensures Exists(old(users.docs), HasEmail(email)) ==>
      r == Err(400, "User already exists") && users.docs == old(users.docs)
    ensures !Exists(old(users.docs), HasEmail(email)) && NewUser(name, email, password, role, hash).None? ==>
      r == Err(500, "Failed to create user") && users.docs == old(users.docs)
    ensures !Exists(old(users.docs), HasEmail(email)) && NewUser(name, email, password, role, hash).Some? ==>
      && |users.docs| == |old(users.docs)| + 1
      && users.docs[..|old(users.docs)|] == old(users.docs)
      && users.docs[|old(users.docs)|].data == NewUser(name, email, password, role, hash).value
      && r == Ok(201, Public(users.docs[|old(users.docs)|]))
  {
    var existing := users.Find(HasEmail(email));
    if existing.Some? {
      return Err(400, "User already exists");
    }
    var u := NewUser(name, email, password, role, hash);
    if u.None? {
      return Err(500, "Failed to create user");
    }
    var d := users.Create(u.value, now);
    r := Ok(201, Public(d));
  }

  /** GET: the users newest first, without passwords. */
  function List(docs: seq<Doc<User>>): (r: seq<PublicUser>)
    ensures |r| == |docs|
    ensures forall i, j :: 0 <= i < j < |r| ==> r[i].createdAt >= r[j].createdAt
  {
    var sorted := NewestFirst(docs);
    seq(|sorted|, i requires 0 <= i < |sorted| => Public(sorted[i]))
  }

  /** GET lists every stored user, and nothing else. */
  lemma ListHasEveryUser(docs: seq<Doc<User>>)
    ensures forall j :: 0 <= j < |docs| ==> Public(docs[j]) in List(docs)
    ensures forall p :: p in List(docs) ==> exists j :: 0 <= j < |docs| && p == Public(docs[j])
  {
    var sorted := NewestFirst(docs);
    var r := List(docs);
    forall j | 0 <= j < |docs| ensures Public(docs[j]) in r {
      assert docs[j] in multiset(sorted);
      var k :| 0 <= k < |sorted| && sorted[k] == docs[j];
      assert r[k] == Public(docs[j]);
    }
    forall p | p in r ensures exists j :: 0 <= j < |docs| && p == Public(docs[j]) {
      var k :| 0 <= k < |r| && r[k] == p;
      assert sorted[k] in multiset(docs);
      var j :| 0 <= j < |docs| && docs[j] == sorted[k];
    }
  }

  /**
   * A user registered through POST can log in with the password it was
   * registered with, provided bcrypt accepts every password against its own
   * hash: the login finds the new user and signs its id, role and name.
   */
  lemma RegisteredUserCanLogIn(docs: seq<Doc<User>>, d: Doc<User>, name: string, email: string,
                               password: string, role: string, hash: string -> string,
                               compare: (string, string) -> bool, sign: Login.Claims -> string, production: bool)
    requires ValidUsers(docs + [d])
    requires NewUser(name, email, Some(password), role, hash) == Some(d.data)
    requires forall p :: compare(p, hash(p))
    requires password != ""
    ensures Login.Login(email, password, docs + [d], compare, sign, production, None)
      == Ok(200, Login.Session(Login.SessionUser(d.id, name, email, d.data.role),
                               Login.SessionCookie(sign(Login.Claims(d.id, d.data.role, name)), production)))
  {
    var all := docs + [d];
    assert all[|docs|] == d;
    Login.Success(email, password, all, |docs|, compare, sign, production, None);
  }
}
