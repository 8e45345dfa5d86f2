/**
 * The profile endpoint (app/api/users/profile/route.ts). PUT loads the user
 * with the given id and overwrites name, email and password only with the
 * values that are given (non-empty); a new password is stored hashed. The
 * current password is read from the body but never checked, and the avatar
 * in the body is ignored. Saving an email that another user has violates
 * the unique index and fails.
 */
module ProfileApi {
  import opened Common
  import opened Store
  import opened UserModel

  /** The user after the conditional assignments; `hash` stands for bcrypt's hashing. */
  function Patched(u: User, name: string, email: string, password: string, hash: string -> string): (p: User)
    ensures p.name == (if name != "" then name else u.name)
    ensures p.email == (if email != "" then email else u.email)
    ensures p.password == (if password != "" then Some(hash(password)) else u.password)
    ensures p.role == u.role && p.avatar == u.avatar && p.permissions == u.permissions
  {
    var u1 := if Truthy(name) then u.(name := name) else u;
    var u2 := if Truthy(email) then u1.(email := email) else u1;
    if Truthy(password) then u2.(password := Some(hash(password))) else u2
  }

  /** Whether a document other than the one at `i` holds `email`. */
  predicate TakenByOther(docs: seq<Doc<User>>, i: nat, email: string)
  {
    exists j :: 0 <= j < |docs| && j != i && docs[j].data.email == email
  }

  /** The unique index's check at `save()`. */
  method CheckTaken(users: Collection<User>, i: nat, email: string) returns (taken: bool)
    ensures taken <==> TakenByOther(users.docs, i, email)
  {
    var j := 0;
    while j < |users.docs|
      invariant 0 <= j <= |users.docs|
      invariant forall k :: 0 <= k < j && k != i ==> users.docs[k].data.email != email
    {
      if j != i && users.docs[j].data.email == email {
        return true;
      }
      j := j + 1;
    }
    return false;
  }

  /** PUT: update the given user's name, email and password where new values are given. */
  method Put(users: Collection<User>, userId: Option<nat>, name: string, email: string, password: string,
             hash: string -> string) returns (r: Reply<PublicUser>)
    requires users.Valid() && ValidUsers(users.docs)
    modifies users
    ensures users.Valid() && ValidUsers(users.docs)
    ensures r.Err? ==> users.docs == old(users.docs)
    ensures userId.None? || userId.value !in Ids(old(users.docs)) ==> r == Err(404, "User not found")
    ensures r.Ok? ==> exists i :: (
      && 0 <= i < |old(users.docs)| && userId == Some(old(users.docs)[i].id)
      && var d := old(users.docs)[i].(data := Patched(old(users.docs)[i].data, name, email, password, hash));
        && !TakenByOther(old(users.docs), i, d.data.email)
        && users.docs == old(users.docs)[i := d]
        && r == Ok(200, Public(d)))
    ensures forall i :: 0 <= i < |old(users.docs)| && userId == Some(old(users.docs)[i].id) ==>
      var p := Patched(old(users.docs)[i].data, name, email, password, hash);
      TakenByOther(old(users.docs), i, p.email) <==> r == Err(500, "Failed to update profile")
    ensures forall i :: 0 <= i < |old(users.docs)| && userId == Some(old(users.docs)[i].id) ==>
      var p := Patched(old(users.docs)[i].data, name, email, password, hash);
      r.Ok? <==> !TakenByOther(old(users.docs), i, p.email)
  {
    if userId.None? {
      return Err(404, "User not found");
    }
    var found := users.FindId(userId.value);
    if found.None? {
      return Err(404, "User not found");
    }
    var i := found.value;
    var p := Patched(users.docs[i].data, name, email, password, hash);
    var taken := CheckTaken(users, i, p.email);
    if taken {
      return Err(500, "Failed to update profile");
    }
    var d := users.Save(i, p);
    r := Ok(200, Public(d));
  }

  /** A body with no name, email or password leaves the user exactly as it was. */
  lemma EmptyPatchKeepsUser(u: User, hash: string -> string)
    ensures Patched(u, "", "", "", hash) == u
  {
  }

  /** Applying the same update twice is applying it once. */
  lemma PatchIdempotent(u: User, name: string, email: string, password: string, hash: string -> string)
    ensures Patched(Patched(u, name, email, password, hash), name, email, password, hash)
      == Patched(u, name, email, password, hash)
  {
  }
}
