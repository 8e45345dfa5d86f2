/**
 * The user document (models/User.ts): required name and email, a unique
 * email, a password hash that queries leave out unless asked for, a role
 * from a fixed set with `employee` as default, an optional avatar and a list
 * of permission strings.
 */
module UserModel {
  import opened Common
  import opened Store

  datatype Role = Admin | Manager | Engineer | Accountant | Hr | Employee | Drafter

  /** The role a user gets when none is given. */
  const DefaultRole: Role := Employee

  function RoleName(r: Role): string
  {
    match r
    case Admin => "admin"
    case Manager => "manager"
    case Engineer => "engineer"
    case Accountant => "accountant"
    case Hr => "hr"
    case Employee => "employee"
    case Drafter => "drafter"
  }

  /** The schema's enum check: only the seven role names are accepted. */
  function ParseRole(s: string): (r: Option<Role>)
  {
    if s == "admin" then Some(Admin)
    else if s == "manager" then Some(Manager)
    else if s == "engineer" then Some(Engineer)
    else if s == "accountant" then Some(Accountant)
    else if s == "hr" then Some(Hr)
    else if s == "employee" then Some(Employee)
    else if s == "drafter" then Some(Drafter)
    else None
  }

  /** The enum accepts exactly the role names: parsing and naming are inverse. */
  lemma RoleNamesRoundTrip(r: Role, s: string)
    ensures ParseRole(RoleName(r)) == Some(r)
    ensures ParseRole(s) == Some(r) <==> s == RoleName(r)
  {
  }

  datatype User = User(
    name: string,
    email: string,
    password: Option<string>,  // bcrypt hash, not required; `select: false`
    role: Role,
    avatar: Option<string>,
    permissions: seq<string>)

  /** A user as every endpoint returns it: the same document without the password. */
  datatype PublicUser = PublicUser(
    id: nat,
    createdAt: int,
    name: string,
    email: string,
    role: Role,
    avatar: Option<string>,
    permissions: seq<string>)

  /** `toObject()` followed by `delete password` (or a query with `-password`). */
  function Public(d: Doc<User>): (p: PublicUser)
    ensures p.id == d.id && p.name == d.data.name && p.email == d.data.email && p.role == d.data.role
    ensures p.avatar == d.data.avatar && p.permissions == d.data.permissions && p.createdAt == d.createdAt
  {
    PublicUser(d.id, d.createdAt, d.data.name, d.data.email, d.data.role, d.data.avatar, d.data.permissions)
  }

  /** Removing the password loses nothing else: two documents with the same projection differ at most in the hash. */
  lemma PublicForgetsOnlyPassword(d1: Doc<User>, d2: Doc<User>)
    requires Public(d1) == Public(d2)
    ensures d1 == d2.(data := d2.data.(password := d1.data.password))
  {
  }

  /** The schema's constraints over the whole collection: required name and email, unique email. */
  ghost predicate ValidUsers(docs: seq<Doc<User>>)
  {
    && (forall i :: 0 <= i < |docs| ==> docs[i].data.name != "" && docs[i].data.email != "")
    && (forall i, j :: 0 <= i < j < |docs| ==> docs[i].data.email != docs[j].data.email)
  }

  function HasEmail(email: string): User -> bool
  {
    (u: User) => u.email == email
  }

  /** In a valid collection an email identifies at most one user. */
  lemma EmailIdentifiesUser(docs: seq<Doc<User>>, i: nat, j: nat)
    requires ValidUsers(docs) && i < |docs| && j < |docs|
    requires docs[i].data.email == docs[j].data.email
    ensures i == j
  {
  }
}
