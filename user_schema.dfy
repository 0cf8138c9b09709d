/**
 * The user document: e-mail normalisation, the role enumeration and its
 * default, the password rules, the hash-on-modify save hook and the
 * default projection without the password.
 */
module UserSchema {
  import opened Wrappers
  import opened Text
  import HostelSchema

  datatype Role = Student | Owner

  /** The stored spellings: a student is 'user'. */
  function RoleLabel(r: Role): string {
    match r
    case Student => "user"
    case Owner => "owner"
  }

  /** The role field: missing means 'user', anything but 'user' or 'owner' fails validation. */
  function ParseRole(s: Option<string>): (r: Option<Role>)
    ensures s.None? ==> r == Some(Student)
    ensures s.Some? ==> (r.Some? <==> s.value in {"user", "owner"})
    ensures s.Some? && r.Some? ==> RoleLabel(r.value) == s.value
  {
    match s
    case None => Some(Student)
    case Some(v) =>
      if v == "user" then Some(Student)
      else if v == "owner" then Some(Owner)
      else None
  }

  const MinPasswordLength: nat := 6

  /** The password field holds a hash once the document is saved. */
  datatype User = User(
    name: string,
    email: string,
    password: string,
    role: Role,
    phone: string,
    joinedDate: nat,
    savedHostels: seq<HostelSchema.HostelId>)

  /** What a query returns by default: every field but the password. */
  datatype UserView = UserView(
    name: string,
    email: string,
    role: Role,
    phone: string,
    joinedDate: nat,
    savedHostels: seq<HostelSchema.HostelId>)

  function View(u: User): (v: UserView)
    ensures v.name == u.name && v.email == u.email && v.role == u.role
    ensures v.phone == u.phone && v.joinedDate == u.joinedDate && v.savedHostels == u.savedHostels
  {
    UserView(u.name, u.email, u.role, u.phone, u.joinedDate, u.savedHostels)
  }

  /** The lowercase and trim setters of the email field. */
  function NormalizeEmail(s: string): (r: string)
    ensures forall i :: 0 <= i < |r| ==> !IsUpper(r[i])
    ensures r == [] || (!IsSpace(r[0]) && !IsSpace(r[|r| - 1]))
    ensures exists lo :: TrimmedAt(Lower(s), r, lo)
  {
    var r := Trim(Lower(s));
    assert exists lo :: TrimmedAt(Lower(s), r, lo);
    r
  }

  /** Normalising a stored e-mail address again leaves it as it is. */
  lemma {:induction false} NormalizeEmailIdempotent(s: string)
    ensures NormalizeEmail(NormalizeEmail(s)) == NormalizeEmail(s)
  {
    var r := NormalizeEmail(s);
    assert Lower(r) == r;
    TrimNoOp(r);
  }

  /** The pre-save hook: the password is replaced by its hash only when it was modified. */
  function PreSave(u: User, passwordModified: bool, hash: string -> string): (r: User)
    ensures passwordModified ==> r.password == hash(u.password)
    ensures !passwordModified ==> r == u
    ensures r == u.(password := r.password)
  {
    if passwordModified then u.(password := hash(u.password)) else u
  }

  datatype UserInput = UserInput(name: string, email: string, password: string, role: Option<string>, phone: string)

  datatype UserError = InvalidField(path: string) | DuplicateEmail

  predicate UserInputValid(inp: UserInput) {
    && inp.name != ""
    && NormalizeEmail(inp.email) != ""
    && |inp.password| >= MinPasswordLength
    && ParseRole(inp.role).Some?
  }

  /** A new user document: setters, validation (on the clear-text password),
      then the save hook, which hashes the new password. */
  function NewUser(inp: UserInput, now: nat, hash: string -> string): (r: Result<User, UserError>)
    ensures r.Ok? <==> UserInputValid(inp)
    ensures r.Ok? ==> r.value.email == NormalizeEmail(inp.email)
    ensures r.Ok? ==> r.value.password == hash(inp.password)
    ensures r.Ok? ==> r.value.role == ParseRole(inp.role).value
    ensures r.Ok? ==> r.value.name == inp.name && r.value.phone == inp.phone
    ensures r.Ok? ==> r.value.joinedDate == now && r.value.savedHostels == []
  {
    var email := NormalizeEmail(inp.email);
    if inp.name == "" then Err(InvalidField("name"))
    else if email == "" then Err(InvalidField("email"))
    else if |inp.password| < MinPasswordLength then Err(InvalidField("password"))
    else if ParseRole(inp.role).None? then Err(InvalidField("role"))
    else
      var u := User(inp.name, email, inp.password, ParseRole(inp.role).value, inp.phone, now, []);
      Ok(PreSave(u, true, hash))
  }

  /** The unique index on email. */
  ghost predicate EmailsUnique(users: map<HostelSchema.UserId, User>) {
    forall a, b :: a in users && b in users && a != b ==> users[a].email != users[b].email
  }

  predicate EmailTaken(users: map<HostelSchema.UserId, User>, email: string) {
    exists id | id in users :: users[id].email == email
  }

  /** A user stored under a new id with an email nobody has keeps emails unique. */
  lemma NewEmailKeepsUnique(users: map<HostelSchema.UserId, User>, id: HostelSchema.UserId, u: User)
    requires EmailsUnique(users) && id !in users && !EmailTaken(users, u.email)
    ensures EmailsUnique(users[id := u])
  {
    var m := users[id := u];
    forall a, b | a in m && b in m && a != b
      ensures m[a].email != m[b].email
    {
      if a == id {
        assert b in users;
      } else if b == id {
        assert a in users;
      }
    }
  }
}
