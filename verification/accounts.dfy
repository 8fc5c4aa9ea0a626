/** The custom user record and its manager: users are identified by email,
    `create_user` insists on an email, and `create_superuser` insists on the
    staff and superuser flags. */
module Accounts {

  import opened Wrappers
  import opened Roles
  import Store

  /** The stored credential; hashing is not modelled, only whether a password is usable. */
  datatype Password = Usable(raw: string) | Unusable

  datatype User = User(
    id: nat,
    email: string,
    password: Password,
    role: string,
    isStaff: bool,
    isSuperuser: bool,
    isActive: bool)

  type UserTable = map<nat, User>

  /** Rows are keyed by their own id and no two rows share an email (`unique=True`). */
  predicate TableValid(users: UserTable) {
    && (forall id :: id in users ==> users[id].id == id)
    && (forall a, b :: a in users && b in users && users[a].email == users[b].email ==> a == b)
  }

  predicate EmailTaken(users: UserTable, email: string) {
    exists id :: id in users && users[id].email == email
  }

  /** A Python value passed as a keyword argument. */
  datatype PyValue = PyBool(b: bool) | PyInt(i: int) | PyStr(s: string) | PyNone

  /** The keyword arguments `create_user` and `create_superuser` forward to the user model;
      `None` means the keyword was not passed. */
  datatype ExtraFields = ExtraFields(
    isStaff: Option<PyValue>,
    isSuperuser: Option<PyValue>,
    isActive: Option<PyValue>,
    role: Option<string>)

  const NoExtra: ExtraFields := ExtraFields(None, None, None, None)

  /** What the manager raises: a `ValueError` with its message, a flag value the boolean
      column cannot store, or an email another user already has. */
  datatype ManagerError =
    | ValueError(message: string)
    | InvalidFlag(field: string)
    | EmailInUse

  const EmailMustBeSet: string := "The Email must be set"
  const SuperuserMustBeStaff: string := "Superuser must have is_staff=True."
  const SuperuserMustBeSuperuser: string := "Superuser must have is_superuser=True."

  /** How a boolean column converts a Python value on save; `None` when it refuses it. */
  function ToBool(v: PyValue): (r: Option<bool>)
    ensures v.PyBool? ==> r == Some(v.b)
    ensures v.PyNone? ==> r.None?
  {
    match v
    case PyBool(b) => Some(b)
    case PyInt(i) => if i == 1 then Some(true) else if i == 0 then Some(false) else None
    case PyStr(s) =>
      if s == "t" || s == "True" || s == "1" then Some(true)
      else if s == "f" || s == "False" || s == "0" then Some(false)
      else None
    case PyNone => None
  }

  /** The stored value of a flag keyword, falling back to the column default. */
  function Flag(arg: Option<PyValue>, default: bool): Option<bool> {
    match arg
    case None => Some(default)
    case Some(v) => ToBool(v)
  }

  /** Python's `not email` for the email argument. */
  predicate EmailMissing(email: Option<string>) {
    email.None? || email.value == ""
  }

  function SetPassword(password: Option<string>): Password {
    match password
    case None => Unusable
    case Some(p) => Usable(p)
  }

  /** `create_user`: rejects a missing email, normalises it, builds the user from the
      keyword arguments (defaults: role `admin`, not staff, not superuser, active) and
      inserts it under the next id. `normalize` stands for the manager's email normalisation. */
  function CreateUser(
    users: UserTable, email: Option<string>, password: Option<string>,
    extra: ExtraFields, normalize: string -> string): (r: Result<(UserTable, User), ManagerError>)
    ensures r == Err(ValueError(EmailMustBeSet)) <==> EmailMissing(email)
    ensures r.Ok? <==>
      && !EmailMissing(email)
      && Flag(extra.isSuperuser, false).Some?
      && Flag(extra.isStaff, false).Some?
      && Flag(extra.isActive, true).Some?
      && !EmailTaken(users, normalize(email.value))
    ensures r == Err(InvalidFlag("is_superuser")) <==>
      !EmailMissing(email) && Flag(extra.isSuperuser, false).None?
    ensures r == Err(InvalidFlag("is_staff")) <==>
      !EmailMissing(email) && Flag(extra.isSuperuser, false).Some? && Flag(extra.isStaff, false).None?
    ensures r == Err(InvalidFlag("is_active")) <==>
      && !EmailMissing(email)
      && Flag(extra.isSuperuser, false).Some? && Flag(extra.isStaff, false).Some?
      && Flag(extra.isActive, true).None?
    ensures r == Err(EmailInUse) <==>
      && !EmailMissing(email)
      && Flag(extra.isSuperuser, false).Some? && Flag(extra.isStaff, false).Some?
      && Flag(extra.isActive, true).Some?
      && EmailTaken(users, normalize(email.value))
    ensures r.Ok? ==>
      var (users', u) := r.value;
      && u.id !in users
      && users' == users[u.id := u]
      && u.email == normalize(email.value)
      && u.role == extra.role.GetOr(Key(DefaultRole))
      && u.password == SetPassword(password)
      && u.isStaff == Flag(extra.isStaff, false).value
      && u.isSuperuser == Flag(extra.isSuperuser, false).value
      && u.isActive == Flag(extra.isActive, true).value
  {
    if EmailMissing(email) then Err(ValueError(EmailMustBeSet))
    else
      var e := normalize(email.value);
      var superuser := Flag(extra.isSuperuser, false);
      var staff := Flag(extra.isStaff, false);
      var active := Flag(extra.isActive, true);
      if superuser.None? then Err(InvalidFlag("is_superuser"))
      else if staff.None? then Err(InvalidFlag("is_staff"))
      else if active.None? then Err(InvalidFlag("is_active"))
      else if EmailTaken(users, e) then Err(EmailInUse)
      else
        var id := Store.NextId(users);
        var u := User(id, e, SetPassword(password), extra.role.GetOr(Key(DefaultRole)),
                      staff.value, superuser.value, active.value);
        Ok((users[id := u], u))
  }

  /** Creating a user keeps ids matching their keys and emails unique. */
  lemma CreateUserKeepsTableValid(
    users: UserTable, email: Option<string>, password: Option<string>,
    extra: ExtraFields, normalize: string -> string)
    requires TableValid(users)
    requires CreateUser(users, email, password, extra, normalize).Ok?
    ensures TableValid(CreateUser(users, email, password, extra, normalize).value.0)
  {
    var (users', u) := CreateUser(users, email, password, extra, normalize).value;
    assert u.id == Store.NextId(users);
    forall a, b | a in users' && b in users' && users'[a].email == users'[b].email
      ensures a == b
    {
      if a != u.id && b != u.id {
        assert users'[a] == users[a] && users'[b] == users[b];
      }
    }
  }

  /** A user created with no keyword arguments is an active, unprivileged `admin`. */
  lemma CreateUserDefaults(
    users: UserTable, email: Option<string>, password: Option<string>, normalize: string -> string)
    requires CreateUser(users, email, password, NoExtra, normalize).Ok?
    ensures var u := CreateUser(users, email, password, NoExtra, normalize).value.1;
      u.role == "admin" && !u.isStaff && !u.isSuperuser && u.isActive
  {
  }

  /** Python's `dict.setdefault`: keeps a passed value, fills in a missing one. */
  function SetDefault(arg: Option<PyValue>, default: PyValue): Option<PyValue> {
    if arg.Some? then arg else Some(default)
  }

  /** Python's `value is True`, on `dict.get`'s result (`None` for a missing key). */
  predicate IsTrue(arg: Option<PyValue>) {
    arg == Some(PyBool(true))
  }

  /** `create_superuser`: defaults the three flags to True, insists that the staff and
      superuser flags are exactly True, then delegates to `create_user`. */
  function CreateSuperuser(
    users: UserTable, email: Option<string>, password: Option<string>,
    extra: ExtraFields, normalize: string -> string): (r: Result<(UserTable, User), ManagerError>)
    ensures r == Err(ValueError(SuperuserMustBeStaff)) <==>
      extra.isStaff.Some? && extra.isStaff != Some(PyBool(true))
    ensures r == Err(ValueError(SuperuserMustBeSuperuser)) <==>
      && (extra.isStaff.None? || extra.isStaff == Some(PyBool(true)))
      && extra.isSuperuser.Some? && extra.isSuperuser != Some(PyBool(true))
    ensures (extra.isStaff.None? || extra.isStaff == Some(PyBool(true)))
            && (extra.isSuperuser.None? || extra.isSuperuser == Some(PyBool(true))) ==>
      && (r == Err(ValueError(EmailMustBeSet)) <==> EmailMissing(email))
      && (r == Err(InvalidFlag("is_active")) <==> !EmailMissing(email) && Flag(extra.isActive, true).None?)
      && (r == Err(EmailInUse) <==>
            !EmailMissing(email) && Flag(extra.isActive, true).Some? && EmailTaken(users, normalize(email.value)))
    ensures r.Ok? ==> r.value.1.isStaff && r.value.1.isSuperuser
    ensures r.Ok? <==>
      && (extra.isStaff.None? || extra.isStaff == Some(PyBool(true)))
      && (extra.isSuperuser.None? || extra.isSuperuser == Some(PyBool(true)))
      && !EmailMissing(email)
      && Flag(extra.isActive, true).Some?
      && !EmailTaken(users, normalize(email.value))
    ensures r.Ok? ==>
      var (users', u) := r.value;
      && u.id !in users
      && users' == users[u.id := u]
      && u.email == normalize(email.value)
      && u.password == SetPassword(password)
      && u.role == extra.role.GetOr(Key(DefaultRole))
      && u.isActive == Flag(extra.isActive, true).value
  {
    var extra' := extra.(
      isStaff := SetDefault(extra.isStaff, PyBool(true)),
      isSuperuser := SetDefault(extra.isSuperuser, PyBool(true)),
      isActive := SetDefault(extra.isActive, PyBool(true)));
    if !IsTrue(extra'.isStaff) then Err(ValueError(SuperuserMustBeStaff))
    else if !IsTrue(extra'.isSuperuser) then Err(ValueError(SuperuserMustBeSuperuser))
    else CreateUser(users, email, password, extra', normalize)
  }

  /** With no keyword arguments a superuser is staff, superuser and active. */
  lemma SuperuserDefaults(
    users: UserTable, email: Option<string>, password: Option<string>, normalize: string -> string)
    requires !EmailMissing(email) && !EmailTaken(users, normalize(email.value))
    ensures var r := CreateSuperuser(users, email, password, NoExtra, normalize);
      r.Ok? && r.value.1.isStaff && r.value.1.isSuperuser && r.value.1.isActive
  {
  }

  /** The active flag is never checked: an explicitly inactive superuser is created. */
  lemma InactiveSuperuserAccepted(
    users: UserTable, email: Option<string>, password: Option<string>, normalize: string -> string)
    requires !EmailMissing(email) && !EmailTaken(users, normalize(email.value))
    ensures var r := CreateSuperuser(users, email, password,
                                     NoExtra.(isActive := Some(PyBool(false))), normalize);
      r.Ok? && !r.value.1.isActive
  {
  }

  /** The user's string form. The model removes `username`, so it always reads `None`. */
  function UserStr(u: User): string {
    "None (" + u.role + ")"
  }

  /** The string form tells users apart only by role: their emails never show. */
  lemma UserStrIgnoresEmail(u: User, v: User)
    ensures UserStr(u) == UserStr(v) <==> u.role == v.role
  {
    if UserStr(u) == UserStr(v) {
      var s := UserStr(u);
      assert |u.role| == |v.role|;
      assert u.role == s[6..|s| - 1];
      assert v.role == UserStr(v)[6..|s| - 1];
    }
  }
}
