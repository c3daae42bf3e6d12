/** The user manager: `create_user` checks the email, builds the row from
    the extra keyword fields (flags default to active, not staff, not
    superuser) and inserts it; `create_superuser` defaults both staff flags
    to `True`, insists on them, and goes through `create_user`. */
module Accounts {
  import opened Base
  import opened Models
  import opened Store
  import opened Text

  datatype AccountError =
    | ValueError(message: string)   // raised by the manager itself
    | TypeError                     // an unknown keyword for the model constructor
    | ValidationError               // a value a boolean column cannot take
    | IntegrityError                // a NULL in a NOT NULL column, or a taken email

  /** The extra keyword fields this model covers. */
  predicate KnownField(key: string)
  {
    key == "full_name" || key == "is_active" || key == "is_staff" || key == "is_superuser"
  }

  predicate IsBoolField(key: string)
  {
    key == "is_active" || key == "is_staff" || key == "is_superuser"
  }

  /** How a boolean column converts a non-null value on save: booleans and
      the integers 0 and 1 (which compare equal to them) as such, and the
      texts "t", "True", "1" and "f", "False", "0"; anything else is
      refused. */
  function ToBool(v: PyValue): (r: Option<bool>)
    ensures v.PyBool? ==> r == Some(v.b)
    ensures r == Some(true) <==> v in {PyBool(true), PyInt(1), PyStr("t"), PyStr("True"), PyStr("1")}
    ensures r == Some(false) <==> v in {PyBool(false), PyInt(0), PyStr("f"), PyStr("False"), PyStr("0")}
  {
    match v
    case PyBool(b) => Some(b)
    case PyInt(i) => if i == 1 then Some(true) else if i == 0 then Some(false) else None
    case PyStr(s) =>
      if s == "t" || s == "True" || s == "1" then Some(true)
      else if s == "f" || s == "False" || s == "0" then Some(false)
      else None
    case PyNone => None
  }

  /** `str(v)`, as a text column converts a non-null, non-text value. */
  function Str(v: PyValue): (r: string)
    ensures v.PyStr? ==> r == v.s
    ensures v.PyInt? && v.i >= 0 ==> r == Decimal(v.i)
  {
    match v
    case PyStr(s) => s
    case PyBool(b) => if b then "True" else "False"
    case PyInt(i) => if i < 0 then "-" + Decimal(-i) else Decimal(i)
    case PyNone => "None"
  }

  /** The boolean flag `key`: its default when absent, else its converted
      value (the caller has ruled out NULL and unconvertible values). */
  function Flag(extra: map<string, PyValue>, key: string, default: bool): bool
  {
    if key in extra && ToBool(extra[key]).Some? then ToBool(extra[key]).value else default
  }

  /** The row `create_user(email, **extra)` would insert, or why it cannot:
      a missing or empty email first, then an unknown keyword, then a flag
      value that does not convert, then a NULL. */
  function CheckNewUser(email: Option<string>, extra: map<string, PyValue>): (r: Result<User, AccountError>)
    ensures email.None? || email == Some("") ==> r == Failure(ValueError("Email must be set"))
    ensures r.Success? ==> email.Some? && r.value.email == email.value
    ensures r.Success? ==> forall k :: k in extra ==> KnownField(k) && extra[k] != PyNone
    ensures r.Success? ==> r.value.isActive == Flag(extra, "is_active", true)
                           && r.value.isStaff == Flag(extra, "is_staff", false)
                           && r.value.isSuperuser == Flag(extra, "is_superuser", false)
    ensures r == Failure(TypeError) <==> email.Some? && email.value != "" && exists k :: k in extra && !KnownField(k)
  {
    if email.None? || email.value == "" then Failure(ValueError("Email must be set"))
    else if exists k :: k in extra && !KnownField(k) then Failure(TypeError)
    else if exists k :: k in extra && IsBoolField(k) && extra[k] != PyNone && ToBool(extra[k]).None? then Failure(ValidationError)
    else if exists k :: k in extra && extra[k] == PyNone then Failure(IntegrityError)
    else
      Success(User(email.value,
                   if "full_name" in extra then Str(extra["full_name"]) else "",
                   Flag(extra, "is_active", true),
                   Flag(extra, "is_staff", false),
                   Flag(extra, "is_superuser", false)))
  }

  /** With no extra fields a user is active, neither staff nor superuser,
      and has an empty full name. */
  lemma DefaultFlags(email: string)
    requires email != ""
    ensures CheckNewUser(Some(email), map[]) == Success(User(email, "", true, false, false))
  {
  }

  /** A NULL flag is refused rather than replaced by the default. */
  lemma NullFlagRefused(email: string, key: string)
    requires email != "" && IsBoolField(key)
    ensures CheckNewUser(Some(email), map[key := PyNone]) == Failure(IntegrityError)
  {
    assert key in map[key := PyNone];
  }

  /** What `create_user` did to `db` and reported, given the checked row:
      nothing on a failed check or a taken email, otherwise the one new
      user under the next key. */
  twostate predicate CreatedUser(db: Database, checked: Result<User, AccountError>, new r: Result<Pk, AccountError>)
    reads db
  {
    if checked.Failure? || old(db.EmailTaken(checked.value.email)) then
      && r == (if checked.Failure? then Failure(checked.error) else Failure(IntegrityError))
      && db.tables == old(db.tables) && db.nextId == old(db.nextId) && db.clock == old(db.clock)
    else
      && r == Success(old(db.nextId))
      && db.tables == old(db.tables).(users := old(db.tables.users)[old(db.nextId) := checked.value])
      && db.nextId == old(db.nextId) + 1 && db.clock == old(db.clock)
  }

  /** `create_user(email, password, **extra_fields)`. */
  method CreateUser(db: Database, email: Option<string>, extra: map<string, PyValue>) returns (r: Result<Pk, AccountError>)
    requires db.Valid()
    modifies db
    ensures db.Valid()
    ensures CreatedUser(db, CheckNewUser(email, extra), r)
  {
    var checked := CheckNewUser(email, extra);
    if checked.Failure? {
      return Failure(checked.error);
    }
    var id := db.InsertUser(checked.value);
    r := if id.Some? then Success(id.value) else Failure(IntegrityError);
  }

  /** `extra_fields.setdefault('is_staff', True)` and the same for
      `is_superuser`. */
  function SuperuserFields(extra: map<string, PyValue>): (f: map<string, PyValue>)
    ensures f.Keys == extra.Keys + {"is_staff", "is_superuser"}
    ensures forall k :: k in extra ==> f[k] == extra[k]
    ensures "is_staff" !in extra ==> f["is_staff"] == PyBool(true)
    ensures "is_superuser" !in extra ==> f["is_superuser"] == PyBool(true)
  {
    var f := if "is_staff" in extra then extra else extra["is_staff" := PyBool(true)];
    if "is_superuser" in f then f else f["is_superuser" := PyBool(true)]
  }

  /** `create_superuser(email, password, **extra_fields)`: the defaults, the
      two `is not True` checks (before the email is looked at), then
      `create_user`. */
  method CreateSuperuser(db: Database, email: Option<string>, extra: map<string, PyValue>) returns (r: Result<Pk, AccountError>)
    requires db.Valid()
    modifies db
    ensures db.Valid()
    ensures var f := SuperuserFields(extra);
            if f["is_staff"] != PyBool(true) || f["is_superuser"] != PyBool(true) then
              && r.Failure? && r.error.ValueError?
              && db.tables == old(db.tables) && db.nextId == old(db.nextId) && db.clock == old(db.clock)
            else
              CreatedUser(db, CheckNewUser(email, f), r)
    ensures r.Success? ==> r.value in db.tables.users && db.tables.users[r.value].isStaff && db.tables.users[r.value].isSuperuser
  {
    var fields := extra;
    if "is_staff" !in fields {
      fields := fields["is_staff" := PyBool(true)];
    }
    if "is_superuser" !in fields {
      fields := fields["is_superuser" := PyBool(true)];
    }
    assert fields == SuperuserFields(extra);
    if fields["is_staff"] != PyBool(true) {
      return Failure(ValueError("Superuser must have is_staff=True."));
    }
    if fields["is_superuser"] != PyBool(true) {
      return Failure(ValueError("Superuser must have is_superuser=True."));
    }
    r := CreateUser(db, email, fields);
  }

  /** Explicit flags other than `True` (including `1` and `"True"`, which a
      plain user would accept) are refused for a superuser, and the flags
      left out become `True`. */
  lemma SuperuserFlagsMustBeTrue(extra: map<string, PyValue>, key: string)
    requires key == "is_staff" || key == "is_superuser"
    ensures key !in extra ==> SuperuserFields(extra)[key] == PyBool(true)
    ensures key in extra && extra[key] != PyBool(true) ==> SuperuserFields(extra)[key] != PyBool(true)
    ensures ToBool(PyInt(1)) == Some(true) && PyInt(1) != PyBool(true)
  {
  }
}
