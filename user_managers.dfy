/**
 * The user model and its manager: a user is a soft-deletable row with a
 * username, an email, a password column and two privilege flags; the manager
 * creates normal users and superusers with fixed flags and a hashed password.
 */
module UserManagers {
  import opened Options
  import opened SoftDelete

  /**
   * The content of the password column: a hash of a raw password, a raw
   * value written without hashing, or the marker of an unusable password.
   * The hash function itself is not modelled; `Hashed(raw)` stands for it.
   */
  datatype StoredPassword = Hashed(raw: string) | Plain(raw: string) | Unusable

  /** `set_password(raw)`: the hash of `raw`, or the unusable marker when `raw` is `None`. */
  function SetPassword(raw: Option<string>): (p: StoredPassword)
    ensures !p.Plain?
    ensures p.Unusable? <==> raw.None?
    ensures raw.Some? ==> CheckPassword(p, raw.value)
  {
    match raw
    case None => Unusable
    case Some(s) => Hashed(s)
  }

  /**
   * `check_password(raw)`: true only for a stored hash of `raw`. A column
   * holding an unhashed value names no known hasher, so it matches nothing.
   */
  predicate CheckPassword(stored: StoredPassword, raw: string)
    ensures CheckPassword(stored, raw) ==> stored == Hashed(raw)
    ensures stored.Plain? || stored.Unusable? ==> !CheckPassword(stored, raw)
  {
    stored.Hashed? && stored.raw == raw
  }

  /** After `set_password(raw)` exactly `raw` logs in; an unusable password admits nobody. */
  lemma SetPasswordChecks(raw: Option<string>, attempt: string)
    ensures CheckPassword(SetPassword(raw), attempt) <==> raw == Some(attempt)
  {
  }

  /** A password column written without hashing never matches, not even the value written. */
  lemma PlainNeverChecks(raw: string, attempt: string)
    ensures !CheckPassword(Plain(raw), attempt)
  {
  }

  /** The user model's own columns; `email` is empty when not given. */
  datatype UserFields = UserFields(
    username: string,
    email: string,
    password: StoredPassword,
    isStaff: bool,
    isSuperuser: bool)

  /**
   * The keyword arguments a caller may pass besides username and password:
   * `email`, and the three flags, which `_create_user` also passes itself.
   */
  datatype ExtraFields = ExtraFields(
    email: Option<string>,
    isStaff: Option<bool>,
    isSuperuser: Option<bool>,
    isActive: Option<bool>)

  const NoExtraFields := ExtraFields(None, None, None, None)

  /** An extra field that `_create_user` passes as well: the constructor call raises `TypeError`. */
  predicate DuplicateKeyword(extra: ExtraFields)
  {
    extra.isStaff.Some? || extra.isSuperuser.Some? || extra.isActive.Some?
  }

  /** The outcome of `_create_user`: the saved user, or the `TypeError` of a keyword given twice. */
  datatype Creation = Created(user: Record<UserFields>) | TypeError

  /** The user manager over the user table. */
  class UserManager {
    const users: Table<UserFields>

    constructor (users: Table<UserFields>)
      ensures this.users == users
    {
      this.users := users;
    }

    /**
     * `_create_user`: build an instance with the given flags and extra
     * fields (a fresh id is drawn at construction), run `set_password` on
     * it, then save it, which inserts the row.
     */
    method CreateUserWith(username: string, password: Option<string>, isStaff: bool, isSuperuser: bool,
                          isActive: bool, extra: ExtraFields, now: Stamp) returns (r: Creation)
      requires users.Valid()
      modifies users
      ensures users.Valid()
      ensures r.TypeError? <==> DuplicateKeyword(extra)
      ensures r.TypeError? ==> unchanged(users)
      ensures r.Created? ==>
        && r.user == Record(r.user.id, now, now, isActive,
                            UserFields(username, extra.email.GetOr(""), SetPassword(password), isStaff, isSuperuser))
        && r.user.id !in old(users.rows)
        && users.rows == old(users.rows)[r.user.id := r.user]
    {
      if DuplicateKeyword(extra) {
        return TypeError;
      }
      var id := users.NewId();
      var user := Record(id, now, now, isActive, UserFields(username, extra.email.GetOr(""), Plain(""), isStaff, isSuperuser));
      user := user.(fields := user.fields.(password := SetPassword(password)));
      var saved := users.Save(user, now);
      r := Created(saved);
    }

    /** `create_user`: an active user without staff or superuser rights. */
    method CreateUser(username: string, password: Option<string>, extra: ExtraFields, now: Stamp) returns (r: Creation)
      requires users.Valid()
      modifies users
      ensures users.Valid()
      ensures r.TypeError? <==> DuplicateKeyword(extra)
      ensures r.TypeError? ==> unchanged(users)
      ensures r.Created? ==>
        && r.user.isActive && !r.user.fields.isStaff && !r.user.fields.isSuperuser
        && r.user.fields == UserFields(username, extra.email.GetOr(""), SetPassword(password), false, false)
        && r.user.id !in old(users.rows)
        && users.rows == old(users.rows)[r.user.id := r.user]
    {
      r := CreateUserWith(username, password, false, false, true, extra, now);
    }

    /** `create_superuser`: an active user with staff and superuser rights. */
    method CreateSuperuser(username: string, password: Option<string>, extra: ExtraFields, now: Stamp)
      returns (r: Creation)
      requires users.Valid()
      modifies users
      ensures users.Valid()
      ensures r.TypeError? <==> DuplicateKeyword(extra)
      ensures r.TypeError? ==> unchanged(users)
      ensures r.Created? ==>
        && r.user.isActive && r.user.fields.isStaff && r.user.fields.isSuperuser
        && r.user.fields == UserFields(username, extra.email.GetOr(""), SetPassword(password), true, true)
        && r.user.id !in old(users.rows)
        && users.rows == old(users.rows)[r.user.id := r.user]
    {
      r := CreateUserWith(username, password, true, true, true, extra, now);
    }
  }
}
