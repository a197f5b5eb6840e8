/**
 * The user viewset: the cached listing of active users, the unscoped lookup
 * by key, password change, registration, username update and the bulk soft
 * delete.
 */
module UserViews {
  import opened Options
  import opened SoftDelete
  import opened UserManagers
  import opened UserSerializers
  import opened TextFields

  /** One listed user: `values("id", "username", "email")`. */
  datatype UserRow = UserRow(id: Id, username: string, email: string)

  /** The active users, projected to id, username and email. */
  function ListedUsers(rows: map<Id, Record<UserFields>>): (listed: map<Id, UserRow>)
    ensures listed.Keys == ActiveObjects(rows).Keys
    ensures forall k :: k in listed ==> listed[k] == UserRow(k, rows[k].fields.username, rows[k].fields.email)
  {
    map k | k in rows && rows[k].isActive :: UserRow(k, rows[k].fields.username, rows[k].fields.email)
  }

  datatype PasswordOutcome = PasswordChanged | PasswordUserMissing | PasswordRejected(verdict: Validated<PasswordChange>)
  datatype CreateOutcome = UserCreated(user: Record<UserFields>) | CreateRejected(keys: set<Key>)
  datatype UpdateOutcome = UserUpdated | UpdateUserMissing | UpdateRejected(keys: set<Key>)
  datatype DestroyOutcome = UserDeleted | UserMissing

  /**
   * The columns `UserSerializer.save()` writes. The serializer's own `create`
   * sits inside its `Meta` class and is never called, so the model
   * serializer's default one runs: it passes the validated username and
   * password to the manager's plain `create`, and the raw password is
   * written to the password column as it came.
   */
  function CreatedFields(username: string, password: string): (f: UserFields)
    ensures f.password == Plain(password)
    ensures f.username == username && f.email == "" && !f.isStaff && !f.isSuperuser
  {
    UserFields(username, "", Plain(password), false, false)
  }

  /** The same columns with the password hashed, as the manager's `create_user` would write them. */
  function HashedCreatedFields(username: string, password: string): (f: UserFields)
    ensures f == CreatedFields(username, password).(password := SetPassword(Some(password)))
  {
    UserFields(username, "", Hashed(password), false, false)
  }

  /** A user created through the viewset cannot log in with the password it registered. */
  lemma CreatedUserCannotLogIn(username: string, password: string)
    ensures !CheckPassword(CreatedFields(username, password).password, password)
  {
    PlainNeverChecks(password, password);
  }

  /** With the password hashed, the registered password and only it logs in. */
  lemma HashedCreatedUserLogsIn(username: string, password: string, attempt: string)
    ensures CheckPassword(HashedCreatedFields(username, password).password, attempt) <==> attempt == password
  {
    SetPasswordChecks(Some(password), attempt);
  }

  /** A soft-deleted user leaves the listing while the unscoped lookup still finds it; no other row moves. */
  lemma DestroyedUserHidden(rows: map<Id, Record<UserFields>>, pk: Id)
    requires pk in rows
    ensures var after := rows[pk := rows[pk].(isActive := false)];
      && pk !in ListedUsers(after)
      && GetObjectById(after, Uuid(pk)) == Found(rows[pk].(isActive := false))
      && forall k :: k != pk ==> (k in ListedUsers(after) <==> k in ListedUsers(rows))
  {
  }

  /** The bulk update on a user who is already inactive finds the row and changes nothing. */
  lemma DestroyInactiveIsNoChange(rows: map<Id, Record<UserFields>>, pk: Id)
    requires pk in rows && !rows[pk].isActive
    ensures rows[pk := rows[pk].(isActive := false)] == rows
  {
    assert rows[pk].(isActive := false) == rows[pk];
  }

  /** One instance of the user viewset over the user table. */
  class UserViewSet {
    const users: Table<UserFields>
    /** The `queryset` attribute, unset until `get_queryset` fills it. */
    var queryset: Option<map<Id, UserRow>>

    constructor (users: Table<UserFields>)
      ensures this.users == users && queryset.None?
    {
      this.users := users;
      queryset := None;
    }

    /**
     * `get_queryset`: when the attribute is unset, store the listing of the
     * active users and return it; when it is already set, return nothing.
     */
    method GetQueryset() returns (r: Option<map<Id, UserRow>>)
      modifies this
      ensures old(queryset).None? ==> queryset == Some(ListedUsers(users.rows)) && r == queryset
      ensures old(queryset).Some? ==> queryset == old(queryset) && r.None?
    {
      if queryset.None? {
        queryset := Some(ListedUsers(users.rows));
        r := queryset;
      } else {
        r := None;
      }
    }

    /** `get_object`: a lookup over every user row, active or not. */
    function GetObject(pk: Id): (r: Lookup<UserFields>)
      reads users
      ensures r.Found? <==> pk in users.rows
      ensures r.Found? ==> r.record == users.rows[pk]
    {
      GetObjectById(users.rows, Uuid(pk))
    }

    /**
     * `set_password`: look the user up (a miss is not found), check the
     * change-password form, and only when it passes hash the new password
     * into the row and save it.
     */
    method SetPassword(pk: Id, password: Option<string>, confirm: Option<string>, now: Stamp)
      returns (r: PasswordOutcome)
      requires users.Valid()
      modifies users
      ensures users.Valid()
      ensures r == PasswordUserMissing <==> pk !in old(users.rows)
      ensures r.PasswordRejected? <==> pk in old(users.rows) && !PasswordFormCheck(password, confirm).Passed?
      ensures r.PasswordRejected? ==> r.verdict == PasswordFormCheck(password, confirm)
      ensures r != PasswordChanged ==> unchanged(users)
      ensures r == PasswordChanged ==>
        && password.Some?
        && users.rows == old(users.rows)[pk := old(users.rows)[pk].(
             updated := now, fields := old(users.rows)[pk].fields.(password := UserManagers.SetPassword(Some(Strip(password.value)))))]
    {
      var found := GetObject(pk);
      if found.Http404? {
        return PasswordUserMissing;
      }
      var form := PasswordFormCheck(password, confirm);
      if !form.Passed? {
        return PasswordRejected(form);
      }
      var user := found.record;
      user := user.(fields := user.fields.(password := UserManagers.SetPassword(Some(form.data.password))));
      var saved := users.Save(user, now);
      r := PasswordChanged;
    }

    /**
     * `create` as written: the serializer's rules, then the default save,
     * which stores the trimmed username and the trimmed password as it is.
     */
    method Create(username: Option<string>, password: Option<string>, now: Stamp) returns (r: CreateOutcome)
      requires users.Valid()
      modifies users
      ensures users.Valid()
      ensures r.CreateRejected? <==> UserErrors(old(users.rows), username, password) != {}
      ensures r.CreateRejected? ==> r.keys == UserErrors(old(users.rows), username, password) && unchanged(users)
      ensures r.UserCreated? ==>
        && r.user == Record(r.user.id, now, now, true, CreatedFields(Strip(username.value), Strip(password.value)))
        && r.user.id !in old(users.rows)
        && users.rows == old(users.rows)[r.user.id := r.user]
    {
      var bad := UserErrors(users.rows, username, password);
      if bad != {} {
        return CreateRejected(bad);
      }
      var id := users.NewId();
      var user := users.Save(Record(id, now, now, true, CreatedFields(Strip(username.value), Strip(password.value))), now);
      r := UserCreated(user);
    }

    /** `create` with the password hashed before the row is written. */
    method CreateHashed(username: Option<string>, password: Option<string>, now: Stamp) returns (r: CreateOutcome)
      requires users.Valid()
      modifies users
      ensures users.Valid()
      ensures r.CreateRejected? <==> UserErrors(old(users.rows), username, password) != {}
      ensures r.CreateRejected? ==> r.keys == UserErrors(old(users.rows), username, password) && unchanged(users)
      ensures r.UserCreated? ==>
        && r.user == Record(r.user.id, now, now, true, HashedCreatedFields(Strip(username.value), Strip(password.value)))
        && CheckPassword(r.user.fields.password, Strip(password.value))
        && r.user.id !in old(users.rows)
        && users.rows == old(users.rows)[r.user.id := r.user]
    {
      var bad := UserErrors(users.rows, username, password);
      if bad != {} {
        return CreateRejected(bad);
      }
      var id := users.NewId();
      var user := users.Save(Record(id, now, now, true, HashedCreatedFields(Strip(username.value), Strip(password.value))), now);
      r := UserCreated(user);
    }

    /** `update`: look the user up, check the new username, and only when it passes write it and save. */
    method Update(pk: Id, username: Option<string>, now: Stamp) returns (r: UpdateOutcome)
      requires users.Valid()
      modifies users
      ensures users.Valid()
      ensures r == UpdateUserMissing <==> pk !in old(users.rows)
      ensures r.UpdateRejected? <==> pk in old(users.rows) && UpdateErrors(old(users.rows), pk, username) != {}
      ensures r.UpdateRejected? ==> r.keys == UpdateErrors(old(users.rows), pk, username)
      ensures r != UserUpdated ==> unchanged(users)
      ensures r == UserUpdated ==>
        && username.Some?
        && users.rows == old(users.rows)[pk := old(users.rows)[pk].(
             updated := now, fields := old(users.rows)[pk].fields.(username := Strip(username.value)))]
    {
      var found := GetObject(pk);
      if found.Http404? {
        return UpdateUserMissing;
      }
      var bad := UpdateErrors(users.rows, pk, username);
      if bad != {} {
        return UpdateRejected(bad);
      }
      var user := found.record;
      var saved := users.Save(user.(fields := user.fields.(username := Strip(username.value))), now);
      r := UserUpdated;
    }

    /**
     * `destroy`: clear the flag of every row with this key, active or not,
     * and report success exactly when one row matched.
     */
    method Destroy(pk: Id) returns (r: DestroyOutcome)
      requires users.Valid()
      modifies users
      ensures users.Valid()
      ensures r == UserDeleted <==> pk in old(users.rows)
      ensures users.rows == if pk in old(users.rows) then old(users.rows)[pk := old(users.rows)[pk].(isActive := false)]
                            else old(users.rows)
    {
      var count := users.DeactivateWhereId(pk);
      r := if count == 1 then UserDeleted else UserMissing;
    }
  }
}
