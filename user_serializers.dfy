/**
 * The user serializers: the length rule on a new password, the change-password
 * form with its confirmation, the registration form and its save, and the
 * field rules the user viewset relies on for create and update.
 */
module UserSerializers {
  import opened Options
  import opened SoftDelete
  import opened UserManagers
  import opened TextFields

  /** The payload keys an error can be reported under. */
  datatype Key = Username | Email | Password | PasswordConfirm | Password2

  /** A serializer's verdict: the validated data, errors keyed by field, or errors on no field. */
  datatype Validated<T> = Passed(data: T) | KeyErrors(keys: set<Key>) | NonKeyError(message: string)

  const PasswordMinLength := 8
  const PasswordMaxLength := 128
  const UsernameMaxLength := 10

  const PasswordTooShortMessage := "La contraseña debe tener al menos 8 caracteres"
  const PasswordsTooShortMessage := "La contraseña debe tener por lo menos 8 caracteres."

  /** `UserSerializer.validate_password`: fewer than eight characters is an error, else the value passes unchanged. */
  function ValidatePassword(value: string): (r: Validated<string>)
    ensures r.Passed? <==> |value| >= PasswordMinLength
    ensures r.Passed? ==> r.data == value
    ensures !r.Passed? ==> r == NonKeyError(PasswordTooShortMessage)
  {
    if |value| < PasswordMinLength then NonKeyError(PasswordTooShortMessage) else Passed(value)
  }

  /** No user row but `except` holds this username; the table's unique check counts inactive rows too. */
  predicate UsernameFree(rows: map<Id, Record<UserFields>>, username: string, except: Option<Id>)
  {
    forall k :: k in rows && Some(k) != except ==> rows[k].fields.username != username
  }

  /** The `username` column's rules on the trimmed text: required, not blank, at most ten characters, unique. */
  predicate UsernameOk(rows: map<Id, Record<UserFields>>, username: Option<string>, except: Option<Id>)
  {
    && username.Some? && 0 < |Strip(username.value)| <= UsernameMaxLength
    && UsernameFree(rows, Strip(username.value), except)
  }

  /**
   * The `password` column's rules on the trimmed text (required, not blank,
   * at most 128 characters), then `validate_password` on that trimmed text,
   * which runs only on a value that passed them.
   */
  predicate PasswordColumnOk(password: Option<string>)
  {
    && password.Some? && 0 < |Strip(password.value)| <= PasswordMaxLength
    && ValidatePassword(Strip(password.value)).Passed?
  }

  /** The keys `UserSerializer(data=...)` reports errors under, for the fields `username` and `password`. */
  function UserErrors(rows: map<Id, Record<UserFields>>, username: Option<string>, password: Option<string>)
    : (bad: set<Key>)
    ensures bad <= {Username, Password}
    ensures Username in bad <==> !UsernameOk(rows, username, None)
    ensures Password in bad <==> !PasswordColumnOk(password)
  {
    (if UsernameOk(rows, username, None) then {} else {Username})
    + (if PasswordColumnOk(password) then {} else {Password})
  }

  /** A password passes the serializer exactly when, trimmed, it is one of 8 to 128 characters. */
  lemma PasswordColumnBounds(password: Option<string>)
    ensures PasswordColumnOk(password) <==>
      password.Some? && PasswordMinLength <= |Strip(password.value)| <= PasswordMaxLength
  {
  }

  /** `UserUpdateSerializer(user, data=...)`: `username` only, unique among the other rows. */
  function UpdateErrors(rows: map<Id, Record<UserFields>>, pk: Id, username: Option<string>): (bad: set<Key>)
    ensures bad <= {Username}
    ensures bad == {} <==> UsernameOk(rows, username, Some(pk))
  {
    if UsernameOk(rows, username, Some(pk)) then {} else {Username}
  }

  /**
   * A username that no other row holds passes the update, whatever the row's
   * own username: in particular, keeping one's own username is never a
   * uniqueness error.
   */
  lemma KeepOwnUsername(rows: map<Id, Record<UserFields>>, pk: Id, username: string)
    requires pk in rows && 0 < |Strip(username)| <= UsernameMaxLength
    requires forall k :: k in rows && k != pk ==> rows[k].fields.username != Strip(username)
    ensures UpdateErrors(rows, pk, Some(username)) == {}
    ensures Strip(rows[pk].fields.username) == Strip(username) ==> UpdateErrors(rows, pk, Some(rows[pk].fields.username)) == {}
  {
  }

  /// The change-password form

  /** The validated change-password form. */
  datatype PasswordChange = PasswordChange(password: string, passwordConfirm: string)

  /** Each field of the form: required, 8 to 128 characters once trimmed. */
  predicate PasswordFieldOk(value: Option<string>)
  {
    value.Some? && PasswordMinLength <= |Strip(value.value)| <= PasswordMaxLength
  }

  /**
   * `PasswordSerializer.validate`: first the length rule on both values (an
   * error on no field), then equality (an error keyed `password_confirm`).
   */
  function PasswordValidate(d: PasswordChange): (r: Validated<PasswordChange>)
    ensures (|d.password| < PasswordMinLength || |d.passwordConfirm| < PasswordMinLength) <==>
      r == NonKeyError(PasswordsTooShortMessage)
    ensures r == KeyErrors({PasswordConfirm}) <==>
      |d.password| >= PasswordMinLength && |d.passwordConfirm| >= PasswordMinLength && d.password != d.passwordConfirm
    ensures r.Passed? ==> r.data == d && d.password == d.passwordConfirm
  {
    if |d.password| < PasswordMinLength || |d.passwordConfirm| < PasswordMinLength then
      NonKeyError(PasswordsTooShortMessage)
    else if d.password != d.passwordConfirm then
      KeyErrors({PasswordConfirm})
    else
      Passed(d)
  }

  /**
   * `PasswordSerializer(data=...).is_valid()`: the field rules, then
   * `validate` on the trimmed values of fields that passed them.
   */
  function PasswordFormCheck(password: Option<string>, confirm: Option<string>): (r: Validated<PasswordChange>)
    ensures r.Passed? ==> PasswordFieldOk(password) && PasswordFieldOk(confirm)
    ensures r.KeyErrors? ==> r.keys != {} && r.keys <= {Password, PasswordConfirm}
    ensures !PasswordFieldOk(password) ==> r == KeyErrors({Password} + (if PasswordFieldOk(confirm) then {} else {PasswordConfirm}))
  {
    var bad := (if PasswordFieldOk(password) then {} else {Password})
             + (if PasswordFieldOk(confirm) then {} else {PasswordConfirm});
    if bad != {} then KeyErrors(bad)
    else PasswordValidate(PasswordChange(Strip(password.value), Strip(confirm.value)))
  }

  /**
   * The form passes exactly when both values are present, 8 to 128
   * characters long once trimmed and equal once trimmed; the length test
   * inside `validate` can never fire, because the field rules already reject
   * short values.
   */
  lemma PasswordFormCheckSpec(password: Option<string>, confirm: Option<string>)
    ensures PasswordFormCheck(password, confirm).Passed? <==>
      PasswordFieldOk(password) && PasswordFieldOk(confirm) && Strip(password.value) == Strip(confirm.value)
    ensures PasswordFormCheck(password, confirm).Passed? ==>
      PasswordFormCheck(password, confirm).data == PasswordChange(Strip(password.value), Strip(password.value))
    ensures !PasswordFormCheck(password, confirm).NonKeyError?
    ensures PasswordFieldOk(password) && PasswordFieldOk(confirm) && Strip(password.value) != Strip(confirm.value) ==>
      PasswordFormCheck(password, confirm) == KeyErrors({PasswordConfirm})
  {
  }

  /** Seven characters and a trailing space are too short for both fields once trimmed. */
  lemma TrailingSpaceDoesNotCount()
    ensures PasswordFormCheck(Some("abcdefg "), Some("abcdefg ")) == KeyErrors({Password, PasswordConfirm})
  {
    StripTrailingSpace();
  }

  /// The registration form

  /** A registration payload after its field rules, its text fields already trimmed. */
  datatype Registration = Registration(username: string, email: string, password: string, password2: string)

  /** `UserRegistrationSerializer.validate`: the two passwords must agree, else an error keyed `password2`. */
  function RegistrationValidate(d: Registration): (r: Validated<Registration>)
    ensures r.Passed? <==> d.password == d.password2
    ensures r.Passed? ==> r.data == d
    ensures !r.Passed? ==> r == KeyErrors({Password2})
  {
    if d.password != d.password2 then KeyErrors({Password2}) else Passed(d)
  }

  /**
   * The columns `UserRegistrationSerializer.save` writes: username and email
   * from the payload, the hash of `password`, default flags.
   */
  function RegisteredUser(d: Registration): (f: UserFields)
    ensures f.username == d.username && f.email == d.email
    ensures CheckPassword(f.password, d.password)
    ensures !f.isStaff && !f.isSuperuser
  {
    UserFields(d.username, d.email, SetPassword(Some(d.password)), false, false)
  }

  /** `password2` leaves no trace in the stored user. */
  lemma RegisteredIgnoresPassword2(d: Registration, other: string)
    ensures RegisteredUser(d.(password2 := other)) == RegisteredUser(d)
  {
  }

  /** A stored registration admits the registered password and no other. */
  lemma RegisteredPasswordChecks(d: Registration, attempt: string)
    ensures CheckPassword(RegisteredUser(d).password, attempt) <==> attempt == d.password
  {
  }

  /**
   * `UserRegistrationSerializer.save`: a new instance (fresh id, active by
   * default) from username and email, `set_password`, then `save()`.
   */
  method RegistrationSave(users: Table<UserFields>, d: Registration, now: Stamp) returns (user: Record<UserFields>)
    requires users.Valid()
    modifies users
    ensures users.Valid()
    ensures user == Record(user.id, now, now, true, RegisteredUser(d))
    ensures user.id !in old(users.rows)
    ensures users.rows == old(users.rows)[user.id := user]
  {
    var id := users.NewId();
    user := Record(id, now, now, true, UserFields(d.username, d.email, Plain(""), false, false));
    user := user.(fields := user.fields.(password := SetPassword(Some(d.password))));
    user := users.Save(user, now);
  }
}
