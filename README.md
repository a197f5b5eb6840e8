# Diary contacts API: a verified Dafny model

This project models the core of *diary*, a Django REST Framework service that stores personal contact books. Every table derives from one soft-deletable base model: a uuid key, created/updated stamps and an `is_active` flag. A destroy clears the flag and keeps the row. A contact belongs to one user. It carries six many-to-many collections: phones, emails, addresses, important dates, related persons and tags. Each auxiliary row has a value and a two-letter kind code.

The model covers:

- the soft-delete base model;
- the registration serializer of a contact with its nested creates;
- the contact viewset: create, the caller-scoped reads, the list's flattening loop, destroy and the append-only partial update;
- the user manager;
- the user serializers;
- the request permissions;
- the user viewset and the phone viewset.

Modules follow the source files:

| file | module | source |
|---|---|---|
| `text_fields.dfy` | `TextFields` | the trimming every serializer text field applies (Django REST Framework's `CharField`, `EmailField`, `URLField`) |
| `soft_delete.dfy` | `SoftDelete` | `apps/abstracts/models.py`; `Table<T>` is one database table, a class whose `rows` map the methods update |
| `kinds.dfy` | `Kinds` | the kind choices and default kinds of the six auxiliary models |
| `contact_models.dfy` | `ContactModels` | the contact row, the seven tables and the six through tables (`ContactDb`), and the create-and-add loop |
| `contact_serializers.dfy` | `ContactSerializers` | `ContactsRegisterSerializer`: field rules, `validate`, `create` |
| `contact_views.dfy` | `ContactViews` | `ContactViewSet` |
| `user_managers.dfy` | `UserManagers` | `UserManager` and the password column |
| `user_serializers.dfy` | `UserSerializers` | `UserSerializer.validate_password`, `PasswordSerializer`, `UserRegistrationSerializer`, `UserUpdateSerializer` |
| `permissions.dfy` | `Permissions` | the four permission classes |
| `user_views.dfy` | `UserViews` | `UserViewSet` (a class with the `queryset` attribute) |
| `phone_views.dfy` | `PhoneViews` | `PhoneViewSet` (a class with the `queryset` attribute) |

How external inputs enter the model:

- Ids come from a counter standing for `uuid4`.
- Instants are a `now` parameter.
- Hashing is the symbolic `Hashed(raw)`.
- The phone-number, email, URL and date checks of foreign libraries are a `Validators` record of predicates passed in.
- A request payload is a datatype. An absent key is `None`.
- A response is an outcome datatype.

The contact model declares its second name column as `last_nmae` (`apps/contacts/models.py:17`). The serializers and the initial migration (`apps/contacts/migrations/0001_initial.py:29`) both name it `last_name`, so the model uses `lastName`.

## Model

| member | source | states |
|---|---|---|
| TextFields.Strip | apps/contacts/api/serializers.py:118-141 | the trimmed text is no longer than the input, neither starts nor ends with whitespace, and a text with no whitespace at either end is kept; this is the trimming Django REST Framework's `CharField` (and `EmailField`, `URLField`) applies by default |
| TextFields.StripBlank | apps/contacts/api/serializers.py:118-141 | a text trims to nothing exactly when every character is whitespace |
| TextFields.StripOpt | apps/contacts/api/serializers.py:118-141 | an optional text stays absent or present, and a present one is trimmed |
| TextFields.StripIdempotent | apps/contacts/api/serializers.py:118-141 | trimming a trimmed text changes nothing |
| TextFields.StripTrailingSpace | apps/users/api/serializers.py:62-65 | seven letters and a trailing space trim to the seven letters |
| TextFields.StripBlanks | apps/contacts/api/serializers.py:118-141 | a text of spaces trims to the empty text |
| SoftDelete.ActiveObjects | apps/abstracts/models.py:24-25 | exactly the stored rows whose flag is set, unchanged, a sub-map of all rows |
| SoftDelete.GetObjectById | apps/abstracts/models.py:46-51 | finds a well-formed stored key, active or not, with its stored row; a missing or malformed key yields `Http404` as a value |
| SoftDelete.SoftDeleted | apps/abstracts/models.py:81-82 | the copy is inactive; id, created stamp and fields are kept, only the update stamp moves |
| SoftDelete.Restored | apps/abstracts/models.py:97-98 | the copy is active; id, created stamp and fields are kept, only the update stamp moves |
| SoftDelete.SoftDeleteIdempotent | apps/abstracts/models.py:68-82 | soft-deleting twice equals soft-deleting once |
| SoftDelete.RestoreIdempotent | apps/abstracts/models.py:84-98 | restoring twice equals restoring once |
| SoftDelete.RestoreUndoesSoftDelete | apps/abstracts/models.py:68-98 | restore after soft delete gives back the active record with only the update stamp changed |
| SoftDelete.SoftDeleteHidesOnlyThatRow | apps/abstracts/models.py:65-82 | storing the soft-deleted copy removes exactly that key from `active_objects`, while the unscoped lookup still finds it |
| SoftDelete.RestoreShowsThatRow | apps/abstracts/models.py:84-98 | storing the restored copy adds exactly that key back to `active_objects` |
| SoftDelete.Table.Create | apps/abstracts/models.py:55-64 | the new row has a key never used before, is active, has both stamps at `now`; no other row changes |
| SoftDelete.Table.NewId | apps/abstracts/models.py:55-61 | the drawn key is held by no row and by no earlier draw; the rows do not change |
| SoftDelete.Table.Save | apps/abstracts/models.py:62-63 | the instance is written under its key with `updated` refreshed, and `created` set as well when the key is new; no other row changes |
| SoftDelete.Table.SoftDelete | apps/abstracts/models.py:68-82 | the stored row becomes the soft-deleted copy of the instance |
| SoftDelete.Table.Restore | apps/abstracts/models.py:84-98 | the stored row becomes the restored copy of the instance |
| SoftDelete.Table.DeactivateWhereId | apps/users/api/viewsets.py:231-233 | the count is 1 when the key is stored, active or not, and 0 otherwise; only that row's flag is cleared, stamps untouched |
| Kinds.PhoneType.Code | apps/phones/models.py:9-18 | each phone kind has a two-letter code that reads back as that kind |
| Kinds.EmailType.Code | apps/emails/models.py:8-12 | each email kind has a two-letter code that reads back as that kind |
| Kinds.AddressType.Code | apps/address/models.py:8-12 | each address kind has a two-letter code that reads back as that kind |
| Kinds.ImportantDateType.Code | apps/important_dates/models.py:8-12 | each important-date kind has a two-letter code that reads back as that kind |
| Kinds.RelatedPersonType.Code | apps/related_persons/models.py:8-23 | each related-person kind has a two-letter code that reads back as that kind |
| Kinds.TagKind.Code | apps/tags/models.py:8-12 | each tag kind has a two-letter code that reads back as that kind |
| Kinds.PhoneTypeOf | apps/phones/models.py:9-18 | a phone code is accepted iff it is a key of `PHONE_TYPE_CHOICES`; every accepted code has two characters |
| Kinds.PhoneTypeOfInverse | apps/phones/models.py:9-18 | an accepted phone code is exactly the code of the kind it names |
| Kinds.EmailTypeOf | apps/emails/models.py:8-12 | a email code is accepted iff it is a key of `EMAIL_TYPE_CHOICES`; every accepted code has two characters |
| Kinds.EmailTypeOfInverse | apps/emails/models.py:8-12 | an accepted email code is exactly the code of the kind it names |
| Kinds.AddressTypeOf | apps/address/models.py:8-12 | a address code is accepted iff it is a key of `ADDRESS_TYPE_CHOICES`; every accepted code has two characters |
| Kinds.AddressTypeOfInverse | apps/address/models.py:8-12 | an accepted address code is exactly the code of the kind it names |
| Kinds.ImportantDateTypeOf | apps/important_dates/models.py:8-12 | a important-date code is accepted iff it is a key of `IMPORTANT_DATE_TYPE_CHOICES`; every accepted code has two characters |
| Kinds.ImportantDateTypeOfInverse | apps/important_dates/models.py:8-12 | an accepted important-date code is exactly the code of the kind it names |
| Kinds.RelatedPersonTypeOf | apps/related_persons/models.py:8-23 | a related-person code is accepted iff it is a key of `RELATED_PERSON_TYPE_CHOICES`; every accepted code has two characters |
| Kinds.RelatedPersonTypeOfInverse | apps/related_persons/models.py:8-23 | an accepted related-person code is exactly the code of the kind it names |
| Kinds.TagKindOf | apps/tags/models.py:8-12 | a tag code is accepted iff it is a key of `TAG_CHOICES`; every accepted code has two characters |
| Kinds.TagKindOfInverse | apps/tags/models.py:8-12 | an accepted tag code is exactly the code of the kind it names |
| ContactModels.ContactDb.CreateContact | apps/contacts/api/serializers.py:183 | one new contact row with a fresh key, built from the scalars; the auxiliary tables and associations are unchanged |
| ContactModels.ContactDb.SaveContact | apps/contacts/api/viewsets.py:192-193 | the contact instance is saved under its key; no other table and no association changes |
| ContactModels.ContactDb.AddPhones | apps/contacts/api/serializers.py:185-189 | the phone table gains one fresh row per item, in order; the contact's phone set gains exactly those keys; nothing else changes |
| ContactModels.ContactDb.AddEmails | apps/contacts/api/serializers.py:191-195 | the same for emails |
| ContactModels.ContactDb.AddAddresses | apps/contacts/api/serializers.py:197-201 | the same for addresses |
| ContactModels.ContactDb.AddImportantDates | apps/contacts/api/serializers.py:203-207 | the same for important dates |
| ContactModels.ContactDb.AddRelatedPersons | apps/contacts/api/serializers.py:209-213 | the same for related persons |
| ContactModels.ContactDb.AddTags | apps/contacts/api/serializers.py:215-219 | the same for tags |
| ContactModels.AppendedRows | apps/contacts/api/serializers.py:185-189 | the loop's new keys are distinct and unused; the keys become old keys plus new keys; old rows are untouched; new row i is active, stamped `now` and holds item i |
| ContactModels.AppendedCount | apps/contacts/api/serializers.py:185-219 | each loop adds exactly as many rows as it has items |
| ContactModels.AppendedNothing | apps/contacts/api/serializers.py:169-180 | an empty (or absent) list adds no row and no association |
| ContactModels.CreateAndAdd | apps/contacts/api/serializers.py:185-189 | the create-and-add loop inserts one fresh row per item and links exactly those rows; existing rows and links stay |
| ContactSerializers.KindOr | apps/phones/models.py:23-24 | an absent kind code takes the model's default kind; a present one must be a choice |
| ContactSerializers.ParseAll | apps/contacts/api/serializers.py:119-124 | a nested list passes iff every item passes; the result keeps length, order and each item's parse |
| ContactSerializers.ParsePhones | apps/contacts/api/serializers.py:119 | `PhoneSerializer(many=True)`: passes iff every item passes; then each item at its index is that item parsed |
| ContactSerializers.ParseEmails | apps/contacts/api/serializers.py:120 | the same for emails, each trimmed |
| ContactSerializers.ParseAddresses | apps/contacts/api/serializers.py:121 | the same for addresses, each trimmed |
| ContactSerializers.ParseImportantDates | apps/contacts/api/serializers.py:122 | the same for important dates |
| ContactSerializers.ParseRelatedPersons | apps/contacts/api/serializers.py:123 | the same for related persons, each name trimmed |
| ContactSerializers.ParseTags | apps/contacts/api/serializers.py:124 | the same for tags |
| ContactSerializers.FieldErrorsOf | apps/contacts/api/serializers.py:118-141 | a field is reported iff its rule fails on the trimmed text: required, not blank and bounded names; optional bounded scalars; URL; the six nested lists required, each item valid; no error means the payload parses |
| ContactSerializers.ToData | apps/contacts/api/serializers.py:118-141 | on a payload that parses, the validated data holds the trimmed names and trimmed optional scalars, and every nested list with its length and each item parsed in place |
| ContactSerializers.Validate | apps/contacts/api/serializers.py:143-148 | rejects exactly an empty name or last name with the fixed message; passing data is returned unchanged |
| ContactSerializers.ValidateIgnoresPhones | apps/contacts/api/serializers.py:144 | the phones value never changes the verdict: an empty phone list passes `validate` |
| ContactSerializers.IsValid | apps/contacts/api/serializers.py:118-148 | valid iff no field error; field errors are reported before `validate` runs; the validated data is the parsed payload |
| ContactSerializers.BlankNamesRejected | apps/contacts/api/serializers.py:118-148 | a name made only of whitespace is a field error and the payload is invalid |
| ContactSerializers.StoredNamesTrimmed | apps/contacts/api/serializers.py:118-148 | the validated names are the trimmed input and never empty |
| ContactSerializers.NestedListsRequired | apps/contacts/api/serializers.py:119-124 | a payload missing any nested list is rejected |
| ContactSerializers.UnknownPhoneKindRejected | apps/contacts/api/serializers.py:119 | a phone item with a kind code outside the choices rejects the payload |
| ContactSerializers.PhoneKindDefaults | apps/phones/models.py:23-24 | a phone item with a number that is not blank once trimmed and is valid, and no kind, gets `MO`; one with a kind passes iff it is a choice |
| ContactSerializers.RegisteredKindsAreChoices | apps/contacts/api/serializers.py:119-124 | every validated nested item carries a kind code from its choices |
| ContactSerializers.ContactRow | apps/contacts/api/serializers.py:169-183 | the contact row is built from the scalar fields and the owner only |
| ContactSerializers.Create | apps/contacts/api/serializers.py:150-221 | returns the new contact, a fresh active row; each collection gains one fresh row per item, linked to the new contact only; no existing row or link changes |
| ContactViews.PerformCreate | apps/contacts/api/viewsets.py:85-93 | an invalid payload is rejected with the serializer's errors; a valid one from an anonymous caller has no owner to save; otherwise one new active contact row owned by the caller, each of the six tables gains exactly one row per validated item, linked to the new contact only; nothing is written unless it is saved |
| ContactViews.OwnedActive | apps/contacts/api/viewsets.py:115 | the caller's active contacts, exactly |
| ContactViews.OwnedActiveIsActiveOwned | apps/contacts/api/viewsets.py:115 | the scope is the caller's part of `active_objects`, and all of it |
| ContactViews.ScopedLookup | apps/contacts/api/viewsets.py:167-168 | finds a key iff its row is active and owned by the caller |
| ContactViews.ScopedLookupNarrowsGetObjectById | apps/contacts/api/viewsets.py:167-168 | the scoped lookup agrees with the unscoped one wherever it finds, and misses every inactive row |
| ContactViews.Project | apps/contacts/api/viewsets.py:121 | the projection exists iff every nested object has the key; it keeps length and order |
| ContactViews.FlattenStep | apps/contacts/api/viewsets.py:120-121 | a raised step has already popped the key: what is left is the item without it |
| ContactViews.FlattenStepRenames | apps/contacts/api/viewsets.py:120-121 | a completed step drops the old key, adds the new one with the projected values, and keeps every other key |
| ContactViews.FlattenStepAbsent | apps/contacts/api/viewsets.py:120-121 | an absent collection flattens to an empty list under the new key |
| ContactViews.FlattenStepEmpty | apps/contacts/api/viewsets.py:120-121 | an empty list or an empty string under the key flattens to the empty list |
| ContactViews.FlattenStepRaises | apps/contacts/api/viewsets.py:120-137 | a step raises iff the key is present and holds a list with an object lacking the field, a non-empty list of strings, a non-empty string or `None` |
| ContactViews.FlattenAllKeeps | apps/contacts/api/viewsets.py:119-137 | when every rename completes, a key no rename names keeps its presence and its value |
| ContactViews.FlattenAllFlat | apps/contacts/api/viewsets.py:119-137 | when every rename completes, a new key that no later rename pops holds a flat list |
| ContactViews.FlattenAllPops | apps/contacts/api/viewsets.py:119-137 | when every rename completes, an old key that no rename writes is gone |
| ContactViews.FlattenAllRaises | apps/contacts/api/viewsets.py:119-137 | a rename whose key no earlier rename touches, holding an object without its field, makes the whole chain raise |
| ContactViews.FlattenItemFlatKeys | apps/contacts/api/viewsets.py:119-137 | a flattened contact (`FlattenItem`) holds a flat list under `phone`, `email`, `address`, `important_date`, `related_person` and `tag` |
| ContactViews.FlattenItemPopsKeys | apps/contacts/api/viewsets.py:119-137 | a flattened contact holds none of `phones`, `emails`, `important_dates`, `related_persons`, `tags` |
| ContactViews.FlattenItemKeepsOthers | apps/contacts/api/viewsets.py:119-137 | a flattened contact keeps every other key with its value |
| ContactViews.FlattenRaisesOnRelatedPersons | apps/contacts/api/viewsets.py:131-135 | any contact with a related person makes the list loop raise, since the nested objects have no `related_person` key |
| ContactViews.FlattenInPlace | apps/contacts/api/viewsets.py:119-137 | for the loop's renames, each item is rewritten in place into its flattened form up to the first item that raises; that item is left partly popped and later items are untouched |
| ContactViews.Destroy | apps/contacts/api/viewsets.py:189-193 | found iff active and owned; the saved row is the soft-deleted copy; afterwards the scoped lookup misses |
| ContactViews.DestroyTwiceNotFound | apps/contacts/api/viewsets.py:189-193 | a second destroy of the same key is not found, while the row is still stored |
| ContactViews.PatchErrors | apps/contacts/api/viewsets.py:222-223 | the partial-mode check reports exactly the present scalars that break their rule on the trimmed text; nested keys are read-only and never reported |
| ContactViews.PatchFieldOk | apps/contacts/api/viewsets.py:222-223 | only scalar fields can fail; an absent field always passes; a present name or last name that trims to nothing fails |
| ContactViews.EmptyPatchValid | apps/contacts/api/viewsets.py:222-223 | an empty payload passes the check |
| ContactViews.PatchedProperties | apps/contacts/api/viewsets.py:264 | the save keeps the owner; an empty patch changes nothing; patching twice equals once; present values replace stored ones, trimmed, and a stored patched name is already trimmed |
| ContactViews.PatchedRecord | apps/contacts/api/viewsets.py:264 | the saved row keeps its key, created stamp, flag and owner and takes the new update stamp; an empty patch keeps the fields |
| ContactViews.FirstBadPhone | apps/contacts/api/viewsets.py:227-230 | the first phone item whose keys are missing: every earlier item has both |
| ContactViews.FirstBadItem | apps/contacts/api/viewsets.py:233-262 | the first item whose keys are missing: every earlier item has both |
| ContactViews.PhoneRows | apps/contacts/api/viewsets.py:228-230 | one phone row per item, number and kind code as given |
| ContactViews.EmailRows | apps/contacts/api/viewsets.py:234-237 | one email row per item, value and kind code as given |
| ContactViews.AddressRows | apps/contacts/api/viewsets.py:241-244 | one address row per item, value and kind code as given |
| ContactViews.ImportantDateRows | apps/contacts/api/viewsets.py:248-253 | one important-date row per item, value and kind code as given |
| ContactViews.RelatedPersonRows | apps/contacts/api/viewsets.py:257-262 | one related-person row per item, name and kind code as given |
| ContactViews.TagFromLastPhone | apps/contacts/api/viewsets.py:266-269 | no tag items: no rows; otherwise one tag row per tag item, all holding the last phone item's `tag`, failing iff there is no phone item or it has no `tag` |
| ContactViews.UpdatePhones | apps/contacts/api/viewsets.py:226-230 | rows are created and linked for the phone items before the first bad one; it completes iff there is none, in which case every item got its row; other tables are untouched |
| ContactViews.UpdateEmails | apps/contacts/api/viewsets.py:233-237 | the same for emails |
| ContactViews.UpdateAddresses | apps/contacts/api/viewsets.py:240-244 | the same for addresses |
| ContactViews.UpdateImportantDates | apps/contacts/api/viewsets.py:247-253 | the same for important dates |
| ContactViews.UpdateRelatedPersons | apps/contacts/api/viewsets.py:256-262 | the same for related persons |
| ContactViews.AppendNested | apps/contacts/api/viewsets.py:226-262 | the five loops complete iff every item is well formed, and then each collection gained exactly one row per item; associations only grow; contacts and tags are untouched |
| ContactViews.SaveAndTag | apps/contacts/api/viewsets.py:264-269 | the scalars are saved first; the tag loop then completes iff the tag rows exist, and then adds exactly those |
| ContactViews.ApplyUpdate | apps/contacts/api/viewsets.py:226-269 | completes iff every loop does; then the contact row is patched and every collection gained one row per item; in every case associations only grow |
| ContactViews.PartialUpdate | apps/contacts/api/viewsets.py:220-277 | not found iff outside the caller's active scope; rejected iff the scalars fail, writing nothing; else rows are appended, associations never lose a row, and on completion the contact is patched and every collection gained one row per supplied item |
| UserManagers.SetPassword | apps/users/managers.py:44 | never stores the raw value; no password gives the unusable marker; a given one checks afterwards |
| UserManagers.CheckPassword | apps/users/managers.py:44 | only a stored hash of exactly the attempt matches; a plain or unusable column matches nothing |
| UserManagers.SetPasswordChecks | apps/users/managers.py:44 | after `set_password`, exactly the set password logs in; an unusable password admits nobody |
| UserManagers.PlainNeverChecks | apps/users/managers.py:44 | a column written without `set_password` admits no password, not even the one written |
| UserManagers.UserManager.CreateUserWith | apps/users/managers.py:36-46 | a flag passed twice raises and writes nothing; otherwise one new saved row with a fresh key, the given flags, username and extra email, and the hashed password |
| UserManagers.UserManager.CreateUser | apps/users/managers.py:60 | the new user is active, neither staff nor superuser |
| UserManagers.UserManager.CreateSuperuser | apps/users/managers.py:75 | the new user is active, staff and superuser |
| UserSerializers.ValidatePassword | apps/users/api/serializers.py:36-40 | rejects exactly values shorter than eight characters, with the fixed message; otherwise returns the value unchanged |
| UserSerializers.UserErrors | apps/users/api/serializers.py:12-40 | `username` is reported iff missing, blank once trimmed, over ten characters trimmed or, trimmed, taken by any row, active or not; `password` iff missing, or, trimmed, blank, over 128 or shorter than eight |
| UserSerializers.PasswordColumnBounds | apps/users/api/serializers.py:23-40 | an accepted password is exactly one of 8 to 128 characters once trimmed |
| UserSerializers.UpdateErrors | apps/users/api/serializers.py:55-58 | the update passes iff the username is present and, trimmed, not blank, at most ten characters and held by no other row |
| UserSerializers.KeepOwnUsername | apps/users/api/serializers.py:55-58 | a username no other row holds, trimmed, passes the update; so re-submitting one's own username is never a uniqueness error |
| UserSerializers.PasswordFormCheck | apps/users/api/serializers.py:61-88 | passing needs both field rules; key errors name only the two fields; a failing `password` is reported, together with `password_confirm` when that fails too |
| UserSerializers.PasswordValidate | apps/users/api/serializers.py:80-88 | the length error comes first and iff either value is short; then the `password_confirm` error iff they differ; passing data is returned unchanged |
| UserSerializers.PasswordFormCheckSpec | apps/users/api/serializers.py:61-88 | the form passes iff both values are present and, trimmed, 8 to 128 long and equal; the data are the trimmed values; the length branch of `validate` is unreachable after the field rules; a mismatch is reported under `password_confirm` only |
| UserSerializers.TrailingSpaceDoesNotCount | apps/users/api/serializers.py:61-88 | seven letters and a trailing space are refused as too short in both fields |
| UserSerializers.RegistrationValidate | apps/users/api/serializers.py:103-107 | passes iff the two passwords agree, returning the data unchanged; else an error keyed `password2` |
| UserSerializers.RegisteredUser | apps/users/api/serializers.py:113-118 | the stored user holds the payload's username and email, the hash of `password`, default flags |
| UserSerializers.RegisteredIgnoresPassword2 | apps/users/api/serializers.py:113-120 | `password2` has no effect on the stored user |
| UserSerializers.RegisteredPasswordChecks | apps/users/api/serializers.py:117-118 | the registered password, and only it, logs in |
| UserSerializers.RegistrationSave | apps/users/api/serializers.py:109-120 | one new active row with a fresh key holding the registered user; no other row changes |
| Permissions.CreateUserPermission | apps/users/api/permissions.py:7-10 | the `create` action and every logged-in user pass; only an anonymous request for another action is refused |
| Permissions.IsTenant | apps/users/api/permissions.py:16-18 | exactly a logged-in non-owner with a safe method |
| Permissions.IsOwner | apps/users/api/permissions.py:24 | exactly a logged-in owner |
| Permissions.ReadOnly | apps/users/api/permissions.py:29 | exactly `GET`, `HEAD` and `OPTIONS` |
| Permissions.AnonymousOnlyCreates | apps/users/api/permissions.py:7-10 | an anonymous request passes `CreateUserPermission` iff the action is `create` |
| Permissions.TenantOwnerExclusive | apps/users/api/permissions.py:16-24 | no request is both a tenant's and an owner's |
| Permissions.TenantReadsOnly | apps/users/api/permissions.py:16-29 | `IsTenant` implies `ReadOnly` |
| Permissions.TenantOrOwner | apps/users/api/permissions.py:16-24 | an authenticated safe request is exactly one of tenant and owner |
| Permissions.RolesAreLoggedIn | apps/users/api/permissions.py:7-24 | a tenant or an owner passes `CreateUserPermission` for every action |
| UserViews.ListedUsers | apps/users/api/viewsets.py:45-48 | exactly the active users, each as id, username and email |
| UserViews.CreatedFields | apps/users/api/viewsets.py:112-114 | as written, the created row holds the raw password, an empty email and default flags |
| UserViews.HashedCreatedFields | apps/users/managers.py:44 | the same row with the password passed through `set_password` |
| UserViews.CreatedUserCannotLogIn | apps/users/api/viewsets.py:112-114 | a user created through `create` cannot log in with its own password |
| UserViews.HashedCreatedUserLogsIn | apps/users/managers.py:44 | with hashing, the registered password and only it logs in |
| UserViews.DestroyedUserHidden | apps/users/api/viewsets.py:231-233 | a deactivated user leaves the listing, the unscoped lookup still finds it, and no other user moves |
| UserViews.DestroyInactiveIsNoChange | apps/users/api/viewsets.py:231-234 | on an inactive user the bulk update still matches one row and changes nothing, so `destroy` reports success |
| UserViews.UserViewSet.GetQueryset | apps/users/api/viewsets.py:45-49 | unset: stores and returns the listing of active users; already set: returns nothing and keeps it |
| UserViews.UserViewSet.GetObject | apps/users/api/viewsets.py:64 | finds any stored user, active or not |
| UserViews.UserViewSet.SetPassword | apps/users/api/viewsets.py:83-95 | a missing user is not found; an invalid form is rejected with its verdict and changes nothing; else only that user's password is replaced by the hash of the trimmed value and the row saved |
| UserViews.UserViewSet.Create | apps/users/api/viewsets.py:112-125 | rejected with the serializer's keys and no write iff the fields fail; else one new active row with the trimmed username, as written with the raw trimmed password |
| UserViews.UserViewSet.CreateHashed | apps/users/api/viewsets.py:112-125 | the same with the password hashed, so the new user can log in |
| UserViews.UserViewSet.Update | apps/users/api/viewsets.py:199-213 | missing user is not found; a failing username is rejected with no write; else only the username, stored trimmed, and the stamp of that row change |
| UserViews.UserViewSet.Destroy | apps/users/api/viewsets.py:231-241 | success iff a row with the key exists, active or not; only that row's flag is cleared |
| PhoneViews.ListedPhones | apps/phones/api/viewsets.py:43-46 | exactly the active phones, each as id, number and kind code |
| PhoneViews.RegisterErrors | apps/phones/api/serializers.py:19-24 | `phone` is reported iff the nested number is missing, blank once trimmed or invalid; `phone_type` iff given and not a choice |
| PhoneViews.RegisteredPhone | apps/phones/api/serializers.py:26-29 | the row holds the number and the given kind, or the column default `MO` |
| PhoneViews.RegisteredKindIsChoice | apps/phones/models.py:9-24 | every phone the register path writes has a kind from the choices |
| PhoneViews.UpdateErrors | apps/phones/api/serializers.py:45-48 | the update passes iff the number is present and, trimmed, not blank, at most 128 characters and accepted by the phone column's own validator |
| PhoneViews.UpdateIgnoresSurroundingSpace | apps/phones/api/serializers.py:45-48 | whitespace around the number never changes the update's verdict |
| PhoneViews.UpdateRefusesLongNumber | apps/phones/models.py:22 | a number over 128 characters once trimmed is refused |
| PhoneViews.DestroyedPhoneHidden | apps/phones/api/viewsets.py:198-200 | a deactivated phone leaves the listing, the unscoped lookup still finds it, and no other phone moves |
| PhoneViews.PhoneViewSet.GetQueryset | apps/phones/api/viewsets.py:43-47 | unset: stores and returns the listing of active phones; already set: returns nothing and keeps it |
| PhoneViews.PhoneViewSet.List | apps/phones/api/viewsets.py:114 | lists only active phones, the whole listing on a fresh viewset |
| PhoneViews.PhoneViewSet.GetObject | apps/phones/api/viewsets.py:62 | finds any stored phone, active or not |
| PhoneViews.PhoneViewSet.Create | apps/phones/api/viewsets.py:79-92 | rejected with the serializer's keys and no write iff the fields fail; else exactly one new active phone row |
| PhoneViews.PhoneViewSet.Update | apps/phones/api/viewsets.py:166-180 | missing phone is not found; a number the update rule refuses is rejected with no write; else only the number, stored trimmed, and the stamp of that row change |
| PhoneViews.PhoneViewSet.Destroy | apps/phones/api/viewsets.py:198-208 | success iff a row with the key exists, active or not; only that row's flag is cleared |

## Left out

- HTTP: responses, status codes, headers, OpenAPI schemas and the router are not modelled. Every endpoint returns an outcome datatype.
- Malformed keys at the viewsets: the viewset members take a well-formed key. The error Django raises on a non-uuid key is not modelled.
- SoftDelete.GetObjectById: maps a malformed id to `Http404`, as the `except` clause intends. Django's uuid column may instead raise `ValidationError`, which that clause does not catch. That behaviour belongs to Django and is not modelled.
- ContactViews.PartialUpdate: when a loop raises, the contract states only two things: associations grew, and the contact row is either the old or the patched one. Which rows the raising loop wrote first is stated by the `Update*` members, not carried up.
- ContactViews.PartialUpdate: the nested values of the update payload are always lists of items. A non-list value is not modelled.
- ContactViews.PartialUpdate: the date parsing done when an important date row is saved is not modelled. The value is stored as text.
- ContactViews.PerformCreate: models only `perform_create`. The framework's `create` action around it is not part of this model. That action checks the scalars first and discards the response `perform_create` returns, so an invalid registration still answers as a success, with nothing saved.
- `ContactListSerializer.to_representation` sits inside `Meta` and never runs (apps/contacts/api/serializers.py:70-88), so it is not modelled. The same holds for the `create` and `to_representation` nested in the user serializers' `Meta` classes.
- The list response: the data is serialized again after the loop, so the flattened data is discarded. The loop is modelled on its own, by `FlattenInPlace`.
- Filtering, search, ordering and pagination are framework features and are not modelled.
- Trimming: every serializer text field keeps Django REST Framework's default `trim_whitespace=True`, so the model trims all of them. Whitespace is the set Python's `str.strip()` removes; kind codes and dates are choice and date fields, which do not trim.
- Phone numbers: the register paths declare the library's phone-number serializer field for region MX, which trims only for its blank test and parses the text as sent (the `isPhoneNumber` predicate). The phone update declares no field, so the model column becomes a plain text field that trims, caps at 128 characters and runs the column's own validator with the default region (the `isModelPhoneNumber` predicate) on the trimmed text. Both parses belong to the library and are not modelled.
- ContactViews.FlattenInPlace: takes the renames as a parameter. The source's loop applies `Renames`, and `FlattenItem` is exactly that case.
- Password hashing, phone-number parsing for region MX, and email, URL and date validation belong to foreign libraries. They are symbolic or passed in as predicates.
- PhoneViews.PhoneViewSet.Create: stores the number text. The source hands the nested serializer's dictionary to the phone-number column, and the phone-number library's conversion of it is not part of this model.
- `validate`'s error message asks for at least one phone (apps/contacts/api/serializers.py:145-147), but the code compares the list with `""`, so an empty list passes. The model follows the code (`ValidateIgnoresPhones`).
- Permissions: the user model shown has no `is_owner` column. `Requester` carries the value the permission reads.
- Ids and stamps: uuid generation is a counter and `auto_now` is a `now` parameter. Lazy query sets are not modelled; the cached listing is the one at call time.
- Database unique constraints are not modelled, beyond the serializer's username check. With them, a second user created with no email would fail to save.
- UserManagers.UserManager.CreateUserWith: the only extra fields modelled are `email` and the three flags. Other model columns passed as extra fields are not modelled.
- UserSerializers.RegistrationSave: the field rules of the registration serializer (uniqueness, email format, trimming) are not modelled. `Registration` is the payload after those rules.
- Login, logout, admin registrations, migrations, transactions and concurrency are not modelled. None of them is in the core.

## Findings

| source | as written | input that shows it | evidently intended | confidence | as-written member | corrected member |
|---|---|---|---|---|---|---|
| apps/users/api/viewsets.py:112-114 | `UserSerializer`'s own `create` is nested in `Meta`, so the model serializer's default `create` writes the raw password to the password column | any valid create, e.g. username `ana`, password `secreto123`: the stored column is `Plain("secreto123")` and `check_password("secreto123")` fails | the password is passed through `set_password` as in the manager, so the new user can log in | high, not executed | UserViews.UserViewSet.Create, UserViews.CreatedUserCannotLogIn | UserViews.UserViewSet.CreateHashed, UserViews.HashedCreatedUserLogsIn |
