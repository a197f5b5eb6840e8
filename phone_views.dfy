/**
 * The phone viewset: the cached listing of active phones, the unscoped
 * lookup by key, creation through the register serializer, the number-only
 * update and the bulk soft delete.
 */
module PhoneViews {
  import opened Options
  import opened SoftDelete
  import opened Kinds
  import opened TextFields

  /** One listed phone: `values("id", "phone", "phone_type")`. */
  datatype PhoneRow = PhoneRow(id: Id, phone: string, phoneType: string)

  /** The active phones, projected to id, number and kind code. */
  function ListedPhones(rows: map<Id, Record<Phone>>): (listed: map<Id, PhoneRow>)
    ensures listed.Keys == ActiveObjects(rows).Keys
    ensures forall k :: k in listed ==> listed[k] == PhoneRow(k, rows[k].fields.phone, rows[k].fields.phoneType)
  {
    map k | k in rows && rows[k].isActive :: PhoneRow(k, rows[k].fields.phone, rows[k].fields.phoneType)
  }

  /** The payload keys `phone` and `phone_type`. */
  datatype PhoneField = Number | Kind

  datatype CreateOutcome = PhoneCreated(phone: Record<Phone>) | CreateRejected(fields: set<PhoneField>)
  datatype UpdateOutcome = PhoneUpdated | UpdatePhoneMissing | UpdateRejected(fields: set<PhoneField>)
  datatype DestroyOutcome = PhoneDeleted | PhoneMissing

  /**
   * A number the phone-number check accepts: absent, or blank once trimmed,
   * is refused; the text as sent goes to the phone-number library.
   */
  predicate NumberOk(v: Validators, number: Option<string>)
  {
    number.Some? && Strip(number.value) != "" && v.isPhoneNumber(number.value)
  }

  /**
   * `PhoneRegisterSerializer(data=...)`: `phone` is a nested object whose
   * own `phone` must be a valid number (`number` is that inner value,
   * `None` when either level is missing); `phone_type` may be left out,
   * and when given must be one of the choices.
   */
  function RegisterErrors(v: Validators, number: Option<string>, phoneType: Option<string>): (bad: set<PhoneField>)
    ensures Number in bad <==> !NumberOk(v, number)
    ensures Kind in bad <==> phoneType.Some? && PhoneTypeOf(phoneType.value).None?
  {
    (if NumberOk(v, number) then {} else {Number})
    + (if phoneType.None? || PhoneTypeOf(phoneType.value).Some? then {} else {Kind})
  }

  /** The row `Phones.objects.create(**validated_data)` writes: a left-out kind takes the column default. */
  function RegisteredPhone(number: string, phoneType: Option<string>): (p: Phone)
    ensures p.phone == number
    ensures phoneType.Some? ==> p.phoneType == phoneType.value
    ensures phoneType.None? ==> PhoneTypeOf(p.phoneType) == Some(DefaultPhoneType)
  {
    Phone(number, phoneType.GetOr(DefaultPhoneType.Code()))
  }

  /** Every phone row the register path writes holds a kind from the choices. */
  lemma RegisteredKindIsChoice(v: Validators, number: Option<string>, phoneType: Option<string>)
    requires RegisterErrors(v, number, phoneType) == {}
    ensures PhoneTypeOf(RegisteredPhone(number.value, phoneType).phoneType).Some?
  {
  }

  /** The `max_length` of the phone-number model column, which the generated serializer field checks. */
  const PhoneMaxLength := 128

  /**
   * The update serializer declares no phone field, so the model column is
   * generated as a plain text field: it trims, refuses a blank value and
   * more than 128 characters, and runs the column's own validator on the
   * trimmed text.
   */
  predicate UpdateNumberOk(v: Validators, number: Option<string>)
  {
    && number.Some? && Strip(number.value) != "" && |Strip(number.value)| <= PhoneMaxLength
    && v.isModelPhoneNumber(Strip(number.value))
  }

  /** `PhoneUpdateSerializer(phone, data=...)`: `phone` only, required, checked on the trimmed text. */
  function UpdateErrors(v: Validators, number: Option<string>): (bad: set<PhoneField>)
    ensures bad == {} <==>
      number.Some? && 0 < |Strip(number.value)| <= PhoneMaxLength && v.isModelPhoneNumber(Strip(number.value))
    ensures bad <= {Number}
  {
    if UpdateNumberOk(v, number) then {} else {Number}
  }

  /** Whitespace around the number never changes the update's verdict. */
  lemma UpdateIgnoresSurroundingSpace(v: Validators, number: string)
    ensures UpdateErrors(v, Some(number)) == UpdateErrors(v, Some(Strip(number)))
  {
    StripIdempotent(number);
  }

  /** A number longer than 128 characters once trimmed is refused by the update. */
  lemma UpdateRefusesLongNumber(v: Validators, number: string)
    requires |Strip(number)| > PhoneMaxLength
    ensures UpdateErrors(v, Some(number)) == {Number}
  {
  }

  /** A soft-deleted phone leaves the listing while the unscoped lookup still finds it; no other row moves. */
  lemma DestroyedPhoneHidden(rows: map<Id, Record<Phone>>, pk: Id)
    requires pk in rows
    ensures var after := rows[pk := rows[pk].(isActive := false)];
      && pk !in ListedPhones(after)
      && GetObjectById(after, Uuid(pk)) == Found(rows[pk].(isActive := false))
      && forall k :: k != pk ==> (k in ListedPhones(after) <==> k in ListedPhones(rows))
  {
  }

  /** One instance of the phone viewset over the phone table. */
  class PhoneViewSet {
    const phones: Table<Phone>
    /** The `queryset` attribute, unset until `get_queryset` fills it. */
    var queryset: Option<map<Id, PhoneRow>>

    constructor (phones: Table<Phone>)
      ensures this.phones == phones && queryset.None?
    {
      this.phones := phones;
      queryset := None;
    }

    /**
     * `get_queryset`: when the attribute is unset, store the listing of the
     * active phones and return it; when it is already set, return nothing.
     */
    method GetQueryset() returns (r: Option<map<Id, PhoneRow>>)
      modifies this
      ensures old(queryset).None? ==> queryset == Some(ListedPhones(phones.rows)) && r == queryset
      ensures old(queryset).Some? ==> queryset == old(queryset) && r.None?
    {
      if queryset.None? {
        queryset := Some(ListedPhones(phones.rows));
        r := queryset;
      } else {
        r := None;
      }
    }

    /** `list`: the rows `get_queryset` hands over; filters and pages are applied on top of these. */
    method List() returns (r: Option<map<Id, PhoneRow>>)
      modifies this
      ensures old(queryset).None? ==> r == Some(ListedPhones(phones.rows))
      ensures r.Some? ==> forall k :: k in r.value ==> k in phones.rows && phones.rows[k].isActive
      ensures old(queryset).Some? ==> r.None?
    {
      r := GetQueryset();
    }

    /** `get_object`: a lookup over every phone row, active or not. */
    function GetObject(pk: Id): (r: Lookup<Phone>)
      reads phones
      ensures r.Found? <==> pk in phones.rows
      ensures r.Found? ==> r.record == phones.rows[pk]
    {
      GetObjectById(phones.rows, Uuid(pk))
    }

    /** `create`: check the register serializer and only when it passes insert a new phone row. */
    method Create(v: Validators, number: Option<string>, phoneType: Option<string>, now: Stamp)
      returns (r: CreateOutcome)
      requires phones.Valid()
      modifies phones
      ensures phones.Valid()
      ensures r.CreateRejected? <==> RegisterErrors(v, number, phoneType) != {}
      ensures r.CreateRejected? ==> r.fields == RegisterErrors(v, number, phoneType) && unchanged(phones)
      ensures r.PhoneCreated? ==>
        && r.phone == Record(r.phone.id, now, now, true, RegisteredPhone(number.value, phoneType))
        && r.phone.id !in old(phones.rows)
        && phones.rows == old(phones.rows)[r.phone.id := r.phone]
    {
      var bad := RegisterErrors(v, number, phoneType);
      if bad != {} {
        return CreateRejected(bad);
      }
      var phone := phones.Create(RegisteredPhone(number.value, phoneType), now);
      r := PhoneCreated(phone);
    }

    /** `update`: look the phone up, check the new number, and only when it passes write it, trimmed, and save. */
    method Update(v: Validators, pk: Id, number: Option<string>, now: Stamp) returns (r: UpdateOutcome)
      requires phones.Valid()
      modifies phones
      ensures phones.Valid()
      ensures r == UpdatePhoneMissing <==> pk !in old(phones.rows)
      ensures r.UpdateRejected? <==> pk in old(phones.rows) && UpdateErrors(v, number) != {}
      ensures r.UpdateRejected? ==> r.fields == UpdateErrors(v, number)
      ensures r != PhoneUpdated ==> unchanged(phones)
      ensures r == PhoneUpdated ==>
        && number.Some?
        && phones.rows == old(phones.rows)[pk := old(phones.rows)[pk].(
             updated := now, fields := old(phones.rows)[pk].fields.(phone := Strip(number.value)))]
      ensures r == PhoneUpdated ==> Strip(phones.rows[pk].fields.phone) == phones.rows[pk].fields.phone
    {
      var found := GetObject(pk);
      if found.Http404? {
        return UpdatePhoneMissing;
      }
      var bad := UpdateErrors(v, number);
      if bad != {} {
        return UpdateRejected(bad);
      }
      var phone := found.record;
      StripIdempotent(number.value);
      var saved := phones.Save(phone.(fields := phone.fields.(phone := Strip(number.value))), now);
      r := PhoneUpdated;
    }

    /**
     * `destroy`: clear the flag of every row with this key, active or not,
     * and report success exactly when one row matched.
     */
    method Destroy(pk: Id) returns (r: DestroyOutcome)
      requires phones.Valid()
      modifies phones
      ensures phones.Valid()
      ensures r == PhoneDeleted <==> pk in old(phones.rows)
      ensures phones.rows == if pk in old(phones.rows) then old(phones.rows)[pk := old(phones.rows)[pk].(isActive := false)]
                             else old(phones.rows)
    {
      var count := phones.DeactivateWhereId(pk);
      r := if count == 1 then PhoneDeleted else PhoneMissing;
    }
  }
}
