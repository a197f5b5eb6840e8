/**
 * The contact registration serializer: the checks a creation payload passes
 * (the declared fields, then the serializer's own `validate`) and `create`,
 * which writes one contact row and one auxiliary row per nested item.
 */
module ContactSerializers {
  import opened Options
  import opened SoftDelete
  import opened Kinds
  import opened ContactModels
  import opened TextFields

  /** A nested item as sent: its value field and, when given, its kind code. */
  datatype RawItem = RawItem(value: string, code: Option<string>)

  /** A nested tag as sent: a tag has no value besides its kind code. */
  datatype RawTag = RawTag(code: Option<string>)

  /** A creation payload as sent; `None` is a key that is not present. */
  datatype RegisterRequest = RegisterRequest(
    name: Option<string>,
    lastName: Option<string>,
    company: Option<string>,
    website: Option<string>,
    sip: Option<string>,
    notes: Option<string>,
    phones: Option<seq<RawItem>>,
    emails: Option<seq<RawItem>>,
    address: Option<seq<RawItem>>,
    importantDates: Option<seq<RawItem>>,
    relatedPersons: Option<seq<RawItem>>,
    tags: Option<seq<RawTag>>)

  /** The validated data handed to `validate` and `create`; `None` is a key that is not present. */
  datatype ContactData = ContactData(
    name: string,
    lastName: string,
    company: Option<string>,
    website: Option<string>,
    sip: Option<string>,
    notes: Option<string>,
    phones: Option<seq<Phone>>,
    emails: Option<seq<Email>>,
    address: Option<seq<Address>>,
    importantDates: Option<seq<ImportantDate>>,
    relatedPersons: Option<seq<RelatedPerson>>,
    tags: Option<seq<Tag>>)

  /** Errors keyed by the fields that failed, or the serializer's own message. */
  datatype ContactError = FieldErrors(fields: set<Field>) | NonFieldError(message: string)

  datatype Checked<T> = Valid(data: T) | Invalid(error: ContactError)

  const MissingNameMessage := "Debe registrar su nombre y apellido y por lo menos un telefono"

  /** Column widths of the contact table. */
  const NameMaxLength := 50
  const LastNameMaxLength := 50
  const CompanyMaxLength := 50
  const WebsiteMaxLength := 200
  const SipMaxLength := 50
  const NotesMaxLength := 250

  /** Column widths of the auxiliary tables. */
  const EmailMaxLength := 254
  const AddressMaxLength := 250
  const RelatedPersonNameMaxLength := 150

  /** A kind code as the `choices` check reads it: absent means the model's default. */
  function KindOr<K>(code: Option<string>, kindOf: string -> Option<K>, default: K): (k: Option<K>)
    ensures code.None? ==> k == Some(default)
    ensures code.Some? ==> k == kindOf(code.value)
  {
    match code
    case None => Some(default)
    case Some(c) => kindOf(c)
  }

  /** Every item passes `parse`; the result lists the parsed items in order. */
  function ParseAll<R, K>(raw: seq<R>, parse: R -> Option<K>): (r: Option<seq<K>>)
    ensures r.Some? <==> forall i :: 0 <= i < |raw| ==> parse(raw[i]).Some?
    ensures r.Some? ==> |r.value| == |raw| && forall i :: 0 <= i < |raw| ==> r.value[i] == parse(raw[i]).value
  {
    if raw == [] then Some([])
    else
      var head := parse(raw[0]);
      var tail := ParseAll(raw[1..], parse);
      if head.None? then None
      else if tail.None? then
        assert !parse(raw[1..][0]).Some? || exists i :: 0 <= i < |raw| - 1 && !parse(raw[1..][i]).Some?;
        None
      else Some([head.value] + tail.value)
  }

  /**
   * The nested serializers' field checks, one per auxiliary entity. Text
   * fields are trimmed before their blank, length and format rules and are
   * stored trimmed; the phone-number field tests the trimmed text for blank
   * and hands the text as sent to the phone-number library.
   */
  function ParsePhone(v: Validators, r: RawItem): Option<Phone>
  {
    if Strip(r.value) == "" || !v.isPhoneNumber(r.value) then None
    else match KindOr(r.code, PhoneTypeOf, DefaultPhoneType)
      case None => None
      case Some(k) => Some(Phone(r.value, k.Code()))
  }

  function ParseEmail(v: Validators, r: RawItem): Option<Email>
  {
    var email := Strip(r.value);
    if !(0 < |email| <= EmailMaxLength && v.isEmail(email)) then None
    else match KindOr(r.code, EmailTypeOf, DefaultEmailType)
      case None => None
      case Some(k) => Some(Email(email, k.Code()))
  }

  function ParseAddress(r: RawItem): Option<Address>
  {
    var address := Strip(r.value);
    if !(0 < |address| <= AddressMaxLength) then None
    else match KindOr(r.code, AddressTypeOf, DefaultAddressType)
      case None => None
      case Some(k) => Some(Kinds.Address(address, k.Code()))
  }

  function ParseImportantDate(v: Validators, r: RawItem): Option<ImportantDate>
  {
    if !v.isDate(r.value) then None
    else match KindOr(r.code, ImportantDateTypeOf, DefaultImportantDateType)
      case None => None
      case Some(k) => Some(ImportantDate(r.value, k.Code()))
  }

  function ParseRelatedPerson(r: RawItem): Option<RelatedPerson>
  {
    var name := Strip(r.value);
    if !(0 < |name| <= RelatedPersonNameMaxLength) then None
    else match KindOr(r.code, RelatedPersonTypeOf, DefaultRelatedPersonType)
      case None => None
      case Some(k) => Some(RelatedPerson(name, k.Code()))
  }

  function ParseTag(r: RawTag): Option<Tag>
  {
    match KindOr(r.code, TagKindOf, DefaultTag)
    case None => None
    case Some(k) => Some(Tag(k.Code()))
  }

  /** `PhonesSerializer(many=True)`: passes iff every phone item does, keeping each parsed item in order. */
  function ParsePhones(v: Validators, raw: seq<RawItem>): (r: Option<seq<Phone>>)
    ensures r.Some? <==> forall i :: 0 <= i < |raw| ==> ParsePhone(v, raw[i]).Some?
    ensures r.Some? ==> |r.value| == |raw| && forall i :: 0 <= i < |raw| ==> Some(r.value[i]) == ParsePhone(v, raw[i])
  {
    ParseAll(raw, r => ParsePhone(v, r))
  }

  /** `EmailSerializer(many=True)`: passes iff every email item does, keeping each parsed item in order. */
  function ParseEmails(v: Validators, raw: seq<RawItem>): (r: Option<seq<Email>>)
    ensures r.Some? <==> forall i :: 0 <= i < |raw| ==> ParseEmail(v, raw[i]).Some?
    ensures r.Some? ==> |r.value| == |raw| && forall i :: 0 <= i < |raw| ==> Some(r.value[i]) == ParseEmail(v, raw[i])
  {
    ParseAll(raw, r => ParseEmail(v, r))
  }

  /** `AddressSerializer(many=True)`: passes iff every address item does, keeping each parsed item in order. */
  function ParseAddresses(raw: seq<RawItem>): (r: Option<seq<Kinds.Address>>)
    ensures r.Some? <==> forall i :: 0 <= i < |raw| ==> ParseAddress(raw[i]).Some?
    ensures r.Some? ==> |r.value| == |raw| && forall i :: 0 <= i < |raw| ==> Some(r.value[i]) == ParseAddress(raw[i])
  {
    ParseAll(raw, ParseAddress)
  }

  /** `ImportantDateSerializer(many=True)`: passes iff every important-date item does, keeping each parsed item in order. */
  function ParseImportantDates(v: Validators, raw: seq<RawItem>): (r: Option<seq<ImportantDate>>)
    ensures r.Some? <==> forall i :: 0 <= i < |raw| ==> ParseImportantDate(v, raw[i]).Some?
    ensures r.Some? ==> |r.value| == |raw| && forall i :: 0 <= i < |raw| ==> Some(r.value[i]) == ParseImportantDate(v, raw[i])
  {
    ParseAll(raw, r => ParseImportantDate(v, r))
  }

  /** `RelatedPersonSerializer(many=True)`: passes iff every related-person item does, keeping each parsed item in order. */
  function ParseRelatedPersons(raw: seq<RawItem>): (r: Option<seq<RelatedPerson>>)
    ensures r.Some? <==> forall i :: 0 <= i < |raw| ==> ParseRelatedPerson(raw[i]).Some?
    ensures r.Some? ==> |r.value| == |raw| && forall i :: 0 <= i < |raw| ==> Some(r.value[i]) == ParseRelatedPerson(raw[i])
  {
    ParseAll(raw, ParseRelatedPerson)
  }

  /** `TagSerializer(many=True)`: passes iff every tag item does, keeping each parsed item in order. */
  function ParseTags(raw: seq<RawTag>): (r: Option<seq<Tag>>)
    ensures r.Some? <==> forall i :: 0 <= i < |raw| ==> ParseTag(raw[i]).Some?
    ensures r.Some? ==> |r.value| == |raw| && forall i :: 0 <= i < |raw| ==> Some(r.value[i]) == ParseTag(raw[i])
  {
    ParseAll(raw, ParseTag)
  }

  /** A required column: present, and trimmed it is neither blank nor longer than `max`. */
  predicate RequiredText(s: Option<string>, max: nat)
  {
    s.Some? && 0 < |Strip(s.value)| <= max
  }

  /** An optional, blank-allowed column: absent, or trimmed at most `max` characters. */
  predicate OptionalText(s: Option<string>, max: nat)
  {
    s.None? || |Strip(s.value)| <= max
  }

  /** The declared fields of the registration serializer, named by their keys in an error response. */
  datatype Field =
    | Name | LastName | Company | Website | Sip | Notes
    | Phones | Emails | Address | ImportantDates | RelatedPersons | Tags
  {
    function Key(): string
    {
      match this
      case Name => "name" case LastName => "last_name" case Company => "company"
      case Website => "website" case Sip => "sip" case Notes => "notes"
      case Phones => "phones" case Emails => "emails" case Address => "address"
      case ImportantDates => "important_dates" case RelatedPersons => "related_persons"
      case Tags => "tags"
    }
  }

  const AllFields: set<Field> :=
    {Name, LastName, Company, Website, Sip, Notes, Phones, Emails, Field.Address, ImportantDates, RelatedPersons, Tags}

  lemma AllFieldsComplete()
    ensures forall f: Field :: f in AllFields
  {
    forall f: Field ensures f in AllFields {
      match f
      case Name => case LastName => case Company => case Website => case Sip => case Notes =>
      case Phones => case Emails => case Address => case ImportantDates => case RelatedPersons =>
      case Tags =>
    }
  }

  /** The check of one declared field: its length, blank and format rules, or each nested item's. */
  predicate FieldOk(v: Validators, req: RegisterRequest, f: Field)
  {
    match f
    case Name => RequiredText(req.name, NameMaxLength)
    case LastName => RequiredText(req.lastName, LastNameMaxLength)
    case Company => OptionalText(req.company, CompanyMaxLength)
    case Website =>
      OptionalText(req.website, WebsiteMaxLength)
      && (req.website.None? || Strip(req.website.value) == "" || v.isUrl(Strip(req.website.value)))
    case Sip => OptionalText(req.sip, SipMaxLength)
    case Notes => OptionalText(req.notes, NotesMaxLength)
    case Phones => req.phones.Some? && ParsePhones(v, req.phones.value).Some?
    case Emails => req.emails.Some? && ParseEmails(v, req.emails.value).Some?
    case Address => req.address.Some? && ParseAddresses(req.address.value).Some?
    case ImportantDates => req.importantDates.Some? && ParseImportantDates(v, req.importantDates.value).Some?
    case RelatedPersons => req.relatedPersons.Some? && ParseRelatedPersons(req.relatedPersons.value).Some?
    case Tags => req.tags.Some? && ParseTags(req.tags.value).Some?
  }

  /**
   * What the validated data is built from: both names present and not blank
   * once trimmed, and every nested list present with all its items passing.
   */
  predicate Parses(v: Validators, req: RegisterRequest)
  {
    && RequiredText(req.name, NameMaxLength) && RequiredText(req.lastName, LastNameMaxLength)
    && req.phones.Some? && ParsePhones(v, req.phones.value).Some?
    && req.emails.Some? && ParseEmails(v, req.emails.value).Some?
    && req.address.Some? && ParseAddresses(req.address.value).Some?
    && req.importantDates.Some? && ParseImportantDates(v, req.importantDates.value).Some?
    && req.relatedPersons.Some? && ParseRelatedPersons(req.relatedPersons.value).Some?
    && req.tags.Some? && ParseTags(req.tags.value).Some?
  }

  /** The declared fields that fail their checks: each field is reported exactly when its own check fails. */
  function FieldErrorsOf(v: Validators, req: RegisterRequest): (bad: set<Field>)
    ensures forall f :: f in bad <==> !FieldOk(v, req, f)
    ensures bad == {} ==> Parses(v, req)
  {
    AllFieldsComplete();
    var bad := set f | f in AllFields && !FieldOk(v, req, f);
    assert bad == {} ==> Parses(v, req) by {
      if bad == {} {
        assert forall f :: f in AllFields ==> FieldOk(v, req, f) by {
          forall f | f in AllFields ensures FieldOk(v, req, f) {
            assert f !in bad;
          }
        }
        assert FieldOk(v, req, Name) && FieldOk(v, req, LastName);
        assert FieldOk(v, req, Phones) && FieldOk(v, req, Emails) && FieldOk(v, req, Field.Address);
        assert FieldOk(v, req, ImportantDates) && FieldOk(v, req, RelatedPersons) && FieldOk(v, req, Tags);
      }
    }
    bad
  }

  /** The validated data of a request whose declared fields all pass. */
  function ToData(v: Validators, req: RegisterRequest): (d: ContactData)
    requires Parses(v, req)
    ensures d.name == Strip(req.name.value) && d.lastName == Strip(req.lastName.value)
    ensures d.company == StripOpt(req.company) && d.website == StripOpt(req.website)
    ensures d.sip == StripOpt(req.sip) && d.notes == StripOpt(req.notes)
    ensures d.phones.Some? && |d.phones.value| == |req.phones.value|
    ensures forall i :: 0 <= i < |req.phones.value| ==> Some(d.phones.value[i]) == ParsePhone(v, req.phones.value[i])
    ensures d.emails.Some? && |d.emails.value| == |req.emails.value|
    ensures forall i :: 0 <= i < |req.emails.value| ==> Some(d.emails.value[i]) == ParseEmail(v, req.emails.value[i])
    ensures d.address.Some? && |d.address.value| == |req.address.value|
    ensures forall i :: 0 <= i < |req.address.value| ==> Some(d.address.value[i]) == ParseAddress(req.address.value[i])
    ensures d.importantDates.Some? && |d.importantDates.value| == |req.importantDates.value|
    ensures forall i :: 0 <= i < |req.importantDates.value| ==>
      Some(d.importantDates.value[i]) == ParseImportantDate(v, req.importantDates.value[i])
    ensures d.relatedPersons.Some? && |d.relatedPersons.value| == |req.relatedPersons.value|
    ensures forall i :: 0 <= i < |req.relatedPersons.value| ==>
      Some(d.relatedPersons.value[i]) == ParseRelatedPerson(req.relatedPersons.value[i])
    ensures d.tags.Some? && |d.tags.value| == |req.tags.value|
    ensures forall i :: 0 <= i < |req.tags.value| ==> Some(d.tags.value[i]) == ParseTag(req.tags.value[i])
  {
    ContactData(
      Strip(req.name.value), Strip(req.lastName.value),
      StripOpt(req.company), StripOpt(req.website), StripOpt(req.sip), StripOpt(req.notes),
      ParsePhones(v, req.phones.value),
      ParseEmails(v, req.emails.value),
      ParseAddresses(req.address.value),
      ParseImportantDates(v, req.importantDates.value),
      ParseRelatedPersons(req.relatedPersons.value),
      ParseTags(req.tags.value))
  }

  /**
   * `ContactsRegisterSerializer.validate`: an empty name or last name is
   * rejected. The phones list is compared with the string "", which a list
   * never equals, so that test rejects nothing. Passing data is returned as is.
   */
  function Validate(data: ContactData): (r: Checked<ContactData>)
    ensures r.Valid? <==> data.name != "" && data.lastName != ""
    ensures r.Valid? ==> r.data == data
    ensures r.Invalid? ==> r.error == NonFieldError(MissingNameMessage)
  {
    if data.name == "" || data.lastName == "" then Invalid(NonFieldError(MissingNameMessage))
    else Valid(data)
  }

  /** The outcome of `validate` does not depend on the phones at all, so an empty list passes. */
  lemma ValidateIgnoresPhones(data: ContactData, phones: Option<seq<Phone>>)
    ensures Validate(data.(phones := phones)).Valid? == Validate(data).Valid?
    ensures data.name != "" && data.lastName != "" ==> Validate(data.(phones := Some([]))).Valid?
  {
  }

  /** A name or last name of blanks only is reported blank, however long it is. */
  lemma BlankNamesRejected(v: Validators, req: RegisterRequest)
    requires req.name.Some? && forall i :: 0 <= i < |req.name.value| ==> IsSpace(req.name.value[i])
    ensures Name in FieldErrorsOf(v, req)
    ensures IsValid(v, req).Invalid?
  {
    StripBlank(req.name.value);
  }

  /** A valid registration stores its names trimmed. */
  lemma StoredNamesTrimmed(v: Validators, req: RegisterRequest)
    requires IsValid(v, req).Valid?
    ensures IsValid(v, req).data.name == Strip(req.name.value) && IsValid(v, req).data.name != ""
    ensures IsValid(v, req).data.lastName == Strip(req.lastName.value) && IsValid(v, req).data.lastName != ""
  {
  }

  /** `is_valid()`: the declared fields are checked first and `validate` runs only if they all pass. */
  function IsValid(v: Validators, req: RegisterRequest): (r: Checked<ContactData>)
    ensures r.Valid? <==> FieldErrorsOf(v, req) == {}
    ensures r.Valid? ==> Parses(v, req)
    ensures FieldErrorsOf(v, req) != {} ==> r == Invalid(FieldErrors(FieldErrorsOf(v, req)))
    ensures r.Valid? ==> r.data == ToData(v, req)
  {
    var bad := FieldErrorsOf(v, req);
    if bad != {} then Invalid(FieldErrors(bad))
    else Validate(ToData(v, req))
  }

  /** A request missing any of the six nested lists fails the declared-field checks. */
  lemma NestedListsRequired(v: Validators, req: RegisterRequest)
    requires req.phones.None? || req.emails.None? || req.address.None?
          || req.importantDates.None? || req.relatedPersons.None? || req.tags.None?
    ensures IsValid(v, req).Invalid?
  {
  }

  /** A phone whose kind code is not one of the choices makes the whole request invalid. */
  lemma UnknownPhoneKindRejected(v: Validators, req: RegisterRequest, i: nat)
    requires req.phones.Some? && i < |req.phones.value|
    requires req.phones.value[i].code.Some? && PhoneTypeOf(req.phones.value[i].code.value).None?
    ensures IsValid(v, req).Invalid?
  {
    assert ParsePhone(v, req.phones.value[i]).None?;
    assert Phones in FieldErrorsOf(v, req);
  }

  /** A registered phone without a kind code gets the default one; with a code, the code must be a choice. */
  lemma PhoneKindDefaults(v: Validators, value: string, code: Option<string>)
    requires Strip(value) != "" && v.isPhoneNumber(value)
    ensures code.None? ==> ParsePhone(v, RawItem(value, code)) == Some(Phone(value, "MO"))
    ensures code.Some? ==> (ParsePhone(v, RawItem(value, code)).Some? <==> PhoneTypeOf(code.value).Some?)
  {
  }

  /** Every row a valid registration would create carries a kind code drawn from the choices. */
  lemma RegisteredKindsAreChoices(v: Validators, req: RegisterRequest)
    requires IsValid(v, req).Valid?
    ensures var d := IsValid(v, req).data;
      && (forall i :: 0 <= i < |d.phones.value| ==> PhoneTypeOf(d.phones.value[i].phoneType).Some?)
      && (forall i :: 0 <= i < |d.emails.value| ==> EmailTypeOf(d.emails.value[i].emailType).Some?)
      && (forall i :: 0 <= i < |d.address.value| ==> AddressTypeOf(d.address.value[i].addressType).Some?)
      && (forall i :: 0 <= i < |d.importantDates.value| ==>
            ImportantDateTypeOf(d.importantDates.value[i].importantDateType).Some?)
      && (forall i :: 0 <= i < |d.relatedPersons.value| ==>
            RelatedPersonTypeOf(d.relatedPersons.value[i].relatedPersonType).Some?)
      && (forall i :: 0 <= i < |d.tags.value| ==> TagKindOf(d.tags.value[i].tag).Some?)
  {
    var d := IsValid(v, req).data;
  }

  /** The contact row `create` builds: the scalar fields only, with its owner. */
  function ContactRow(data: ContactData, user: Id): (f: ContactFields)
    ensures f.name == data.name && f.lastName == data.lastName && f.user == user
    ensures f.company == data.company && f.website == data.website
    ensures f.sip == data.sip && f.notes == data.notes
  {
    ContactFields(data.name, data.lastName, data.company, data.website, data.sip, data.notes, user)
  }

  /**
   * `ContactsRegisterSerializer.create`: pops the six nested lists (an absent
   * one counts as empty), creates the contact from the remaining scalar fields,
   * then for each list creates one row per item and adds it to that
   * association. Existing rows are never updated or removed.
   */
  method Create(db: ContactDb, data: ContactData, user: Id, now: Stamp)
    returns (contact: Record<ContactFields>)
    requires db.Valid()
    modifies db.Repr()
    ensures db.Valid()
    ensures contact == Record(contact.id, now, now, true, ContactRow(data, user))
    ensures contact.id !in old(db.contacts.rows)
    ensures db.contacts.rows == old(db.contacts.rows)[contact.id := contact]
    ensures contact.id !in old(db.links) && contact.id in db.links
    ensures db.links == old(db.links)[contact.id := db.links[contact.id]]
    ensures var l := db.links[contact.id];
      && Appended(old(db.phones.rows), db.phones.rows, data.phones.GetOr([]), now, {}, l.phones)
      && Appended(old(db.emails.rows), db.emails.rows, data.emails.GetOr([]), now, {}, l.emails)
      && Appended(old(db.addresses.rows), db.addresses.rows, data.address.GetOr([]), now, {}, l.address)
      && Appended(old(db.importantDates.rows), db.importantDates.rows, data.importantDates.GetOr([]), now, {}, l.importantDates)
      && Appended(old(db.relatedPersons.rows), db.relatedPersons.rows, data.relatedPersons.GetOr([]), now, {}, l.relatedPersons)
      && Appended(old(db.tags.rows), db.tags.rows, data.tags.GetOr([]), now, {}, l.tags)
  {
    var phonesData := data.phones.GetOr([]);
    var emailsData := data.emails.GetOr([]);
    var addressesData := data.address.GetOr([]);
    var importantDatesData := data.importantDates.GetOr([]);
    var relatedPersonsData := data.relatedPersons.GetOr([]);
    var tagsData := data.tags.GetOr([]);

    contact := db.CreateContact(ContactRow(data, user), now);
    ghost var l0 := db.links;
    db.AddPhones(contact.id, phonesData, now);
    ghost var linksEmails := db.links;
    db.AddEmails(contact.id, emailsData, now);
    UpdateTwice(l0, contact.id, linksEmails[contact.id], db.links[contact.id]);
    ghost var linksAddresses := db.links;
    db.AddAddresses(contact.id, addressesData, now);
    UpdateTwice(l0, contact.id, linksAddresses[contact.id], db.links[contact.id]);
    ghost var linksImportantDates := db.links;
    db.AddImportantDates(contact.id, importantDatesData, now);
    UpdateTwice(l0, contact.id, linksImportantDates[contact.id], db.links[contact.id]);
    ghost var linksRelatedPersons := db.links;
    db.AddRelatedPersons(contact.id, relatedPersonsData, now);
    UpdateTwice(l0, contact.id, linksRelatedPersons[contact.id], db.links[contact.id]);
    ghost var linksTags := db.links;
    db.AddTags(contact.id, tagsData, now);
    UpdateTwice(l0, contact.id, linksTags[contact.id], db.links[contact.id]);
  }
}
