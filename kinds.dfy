/**
 * The auxiliary entities a contact links to (phone, email, address,
 * important date, related person, tag): each one value field and one kind
 * drawn from a fixed set of two-letter codes, with a default kind.
 */
module Kinds {
  import opened Options

  /** Phone kinds: mobile, work, home, main, work fax, home fax, pager, other. */
  datatype PhoneType = MO | WO | HO | MA | WF | HF | LO | OT {
    /** The stored two-letter code; reading it back gives this kind. */
    function Code(): (s: string)
      ensures |s| == 2 && PhoneTypeOf(s) == Some(this)
    {
      match this
      case MO => "MO" case WO => "WO" case HO => "HO" case MA => "MA"
      case WF => "WF" case HF => "HF" case LO => "LO" case OT => "OT"
    }
  }

  /** The keys of `PHONE_TYPE_CHOICES`. */
  const PhoneTypeChoices: set<string> := {"MO", "WO", "HO", "MA", "WF", "HF", "LO", "OT"}

  /** The `choices` check on a phone kind code: exactly the dictionary's keys are accepted. */
  function PhoneTypeOf(s: string): (k: Option<PhoneType>)
    ensures k.Some? <==> s in PhoneTypeChoices
    ensures k.Some? ==> |s| == 2
  {
    match s
    case "MO" => Some(PhoneType.MO) case "WO" => Some(PhoneType.WO)
    case "HO" => Some(PhoneType.HO) case "MA" => Some(PhoneType.MA)
    case "WF" => Some(PhoneType.WF) case "HF" => Some(PhoneType.HF)
    case "LO" => Some(PhoneType.LO) case "OT" => Some(PhoneType.OT)
    case _ => None
  }

  /** Email kinds: main, work, other. */
  datatype EmailType = MA | WO | OT {
    function Code(): (s: string)
      ensures |s| == 2 && EmailTypeOf(s) == Some(this)
    {
      match this
      case MA => "MA" case WO => "WO" case OT => "OT"
    }
  }

  /** The keys of `EMAIL_TYPE_CHOICES`. */
  const EmailTypeChoices: set<string> := {"MA", "WO", "OT"}

  /** The `choices` check on a email kind code: exactly the dictionary's keys are accepted. */
  function EmailTypeOf(s: string): (k: Option<EmailType>)
    ensures k.Some? <==> s in EmailTypeChoices
    ensures k.Some? ==> |s| == 2
  {
    match s
    case "MA" => Some(EmailType.MA) case "WO" => Some(EmailType.WO)
    case "OT" => Some(EmailType.OT)
    case _ => None
  }

  /** Address kinds: main, work, other. */
  datatype AddressType = MA | WO | OT {
    function Code(): (s: string)
      ensures |s| == 2 && AddressTypeOf(s) == Some(this)
    {
      match this
      case MA => "MA" case WO => "WO" case OT => "OT"
    }
  }

  /** The keys of `ADDRESS_TYPE_CHOICES`. */
  const AddressTypeChoices: set<string> := {"MA", "WO", "OT"}

  /** The `choices` check on a address kind code: exactly the dictionary's keys are accepted. */
  function AddressTypeOf(s: string): (k: Option<AddressType>)
    ensures k.Some? <==> s in AddressTypeChoices
    ensures k.Some? ==> |s| == 2
  {
    match s
    case "MA" => Some(AddressType.MA) case "WO" => Some(AddressType.WO)
    case "OT" => Some(AddressType.OT)
    case _ => None
  }

  /** Important-date kinds: birthday, anniversary, other. */
  datatype ImportantDateType = BI | AN | OT {
    function Code(): (s: string)
      ensures |s| == 2 && ImportantDateTypeOf(s) == Some(this)
    {
      match this
      case BI => "BI" case AN => "AN" case OT => "OT"
    }
  }

  /** The keys of `IMPORTANT_DATE_TYPE_CHOICES`. */
  const ImportantDateTypeChoices: set<string> := {"BI", "AN", "OT"}

  /** The `choices` check on a important-date kind code: exactly the dictionary's keys are accepted. */
  function ImportantDateTypeOf(s: string): (k: Option<ImportantDateType>)
    ensures k.Some? <==> s in ImportantDateTypeChoices
    ensures k.Some? ==> |s| == 2
  {
    match s
    case "BI" => Some(ImportantDateType.BI) case "AN" => Some(ImportantDateType.AN)
    case "OT" => Some(ImportantDateType.OT)
    case _ => None
  }

  /**
   * Related-person kinds: assistant, brother, son or daughter, partner,
   * father, friend, supervisor, mother, business partner, referral, relative,
   * sister, spouse, other.
   */
  datatype RelatedPersonType = AS | BR | SO | CO | FA | FR | SU | MO | PA | RE | FY | SI | SP | OT {
    function Code(): (s: string)
      ensures |s| == 2 && RelatedPersonTypeOf(s) == Some(this)
    {
      match this
      case AS => "AS" case BR => "BR" case SO => "SO" case CO => "CO"
      case FA => "FA" case FR => "FR" case SU => "SU" case MO => "MO"
      case PA => "PA" case RE => "RE" case FY => "FY" case SI => "SI"
      case SP => "SP" case OT => "OT"
    }
  }

  /** The keys of `RELATED_PERSON_TYPE_CHOICES`. */
  const RelatedPersonTypeChoices: set<string> := {"AS", "BR", "SO", "CO", "FA", "FR", "SU", "MO", "PA", "RE", "FY", "SI", "SP", "OT"}

  /** The `choices` check on a related-person kind code: exactly the dictionary's keys are accepted. */
  function RelatedPersonTypeOf(s: string): (k: Option<RelatedPersonType>)
    ensures k.Some? <==> s in RelatedPersonTypeChoices
    ensures k.Some? ==> |s| == 2
  {
    match s
    case "AS" => Some(RelatedPersonType.AS) case "BR" => Some(RelatedPersonType.BR)
    case "SO" => Some(RelatedPersonType.SO) case "CO" => Some(RelatedPersonType.CO)
    case "FA" => Some(RelatedPersonType.FA) case "FR" => Some(RelatedPersonType.FR)
    case "SU" => Some(RelatedPersonType.SU) case "MO" => Some(RelatedPersonType.MO)
    case "PA" => Some(RelatedPersonType.PA) case "RE" => Some(RelatedPersonType.RE)
    case "FY" => Some(RelatedPersonType.FY) case "SI" => Some(RelatedPersonType.SI)
    case "SP" => Some(RelatedPersonType.SP) case "OT" => Some(RelatedPersonType.OT)
    case _ => None
  }

  /** Tag kinds: customers, friends, suppliers. */
  datatype TagKind = CU | FR | PR {
    function Code(): (s: string)
      ensures |s| == 2 && TagKindOf(s) == Some(this)
    {
      match this
      case CU => "CU" case FR => "FR" case PR => "PR"
    }
  }

  /** The keys of `TAG_CHOICES`. */
  const TagKindChoices: set<string> := {"CU", "FR", "PR"}

  /** The `choices` check on a tag kind code: exactly the dictionary's keys are accepted. */
  function TagKindOf(s: string): (k: Option<TagKind>)
    ensures k.Some? <==> s in TagKindChoices
    ensures k.Some? ==> |s| == 2
  {
    match s
    case "CU" => Some(TagKind.CU) case "FR" => Some(TagKind.FR)
    case "PR" => Some(TagKind.PR)
    case _ => None
  }

  /** The kind each model gives a row created without one. */
  const DefaultPhoneType := PhoneType.MO
  const DefaultEmailType := EmailType.MA
  const DefaultAddressType := AddressType.MA
  const DefaultImportantDateType := ImportantDateType.BI
  const DefaultRelatedPersonType := RelatedPersonType.FR
  const DefaultTag := TagKind.FR

  /**
   * The fields of each auxiliary model besides the base model's. A kind is
   * stored as its two-letter code: `choices` are checked by serializers, not
   * by `objects.create`, so a row may hold a code outside the choices.
   */
  datatype Phone = Phone(phone: string, phoneType: string)
  datatype Email = Email(email: string, emailType: string)
  datatype Address = Address(address: string, addressType: string)
  datatype ImportantDate = ImportantDate(importantDate: string, importantDateType: string)
  datatype RelatedPerson = RelatedPerson(name: string, relatedPersonType: string)
  datatype Tag = Tag(tag: string)

  /** A code is accepted only for the kind it names: the choice sets are exactly the codes. */
  lemma PhoneTypeOfInverse(s: string)
    ensures PhoneTypeOf(s).Some? ==> PhoneTypeOf(s).value.Code() == s
  {
  }

  lemma EmailTypeOfInverse(s: string)
    ensures EmailTypeOf(s).Some? ==> EmailTypeOf(s).value.Code() == s
  {
  }

  lemma AddressTypeOfInverse(s: string)
    ensures AddressTypeOf(s).Some? ==> AddressTypeOf(s).value.Code() == s
  {
  }

  lemma ImportantDateTypeOfInverse(s: string)
    ensures ImportantDateTypeOf(s).Some? ==> ImportantDateTypeOf(s).value.Code() == s
  {
  }

  lemma RelatedPersonTypeOfInverse(s: string)
    ensures RelatedPersonTypeOf(s).Some? ==> RelatedPersonTypeOf(s).value.Code() == s
  {
  }

  lemma TagKindOfInverse(s: string)
    ensures TagKindOf(s).Some? ==> TagKindOf(s).value.Code() == s
  {
  }

  /**
   * Format checks the source delegates to libraries, given and not
   * modelled: the serializer phone-number field's parse for region MX, the
   * phone-number model column's own validator (default region), and email,
   * URL and date parsing.
   */
  datatype Validators = Validators(
    isPhoneNumber: string -> bool,
    isModelPhoneNumber: string -> bool,
    isEmail: string -> bool,
    isUrl: string -> bool,
    isDate: string -> bool)
}
