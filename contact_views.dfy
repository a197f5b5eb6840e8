/**
 * The contact endpoints: creation through the registration serializer, the
 * caller- and active-scoped reads, the list's flattening of nested
 * collections, the scoped soft delete and the append-only partial update.
 */
module ContactViews {
  import opened Options
  import opened SoftDelete
  import opened Kinds
  import opened ContactModels
  import opened ContactSerializers
  import opened TextFields

  /** Who sent the request: the anonymous user or an authenticated one. */
  datatype Caller = Anonymous | Authenticated(id: Id)

  /**
   * The outcome of `perform_create`: the saved contact, the serializer's
   * errors, or the failure to assign the anonymous user as owner.
   */
  datatype CreateOutcome = Created(contact: Record<ContactFields>) | Rejected(error: ContactError) | NoOwner

  /**
   * `perform_create`: a fresh registration serializer checks the payload;
   * only a valid one is saved, with the caller as owner. The anonymous user
   * cannot be assigned as owner, so nothing is written for it either.
   */
  method PerformCreate(db: ContactDb, v: Validators, req: RegisterRequest, caller: Caller, now: Stamp)
    returns (r: CreateOutcome)
    requires db.Valid()
    modifies db.Repr()
    ensures db.Valid()
    ensures r.Rejected? <==> IsValid(v, req).Invalid?
    ensures r.Rejected? ==> r.error == IsValid(v, req).error
    ensures r.NoOwner? <==> IsValid(v, req).Valid? && caller.Anonymous?
    ensures !r.Created? ==> unchanged(db.Repr())
    ensures r.Created? ==>
      && caller.Authenticated? && IsValid(v, req).Valid?
      && r.contact == Record(r.contact.id, now, now, true, ContactRow(IsValid(v, req).data, caller.id))
      && r.contact.id !in old(db.contacts.rows)
      && db.contacts.rows == old(db.contacts.rows)[r.contact.id := r.contact]
    ensures r.Created? ==>
      && r.contact.id !in old(db.links) && r.contact.id in db.links
      && db.links == old(db.links)[r.contact.id := db.links[r.contact.id]]
    ensures r.Created? ==> var d := IsValid(v, req).data; var l := db.links[r.contact.id];
      && Appended(old(db.phones.rows), db.phones.rows, d.phones.value, now, {}, l.phones)
      && Appended(old(db.emails.rows), db.emails.rows, d.emails.value, now, {}, l.emails)
      && Appended(old(db.addresses.rows), db.addresses.rows, d.address.value, now, {}, l.address)
      && Appended(old(db.importantDates.rows), db.importantDates.rows, d.importantDates.value, now, {}, l.importantDates)
      && Appended(old(db.relatedPersons.rows), db.relatedPersons.rows, d.relatedPersons.value, now, {}, l.relatedPersons)
      && Appended(old(db.tags.rows), db.tags.rows, d.tags.value, now, {}, l.tags)
  {
    var checked := IsValid(v, req);
    if checked.Invalid? {
      return Rejected(checked.error);
    }
    if caller.Anonymous? {
      return NoOwner;
    }
    var contact := Create(db, checked.data, caller.id, now);
    r := Created(contact);
  }

  /** `Contacts.objects.filter(user=request.user, is_active=True)`. */
  function OwnedActive(rows: map<Id, Record<ContactFields>>, user: Id): (scope: map<Id, Record<ContactFields>>)
    ensures forall k :: k in scope <==> k in rows && rows[k].isActive && rows[k].fields.user == user
    ensures forall k :: k in scope ==> scope[k] == rows[k]
  {
    map k | k in rows && rows[k].isActive && rows[k].fields.user == user :: rows[k]
  }

  /** The caller's contacts are the active contacts that the caller owns. */
  lemma OwnedActiveIsActiveOwned(rows: map<Id, Record<ContactFields>>, user: Id)
    ensures OwnedActive(rows, user).Keys <= ActiveObjects(rows).Keys
    ensures forall k :: k in ActiveObjects(rows) && rows[k].fields.user == user ==> k in OwnedActive(rows, user)
  {
  }

  /**
   * `get_object_or_404(queryset, pk=pk)` on the scoped queryset, as
   * `retrieve`, `destroy` and `partial_update` use it: another user's or a
   * deactivated contact is not found.
   */
  function ScopedLookup(rows: map<Id, Record<ContactFields>>, user: Id, pk: Id): (r: Lookup<ContactFields>)
    ensures r.Found? <==> pk in rows && rows[pk].isActive && rows[pk].fields.user == user
    ensures r.Found? ==> r.record == rows[pk]
  {
    var scope := OwnedActive(rows, user);
    if pk in scope then Found(scope[pk]) else Http404
  }

  /** The scoped lookup finds exactly what the unscoped one finds and the scope admits. */
  lemma ScopedLookupNarrowsGetObjectById(rows: map<Id, Record<ContactFields>>, user: Id, pk: Id)
    ensures ScopedLookup(rows, user, pk).Found? ==> GetObjectById(rows, Uuid(pk)) == ScopedLookup(rows, user, pk)
    ensures GetObjectById(rows, Uuid(pk)).Found? && !rows[pk].isActive ==> ScopedLookup(rows, user, pk).Http404?
  {
  }

  /// Flattening of the list representation

  /** A value of a serialised contact: a scalar, a list of nested objects, or a flat list. */
  datatype Value = Scalar(text: Option<string>) | Nested(rows: seq<map<string, string>>) | Flat(values: seq<string>)

  /** One serialised contact, as the dictionary the list loop mutates. */
  type Item = map<string, Value>

  /** A step either completes or raises after it already popped its key from the item. */
  datatype Step = Done(item: Item) | Raised(partial: Item)

  /** `[row[field] for row in rows]`: defined only when every row has the key. */
  function Project(rows: seq<map<string, string>>, field: string): (r: Option<seq<string>>)
    ensures r.Some? <==> forall i :: 0 <= i < |rows| ==> field in rows[i]
    ensures r.Some? ==> |r.value| == |rows| && forall i :: 0 <= i < |rows| ==> r.value[i] == rows[i][field]
  {
    if rows == [] then Some([])
    else if field !in rows[0] then None
    else
      match Project(rows[1..], field)
      case None =>
        assert exists i :: 0 <= i < |rows| - 1 && field !in rows[1..][i];
        None
      case Some(tail) => Some([rows[0][field]] + tail)
  }

  /**
   * `data = item.pop(from, []); item[to] = [d[field] for d in data]`. An
   * absent key pops as the empty list. Iterating an empty list or an empty
   * string yields nothing; an object without `field`, a string element, a
   * character or `None` raises once the key is already popped.
   */
  function FlattenStep(item: Item, from: string, to: string, field: string): (r: Step)
    ensures r.Raised? ==> r.partial == item - {from}
  {
    var popped := if from in item then item[from] else Nested([]);
    var rest := item - {from};
    match popped
    case Nested(rows) =>
      (match Project(rows, field)
       case None => Raised(rest)
       case Some(values) => Done(rest[to := Flat(values)]))
    case Flat(values) => if values == [] then Done(rest[to := Flat([])]) else Raised(rest)
    case Scalar(text) => if text == Some("") then Done(rest[to := Flat([])]) else Raised(rest)
  }

  /** One rename of the list loop body: pop `from`, write the `field` of each nested object under `to`. */
  datatype Rename = Rename(from: string, to: string, field: string)

  /** The six renames of the list loop body, in their order. */
  const Renames: seq<Rename> := [
    Rename("phones", "phone", "phone"),
    Rename("emails", "email", "email"),
    Rename("address", "address", "address"),
    Rename("important_dates", "important_date", "important_date"),
    Rename("related_persons", "related_person", "related_person"),
    Rename("tags", "tag", "tag")]

  /**
   * The renames applied in order, stopping at the first that raises. When
   * all complete, every key no rename names is kept with its value, every
   * new key that no later rename pops holds a flat list, and every old key
   * that no rename writes is gone.
   */
  function FlattenAll(item: Item, rs: seq<Rename>): Step
    decreases |rs|
  {
    if rs == [] then Done(item)
    else
      var step := FlattenStep(item, rs[0].from, rs[0].to, rs[0].field);
      if step.Raised? then step
      else FlattenAll(step.item, rs[1..])
  }

  /** The list loop body on one serialised contact. */
  function FlattenItem(item: Item): Step
  {
    FlattenAll(item, Renames)
  }

  /**
   * A completed step removes the old key, adds the new one holding the field
   * of every nested object in the same order, and leaves every other key as it was.
   */
  lemma FlattenStepRenames(item: Item, from: string, to: string, field: string)
    requires FlattenStep(item, from, to, field).Done?
    ensures var out := FlattenStep(item, from, to, field).item;
      && var rows := if from in item && item[from].Nested? then item[from].rows else [];
      && to in out && out[to].Flat? && |out[to].values| == |rows|
      && (forall i :: 0 <= i < |rows| ==> out[to].values[i] == rows[i][field])
      && (from != to ==> from !in out)
      && (forall k :: k != from && k != to ==> (k in out <==> k in item) && (k in item ==> out[k] == item[k]))
  {
  }

  /** An absent collection flattens to an empty list under the new key. */
  lemma FlattenStepAbsent(item: Item, from: string, to: string, field: string)
    requires from !in item
    ensures FlattenStep(item, from, to, field) == Done(item[to := Flat([])])
  {
    assert item - {from} == item;
  }

  /** An empty list or an empty string under the key iterates to nothing, so it flattens to the empty list. */
  lemma FlattenStepEmpty(item: Item, from: string, to: string, field: string)
    requires from in item && (item[from] == Nested([]) || item[from] == Flat([]) || item[from] == Scalar(Some("")))
    ensures FlattenStep(item, from, to, field) == Done((item - {from})[to := Flat([])])
  {
  }

  /**
   * A step raises exactly when the popped value is a list holding an object
   * without the field, a non-empty list of strings, a non-empty string or `None`.
   */
  lemma FlattenStepRaises(item: Item, from: string, to: string, field: string)
    ensures FlattenStep(item, from, to, field).Raised? <==>
      from in item &&
      ((item[from].Nested? && exists i :: 0 <= i < |item[from].rows| && field !in item[from].rows[i])
       || (item[from].Flat? && item[from].values != [])
       || (item[from].Scalar? && item[from].text != Some("")))
  {
  }

  /**
   * A rename whose old key no earlier rename touches raises on the item's own
   * value there, so the whole chain raises.
   */
  lemma {:induction false} FlattenAllRaises(item: Item, rs: seq<Rename>, i: nat)
    requires i < |rs| && rs[i].from in item && item[rs[i].from].Nested?
    requires exists n :: 0 <= n < |item[rs[i].from].rows| && rs[i].field !in item[rs[i].from].rows[n]
    requires forall j :: 0 <= j < i ==> rs[j].from != rs[i].from && rs[j].to != rs[i].from
    ensures FlattenAll(item, rs).Raised?
    decreases i
  {
    FlattenStepRaises(item, rs[0].from, rs[0].to, rs[0].field);
    var step := FlattenStep(item, rs[0].from, rs[0].to, rs[0].field);
    if i > 0 && step.Done? {
      FlattenStepRenames(item, rs[0].from, rs[0].to, rs[0].field);
      assert step.item[rs[i].from] == item[rs[i].from];
      assert forall j :: 1 <= j < |rs| ==> rs[j] == rs[1..][j - 1];
      FlattenAllRaises(step.item, rs[1..], i - 1);
    }
  }

  /** When all renames complete, every key no rename names is kept with its value. */
  lemma {:induction false} FlattenAllKeeps(item: Item, rs: seq<Rename>, k: string)
    requires FlattenAll(item, rs).Done?
    requires forall j :: 0 <= j < |rs| ==> k != rs[j].from && k != rs[j].to
    ensures k in FlattenAll(item, rs).item <==> k in item
    ensures k in item ==> FlattenAll(item, rs).item[k] == item[k]
    decreases |rs|
  {
    if rs != [] {
      var step := FlattenStep(item, rs[0].from, rs[0].to, rs[0].field);
      FlattenStepRenames(item, rs[0].from, rs[0].to, rs[0].field);
      assert forall j :: 0 <= j < |rs| - 1 ==> rs[1..][j] == rs[j + 1];
      FlattenAllKeeps(step.item, rs[1..], k);
    }
  }

  /** When all renames complete, a new key that no later rename pops holds a flat list. */
  lemma {:induction false} FlattenAllFlat(item: Item, rs: seq<Rename>, i: nat)
    requires FlattenAll(item, rs).Done? && i < |rs|
    requires forall j :: i < j < |rs| ==> rs[j].from != rs[i].to
    ensures rs[i].to in FlattenAll(item, rs).item && FlattenAll(item, rs).item[rs[i].to].Flat?
    decreases |rs|
  {
    var step := FlattenStep(item, rs[0].from, rs[0].to, rs[0].field);
    FlattenStepRenames(item, rs[0].from, rs[0].to, rs[0].field);
    assert forall j :: 0 <= j < |rs| - 1 ==> rs[1..][j] == rs[j + 1];
    if i > 0 {
      FlattenAllFlat(step.item, rs[1..], i - 1);
    } else if exists j :: 0 < j < |rs| && rs[j].to == rs[0].to {
      var j :| 0 < j < |rs| && rs[j].to == rs[0].to;
      FlattenAllFlat(step.item, rs[1..], j - 1);
    } else {
      FlattenAllKeeps(step.item, rs[1..], rs[0].to);
    }
  }

  /** When all renames complete, an old key that no rename writes is gone. */
  lemma {:induction false} FlattenAllPops(item: Item, rs: seq<Rename>, i: nat)
    requires FlattenAll(item, rs).Done? && i < |rs|
    requires forall j :: 0 <= j < |rs| ==> rs[j].to != rs[i].from
    ensures rs[i].from !in FlattenAll(item, rs).item
    decreases |rs|
  {
    var step := FlattenStep(item, rs[0].from, rs[0].to, rs[0].field);
    FlattenStepRenames(item, rs[0].from, rs[0].to, rs[0].field);
    assert forall j :: 0 <= j < |rs| - 1 ==> rs[1..][j] == rs[j + 1];
    if i > 0 {
      FlattenAllPops(step.item, rs[1..], i - 1);
    } else if exists j :: 0 < j < |rs| && rs[j].from == rs[0].from {
      var j :| 0 < j < |rs| && rs[j].from == rs[0].from;
      FlattenAllPops(step.item, rs[1..], j - 1);
    } else {
      FlattenAllKeeps(step.item, rs[1..], rs[0].from);
    }
  }

  /** A completed contact holds a flat list under each of the six new keys. */
  lemma FlattenItemFlatKeys(item: Item)
    requires FlattenItem(item).Done?
    ensures var out := FlattenItem(item).item;
      && "phone" in out && out["phone"].Flat? && "email" in out && out["email"].Flat?
      && "address" in out && out["address"].Flat?
      && "important_date" in out && out["important_date"].Flat?
      && "related_person" in out && out["related_person"].Flat?
      && "tag" in out && out["tag"].Flat?
  {
    forall i | 0 <= i < |Renames|
      ensures Renames[i].to in FlattenItem(item).item && FlattenItem(item).item[Renames[i].to].Flat?
    {
      FlattenAllFlat(item, Renames, i);
    }
  }

  /** A completed contact holds none of the five old plural keys. */
  lemma FlattenItemPopsKeys(item: Item)
    requires FlattenItem(item).Done?
    ensures var out := FlattenItem(item).item;
      "phones" !in out && "emails" !in out && "important_dates" !in out
      && "related_persons" !in out && "tags" !in out
  {
    FlattenAllPops(item, Renames, 0);
    FlattenAllPops(item, Renames, 1);
    FlattenAllPops(item, Renames, 3);
    FlattenAllPops(item, Renames, 4);
    FlattenAllPops(item, Renames, 5);
  }

  /** A completed contact keeps every key the loop does not name, with its value. */
  lemma FlattenItemKeepsOthers(item: Item, k: string)
    requires FlattenItem(item).Done?
    requires k !in {"phones", "emails", "important_dates", "related_persons", "tags"}
    requires k !in {"phone", "email", "address", "important_date", "related_person", "tag"}
    ensures k in FlattenItem(item).item <==> k in item
    ensures k in item ==> FlattenItem(item).item[k] == item[k]
  {
    FlattenAllKeeps(item, Renames, k);
  }

  /**
   * Nested related persons are serialised with keys `name` and
   * `related_person_type` only, so a contact with any related person makes
   * the loop raise: its `related_person` key does not exist.
   */
  lemma FlattenRaisesOnRelatedPersons(item: Item)
    requires "related_persons" in item && item["related_persons"].Nested?
    requires exists i :: 0 <= i < |item["related_persons"].rows| && "related_person" !in item["related_persons"].rows[i]
    ensures FlattenItem(item).Raised?
  {
    FlattenAllRaises(item, Renames, 4);
  }

  /**
   * `for item in data: ...`: each serialised contact is flattened in place
   * by the renames `rs` (the list loop's are `Renames`, so that
   * `FlattenAll(_, Renames)` is `FlattenItem`), in order. When an item
   * raises, the items before it are flattened, that item keeps the pops it
   * did, and the items after it are untouched.
   */
  method FlattenInPlace(data: array<Item>, rs: seq<Rename>) returns (ok: bool, ghost stop: nat)
    modifies data
    ensures stop <= data.Length
    ensures ok <==> stop == data.Length
    ensures forall i :: 0 <= i < stop ==> FlattenAll(old(data[i]), rs).Done? && data[i] == FlattenAll(old(data[i]), rs).item
    ensures !ok ==> FlattenAll(old(data[stop]), rs).Raised? && data[stop] == FlattenAll(old(data[stop]), rs).partial
    ensures forall i :: stop < i < data.Length ==> data[i] == old(data[i])
  {
    var i := 0;
    while i < data.Length
      invariant 0 <= i <= data.Length
      invariant forall j :: 0 <= j < i ==> FlattenAll(old(data[j]), rs).Done? && data[j] == FlattenAll(old(data[j]), rs).item
      invariant forall j :: i <= j < data.Length ==> data[j] == old(data[j])
    {
      var s := FlattenAll(data[i], rs);
      if s.Raised? {
        data[i] := s.partial;
        return false, i;
      }
      data[i] := s.item;
      i := i + 1;
    }
    return true, i;
  }

  /// Destroy

  datatype DestroyOutcome = Deleted | NotFound

  /**
   * `destroy`: the caller's active contact is deactivated and saved; the row
   * is kept. Anything else is not found and nothing changes.
   */
  method Destroy(db: ContactDb, user: Id, pk: Id, now: Stamp) returns (r: DestroyOutcome)
    requires db.Valid()
    modifies db.contacts
    ensures db.Valid()
    ensures r == Deleted <==> old(ScopedLookup(db.contacts.rows, user, pk)).Found?
    ensures r == Deleted ==>
      db.contacts.rows == old(db.contacts.rows)[pk := SoftDeleted(old(db.contacts.rows[pk]), now)]
    ensures r == NotFound ==> db.contacts.rows == old(db.contacts.rows)
    ensures ScopedLookup(db.contacts.rows, user, pk).Http404?
  {
    match ScopedLookup(db.contacts.rows, user, pk)
    case Http404 =>
      r := NotFound;
    case Found(contact) =>
      var saved := db.SaveContact(contact.(isActive := false), now);
      r := Deleted;
  }

  /** A second destroy of the same contact is not found and changes nothing. */
  lemma DestroyTwiceNotFound(rows: map<Id, Record<ContactFields>>, user: Id, pk: Id, now: Stamp)
    requires ScopedLookup(rows, user, pk).Found?
    ensures ScopedLookup(rows[pk := SoftDeleted(rows[pk], now)], user, pk).Http404?
    ensures GetObjectById(rows[pk := SoftDeleted(rows[pk], now)], Uuid(pk)).Found?
  {
  }

  /// Partial update

  /**
   * The scalar part of an update payload; `None` is an absent key. The
   * nullable columns also accept an explicit null (`Some(None)`).
   */
  datatype ContactPatch = ContactPatch(
    name: Option<string>,
    lastName: Option<string>,
    company: Option<Option<string>>,
    website: Option<Option<string>>,
    sip: Option<Option<string>>,
    notes: Option<Option<string>>)

  /**
   * A phone item of the update payload, read without a serializer:
   * `number` is `item["phone"]["number"]`, `phoneType` is
   * `item["phone_type"]` and `tag` is `item["tag"]`; `None` is a lookup that raises.
   */
  datatype PhonePatch = PhonePatch(number: Option<string>, phoneType: Option<string>, tag: Option<string>)

  /** Another nested item of the update payload: its value key and its kind key; `None` raises. */
  datatype ItemPatch = ItemPatch(value: Option<string>, kind: Option<string>)

  /**
   * An update payload. An absent nested list reads as the empty list; only
   * the number of tag items matters, because the tag loop never reads them.
   */
  datatype UpdateRequest = UpdateRequest(
    scalars: ContactPatch,
    phones: seq<PhonePatch>,
    emails: seq<ItemPatch>,
    address: seq<ItemPatch>,
    importantDates: seq<ItemPatch>,
    relatedPersons: seq<ItemPatch>,
    tagItems: nat)

  /**
   * The outcome of `partial_update`: done, not found in the scope, rejected
   * by the serializer, or an exception raised after some rows were written.
   */
  datatype UpdateOutcome = Updated | UpdateNotFound | UpdateRejected(fields: set<Field>) | UpdateRaised

  /**
   * The partial-mode check of the contact serializer. Its nested fields are
   * read-only, so only present scalar fields are checked, each on its
   * trimmed text.
   */
  predicate PatchFieldOk(v: Validators, p: ContactPatch, f: Field)
    ensures !PatchFieldOk(v, p, f) ==> f in {Name, LastName, Company, Website, Sip, Notes}
    ensures
      (|| (f == Name && p.name.None?) || (f == LastName && p.lastName.None?)
       || (f == Company && p.company.None?) || (f == Website && p.website.None?)
       || (f == Sip && p.sip.None?) || (f == Notes && p.notes.None?))
      ==> PatchFieldOk(v, p, f)
    ensures f == Name && p.name.Some? && Strip(p.name.value) == "" ==> !PatchFieldOk(v, p, f)
    ensures f == LastName && p.lastName.Some? && Strip(p.lastName.value) == "" ==> !PatchFieldOk(v, p, f)
  {
    match f
    case Name => p.name.None? || RequiredText(p.name, NameMaxLength)
    case LastName => p.lastName.None? || RequiredText(p.lastName, LastNameMaxLength)
    case Company => p.company.None? || OptionalText(p.company.value, CompanyMaxLength)
    case Website =>
      p.website.None? || p.website.value.None?
      || (|Strip(p.website.value.value)| <= WebsiteMaxLength
          && (Strip(p.website.value.value) == "" || v.isUrl(Strip(p.website.value.value))))
    case Sip => p.sip.None? || OptionalText(p.sip.value, SipMaxLength)
    case Notes => p.notes.None? || OptionalText(p.notes.value, NotesMaxLength)
    case _ => true
  }

  /** The fields a partial update payload fails on. */
  function PatchErrors(v: Validators, p: ContactPatch): (bad: set<Field>)
    ensures forall f :: f in bad <==> !PatchFieldOk(v, p, f)
    ensures bad <= {Name, LastName, Company, Website, Sip, Notes}
  {
    AllFieldsComplete();
    set f | f in AllFields && !PatchFieldOk(v, p, f)
  }

  /** An empty payload passes the partial-mode check. */
  lemma EmptyPatchValid(v: Validators)
    ensures PatchErrors(v, ContactPatch(None, None, None, None, None, None)) == {}
  {
    var p := ContactPatch(None, None, None, None, None, None);
    assert forall f :: f !in PatchErrors(v, p) by {
      forall f ensures PatchFieldOk(v, p, f) { }
    }
  }

  /** `serializer.save()` in partial mode: each present scalar, trimmed, replaces the stored one. */
  function Patched(f: ContactFields, p: ContactPatch): (g: ContactFields)
  {
    ContactFields(
      if p.name.Some? then Strip(p.name.value) else f.name,
      if p.lastName.Some? then Strip(p.lastName.value) else f.lastName,
      if p.company.Some? then StripOpt(p.company.value) else f.company,
      if p.website.Some? then StripOpt(p.website.value) else f.website,
      if p.sip.Some? then StripOpt(p.sip.value) else f.sip,
      if p.notes.Some? then StripOpt(p.notes.value) else f.notes,
      f.user)
  }

  /**
   * A patch never changes the owner, an empty patch changes nothing, patching
   * twice is patching once, and a present value is stored trimmed.
   */
  lemma PatchedProperties(f: ContactFields, p: ContactPatch)
    ensures Patched(f, p).user == f.user
    ensures Patched(f, ContactPatch(None, None, None, None, None, None)) == f
    ensures Patched(Patched(f, p), p) == Patched(f, p)
    ensures p.name.Some? ==> Patched(f, p).name == Strip(p.name.value)
    ensures p.name.Some? ==> Strip(Patched(f, p).name) == Patched(f, p).name
    ensures p.name.None? ==> Patched(f, p).name == f.name
    ensures p.lastName.Some? ==> Patched(f, p).lastName == Strip(p.lastName.value)
    ensures p.lastName.None? ==> Patched(f, p).lastName == f.lastName
    ensures p.company.Some? ==> Patched(f, p).company == StripOpt(p.company.value)
    ensures p.company.None? ==> Patched(f, p).company == f.company
    ensures p.website.Some? ==> Patched(f, p).website == StripOpt(p.website.value)
    ensures p.website.None? ==> Patched(f, p).website == f.website
    ensures p.sip.Some? ==> Patched(f, p).sip == StripOpt(p.sip.value)
    ensures p.sip.None? ==> Patched(f, p).sip == f.sip
    ensures p.notes.Some? ==> Patched(f, p).notes == StripOpt(p.notes.value)
    ensures p.notes.None? ==> Patched(f, p).notes == f.notes
  {
    if p.name.Some? {
      StripIdempotent(p.name.value);
    }
  }

  /** The first item whose keys raise, or the length when none does. */
  function FirstBadPhone(items: seq<PhonePatch>): (k: nat)
    ensures k <= |items|
    ensures forall i :: 0 <= i < k ==> items[i].number.Some? && items[i].phoneType.Some?
    ensures k < |items| ==> items[k].number.None? || items[k].phoneType.None?
  {
    if items == [] then 0
    else if items[0].number.None? || items[0].phoneType.None? then 0
    else
      var k := FirstBadPhone(items[1..]);
      assert forall i :: 1 <= i < k + 1 ==> items[i] == items[1..][i - 1];
      k + 1
  }

  function FirstBadItem(items: seq<ItemPatch>): (k: nat)
    ensures k <= |items|
    ensures forall i :: 0 <= i < k ==> items[i].value.Some? && items[i].kind.Some?
    ensures k < |items| ==> items[k].value.None? || items[k].kind.None?
  {
    if items == [] then 0
    else if items[0].value.None? || items[0].kind.None? then 0
    else
      var k := FirstBadItem(items[1..]);
      assert forall i :: 1 <= i < k + 1 ==> items[i] == items[1..][i - 1];
      k + 1
  }

  /** The rows `contact.<rel>.create(...)` writes for well-formed items, values and codes as given. */
  function PhoneRows(items: seq<PhonePatch>): (rows: seq<Phone>)
    requires forall i :: 0 <= i < |items| ==> items[i].number.Some? && items[i].phoneType.Some?
    ensures |rows| == |items|
    ensures forall i :: 0 <= i < |items| ==> rows[i] == Phone(items[i].number.value, items[i].phoneType.value)
  {
    seq(|items|, i requires 0 <= i < |items| => Phone(items[i].number.value, items[i].phoneType.value))
  }

  /** The values and kind codes of well-formed items. */
  predicate WellFormed(items: seq<ItemPatch>)
  {
    forall i :: 0 <= i < |items| ==> items[i].value.Some? && items[i].kind.Some?
  }

  function EmailRows(items: seq<ItemPatch>): (rows: seq<Email>)
    requires WellFormed(items)
    ensures |rows| == |items|
    ensures forall i :: 0 <= i < |items| ==> rows[i] == Email(items[i].value.value, items[i].kind.value)
  {
    seq(|items|, i requires 0 <= i < |items| => Email(items[i].value.value, items[i].kind.value))
  }

  function AddressRows(items: seq<ItemPatch>): (rows: seq<Kinds.Address>)
    requires WellFormed(items)
    ensures |rows| == |items|
    ensures forall i :: 0 <= i < |items| ==> rows[i] == Kinds.Address(items[i].value.value, items[i].kind.value)
  {
    seq(|items|, i requires 0 <= i < |items| => Kinds.Address(items[i].value.value, items[i].kind.value))
  }

  function ImportantDateRows(items: seq<ItemPatch>): (rows: seq<ImportantDate>)
    requires WellFormed(items)
    ensures |rows| == |items|
    ensures forall i :: 0 <= i < |items| ==> rows[i] == ImportantDate(items[i].value.value, items[i].kind.value)
  {
    seq(|items|, i requires 0 <= i < |items| => ImportantDate(items[i].value.value, items[i].kind.value))
  }

  function RelatedPersonRows(items: seq<ItemPatch>): (rows: seq<RelatedPerson>)
    requires WellFormed(items)
    ensures |rows| == |items|
    ensures forall i :: 0 <= i < |items| ==> rows[i] == RelatedPerson(items[i].value.value, items[i].kind.value)
  {
    seq(|items|, i requires 0 <= i < |items| => RelatedPerson(items[i].value.value, items[i].kind.value))
  }

  /**
   * The tag loop reads `phone_data`, the phone loop's variable, which after
   * that loop holds the last phone item: every tag row gets that item's `tag`.
   * With no phone item the name is unbound, and with no `tag` key the lookup
   * raises; either way only when there is a tag item to loop over.
   */
  function TagFromLastPhone(phones: seq<PhonePatch>, tagItems: nat): (r: Option<seq<Tag>>)
    ensures tagItems == 0 ==> r == Some([])
    ensures tagItems > 0 ==> (r.Some? <==> phones != [] && phones[|phones| - 1].tag.Some?)
    ensures r.Some? ==> |r.value| == tagItems
    ensures r.Some? && tagItems > 0 ==> forall i :: 0 <= i < tagItems ==> r.value[i] == Tag(phones[|phones| - 1].tag.value)
  {
    if tagItems == 0 then Some([])
    else if phones == [] || phones[|phones| - 1].tag.None? then None
    else Some(seq(tagItems, _ => Tag(phones[|phones| - 1].tag.value)))
  }

  /** Every nested item of the payload is well formed, so none of the five nested loops raises. */
  predicate NestedComplete(req: UpdateRequest)
  {
    && FirstBadPhone(req.phones) == |req.phones|
    && FirstBadItem(req.emails) == |req.emails|
    && FirstBadItem(req.address) == |req.address|
    && FirstBadItem(req.importantDates) == |req.importantDates|
    && FirstBadItem(req.relatedPersons) == |req.relatedPersons|
  }

  /** Every payload item is well formed and the tag loop does not raise. */
  predicate UpdateCompletes(req: UpdateRequest)
  {
    NestedComplete(req) && TagFromLastPhone(req.phones, req.tagItems).Some?
  }

  /** One collection of the update: rows for the well-formed prefix, then whether the loop finished. */
  method UpdatePhones(db: ContactDb, c: Id, items: seq<PhonePatch>, now: Stamp) returns (ok: bool)
    requires db.Valid() && c in db.contacts.rows
    modifies db, db.phones
    ensures db.Valid() && ok == (FirstBadPhone(items) == |items|)
    ensures db.contacts.rows == old(db.contacts.rows) && db.emails.rows == old(db.emails.rows)
    ensures db.addresses.rows == old(db.addresses.rows) && db.importantDates.rows == old(db.importantDates.rows)
    ensures db.relatedPersons.rows == old(db.relatedPersons.rows) && db.tags.rows == old(db.tags.rows)
    ensures c in db.links && db.links == old(db.links)[c := db.links[c]]
    ensures LinksGrew(old(db.links), db.links, c)
    ensures db.links[c] == LinksOf(old(db.links), c).(phones := db.links[c].phones)
    ensures Appended(old(db.phones.rows), db.phones.rows, PhoneRows(items[..FirstBadPhone(items)]), now,
                     LinksOf(old(db.links), c).phones, db.links[c].phones)
    ensures ok ==> Appended(old(db.phones.rows), db.phones.rows, PhoneRows(items), now,
                           LinksOf(old(db.links), c).phones, db.links[c].phones)
  {
    var k := FirstBadPhone(items);
    db.AddPhones(c, PhoneRows(items[..k]), now);
    ok := k == |items|;
    if ok {
      assert items[..k] == items;
    }
  }

  method UpdateEmails(db: ContactDb, c: Id, items: seq<ItemPatch>, now: Stamp) returns (ok: bool)
    requires db.Valid() && c in db.contacts.rows
    modifies db, db.emails
    ensures db.Valid() && ok == (FirstBadItem(items) == |items|)
    ensures db.contacts.rows == old(db.contacts.rows) && db.phones.rows == old(db.phones.rows)
    ensures db.addresses.rows == old(db.addresses.rows) && db.importantDates.rows == old(db.importantDates.rows)
    ensures db.relatedPersons.rows == old(db.relatedPersons.rows) && db.tags.rows == old(db.tags.rows)
    ensures c in db.links && db.links == old(db.links)[c := db.links[c]]
    ensures LinksGrew(old(db.links), db.links, c)
    ensures db.links[c] == LinksOf(old(db.links), c).(emails := db.links[c].emails)
    ensures Appended(old(db.emails.rows), db.emails.rows, EmailRows(items[..FirstBadItem(items)]), now,
                     LinksOf(old(db.links), c).emails, db.links[c].emails)
    ensures ok ==> Appended(old(db.emails.rows), db.emails.rows, EmailRows(items), now,
                           LinksOf(old(db.links), c).emails, db.links[c].emails)
  {
    var k := FirstBadItem(items);
    db.AddEmails(c, EmailRows(items[..k]), now);
    ok := k == |items|;
    if ok {
      assert items[..k] == items;
    }
  }

  method UpdateAddresses(db: ContactDb, c: Id, items: seq<ItemPatch>, now: Stamp) returns (ok: bool)
    requires db.Valid() && c in db.contacts.rows
    modifies db, db.addresses
    ensures db.Valid() && ok == (FirstBadItem(items) == |items|)
    ensures db.contacts.rows == old(db.contacts.rows) && db.phones.rows == old(db.phones.rows)
    ensures db.emails.rows == old(db.emails.rows) && db.importantDates.rows == old(db.importantDates.rows)
    ensures db.relatedPersons.rows == old(db.relatedPersons.rows) && db.tags.rows == old(db.tags.rows)
    ensures c in db.links && db.links == old(db.links)[c := db.links[c]]
    ensures LinksGrew(old(db.links), db.links, c)
    ensures db.links[c] == LinksOf(old(db.links), c).(address := db.links[c].address)
    ensures Appended(old(db.addresses.rows), db.addresses.rows, AddressRows(items[..FirstBadItem(items)]), now,
                     LinksOf(old(db.links), c).address, db.links[c].address)
    ensures ok ==> Appended(old(db.addresses.rows), db.addresses.rows, AddressRows(items), now,
                           LinksOf(old(db.links), c).address, db.links[c].address)
  {
    var k := FirstBadItem(items);
    db.AddAddresses(c, AddressRows(items[..k]), now);
    ok := k == |items|;
    if ok {
      assert items[..k] == items;
    }
  }

  method UpdateImportantDates(db: ContactDb, c: Id, items: seq<ItemPatch>, now: Stamp) returns (ok: bool)
    requires db.Valid() && c in db.contacts.rows
    modifies db, db.importantDates
    ensures db.Valid() && ok == (FirstBadItem(items) == |items|)
    ensures db.contacts.rows == old(db.contacts.rows) && db.phones.rows == old(db.phones.rows)
    ensures db.emails.rows == old(db.emails.rows) && db.addresses.rows == old(db.addresses.rows)
    ensures db.relatedPersons.rows == old(db.relatedPersons.rows) && db.tags.rows == old(db.tags.rows)
    ensures c in db.links && db.links == old(db.links)[c := db.links[c]]
    ensures LinksGrew(old(db.links), db.links, c)
    ensures db.links[c] == LinksOf(old(db.links), c).(importantDates := db.links[c].importantDates)
    ensures Appended(old(db.importantDates.rows), db.importantDates.rows, ImportantDateRows(items[..FirstBadItem(items)]),
                     now, LinksOf(old(db.links), c).importantDates, db.links[c].importantDates)
    ensures ok ==> Appended(old(db.importantDates.rows), db.importantDates.rows, ImportantDateRows(items), now,
                           LinksOf(old(db.links), c).importantDates, db.links[c].importantDates)
  {
    var k := FirstBadItem(items);
    db.AddImportantDates(c, ImportantDateRows(items[..k]), now);
    ok := k == |items|;
    if ok {
      assert items[..k] == items;
    }
  }

  method UpdateRelatedPersons(db: ContactDb, c: Id, items: seq<ItemPatch>, now: Stamp) returns (ok: bool)
    requires db.Valid() && c in db.contacts.rows
    modifies db, db.relatedPersons
    ensures db.Valid() && ok == (FirstBadItem(items) == |items|)
    ensures db.contacts.rows == old(db.contacts.rows) && db.phones.rows == old(db.phones.rows)
    ensures db.emails.rows == old(db.emails.rows) && db.addresses.rows == old(db.addresses.rows)
    ensures db.importantDates.rows == old(db.importantDates.rows) && db.tags.rows == old(db.tags.rows)
    ensures c in db.links && db.links == old(db.links)[c := db.links[c]]
    ensures LinksGrew(old(db.links), db.links, c)
    ensures db.links[c] == LinksOf(old(db.links), c).(relatedPersons := db.links[c].relatedPersons)
    ensures Appended(old(db.relatedPersons.rows), db.relatedPersons.rows, RelatedPersonRows(items[..FirstBadItem(items)]),
                     now, LinksOf(old(db.links), c).relatedPersons, db.links[c].relatedPersons)
    ensures ok ==> Appended(old(db.relatedPersons.rows), db.relatedPersons.rows, RelatedPersonRows(items), now,
                           LinksOf(old(db.links), c).relatedPersons, db.links[c].relatedPersons)
  {
    var k := FirstBadItem(items);
    db.AddRelatedPersons(c, RelatedPersonRows(items[..k]), now);
    ok := k == |items|;
    if ok {
      assert items[..k] == items;
    }
  }

  /**
   * The five nested loops of `partial_update`, in order: each creates and
   * adds rows until an item's keys raise, and a raising loop ends the request.
   */
  method AppendNested(db: ContactDb, pk: Id, req: UpdateRequest, now: Stamp) returns (ok: bool)
    requires db.Valid() && pk in db.contacts.rows
    modifies db, db.phones, db.emails, db.addresses, db.importantDates, db.relatedPersons
    ensures db.Valid() && LinksGrew(old(db.links), db.links, pk)
    ensures db.contacts.rows == old(db.contacts.rows) && db.tags.rows == old(db.tags.rows)
    ensures ok <==> NestedComplete(req)
    ensures ok ==>
      && db.links[pk] == LinksOf(old(db.links), pk).(phones := db.links[pk].phones, emails := db.links[pk].emails,
           address := db.links[pk].address, importantDates := db.links[pk].importantDates,
           relatedPersons := db.links[pk].relatedPersons)
      && var before := LinksOf(old(db.links), pk);
      && var l := db.links[pk];
      && Appended(old(db.phones.rows), db.phones.rows, PhoneRows(req.phones), now, before.phones, l.phones)
      && Appended(old(db.emails.rows), db.emails.rows, EmailRows(req.emails), now, before.emails, l.emails)
      && Appended(old(db.addresses.rows), db.addresses.rows, AddressRows(req.address), now, before.address, l.address)
      && Appended(old(db.importantDates.rows), db.importantDates.rows, ImportantDateRows(req.importantDates), now,
                  before.importantDates, l.importantDates)
      && Appended(old(db.relatedPersons.rows), db.relatedPersons.rows, RelatedPersonRows(req.relatedPersons), now,
                  before.relatedPersons, l.relatedPersons)
  {
    ghost var links0 := db.links;
    ok := UpdatePhones(db, pk, req.phones, now);
    if !ok {
      return;
    }
    ghost var links1 := db.links;
    ok := UpdateEmails(db, pk, req.emails, now);
    LinksGrewTrans(links0, links1, db.links, pk);
    if !ok {
      return;
    }
    ghost var links2 := db.links;
    ok := UpdateAddresses(db, pk, req.address, now);
    LinksGrewTrans(links0, links2, db.links, pk);
    if !ok {
      return;
    }
    ghost var links3 := db.links;
    ok := UpdateImportantDates(db, pk, req.importantDates, now);
    LinksGrewTrans(links0, links3, db.links, pk);
    if !ok {
      return;
    }
    ghost var links4 := db.links;
    ok := UpdateRelatedPersons(db, pk, req.relatedPersons, now);
    LinksGrewTrans(links0, links4, db.links, pk);
    if !ok {
      return;
    }
  }

  /** The stored contact after the partial-mode save: present scalars replaced, `updated` refreshed. */
  function PatchedRecord(r: Record<ContactFields>, p: ContactPatch, now: Stamp): (s: Record<ContactFields>)
    ensures s.id == r.id && s.created == r.created && s.isActive == r.isActive && s.updated == now
    ensures s.fields.user == r.fields.user
    ensures p == ContactPatch(None, None, None, None, None, None) ==> s.fields == r.fields
  {
    r.(fields := Patched(r.fields, p), updated := now)
  }

  /**
   * The writing part of `partial_update`, once the contact is found and the
   * scalars pass: the nested loops, the save of the scalars, then the tag loop.
   */
  method ApplyUpdate(db: ContactDb, pk: Id, req: UpdateRequest, now: Stamp) returns (done: bool)
    requires db.Valid() && pk in db.contacts.rows
    modifies db, db.contacts, db.phones, db.emails, db.addresses, db.importantDates, db.relatedPersons, db.tags
    ensures db.Valid() && LinksGrew(old(db.links), db.links, pk)
    ensures done <==> UpdateCompletes(req)
    ensures !done ==>
      || db.contacts.rows == old(db.contacts.rows)
      || db.contacts.rows == old(db.contacts.rows)[pk := PatchedRecord(old(db.contacts.rows[pk]), req.scalars, now)]
    ensures done ==>
      && db.contacts.rows == old(db.contacts.rows)[pk := PatchedRecord(old(db.contacts.rows[pk]), req.scalars, now)]
      && var before := LinksOf(old(db.links), pk);
      && var l := db.links[pk];
      && Appended(old(db.phones.rows), db.phones.rows, PhoneRows(req.phones), now, before.phones, l.phones)
      && Appended(old(db.emails.rows), db.emails.rows, EmailRows(req.emails), now, before.emails, l.emails)
      && Appended(old(db.addresses.rows), db.addresses.rows, AddressRows(req.address), now, before.address, l.address)
      && Appended(old(db.importantDates.rows), db.importantDates.rows, ImportantDateRows(req.importantDates), now,
                  before.importantDates, l.importantDates)
      && Appended(old(db.relatedPersons.rows), db.relatedPersons.rows, RelatedPersonRows(req.relatedPersons), now,
                  before.relatedPersons, l.relatedPersons)
      && Appended(old(db.tags.rows), db.tags.rows, TagFromLastPhone(req.phones, req.tagItems).value, now,
                  before.tags, l.tags)
  {
    ghost var links0 := db.links;
    done := AppendNested(db, pk, req, now);
    if !done {
      return;
    }
    ghost var links1 := db.links;
    done := SaveAndTag(db, pk, req, now);
    LinksGrewTrans(links0, links1, db.links, pk);
  }

  /** The save of the scalars, then the tag loop, which may raise. */
  method SaveAndTag(db: ContactDb, pk: Id, req: UpdateRequest, now: Stamp) returns (done: bool)
    requires db.Valid() && pk in db.contacts.rows && pk in db.links
    modifies db, db.contacts, db.tags
    ensures db.Valid() && LinksGrew(old(db.links), db.links, pk)
    ensures db.phones.rows == old(db.phones.rows) && db.emails.rows == old(db.emails.rows)
    ensures db.addresses.rows == old(db.addresses.rows) && db.importantDates.rows == old(db.importantDates.rows)
    ensures db.relatedPersons.rows == old(db.relatedPersons.rows)
    ensures db.contacts.rows == old(db.contacts.rows)[pk := PatchedRecord(old(db.contacts.rows[pk]), req.scalars, now)]
    ensures done <==> TagFromLastPhone(req.phones, req.tagItems).Some?
    ensures done ==>
      && db.links[pk] == LinksOf(old(db.links), pk).(tags := db.links[pk].tags)
      && Appended(old(db.tags.rows), db.tags.rows, TagFromLastPhone(req.phones, req.tagItems).value, now,
                  LinksOf(old(db.links), pk).tags, db.links[pk].tags)
  {
    var contact := db.contacts.rows[pk];
    var saved := db.SaveContact(contact.(fields := Patched(contact.fields, req.scalars)), now);
    var tags := TagFromLastPhone(req.phones, req.tagItems);
    if tags.None? {
      return false;
    }
    db.AddTags(pk, tags.value, now);
    done := true;
  }

  /**
   * `partial_update`: the caller's active contact is looked up, the payload's
   * scalars are checked in partial mode, then rows are created and added for
   * each phone, email, address, important date and related person item, the
   * scalars are saved, and finally one tag row is created per tag item with
   * the last phone item's `tag` value. A key lookup that raises stops the
   * request with the rows already written kept. No association loses a row.
   */
  method PartialUpdate(db: ContactDb, v: Validators, user: Id, pk: Id, req: UpdateRequest, now: Stamp)
    returns (r: UpdateOutcome)
    requires db.Valid()
    modifies db.Repr()
    ensures db.Valid()
    ensures r == UpdateNotFound <==> old(ScopedLookup(db.contacts.rows, user, pk)).Http404?
    ensures r.UpdateRejected? <==>
      old(ScopedLookup(db.contacts.rows, user, pk)).Found? && PatchErrors(v, req.scalars) != {}
    ensures r.UpdateRejected? ==> r.fields == PatchErrors(v, req.scalars)
    ensures r == UpdateNotFound || r.UpdateRejected? ==> unchanged(db.Repr())
    ensures r == Updated <==>
      old(ScopedLookup(db.contacts.rows, user, pk)).Found? && PatchErrors(v, req.scalars) == {} && UpdateCompletes(req)
    ensures r == Updated || r == UpdateRaised ==> LinksGrew(old(db.links), db.links, pk)
    ensures r == UpdateRaised ==>
      || db.contacts.rows == old(db.contacts.rows)
      || db.contacts.rows == old(db.contacts.rows)[pk := PatchedRecord(old(db.contacts.rows[pk]), req.scalars, now)]
    ensures r == Updated ==>
      && db.contacts.rows == old(db.contacts.rows)[pk := PatchedRecord(old(db.contacts.rows[pk]), req.scalars, now)]
      && var before := LinksOf(old(db.links), pk);
      && var l := db.links[pk];
      && Appended(old(db.phones.rows), db.phones.rows, PhoneRows(req.phones), now, before.phones, l.phones)
      && Appended(old(db.emails.rows), db.emails.rows, EmailRows(req.emails), now, before.emails, l.emails)
      && Appended(old(db.addresses.rows), db.addresses.rows, AddressRows(req.address), now, before.address, l.address)
      && Appended(old(db.importantDates.rows), db.importantDates.rows, ImportantDateRows(req.importantDates), now,
                  before.importantDates, l.importantDates)
      && Appended(old(db.relatedPersons.rows), db.relatedPersons.rows, RelatedPersonRows(req.relatedPersons), now,
                  before.relatedPersons, l.relatedPersons)
      && Appended(old(db.tags.rows), db.tags.rows, TagFromLastPhone(req.phones, req.tagItems).value, now,
                  before.tags, l.tags)
  {
    var found := ScopedLookup(db.contacts.rows, user, pk);
    if found.Http404? {
      return UpdateNotFound;
    }
    var bad := PatchErrors(v, req.scalars);
    if bad != {} {
      return UpdateRejected(bad);
    }
    var done := ApplyUpdate(db, pk, req, now);
    r := if done then Updated else UpdateRaised;
  }
}
