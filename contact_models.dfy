/**
 * The contact aggregate's storage: the contacts table, one table per
 * auxiliary entity, and the six many-to-many associations from a contact to
 * auxiliary rows.
 */
module ContactModels {
  import opened Options
  import opened SoftDelete
  import opened Kinds

  /** The scalar columns of a contact and its owner; the optional ones are null when absent. */
  datatype ContactFields = ContactFields(
    name: string,
    lastName: string,
    company: Option<string>,
    website: Option<string>,
    sip: Option<string>,
    notes: Option<string>,
    user: Id)

  /** The auxiliary rows one contact is associated with, per collection. */
  datatype Links = Links(
    phones: set<Id>,
    emails: set<Id>,
    address: set<Id>,
    importantDates: set<Id>,
    relatedPersons: set<Id>,
    tags: set<Id>)

  const NoLinks := Links({}, {}, {}, {}, {}, {})

  /** The associations of contact `c`; a contact without entries has none. */
  function LinksOf(links: map<Id, Links>, c: Id): Links
  {
    if c in links then links[c] else NoLinks
  }

  /** Every auxiliary row that `l` points at is stored in its table. */
  ghost predicate LinksStored(l: Links, phones: set<Id>, emails: set<Id>, address: set<Id>,
                              importantDates: set<Id>, relatedPersons: set<Id>, tags: set<Id>)
  {
    && l.phones <= phones && l.emails <= emails && l.address <= address
    && l.importantDates <= importantDates && l.relatedPersons <= relatedPersons && l.tags <= tags
  }

  ghost predicate AllLinksStored(links: map<Id, Links>, phones: set<Id>, emails: set<Id>, address: set<Id>,
                                 importantDates: set<Id>, relatedPersons: set<Id>, tags: set<Id>)
  {
    forall c :: c in links ==>
      LinksStored(links[c], phones, emails, address, importantDates, relatedPersons, tags)
  }

  /** Associations of contact `c` only ever gained rows between `before` and `after`. */
  ghost predicate LinksGrew(before: map<Id, Links>, after: map<Id, Links>, c: Id)
  {
    && c in after && after == before[c := after[c]]
    && var l := LinksOf(before, c);
       && l.phones <= after[c].phones && l.emails <= after[c].emails && l.address <= after[c].address
       && l.importantDates <= after[c].importantDates && l.relatedPersons <= after[c].relatedPersons
       && l.tags <= after[c].tags
  }

  /** Growing twice is growing. */
  lemma LinksGrewTrans(a: map<Id, Links>, b: map<Id, Links>, c: map<Id, Links>, k: Id)
    requires LinksGrew(a, b, k) && LinksGrew(b, c, k)
    ensures LinksGrew(a, c, k)
  {
  }

  /** Tables only growing keeps every association pointing at stored rows. */
  lemma AllLinksStoredGrow(links: map<Id, Links>, c: Id, l: Links,
                           p: set<Id>, e: set<Id>, a: set<Id>, d: set<Id>, r: set<Id>, t: set<Id>,
                           p': set<Id>, e': set<Id>, a': set<Id>, d': set<Id>, r': set<Id>, t': set<Id>)
    requires AllLinksStored(links, p, e, a, d, r, t)
    requires p <= p' && e <= e' && a <= a' && d <= d' && r <= r' && t <= t'
    requires LinksStored(l, p', e', a', d', r', t')
    ensures AllLinksStored(links[c := l], p', e', a', d', r', t')
  {
  }

  /** The database of the contacts application. */
  class ContactDb {
    const contacts: Table<ContactFields>
    const phones: Table<Phone>
    const emails: Table<Email>
    const addresses: Table<Address>
    const importantDates: Table<ImportantDate>
    const relatedPersons: Table<RelatedPerson>
    const tags: Table<Tag>
    /** The six through tables, keyed by contact id. */
    var links: map<Id, Links>

    ghost function Repr(): set<object>
      reads this
    {
      {this, contacts, phones, emails, addresses, importantDates, relatedPersons, tags}
    }

    /** Every table is consistent and associations join stored rows only. */
    ghost predicate Valid()
      reads Repr()
    {
      && contacts.Valid() && phones.Valid() && emails.Valid() && addresses.Valid()
      && importantDates.Valid() && relatedPersons.Valid() && tags.Valid()
      && links.Keys <= contacts.rows.Keys
      && AllLinksStored(links, phones.rows.Keys, emails.rows.Keys, addresses.rows.Keys,
                        importantDates.rows.Keys, relatedPersons.rows.Keys, tags.rows.Keys)
    }

    constructor ()
      ensures Valid()
      ensures fresh(contacts) && fresh(phones) && fresh(emails) && fresh(addresses)
      ensures fresh(importantDates) && fresh(relatedPersons) && fresh(tags)
      ensures contacts.rows == map[] && links == map[]
    {
      contacts := new Table();
      phones := new Table();
      emails := new Table();
      addresses := new Table();
      importantDates := new Table();
      relatedPersons := new Table();
      tags := new Table();
      links := map[];
    }

    /** `Contact.objects.create(...)`: a new contact row, associated with nothing yet. */
    method CreateContact(fields: ContactFields, now: Stamp) returns (contact: Record<ContactFields>)
      requires Valid()
      modifies contacts
      ensures Valid() && links == old(links)
      ensures phones.rows == old(phones.rows) && emails.rows == old(emails.rows) && addresses.rows == old(addresses.rows)
      ensures importantDates.rows == old(importantDates.rows) && relatedPersons.rows == old(relatedPersons.rows) && tags.rows == old(tags.rows)
      ensures contact == Record(contact.id, now, now, true, fields) && contact.id !in old(contacts.rows)
      ensures contacts.rows == old(contacts.rows)[contact.id := contact]
    {
      contact := contacts.Create(fields, now);
    }

    /** `contact.save()` on this database (see `Table.Save`); associations are untouched. */
    method SaveContact(inst: Record<ContactFields>, now: Stamp) returns (saved: Record<ContactFields>)
      requires Valid()
      modifies contacts
      ensures Valid() && links == old(links)
      ensures phones.rows == old(phones.rows) && emails.rows == old(emails.rows) && addresses.rows == old(addresses.rows)
      ensures importantDates.rows == old(importantDates.rows) && relatedPersons.rows == old(relatedPersons.rows) && tags.rows == old(tags.rows)
      ensures saved == if inst.id in old(contacts.rows) then inst.(updated := now)
                       else inst.(created := now, updated := now)
      ensures contacts.rows == old(contacts.rows)[inst.id := saved]
    {
      saved := contacts.Save(inst, now);
    }

    /** One new row per item, each added to contact `c`'s `phones` (see `CreateAndAdd`). */
    method AddPhones(c: Id, items: seq<Phone>, now: Stamp)
      requires Valid() && c in contacts.rows
      modifies this, phones
      ensures contacts.rows == old(contacts.rows) && emails.rows == old(emails.rows) && addresses.rows == old(addresses.rows)
      ensures importantDates.rows == old(importantDates.rows) && relatedPersons.rows == old(relatedPersons.rows) && tags.rows == old(tags.rows)
      ensures Valid()
      ensures c in links && links == old(links)[c := links[c]]
      ensures LinksGrew(old(links), links, c)
      ensures links[c] == LinksOf(old(links), c).(phones := links[c].phones)
      ensures Appended(old(phones.rows), phones.rows, items, now, LinksOf(old(links), c).phones, links[c].phones)
    {
      var l := LinksOf(links, c);
      var linked := CreateAndAdd(phones, items, l.phones, now);
      AllLinksStoredGrow(links, c, l.(phones := linked),
        old(phones.rows.Keys), old(emails.rows.Keys), old(addresses.rows.Keys),
        old(importantDates.rows.Keys), old(relatedPersons.rows.Keys), old(tags.rows.Keys),
        phones.rows.Keys, emails.rows.Keys, addresses.rows.Keys,
        importantDates.rows.Keys, relatedPersons.rows.Keys, tags.rows.Keys);
      links := links[c := l.(phones := linked)];
    }

    /** One new row per item, each added to contact `c`'s `emails` (see `CreateAndAdd`). */
    method AddEmails(c: Id, items: seq<Email>, now: Stamp)
      requires Valid() && c in contacts.rows
      modifies this, emails
      ensures contacts.rows == old(contacts.rows) && phones.rows == old(phones.rows) && addresses.rows == old(addresses.rows)
      ensures importantDates.rows == old(importantDates.rows) && relatedPersons.rows == old(relatedPersons.rows) && tags.rows == old(tags.rows)
      ensures Valid()
      ensures c in links && links == old(links)[c := links[c]]
      ensures LinksGrew(old(links), links, c)
      ensures links[c] == LinksOf(old(links), c).(emails := links[c].emails)
      ensures Appended(old(emails.rows), emails.rows, items, now, LinksOf(old(links), c).emails, links[c].emails)
    {
      var l := LinksOf(links, c);
      var linked := CreateAndAdd(emails, items, l.emails, now);
      AllLinksStoredGrow(links, c, l.(emails := linked),
        old(phones.rows.Keys), old(emails.rows.Keys), old(addresses.rows.Keys),
        old(importantDates.rows.Keys), old(relatedPersons.rows.Keys), old(tags.rows.Keys),
        phones.rows.Keys, emails.rows.Keys, addresses.rows.Keys,
        importantDates.rows.Keys, relatedPersons.rows.Keys, tags.rows.Keys);
      links := links[c := l.(emails := linked)];
    }

    /** One new row per item, each added to contact `c`'s `address` (see `CreateAndAdd`). */
    method AddAddresses(c: Id, items: seq<Address>, now: Stamp)
      requires Valid() && c in contacts.rows
      modifies this, addresses
      ensures contacts.rows == old(contacts.rows) && phones.rows == old(phones.rows) && emails.rows == old(emails.rows)
      ensures importantDates.rows == old(importantDates.rows) && relatedPersons.rows == old(relatedPersons.rows) && tags.rows == old(tags.rows)
      ensures Valid()
      ensures c in links && links == old(links)[c := links[c]]
      ensures LinksGrew(old(links), links, c)
      ensures links[c] == LinksOf(old(links), c).(address := links[c].address)
      ensures Appended(old(addresses.rows), addresses.rows, items, now, LinksOf(old(links), c).address, links[c].address)
    {
      var l := LinksOf(links, c);
      var linked := CreateAndAdd(addresses, items, l.address, now);
      AllLinksStoredGrow(links, c, l.(address := linked),
        old(phones.rows.Keys), old(emails.rows.Keys), old(addresses.rows.Keys),
        old(importantDates.rows.Keys), old(relatedPersons.rows.Keys), old(tags.rows.Keys),
        phones.rows.Keys, emails.rows.Keys, addresses.rows.Keys,
        importantDates.rows.Keys, relatedPersons.rows.Keys, tags.rows.Keys);
      links := links[c := l.(address := linked)];
    }

    /** One new row per item, each added to contact `c`'s `important_dates` (see `CreateAndAdd`). */
    method AddImportantDates(c: Id, items: seq<ImportantDate>, now: Stamp)
      requires Valid() && c in contacts.rows
      modifies this, importantDates
      ensures contacts.rows == old(contacts.rows) && phones.rows == old(phones.rows) && emails.rows == old(emails.rows)
      ensures addresses.rows == old(addresses.rows) && relatedPersons.rows == old(relatedPersons.rows) && tags.rows == old(tags.rows)
      ensures Valid()
      ensures c in links && links == old(links)[c := links[c]]
      ensures LinksGrew(old(links), links, c)
      ensures links[c] == LinksOf(old(links), c).(importantDates := links[c].importantDates)
      ensures Appended(old(importantDates.rows), importantDates.rows, items, now, LinksOf(old(links), c).importantDates, links[c].importantDates)
    {
      var l := LinksOf(links, c);
      var linked := CreateAndAdd(importantDates, items, l.importantDates, now);
      AllLinksStoredGrow(links, c, l.(importantDates := linked),
        old(phones.rows.Keys), old(emails.rows.Keys), old(addresses.rows.Keys),
        old(importantDates.rows.Keys), old(relatedPersons.rows.Keys), old(tags.rows.Keys),
        phones.rows.Keys, emails.rows.Keys, addresses.rows.Keys,
        importantDates.rows.Keys, relatedPersons.rows.Keys, tags.rows.Keys);
      links := links[c := l.(importantDates := linked)];
    }

    /** One new row per item, each added to contact `c`'s `related_persons` (see `CreateAndAdd`). */
    method AddRelatedPersons(c: Id, items: seq<RelatedPerson>, now: Stamp)
      requires Valid() && c in contacts.rows
      modifies this, relatedPersons
      ensures contacts.rows == old(contacts.rows) && phones.rows == old(phones.rows) && emails.rows == old(emails.rows)
      ensures addresses.rows == old(addresses.rows) && importantDates.rows == old(importantDates.rows) && tags.rows == old(tags.rows)
      ensures Valid()
      ensures c in links && links == old(links)[c := links[c]]
      ensures LinksGrew(old(links), links, c)
      ensures links[c] == LinksOf(old(links), c).(relatedPersons := links[c].relatedPersons)
      ensures Appended(old(relatedPersons.rows), relatedPersons.rows, items, now, LinksOf(old(links), c).relatedPersons, links[c].relatedPersons)
    {
      var l := LinksOf(links, c);
      var linked := CreateAndAdd(relatedPersons, items, l.relatedPersons, now);
      AllLinksStoredGrow(links, c, l.(relatedPersons := linked),
        old(phones.rows.Keys), old(emails.rows.Keys), old(addresses.rows.Keys),
        old(importantDates.rows.Keys), old(relatedPersons.rows.Keys), old(tags.rows.Keys),
        phones.rows.Keys, emails.rows.Keys, addresses.rows.Keys,
        importantDates.rows.Keys, relatedPersons.rows.Keys, tags.rows.Keys);
      links := links[c := l.(relatedPersons := linked)];
    }

    /** One new row per item, each added to contact `c`'s `tags` (see `CreateAndAdd`). */
    method AddTags(c: Id, items: seq<Tag>, now: Stamp)
      requires Valid() && c in contacts.rows
      modifies this, tags
      ensures contacts.rows == old(contacts.rows) && phones.rows == old(phones.rows) && emails.rows == old(emails.rows)
      ensures addresses.rows == old(addresses.rows) && importantDates.rows == old(importantDates.rows) && relatedPersons.rows == old(relatedPersons.rows)
      ensures Valid()
      ensures c in links && links == old(links)[c := links[c]]
      ensures LinksGrew(old(links), links, c)
      ensures links[c] == LinksOf(old(links), c).(tags := links[c].tags)
      ensures Appended(old(tags.rows), tags.rows, items, now, LinksOf(old(links), c).tags, links[c].tags)
    {
      var l := LinksOf(links, c);
      var linked := CreateAndAdd(tags, items, l.tags, now);
      AllLinksStoredGrow(links, c, l.(tags := linked),
        old(phones.rows.Keys), old(emails.rows.Keys), old(addresses.rows.Keys),
        old(importantDates.rows.Keys), old(relatedPersons.rows.Keys), old(tags.rows.Keys),
        phones.rows.Keys, emails.rows.Keys, addresses.rows.Keys,
        importantDates.rows.Keys, relatedPersons.rows.Keys, tags.rows.Keys);
      links := links[c := l.(tags := linked)];
    }
  }

  /** Writing an entry twice leaves only the second write. */
  lemma UpdateTwice(m: map<Id, Links>, c: Id, x: Links, y: Links)
    ensures m[c := x][c := y] == m[c := y]
  {
  }

  /** The elements of a sequence, as a set. */
  function Elements(ids: seq<Id>): set<Id>
  {
    set x | x in ids
  }

  ghost predicate Distinct(ids: seq<Id>)
  {
    forall i, j :: 0 <= i < j < |ids| ==> ids[i] != ids[j]
  }

  /** No id of `ids` is in `used` or repeats an earlier one. */
  ghost predicate FreshIds(used: set<Id>, ids: seq<Id>)
    decreases |ids|
  {
    ids == [] ||
      var n := |ids| - 1;
      FreshIds(used, ids[..n]) && ids[n] !in used && ids[n] !in ids[..n]
  }

  /** The rows after creating one active row per item, in order, under the ids `ids`. */
  function Inserted<T>(before: map<Id, Record<T>>, items: seq<T>, now: Stamp, ids: seq<Id>): map<Id, Record<T>>
    requires |ids| == |items|
    decreases |items|
  {
    if items == [] then before
    else
      var n := |items| - 1;
      Inserted(before, items[..n], now, ids[..n])[ids[n] := Record(ids[n], now, now, true, items[n])]
  }

  /**
   * `after` is `before` plus exactly one new active row per item, in item
   * order, under the fresh and pairwise distinct ids `ids`.
   */
  ghost predicate AppendedWith<T>(before: map<Id, Record<T>>, after: map<Id, Record<T>>,
                                  items: seq<T>, now: Stamp, ids: seq<Id>)
  {
    |ids| == |items| && FreshIds(before.Keys, ids) && after == Inserted(before, items, now, ids)
  }

  /**
   * What an append means row by row: the ids are new and distinct, the keys
   * grow by exactly those ids, no stored row changed, and the row under the
   * `i`-th id is a fresh active record of the `i`-th item.
   */
  lemma {:induction false} AppendedRows<T>(before: map<Id, Record<T>>, after: map<Id, Record<T>>,
                                           items: seq<T>, now: Stamp, ids: seq<Id>)
    requires AppendedWith(before, after, items, now, ids)
    ensures Distinct(ids)
    ensures forall i :: 0 <= i < |ids| ==> ids[i] !in before
    ensures after.Keys == before.Keys + Elements(ids)
    ensures forall k :: k in before ==> after[k] == before[k]
    ensures forall i :: 0 <= i < |ids| ==> after[ids[i]] == Record(ids[i], now, now, true, items[i])
    decreases |items|
  {
    if items != [] {
      var n := |items| - 1;
      var mid := Inserted(before, items[..n], now, ids[..n]);
      AppendedRows(before, mid, items[..n], now, ids[..n]);
      assert Elements(ids) == Elements(ids[..n]) + {ids[n]} by {
        assert ids == ids[..n] + [ids[n]];
      }
      assert ids[n] !in mid;
      forall i | 0 <= i < |ids| ensures after[ids[i]] == Record(ids[i], now, now, true, items[i]) {
        if i < n {
          assert ids[i] == ids[..n][i];
          assert ids[i] != ids[n];
        }
      }
      forall i, j | 0 <= i < j < |ids| ensures ids[i] != ids[j] {
        if j == n {
          assert ids[i] in ids[..n];
        } else {
          assert ids[i] == ids[..n][i] && ids[j] == ids[..n][j];
        }
      }
    }
  }

  /** A sequence without repeats has as many elements as its length. */
  lemma {:induction false} DistinctElements(ids: seq<Id>)
    requires Distinct(ids)
    ensures |Elements(ids)| == |ids|
  {
    if ids != [] {
      var rest := ids[1..];
      assert Distinct(rest) by {
        forall i, j | 0 <= i < j < |rest| ensures rest[i] != rest[j] {
          assert rest[i] == ids[i + 1] && rest[j] == ids[j + 1];
        }
      }
      DistinctElements(rest);
      assert Elements(ids) == {ids[0]} + Elements(rest);
      assert ids[0] !in Elements(rest) by {
        forall i | 0 <= i < |rest| ensures rest[i] != ids[0] {
          assert rest[i] == ids[i + 1];
        }
      }
    }
  }

  /** Appending `n` items adds exactly `n` rows to the table. */
  lemma AppendedCount<T>(before: map<Id, Record<T>>, after: map<Id, Record<T>>,
                         items: seq<T>, now: Stamp, ids: seq<Id>)
    requires AppendedWith(before, after, items, now, ids)
    ensures |after| == |before| + |items|
  {
    AppendedRows(before, after, items, now, ids);
    DistinctElements(ids);
    assert before.Keys !! Elements(ids);
    assert |after.Keys| == |before.Keys| + |Elements(ids)|;
  }

  /** Appending nothing changes nothing. */
  lemma AppendedNothing<T>(before: map<Id, Record<T>>, after: map<Id, Record<T>>,
                           now: Stamp, ids: seq<Id>)
    requires AppendedWith(before, after, [], now, ids)
    ensures after == before && ids == []
  {
  }

  /**
   * `after` is `before` plus one new row per item and the association went
   * from `linkedBefore` to `linkedAfter` by adding exactly those rows.
   */
  ghost predicate Appended<T>(before: map<Id, Record<T>>, after: map<Id, Record<T>>, items: seq<T>,
                              now: Stamp, linkedBefore: set<Id>, linkedAfter: set<Id>)
  {
    exists ids :: AppendedWith(before, after, items, now, ids) && linkedAfter == linkedBefore + Elements(ids)
  }

  /**
   * The loop `for data in items: row = Model.objects.create(**data);
   * contact.<rel>.add(row)`, and equally `contact.<rel>.create(...)` per item:
   * one new row per item, each id added to the association `linked`.
   */
  method CreateAndAdd<T>(table: Table<T>, items: seq<T>, linked: set<Id>, now: Stamp)
    returns (linkedAfter: set<Id>)
    requires table.Valid()
    modifies table
    ensures table.Valid()
    ensures old(table.rows).Keys <= table.rows.Keys
    ensures linked <= linkedAfter && linkedAfter - linked <= table.rows.Keys
    ensures Appended(old(table.rows), table.rows, items, now, linked, linkedAfter)
  {
    ghost var ids: seq<Id> := [];
    linkedAfter := linked;
    var i := 0;
    while i < |items|
      invariant 0 <= i <= |items|
      invariant table.Valid()
      invariant AppendedWith(old(table.rows), table.rows, items[..i], now, ids)
      invariant forall x :: x in ids ==> old(table.nextId) <= x < table.nextId
      invariant old(table.nextId) <= table.nextId
      invariant linkedAfter == linked + Elements(ids)
    {
      var row := table.Create(items[i], now);
      assert (ids + [row.id])[..i] == ids;
      assert items[..i + 1][..i] == items[..i];
      ids := ids + [row.id];
      linkedAfter := linkedAfter + {row.id};
      i := i + 1;
    }
    assert items[..i] == items;
    AppendedRows(old(table.rows), table.rows, items, now, ids);
  }
}
