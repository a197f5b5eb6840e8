/**
 * The soft-deletable base model shared by every table: an identity, creation
 * and update stamps and an `is_active` flag. A table is a map from id to
 * record; `objects` is the whole map and `active_objects` the active part.
 */
module SoftDelete {

  /** A primary key. Every key a table hands out is new to that table. */
  type Id = nat

  /** An opaque instant, supplied by the caller wherever the source reads the clock. */
  type Stamp = nat

  /** An identifier as it arrives from a caller: a well-formed key or text that is not one. */
  datatype RawId = Uuid(id: Id) | Malformed(text: string)

  /** One stored row: the base model's four fields and the entity's own fields. */
  datatype Record<T> = Record(id: Id, created: Stamp, updated: Stamp, isActive: bool, fields: T)

  /** The result of a lookup that reports a miss as a value rather than raising. */
  datatype Lookup<T> = Found(record: Record<T>) | Http404

  /** Every row is stored under its own id. */
  ghost predicate WellKeyed<T>(rows: map<Id, Record<T>>)
  {
    forall k :: k in rows ==> rows[k].id == k
  }

  /** The `active_objects` manager: the stored rows whose flag is set. */
  function ActiveObjects<T>(rows: map<Id, Record<T>>): (active: map<Id, Record<T>>)
    ensures active.Keys <= rows.Keys
    ensures forall k :: k in rows ==> (k in active <==> rows[k].isActive)
    ensures forall k :: k in active ==> active[k] == rows[k]
  {
    map k | k in rows && rows[k].isActive :: rows[k]
  }

  /** `AbstractManager.get_object_by_id`: an unscoped lookup; a missing or malformed id gives `Http404`. */
  function GetObjectById<T>(rows: map<Id, Record<T>>, raw: RawId): (r: Lookup<T>)
    ensures r.Found? <==> raw.Uuid? && raw.id in rows
    ensures r.Found? ==> r.record == rows[raw.id]
  {
    match raw
    case Malformed(_) => Http404
    case Uuid(id) => if id in rows then Found(rows[id]) else Http404
  }

  /** The in-memory copy of a record after `soft_delete` assigned its flag and saved it. */
  function SoftDeleted<T>(r: Record<T>, now: Stamp): (d: Record<T>)
    ensures !d.isActive
    ensures d.id == r.id && d.created == r.created && d.fields == r.fields && d.updated == now
  {
    r.(isActive := false, updated := now)
  }

  /** The in-memory copy of a record after `restore` assigned its flag and saved it. */
  function Restored<T>(r: Record<T>, now: Stamp): (d: Record<T>)
    ensures d.isActive
    ensures d.id == r.id && d.created == r.created && d.fields == r.fields && d.updated == now
  {
    r.(isActive := true, updated := now)
  }

  /** Soft-deleting twice leaves the same record as soft-deleting once. */
  lemma SoftDeleteIdempotent<T>(r: Record<T>, now: Stamp)
    ensures SoftDeleted(SoftDeleted(r, now), now) == SoftDeleted(r, now)
  {
  }

  /** Restoring twice leaves the same record as restoring once. */
  lemma RestoreIdempotent<T>(r: Record<T>, now: Stamp)
    ensures Restored(Restored(r, now), now) == Restored(r, now)
  {
  }

  /** A soft delete followed by a restore gives back the record with only its update stamp changed. */
  lemma RestoreUndoesSoftDelete<T>(r: Record<T>, now: Stamp, later: Stamp)
    requires r.isActive
    ensures Restored(SoftDeleted(r, now), later) == r.(updated := later)
  {
  }

  /**
   * Storing a soft-deleted copy hides the row from `active_objects` while the
   * unscoped lookup still finds it; every other row keeps its visibility.
   */
  lemma SoftDeleteHidesOnlyThatRow<T>(rows: map<Id, Record<T>>, id: Id, now: Stamp)
    requires id in rows
    ensures var after := rows[id := SoftDeleted(rows[id], now)];
      && id !in ActiveObjects(after)
      && GetObjectById(after, Uuid(id)) == Found(SoftDeleted(rows[id], now))
      && ActiveObjects(after) == ActiveObjects(rows) - {id}
  {
    var after := rows[id := SoftDeleted(rows[id], now)];
    assert ActiveObjects(after).Keys == ActiveObjects(rows).Keys - {id};
  }

  /** Storing a restored copy makes the row visible to `active_objects` again. */
  lemma RestoreShowsThatRow<T>(rows: map<Id, Record<T>>, id: Id, now: Stamp)
    requires id in rows
    ensures var after := rows[id := Restored(rows[id], now)];
      && id in ActiveObjects(after)
      && ActiveObjects(after) == ActiveObjects(rows)[id := Restored(rows[id], now)]
  {
    var after := rows[id := Restored(rows[id], now)];
    assert ActiveObjects(after).Keys == ActiveObjects(rows).Keys + {id};
  }

  /**
   * One database table of a model derived from the abstract base. `nextId`
   * stands for the uuid generator: every id below it has been handed out.
   */
  class Table<T> {
    var rows: map<Id, Record<T>>
    var nextId: Id

    ghost predicate Valid()
      reads this
    {
      WellKeyed(rows) && forall k :: k in rows ==> k < nextId
    }

    constructor ()
      ensures Valid() && rows == map[]
    {
      rows := map[];
      nextId := 0;
    }

    /**
     * `Model.objects.create(...)`: a new row with a fresh, never-used id,
     * active by default and both stamps set to `now`.
     */
    method Create(fields: T, now: Stamp) returns (r: Record<T>)
      requires Valid()
      modifies this
      ensures Valid()
      ensures r == Record(r.id, now, now, true, fields)
      ensures r.id !in old(rows) && r.id >= old(nextId) && nextId > r.id
      ensures rows == old(rows)[r.id := r]
    {
      r := Record(nextId, now, now, true, fields);
      rows := rows[nextId := r];
      nextId := nextId + 1;
    }

    /**
     * The `default=uuid4` of the id column, run when an instance is built
     * in memory: a key no row holds and no earlier call handed out.
     */
    method NewId() returns (id: Id)
      requires Valid()
      modifies this
      ensures Valid() && rows == old(rows)
      ensures id !in rows && id == old(nextId) && nextId == id + 1
    {
      id := nextId;
      nextId := nextId + 1;
    }

    /**
     * `instance.save()`: writes the whole in-memory instance under its id and
     * refreshes `updated`; an id not yet stored is inserted with `created` set too.
     */
    method Save(inst: Record<T>, now: Stamp) returns (saved: Record<T>)
      requires Valid()
      modifies this
      ensures Valid()
      ensures saved == if inst.id in old(rows) then inst.(updated := now)
                       else inst.(created := now, updated := now)
      ensures rows == old(rows)[inst.id := saved]
    {
      saved := if inst.id in rows then inst.(updated := now) else inst.(created := now, updated := now);
      rows := rows[inst.id := saved];
      if nextId <= inst.id {
        nextId := inst.id + 1;
      }
    }

    /** `AbstractModel.soft_delete`: clear the flag on the instance and save it. */
    method SoftDelete(inst: Record<T>, now: Stamp) returns (saved: Record<T>)
      requires Valid()
      modifies this
      ensures Valid()
      ensures saved == if inst.id in old(rows) then SoftDeleted(inst, now) else SoftDeleted(inst, now).(created := now)
      ensures rows == old(rows)[inst.id := saved]
    {
      saved := Save(inst.(isActive := false), now);
    }

    /** `AbstractModel.restore`: set the flag on the instance and save it. */
    method Restore(inst: Record<T>, now: Stamp) returns (saved: Record<T>)
      requires Valid()
      modifies this
      ensures Valid()
      ensures saved == if inst.id in old(rows) then Restored(inst, now) else Restored(inst, now).(created := now)
      ensures rows == old(rows)[inst.id := saved]
    {
      saved := Save(inst.(isActive := true), now);
    }

    /**
     * `Model.objects.filter(id=pk).update(is_active=False)`: a bulk update of
     * every matching row, active or not, that returns the number of rows
     * matched. A bulk update does not run `save()`, so `updated` is untouched.
     */
    method DeactivateWhereId(pk: Id) returns (count: nat)
      requires Valid()
      modifies this
      ensures Valid() && nextId == old(nextId)
      ensures count == if pk in old(rows) then 1 else 0
      ensures rows == if pk in old(rows) then old(rows)[pk := old(rows)[pk].(isActive := false)]
                      else old(rows)
    {
      if pk in rows {
        rows := rows[pk := rows[pk].(isActive := false)];
        count := 1;
      } else {
        count := 0;
      }
    }
  }
}
