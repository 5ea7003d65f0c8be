/**
 * Audit: the save interceptor that stamps who created or last modified an
 * auditable entity, and when, just before the context saves it.
 */
module Audit {
  import opened Wrappers
  import opened Calendar
  import opened Persistence

  /** An entity deriving from `BaseAuditableEntity<int>`: its key, its own
      fields, and the four audit properties, all nullable. */
  datatype AuditableEntity<D> = AuditableEntity(
    id: int,
    fields: D,
    created: Option<DateTime>,
    createdBy: Option<string>,
    lastModified: Option<DateTime>,
    lastModifiedBy: Option<string>)

  /** A change-tracker entry for an auditable entity. */
  datatype EntityEntry<D> = EntityEntry(state: EntityState, entity: AuditableEntity<D>)

  /** The `switch` on the entry's state: an Added entry gets its creation
      stamp, a Modified entry its modification stamp, any other entry is
      left alone. */
  function Stamp<D>(entry: EntityEntry<D>, now: DateTime, userId: Option<string>): (r: EntityEntry<D>)
    ensures r.state == entry.state && r.entity.id == entry.entity.id && r.entity.fields == entry.entity.fields
    ensures entry.state == Added ==>
      && r.entity.created == Some(now) && r.entity.createdBy == userId
      && r.entity.lastModified == entry.entity.lastModified && r.entity.lastModifiedBy == entry.entity.lastModifiedBy
    ensures entry.state == Modified ==>
      && r.entity.lastModified == Some(now) && r.entity.lastModifiedBy == userId
      && r.entity.created == entry.entity.created && r.entity.createdBy == entry.entity.createdBy
    ensures entry.state != Added && entry.state != Modified ==> r == entry
  {
    match entry.state
    case Added => entry.(entity := entry.entity.(created := Some(now), createdBy := userId))
    case Modified => entry.(entity := entry.entity.(lastModified := Some(now), lastModifiedBy := userId))
    case _ => entry
  }

  /** Stamping again overwrites the earlier stamp: only the last clock
      reading and user id stay, so running the interceptor twice is the same
      as running it once with the later values. */
  lemma RestampKeepsLast<D>(entry: EntityEntry<D>, t1: DateTime, u1: Option<string>, t2: DateTime, u2: Option<string>)
    ensures Stamp(Stamp(entry, t1, u1), t2, u2) == Stamp(entry, t2, u2)
  {
  }

  /** `UpdateEntities`: with no context nothing happens; otherwise every
      tracked entry is stamped with the same user id, read once before the
      loop, and with the clock read for it. `clock(i)` is the value
      `DateTime.Now` returns at entry `i`. */
  method UpdateEntities<D>(context: array?<EntityEntry<D>>, userId: Option<string>, clock: nat -> DateTime)
    modifies context
    ensures context != null ==> forall i :: 0 <= i < context.Length ==> context[i] == Stamp(old(context[i]), clock(i), userId)
  {
    if context == null {
      return;
    }
    var i := 0;
    while i < context.Length
      invariant 0 <= i <= context.Length
      invariant forall j :: 0 <= j < i ==> context[j] == Stamp(old(context[j]), clock(j), userId)
      invariant forall j :: i <= j < context.Length ==> context[j] == old(context[j])
    {
      context[i] := Stamp(context[i], clock(i), userId);
      i := i + 1;
    }
  }

  /** `SavingChangesAsync`: stamps the entries, then hands back the
      interception result it was given. */
  method SavingChanges<D, R>(context: array?<EntityEntry<D>>, userId: Option<string>, clock: nat -> DateTime, result: R) returns (r: R)
    modifies context
    ensures r == result
    ensures context != null ==> forall i :: 0 <= i < context.Length ==> context[i] == Stamp(old(context[i]), clock(i), userId)
  {
    UpdateEntities(context, userId, clock);
    r := result;
  }
}
