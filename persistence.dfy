/**
 * Persistence: the generic repository and the unit of work, over a model of
 * the Entity Framework context they drive. The context holds the saved rows
 * and the changes staged in its change tracker; repository calls only stage
 * changes, and only the unit of work's commit saves them.
 */
module Persistence {
  import opened Wrappers

  /** The states of a change-tracker entry. */
  datatype EntityState = Detached | Unchanged | Deleted | Modified | Added

  /** The CLR type of an entity, which selects its table and repository. */
  type EntityType = string

  /** An entity with its key (`IEntityPk`) and the rest of its fields. */
  datatype Entity<K, D> = Entity(id: K, fields: D)

  /** Where an entity lives in the context: its type and its key. */
  type Location<K> = (EntityType, K)

  /** A change staged in the tracker: an entry in state Added, Modified or
      Deleted, with the entity it will write. */
  datatype Change<K, D> = Add(entity: Entity<K, D>) | Modify(entity: Entity<K, D>) | Remove(entity: Entity<K, D>)

  /** Why an operation threw. */
  datatype Error = ArgumentNull(paramName: string) | DbUpdate

  /** `DbSet.Find`: an entity the tracker holds under the key comes first,
      then the saved row, else null. */
  function Find<K(==,!new), D>(rows: map<Location<K>, Entity<K, D>>, tracked: map<Location<K>, Change<K, D>>, key: Location<K>): (r: Option<Entity<K, D>>)
    ensures r.None? <==> key !in tracked && key !in rows
    ensures key in tracked ==> r == Some(tracked[key].entity)
    ensures key !in tracked && key in rows ==> r == Some(rows[key])
  {
    if key in tracked then Some(tracked[key].entity)
    else if key in rows then Some(rows[key])
    else None
  }

  /** The key conditions of `SaveChanges`: every insert is of a new key and
      every update or delete finds its row. Breaking one makes the database
      report an error and nothing is written. The database's other
      constraints can make a save fail as well; `SaveChanges` takes their
      verdict as a parameter. */
  predicate CanSave<K(==,!new), D>(rows: map<Location<K>, Entity<K, D>>, tracked: map<Location<K>, Change<K, D>>) {
    forall key :: key in tracked ==> (tracked[key].Add? <==> key !in rows)
  }

  /** The rows after a successful `SaveChanges`: inserts and updates write
      their entity, deletes drop the row, every other row stays. */
  function Saved<K(==,!new), D>(rows: map<Location<K>, Entity<K, D>>, tracked: map<Location<K>, Change<K, D>>): (r: map<Location<K>, Entity<K, D>>)
    ensures forall key :: key in r <==> (key in rows || key in tracked) && !(key in tracked && tracked[key].Remove?)
    ensures forall key :: key in r && key in tracked ==> r[key] == tracked[key].entity
    ensures forall key :: key in r && key !in tracked ==> r[key] == rows[key]
  {
    map key | key in rows.Keys + tracked.Keys && !(key in tracked && tracked[key].Remove?) ::
      if key in tracked then tracked[key].entity else rows[key]
  }

  /** `DbSet.AddAsync`: the entity is tracked as Added. */
  function StageAdd<K(==,!new), D>(tracked: map<Location<K>, Change<K, D>>, entityType: EntityType, entity: Entity<K, D>): (r: map<Location<K>, Change<K, D>>)
    ensures r.Keys == tracked.Keys + {(entityType, entity.id)}
    ensures r[(entityType, entity.id)] == Add(entity)
    ensures forall key :: key in tracked && key != (entityType, entity.id) ==> r[key] == tracked[key]
  {
    tracked[(entityType, entity.id) := Add(entity)]
  }

  /** `DbSet.Attach` then `State = Modified`: the entity is tracked as
      Modified, so all its fields are written on save. */
  function StageModify<K(==,!new), D>(tracked: map<Location<K>, Change<K, D>>, entityType: EntityType, entity: Entity<K, D>): (r: map<Location<K>, Change<K, D>>)
    ensures r.Keys == tracked.Keys + {(entityType, entity.id)}
    ensures r[(entityType, entity.id)] == Modify(entity)
    ensures forall key :: key in tracked && key != (entityType, entity.id) ==> r[key] == tracked[key]
  {
    tracked[(entityType, entity.id) := Modify(entity)]
  }

  /** `DeleteAsync`: `Find`, then `Remove` when something was found. Removing
      an entity that is only staged for insertion detaches it; removing any
      other marks it Deleted. */
  function StageRemove<K(==,!new), D>(rows: map<Location<K>, Entity<K, D>>, tracked: map<Location<K>, Change<K, D>>, key: Location<K>): (r: map<Location<K>, Change<K, D>>)
    ensures key !in tracked && key !in rows ==> r == tracked
    ensures key in tracked && tracked[key].Add? ==> r == tracked - {key}
    ensures (key in rows || key in tracked) && !(key in tracked && tracked[key].Add?) ==>
      r == tracked[key := Remove(Find(rows, tracked, key).value)]
    ensures key in r ==> r[key].Remove?
  {
    match Find(rows, tracked, key)
    case None => tracked
    case Some(e) =>
      if key in tracked && tracked[key].Add? then tracked - {key} else tracked[key := Remove(e)]
  }

  /** The Entity Framework context, as far as the repository and the unit of
      work use it. */
  class DbContext<K(==,!new), D> {
    var rows: map<Location<K>, Entity<K, D>>
    var tracked: map<Location<K>, Change<K, D>>
    var disposed: bool

    /** A context over a database holding `rows`, tracking nothing. */
    constructor (rows: map<Location<K>, Entity<K, D>>)
      ensures this.rows == rows && tracked == map[] && !disposed
    {
      this.rows := rows;
      tracked := map[];
      disposed := false;
    }

    /** `SaveChangesAsync`: one transaction that writes every staged change
      and clears the tracker, or fails and leaves everything as it was.
      `storeAccepts` is whether the database's constraints beyond the keys
      (unique indexes such as the one on a goal's owner and month, foreign
      keys, NOT NULL columns) and the connection accept the write. */
    method SaveChanges(storeAccepts: bool) returns (r: Result<(), Error>)
      modifies this`rows, this`tracked
      ensures CanSave(old(rows), old(tracked)) && storeAccepts ==>
        r.Success? && rows == Saved(old(rows), old(tracked)) && tracked == map[]
      ensures !(CanSave(old(rows), old(tracked)) && storeAccepts) ==>
        r == Failure(DbUpdate) && rows == old(rows) && tracked == old(tracked)
    {
      if CanSave(rows, tracked) && storeAccepts {
        rows := Saved(rows, tracked);
        tracked := map[];
        r := Success(());
      } else {
        r := Failure(DbUpdate);
      }
    }

    /** `Dispose`: may be called any number of times. */
    method Dispose()
      modifies this`disposed
      ensures disposed
    {
      disposed := true;
    }
  }

  /** `Repository<TEntity>`: the set of one entity type in a shared context. */
  class Repository<K(==,!new), D(==)> {
    const context: DbContext<K, D>
    const entityType: EntityType
    var disposed: bool

    constructor (context: DbContext<K, D>, entityType: EntityType)
      ensures this.context == context && this.entityType == entityType && !disposed
    {
      this.context := context;
      this.entityType := entityType;
      disposed := false;
    }

    /** `GetByIdAsync`: the entity under the key, tracked or saved, or null. */
    method GetById(id: K) returns (r: Option<Entity<K, D>>)
      ensures r == Find(context.rows, context.tracked, (entityType, id))
    {
      r := Find(context.rows, context.tracked, (entityType, id));
    }

    /** `GetAll`: a no-tracking query, so it sees every saved entity of this
      type and nothing that is only staged. */
    method GetAll() returns (r: set<Entity<K, D>>)
      ensures forall id :: (entityType, id) in context.rows ==> context.rows[(entityType, id)] in r
      ensures forall e :: e in r ==> exists id :: (entityType, id) in context.rows && context.rows[(entityType, id)] == e
    {
      r := set key | key in context.rows && key.0 == entityType :: context.rows[key];
    }

    /** `InsertAsync`: null throws and stages nothing; otherwise the entity
      is staged for insertion and nothing is saved. */
    method Insert(entity: Option<Entity<K, D>>) returns (r: Result<(), Error>)
      modifies context`tracked
      ensures entity.None? ==> r == Failure(ArgumentNull("entity")) && context.tracked == old(context.tracked)
      ensures entity.Some? ==> r.Success? && context.tracked == StageAdd(old(context.tracked), entityType, entity.value)
    {
      if entity.None? {
        return Failure(ArgumentNull("entity"));
      }
      context.tracked := StageAdd(context.tracked, entityType, entity.value);
      r := Success(());
    }

    /** `Update`: null throws and stages nothing; otherwise the entity is
      staged as Modified and nothing is saved. */
    method Update(entity: Option<Entity<K, D>>) returns (r: Result<(), Error>)
      modifies context`tracked
      ensures entity.None? ==> r == Failure(ArgumentNull("entity")) && context.tracked == old(context.tracked)
      ensures entity.Some? ==> r.Success? && context.tracked == StageModify(old(context.tracked), entityType, entity.value)
    {
      if entity.None? {
        return Failure(ArgumentNull("entity"));
      }
      context.tracked := StageModify(context.tracked, entityType, entity.value);
      r := Success(());
    }

    /** `DeleteAsync`: finds the entity and stages its removal; a missing key
      changes nothing. */
    method Delete(id: K)
      modifies context`tracked
      ensures context.tracked == StageRemove(context.rows, old(context.tracked), (entityType, id))
    {
      context.tracked := StageRemove(context.rows, context.tracked, (entityType, id));
    }

    /** `Dispose(bool disposing)`: the first call, when disposing, disposes
      the context; every call after that does nothing. */
    method DisposeCore(disposing: bool)
      modifies this`disposed, context`disposed
      ensures disposed
      ensures !old(disposed) && disposing ==> context.disposed
      ensures old(disposed) || !disposing ==> context.disposed == old(context.disposed)
    {
      if !disposed {
        if disposing {
          context.Dispose();
        }
        disposed := true;
      }
    }

    /** `Dispose()`. */
    method Dispose()
      modifies this`disposed, context`disposed
      ensures disposed
      ensures !old(disposed) ==> context.disposed
      ensures old(disposed) ==> context.disposed == old(context.disposed)
    {
      DisposeCore(true);
    }
  }

  /** `UnitOfWork`: one context, a cache of one repository per entity type,
      and a disposed flag. */
  class UnitOfWork<K(==,!new), D(==)> {
    const context: DbContext<K, D>
    var repositories: map<EntityType, Repository<K, D>>
    var disposed: bool

    /** Every cached repository is the one for its type, over this context. */
    ghost predicate Valid()
      reads this
    {
      forall t :: t in repositories ==> repositories[t].context == context && repositories[t].entityType == t
    }

    constructor (context: DbContext<K, D>)
      ensures Valid() && this.context == context && repositories == map[] && !disposed
    {
      this.context := context;
      repositories := map[];
      disposed := false;
    }

    /** `GetRepository<TEntity>`: the cached repository for the type, or a
      new one over this context, cached for next time. */
    method GetRepository(entityType: EntityType) returns (r: Repository<K, D>)
      requires Valid()
      modifies this`repositories
      ensures Valid()
      ensures r.context == context && r.entityType == entityType
      ensures entityType in old(repositories) ==> r == old(repositories[entityType]) && repositories == old(repositories)
      ensures entityType !in old(repositories) ==> fresh(r) && !r.disposed && repositories == old(repositories)[entityType := r]
    {
      if entityType in repositories {
        r := repositories[entityType];
      } else {
        r := new Repository(context, entityType);
        repositories := repositories[entityType := r];
      }
    }

    /** `CommitAsync`: one save of everything staged; a failure is passed on
      as it is. `storeAccepts` is the database's verdict on its own
      constraints, as for `SaveChanges`. */
    method Commit(storeAccepts: bool) returns (r: Result<(), Error>)
      modifies context`rows, context`tracked
      ensures CanSave(old(context.rows), old(context.tracked)) && storeAccepts ==>
        r.Success? && context.rows == Saved(old(context.rows), old(context.tracked)) && context.tracked == map[]
      ensures !(CanSave(old(context.rows), old(context.tracked)) && storeAccepts) ==>
        r == Failure(DbUpdate) && context.rows == old(context.rows) && context.tracked == old(context.tracked)
    {
      r := context.SaveChanges(storeAccepts);
    }

    /** `Dispose(bool disposing)`: the first call, when disposing, disposes
      the context and every cached repository; later calls do nothing. */
    method DisposeCore(disposing: bool)
      requires Valid()
      modifies this`disposed, context`disposed, repositories.Values
      ensures disposed
      ensures !old(disposed) && disposing ==>
        context.disposed && forall r :: r in repositories.Values ==> r.disposed
      ensures old(disposed) || !disposing ==>
        context.disposed == old(context.disposed) && forall r :: r in repositories.Values ==> r.disposed == old(r.disposed)
    {
      if !disposed {
        if disposing {
          context.Dispose();
          var remaining := repositories.Values;
          while remaining != {}
            invariant remaining <= repositories.Values
            invariant context.disposed
            invariant forall r :: r in repositories.Values - remaining ==> r.disposed
            decreases |remaining|
          {
            var r :| r in remaining;
            r.Dispose();
            remaining := remaining - {r};
          }
        }
        disposed := true;
      }
    }

    /** `Dispose()`. */
    method Dispose()
      requires Valid()
      modifies this`disposed, context`disposed, repositories.Values
      ensures disposed
      ensures !old(disposed) ==> context.disposed && forall r :: r in repositories.Values ==> r.disposed
      ensures old(disposed) ==>
        context.disposed == old(context.disposed) && forall r :: r in repositories.Values ==> r.disposed == old(r.disposed)
    {
      DisposeCore(true);
    }
  }

  /** After `InsertAsync` of an entity with a new key and a successful commit,
      `GetByIdAsync` on its key returns it. */
  lemma InsertCommitFind<K(!new), D>(rows: map<Location<K>, Entity<K, D>>, tracked: map<Location<K>, Change<K, D>>, entityType: EntityType, e: Entity<K, D>)
    requires CanSave(rows, tracked) && (entityType, e.id) !in rows
    ensures CanSave(rows, StageAdd(tracked, entityType, e))
    ensures Find(Saved(rows, StageAdd(tracked, entityType, e)), map[], (entityType, e.id)) == Some(e)
  {
    var t := StageAdd(tracked, entityType, e);
    forall key | key in t
      ensures t[key].Add? <==> key !in rows
    {
      if key != (entityType, e.id) {
        assert t[key] == tracked[key];
      }
    }
  }

  /** Inserting a key that is already saved makes the commit fail. */
  lemma InsertExistingFails<K(!new), D>(rows: map<Location<K>, Entity<K, D>>, tracked: map<Location<K>, Change<K, D>>, entityType: EntityType, e: Entity<K, D>)
    requires (entityType, e.id) in rows
    ensures !CanSave(rows, StageAdd(tracked, entityType, e))
  {
    var key := (entityType, e.id);
    assert key in StageAdd(tracked, entityType, e) && StageAdd(tracked, entityType, e)[key].Add?;
  }

  /** After `Update` of a saved entity and a successful commit, its fields
      are the ones it was updated with. */
  lemma UpdateCommitReplaces<K(!new), D>(rows: map<Location<K>, Entity<K, D>>, tracked: map<Location<K>, Change<K, D>>, entityType: EntityType, e: Entity<K, D>)
    requires CanSave(rows, tracked) && (entityType, e.id) in rows
    ensures CanSave(rows, StageModify(tracked, entityType, e))
    ensures Find(Saved(rows, StageModify(tracked, entityType, e)), map[], (entityType, e.id)) == Some(e)
  {
    var t := StageModify(tracked, entityType, e);
    forall key | key in t
      ensures t[key].Add? <==> key !in rows
    {
      if key != (entityType, e.id) {
        assert t[key] == tracked[key];
      }
    }
  }

  /** After `DeleteAsync` of a key that `GetByIdAsync` finds and a successful
      commit, `GetByIdAsync` returns null. */
  lemma DeleteCommitNull<K(!new), D>(rows: map<Location<K>, Entity<K, D>>, tracked: map<Location<K>, Change<K, D>>, key: Location<K>)
    requires CanSave(rows, tracked) && Find(rows, tracked, key).Some?
    ensures CanSave(rows, StageRemove(rows, tracked, key))
    ensures Find(Saved(rows, StageRemove(rows, tracked, key)), map[], key) == None
  {
    var t := StageRemove(rows, tracked, key);
    forall k | k in t
      ensures t[k].Add? <==> k !in rows
    {
      if k != key {
        assert t[k] == tracked[k];
      }
    }
  }

  /** `DeleteAsync` of a key nothing holds stages nothing. */
  lemma DeleteMissingIsNoOp<K(!new), D>(rows: map<Location<K>, Entity<K, D>>, tracked: map<Location<K>, Change<K, D>>, key: Location<K>)
    requires Find(rows, tracked, key).None?
    ensures StageRemove(rows, tracked, key) == tracked
  {
  }

  /** Staging a change under one key leaves what a commit writes under every
      other key as it was: repositories of different types, and different
      keys of one type, do not interfere. */
  lemma StagingKeepsOtherKeys<K(!new), D>(rows: map<Location<K>, Entity<K, D>>, tracked: map<Location<K>, Change<K, D>>, entityType: EntityType, e: Entity<K, D>, other: Location<K>)
    requires other != (entityType, e.id)
    ensures var s := Saved(rows, tracked);
      && (other in Saved(rows, StageAdd(tracked, entityType, e)) <==> other in s)
      && (other in s ==> Saved(rows, StageAdd(tracked, entityType, e))[other] == s[other])
      && (other in Saved(rows, StageModify(tracked, entityType, e)) <==> other in s)
      && (other in s ==> Saved(rows, StageModify(tracked, entityType, e))[other] == s[other])
      && (other in Saved(rows, StageRemove(rows, tracked, (entityType, e.id))) <==> other in s)
      && (other in s ==> Saved(rows, StageRemove(rows, tracked, (entityType, e.id)))[other] == s[other])
  {
    var key := (entityType, e.id);
    var t := StageRemove(rows, tracked, key);
    assert other in t <==> other in tracked;
    assert other in t ==> t[other] == tracked[other];
  }

  /** A commit with nothing staged writes nothing. */
  lemma EmptyCommitKeepsRows<K(!new), D>(rows: map<Location<K>, Entity<K, D>>)
    ensures CanSave(rows, map[]) && Saved(rows, map[]) == rows
  {
  }
}
