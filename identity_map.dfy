/** The unit of work with its identity map, and the `Users` repository that fronts it. */
module IdentityMap {
  import opened Wrappers
  import opened Runtime
  import opened Snapshots
  import opened Entities
  import opened Mappers

  /** The session state: the three `HashSet<Entity>` fields. Membership is by reference,
      since `User` overrides `Equals` but not `GetHashCode`. A fetch that found nothing
      leaves `null` in the tracked set. */
  datatype Sets = Sets(newEntities: set<Entity>, trackedEntities: set<Entity?>, deletedEntities: set<Entity>)

  const Empty: Sets := Sets({}, {}, {})

  /** `_deletedEntities.Any(entity => entity.Id.Equals(id))` */
  predicate HasDeleted(s: Sets, id: Guid)
  {
    exists e :: e in s.deletedEntities && e.id == id
  }

  /** The test of the `FirstOrDefault` searches: `entity is TEntity && entity.Id.Equals(id)`. */
  predicate Matches(e: Entity?, t: EntityType, id: Guid)
  {
    e != null && IsA(e.kind, t) && e.id == id
  }

  /** Some member of `es` passes the `FirstOrDefault` test. */
  predicate HitIn(es: set<Entity?>, t: EntityType, id: Guid)
  {
    exists e :: e in es && Matches(e, t, id)
  }

  /** What the mapper's `FetchEntity` (behind `OpenConnection`) gives back on a miss. */
  datatype FetchOutcome = Fetched(entity: Entity?) | ConnectionFailed | FetchFailed

  /** The state after `Delete(e)`: no change when `e` is already deleted; otherwise `e` is
      added to the deleted set and removed from the other two. */
  function AfterDelete(s: Sets, e: Entity): (r: Sets)
    ensures e in r.deletedEntities
    ensures e in s.deletedEntities ==> r == s
    ensures e !in s.deletedEntities ==> e !in r.newEntities && e !in r.trackedEntities
    ensures r.newEntities - {e} == s.newEntities - {e}
    ensures r.trackedEntities - {e} == s.trackedEntities - {e}
    ensures r.deletedEntities - {e} == s.deletedEntities - {e}
  {
    if e in s.deletedEntities then s
    else Sets(s.newEntities - {e}, s.trackedEntities - {e}, s.deletedEntities + {e})
  }

  /** The relation between the state before and after `GetById<t>(id)` and its result `r`.
      The deleted set is consulted first (by Id alone), then the tracked set, then the new set;
      only on a miss is a connection opened and the mapper of `t` asked, and whatever it
      returns, `null` included, joins the tracked set before the cast to `t`. */
  ghost predicate LookedUp(mappers: seq<EntityMapper>, s: Sets, s': Sets, t: EntityType, id: Guid,
                           fetched: FetchOutcome, r: Result<Entity?, Error>)
  {
    && s'.newEntities == s.newEntities
    && s'.deletedEntities == s.deletedEntities
    && if HasDeleted(s, id) then r == Ok(null) && s' == s
       else if HitIn(s.trackedEntities, t, id) then
         r.Ok? && r.value in s.trackedEntities && Matches(r.value, t, id) && s' == s
       else if HitIn(s.newEntities, t, id) then
         r.Ok? && r.value in s.newEntities && Matches(r.value, t, id) && s' == s
       else if fetched.ConnectionFailed? then r == Err(ConnectionFault) && s' == s
       else if MapperOf(mappers, t).None? then r == Err(NoMapper(t)) && s' == s
       else if fetched.FetchFailed? then r == Err(FetchFault) && s' == s
       else
         && s'.trackedEntities == s.trackedEntities + {fetched.entity}
         && r == (if fetched.entity == null || IsA(fetched.entity.kind, t) then Ok(fetched.entity)
                  else Err(InvalidCast))
  }

  /** Deleting twice is deleting once. */
  lemma DeleteIdempotent(s: Sets, e: Entity)
    ensures AfterDelete(AfterDelete(s, e), e) == AfterDelete(s, e)
  {
  }

  /** After a miss whose fetch produced an entity of type `t` with the Id asked for, asking again
      hits the identity map: the same reference comes back and no set changes. */
  lemma FetchedEntityIsTracked(mappers: seq<EntityMapper>, s: Sets, s': Sets, s'': Sets, t: EntityType, id: Guid,
                               e: Entity, r: Result<Entity?, Error>, again: FetchOutcome, r': Result<Entity?, Error>)
    requires !HasDeleted(s, id) && !HitIn(s.trackedEntities, t, id) && !HitIn(s.newEntities, t, id)
    requires MapperOf(mappers, t).Some?
    requires Matches(e, t, id)
    requires LookedUp(mappers, s, s', t, id, Fetched(e), r)
    requires LookedUp(mappers, s', s'', t, id, again, r')
    ensures r == Ok(e) && r' == Ok(e) && s'' == s'
  {
    assert HitIn(s'.trackedEntities, t, id);
    forall x | x in s'.trackedEntities && Matches(x, t, id)
      ensures x == e
    {
      assert x !in s.trackedEntities;
    }
  }

  /** At most one member of `es` passes the `FirstOrDefault` test. */
  predicate AtMostOneMatch(es: set<Entity?>, t: EntityType, id: Guid)
  {
    forall x, y :: x in es && y in es && Matches(x, t, id) && Matches(y, t, id) ==> x == y
  }

  /** A lookup answered from the identity map (a deleted Id, or a hit in the tracked or new
      set) is repeatable: asking again, whatever the mapper would fetch, gives the same answer
      and changes no set, provided neither set holds two matching entities. */
  lemma HitIsRepeatable(mappers: seq<EntityMapper>, s: Sets, s': Sets, s'': Sets, t: EntityType, id: Guid,
                        first: FetchOutcome, r: Result<Entity?, Error>, again: FetchOutcome, r': Result<Entity?, Error>)
    requires HasDeleted(s, id) || HitIn(s.trackedEntities, t, id) || HitIn(s.newEntities, t, id)
    requires AtMostOneMatch(s.trackedEntities, t, id) && AtMostOneMatch(s.newEntities, t, id)
    requires LookedUp(mappers, s, s', t, id, first, r)
    requires LookedUp(mappers, s', s'', t, id, again, r')
    ensures r' == r && s'' == s' && s' == s
  {
  }

  /** Which steps of a commit throw: opening the connection, the mapper call at a given
      position (counted from 0 within the commit; the first one to throw ends the commit),
      and `transaction.Commit()`. */
  datatype Faults = Faults(connection: bool, failingCall: Option<nat>, commit: bool)
  {
    /** The failing call is among the calls at positions `from` up to (excluding) `to`. */
    predicate Hits(from: nat, to: nat)
    {
      failingCall.Some? && from <= failingCall.value < to
    }

    /** A call in the union of two adjacent ranges is in one of them. */
    lemma HitsJoin(a: nat, b: nat, c: nat)
      requires a <= b <= c
      requires !Hits(a, b) && !Hits(b, c)
      ensures !Hits(a, c)
    {
    }
  }

  const NoFaults: Faults := Faults(false, None, false)

  /** `es` lists the members of `s`, each exactly once, in some order. */
  ghost predicate Enumerates(es: seq<Entity>, s: set<Entity>)
  {
    && (forall i, j :: 0 <= i < j < |es| ==> es[i] != es[j])
    && (forall i :: 0 <= i < |es| ==> es[i] in s)
    && (forall e :: e in s ==> e in es)
  }

  /** The members of `es` that a commit phase hands to a mapper: the non-null ones, and with
      `changedOnly` only those whose `HasChanges()` is true. */
  ghost function Selected(es: set<Entity?>, changedOnly: bool): (selected: set<Entity>)
    reads es
  {
    set e: Entity | e in es && (!changedOnly || e.HasChanges())
  }

  /** One step of a phase that hands `x` to its mapper: `x` joins the handled entities. */
  lemma PhaseStep(mappers: seq<EntityMapper>, op: Op, done: seq<Entity>, chosen: set<Entity>,
                  before: seq<MapperCall>, calls: seq<MapperCall>, x: Entity)
    requires x !in chosen
    requires Enumerates(done, chosen)
    requires forall i :: 0 <= i < |done| ==> Resolvable(mappers, done[i])
    requires Resolvable(mappers, x)
    requires calls == before + Issue(mappers, op, done)
    ensures Enumerates(done + [x], chosen + {x})
    ensures forall i :: 0 <= i < |done + [x]| ==> Resolvable(mappers, (done + [x])[i])
    ensures calls + [CallOf(mappers, op, x)] == before + Issue(mappers, op, done + [x])
  {
    IssueSnoc(mappers, op, done, x);
    EnumeratesSnoc(done, chosen, x);
  }

  /** Listing one more entity after the others enumerates the larger set. */
  lemma EnumeratesSnoc(es: seq<Entity>, s: set<Entity>, e: Entity)
    requires Enumerates(es, s) && e !in s
    ensures Enumerates(es + [e], s + {e})
  {
  }

  /** A phase that selects without the change filter selects every member. */
  lemma SelectedAll(es: set<Entity>)
    ensures Selected(es, false) == es
  {
  }

  /** A sequence that enumerates a set is as long as the set is large. */
  lemma {:induction false} EnumeratesCard(es: seq<Entity>, s: set<Entity>)
    requires Enumerates(es, s)
    ensures |es| == |s|
  {
    if es == [] {
      assert forall e :: e in s ==> e in es;
      assert s == {};
    } else {
      var last, init := es[|es| - 1], es[..|es| - 1];
      forall e | e in s - {last}
        ensures e in init
      {
        var i :| 0 <= i < |es| && es[i] == e;
        assert i < |es| - 1;
        assert init[i] == e;
      }
      assert Enumerates(init, s - {last});
      EnumeratesCard(init, s - {last});
    }
  }

  /** Nothing enumerates the empty set but the empty sequence. */
  lemma EnumeratesNone(es: seq<Entity>)
    requires Enumerates(es, {})
    ensures es == []
  {
    EnumeratesCard(es, {});
  }

  /** A singleton is enumerated only by the sequence of its member. */
  lemma EnumeratesOne(es: seq<Entity>, x: Entity)
    requires Enumerates(es, {x})
    ensures es == [x]
  {
    EnumeratesCard(es, {x});
    assert x in es;
  }

  /** `calls` are those of a commit of `s` whose phases took the orders `inserted`, `updated`
      and `deleted`: each phase lists its entities exactly once, each has a mapper, and the
      calls are the inserts, then the updates, then the deletes. */
  ghost predicate Committed(mappers: seq<EntityMapper>, s: Sets, inserted: seq<Entity>, updated: seq<Entity>,
                            deleted: seq<Entity>, calls: seq<MapperCall>)
    reads s.trackedEntities
  {
    && Enumerates(inserted, s.newEntities)
    && Enumerates(updated, Selected(s.trackedEntities, true))
    && Enumerates(deleted, s.deletedEntities)
    && (forall i :: 0 <= i < |inserted| ==> Resolvable(mappers, inserted[i]))
    && (forall i :: 0 <= i < |updated| ==> Resolvable(mappers, updated[i]))
    && (forall i :: 0 <= i < |deleted| ==> Resolvable(mappers, deleted[i]))
    && calls == Issue(mappers, Insert, inserted) + Issue(mappers, Update, updated) + Issue(mappers, Delete, deleted)
  }

  /** The three phases, each run after the one before, make up a commit of `s`. */
  lemma PhasesCommit(mappers: seq<EntityMapper>, s: Sets, inserted: seq<Entity>, updated: seq<Entity>,
                     deleted: seq<Entity>, afterInserts: seq<MapperCall>, afterUpdates: seq<MapperCall>,
                     calls: seq<MapperCall>)
    requires Enumerates(inserted, Selected(s.newEntities, false))
    requires Enumerates(updated, Selected(s.trackedEntities, true))
    requires Enumerates(deleted, Selected(s.deletedEntities, false))
    requires forall i :: 0 <= i < |inserted| ==> Resolvable(mappers, inserted[i])
    requires forall i :: 0 <= i < |updated| ==> Resolvable(mappers, updated[i])
    requires forall i :: 0 <= i < |deleted| ==> Resolvable(mappers, deleted[i])
    requires afterInserts == [] + Issue(mappers, Insert, inserted)
    requires afterUpdates == afterInserts + Issue(mappers, Update, updated)
    requires calls == afterUpdates + Issue(mappers, Delete, deleted)
    ensures Committed(mappers, s, inserted, updated, deleted, calls)
  {
    SelectedAll(s.newEntities);
    SelectedAll(s.deletedEntities);
    assert [] + Issue(mappers, Insert, inserted) == Issue(mappers, Insert, inserted);
  }

  /** A commit makes one call per new entity, per tracked entity with changes and per deleted entity. */
  lemma CommittedCount(mappers: seq<EntityMapper>, s: Sets, inserted: seq<Entity>, updated: seq<Entity>,
                       deleted: seq<Entity>, calls: seq<MapperCall>)
    requires Committed(mappers, s, inserted, updated, deleted, calls)
    ensures |calls| == |s.newEntities| + |Selected(s.trackedEntities, true)| + |s.deletedEntities|
  {
    EnumeratesCard(inserted, s.newEntities);
    EnumeratesCard(updated, Selected(s.trackedEntities, true));
    EnumeratesCard(deleted, s.deletedEntities);
  }

  /** A commit's calls are the inserts, then the updates, then the deletes, each through the
      entity's mapper. */
  lemma CommittedOrder(mappers: seq<EntityMapper>, s: Sets, inserted: seq<Entity>, updated: seq<Entity>,
                       deleted: seq<Entity>, calls: seq<MapperCall>)
    requires Committed(mappers, s, inserted, updated, deleted, calls)
    ensures forall i :: 0 <= i < |inserted| ==> calls[i] == CallOf(mappers, Insert, inserted[i])
    ensures forall i :: 0 <= i < |updated| ==> calls[|inserted| + i] == CallOf(mappers, Update, updated[i])
    ensures forall i :: 0 <= i < |deleted| ==> calls[|inserted| + |updated| + i] == CallOf(mappers, Delete, deleted[i])
  {
    IssueAt(mappers, Insert, inserted);
    IssueAt(mappers, Update, updated);
    IssueAt(mappers, Delete, deleted);
  }

  /** With no tracked entity that has changes, a commit makes no update call on any mapper. */
  lemma CommittedNoUpdate(mappers: seq<EntityMapper>, s: Sets, inserted: seq<Entity>, updated: seq<Entity>,
                          deleted: seq<Entity>, calls: seq<MapperCall>, spy: nat)
    requires Committed(mappers, s, inserted, updated, deleted, calls)
    requires forall e :: e in s.trackedEntities && e != null ==> !e.HasChanges()
    ensures !UpdateEntityWasCalled(calls, spy)
  {
    assert Selected(s.trackedEntities, true) == {};
    EnumeratesNone(updated);
    NoUpdateWithoutUpdatePhase(mappers, inserted, deleted, spy);
  }

  class UnitOfWork {
    var newEntities: set<Entity>
    var trackedEntities: set<Entity?>
    var deletedEntities: set<Entity>
    /** The registry, in registration order. */
    const mappers: seq<EntityMapper>

    /** The three sets as one value. */
    function State(): (s: Sets)
      reads this
    {
      Sets(newEntities, trackedEntities, deletedEntities)
    }

    /** Every entity that a commit would hand to a mapper has one. */
    ghost predicate Configured()
      reads this, trackedEntities
    {
      && (forall e :: e in newEntities ==> Resolvable(mappers, e))
      && (forall e :: e in Selected(trackedEntities, true) ==> Resolvable(mappers, e))
      && (forall e :: e in deletedEntities ==> Resolvable(mappers, e))
    }

    constructor (mappers: seq<EntityMapper>)
      ensures this.mappers == mappers && State() == Empty
    {
      this.mappers := mappers;
      newEntities, trackedEntities, deletedEntities := {}, {}, {};
    }

    /** Adds the entity to the new set. */
    method RegisterNew(entity: Entity)
      modifies this
      ensures State() == old(State()).(newEntities := old(newEntities) + {entity})
    {
      newEntities := newEntities + {entity};
    }

    /** Idempotent: see `AfterDelete`. */
    method Delete(entity: Entity)
      modifies this
      ensures State() == AfterDelete(old(State()), entity)
    {
      if entity in deletedEntities {
        return;
      }
      deletedEntities := deletedEntities + {entity};
      newEntities := newEntities - {entity};
      trackedEntities := trackedEntities - {entity};
    }

    /** `GetById<t>(id)`; `fetched` is what the mapper's fetch yields, consulted only on a miss. */
    method GetById(t: EntityType, id: Guid, fetched: FetchOutcome) returns (r: Result<Entity?, Error>)
      modifies this
      ensures LookedUp(mappers, old(State()), State(), t, id, fetched, r)
    {
      if exists e :: e in deletedEntities && e.id == id {
        return Ok(null);
      }
      if exists e :: e in trackedEntities && Matches(e, t, id) {
        var e :| e in trackedEntities && Matches(e, t, id);
        return Ok(e);
      }
      if exists e :: e in newEntities && Matches(e, t, id) {
        var e :| e in newEntities && Matches(e, t, id);
        return Ok(e);
      }
      if fetched.ConnectionFailed? {
        return Err(ConnectionFault);
      }
      var m := MapperOf(mappers, t);
      if m.None? {
        return Err(NoMapper(t));
      }
      if fetched.FetchFailed? {
        return Err(FetchFault);
      }
      var entity := fetched.entity;
      trackedEntities := trackedEntities + {entity};
      if entity == null || IsA(entity.kind, t) {
        r := Ok(entity);
      } else {
        r := Err(InvalidCast);
      }
    }

    /** `Commit()`: inside one transaction, insert every new entity, update every tracked entity
        that has changes, delete every deleted entity, in that phase order (the order within a
        phase is the unspecified order of the `HashSet`), then commit the transaction and only
        then clear the three sets. `calls` are the mapper calls made, the failing one included.
        The ghost results name the order each phase took. */
    method Commit(faults: Faults)
      returns (outcome: Outcome<Error>, calls: seq<MapperCall>,
               ghost inserted: seq<Entity>, ghost updated: seq<Entity>, ghost deleted: seq<Entity>)
      modifies this
      ensures outcome.Pass? ==> State() == Empty
      ensures outcome.Fail? ==> State() == old(State())
      ensures outcome.Pass? ==> Committed(mappers, old(State()), inserted, updated, deleted, calls)
      ensures outcome.Pass? ==> null !in old(trackedEntities)
      ensures outcome.Pass? ==> !faults.connection && !faults.commit && !faults.Hits(0, |calls|)
      ensures faults == NoFaults && null !in old(trackedEntities) && old(Configured()) ==> outcome.Pass?
    {
      calls, inserted, updated, deleted := [], [], [], [];
      if faults.connection {
        return Fail(ConnectionFault), calls, inserted, updated, deleted;
      }
      var failure: Option<Error>;
      failure, calls, inserted, updated, deleted := IssueAll(faults);
      if failure.Some? {
        return Fail(failure.value), calls, inserted, updated, deleted;
      }
      if faults.commit {
        return Fail(TransactionFault), calls, inserted, updated, deleted;
      }
      trackedEntities, newEntities, deletedEntities := {}, {}, {};
      outcome := Pass;
    }

    /** The three `foreach` loops of `Commit`, in order; the first failure ends them. */
    method IssueAll(faults: Faults)
      returns (failure: Option<Error>, calls: seq<MapperCall>,
               ghost inserted: seq<Entity>, ghost updated: seq<Entity>, ghost deleted: seq<Entity>)
      ensures failure.None? ==> Committed(mappers, State(), inserted, updated, deleted, calls)
      ensures failure.None? ==> null !in trackedEntities && !faults.Hits(0, |calls|)
      ensures faults.failingCall.None? && null !in trackedEntities && Configured() ==> failure.None?
    {
      updated, deleted := [], [];
      SelectedAll(newEntities);
      SelectedAll(deletedEntities);
      failure, calls, inserted := IssuePhase(Op.Insert, newEntities, false, faults, []);
      if failure.Some? {
        return;
      }
      ghost var afterInserts := calls;
      failure, calls, updated := IssuePhase(Op.Update, trackedEntities, true, faults, calls);
      if failure.Some? {
        return;
      }
      ghost var afterUpdates := calls;
      failure, calls, deleted := IssuePhase(Op.Delete, deletedEntities, false, faults, calls);
      if failure.Some? {
        return;
      }
      PhasesCommit(mappers, State(), inserted, updated, deleted, afterInserts, afterUpdates, calls);
      faults.HitsJoin(0, |afterInserts|, |afterUpdates|);
      faults.HitsJoin(0, |afterUpdates|, |calls|);
    }

    /** `MapperOf(entity.GetType()).Op(transaction, entity)`: resolve the mapper of `e` and make
        the call, appending it to `before`; the call at position `|before|` may throw. */
    method IssueCall(op: Op, e: Entity, faults: Faults, before: seq<MapperCall>)
      returns (failure: Option<Error>, calls: seq<MapperCall>)
      ensures failure.None? <==> Resolvable(mappers, e) && faults.failingCall != Some(|before|)
      ensures failure.None? ==> calls == before + [CallOf(mappers, op, e)] && !faults.Hits(|before|, |calls|)
      ensures failure == Some(NoMapper(TypeOf(e.kind))) <==> !Resolvable(mappers, e)
    {
      var m := MapperOf(mappers, TypeOf(e.kind));
      if m.None? {
        return Some(NoMapper(TypeOf(e.kind))), before;
      }
      calls := before + [CallOf(mappers, op, e)];
      if faults.failingCall == Some(|before|) {
        return Some(MapperFault(|before|)), calls;
      }
      failure := None;
    }

    /** One `foreach` loop of `Commit`: for each member of `es` (all of them, or only those
        whose `HasChanges()` is true), resolve its mapper and call `op` on it, appending the
        call to `before`. A null member throws, as invoking a member on it would. The ghost
        result names the order the loop took. */
    method IssuePhase(op: Op, es: set<Entity?>, changedOnly: bool, faults: Faults, before: seq<MapperCall>)
      returns (failure: Option<Error>, calls: seq<MapperCall>, ghost done: seq<Entity>)
      ensures failure.None? ==> null !in es
      ensures failure.None? ==>
        && Enumerates(done, Selected(es, changedOnly))
        && (forall i :: 0 <= i < |done| ==> Resolvable(mappers, done[i]))
        && calls == before + Issue(mappers, op, done)
      ensures failure.None? ==> !faults.Hits(|before|, |calls|)
      ensures faults.failingCall.None? && null !in es && (forall e :: e in Selected(es, changedOnly) ==> Resolvable(mappers, e))
              ==> failure.None?
    {
      failure, calls, done := None, before, [];
      var pending: set<Entity?> := es;
      ghost var chosen: set<Entity> := {};
      while pending != {}
        invariant failure.None?
        invariant pending <= es
        invariant null !in es - pending
        invariant forall x: Entity :: x in chosen <==> x in es && x !in pending && (!changedOnly || x.HasChanges())
        invariant Enumerates(done, chosen)
        invariant forall i :: 0 <= i < |done| ==> Resolvable(mappers, done[i])
        invariant calls == before + Issue(mappers, op, done)
        invariant !faults.Hits(|before|, |calls|)
        decreases pending
      {
        var e: Entity? :| e in pending;
        if e == null {
          return Some(NullReference), calls, done;
        }
        var x: Entity := e;
        if !changedOnly || x.HasChanges() {
          ghost var calls0 := calls;
          failure, calls := IssueCall(op, x, faults, calls);
          if failure.Some? {
            assert x in Selected(es, changedOnly);
            return failure, calls, done;
          }
          PhaseStep(mappers, op, done, chosen, before, calls0, x);
          faults.HitsJoin(|before|, |calls0|, |calls|);
          done, chosen := done + [x], chosen + {x};
        }
        pending := pending - {x};
      }
      assert chosen == Selected(es, changedOnly);
    }
  }

  /** The `Users` repository: a typed facade that forwards to the unit of work. */
  class Users {
    const unitOfWork: UnitOfWork

    constructor (unitOfWork: UnitOfWork)
      ensures this.unitOfWork == unitOfWork
    {
      this.unitOfWork := unitOfWork;
    }

    /** `Add(User)` forwards to `RegisterNew`. */
    method Add(user: Entity)
      requires user.kind == UserKind
      modifies unitOfWork
      ensures unitOfWork.State() == old(unitOfWork.State()).(newEntities := old(unitOfWork.newEntities) + {user})
    {
      unitOfWork.RegisterNew(user);
    }

    /** `GetById(Guid)` forwards to `GetById<User>`. */
    method GetById(userId: Guid, fetched: FetchOutcome) returns (r: Result<Entity?, Error>)
      modifies unitOfWork
      ensures LookedUp(unitOfWork.mappers, old(unitOfWork.State()), unitOfWork.State(), UserType, userId, fetched, r)
    {
      r := unitOfWork.GetById(UserType, userId, fetched);
    }

    /** `Delete(User)` forwards to `Delete`. */
    method Delete(userToDelete: Entity)
      requires userToDelete.kind == UserKind
      modifies unitOfWork
      ensures unitOfWork.State() == AfterDelete(old(unitOfWork.State()), userToDelete)
    {
      unitOfWork.Delete(userToDelete);
    }
  }
}
