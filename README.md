# Unit of Work with an Identity Map, in Dafny

This project models the change tracker of the `UoWWithIdentityMap` sample: a `UnitOfWork`
that keeps three sets of entities (new, tracked, deleted), serves `GetById` from those sets
before it asks a mapper to fetch, and on `Commit` hands every new entity to its mapper's
insert, every tracked entity that reports `HasChanges()` to its update, and every deleted
entity to its delete, in that order, before it commits the transaction and clears the sets.
The dirty check compares the snapshot taken when the entity was built (`UserState`,
`DummyEntityState`) with a fresh snapshot of its current fields.

Modules, in dependency order:

- `Wrappers`: `Option`, `Result` and `Outcome`. `None` stands for a C# `null`; `Err` and
  `Fail` stand for a thrown exception.
- `Runtime`: the two runtime types of entity, the type arguments a caller can pass
  (`typeof(Entity)` or a concrete type), the `is` test, and the exceptions the core raises.
- `Snapshots`: `Guid`, the two snapshot records and their `Equals` methods.
- `Entities`: one class `Entity` for the abstract base and both subclasses. Its `kind` field is
  the runtime type, and the named constructors `User` and `DummyEntity` record the baseline.
- `Mappers`: the registry of mappers, `MapperOf` (first match), and the calls a commit makes.
  The spy's `UpdateEntityWasCalled` is read off the calls made on it.
- `IdentityMap`: the `UnitOfWork` class with its three set fields, the `Users` repository, and
  the definitions that state what the operations do: `AfterDelete`, `LookedUp` and `Committed`.
- `UsersTable`: the `dbo.Users` table as a map from Id to Name, used by the scenarios. The
  calls a commit makes are applied to it, and `FetchEntity` reads a row back into a fresh user.
- `Scenarios`: the seven xUnit tests as methods whose postconditions are the tests' assertions.
  Two of them also state a consequence that no test asserts: `CanUpdate` that the renamed
  instance still reports changes, and `DeletedAndCommitted` that a further commit fails.

The sets hold references. `User` overrides `Equals` but not `GetHashCode`, so `HashSet`
membership in the source is by reference too. The tracked set has type `set<Entity?>`,
because `GetById` adds whatever the fetch returned, `null` included. A later `Commit` then
calls `HasChanges()` on that `null` and throws. The model keeps this behaviour: see
`Scenarios.DeletedAndCommitted`.

The outside world enters the model through parameters:

- `GetById` takes a `FetchOutcome`: the entity the mapper's `FetchEntity` returns, or a failure
  of the connection or of the fetch. It is consulted only on a miss.
- `Commit` takes a `Faults` value. It says whether opening the connection throws, which mapper
  call (by position within the commit) throws, and whether `transaction.Commit()` throws.
- The order in which a `HashSet` is enumerated is a nondeterministic choice. The ghost results
  of `Commit` name the order each phase took.

`Commit` does not refresh baselines: it changes only the unit of work. An entity that was
updated therefore still reports `HasChanges()` after the commit. A design in which a
successful commit refreshes the baseline would make that instance clean. The model follows
the code, and `Scenarios.CanUpdate` states the code's behaviour.

## Model

| member | source | states |
|---|---|---|
| `Snapshots.UserState.Equals` | UoWWithIdentityMap/Tests.cs:342-347 | false for null; otherwise true exactly when Id and Name are both equal, i.e. exactly when the argument is the same value |
| `Snapshots.DummyEntityState.Equals` | UoWWithIdentityMap/EntityTests.cs:50-55 | false for null; otherwise true exactly when Id and Name are both equal |
| `Snapshots.EntityState.Equals` | UoWWithIdentityMap/EntityTests.cs:57-63 | `Equals(object)` of either snapshot type: false for null and for a snapshot of the other runtime type, otherwise the typed `Equals`; true exactly when the argument is the same value |
| `Entities.Entity.User` | UoWWithIdentityMap/Tests.cs:297-302 | the new user has the given Id and Name, its baseline is the snapshot of those fields, and it reports no changes |
| `Entities.Entity.DummyEntity` | UoWWithIdentityMap/EntityTests.cs:26-30 | the new dummy entity has the given Id and Name, its baseline is the snapshot of those fields, and it reports no changes |
| `Entities.Entity.HasChanges` | UoWWithIdentityMap/Entity.cs:16-21 | true when there is no baseline; otherwise true exactly when the baseline differs from the current snapshot; it is a function of the entity and assigns nothing |
| `Entities.Entity.Equals` | UoWWithIdentityMap/Tests.cs:306-314 | for a user: false for null, a cast error for an entity of another type, otherwise true exactly when the Ids are equal; for a dummy entity: reference equality |
| `Entities.Entity.CurrentState` | UoWWithIdentityMap/Tests.cs:321-329 | the current snapshot is of the snapshot type of the entity's runtime type and carries its current Id and Name (for `DummyEntity`, EntityTests.cs:34-37) |
| `Entities.SnapshotDeterminesFields` | UoWWithIdentityMap/Tests.cs:316-329 | the baseline and the current snapshot come from one definition, and two such snapshots are equal exactly when runtime type, Id and Name all agree |
| `Entities.RenamedEntityHasChanges` | UoWWithIdentityMap/Entity.cs:20 | an entity whose Name differs from the Name its baseline recorded reports changes |
| `Mappers.UserMappersHandleExactlyUser` | UoWWithIdentityMap/Tests.cs:265-268 | both user mappers handle exactly `typeof(User)`, and not `typeof(Entity)` |
| `Mappers.MapperOf` | UoWWithIdentityMap/Tests.cs:186-189 | a found mapper is a position inside the registry |
| `Mappers.MapperOfIsFirstMatch` | UoWWithIdentityMap/Tests.cs:186-189 | the found mapper handles the type and no earlier one does; there is none exactly when no registered mapper handles the type |
| `Mappers.IssueAt` | UoWWithIdentityMap/Tests.cs:153-156 | the i-th call of a phase is the call on the i-th entity, through that entity's mapper |
| `Mappers.UpdateEntityWasCalledConcat` | UoWWithIdentityMap/Tests.cs:201-209 | the spy's flag is only ever set: over two runs of calls it is set exactly when either run made an `UpdateEntity` call on the spy |
| `Mappers.NoUpdateWithoutUpdatePhase` | UoWWithIdentityMap/Tests.cs:201-209 | inserts and deletes alone never make a mapper report that `UpdateEntity` was called |
| `IdentityMap.AfterDelete` | UoWWithIdentityMap/Tests.cs:112-122 | an entity already deleted changes nothing; otherwise it ends up deleted and in neither the new nor the tracked set, and every other member of every set stays |
| `IdentityMap.DeleteIdempotent` | UoWWithIdentityMap/Tests.cs:114-117 | deleting twice is deleting once |
| `IdentityMap.FetchedEntityIsTracked` | UoWWithIdentityMap/Tests.cs:139-145 | after a miss whose fetch gave an entity of the asked type and Id, the next lookup of that Id returns the same reference and changes no set |
| `IdentityMap.HitIsRepeatable` | UoWWithIdentityMap/Tests.cs:127-137 | a lookup answered from the identity map (a deleted Id, or a tracked or new match) gives the same answer on the next lookup (the same reference, or null for a deleted Id), whatever the mapper would fetch, and no set changes, when neither set holds two matches |
| `IdentityMap.CommittedCount` | UoWWithIdentityMap/Tests.cs:153-169 | a commit makes exactly one call per new entity, per tracked entity with changes and per deleted entity |
| `IdentityMap.CommittedOrder` | UoWWithIdentityMap/Tests.cs:153-169 | the calls are all the inserts, then all the updates, then all the deletes, each through the entity's mapper |
| `IdentityMap.CommittedNoUpdate` | UoWWithIdentityMap/Tests.cs:158-164 | when no tracked entity has changes, no mapper sees an update |
| `IdentityMap.UnitOfWork.constructor` | UoWWithIdentityMap/Tests.cs:102-105 | the registry is the given mappers in order, and the three sets are empty |
| `IdentityMap.UnitOfWork.RegisterNew` | UoWWithIdentityMap/Tests.cs:107-110 | the entity joins the new set; the other sets are unchanged |
| `IdentityMap.UnitOfWork.Delete` | UoWWithIdentityMap/Tests.cs:112-122 | the new state is `AfterDelete` of the old one |
| `IdentityMap.UnitOfWork.GetById` | UoWWithIdentityMap/Tests.cs:124-146 | `LookedUp`: null when a deleted entity has the Id (whatever its type); else a tracked match; else a new match; in those cases no set changes and no fetch happens; else, when connection, mapper and fetch succeed, the fetched value (null included) joins the tracked set and is returned if null or of the asked type, and a cast error is raised otherwise |
| `IdentityMap.UnitOfWork.Commit` | UoWWithIdentityMap/Tests.cs:148-175 | on success the sets are empty and the calls are a commit of the old sets (`Committed`), made with no fault; on any failure the sets are exactly as before; with no fault, no null tracked and a mapper for every entity it would hand over, it succeeds |
| `IdentityMap.UnitOfWork.IssueAll` | UoWWithIdentityMap/Tests.cs:153-169 | the three loops in order: when none fails, the calls are a commit of the current sets, no call hit a fault and no tracked member is null; with no failing call, no null and a mapper for every entity, none fails |
| `IdentityMap.UnitOfWork.IssuePhase` | UoWWithIdentityMap/Tests.cs:158-164 | one loop: when it does not fail, it handed every selected member exactly once, in some order, to its mapper, and the calls appended are those calls; a null member makes it fail; with no failing call, no null and a mapper for every selected member, it does not fail |
| `IdentityMap.UnitOfWork.IssueCall` | UoWWithIdentityMap/Tests.cs:155 | one mapper call succeeds exactly when the entity has a mapper and the call is not the failing one; it fails with `NoMapper` exactly when there is no mapper; on success it appends the call |
| `IdentityMap.Users.constructor` | UoWWithIdentityMap/Tests.cs:275-278 | the repository fronts the given unit of work |
| `IdentityMap.Users.Add` | UoWWithIdentityMap/Tests.cs:279-282 | the user joins the new set of the unit of work |
| `IdentityMap.Users.GetById` | UoWWithIdentityMap/Tests.cs:284-287 | `LookedUp` with the type `User` |
| `IdentityMap.Users.Delete` | UoWWithIdentityMap/Tests.cs:289-292 | the unit of work's state is `AfterDelete` of the old one |
| `UsersTable.RowUntouched` | UoWWithIdentityMap/Tests.cs:213-245 | each statement touches only the row whose Id it names: calls on other Ids leave a row as it was, present or absent |
| `UsersTable.ReadAfterWrite` | UoWWithIdentityMap/Tests.cs:213-263 | write then read: after an insert, or an update of an existing row through the user mapper, with no later call on that Id, the row that `FetchEntity` reads holds the entity's Name; after the spy's update it is as it was; after a delete there is no row, so the fetch gives null |
| `UsersTable.ApplyConcat` | UoWWithIdentityMap/Tests.cs:153-169 | applying two runs of calls one after the other is applying their concatenation |
| `UsersTable.FetchEntity` | UoWWithIdentityMap/Tests.cs:248-263 | null when no row has the Id; otherwise a fresh user with that row's Id and Name and no changes |
| `Scenarios.Add` | UoWWithIdentityMap/Tests.cs:17-29 | the user that `GetById` returns after the commit equals the added user |
| `Scenarios.CanUpdate` | UoWWithIdentityMap/Tests.cs:31-45 | the user renamed is the one `GetById` returned; the user `GetById` returns after the second commit is named "New name"; the renamed instance still reports changes |
| `Scenarios.NoRoundtripWithoutChanges` | UoWWithIdentityMap/Tests.cs:47-61 | the spy never sees an update |
| `Scenarios.DeletedNotCommitted` | UoWWithIdentityMap/Tests.cs:63-76 | the lookup after the delete is null, whatever the fetch would give |
| `Scenarios.DeletedAndCommitted` | UoWWithIdentityMap/Tests.cs:78-92 | the lookup after the committed delete is null, and a further commit fails |
| `Scenarios.ReportsNoChanges` | UoWWithIdentityMap/EntityTests.cs:5-11 | a new dummy entity reports no changes |
| `Scenarios.ReportsHasChanges` | UoWWithIdentityMap/EntityTests.cs:13-21 | a renamed dummy entity reports changes |

## Left out

- The SQL of the mappers, `SqlConnection`, `SqlTransaction` and `OpenConnection` with its
  connection string are I/O. Their failures are the `Faults` and `FetchOutcome` parameters.
  Their effect on the table is `UsersTable`, which the scenarios use on the success path only.
  A rollback of the table after a failed commit is not modelled.
- A duplicate primary key on insert is not modelled: `UsersTable.ApplyCall` overwrites the row.
  The schema of `dbo.Users` is not among the source files.
- The mappers' `(User)entity` casts are not modelled. Both mappers handle only `User`, so
  `MapperOf` never hands them another type.
- `GetHashCode` and `HashCode.Combine` are library hashing. The sets are sets of references.
- `Guid.NewGuid()` is randomness. The Guid is a parameter of each scenario.
- The order in which a `HashSet` is enumerated is unspecified. The model proves what each
  phase calls and the order of the phases, not the order inside a phase.
- The base class `EntityState` is not among the source files. Its subclasses are modelled
  as one datatype.
- `Snapshots.EntityState.Equals`: the argument ranges over snapshots only. A comparison with
  an object that is not a snapshot is false in the source and is not expressible here.
- `Entities.Entity.Equals`: the argument ranges over entities only; objects of other types
  are not modelled.
- The `ReferenceEquals(this, other)` shortcut of the snapshot `Equals` methods is not
  modelled separately. Snapshots are values here, and the field comparison gives the same answer.
- Null arguments to `RegisterNew`, `Delete` and the `Users` methods are not modelled. Their
  parameters are non-nullable in the source's annotations.
- `IdentityMap.UnitOfWork.Commit`: on failure it states that the sets are unchanged, but not
  which exception was raised. It proves success only without any fault, and does not state
  that a failing position past the last call is harmless.
- `IdentityMap.UnitOfWork.GetById`: when the tracked or the new set holds several entities of the
  asked type with the same Id, each call may return any of them. `FirstOrDefault` over an
  unchanged `HashSet` returns the same one every time, but the model does not fix the
  enumeration order. Repeated lookups are proved to agree when each set has at most one match.
- `IdentityMap.UnitOfWork.IssuePhase`: on failure it does not state which exception was raised.
- `Scenarios.DeletedAndCommitted`: the further commit is stated to fail, not to fail with the
  null reference.
