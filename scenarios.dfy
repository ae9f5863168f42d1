/** The xUnit tests of the repository as methods: each builds its objects, runs the calls of the
    test against a `UsersTable` and states the test's assertion as a postcondition. A fresh Guid
    is a parameter, and so is the content of the table before the test. */
module Scenarios {
  import opened Wrappers
  import opened Runtime
  import opened Snapshots
  import opened Entities
  import opened Mappers
  import opened IdentityMap
  import opened UsersTable

  /** `Commit()` on a unit of work whose only pending change is the new entity `x`. */
  method CommitOneInsert(uow: UnitOfWork, x: Entity) returns (calls: seq<MapperCall>)
    requires uow.State() == Sets({x}, {}, {})
    requires Resolvable(uow.mappers, x)
    modifies uow
    ensures uow.State() == Empty
    ensures calls == [CallOf(uow.mappers, Insert, x)]
  {
    var outcome;
    ghost var inserted, updated, deleted;
    outcome, calls, inserted, updated, deleted := uow.Commit(NoFaults);
    assert Selected({}, true) == {};
    EnumeratesOne(inserted, x);
    EnumeratesNone(updated);
    EnumeratesNone(deleted);
  }

  /** `Commit()` on a unit of work that tracks only `x`: an update when `x` has changes, and no
      call at all otherwise. */
  method CommitTracked(uow: UnitOfWork, x: Entity) returns (calls: seq<MapperCall>)
    requires uow.State() == Sets({}, {x}, {})
    requires Resolvable(uow.mappers, x)
    modifies uow
    ensures uow.State() == Empty
    ensures calls == if x.HasChanges() then [CallOf(uow.mappers, Update, x)] else []
  {
    var outcome;
    ghost var inserted, updated, deleted;
    outcome, calls, inserted, updated, deleted := uow.Commit(NoFaults);
    EnumeratesNone(inserted);
    EnumeratesNone(deleted);
    if x.HasChanges() {
      assert Selected({x}, true) == {x};
      EnumeratesOne(updated, x);
    } else {
      assert Selected({x}, true) == {};
      EnumeratesNone(updated);
    }
  }

  /** `Commit()` on a unit of work whose only pending change is the deletion of `x`. */
  method CommitOneDelete(uow: UnitOfWork, x: Entity) returns (calls: seq<MapperCall>)
    requires uow.State() == Sets({}, {}, {x})
    requires Resolvable(uow.mappers, x)
    modifies uow
    ensures uow.State() == Empty
    ensures calls == [CallOf(uow.mappers, Delete, x)]
  {
    var outcome;
    ghost var inserted, updated, deleted;
    outcome, calls, inserted, updated, deleted := uow.Commit(NoFaults);
    assert Selected({}, true) == {};
    EnumeratesNone(inserted);
    EnumeratesNone(updated);
    EnumeratesOne(deleted, x);
  }

  /** `repository.Add(user); unitOfWork.Commit();` on an empty unit of work with the user
      mapper (or its spy) registered: the table gains the user's row. */
  method AddAndCommit(repository: Users, user: Entity, table: Table) returns (calls: seq<MapperCall>, database: Table)
    requires repository.unitOfWork.State() == Empty
    requires repository.unitOfWork.mappers in {[UserEntityMapper], [UserEntityMapperSpy]}
    requires user.kind == UserKind
    modifies repository.unitOfWork
    ensures repository.unitOfWork.State() == Empty
    ensures calls == [MapperCall(Insert, 0, user)]
    ensures database == table[user.id := user.name]
  {
    repository.Add(user);
    calls := CommitOneInsert(repository.unitOfWork, user);
    database := Apply(repository.unitOfWork.mappers, table, calls);
    ApplyOne(repository.unitOfWork.mappers, table, calls[0]);
  }

  /** `repository.GetById(id)` on an empty unit of work, when the table has the row: the user
      that `GetById` returns is a fresh untouched user with that row's Name, now tracked. */
  method ReadBack(repository: Users, database: Table, id: Guid) returns (found: Entity)
    requires repository.unitOfWork.State() == Empty
    requires repository.unitOfWork.mappers in {[UserEntityMapper], [UserEntityMapperSpy]}
    requires id in database
    modifies repository.unitOfWork
    ensures fresh(found)
    ensures found.kind == UserKind && found.id == id && found.name == database[id] && !found.HasChanges()
    ensures repository.unitOfWork.State() == Sets({}, {found}, {})
  {
    var fetched := FetchEntity(database, id);
    var r := repository.GetById(id, Fetched(fetched));
    assert r == Ok(fetched);
    found := r.value;
  }

  /** Add: a committed user is found again by its Id, and the found user equals it. */
  method Add(id: Guid, table: Table) returns (equal: Result<bool, Error>)
    ensures equal == Ok(true)
  {
    var unitOfWork := new UnitOfWork([UserEntityMapper]);
    var repository := new Users(unitOfWork);
    var user := new Entity.User(id, "John Doe");
    var calls, database := AddAndCommit(repository, user, table);
    var foundUser := ReadBack(repository, database, id);
    equal := user.Equals(foundUser);
  }

  /** Can_update: a renamed user that was read back is written by the next commit, and reading
      it again gives the new name. The renamed instance still reports changes afterwards: the
      commit does not refresh baselines. */
  method CanUpdate(id: Guid, table: Table) returns (foundName: string, stillChanged: bool)
    ensures foundName == "New name"
    ensures stillChanged
  {
    var unitOfWork := new UnitOfWork([UserEntityMapper]);
    var repository := new Users(unitOfWork);
    var user := new Entity.User(id, "John Doe");
    var calls, database := AddAndCommit(repository, user, table);
    var userToUpdate := ReadBack(repository, database, id);
    userToUpdate.name := "New name";
    calls := CommitTracked(unitOfWork, userToUpdate);
    ApplyOne(unitOfWork.mappers, database, calls[0]);
    database := Apply(unitOfWork.mappers, database, calls);
    var foundUser := ReadBack(repository, database, id);
    foundName := foundUser.name;
    stillChanged := userToUpdate.HasChanges();
  }

  /** If_entity_has_not_been_changed_no_database_roundtrip_is_done: reading a user back and
      committing without touching it never calls `UpdateEntity` on the spy. */
  method NoRoundtripWithoutChanges(id: Guid, table: Table) returns (updateEntityWasCalled: bool)
    ensures !updateEntityWasCalled
  {
    var unitOfWork := new UnitOfWork([UserEntityMapperSpy]);
    var repository := new Users(unitOfWork);
    var user := new Entity.User(id, "John Doe");
    var calls, database := AddAndCommit(repository, user, table);
    var untouched := ReadBack(repository, database, id);
    var moreCalls := CommitTracked(unitOfWork, untouched);
    updateEntityWasCalled := UpdateEntityWasCalled(calls + moreCalls, 0);
  }

  /** When_user_is_deleted_and_not_committed_it_cannot_be_fetched_again: whatever the table would
      give, the lookup after the delete is null. */
  method DeletedNotCommitted(id: Guid, table: Table, lookup: FetchOutcome) returns (foundUser: Result<Entity?, Error>)
    ensures foundUser == Ok(null)
  {
    var unitOfWork := new UnitOfWork([UserEntityMapper]);
    var repository := new Users(unitOfWork);
    var user := new Entity.User(id, "John Doe");
    var calls, database := AddAndCommit(repository, user, table);
    var userToDelete := ReadBack(repository, database, id);
    repository.Delete(userToDelete);
    foundUser := repository.GetById(id, lookup);
  }

  /** User_is_deleted_from_database_when_unit_of_work_is_committed: after the committed delete the
      row is gone and the lookup is null. The null the fetch produced is now tracked, so a further
      commit of the same unit of work fails. */
  method DeletedAndCommitted(id: Guid, table: Table) returns (foundUser: Result<Entity?, Error>, nextCommit: Outcome<Error>)
    ensures foundUser == Ok(null)
    ensures nextCommit.Fail?
  {
    var unitOfWork := new UnitOfWork([UserEntityMapper]);
    var repository := new Users(unitOfWork);
    var user := new Entity.User(id, "John Doe");
    var calls, database := AddAndCommit(repository, user, table);
    var userToDelete := ReadBack(repository, database, id);
    repository.Delete(userToDelete);
    calls := CommitOneDelete(unitOfWork, userToDelete);
    ApplyOne(unitOfWork.mappers, database, calls[0]);
    database := Apply(unitOfWork.mappers, database, calls);
    var fetched := FetchEntity(database, id);
    foundUser := repository.GetById(id, Fetched(fetched));
    ghost var inserted, updated, deleted;
    nextCommit, calls, inserted, updated, deleted := unitOfWork.Commit(NoFaults);
  }

  /** Reports_no_changes: a new `DummyEntity` reports no changes. */
  method ReportsNoChanges(id: Guid) returns (hasChanges: bool)
    ensures !hasChanges
  {
    var entity := new Entity.DummyEntity(id, "Test");
    hasChanges := entity.HasChanges();
  }

  /** Reports_has_changes: renaming a new `DummyEntity` makes it report changes. */
  method ReportsHasChanges(id: Guid) returns (hasChanges: bool)
    ensures hasChanges
  {
    var entity := new Entity.DummyEntity(id, "Test");
    entity.name := "New name";
    hasChanges := entity.HasChanges();
  }
}
