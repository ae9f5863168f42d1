/** The tracked domain objects: the abstract `Entity` with its two subclasses `User` and `DummyEntity`. */
module Entities {
  import opened Wrappers
  import opened Runtime
  import opened Snapshots

  /** The snapshot that the subclass of kind `k` builds from an Id and a Name. */
  function Snapshot(k: EntityKind, id: Guid, name: string): (s: EntityState)
  {
    match k
    case UserKind => UserSnapshot(UserState(id, name))
    case DummyEntityKind => DummySnapshot(DummyEntityState(id, name))
  }

  /** Two snapshots built by `CreateState` are equal exactly when they come from the same
      runtime type, Id and Name: the dirty check sees every change of Name. */
  lemma SnapshotDeterminesFields(k: EntityKind, id: Guid, name: string, k': EntityKind, id': Guid, name': string)
    ensures Snapshot(k, id, name) == Snapshot(k', id', name') <==> k == k' && id == id' && name == name'
  {
  }

  /** An entity object. One class stands for the base class and both subclasses; `kind` is
      its runtime type, and `name` is the `Name` property that both subclasses declare. */
  class Entity {
    /** The identity: set by the constructor and never reassigned. */
    const id: Guid
    /** The runtime type. */
    const kind: EntityKind
    /** The mutable `Name` property. */
    var name: string
    /** The baseline snapshot; `None` when no baseline was recorded. */
    var originalState: Option<EntityState>

    /** `new User(id, name)`: stores the name, then records the baseline from the same fields. */
    constructor User(id: Guid, name: string)
      ensures this.id == id && kind == UserKind && this.name == name
      ensures originalState == Some(CurrentState())
      ensures !HasChanges()
    {
      this.id := id;
      kind := UserKind;
      this.name := name;
      originalState := Some(Snapshot(UserKind, id, name));
    }

    /** `new DummyEntity(id, name)`: stores the name, then records the baseline from the same fields. */
    constructor DummyEntity(id: Guid, name: string)
      ensures this.id == id && kind == DummyEntityKind && this.name == name
      ensures originalState == Some(CurrentState())
      ensures !HasChanges()
    {
      this.id := id;
      kind := DummyEntityKind;
      this.name := name;
      originalState := Some(Snapshot(DummyEntityKind, id, name));
    }

    /** `GetCurrentState()` of the runtime type: a fresh snapshot of the current Id and Name,
        of the snapshot type that belongs to the entity's runtime type. */
    function CurrentState(): (s: EntityState)
      reads this
      ensures s.UserSnapshot? <==> kind == UserKind
      ensures s.UserSnapshot? ==> s.user.id == id && s.user.name == name
      ensures s.DummySnapshot? ==> s.dummy.id == id && s.dummy.name == name
    {
      Snapshot(kind, id, name)
    }

    /** True when there is no baseline, otherwise the negation of
        `OriginalState.Equals(GetCurrentState())`; it changes nothing. */
    function HasChanges(): (changed: bool)
      reads this
      ensures originalState.None? ==> changed
      ensures originalState.Some? ==> (changed <==> originalState.value != CurrentState())
    {
      if originalState.None? then true
      else !originalState.value.Equals(Some(CurrentState()))
    }

    /** `Equals(object?)` of the runtime type. `User` overrides it: false for null, otherwise
        it casts the argument to `User` (which throws for another type) and compares Ids.
        `DummyEntity` keeps the inherited reference equality. */
    function Equals(obj: Entity?): (r: Result<bool, Error>)
      ensures kind == UserKind ==> (r == Ok(true) <==> obj != null && obj.kind == UserKind && obj.id == id)
      ensures kind == UserKind ==> (r.Err? <==> obj != null && obj.kind != UserKind)
      ensures r.Err? ==> r == Err(InvalidCast)
      ensures kind == DummyEntityKind ==> r == Ok(obj == this)
    {
      match kind
      case UserKind =>
        if obj == null then Ok(false)
        else if obj.kind != UserKind then Err(InvalidCast)
        else Ok(obj.id == id)
      case DummyEntityKind => Ok(obj == this)
    }
  }

  /** Renaming an entity away from the Name its baseline recorded makes it report changes. */
  lemma RenamedEntityHasChanges(e: Entity, baselineName: string)
    requires e.originalState == Some(Snapshot(e.kind, e.id, baselineName))
    requires e.name != baselineName
    ensures e.HasChanges()
  {
  }
}
