/** The value-equatable snapshots of an entity's persistable fields. */
module Snapshots {
  import opened Wrappers

  /** A 128-bit identifier; only its equality is used. */
  newtype Guid = x: int | 0 <= x < 0x1_0000_0000_0000_0000_0000_0000_0000_0000

  /** The snapshot of a user: its Id and its Name. */
  datatype UserState = UserState(id: Guid, name: string)
  {
    /** `IEquatable<UserState>.Equals`: false for null, otherwise field by field. */
    predicate Equals(other: Option<UserState>)
      ensures Equals(other) <==> other == Some(this)
    {
      other.Some? && id == other.value.id && name == other.value.name
    }
  }

  /** The snapshot of a dummy entity: its Id and its Name. */
  datatype DummyEntityState = DummyEntityState(id: Guid, name: string)
  {
    /** `IEquatable<DummyEntityState>.Equals`: false for null, otherwise field by field. */
    predicate Equals(other: Option<DummyEntityState>)
      ensures Equals(other) <==> other == Some(this)
    {
      other.Some? && id == other.value.id && name == other.value.name
    }
  }

  /** A snapshot as the base type `EntityState` sees it; the constructor is its runtime type. */
  datatype EntityState =
    | UserSnapshot(user: UserState)
    | DummySnapshot(dummy: DummyEntityState)
  {
    /** The overridden `Equals(object?)`: false for null and for another runtime type,
        otherwise the typed `Equals` of the runtime type. */
    predicate Equals(obj: Option<EntityState>)
      ensures Equals(obj) <==> obj == Some(this)
    {
      if obj.None? then false
      else match this
        case UserSnapshot(u) => obj.value.UserSnapshot? && u.Equals(Some(obj.value.user))
        case DummySnapshot(d) => obj.value.DummySnapshot? && d.Equals(Some(obj.value.dummy))
    }
  }
}
