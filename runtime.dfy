/** What the model takes from the C# runtime: the type tests and the exceptions the core raises. */
module Runtime {

  /** The runtime types an entity may have (C# `entity.GetType()`). */
  datatype EntityKind = UserKind | DummyEntityKind

  /** The type arguments a caller may pass: `typeof(Entity)` or one concrete subclass. */
  datatype EntityType = AnyEntity | TypeOf(kind: EntityKind)

  /** `typeof(User)` */
  const UserType: EntityType := TypeOf(UserKind)

  /** `entity is TEntity`: an entity of runtime kind `k` is an instance of type `t`. */
  predicate IsA(k: EntityKind, t: EntityType)
  {
    t.AnyEntity? || t.kind == k
  }

  datatype Error =
    | NoMapper(entityType: EntityType)  // `First` found no mapper that handles the type
    | NullReference                     // a member was invoked on a null entity
    | InvalidCast                       // a cast to a type that the object does not have
    | MapperFault(call: nat)            // the mapper call with this position in the commit threw
    | ConnectionFault                   // `OpenConnection` (or beginning the transaction) threw
    | FetchFault                        // the mapper's `FetchEntity` threw
    | TransactionFault                  // `transaction.Commit()` threw
}
