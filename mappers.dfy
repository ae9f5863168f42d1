/** The entity mappers as the unit of work sees them: a registry searched by type, and the
    calls the unit of work makes on them. */
module Mappers {
  import opened Wrappers
  import opened Runtime
  import opened Snapshots
  import opened Entities

  /** The mappers of the source. Both handle users; the spy differs only in recording that
      `UpdateEntity` was called, which the model reads off the issued calls. */
  datatype EntityMapper = UserEntityMapper | UserEntityMapperSpy
  {
    /** `Handles(Type)`: an exact comparison with `typeof(User)`. */
    predicate Handles(t: EntityType)
    {
      t == TypeOf(UserKind)
    }
  }

  /** A user mapper handles `typeof(User)` and nothing else, not even `typeof(Entity)`. */
  lemma UserMappersHandleExactlyUser(m: EntityMapper, t: EntityType)
    ensures m.Handles(t) <==> t == UserType
    ensures !m.Handles(AnyEntity)
  {
  }

  /** `_entityMappers.First(mapper => mapper.Handles(t))`: the position of the earliest
      registered mapper that handles `t`, or `None` where `First` throws. */
  function MapperOf(mappers: seq<EntityMapper>, t: EntityType): (r: Option<nat>)
    ensures r.Some? ==> r.value < |mappers|
  {
    if mappers == [] then None
    else if mappers[0].Handles(t) then Some(0)
    else match MapperOf(mappers[1..], t)
      case None => None
      case Some(i) => Some(i + 1)
  }

  /** `MapperOf` picks the earliest mapper that handles `t`, and fails exactly when none does. */
  lemma {:induction false} MapperOfIsFirstMatch(mappers: seq<EntityMapper>, t: EntityType)
    ensures MapperOf(mappers, t).Some? ==>
      && mappers[MapperOf(mappers, t).value].Handles(t)
      && forall j :: 0 <= j < MapperOf(mappers, t).value ==> !mappers[j].Handles(t)
    ensures MapperOf(mappers, t).None? <==> forall j :: 0 <= j < |mappers| ==> !mappers[j].Handles(t)
  {
    if mappers != [] && !mappers[0].Handles(t) {
      MapperOfIsFirstMatch(mappers[1..], t);
      assert forall j :: 1 <= j < |mappers| ==> mappers[j] == mappers[1..][j - 1];
    }
  }

  /** An entity whose runtime type has a registered mapper. */
  predicate Resolvable(mappers: seq<EntityMapper>, e: Entity)
  {
    MapperOf(mappers, TypeOf(e.kind)).Some?
  }

  datatype Op = Insert | Update | Delete

  /** One call of `InsertEntity`, `UpdateEntity` or `DeleteEntity`: the position of the mapper
      in the registry and the entity passed. The mapper reads the entity's fields while it runs;
      nothing assigns them during a commit. */
  datatype MapperCall = MapperCall(op: Op, mapper: nat, entity: Entity)

  /** The call `op` on `e` through `MapperOf(e.GetType())`. */
  function CallOf(mappers: seq<EntityMapper>, op: Op, e: Entity): (call: MapperCall)
    requires Resolvable(mappers, e)
  {
    MapperCall(op, MapperOf(mappers, TypeOf(e.kind)).value, e)
  }

  /** The calls `op` on each of `es`, in the order of `es`. */
  function Issue(mappers: seq<EntityMapper>, op: Op, es: seq<Entity>): (calls: seq<MapperCall>)
    requires forall i :: 0 <= i < |es| ==> Resolvable(mappers, es[i])
    ensures |calls| == |es|
  {
    if es == [] then []
    else Issue(mappers, op, es[..|es| - 1]) + [CallOf(mappers, op, es[|es| - 1])]
  }

  /** Issuing one more call appends it. */
  lemma IssueSnoc(mappers: seq<EntityMapper>, op: Op, es: seq<Entity>, e: Entity)
    requires forall i :: 0 <= i < |es| ==> Resolvable(mappers, es[i])
    requires Resolvable(mappers, e)
    ensures Issue(mappers, op, es + [e]) == Issue(mappers, op, es) + [CallOf(mappers, op, e)]
  {
    assert (es + [e])[..|es|] == es;
  }

  /** The `i`-th call that `Issue` makes is the call on the `i`-th entity. */
  lemma {:induction false} IssueAt(mappers: seq<EntityMapper>, op: Op, es: seq<Entity>)
    requires forall i :: 0 <= i < |es| ==> Resolvable(mappers, es[i])
    ensures forall i :: 0 <= i < |es| ==> Issue(mappers, op, es)[i] == CallOf(mappers, op, es[i])
  {
    if es != [] {
      IssueAt(mappers, op, es[..|es| - 1]);
    }
  }

  /** What `UserEntityMapperSpy.UpdateEntityWasCalled` reports for the spy at position `spy`. */
  predicate UpdateEntityWasCalled(calls: seq<MapperCall>, spy: nat)
  {
    exists i :: 0 <= i < |calls| && calls[i].op == Update && calls[i].mapper == spy
  }

  /** The spy's flag is never reset: over two runs of calls it is set exactly when one of the
      runs set it, and no run of calls without an `UpdateEntity` on the spy sets it. */
  lemma UpdateEntityWasCalledConcat(a: seq<MapperCall>, b: seq<MapperCall>, spy: nat)
    ensures UpdateEntityWasCalled(a + b, spy) <==> UpdateEntityWasCalled(a, spy) || UpdateEntityWasCalled(b, spy)
  {
    var ab := a + b;
    if UpdateEntityWasCalled(ab, spy) {
      var i :| 0 <= i < |ab| && ab[i].op == Update && ab[i].mapper == spy;
      if i >= |a| {
        assert b[i - |a|] == ab[i];
      }
    }
    if UpdateEntityWasCalled(b, spy) {
      var i :| 0 <= i < |b| && b[i].op == Update && b[i].mapper == spy;
      assert ab[|a| + i] == b[i];
    }
    if UpdateEntityWasCalled(a, spy) {
      var i :| 0 <= i < |a| && a[i].op == Update && a[i].mapper == spy;
      assert ab[i] == a[i];
    }
  }

  /** Every call that `Issue` makes is of the operation it was given. */
  lemma IssueOnly(mappers: seq<EntityMapper>, op: Op, es: seq<Entity>)
    requires forall i :: 0 <= i < |es| ==> Resolvable(mappers, es[i])
    ensures forall c :: c in Issue(mappers, op, es) ==> c.op == op
  {
    var calls := Issue(mappers, op, es);
    IssueAt(mappers, op, es);
    forall c | c in calls
      ensures c.op == op
    {
      var i :| 0 <= i < |calls| && calls[i] == c;
      assert c == CallOf(mappers, op, es[i]);
    }
  }

  /** Inserts and deletes alone never make a mapper report an update. */
  lemma NoUpdateWithoutUpdatePhase(mappers: seq<EntityMapper>, ins: seq<Entity>, dels: seq<Entity>, spy: nat)
    requires forall i :: 0 <= i < |ins| ==> Resolvable(mappers, ins[i])
    requires forall i :: 0 <= i < |dels| ==> Resolvable(mappers, dels[i])
    ensures !UpdateEntityWasCalled(Issue(mappers, Insert, ins) + Issue(mappers, Update, []) + Issue(mappers, Delete, dels), spy)
  {
    IssueOnly(mappers, Insert, ins);
    IssueOnly(mappers, Delete, dels);
    var calls := Issue(mappers, Insert, ins) + Issue(mappers, Update, []) + Issue(mappers, Delete, dels);
    forall i | 0 <= i < |calls|
      ensures calls[i].op != Update
    {
      assert calls[i] in Issue(mappers, Insert, ins) || calls[i] in Issue(mappers, Delete, dels);
    }
  }
}
