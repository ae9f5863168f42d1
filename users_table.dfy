/** The `dbo.Users` table that `UserEntityMapper` reads and writes, as a map from Id to Name.
    The scenarios run the unit of work against it: the calls a commit issues are applied to it,
    and `FetchEntity` reads a row back into a fresh `User`. */
module UsersTable {
  import opened Wrappers
  import opened Runtime
  import opened Snapshots
  import opened Entities
  import opened Mappers

  type Table = map<Guid, string>

  /** The effect of one mapper call on the table: `INSERT` writes the row, `UPDATE` rewrites the
      Name of an existing row, `DELETE` removes the row. The spy's `UpdateEntity` only sets its
      flag and leaves the table alone. */
  function ApplyCall(mappers: seq<EntityMapper>, t: Table, c: MapperCall): Table
    reads c.entity
  {
    match c.op
    case Insert => t[c.entity.id := c.entity.name]
    case Update =>
      if c.mapper < |mappers| && mappers[c.mapper].UserEntityMapperSpy? then t
      else if c.entity.id in t then t[c.entity.id := c.entity.name]
      else t
    case Delete => t - {c.entity.id}
  }

  /** The table after the calls, applied in the order they were made. */
  function Apply(mappers: seq<EntityMapper>, t: Table, calls: seq<MapperCall>): (t': Table)
    reads set i | 0 <= i < |calls| :: calls[i].entity
  {
    if calls == [] then t
    else ApplyCall(mappers, Apply(mappers, t, calls[..|calls| - 1]), calls[|calls| - 1])
  }

  /** Applying one call is `ApplyCall`. */
  lemma ApplyOne(mappers: seq<EntityMapper>, t: Table, c: MapperCall)
    ensures Apply(mappers, t, [c]) == ApplyCall(mappers, t, c)
  {
    assert [c][..0] == [];
  }

  /** Applying two runs of calls one after the other is applying their concatenation. */
  lemma {:induction false} ApplyConcat(mappers: seq<EntityMapper>, t: Table, a: seq<MapperCall>, b: seq<MapperCall>)
    ensures Apply(mappers, t, a + b) == Apply(mappers, Apply(mappers, t, a), b)
  {
    if b == [] {
      assert a + b == a;
    } else {
      assert (a + b)[..|a + b| - 1] == a + b[..|b| - 1];
      ApplyConcat(mappers, t, a, b[..|b| - 1]);
    }
  }

  /** Calls on other Ids leave the row of `id` as it was. */
  lemma {:induction false} RowUntouched(mappers: seq<EntityMapper>, t: Table, calls: seq<MapperCall>, id: Guid)
    requires forall i :: 0 <= i < |calls| ==> calls[i].entity.id != id
    ensures id in Apply(mappers, t, calls) <==> id in t
    ensures id in t ==> Apply(mappers, t, calls)[id] == t[id]
  {
    if calls != [] {
      RowUntouched(mappers, t, calls[..|calls| - 1], id);
    }
  }

  /** Reading a row back after writing it: once the call `c` on an entity has run, and no
      later call touches its Id, the row of that Id holds the entity's Name after an insert or
      an update through the user mapper, is what it was before after the spy's update, and is
      gone after a delete. With `FetchEntity` this is the round trip the scenarios rely on. */
  lemma ReadAfterWrite(mappers: seq<EntityMapper>, t: Table, pre: seq<MapperCall>, c: MapperCall, post: seq<MapperCall>)
    requires forall i :: 0 <= i < |post| ==> post[i].entity.id != c.entity.id
    ensures var before, after := Apply(mappers, t, pre), Apply(mappers, t, pre + [c] + post);
      var id, spy := c.entity.id, c.mapper < |mappers| && mappers[c.mapper].UserEntityMapperSpy?;
      && (c.op.Insert? ==> id in after && after[id] == c.entity.name)
      && (c.op.Update? && !spy ==> (id in after <==> id in before) && (id in before ==> after[id] == c.entity.name))
      && (c.op.Update? && spy ==> (id in after <==> id in before) && (id in before ==> after[id] == before[id]))
      && (c.op.Delete? ==> id !in after)
  {
    ApplyConcat(mappers, t, pre, [c]);
    ApplyOne(mappers, Apply(mappers, t, pre), c);
    ApplyConcat(mappers, t, pre + [c], post);
    RowUntouched(mappers, Apply(mappers, t, pre + [c]), post, c.entity.id);
  }

  /** `UserEntityMapper.FetchEntity`: the row with that Id as a fresh `User`, or null. */
  method FetchEntity(t: Table, id: Guid) returns (e: Entity?)
    ensures id !in t ==> e == null
    ensures id in t ==> e != null && fresh(e) && e.kind == UserKind && e.id == id && e.name == t[id]
                        && !e.HasChanges()
  {
    if id in t {
      e := new Entity.User(id, t[id]);
    } else {
      e := null;
    }
  }
}
