/**
 * The query objects (kameleon/model/query/selectQuery.py, mTomQuery.py and
 * updateQuery.py). The data store is a parameter: `store(statement)` is the
 * rows `runQuery` would answer, and a method that runs operations returns the
 * statements it issues, in order.
 */
module Queries {
  import opened Common
  import opened Fields
  import opened Models
  import opened QueryParts
  import Postgresql
  import Hydration

  // ---------------------------------------------------------------------------
  // SelectQuery
  // ---------------------------------------------------------------------------

  /** What `__getitem__` hands back: the empty list of an empty query, or one result. */
  datatype Item = EmptyList | Object(ref: nat)

  /**
   * `SelectQuery(model_class)`: a fluent builder holding the joins, the join
   * cursor `_table_join`, the where clause and the delete flag, and after
   * `execute` the results (arena indices of the instances) and their count.
   */
  class SelectQuery {
    const model: string
    var joins: seq<Join>
    var tableJoin: string
    var where: Where
    var delete: bool
    var results: Option<seq<nat>>
    var total: int

    /** `_total` counts `_results` once there are results, and is 0 before. */
    predicate Valid()
      reads this
    {
      (results.None? ==> total == 0) && (results.Some? ==> total == |results.value|)
    }

    constructor (model: string)
      ensures this.model == model && joins == [] && tableJoin == model
      ensures where == NoWhere && !delete && results == None && total == 0
      ensures Valid()
    {
      this.model := model;
      joins := [];
      tableJoin := model;
      where := NoWhere;
      delete := false;
      results := None;
      total := 0;
    }

    /**
     * `where(*expressions)`: the left fold of the arguments by `&`. When the
     * fold raises, nothing is stored.
     */
    method SetWhere(clauses: seq<Clause>) returns (r: Result<SelectQuery>)
      modifies this
      ensures r.Ok? <==> FoldAnd(clauses).Ok?
      ensures r.Ok? ==> r.value == this && where == FoldAnd(clauses).value
      ensures r.Err? ==> where == old(where)
      ensures joins == old(joins) && tableJoin == old(tableJoin) && delete == old(delete)
      ensures results == old(results) && total == old(total)
    {
      var w := FoldAnd(clauses);
      if w.Err? {
        return Err(w.msg);
      }
      where := w.value;
      r := Ok(this);
    }

    /** `switch(dest)`: only the join cursor moves. */
    method Switch(dest: string) returns (q: SelectQuery)
      modifies this
      ensures q == this && tableJoin == dest
      ensures joins == old(joins) && where == old(where) && delete == old(delete)
      ensures results == old(results) && total == old(total)
    {
      tableJoin := dest;
      q := this;
    }

    /**
     * `join(dest, join_type, on)`: one join from the cursor to `dest` is
     * appended and the cursor moves to `dest`.
     */
    method AddJoin(dest: string, jointType: Option<string>, on: Option<Node>) returns (q: SelectQuery)
      modifies this
      ensures q == this && joins == old(joins) + [Join(old(tableJoin), dest, jointType, on)] && tableJoin == dest
      ensures where == old(where) && delete == old(delete)
      ensures results == old(results) && total == old(total)
    {
      joins := joins + [Join(tableJoin, dest, jointType, on)];
      tableJoin := dest;
      q := this;
    }

    /** `delete()`: only the delete flag is set. */
    method SetDelete() returns (q: SelectQuery)
      modifies this
      ensures q == this && delete
      ensures joins == old(joins) && tableJoin == old(tableJoin) && where == old(where)
      ensures results == old(results) && total == old(total)
    {
      delete := true;
      q := this;
    }

    /**
     * `execute()`: the select text is generated, the store answers it, and the
     * rows are parsed into the arena; `_results` is the parse result and
     * `_total` its length. A failure leaves the query as it was.
     */
    method Execute(reg: Registry, render: Node -> string, store: string -> seq<seq<Value>>, heap: seq<Instance>)
        returns (r: Result<seq<Instance>>, ghost log: seq<Hydration.Birth>)
      requires Hydration.Resolved(reg, model, joins) && Hydration.Named(reg)
      requires forall q :: Hydration.PlainRows(store(q))
      requires Valid()
      modifies this
      ensures Valid()
      ensures joins == old(joins) && tableJoin == old(tableJoin) && where == old(where) && delete == old(delete)
      ensures r.Err? ==> results == old(results) && total == old(total)
      ensures r.Ok? ==> Postgresql.SelectText(reg, reg[model], joins, where, delete, render).Ok?
      ensures joins == [] ==> (r.Ok? <==> Postgresql.SelectText(reg, reg[model], joins, where, delete, render).Ok?)
      ensures r.Ok? ==> results.Some? && total == |results.value| &&
                        forall k :: 0 <= k < |results.value| ==> results.value[k] < |r.value|
      ensures r.Ok? && joins == [] ==>
                var rows := store(Postgresql.SelectText(reg, reg[model], joins, where, delete, render).value);
                Hydration.PlainSelected(reg, model, rows, heap, Hydration.Selected(r.value, results.value))
      ensures r.Ok? && joins != [] ==>
                var rows := store(Postgresql.SelectText(reg, reg[model], joins, where, delete, render).value);
                Hydration.RootsMade(reg, model, joins, rows, heap, Hydration.Selected(r.value, results.value), log) &&
                Hydration.Joined(reg, model, joins, rows, heap, Hydration.Selected(r.value, results.value), log)
      ensures Postgresql.SelectText(reg, reg[model], joins, where, delete, render).Ok? ==>
                var rows := store(Postgresql.SelectText(reg, reg[model], joins, where, delete, render).value);
                ((Hydration.Sound(reg, model, joins) &&
                  forall n :: 0 <= n < |rows| ==> Hydration.Consistent(reg, model, joins, rows[n])) ==> r.Ok?) &&
                (rows != [] && !Hydration.Placed(model, joins) ==> r.Err?)
    {
      log := [];
      var text := Postgresql.GenerateSelect(reg, reg[model], joins, where, delete, render);
      if text.Err? {
        return Err(text.msg), log;
      }
      var rows := store(text.value);
      var sel;
      sel, log := ParseResults(reg, model, joins, rows, heap);
      if sel.Err? {
        return Err(sel.msg), log;
      }
      results := Some(sel.value.classList);
      total := |sel.value.classList|;
      r := Ok(sel.value.heap);
    }

    /**
     * `__getitem__(index)`: `[]` while the query holds nothing, the last result
     * for an index at or past `_total`, and otherwise Python's indexing of the
     * result list, where a negative index counts from the end and one below
     * `-_total` raises `IndexError`.
     */
    function GetItem(index: int): (r: Result<Item>)
      reads this
      requires Valid()
      ensures r.Err? <==> total > 0 && index < -total
      ensures total <= 0 ==> r == Ok(EmptyList)
      ensures r.Ok? && r.value.Object? ==> results.Some? && r.value.ref in results.value
      ensures total > 0 && index >= total ==> r == Ok(Object(results.value[total - 1]))
      ensures 0 <= index < total ==> r == Ok(Object(results.value[index]))
      ensures -total <= index < 0 ==> r == Ok(Object(results.value[total + index]))
    {
      if total <= 0 then Ok(EmptyList)
      else if index >= total then Ok(Object(results.value[total - 1]))
      else if index >= 0 then Ok(Object(results.value[index]))
      else if index >= -total then Ok(Object(results.value[total + index]))
      else Err("IndexError: list index out of range")
    }
  }

  /**
   * `parse_select` as `execute` sees it: the plain case in full; with joins,
   * the roots and the linked instances of the walk, success on a sound select
   * over consistent rows and failure when a join's source is never placed;
   * in every case results that index the arena.
   */
  method ParseResults(reg: Registry, mc: string, joins: seq<Join>, rows: seq<seq<Value>>, heap0: seq<Instance>)
      returns (sel: Result<Hydration.Selected>, ghost log: seq<Hydration.Birth>)
    requires Hydration.Resolved(reg, mc, joins) && Hydration.Named(reg) && Hydration.PlainRows(rows)
    ensures joins == [] ==> sel.Ok? && Hydration.PlainSelected(reg, mc, rows, heap0, sel.value)
    ensures joins != [] && sel.Ok? ==>
              Hydration.RootsMade(reg, mc, joins, rows, heap0, sel.value, log) &&
              Hydration.Joined(reg, mc, joins, rows, heap0, sel.value, log)
    ensures (Hydration.Sound(reg, mc, joins) &&
             forall n :: 0 <= n < |rows| ==> Hydration.Consistent(reg, mc, joins, rows[n])) ==> sel.Ok?
    ensures rows != [] && !Hydration.Placed(mc, joins) ==> sel.Err?
    ensures sel.Ok? ==> forall k :: 0 <= k < |sel.value.classList| ==> sel.value.classList[k] < |sel.value.heap|
  {
    sel, log := Hydration.ParseSelect(reg, mc, joins, rows, heap0);
    if sel.Ok? {
      ParsedInRange(reg, mc, joins, rows, heap0, sel.value, log);
    }
  }

  /** Every result of a parse is an index into the arena it returns. */
  lemma ParsedInRange(reg: Registry, mc: string, joins: seq<Join>, rows: seq<seq<Value>>, heap0: seq<Instance>,
                      sel: Hydration.Selected, log: seq<Hydration.Birth>)
    requires Hydration.Resolved(reg, mc, joins)
    requires joins == [] ==> Hydration.PlainSelected(reg, mc, rows, heap0, sel)
    requires joins != [] ==> Hydration.RootsMade(reg, mc, joins, rows, heap0, sel, log)
    ensures forall k :: 0 <= k < |sel.classList| ==> sel.classList[k] < |sel.heap|
  {
    if joins != [] {
      var d := Distinct(Hydration.RootSlices(reg, mc, joins, rows));
      forall k | 0 <= k < |sel.classList|
        ensures sel.classList[k] < |sel.heap|
      {
        assert Hydration.RootMade(reg, mc, d, sel.classList, log, sel.heap, |heap0|, k);
      }
    }
  }

  // ---------------------------------------------------------------------------
  // AddQuery and RemoveQuery
  // ---------------------------------------------------------------------------

  /** What a link query reads of an object: its model's `_meta.name` and its `id` attribute, if it has one. */
  datatype Party = Party(modelName: string, id: Option<Value>)

  /** `list.index(x)`: the first position of `x`, or `ValueError`. */
  function IndexOf(xs: seq<string>, x: string): (r: Result<nat>)
    ensures r.Ok? <==> x in xs
    ensures r.Err? ==> r.msg == "ValueError: is not in list"
    ensures r.Ok? ==> r.value < |xs| && xs[r.value] == x && forall i :: 0 <= i < r.value ==> xs[i] != x
  {
    if xs == [] then Err("ValueError: is not in list")
    else if xs[0] == x then Ok(0)
    else
      var i :- IndexOf(xs[1..], x);
      Ok(i + 1)
  }

  /**
   * `[obj1, obj2].sort(key=...)`: the two objects ordered by the position of
   * their model's name among the link table's field names. Python's sort is
   * stable, so equal positions keep the given order.
   */
  function LinkOrder(names: seq<string>, a: Party, b: Party): (r: Result<seq<Party>>)
    ensures r.Ok? <==> a.modelName in names && b.modelName in names
    ensures r.Ok? ==> multiset(r.value) == multiset{a, b} && |r.value| == 2
    ensures r.Ok? ==> r.value[0].modelName in names && r.value[1].modelName in names
    ensures r.Ok? ==> IndexOf(names, r.value[0].modelName).value <= IndexOf(names, r.value[1].modelName).value
  {
    var ka :- IndexOf(names, a.modelName);
    var kb :- IndexOf(names, b.modelName);
    if kb < ka then Ok([b, a]) else Ok([a, b])
  }

  /** Objects of two different models come out in the same order whichever is given first. */
  lemma LinkOrderSymmetric(names: seq<string>, a: Party, b: Party)
    requires a.modelName != b.modelName
    ensures LinkOrder(names, a, b) == LinkOrder(names, b, a)
  {
    if a.modelName in names && b.modelName in names {
      var ka := IndexOf(names, a.modelName).value;
      var kb := IndexOf(names, b.modelName).value;
      assert ka != kb by {
        assert names[ka] == a.modelName && names[kb] == b.modelName;
      }
      assert ka < kb || kb < ka;
    }
  }

  /** Two objects of the same model keep the order they were given in. */
  lemma LinkOrderSameModel(names: seq<string>, a: Party, b: Party)
    requires a.modelName == b.modelName && a.modelName in names
    ensures LinkOrder(names, a, b) == Ok([a, b])
  {
  }

  /**
   * The two ids in the table's column order, as `generate_add` and
   * `generate_remove` read them; an object without `id` raises.
   */
  function Ids(objs: seq<Party>): (r: Result<(Value, Value)>)
    requires |objs| == 2
    ensures r.Ok? <==> objs[0].id.Some? && objs[1].id.Some?
    ensures r.Ok? ==> r.value == (objs[0].id.value, objs[1].id.value)
  {
    if objs[0].id.None? || objs[1].id.None? then Err("AttributeError: id")
    else Ok((objs[0].id.value, objs[1].id.value))
  }

  /** `AddQuery(model_class, obj1, obj2)`: the link table and the two objects in its column order. */
  class AddQuery {
    const link: Schema
    const objs: seq<Party>

    constructor (link: Schema, objs: seq<Party>)
      ensures this.link == link && this.objs == objs
    {
      this.link := link;
      this.objs := objs;
    }

    /** Builds the query, sorting the objects; a model name that is not a field of the table raises. */
    static method Make(link: Schema, a: Party, b: Party) returns (r: Result<AddQuery>)
      ensures r.Ok? <==> LinkOrder(link.sortedFieldsNames, a, b).Ok?
      ensures r.Ok? ==> fresh(r.value) && r.value.link == link &&
                        r.value.objs == LinkOrder(link.sortedFieldsNames, a, b).value
    {
      var objs := LinkOrder(link.sortedFieldsNames, a, b);
      if objs.Err? {
        return Err(objs.msg);
      }
      var q := new AddQuery(link, objs.value);
      r := Ok(q);
    }

    /**
     * `execute()`: on a many-to-many table exactly one statement, the
     * `generate_add` insert of the two ids; on any other table none.
     */
    method Execute() returns (r: Result<seq<string>>)
      requires |objs| == 2
      ensures !link.manyToMany ==> r == Ok([])
      ensures link.manyToMany ==> (r.Ok? <==> |link.sortedFieldsNames| >= 2 && objs[0].id.Some? && objs[1].id.Some?)
      ensures link.manyToMany && r.Ok? ==>
                r.value == [Postgresql.GenerateAdd(link, objs[0].id.value, objs[1].id.value).value]
    {
      if !link.manyToMany {
        return Ok([]);
      }
      var ids := Ids(objs);
      if ids.Err? {
        return Err(ids.msg);
      }
      var (id0, id1) := ids.value;
      var text := Postgresql.GenerateAdd(link, id0, id1);
      if text.Err? {
        return Err(text.msg);
      }
      r := Ok([text.value]);
    }
  }

  /** `RemoveQuery(model_class, obj1, obj2)`: as `AddQuery`, for deleting the pair. */
  class RemoveQuery {
    const link: Schema
    const objs: seq<Party>

    constructor (link: Schema, objs: seq<Party>)
      ensures this.link == link && this.objs == objs
    {
      this.link := link;
      this.objs := objs;
    }

    static method Make(link: Schema, a: Party, b: Party) returns (r: Result<RemoveQuery>)
      ensures r.Ok? <==> LinkOrder(link.sortedFieldsNames, a, b).Ok?
      ensures r.Ok? ==> fresh(r.value) && r.value.link == link &&
                        r.value.objs == LinkOrder(link.sortedFieldsNames, a, b).value
    {
      var objs := LinkOrder(link.sortedFieldsNames, a, b);
      if objs.Err? {
        return Err(objs.msg);
      }
      var q := new RemoveQuery(link, objs.value);
      r := Ok(q);
    }

    /** `execute()`: the `generate_remove` delete on a many-to-many table, nothing otherwise. */
    method Execute() returns (r: Result<seq<string>>)
      requires |objs| == 2
      ensures !link.manyToMany ==> r == Ok([])
      ensures link.manyToMany ==> (r.Ok? <==> |link.sortedFieldsNames| >= 2 && objs[0].id.Some? && objs[1].id.Some?)
      ensures link.manyToMany && r.Ok? ==>
                r.value == [Postgresql.GenerateRemove(link, objs[0].id.value, objs[1].id.value).value]
    {
      if !link.manyToMany {
        return Ok([]);
      }
      var ids := Ids(objs);
      if ids.Err? {
        return Err(ids.msg);
      }
      var (id0, id1) := ids.value;
      var text := Postgresql.GenerateRemove(link, id0, id1);
      if text.Err? {
        return Err(text.msg);
      }
      r := Ok([text.value]);
    }
  }

  // ---------------------------------------------------------------------------
  // UpdateQuery
  // ---------------------------------------------------------------------------

  /** A call into the store: `runQuery` (rows come back) or `runOperation` (nothing does). */
  datatype Call = RunQuery(text: string, values: Dict) | RunOperation(text: string, values: Dict)

  /** `UpdateQuery(model_class, values)`: the values, and `return_id` from the schema's `primary_key`. */
  class UpdateQuery {
    const model: Schema
    const values: Dict
    const returnId: bool

    constructor (model: Schema, values: Dict)
      ensures this.model == model && this.values == values && returnId == model.primaryKey
    {
      this.model := model;
      this.values := values;
      returnId := model.primaryKey;
    }

    /**
     * `execute()` given what the generator produced (`generated`: the
     * statement and the values that go with it). With `return_id` the
     * statement is run as a query and the result is the first column of the
     * first row, or `None` when no row comes back; without it the statement is
     * run as an operation and the result is `None`. Exactly one call is made.
     */
    method Execute(generated: Result<(string, Dict)>, store: (string, Dict) -> seq<seq<Value>>)
        returns (r: Result<Option<Value>>, calls: seq<Call>)
      ensures generated.Err? ==> r.Err? && calls == []
      ensures generated.Ok? ==> |calls| == 1
      ensures generated.Ok? && returnId ==> calls == [RunQuery(generated.value.0, generated.value.1)]
      ensures generated.Ok? && !returnId ==> calls == [RunOperation(generated.value.0, generated.value.1)] && r == Ok(None)
      ensures generated.Ok? && returnId ==>
                var rows := store(generated.value.0, generated.value.1);
                (rows == [] || !model.primaryKey ==> r == Ok(None)) &&
                (rows != [] && model.primaryKey ==> (r.Ok? <==> rows[0] != []) && (r.Ok? ==> r == Ok(Some(rows[0][0]))))
    {
      if generated.Err? {
        return Err(generated.msg), [];
      }
      var (text, vals) := generated.value;
      if returnId {
        calls := [RunQuery(text, vals)];
        var rows := store(text, vals);
        if rows != [] && model.primaryKey {
          if rows[0] == [] {
            return Err("IndexError: tuple index out of range"), calls;
          }
          return Ok(Some(rows[0][0])), calls;
        }
      } else {
        calls := [RunOperation(text, vals)];
      }
      r := Ok(None);
    }
  }
}
