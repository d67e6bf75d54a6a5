/**
 * The class-level and instance-level operations of a model
 * (kameleon/model/base.py): `create_table`, `delete_table`, `add`, `remove`
 * and `save`. Each returns the statements it would hand to the store.
 */
module Records {
  import opened Common
  import opened Fields
  import opened Models
  import Postgresql
  import Queries

  // ---------------------------------------------------------------------------
  // create_table
  // ---------------------------------------------------------------------------

  /**
   * `field.create_field(name)` for one column. A `CharField` formats its own
   * type with the model's database; a `ForeignKeyField` references its peer's
   * table with the type of the referenced field's model; the column text of
   * every other field class is `other`.
   */
  function ColumnText(reg: Registry, s: Schema, name: string, f: Field, other: (Field, string) -> string): Result<string> {
    match f.kind
    case Char(_) => CharCreateField(f, name, s.database)
    case ForeignKey(peer, ref, _, _, _) =>
      if peer !in reg || ref.modelClass !in reg then Err("AttributeError: _meta")
      else ForeignKeyCreateField(f, reg[peer].tableName, reg[ref.modelClass].database)
    case _ => Ok(other(f, name))
  }

  /** The column texts of the first `k` registered fields, in `sorted_fields` order; the first failure wins. */
  function Columns(reg: Registry, s: Schema, k: nat, other: (Field, string) -> string): (r: Result<seq<string>>)
    requires s.Valid() && k <= |s.sortedFields|
    ensures r.Ok? ==> |r.value| == k
    ensures r.Ok? ==> forall i :: 0 <= i < k ==>
              ColumnText(reg, s, s.sortedFieldsNames[i], s.sortedFields[i], other) == Ok(r.value[i])
  {
    if k == 0 then Ok([])
    else
      var pre :- Columns(reg, s, k - 1, other);
      var c :- ColumnText(reg, s, s.sortedFieldsNames[k - 1], s.sortedFields[k - 1], other);
      Ok(pre + [c])
  }

  function Spaces(n: nat): (r: string)
    ensures |r| == n
  {
    if n == 0 then "" else " " + Spaces(n - 1)
  }

  /** ` c1, c2, ...,`: each column after a space and followed by a comma. */
  function ColumnList(cols: seq<string>): string {
    if cols == [] then "" else ColumnList(cols[..|cols| - 1]) + " " + cols[|cols| - 1] + ","
  }

  /**
   * The text `create_table` builds, in closed form. Every helper puts a space
   * in front of the whole text so far, so the statement starts with one space
   * per column (and one more for the unique clause). The columns follow the
   * title in order; the last one closes the statement, and the `UNIQUE (...)`
   * clause, when the schema has one, sits just before it.
   */
  function TableLayout(title: string, cols: seq<string>, unique: seq<string>): string {
    if cols == [] then title else Closed(title, cols[..|cols| - 1], cols[|cols| - 1], unique)
  }

  /** The statement whose columns are `front` and then `last`. */
  function Closed(title: string, front: seq<string>, last: string, unique: seq<string>): string {
    Spaces(|front| + 1 + if unique != [] then 1 else 0) + title + ColumnList(front)
    + (if unique != [] then " UNIQUE (" + StrJoin(",", unique) + ")," else "")
    + " " + last + ");"
  }

  /** Columns that are not the last are appended in order. */
  lemma LayoutStep(k: nat, title: string, cols: seq<string>, c: string)
    ensures Postgresql.CreateTableField(Spaces(k) + title + ColumnList(cols), c) == Spaces(k + 1) + title + ColumnList(cols + [c])
  {
    assert (cols + [c])[..|cols|] == cols;
  }

  /** The last column closes the statement, after the unique clause when there is one. */
  lemma LayoutEnd(title: string, cols: seq<string>, c: string, unique: seq<string>)
    ensures unique != [] ==>
              Postgresql.CreateTableFieldEnd(Postgresql.CreateUnique(Spaces(|cols|) + title + ColumnList(cols), unique), c)
              == TableLayout(title, cols + [c], unique)
    ensures unique == [] ==>
              Postgresql.CreateTableFieldEnd(Spaces(|cols|) + title + ColumnList(cols), c) == TableLayout(title, cols + [c], unique)
  {
    var n := |cols|;
    var sp := Spaces(n);
    var cl := ColumnList(cols);
    var init := sp + title + cl;
    assert (cols + [c])[..n] == cols;
    var closed := Closed(title, cols, c, unique);
    assert TableLayout(title, cols + [c], unique) == closed;
    if unique != [] {
      var u := " UNIQUE (" + StrJoin(",", unique) + "),";
      assert closed == Spaces(n + 2) + title + cl + u + " " + c + ");";
      assert Spaces(n + 2) == " " + (" " + sp);
      Assoc4(" " + init, " UNIQUE (", StrJoin(",", unique), "),");
      assert Postgresql.CreateUnique(init, unique) == " " + init + u;
      Regroup(" ", sp, title, cl, u);
      assert " " + (" " + init + u) == Spaces(n + 2) + title + cl + u;
      assert Postgresql.CreateTableFieldEnd(" " + init + u, c) == closed;
    } else {
      assert closed == Spaces(n + 1) + title + cl + "" + " " + c + ");";
      assert Spaces(n + 1) == " " + sp;
      EmptyRight(Spaces(n + 1) + title + cl);
      Assoc3(" ", sp, title, cl);
      assert Postgresql.CreateTableFieldEnd(init, c) == closed;
    }
  }

  lemma Assoc4(a: string, b: string, c: string, d: string)
    ensures a + b + c + d == a + (b + c + d)
  {
  }

  lemma Assoc3(x: string, a: string, b: string, c: string)
    ensures x + a + b + c == x + (a + b + c)
  {
  }

  lemma EmptyRight(x: string)
    ensures x + "" == x
  {
  }

  /** Two spaces put in front one at a time, as `create_unique` and `create_table_field_end` do. */
  lemma Regroup(x: string, sp: string, t: string, cl: string, u: string)
    ensures x + (x + (sp + t + cl) + u) == x + (x + sp) + t + cl + u
  {
  }

  /**
   * `Model.create_table()`: the statement for the model's table, one column
   * per registered field in registration order. A column that cannot be
   * rendered raises.
   */
  method CreateTable(reg: Registry, s: Schema, other: (Field, string) -> string) returns (r: Result<string>)
    requires s.Valid()
    ensures r.Ok? <==> Columns(reg, s, |s.sortedFields|, other).Ok?
    ensures r.Ok? ==> r.value == TableLayout(Postgresql.CreateTableTitle(s.tableName),
                                             Columns(reg, s, |s.sortedFields|, other).value, s.unique)
  {
    var title := Postgresql.CreateTableTitle(s.tableName);
    var init := title;
    var n := |s.sortedFields|;
    ghost var texts: seq<string> := [];
    var i := 1;
    while i <= n
      invariant 1 <= i <= n + 1
      invariant Columns(reg, s, i - 1, other) == Ok(texts)
      invariant i <= n ==> init == Spaces(i - 1) + title + ColumnList(texts)
      invariant i == n + 1 ==> init == TableLayout(title, texts, s.unique)
    {
      var field := ColumnText(reg, s, s.sortedFieldsNames[i - 1], s.sortedFields[i - 1], other);
      if field.Err? {
        ColumnsPrefixFails(reg, s, i, other);
        return Err(field.msg);
      }
      init := AppendColumn(title, init, texts, field.value, i == n, s.unique);
      texts := texts + [field.value];
      i := i + 1;
    }
    r := Ok(init);
  }

  /**
   * One pass of `create_table`'s loop: a middle column is added with a
   * comma; the last one closes the statement, after the unique clause.
   */
  method AppendColumn(title: string, init: string, ghost texts: seq<string>, column: string, last: bool, unique: seq<string>)
      returns (next: string)
    requires init == Spaces(|texts|) + title + ColumnList(texts)
    ensures last ==> next == TableLayout(title, texts + [column], unique)
    ensures !last ==> next == Spaces(|texts| + 1) + title + ColumnList(texts + [column])
  {
    if last {
      LayoutEnd(title, texts, column, unique);
      next := init;
      if unique != [] {
        next := Postgresql.CreateUnique(next, unique);
      }
      next := Postgresql.CreateTableFieldEnd(next, column);
    } else {
      LayoutStep(|texts|, title, texts, column);
      next := Postgresql.CreateTableField(init, column);
    }
  }

  /** A column that fails makes every longer column list fail. */
  lemma {:induction false} ColumnsPrefixFails(reg: Registry, s: Schema, k: nat, other: (Field, string) -> string)
    requires s.Valid() && 1 <= k <= |s.sortedFields|
    requires Columns(reg, s, k - 1, other).Ok?
    requires ColumnText(reg, s, s.sortedFieldsNames[k - 1], s.sortedFields[k - 1], other).Err?
    ensures Columns(reg, s, |s.sortedFields|, other).Err?
  {
    if k < |s.sortedFields| {
      assert Columns(reg, s, k, other).Err?;
      ColumnsFailLater(reg, s, k, |s.sortedFields|, other);
    }
  }

  lemma {:induction false} ColumnsFailLater(reg: Registry, s: Schema, k: nat, m: nat, other: (Field, string) -> string)
    requires s.Valid() && k <= m <= |s.sortedFields|
    requires Columns(reg, s, k, other).Err?
    ensures Columns(reg, s, m, other).Err?
    decreases m - k
  {
    if k < m {
      ColumnsFailLater(reg, s, k, m - 1, other);
    }
  }

  /** With a unique clause, it comes right before the last column. */
  lemma UniqueBeforeLastColumn(title: string, cols: seq<string>, unique: seq<string>)
    requires cols != [] && unique != []
    ensures EndsWith(TableLayout(title, cols, unique),
                     " UNIQUE (" + StrJoin(",", unique) + ")," + " " + cols[|cols| - 1] + ");")
  {
    var n := |cols|;
    var tail := " UNIQUE (" + StrJoin(",", unique) + ")," + " " + cols[n - 1] + ");";
    var head := Spaces(n + 1) + title + ColumnList(cols[..n - 1]);
    assert TableLayout(title, cols, unique) == head + tail;
    EndsWithAppended(head, tail);
  }

  /** `Model.delete_table()`: the table is dropped with `CASCADE`. */
  function DeleteTableStatement(s: Schema): (r: string)
    ensures r == "DROP TABLE IF EXISTS " + s.tableName + " CASCADE;"
  {
    Postgresql.DeleteTable(s.tableName, true)
  }

  // ---------------------------------------------------------------------------
  // add and remove
  // ---------------------------------------------------------------------------

  /** What a link query reads of the object at `obj`: its model's name and its `id`, if it has one. */
  function PartyOf(reg: Registry, heap: seq<Instance>, obj: nat): (p: Queries.Party)
    requires obj < |heap| && heap[obj].cls in reg
    ensures p.modelName == reg[heap[obj].cls].name
    ensures p.id == if "id" in heap[obj].attrs then Some(heap[obj].attrs["id"]) else None
  {
    Queries.Party(reg[heap[obj].cls].name, if "id" in heap[obj].attrs then Some(heap[obj].attrs["id"]) else None)
  }

  /**
   * Whether the link query for `a` and `b` issues its statement: the table is
   * a link table whose first two columns exist, both models name a column,
   * and both objects have an `id`.
   */
  predicate Issues(reg: Registry, link: Schema, heap: seq<Instance>, a: nat, b: nat)
    requires a < |heap| && b < |heap| && heap[a].cls in reg && heap[b].cls in reg
  {
    var objs := Queries.LinkOrder(link.sortedFieldsNames, PartyOf(reg, heap, a), PartyOf(reg, heap, b));
    link.manyToMany && objs.Ok? && objs.value[0].id.Some? && objs.value[1].id.Some? && |link.sortedFieldsNames| >= 2
  }

  /** The two ids of an issued link query, in the table's column order. */
  function IssuedIds(reg: Registry, link: Schema, heap: seq<Instance>, a: nat, b: nat): (ids: (Value, Value))
    requires a < |heap| && b < |heap| && heap[a].cls in reg && heap[b].cls in reg
    requires Issues(reg, link, heap, a, b)
    ensures var objs := Queries.LinkOrder(link.sortedFieldsNames, PartyOf(reg, heap, a), PartyOf(reg, heap, b)).value;
            ids == (objs[0].id.value, objs[1].id.value)
    ensures {ids.0, ids.1} <= {PartyOf(reg, heap, a).id.value, PartyOf(reg, heap, b).id.value}
  {
    var objs := Queries.LinkOrder(link.sortedFieldsNames, PartyOf(reg, heap, a), PartyOf(reg, heap, b)).value;
    assert objs[0] in multiset(objs) && objs[1] in multiset(objs);
    (objs[0].id.value, objs[1].id.value)
  }

  /**
   * `Model.add(obj1, obj2)` on the link table `link`: a non-link table
   * raises; otherwise the `AddQuery` runs, and each object is appended to the
   * other's collection named after the other's model. `sent` is the
   * statement that reached the database, also when appending raises later.
   */
  method Add(reg: Registry, link: Schema, heap: seq<Instance>, a: nat, b: nat)
      returns (r: Result<seq<Instance>>, sent: seq<string>)
    requires a < |heap| && b < |heap| && heap[a].cls in reg && heap[b].cls in reg
    ensures !link.manyToMany ==> r.Err? && sent == []
    ensures !Issues(reg, link, heap, a, b) ==> r.Err? && sent == []
    ensures Issues(reg, link, heap, a, b) ==> var ids := IssuedIds(reg, link, heap, a, b);
              sent == [Postgresql.GenerateAdd(link, ids.0, ids.1).value]
    ensures r.Ok? <==> Issues(reg, link, heap, a, b) &&
                       Appendable(reg[heap[a].cls], heap[a], reg[heap[b].cls].name) &&
                       Appendable(reg[heap[b].cls], heap[b], reg[heap[a].cls].name)
    ensures r.Ok? ==> |r.value| == |heap| && forall k :: 0 <= k < |heap| && k != a && k != b ==> r.value[k] == heap[k]
    ensures r.Ok? ==> var nameA := reg[heap[a].cls].name; var nameB := reg[heap[b].cls].name;
                      nameB in r.value[a].attrs && r.value[a].attrs[nameB].List? && b in r.value[a].attrs[nameB].objs &&
                      nameA in r.value[b].attrs && r.value[b].attrs[nameA].List? && a in r.value[b].attrs[nameA].objs
    ensures r.Ok? && a != b ==> var nameA := reg[heap[a].cls].name; var nameB := reg[heap[b].cls].name;
              r.value[a].cls == heap[a].cls && r.value[a].attrs == heap[a].attrs[nameB := Appended(heap[a].attrs[nameB], b)] &&
              r.value[b].cls == heap[b].cls && r.value[b].attrs == heap[b].attrs[nameA := Appended(heap[b].attrs[nameA], a)]
    ensures r.Ok? && a == b ==> var name := reg[heap[a].cls].name;
              r.value[a].cls == heap[a].cls &&
              r.value[a].attrs == heap[a].attrs[name := Appended(Appended(heap[a].attrs[name], a), a)]
  {
    sent := [];
    if !link.manyToMany {
      return Err("ERROR: Add called on non many to many model"), sent;
    }
    var q := Queries.AddQuery.Make(link, PartyOf(reg, heap, a), PartyOf(reg, heap, b));
    if q.Err? {
      return Err(q.msg), sent;
    }
    var issued := q.value.Execute();
    if issued.Err? {
      return Err(issued.msg), sent;
    }
    sent := issued.value;
    var nameA := reg[heap[a].cls].name;
    var nameB := reg[heap[b].cls].name;
    var heap1 := AppendLink(reg, heap, a, nameB, b);
    if heap1.Err? {
      return Err(heap1.msg), sent;
    }
    var heap2 := AppendLink(reg, heap1.value, b, nameA, a);
    if heap2.Err? {
      return Err(heap2.msg), sent;
    }
    r := Ok(heap2.value);
  }

  /** Whether `Model.remove` can test and change `inst`'s collection `attr`: it is a list. */
  predicate Removable(inst: Instance, attr: string) {
    attr in inst.attrs && inst.attrs[attr].List?
  }

  /**
   * `Model.remove(obj1, obj2)`: a non-link table raises; otherwise the
   * `RemoveQuery` runs, and each object leaves the other's collection once,
   * if it is there. `sent` is the statement that reached the database.
   */
  method Remove(reg: Registry, link: Schema, heap: seq<Instance>, a: nat, b: nat)
      returns (r: Result<seq<Instance>>, sent: seq<string>)
    requires a < |heap| && b < |heap| && heap[a].cls in reg && heap[b].cls in reg
    ensures !link.manyToMany ==> r.Err? && sent == []
    ensures !Issues(reg, link, heap, a, b) ==> r.Err? && sent == []
    ensures Issues(reg, link, heap, a, b) ==> var ids := IssuedIds(reg, link, heap, a, b);
              sent == [Postgresql.GenerateRemove(link, ids.0, ids.1).value]
    ensures r.Ok? <==> Issues(reg, link, heap, a, b) &&
                       Removable(heap[a], reg[heap[b].cls].name) && Removable(heap[b], reg[heap[a].cls].name)
    ensures r.Ok? ==> |r.value| == |heap| && forall k :: 0 <= k < |heap| && k != a && k != b ==> r.value[k] == heap[k]
    ensures r.Ok? && a != b ==> var nameA := reg[heap[a].cls].name; var nameB := reg[heap[b].cls].name;
              r.value[a] == Unlinked(heap[a], nameB, b) && r.value[b] == Unlinked(heap[b], nameA, a)
  {
    sent := [];
    if !link.manyToMany {
      return Err("ERROR: Remove called on non many to many model"), sent;
    }
    var q := Queries.RemoveQuery.Make(link, PartyOf(reg, heap, a), PartyOf(reg, heap, b));
    if q.Err? {
      return Err(q.msg), sent;
    }
    var issued := q.value.Execute();
    if issued.Err? {
      return Err(issued.msg), sent;
    }
    sent := issued.value;
    var nameA := reg[heap[a].cls].name;
    var nameB := reg[heap[b].cls].name;
    var heap1 := RemoveLink(heap, a, nameB, b);
    if heap1.Err? {
      return Err(heap1.msg), sent;
    }
    var heap2 := RemoveLink(heap1.value, b, nameA, a);
    if heap2.Err? {
      return Err(heap2.msg), sent;
    }
    r := Ok(heap2.value);
  }

  /** Removing what was just appended gives back the list, when it was not there before. */
  lemma {:induction false} RemoveFirstAppended(xs: seq<nat>, x: nat)
    requires x !in xs
    ensures RemoveFirst(xs + [x], x) == xs
  {
    if xs != [] {
      assert (xs + [x])[1..] == xs[1..] + [x];
      RemoveFirstAppended(xs[1..], x);
    }
  }

  // ---------------------------------------------------------------------------
  // save
  // ---------------------------------------------------------------------------

  /** What `save` sends: the update query's call, or an insert of the values. */
  datatype Sent = Update(call: Queries.Call) | Insert(values: Dict)

  /**
   * The key an update query hands back to `save` on a schema with a primary
   * key: `None` without rows, else the first column of the first row.
   */
  function ReturnedKey(rows: seq<seq<Value>>): (r: Result<Value>)
    ensures rows == [] ==> r == Ok(Null)
    ensures rows != [] ==> (r.Ok? <==> rows[0] != []) && (r.Ok? ==> r.value == rows[0][0])
  {
    if rows == [] then Ok(Null)
    else if rows[0] == [] then Err("IndexError: tuple index out of range")
    else Ok(rows[0][0])
  }

  /**
   * What carrying out one `save` decision does: an insert without returned
   * key leaves the instance as it was; an insert returning a key, and an
   * update through `UpdateQuery`, set `id` to the key that came back.
   */
  ghost predicate Carried(s: Schema, inst: Instance, step: SaveStep, heap: seq<Instance>,
                          store: (string, Dict) -> seq<seq<Value>>, insert: Dict -> Value,
                          r: Result<Instance>, sent: seq<Sent>)
  {
    match step
    case InsertRow(values, returnsKey) =>
      sent == [Insert(values)] &&
      (!returnsKey ==> r == Ok(inst)) &&
      (returnsKey ==> r == SetAttr(s, inst, PRIMARY_KEY_NAME, insert(values), heap))
    case UpdateRow(values) =>
      var gen := Postgresql.GenerateUpdate(s.tableName, s.primaryKey, values, s.primaryKey);
      (gen.Err? ==> r.Err? && sent == []) &&
      (gen.Ok? ==>
         sent == [Update(Queries.RunQuery(gen.value.0, gen.value.1))] &&
         var pk := ReturnedKey(store(gen.value.0, gen.value.1));
         (pk.Err? ==> r.Err?) && (pk.Ok? ==> r == SetAttr(s, inst, PRIMARY_KEY_NAME, pk.value, heap)))
  }

  /**
   * `save()`: the values are formatted and `save` decides between update and
   * insert (`SavePlan`); the decision is then carried out. `insert(values)`
   * is the key an insert returns.
   */
  method Save(reg: Registry, s: Schema, inst: Instance, heap: seq<Instance>, other: (Field, Value) -> string,
              store: (string, Dict) -> seq<seq<Value>>, insert: Dict -> Value)
      returns (r: Result<Instance>, sent: seq<Sent>)
    requires s.Valid()
    ensures SavePlan(s, inst, other).Err? ==> r.Err? && sent == []
    ensures SavePlan(s, inst, other).Ok? ==> Carried(s, inst, SavePlan(s, inst, other).value, heap, store, insert, r, sent)
  {
    var plan := SavePlan(s, inst, other);
    if plan.Err? {
      return Err(plan.msg), [];
    }
    r, sent := Carry(s, inst, plan.value, heap, store, insert);
  }

  /** Carries out one `save` decision. */
  method Carry(s: Schema, inst: Instance, step: SaveStep, heap: seq<Instance>,
               store: (string, Dict) -> seq<seq<Value>>, insert: Dict -> Value)
      returns (r: Result<Instance>, sent: seq<Sent>)
    requires step.UpdateRow? ==> s.primaryKey
    ensures Carried(s, inst, step, heap, store, insert, r, sent)
  {
    match step {
      case InsertRow(values, returnsKey) =>
        sent := [Insert(values)];
        if !returnsKey {
          return Ok(inst), sent;
        }
        r := SetAttr(s, inst, PRIMARY_KEY_NAME, insert(values), heap);
      case UpdateRow(values) =>
        var q := new Queries.UpdateQuery(s, values);
        var gen := Postgresql.GenerateUpdate(s.tableName, s.primaryKey, values, q.returnId);
        var pk, calls := q.Execute(gen, store);
        sent := if |calls| == 1 then [Update(calls[0])] else [];
        if pk.Err? {
          return Err(pk.msg), sent;
        }
        r := SetAttr(s, inst, PRIMARY_KEY_NAME, if pk.value.Some? then pk.value.value else Null, heap);
    }
  }

  /** A save with a primary key that goes through leaves the instance with an `id`. */
  lemma SavedHasId(s: Schema, inst: Instance, step: SaveStep, heap: seq<Instance>,
                   store: (string, Dict) -> seq<seq<Value>>, insert: Dict -> Value, r: Result<Instance>, sent: seq<Sent>)
    requires Carried(s, inst, step, heap, store, insert, r, sent) && r.Ok?
    requires step.UpdateRow? || step.returnsKey
    ensures PRIMARY_KEY_NAME in r.value.attrs && r.value.cls == inst.cls
  {
  }
}
