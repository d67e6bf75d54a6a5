/**
 * The SQL text of the PostgreSQL back end (kameleon/databases/postgresql.py):
 * table creation helpers, `delete_table`, and the statement generators for
 * insert, delete, update, link insertion and removal, and select. Every
 * literal is spliced into the text as the source does.
 */
module Postgresql {
  import opened Common
  import opened Fields
  import opened Models
  import opened QueryParts

  const JOIN: string := "JOIN"
  const LEFT_JOIN: string := "LEFT JOIN"

  /** `PostgresqlDatabase.TYPES` */
  const TYPES: map<string, string> := map[
    "BOOL" := "bool", "CHAR" := "varchar", "FLOAT" := "float",
    "INT" := "int", "JSON" := "jsonb", "DATE" := "timestamp"]

  /** The database as the fields see it. */
  const POSTGRES: Database := Database(TYPES)

  /** A character column on this database renders as `varchar(n)`. */
  lemma CharColumnsAreVarchar(n: nat)
    ensures GetDbField(NewCharField(Some(n), false, false), Some(POSTGRES)) == Ok("varchar(" + IntToString(n) + ")")
    ensures GetDbField(NewCharField(None, false, false), Some(POSTGRES)) == Ok("varchar(" + IntToString(MAX_LENGTH) + ")")
  {
    assert "CHAR" in POSTGRES.types && POSTGRES.types["CHAR"] == "varchar";
    assert "varchar" + "(" == "varchar(";
  }

  // ---------------------------------------------------------------------------
  // Table creation and deletion
  // ---------------------------------------------------------------------------

  /** `create_table_title(name)` */
  function CreateTableTitle(name: string): (r: string)
    ensures "CREATE TABLE " + name <= r && EndsWith(r, " (")
  {
    "CREATE TABLE " + name + " ("
  }

  /** `create_table_field(current, field)`: a space is put in front of the whole text so far. */
  function CreateTableField(current: string, field: string): (r: string)
    ensures " " + current <= r && EndsWith(r, field + ",")
  {
    PrefixOfAppended(" " + current, " " + field + ",");
    EndsWithAppended(" " + current + " ", field + ",");
    " " + current + " " + field + ","
  }

  /** `create_table_field_end(current, field)`: the last column closes the statement. */
  function CreateTableFieldEnd(current: string, field: string): (r: string)
    ensures " " + current <= r && EndsWith(r, field + ");")
  {
    PrefixOfAppended(" " + current, " " + field + ");");
    EndsWithAppended(" " + current + " ", field + ");");
    " " + current + " " + field + ");"
  }

  /** `create_unique(current, unique)` */
  function CreateUnique(current: string, unique: seq<string>): (r: string)
    ensures " " + current <= r && EndsWith(r, "UNIQUE (" + StrJoin(",", unique) + "),")
  {
    PrefixOfAppended(" " + current, " UNIQUE (" + StrJoin(",", unique) + "),");
    EndsWithAppended(" " + current + " ", "UNIQUE (" + StrJoin(",", unique) + "),");
    " " + current + " UNIQUE (" + StrJoin(",", unique) + "),"
  }

  /** `delete_table(name, cascade)`; `cascade` defaults to true. */
  function DeleteTable(tableName: string, cascade: bool): (r: string)
    ensures "DROP TABLE IF EXISTS " + tableName <= r && EndsWith(r, ";")
    ensures cascade ==> r == "DROP TABLE IF EXISTS " + tableName + " CASCADE;"
    ensures !cascade ==> r == "DROP TABLE IF EXISTS " + tableName + ";"
  {
    var op := "DROP TABLE IF EXISTS " + tableName;
    var op' := if cascade then op + " CASCADE" else op;
    PrefixOfAppended(op, op'[|op|..] + ";");
    assert op' + ";" == op + (op'[|op|..] + ";");
    EndsWithAppended(op', ";");
    op' + ";"
  }

  // ---------------------------------------------------------------------------
  // Insert
  // ---------------------------------------------------------------------------

  /** `INSERT INTO t (cols) VALUES (vals)`: columns and values both drawn from `values`, pairwise. */
  function InsertHead(table: string, values: Dict): string {
    "INSERT INTO " + table + " (" + StrJoin(",", Names(values)) + ") VALUES (" + StrJoin(",", Vals(values)) + ")"
  }

  function ConflictClause(onConflict: seq<string>, values: Dict): string {
    " ON CONFLICT (" + StrJoin(",", onConflict) + ") DO UPDATE SET (" + StrJoin(",", Names(values)) + ") = (" + StrJoin(",", Vals(values)) + ")"
  }

  /**
   * `generate_insert`: the insert, then the upsert clause when `on_conflict`
   * is non-empty, then ` RETURNING id` when asked for, then `;`.
   */
  function GenerateInsert(table: string, values: Dict, onConflict: seq<string>, returnId: bool): (r: string)
    ensures InsertHead(table, values) <= r && EndsWith(r, ";")
    ensures returnId <==> EndsWith(r, " RETURNING id;")
    ensures onConflict != [] ==> InsertHead(table, values) + ConflictClause(onConflict, values) <= r
    ensures onConflict != [] ==> r == InsertHead(table, values) + ConflictClause(onConflict, values)
                                     + (if returnId then " RETURNING id;" else ";")
    ensures onConflict == [] ==> r == InsertHead(table, values) + (if returnId then " RETURNING id;" else ";")
  {
    var head := InsertHead(table, values);
    var withConflict := if onConflict != [] then head + ConflictClause(onConflict, values) else head;
    var end := if returnId then " RETURNING id;" else ";";
    var r := withConflict + end;
    assert withConflict[|withConflict| - 1] == ')';
    EndsWithAppended(withConflict, end);
    PrefixOfAppended(withConflict, end);
    assert returnId <==> EndsWith(r, " RETURNING id;") by {
      if !returnId {
        assert r[|r| - 2] == ')' && " RETURNING id;"[12] == 'd';
      }
    }
    r
  }

  // ---------------------------------------------------------------------------
  // Delete
  // ---------------------------------------------------------------------------

  /** One condition of a list-form where: `table.column op 'rhs'`, with the operator's own text. */
  function DeleteCondition(reg: Registry, e: Node): (r: Result<string>)
    ensures r.Ok? <==> e.Expression? && e.lhs.FieldNode? && e.lhs.field.modelClass in reg
    ensures r.Ok? ==> r.value == reg[e.lhs.field.modelClass].tableName + "." + e.lhs.field.name + " " + OpValue(e.op) + " '" + OperandText(e.rhs) + "'"
  {
    if !e.Expression? then Err("AttributeError: lhs")
    else if !e.lhs.FieldNode? || e.lhs.field.modelClass !in reg then Err("AttributeError: model_class")
    else Ok(reg[e.lhs.field.modelClass].tableName + "." + e.lhs.field.name + " " + OpValue(e.op) + " '" + OperandText(e.rhs) + "'")
  }

  /** `str(rhs)`: a value as Python prints it; another node by placeholder text. */
  function OperandText(o: Operand): string {
    match o
    case Literal(v) => Str(v)
    case SubNode(_) => "<node>"
  }

  /** The conditions, each led by a space, in order. */
  function Conditions(reg: Registry, es: seq<Node>): (r: Result<seq<string>>)
    ensures r.Ok? <==> forall i :: 0 <= i < |es| ==> DeleteCondition(reg, es[i]).Ok?
    ensures r.Ok? ==> |r.value| == |es| && forall i :: 0 <= i < |es| ==> r.value[i] == " " + DeleteCondition(reg, es[i]).value
  {
    if forall i :: 0 <= i < |es| ==> DeleteCondition(reg, es[i]).Ok? then
      Ok(seq(|es|, i requires 0 <= i < |es| => " " + DeleteCondition(reg, es[i]).value))
    else Err("AttributeError")
  }

  /** The where text of a delete: `WHERE ` then the conditions joined by ` AND `. */
  function DeleteWhereText(reg: Registry, where: Where): (r: Result<string>)
    ensures !Present(where) ==> r == Ok("")
    ensures where.Sql? && where.text != "" ==> r == Ok("WHERE " + where.text)
    ensures where.Tree? ==> r.Err?
    ensures where.Conditions? && where.conds != [] && r.Ok? ==> "WHERE " <= r.value
  {
    if !Present(where) then Ok("")
    else
      match where
      case Sql(s) => Ok("WHERE " + s)
      case Tree(_) => Err("TypeError: 'Expression' object is not iterable")
      case Conditions(es) =>
        var cs :- Conditions(reg, es);
        Ok("WHERE " + StrJoin(" AND ", cs))
      case NoWhere => Ok("")
  }

  /**
   * `generate_delete`: `DELETE FROM t <where>;`. A list-form where is built
   * by accumulating each condition, led by `WHERE ` the first time and by
   * ` AND ` afterwards.
   */
  method GenerateDelete(reg: Registry, table: string, where: Where) returns (r: Result<string>)
    ensures r.Ok? <==> DeleteWhereText(reg, where).Ok?
    ensures r.Ok? ==> r.value == "DELETE FROM " + table + " " + DeleteWhereText(reg, where).value + ";"
  {
    var text := "";
    if Present(where) {
      match where {
        case Sql(s) =>
          text := "WHERE " + s;
        case Tree(_) =>
          return Err("TypeError: 'Expression' object is not iterable");
        case Conditions(es) =>
          var w := AccumulateConditions(reg, es);
          if w.Err? {
            return Err(w.msg);
          }
          text := w.value;
        case NoWhere =>
      }
    }
    r := Ok("DELETE FROM " + table + " " + text + ";");
  }

  /** The list-form where text: empty for no condition, else `WHERE ` and the conditions joined by ` AND `. */
  function WhereList(pieces: seq<string>): string {
    if pieces == [] then "" else "WHERE " + StrJoin(" AND ", pieces)
  }

  /** One more condition is led by `WHERE ` the first time and by ` AND ` afterwards. */
  lemma WhereListSnoc(pieces: seq<string>, piece: string)
    ensures WhereList(pieces + [piece]) == WhereList(pieces) + (if pieces == [] then "WHERE " else " AND ") + piece
  {
    if pieces == [] {
      assert pieces + [piece] == [piece];
    } else {
      StrJoinSnoc(" AND ", pieces, piece);
    }
  }

  /** The conditions of a prefix extended by one rendered condition. */
  lemma ConditionsSnoc(reg: Registry, es: seq<Node>, i: nat)
    requires i < |es| && Conditions(reg, es[..i]).Ok? && DeleteCondition(reg, es[i]).Ok?
    ensures Conditions(reg, es[..i + 1]) == Ok(Conditions(reg, es[..i]).value + [" " + DeleteCondition(reg, es[i]).value])
  {
    var pre := es[..i + 1];
    var before := es[..i];
    forall k | 0 <= k < |pre|
      ensures DeleteCondition(reg, pre[k]).Ok?
    {
      if k < i {
        assert pre[k] == before[k];
      }
    }
    var a := Conditions(reg, pre).value;
    var b := Conditions(reg, before).value + [" " + DeleteCondition(reg, es[i]).value];
    forall k | 0 <= k < |a|
      ensures a[k] == b[k]
    {
      if k < i {
        assert pre[k] == before[k] && b[k] == Conditions(reg, before).value[k];
      }
    }
    assert a == b;
  }

  /** The loop of `generate_delete` over a list of expressions. */
  method AccumulateConditions(reg: Registry, es: seq<Node>) returns (r: Result<string>)
    requires es != []
    ensures r.Ok? <==> Conditions(reg, es).Ok?
    ensures r.Ok? ==> r.value == "WHERE " + StrJoin(" AND ", Conditions(reg, es).value)
  {
    var text := "";
    var i := 0;
    ghost var pieces: seq<string> := [];
    while i < |es|
      invariant 0 <= i <= |es|
      invariant Conditions(reg, es[..i]) == Ok(pieces)
      invariant text == WhereList(pieces)
    {
      var c := DeleteCondition(reg, es[i]);
      if c.Err? {
        return Err("AttributeError");
      }
      var piece := " " + c.value;
      ConditionsSnoc(reg, es, i);
      WhereListSnoc(pieces, piece);
      text := text + (if i == 0 then "WHERE " else " AND ") + piece;
      pieces := pieces + [piece];
      i := i + 1;
    }
    assert es[..i] == es;
    r := Ok(text);
  }

  // ---------------------------------------------------------------------------
  // Update
  // ---------------------------------------------------------------------------

  /** The entry for `key`, if any. */
  function Get(d: Dict, key: string): (r: Option<string>)
    ensures r.Some? <==> key in Names(d)
  {
    if d == [] then None else if d[0].0 == key then Some(d[0].1) else Get(d[1..], key)
  }

  /** `UPDATE t SET (cols)=(vals) WHERE id = <id>` */
  function UpdateHead(table: string, rest: Dict, id: string): string {
    "UPDATE " + table + " SET (" + StrJoin(",", Names(rest)) + ")=(" + StrJoin(",", Vals(rest)) + ") WHERE id = " + id
  }

  /**
   * `generate_update`: without a primary key it raises. Otherwise `id` is
   * taken out of the values (the caller's dictionary loses it) and the rest
   * are written to the row with that `id`; ` RETURNING id` is added when
   * asked for. The result is the text and the values left behind.
   */
  function GenerateUpdate(table: string, primaryKey: bool, values: Dict, returnId: bool): (r: Result<(string, Dict)>)
    ensures r.Ok? <==> primaryKey && PRIMARY_KEY_NAME in Names(values)
    ensures r.Ok? ==> r.value.1 == Without(values, PRIMARY_KEY_NAME)
    ensures r.Ok? ==> PRIMARY_KEY_NAME !in Names(r.value.1)
    ensures r.Ok? ==> UpdateHead(table, r.value.1, Get(values, PRIMARY_KEY_NAME).value) <= r.value.0
    ensures r.Ok? && returnId ==> EndsWith(r.value.0, " RETURNING id;")
    ensures r.Ok? && returnId ==> r.value.0 == UpdateHead(table, r.value.1, Get(values, PRIMARY_KEY_NAME).value) + " RETURNING id;"
    ensures r.Ok? && !returnId ==> r.value.0 == UpdateHead(table, r.value.1, Get(values, PRIMARY_KEY_NAME).value) + ";"
  {
    if !primaryKey then Err("ERROR: Not primary key cannot update row. Need to be implemented")
    else match Get(values, PRIMARY_KEY_NAME)
      case None => Err("KeyError: 'id'")
      case Some(id) =>
        var rest := Without(values, PRIMARY_KEY_NAME);
        assert forall i :: 0 <= i < |rest| ==> Names(rest)[i] != PRIMARY_KEY_NAME;
        var head := UpdateHead(table, rest, id);
        var text := if returnId then head + " RETURNING id;" else head + ";";
        assert returnId ==> text[|head|..] == " RETURNING id;";
        Ok((text, rest))
  }

  // ---------------------------------------------------------------------------
  // Link tables
  // ---------------------------------------------------------------------------

  /** `c0{eq}'v0' AND c1='v1'`: the test on one pair of a link table. */
  function PairTest(c0: string, eq: string, v0: string, c1: string, v1: string): string {
    c0 + eq + "'" + v0 + "' AND " + c1 + "='" + v1 + "'"
  }

  /**
   * `generate_add`: inserts the two ids into the link table's columns
   * unless that pair is already there. Fewer than two columns raise.
   */
  function GenerateAdd(link: Schema, id0: Value, id1: Value): (r: Result<string>)
    ensures r.Ok? <==> |link.sortedFieldsNames| >= 2
    ensures r.Ok? ==> "INSERT INTO " + link.tableName + " (" + StrJoin(",", link.sortedFieldsNames) + ") SELECT "
                        + Str(id0) + "," + Str(id1) + " WHERE NOT EXISTS (" <= r.value
    ensures r.Ok? ==> EndsWith(r.value, " WHERE " + PairTest(link.sortedFieldsNames[0], "=", Str(id0),
                                                            link.sortedFieldsNames[1], Str(id1)) + ");")
    ensures r.Ok? ==> r.value == "INSERT INTO " + link.tableName + " (" + StrJoin(",", link.sortedFieldsNames) + ") SELECT "
                                + Str(id0) + "," + Str(id1) + " WHERE NOT EXISTS (" + "SELECT " + link.sortedFieldsNames[0]
                                + " FROM " + link.tableName + " WHERE "
                                + PairTest(link.sortedFieldsNames[0], "=", Str(id0), link.sortedFieldsNames[1], Str(id1)) + ");"
  {
    if |link.sortedFieldsNames| < 2 then Err("IndexError: list index out of range")
    else
      var names := link.sortedFieldsNames;
      var head := "INSERT INTO " + link.tableName + " (" + StrJoin(",", names) + ") SELECT "
                  + Str(id0) + "," + Str(id1) + " WHERE NOT EXISTS (";
      var test := PairTest(names[0], "=", Str(id0), names[1], Str(id1));
      AddShape(head, names[0], link.tableName, test);
      Ok(head + "SELECT " + names[0] + " FROM " + link.tableName + " WHERE " + test + ");")
  }

  /** The add statement is its head, the inner select and the pair test, in that order. */
  lemma AddShape(head: string, col: string, table: string, test: string)
    ensures head <= head + "SELECT " + col + " FROM " + table + " WHERE " + test + ");"
    ensures EndsWith(head + "SELECT " + col + " FROM " + table + " WHERE " + test + ");", " WHERE " + test + ");")
  {
    var mid := "SELECT " + col + " FROM " + table;
    var tail := " WHERE " + test + ");";
    assert head + "SELECT " + col + " FROM " + table + " WHERE " + test + ");" == head + (mid + tail) == (head + mid) + tail;
    PrefixOfAppended(head, mid + tail);
    EndsWithAppended(head + mid, tail);
  }

  /** `generate_remove`: deletes the row holding exactly the two ids. Fewer than two columns raise. */
  function GenerateRemove(link: Schema, id0: Value, id1: Value): (r: Result<string>)
    ensures r.Ok? <==> |link.sortedFieldsNames| >= 2
    ensures r.Ok? ==> r.value == "DELETE FROM " + link.tableName + " WHERE "
                                + PairTest(link.sortedFieldsNames[0], " = ", Str(id0), link.sortedFieldsNames[1], Str(id1)) + ";"
  {
    if |link.sortedFieldsNames| < 2 then Err("IndexError: list index out of range")
    else
      var names := link.sortedFieldsNames;
      Ok("DELETE FROM " + link.tableName + " WHERE " + PairTest(names[0], " = ", Str(id0), names[1], Str(id1)) + ";")
  }

  // ---------------------------------------------------------------------------
  // Select
  // ---------------------------------------------------------------------------

  /** `JOIN` stays `JOIN`; any other join type, `None` included, is a `LEFT JOIN`. */
  function JoinType(t: Option<string>): (r: string)
    ensures r == JOIN <==> t == Some(JOIN)
    ensures r != JOIN ==> r == LEFT_JOIN
  {
    if t == Some(JOIN) then JOIN else LEFT_JOIN
  }

  /** The source of the join holds a foreign key to its destination. */
  predicate ForwardKey(reg: Registry, j: Join)
    requires j.src in reg
  {
    j.dest in reg[j.src].relClass && reg[j.src].relClass[j.dest].kind.ForeignKey?
  }

  /** The destination of the join holds a foreign key to its source. */
  predicate BackwardKey(reg: Registry, j: Join)
    requires j.dest in reg
  {
    j.src in reg[j.dest].relClass && reg[j.dest].relClass[j.src].kind.ForeignKey?
  }

  predicate Known(reg: Registry, joins: seq<Join>) {
    forall i :: 0 <= i < |joins| ==> joins[i].src in reg && joins[i].dest in reg
  }

  /**
   * One join clause: `<type> <dest table> on (<a> = <b>) `, the columns taken
   * from the foreign key in whichever direction exists, the source's first.
   * Two tables without a key between them raise "Logic error".
   */
  function JoinClause(reg: Registry, j: Join): (r: Result<string>)
    requires j.src in reg && j.dest in reg
    ensures r.Ok? <==> ForwardKey(reg, j) || BackwardKey(reg, j)
    ensures r.Err? ==> r.msg == "Logic error"
    ensures ForwardKey(reg, j) ==>
              var f := reg[j.src].relClass[j.dest];
              r == Ok(JoinType(j.jointType) + " " + reg[j.dest].tableName + " on (" + reg[j.src].tableName + "." + f.name
                      + " = " + reg[j.dest].tableName + "." + f.kind.reference.name + ") ")
    ensures !ForwardKey(reg, j) && BackwardKey(reg, j) ==>
              var f := reg[j.dest].relClass[j.src];
              r == Ok(JoinType(j.jointType) + " " + reg[j.dest].tableName + " on (" + reg[j.src].tableName + "." + f.kind.reference.name
                      + " = " + reg[j.dest].tableName + "." + f.name + ") ")
  {
    var src := reg[j.src];
    var dest := reg[j.dest];
    var kind := JoinType(j.jointType) + " " + dest.tableName + " on (";
    if ForwardKey(reg, j) then
      var f := src.relClass[j.dest];
      Ok(kind + src.tableName + "." + f.name + " = " + dest.tableName + "." + f.kind.reference.name + ") ")
    else if BackwardKey(reg, j) then
      var f := dest.relClass[j.src];
      Ok(kind + src.tableName + "." + f.kind.reference.name + " = " + dest.tableName + "." + f.name + ") ")
    else Err("Logic error")
  }

  /** The join clauses, one per join in list order, concatenated. */
  function JoinText(reg: Registry, joins: seq<Join>): (r: Result<string>)
    requires Known(reg, joins)
    ensures r.Ok? <==> forall i :: 0 <= i < |joins| ==> JoinClause(reg, joins[i]).Ok?
    ensures joins == [] ==> r == Ok("")
  {
    if joins == [] then Ok("")
    else
      var init := JoinText(reg, joins[..|joins| - 1]);
      var last := JoinClause(reg, joins[|joins| - 1]);
      assert forall i :: 0 <= i < |joins| - 1 ==> joins[..|joins| - 1][i] == joins[i];
      if init.Err? then init
      else if last.Err? then Err(last.msg)
      else Ok(init.value + last.value)
  }

  /** The where text of a select; a tree is rendered by `render`, standing for `Expression.parse`. */
  function SelectWhereText(where: Where, render: Node -> string): (r: Result<string>)
    ensures !Present(where) ==> r == Ok("")
    ensures where.Sql? && where.text != "" ==> r == Ok("WHERE " + where.text)
    ensures where.Tree? ==> r == Ok("WHERE " + render(where.node))
    ensures where.Conditions? && where.conds != [] ==> r.Err?
  {
    if !Present(where) then Ok("")
    else
      match where
      case Sql(s) => Ok("WHERE " + s)
      case Tree(n) => Ok("WHERE " + render(n))
      case Conditions(_) => Err("AttributeError: 'list' object has no attribute 'parse'")
      case NoWhere => Ok("")
  }

  /** `{0} FROM {1} {2} {3}{4}` */
  function SelectStatement(kind: string, table: string, joint: string, where: string, end: string): (r: string)
    ensures kind + " FROM " + table + " " <= r && EndsWith(r, end)
  {
    PrefixOfAppended(kind + " FROM " + table + " ", joint + " " + where + end);
    EndsWithAppended(kind + " FROM " + table + " " + joint + " " + where, end);
    kind + " FROM " + table + " " + joint + " " + where + end
  }

  /** The statement `generate_select` builds, from the clauses above. */
  function SelectText(reg: Registry, model: Schema, joins: seq<Join>, where: Where, delete: bool, render: Node -> string): (r: Result<string>)
    requires Known(reg, joins)
    ensures r.Ok? <==> JoinText(reg, joins).Ok? && SelectWhereText(where, render).Ok?
  {
    var joint :- JoinText(reg, joins);
    var w :- SelectWhereText(where, render);
    var kind := if delete then "DELETE" else "SELECT *";
    var end := if delete && model.primaryKey then " RETURNING id;" else ";";
    Ok(SelectStatement(kind, model.tableName, joint, w, end))
  }

  /**
   * A select statement starts with its kind and table, a delete on a table
   * with a primary key returns the ids, and every statement ends with `;`.
   */
  lemma SelectTextShape(reg: Registry, model: Schema, joins: seq<Join>, where: Where, delete: bool, render: Node -> string)
    requires Known(reg, joins) && SelectText(reg, model, joins, where, delete, render).Ok?
    ensures var r := SelectText(reg, model, joins, where, delete, render).value;
            (delete ==> "DELETE" + " FROM " + model.tableName + " " <= r) &&
            (!delete ==> "SELECT *" + " FROM " + model.tableName + " " <= r) &&
            (delete && model.primaryKey ==> EndsWith(r, " RETURNING id;")) &&
            EndsWith(r, ";")
  {
    var joint := JoinText(reg, joins).value;
    var w := SelectWhereText(where, render).value;
    var end := if delete && model.primaryKey then " RETURNING id;" else ";";
    if delete {
      var r := SelectStatement("DELETE", model.tableName, joint, w, end);
      EndsWithSemicolon(end);
      EndsWithTrans(r, end, ";");
    } else {
      var r := SelectStatement("SELECT *", model.tableName, joint, w, ";");
      EndsWithSemicolon(";");
    }
  }

  /** Both endings of a select statement close it with a semicolon. */
  lemma EndsWithSemicolon(end: string)
    requires end == " RETURNING id;" || end == ";"
    ensures EndsWith(end, ";")
  {
    assert end[|end| - 1..] == [end[|end| - 1]];
  }

  /**
   * `generate_select`: the join clauses are accumulated over `_joins` in
   * order, then the where text and the statement kind are added.
   */
  method GenerateSelect(reg: Registry, model: Schema, joins: seq<Join>, where: Where, delete: bool, render: Node -> string)
      returns (r: Result<string>)
    requires Known(reg, joins)
    ensures r.Ok? <==> SelectText(reg, model, joins, where, delete, render).Ok?
    ensures r.Ok? ==> r.value == SelectText(reg, model, joins, where, delete, render).value
  {
    var joint := "";
    var i := 0;
    while i < |joins|
      invariant 0 <= i <= |joins|
      invariant JoinText(reg, joins[..i]) == Ok(joint)
    {
      assert joins[..i + 1][..i] == joins[..i];
      var clause := JoinClause(reg, joins[i]);
      if clause.Err? {
        JoinTextPrefixFails(reg, joins, i + 1);
        return Err(clause.msg);
      }
      joint := joint + clause.value;
      i := i + 1;
    }
    assert joins[..i] == joins;
    var w := SelectWhereText(where, render);
    if w.Err? {
      return Err(w.msg);
    }
    var kind := if delete then "DELETE" else "SELECT *";
    var end := if delete && model.primaryKey then " RETURNING id;" else ";";
    r := Ok(SelectStatement(kind, model.tableName, joint, w.value, end));
  }

  /** A join between unrelated tables makes the whole select fail. */
  lemma JoinTextPrefixFails(reg: Registry, joins: seq<Join>, k: nat)
    requires Known(reg, joins) && k <= |joins|
    requires Known(reg, joins[..k]) && JoinText(reg, joins[..k]).Err?
    ensures JoinText(reg, joins).Err?
  {
    var j :| 0 <= j < k && JoinClause(reg, joins[..k][j]).Err?;
    assert joins[..k][j] == joins[j];
  }

  /** A select over joins fails exactly when some join relates two tables with no key between them. */
  lemma SelectFailsOnUnrelatedJoin(reg: Registry, model: Schema, joins: seq<Join>, where: Where, delete: bool, render: Node -> string)
    requires Known(reg, joins) && SelectWhereText(where, render).Ok?
    ensures SelectText(reg, model, joins, where, delete, render).Err? <==>
            exists i :: 0 <= i < |joins| && !ForwardKey(reg, joins[i]) && !BackwardKey(reg, joins[i])
  {
    if SelectText(reg, model, joins, where, delete, render).Err? {
      var i :| 0 <= i < |joins| && JoinClause(reg, joins[i]).Err?;
    }
  }
}
