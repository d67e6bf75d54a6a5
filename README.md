# Kameleon core in Dafny

Kameleon is a small Python ORM for Twisted. A model class declares its fields.
A metaclass collects those fields into a `ModelOptions` object, the model's
`_meta`, which holds:

- the table name;
- the fields, in the `order` list's order when one is given and otherwise in
  the iteration order of the class dictionary (a Python 2 `dict`, so hash
  order);
- the forward relations (`rel`), the reverse relations (`reverse_rel`) and the
  related classes (`rel_class`).

Query objects (`SelectQuery`, `AddQuery`, `RemoveQuery`, `UpdateQuery`) collect
their clauses. The PostgreSQL backend turns them into SQL text. It also turns
the returned rows back into model instances (`parse_select`), building the nest
of joined objects. Instances keep a `dictValues` map of column values beside
their attributes, and `save()` chooses between an update and an insert.

This project models that core:

- **Fields**: field values and the operator table. It covers column
  definitions (`create_field`, `get_db_field`), the quoting of `insert_format`,
  and the `Expression` nodes built by `==` and `&`.
- **Models**: `ModelOptions` as a class with the same fields, mutated by
  `add_field` and by the fields' `add_to_model`. The metaclass registration
  (`BaseModel.__new__`) is modelled by the methods that call them.
  - A frozen `Schema` value is what query time reads. A `Registry` maps class
    names to schemas.
  - Instances are values in an arena (`seq<Instance>`). A reference to another
    instance is its index (`Ref`, `List` of indices).
  - `Model.__init__`, `__setattr__`, the list updates of `add`/`remove` and
    the decision logic of `save` are functions on that arena.
- **QueryParts and Queries**: the `Join` record and the `where` reduction. The
  four query classes are `class`es whose methods update their fields like the
  Python objects do.
- **Postgresql**: every SQL generator of the backend, as functions or as
  methods with loops where the source loops.
- **Hydration**: `parse_select` as imperative Dafny over the arena. It walks
  the rows with the same `current`/`rel`/`pos` bookkeeping (except for a join
  from a class to itself, as "## Left out" says). The proofs show
  that `class_list` holds one root per distinct root slice, in the order first
  seen, and that every instance built comes from some row's slice. On a
  *sound* select (`Hydration.Sound`: each class joined once, each join's
  source placed before it, and relation fields of the kinds the wiring
  expects) over rows shaped as a chain of left joins returns them, the walk
  never fails and every instance made is linked to its parent as its join
  says. A join whose source is never placed fails on any row.
- **Records**: the model-level class methods `create_table`, `delete_table`,
  `add`, `remove` and `save`, written over the queries and the SQL generators.

The database connection is never modelled. A query's statement text comes out
of the model. The rows it would return go in as a parameter (`store`).

## Model

| member | source | states |
|---|---|---|
| Fields.OpMapDefined | kameleon/model/fields/base.py:57-83 | every operator's spelling is a key of `OP_MAP` |
| Fields.NewCharField | kameleon/model/fields/charField.py:32-34 | a new char field is unbound (no name, no model), keeps `unique`/`salt`, and its `max_length` defaults to 255 |
| Fields.NewForeignKey | kameleon/model/fields/foreignKeyField.py:31-38 | construction fails exactly when no reference is given and the peer has no `id` field; otherwise the reference is the given one or the peer's `id`, and the flags and names are stored unchanged |
| Fields.EffectiveRelatedName | kameleon/model/fields/foreignKeyField.py:44 | the given related name wins; an empty one becomes the owner's model name followed by `s` |
| Fields.GetDbField | kameleon/model/fields/base.py:130-134 | without a database a field's type is its own tag (`CHAR` for char fields); with one it is the database's type for that tag, char fields adding `(max_length)`; a database without the tag (`CHAR` included) fails with `KeyError`; relation fields have none |
| Postgresql.CharColumnsAreVarchar | kameleon/model/fields/charField.py:36-42 | on PostgreSQL a char field's type is `varchar(n)`, with n = 255 by default |
| Fields.CharCreateField | kameleon/model/fields/charField.py:44-51 | the column fails exactly when the model has no database with a `CHAR` type; otherwise it is exactly `name type(max_length)`, followed by ` UNIQUE` exactly when the field is unique |
| Fields.ForeignKeyCreateField | kameleon/model/fields/foreignKeyField.py:60-73 | the column exists exactly when the referenced field has a database type, and starts `name type REFERENCES table(column)` |
| Fields.ForeignKeyCreateFieldFlags | kameleon/model/fields/foreignKeyField.py:64-71 | the suffix after the column head decodes back to exactly the field's `on_delete`, `on_update` and `unique` flags |
| Fields.ForeignKeySuffixesRoundTrip | kameleon/model/fields/foreignKeyField.py:64-71 | the three optional suffixes can be decoded back to the three flags that produced them |
| Fields.QuoteFormat | kameleon/model/fields/charField.py:53-55 | the formatted value is the value's text between two single quotes |
| Models.InsertFormat | kameleon/model/fields/foreignKeyField.py:75-77 | char and foreign-key fields quote the value |
| Fields.NewExpression | kameleon/model/fields/base.py:147-152 | an expression node stores its operands and operator, is not flat and is not negated |
| Fields.NodeEq | kameleon/model/fields/base.py:98-102 | `==` builds an `IS` expression exactly when the right side is `None`, else an `=` expression |
| Fields.NodeAnd | kameleon/model/fields/base.py:104-106 | `&` builds a fresh, non-flat `AND` expression whose left operand is the left node and whose right operand is the right node as a sub-node |
| Models.TableName | kameleon/model/base.py:67 | a given table name is lower-cased; otherwise the model name is used |
| Models.ModelOptions.constructor | kameleon/model/base.py:50-112 | the options start with the given settings, the lower-cased class name, the derived table name and empty field and relation maps |
| Models.ModelOptions.AddField | kameleon/model/base.py:114-126 | a field whose name is already present changes nothing; otherwise it is added to `fields`, `sorted_fields` and `sorted_fields_names` together, and the relation maps are untouched |
| Models.ModelOptions.Snapshot | kameleon/model/base.py:45-112 | the frozen schema carries the options' fields and names and is well formed when the options are |
| Models.FieldAddToModel | kameleon/model/fields/base.py:136-139 | the field is bound to the name and the model, then added as by `add_field` |
| Models.ForeignKeyAddToModel | kameleon/model/fields/foreignKeyField.py:40-58 | the key is bound and added; the two conflict warnings fire exactly in their source conditions; `rel[name]` and `rel_class[peer]` point at the key; the peer gets the matching reverse field under the related name |
| Models.ReferenceFor | kameleon/model/fields/foreignKeyField.py:57-58 | the reverse field is named after the related name, belongs to the peer and points back at the key's model and name |
| Models.ForwardAndReverseArePaired | kameleon/model/fields/foreignKeyField.py:54-58 | the reverse field registered on the peer names the forward key and its model, so each side can find the other |
| Models.Ordered | kameleon/model/base.py:152-155 | with an `order` list, exactly the listed names that the class declares are taken, each with its declared field, and no other attribute |
| Models.OrderedAppend | kameleon/model/base.py:152-155 | taking the declared names splits over the parts of the `order` list, so they come in the order the list gives |
| Models.Public | kameleon/model/base.py:157-159 | without an `order` list, exactly the attributes whose names do not start with `_` are kept |
| Models.PublicAppend | kameleon/model/base.py:157-159 | dropping the private attributes splits over the parts of the attribute list, so the kept ones stay in the order `attrs.items()` yields them |
| Models.RegisterAll | kameleon/model/base.py:176-184 | after registering each attribute, `sorted_fields_names` is the distinct list of names in registration order and no earlier field is lost |
| Models.DeclareModel | kameleon/model/base.py:133-186 | for a class dictionary with each name once, a plain model's `sorted_fields_names` is the distinct list of declared names in registration order, with `id` first when it has a primary key |
| Models.DeclareLinkTable | kameleon/model/base.py:149-165 | for a class dictionary with each name once, a link table with fewer than two link attributes fails (before anything changes); otherwise each link key is registered, related-named after the other |
| Models.RegisterLinks | kameleon/model/base.py:161-165 | the two link keys are registered in order and each points at the other's name as related name |
| Models.StoredValue | kameleon/model/base.py:233-239 | a model instance assigned to a foreign key stores the referenced column of that instance; any other value is stored as given |
| Models.NewInstance | kameleon/model/base.py:193-213 | `dictValues` has one entry per field, plus `id` on models with a primary key; unset fields are `None`; reverse relations start as empty lists |
| Models.NewInstancePlain | kameleon/model/base.py:198-201 | plain column values are stored in `dictValues` exactly as passed |
| Models.SetAttr | kameleon/model/base.py:218-239 | the attribute is always set; only names in `dictValues` update it, other entries are unchanged, and a name without a field fails |
| Models.SetForeignKeyStoresReferencedColumn | kameleon/model/base.py:235-237 | setting a foreign key to an instance keeps the instance as attribute and stores its referenced column in `dictValues` |
| Models.AppendLink | kameleon/model/base.py:332-340 | the object's collection gains the other object at its end (no de-duplication), a falsy value becomes a one-element list, a truthy non-list fails, and nothing else in the arena changes; it succeeds exactly when the attribute exists, is a list or falsy, and, if it is a column, has a field |
| Models.Appended | kameleon/model/base.py:333-338 | a list grows by the other object at its end; a falsy value becomes `[other]` |
| Models.RemoveFirst | kameleon/model/base.py:355-356 | `list.remove`: when the object is present exactly its first occurrence is taken out and the rest keep their order; otherwise the list is unchanged |
| Models.RemoveFirstCount | kameleon/model/base.py:355-356 | as multisets, removal takes out exactly one occurrence of the object and nothing else |
| Models.RemoveLink | kameleon/model/base.py:355-359 | removal succeeds exactly when the attribute is a list, and is the identity when the other object is absent; otherwise only that object changes: its list loses the first occurrence, and so does a `dictValues` entry of the same name, which shares the list |
| Models.SaveValues | kameleon/model/base.py:374-375 | every `dictValues` entry is formatted by its field's `insert_format`; it fails exactly when an entry has no field |
| Models.Without | kameleon/model/base.py:386 | deleting a key keeps every other entry and no entry with that key |
| Models.SavePlan | kameleon/model/base.py:374-392 | without a primary key `save` inserts all values; with one it updates when `id` is truthy and otherwise inserts without `id`, returning the key |
| QueryParts.FoldAnd | kameleon/model/query/selectQuery.py:61-66 | reducing no clauses fails, one clause is kept as is, several become an `AND` tree |
| QueryParts.FoldAndPair | kameleon/model/query/selectQuery.py:65 | two conditions reduce to their `&` |
| QueryParts.FoldAndSnoc | kameleon/model/query/selectQuery.py:65 | the reduction is left-nested: one more condition wraps the previous tree |
| Queries.SelectQuery.constructor | kameleon/model/query/selectQuery.py:45-59 | a new query has no joins, no where clause, no results and joins from its own model |
| Queries.SelectQuery.SetWhere | kameleon/model/query/selectQuery.py:61-66 | `where` becomes the `&` reduction of the clauses, fails on none, and the rest of the query is unchanged |
| Queries.SelectQuery.Switch | kameleon/model/query/selectQuery.py:68-73 | only the join source changes |
| Queries.SelectQuery.AddJoin | kameleon/model/query/selectQuery.py:75-83 | one join from the current source to the destination is appended and the destination becomes the source |
| Queries.SelectQuery.SetDelete | kameleon/model/query/selectQuery.py:85-90 | only the delete flag changes |
| Queries.SelectQuery.Execute | kameleon/model/query/selectQuery.py:92-106 | on success the statement was generated, `_results` holds the roots of the parse and `_total` their count; without joins the results are exactly one instance per row; with joins the roots, the arena and the links between instances are those of `parse_select`; the execute succeeds on a sound select over consistent rows and fails when a join's source is never placed |
| Queries.ParseResults | kameleon/model/query/selectQuery.py:104-105 | the parse `execute` relies on: without joins one instance per row in row order; with joins one root per distinct root slice and every instance linked as its join says, success on a sound select over consistent rows, failure when a join's source is never placed; every result an index into the returned arena |
| Queries.SelectQuery.GetItem | kameleon/model/query/selectQuery.py:112-118 | no results give an empty list; too large an index gives the last result; other indices follow Python list indexing, including negative ones and their `IndexError` |
| Queries.IndexOf | kameleon/model/query/mTomQuery.py:38 | the first position of the name, or `ValueError` when it is absent |
| Queries.LinkOrder | kameleon/model/query/mTomQuery.py:36-38 | sorting succeeds exactly when both model names are columns of the link table; the result is a permutation of the two objects in column order |
| Queries.LinkOrderSymmetric | kameleon/model/query/mTomQuery.py:36-38 | for objects of different models the order of the arguments does not matter |
| Queries.LinkOrderSameModel | kameleon/model/query/mTomQuery.py:38 | the sort is stable: objects of the same model keep the given order |
| Queries.AddQuery.Make | kameleon/model/query/mTomQuery.py:34-38 | the query holds the two objects in link-table column order, or fails as the sort does |
| Queries.AddQuery.Execute | kameleon/model/query/mTomQuery.py:40-47 | a non-link table issues nothing; a link table issues exactly the `generate_add` statement for the stored objects' ids |
| Queries.RemoveQuery.Make | kameleon/model/query/mTomQuery.py:50-53 | as for `AddQuery` |
| Queries.RemoveQuery.Execute | kameleon/model/query/mTomQuery.py:55-62 | a non-link table issues nothing; a link table issues exactly the `generate_remove` statement |
| Queries.UpdateQuery.constructor | kameleon/model/query/updateQuery.py:34-38 | `return_id` is the model's `primary_key` |
| Queries.UpdateQuery.Execute | kameleon/model/query/updateQuery.py:40-52 | exactly one call is made, a query when `return_id` is set and an operation otherwise; the result is the first column of the first row, `None` without rows, or an `IndexError` |
| Postgresql.CreateTableTitle | kameleon/databases/postgresql.py:106-107 | the title opens `CREATE TABLE name (` |
| Postgresql.CreateTableField | kameleon/databases/postgresql.py:112-113 | the statement so far, then the column and a comma |
| Postgresql.CreateTableFieldEnd | kameleon/databases/postgresql.py:109-110 | the statement so far, then the column and `);` |
| Postgresql.CreateUnique | kameleon/databases/postgresql.py:115-116 | the statement so far, then the `UNIQUE (...)` constraint of the joined names |
| Postgresql.DeleteTable | kameleon/databases/postgresql.py:118-124 | `DROP TABLE IF EXISTS name`, ` CASCADE` exactly when cascading, and a closing `;` |
| Postgresql.GenerateInsert | kameleon/databases/postgresql.py:126-142 | the statement is exactly `INSERT INTO table (keys) VALUES (values)`, then the conflict clause when conflict columns are given, then ` RETURNING id;` or `;`; it ends in ` RETURNING id;` exactly when the id is returned |
| Postgresql.DeleteCondition | kameleon/databases/postgresql.py:157 | a condition renders as `table.column op 'value'`; it fails when its left side is not a field of a known model |
| Postgresql.Conditions | kameleon/databases/postgresql.py:152-158 | all conditions render, in order, or the whole list fails |
| Postgresql.DeleteWhereText | kameleon/databases/postgresql.py:146-158 | no clause gives nothing; a string clause gives `WHERE text`; a list of conditions gives `WHERE` followed by them |
| Postgresql.AccumulateConditions | kameleon/databases/postgresql.py:148-158 | the loop's text is `WHERE ` then the rendered conditions joined by ` AND ` |
| Postgresql.GenerateDelete | kameleon/databases/postgresql.py:144-161 | `DELETE FROM table where;` with the where text above, failing exactly when that text does |
| Postgresql.GenerateUpdate | kameleon/databases/postgresql.py:163-184 | an update needs a primary key and an `id` value (it fails otherwise); the `id` leaves the values; the statement is exactly `UPDATE table SET (...)=(...) WHERE id = x`, then ` RETURNING id;` when the id is returned and `;` otherwise |
| Postgresql.GenerateAdd | kameleon/databases/postgresql.py:186-197 | it fails exactly when the link table has fewer than two columns; otherwise it is exactly the insert of the two ids into the first two columns, guarded by `NOT EXISTS` on a select testing that same column/id pair |
| Postgresql.GenerateRemove | kameleon/databases/postgresql.py:199-209 | it fails exactly when the link table has fewer than two columns; otherwise it is exactly the delete of the row whose first two columns hold the two ids |
| Postgresql.JoinType | kameleon/databases/postgresql.py:219-223 | `JOIN` exactly when asked for, otherwise `LEFT JOIN` |
| Postgresql.JoinClause | kameleon/databases/postgresql.py:225-236 | it follows the source's foreign key to the destination, or else the destination's key back to the source; with neither it fails with `Logic error` |
| Postgresql.JoinText | kameleon/databases/postgresql.py:214-236 | the join text exists exactly when every join has a key between its two models |
| Postgresql.SelectWhereText | kameleon/databases/postgresql.py:238-245 | no clause gives nothing, a string gives `WHERE text`, and an expression tree gives `WHERE` and its rendering |
| Postgresql.SelectText | kameleon/databases/postgresql.py:211-259 | the statement exists exactly when the joins and the where clause render |
| Postgresql.SelectTextShape | kameleon/databases/postgresql.py:247-257 | a plain query starts `SELECT * FROM table`; a delete starts `DELETE FROM table` and ends in ` RETURNING id;` on models with a primary key |
| Postgresql.GenerateSelect | kameleon/databases/postgresql.py:211-259 | the loop over the joins builds exactly the statement of `SelectText` |
| Postgresql.SelectFailsOnUnrelatedJoin | kameleon/databases/postgresql.py:225-234 | a select fails exactly when some join has no key between its two models |
| Hydration.ZipMapKeys | kameleon/databases/postgresql.py:280 | `dict(zip(names, values))` has only the names as keys, and every name that has a value |
| Hydration.ZipMapAt | kameleon/databases/postgresql.py:280 | name k maps to value k |
| Hydration.FreshColumns | kameleon/databases/postgresql.py:280-281 | an instance built from a slice has column k of the slice as the value of field k |
| Hydration.PySlice | kameleon/databases/postgresql.py:272 | Python slicing: the in-range part of the row, clipped at its end |
| Hydration.ParsePlain | kameleon/databases/postgresql.py:352-355 | without joins, one new instance per row, built from the whole row and listed in row order; the arena is only extended |
| Hydration.RootStep | kameleon/databases/postgresql.py:271-287 | the first row starts `pos`/`rel`; the root slice becomes a key of `models_class`; a slice not seen before creates exactly one instance, from that slice, and appends it to `class_list`; a seen one creates nothing; `current[0]` is the slice's entry |
| Hydration.RootEntry | kameleon/databases/postgresql.py:279-287 | the slice's entry (made on first sighting) becomes `current[0]`, holding an instance of the queried class |
| Hydration.NewRoot | kameleon/databases/postgresql.py:279-285 | a seen slice changes nothing; a new one adds one instance built from it to the arena, to `models_class` and to `class_list` |
| Hydration.StartWalk | kameleon/databases/postgresql.py:275-277 | before the first root `pos` maps the queried class to 0 and `rel` is `[None]`; later nothing changes |
| Hydration.ChildStep | kameleon/databases/postgresql.py:299-324 | an all-`None` slice creates nothing and records a `None` entry; a slice already under the parent is reused; a new one creates exactly one instance from that slice, and the step fails exactly when its wiring does |
| Hydration.MakeChild | kameleon/databases/postgresql.py:309-350 | a new child is built from the slice, registered under the parent entry it is given and made current; the step fails exactly when the wiring fails |
| Hydration.ChildAt | kameleon/databases/postgresql.py:299-350 | on a sound select and a consistent row the child step succeeds; what it makes is fresh from the slice and wired to its peer |
| Hydration.JoinStep | kameleon/databases/postgresql.py:289-350 | a join whose source has no position yet fails; on a sound select and a consistent row it succeeds; at most one instance is created, from the join's slice, wired to its peer, and older objects are kept |
| Hydration.JoinAt | kameleon/databases/postgresql.py:289-293 | the join's slice is the row's columns at the join's offset, and the next offset follows it; then the join step above |
| Hydration.JoinsNext | kameleon/databases/postgresql.py:289-350 | the invariant over the joins of a row read so far survives one more join |
| Hydration.Place | kameleon/databases/postgresql.py:295-297 | on the first row the destination gets position `i` and `rel[i]` is the source's position, failing exactly when the source was not placed |
| Hydration.PlaceSound | kameleon/databases/postgresql.py:295-297 | on a sound select placing a join never fails |
| Hydration.PlacedAll | kameleon/databases/postgresql.py:295-297 | after one row every join's source was placed before the join |
| Hydration.PosAtOf | kameleon/databases/postgresql.py:276-296 | on a select where each class appears once, the class at position m stays at m in every later `pos` |
| Hydration.Wire | kameleon/databases/postgresql.py:327-350 | a source that is not positioned fails; a plain model joined to a link table wires nothing; a missing parent between two plain models fails; wiring only changes existing objects |
| Hydration.WireLink | kameleon/databases/postgresql.py:328-334 | through a link table, the new object and the object on the far side are appended to each other's collections |
| Hydration.WireKey | kameleon/databases/postgresql.py:336-347 | by key: a foreign key appends the parent to the new object's collection and sets the parent's attribute; a reverse side appends the new object to the parent's collection and sets the back attribute; no relation field fails |
| Hydration.WireKeyOk | kameleon/databases/postgresql.py:336-345 | wiring by key succeeds when the relation field wires (its collection exists and the attribute can be set) |
| Hydration.WireLinkOk | kameleon/databases/postgresql.py:328-334 | wiring through a link table succeeds when both far-end collections exist |
| Hydration.NewWires | kameleon/databases/postgresql.py:327-350 | on a sound select and a consistent row the wiring of a new child never raises |
| Hydration.NewWired | kameleon/databases/postgresql.py:327-350 | after wiring, the new child and its peer hold each other as the join says |
| Hydration.LinkWired | kameleon/databases/postgresql.py:328-334 | through a link table, each of the new object and the far-side object holds the other in its collection |
| Hydration.KeyWired | kameleon/databases/postgresql.py:336-345 | by key, the side that is a collection holds the other |
| Hydration.JoinLoop | kameleon/databases/postgresql.py:289-350 | over all joins of a row, `rel` gets filled, the roots are unchanged, every instance made is logged with its slice and wired to its peer, and on a sound select over a consistent row the loop succeeds |
| Hydration.HydrateRow | kameleon/databases/postgresql.py:270-350 | one row adds to the arena exactly the instances logged for it, each from that row's slice at its position and wired to its peer; on a sound select over a consistent row it succeeds |
| Hydration.RowStep | kameleon/databases/postgresql.py:270-350 | the invariant over the rows read so far survives one more row |
| Hydration.NextRow | kameleon/databases/postgresql.py:270-350 | row n is read on top of what the earlier rows built; on a sound select over a consistent row it succeeds |
| Hydration.ParseJoined | kameleon/databases/postgresql.py:264-350 | with joins, older objects stay untouched, the log of instances made is complete, `class_list` is increasing with one root per distinct root slice, and on a sound select every instance made is linked to its peer; a sound select over consistent rows succeeds, and a join whose source is never placed fails on any row |
| Hydration.JoinedRoots | kameleon/databases/postgresql.py:279-285 | the k-th entry of `class_list` is an instance of the queried model built from the k-th distinct root slice |
| Hydration.ParseSelect | kameleon/databases/postgresql.py:261-357 | `parse_select` as a whole: the plain and joined results above, with when the joined walk succeeds and when it fails |
| Records.CreateTable | kameleon/model/base.py:257-274 | the loop builds `CREATE TABLE` with one column per field in order, commas between them, the `UNIQUE` constraint before the last column, and `);`; it fails exactly when some column cannot be rendered |
| Records.AppendColumn | kameleon/model/base.py:265-271 | one pass of the loop keeps the text in the layout: a middle column extends it, the last closes it as `TableLayout` (unique clause included) |
| Records.LayoutStep | kameleon/model/base.py:270-271 | one more middle column keeps the statement in the expected layout |
| Records.LayoutEnd | kameleon/model/base.py:266-269 | the last column, with or without the unique constraint, closes the layout |
| Records.ColumnsPrefixFails | kameleon/model/base.py:264-265 | a column that fails makes the whole statement fail |
| Records.UniqueBeforeLastColumn | kameleon/model/base.py:266-269 | with a unique list, the statement ends with the constraint followed by the last column and `);` |
| Records.DeleteTableStatement | kameleon/model/base.py:278-283 | dropping a model's table always cascades |
| Records.PartyOf | kameleon/model/query/mTomQuery.py:38 | a link query reads an object's model name and its `id` |
| Records.Add | kameleon/model/base.py:322-340 | a non-link table fails; the add statement is sent exactly when both models name link columns and both objects have ids, and it stays sent when appending raises afterwards; the call succeeds exactly when, in addition, both collections can be appended to; then each object's collection named after the other's model gains the other at its end (or becomes `[other]` when falsy), and every other object is unchanged |
| Records.Remove | kameleon/model/base.py:345-359 | a non-link table fails; the remove statement is sent exactly when both models name link columns and both objects have ids, and it stays sent when a collection test raises afterwards; the call succeeds exactly when, in addition, both collections are lists; then each object leaves the other's collection once (with the `dictValues` entry that shares that list), and every other object is unchanged |
| Records.RemoveFirstAppended | kameleon/model/base.py:332-359 | removing an object that was just added to a list it was not in restores the list |
| Records.ReturnedKey | kameleon/model/query/updateQuery.py:46-48 | no rows give `None`; otherwise the first column of the first row, or `IndexError` |
| Records.Carry | kameleon/model/base.py:376-390 | an insert sends the values and sets `id` to the returned key when it asks for one; an update goes through `UpdateQuery` and sets `id` to what it returns |
| Records.Save | kameleon/model/base.py:370-392 | `save()` fails without sending anything when a value cannot be formatted; otherwise it carries out the `SavePlan` decision |

## Left out

- Connections and transport (`_connect`, `_close`, `runOperation`, `runQuery`, `connectionError`): I/O. Statements are model outputs, and rows come in through the `store` parameter.
- Twisted `Deferred`s and `inlineCallbacks`: each operation is modelled as synchronous.
- `propagate`, `propagate_update` and the subscription made in `Model.__init__`: they only print or talk to a WAMP router.
- Salted fields: `bcrypt` hashing in `__setattr__` is a foreign call. A salted value is stored as given.
- `Expression.parse` (in the query base class): its code is not part of this model. It appears as the `render` parameter of the select generator.
- `ReferenceField` and its `add_to_model` are not part of this model. The reverse field is assumed to be registered in the peer's `reverse_rel` under the related name and in its `rel_class` under the owner, which is what the select generator and `parse_select` read (`Models.ReferenceFor`).
- `query/base.py` (the `Query` base class) is not part of this model. Each query class carries its model schema directly.
- `InsertQuery` is not part of this model. In `save` the key an insert returns is the `insert` parameter, and the insert is recorded as the values sent.
- Field classes other than char and foreign key (integer, boolean, JSON, date, primary key, reference): only the behaviour that the core reads is modelled, as field kinds. Their column text and insert formatting are the `other` parameters.
- `Model.insert`, `update`, `create`, `all` and `delete`: one-line wrappers that build a query object. `all` is `SelectQuery`'s constructor, `delete` is `SetDelete`, and `create` is `NewInstance` followed by `Save`.
- `SelectQuery.__iter__`: it only iterates `_results`.
- `print` warnings (duplicate field, foreign-key conflicts): not emitted. `ForeignKeyAddToModel` reports their conditions as booleans.
- Postgresql.GenerateUpdate: it returns the statement together with the values left after `id` is removed. The source returns only the statement and relies on deleting `id` from the query's own dictionary, while `UpdateQuery.execute` unpacks the result as a `(query, values)` pair. The model passes the pair on and does not reproduce that unpacking.
- Records.Remove: says nothing about the collections when both arguments are the same instance.
- Queries.LinkOrderSymmetric: holds only for objects of different models. Same-model pairs keep the given order (`Queries.LinkOrderSameModel`).
- Hydration.ParseSelect: the result rows are plain values (`PlainRows`). Dictionary keys built with `str(...)` of a slice are modelled as the slice itself. Rows are taken to be lists, so an all-`None` slice compares equal to `[None]*n`.
- Models.SaveValues: the values come in field-registration order. The source builds a Python 2 `dict` and the SQL builders iterate its `keys()` and `values()` in hash order; the model fixes one order, and the columns and values stay paired either way.
- Models.DeclareModel / Models.DeclareLinkTable: without an `order` list the source registers the attributes in the hash order of the class `dict`, which is not the order of declaration. The model takes `attrs` as that iteration order and does not compute it, so the column order of `CREATE TABLE`, the zip in `parse_select`, the link-column order and which link comes first are stated relative to that given order. Each name occurs once in `attrs`, as in a `dict`.
- Models.DeclareModel: the class body is modelled as a list of `(name, field)` pairs, so a public attribute that is not a field (a method of the model class, say) is left out. In the source its `add_to_model` call raises `AttributeError`.
- Hydration.ParseJoined: the links it promises are the collection memberships that `append` makes. The attribute the wiring sets with `setattr` can be overwritten by a later row, and its final value is not stated.
- Hydration.ParseJoined: success is proved only for a sound select over consistent rows, and failure only for a join whose source is never placed. Between the two, the outcome is given by the walk itself and is not characterised further.
- Hydration.Sound: a sufficient condition, not an exact one. It asks that every attribute the wiring sets be a declared column of the class; the source would also set an undeclared attribute.
- Hydration.JoinStep: for a join from a class to itself (`rel[i] == i`) the model reads the parent entry `current[rel[i]]` before `current[i]` is reassigned, where the source reassigns `current[i]` first (postgresql.py:300-306 and :312-345). So on such a join the all-`None` case fails instead of registering under itself, and a new child is registered under and wired to the previous row's entry.
- Common.Str / Postgresql.OperandText: an instance, a list and a sub-expression are printed as the placeholders `<object>`, `<list>` and `<node>`, not as Python's `repr` text. Only the SQL text of a condition whose right side is such a value is affected.
- Object identity: the arena gives each instance an index. Python's aliasing of mutable lists between instances is modelled through those indices only.
- SQL quoting and escaping: the statements are built exactly as the code builds them, with no escaping.
- MySQL and the WAMP PostgreSQL backend, the management commands and the templates: outside the core.
