/**
 * `PostgresqlDatabase.parse_select` (kameleon/databases/postgresql.py):
 * turning the flat rows of a select back into model instances.
 *
 * Instances live in an arena (`seq<Instance>`) and are named by index. The
 * bookkeeping dictionaries of the source (`models_class`, the per-parent
 * child dictionaries, `current`, `pos`, `rel`) are kept as values and the
 * algorithm updates them step by step, row by row and join by join.
 */
module Hydration {
  import opened Common
  import opened Fields
  import opened Models
  import opened QueryParts
  import Postgresql

  // ---------------------------------------------------------------------------
  // Where the columns of each model sit in a row
  // ---------------------------------------------------------------------------

  /** A value a database row can hold: no model instance, no list. */
  predicate Plain(v: Value) {
    v.Null? || v.Int? || v.Text?
  }

  predicate PlainRows(rows: seq<seq<Value>>) {
    forall r, j :: 0 <= r < |rows| && 0 <= j < |rows[r]| ==> Plain(rows[r][j])
  }

  /** The classes a select reads: the queried class and every join's source and destination. */
  predicate Resolved(reg: Registry, mc: string, joins: seq<Join>) {
    mc in reg && Postgresql.Known(reg, joins)
  }

  /** The position join `ji` fills; the root class is at position 0. */
  function JoinPos(ji: nat): nat {
    ji + 1
  }

  /** The class whose columns come at position `i`: the queried class, then each join's destination. */
  function ClassAt(mc: string, joins: seq<Join>, i: nat): string
    requires i <= |joins|
  {
    if i == 0 then mc else joins[i - 1].dest
  }

  /** How many columns a class contributes to a row. */
  function Width(reg: Registry, cls: string): nat
    requires cls in reg
  {
    |reg[cls].sortedFieldsNames|
  }

  /**
   * Where position `i` starts in a row: 0 for the queried class, then each
   * position starts where the previous one's columns end.
   */
  function Offset(reg: Registry, mc: string, joins: seq<Join>, i: nat): (r: nat)
    requires Resolved(reg, mc, joins) && i <= |joins| + 1
    ensures i == 1 ==> r == Width(reg, mc)
  {
    if i == 0 then 0 else Offset(reg, mc, joins, i - 1) + Width(reg, ClassAt(mc, joins, i - 1))
  }

  /** Python's `row[a:b]` for `0 <= a <= b`: cut short by the end of the row. */
  function PySlice(row: seq<Value>, a: nat, b: nat): (r: seq<Value>)
    requires a <= b
    ensures b <= |row| ==> r == row[a..b]
    ensures |r| <= b - a
    ensures forall k :: 0 <= k < |r| ==> a + k < |row| && r[k] == row[a + k]
  {
    var lo := if a < |row| then a else |row|;
    var hi := if b < |row| then b else |row|;
    row[lo..hi]
  }

  /** The columns of position `i` in a row. */
  function SliceAt(reg: Registry, mc: string, joins: seq<Join>, row: seq<Value>, i: nat): seq<Value>
    requires Resolved(reg, mc, joins) && i <= |joins|
  {
    PySlice(row, Offset(reg, mc, joins, i), Offset(reg, mc, joins, i + 1))
  }

  /** `[None] * w`: what a left join that matched nothing leaves in a row. */
  function Nones(w: nat): seq<Value> {
    seq(w, _ => Null)
  }

  /** The queried class's columns of every row, in row order. */
  function RootSlices(reg: Registry, mc: string, joins: seq<Join>, rows: seq<seq<Value>>): (r: seq<seq<Value>>)
    requires Resolved(reg, mc, joins)
    ensures |r| == |rows|
    ensures forall k :: 0 <= k < |rows| ==> r[k] == SliceAt(reg, mc, joins, rows[k], 0)
  {
    seq(|rows|, k requires 0 <= k < |rows| => SliceAt(reg, mc, joins, rows[k], 0))
  }

  // ---------------------------------------------------------------------------
  // Building one instance from a slice
  // ---------------------------------------------------------------------------

  /** `dict(zip(names, values))`: pairs up to the shorter of the two, a later name winning. */
  function ZipMap(names: seq<string>, values: seq<Value>): map<string, Value> {
    if |names| == 0 || |values| == 0 then map[]
    else map[names[0] := values[0]] + ZipMap(names[1..], values[1..])
  }

  /** The keys of `dict(zip(names, values))` are the names that have a value. */
  lemma {:induction false} ZipMapKeys(names: seq<string>, values: seq<Value>)
    ensures forall k :: k in ZipMap(names, values) ==> k in names
    ensures forall k :: 0 <= k < |names| && k < |values| ==> names[k] in ZipMap(names, values)
  {
    if |names| > 0 && |values| > 0 {
      ZipMapKeys(names[1..], values[1..]);
      forall k | 0 <= k < |names| && k < |values|
        ensures names[k] in ZipMap(names, values)
      {
        if k > 0 {
          assert names[1..][k - 1] == names[k];
        }
      }
    }
  }

  /** Only values of the row end up in the map, so plain values stay plain. */
  lemma {:induction false} ZipMapPlain(names: seq<string>, values: seq<Value>)
    requires forall j :: 0 <= j < |values| ==> Plain(values[j])
    ensures forall k :: k in ZipMap(names, values) ==> Plain(ZipMap(names, values)[k])
  {
    if |names| > 0 && |values| > 0 {
      assert forall j :: 0 <= j < |values[1..]| ==> values[1..][j] == values[j + 1];
      ZipMapPlain(names[1..], values[1..]);
    }
  }

  /** With distinct names, every name takes the value at its own position. */
  lemma {:induction false} ZipMapAt(names: seq<string>, values: seq<Value>, k: nat)
    requires NoDup(names) && k < |names| && k < |values|
    ensures names[k] in ZipMap(names, values) && ZipMap(names, values)[names[k]] == values[k]
  {
    ZipMapKeys(names, values);
    if k > 0 {
      assert NoDup(names[1..]) by {
        forall a, b | 0 <= a < b < |names[1..]| ensures names[1..][a] != names[1..][b] {
          assert names[1..][a] == names[a + 1] && names[1..][b] == names[b + 1];
        }
      }
      ZipMapAt(names[1..], values[1..], k - 1);
      assert names[1..][k - 1] == names[k] && values[1..][k - 1] == values[k];
      assert names[k] != names[0];
    } else {
      ZipMapKeys(names[1..], values[1..]);
      assert names[0] !in names[1..] by {
        forall j | 0 <= j < |names[1..]| ensures names[1..][j] != names[0] {
          assert names[1..][j] == names[j + 1];
        }
      }
    }
  }

  /** `cls(**dict(zip(names, slice)))`: a new instance of `cls` from a slice of a row. */
  function Fresh(reg: Registry, cls: string, slice: seq<Value>): Result<Instance>
    requires cls in reg
  {
    NewInstance(reg[cls], ZipMap(reg[cls].sortedFieldsNames, slice), [])
  }

  /**
   * Built from database values, an instance does not depend on the objects
   * around it: every column holds its value as given.
   */
  lemma FreshFromPlain(reg: Registry, cls: string, slice: seq<Value>, heap: seq<Instance>)
    requires cls in reg && forall j :: 0 <= j < |slice| ==> Plain(slice[j])
    ensures Fresh(reg, cls, slice).Ok?
    ensures NewInstance(reg[cls], ZipMap(reg[cls].sortedFieldsNames, slice), heap) == Fresh(reg, cls, slice)
  {
    var s := reg[cls];
    var kw := ZipMap(s.sortedFieldsNames, slice);
    ZipMapPlain(s.sortedFieldsNames, slice);
    PlainStored(s, kw, heap);
    PlainStored(s, kw, []);
    var a := InitialValues(s, kw, heap);
    var b := InitialValues(s, kw, []);
    assert a.Keys == b.Keys;
    assert forall k :: k in a ==> a[k] == b[k];
    assert a == b;
  }

  /** A plain argument is stored as given, whatever objects exist. */
  lemma PlainStored(s: Schema, kw: map<string, Value>, heap: seq<Instance>)
    requires forall k :: k in kw ==> Plain(kw[k])
    ensures Settable(s, kw, heap)
    ensures forall k :: k in s.fields ==> StoredValue(s, k, Arg(kw, k), heap) == Ok(Arg(kw, k))
  {
    assert forall k :: k in s.fields ==> !Arg(kw, k).Ref?;
  }

  /** A fresh instance of a schema with distinct names holds the slice's values, column by column. */
  lemma FreshColumns(reg: Registry, cls: string, slice: seq<Value>, k: nat)
    requires cls in reg && reg[cls].Valid() && forall j :: 0 <= j < |slice| ==> Plain(slice[j])
    requires k < |reg[cls].sortedFieldsNames| && k < |slice|
    ensures Fresh(reg, cls, slice).Ok?
    ensures Fresh(reg, cls, slice).value.dictValues[reg[cls].sortedFieldsNames[k]] == slice[k]
  {
    FreshFromPlain(reg, cls, slice, []);
    var s := reg[cls];
    ZipMapAt(s.sortedFieldsNames, slice, k);
    ZipMapPlain(s.sortedFieldsNames, slice);
    NewInstancePlain(s, ZipMap(s.sortedFieldsNames, slice), []);
  }

  // ---------------------------------------------------------------------------
  // A select without joins
  // ---------------------------------------------------------------------------

  /** Without joins: one new instance per row, in row order. */
  method ParsePlain(reg: Registry, mc: string, rows: seq<seq<Value>>, heap0: seq<Instance>)
      returns (heap: seq<Instance>, classList: seq<nat>)
    requires mc in reg && PlainRows(rows)
    ensures |heap| == |heap0| + |rows| && heap[..|heap0|] == heap0
    ensures |classList| == |rows| && forall k :: 0 <= k < |rows| ==> classList[k] == |heap0| + k
    ensures forall k :: 0 <= k < |rows| ==> Fresh(reg, mc, rows[k]) == Ok(heap[|heap0| + k])
  {
    heap := heap0;
    classList := [];
    var s := reg[mc];
    for n := 0 to |rows|
      invariant PlainUpTo(reg, mc, rows, n, heap0, heap, classList)
    {
      var inst := NewInstance(s, ZipMap(s.sortedFieldsNames, rows[n]), heap);
      FreshFromPlain(reg, mc, rows[n], heap);
      PlainStep(reg, mc, rows, n, heap0, heap, classList, inst.value);
      classList := classList + [|heap|];
      heap := heap + [inst.value];
    }
  }

  /** The first `n` rows of a select without joins are instances, in row order, after `heap0`. */
  ghost predicate PlainUpTo(reg: Registry, mc: string, rows: seq<seq<Value>>, n: nat, heap0: seq<Instance>,
                            heap: seq<Instance>, classList: seq<nat>)
    requires mc in reg && n <= |rows|
  {
    |heap| == |heap0| + n && heap[..|heap0|] == heap0 &&
    |classList| == n && (forall k :: 0 <= k < n ==> classList[k] == |heap0| + k) &&
    forall k :: 0 <= k < n ==> Fresh(reg, mc, rows[k]) == Ok(heap[|heap0| + k])
  }

  /** The instance made for row `n` extends the arena and `class_list` by one. */
  lemma PlainStep(reg: Registry, mc: string, rows: seq<seq<Value>>, n: nat, heap0: seq<Instance>,
                  heap: seq<Instance>, classList: seq<nat>, inst: Instance)
    requires mc in reg && n < |rows| && PlainUpTo(reg, mc, rows, n, heap0, heap, classList)
    requires Fresh(reg, mc, rows[n]) == Ok(inst)
    ensures PlainUpTo(reg, mc, rows, n + 1, heap0, heap + [inst], classList + [|heap|])
  {
    var h := heap + [inst];
    assert h[..|heap0|] == heap[..|heap0|];
    forall k | 0 <= k < n + 1
      ensures Fresh(reg, mc, rows[k]) == Ok(h[|heap0| + k])
    {
      if k < n {
        assert h[|heap0| + k] == heap[|heap0| + k];
      }
    }
  }

  // ---------------------------------------------------------------------------
  // The bookkeeping of a select with joins
  // ---------------------------------------------------------------------------

  /** A key of a per-parent child dictionary: `"None"` or the text of a slice. */
  datatype ChildKey = NoneKey | SliceKey(slice: seq<Value>)

  /**
   * One of the dictionaries `parse_select` keeps per object seen: its
   * `"model"` (an instance, or `None` for a left join that matched nothing)
   * and, per position, the children already seen under it.
   */
  datatype Entry = Entry(model: Option<nat>, children: map<nat, map<ChildKey, nat>>)

  /**
   * The local state of `parse_select`: the instances, the entries (named by
   * index, as the source shares them by reference), `models_class` (the root
   * entries by slice), `current`, `pos`, `rel` and `class_list`.
   */
  datatype Walk = Walk(heap: seq<Instance>, entries: seq<Entry>, roots: map<seq<Value>, nat>,
                       current: seq<Option<nat>>, pos: map<string, nat>, rel: seq<Option<nat>>,
                       classList: seq<nat>)

  /** An entry's instance is one the walk created, of a known class; its children are entries. */
  predicate EntryOk(reg: Registry, heap: seq<Instance>, count: nat, base: nat, e: Entry) {
    (e.model.Some? ==> base <= e.model.value < |heap| && heap[e.model.value].cls in reg) &&
    (forall i, key :: i in e.children && key in e.children[i] ==> e.children[i][key] < count)
  }

  /** Every index the walk holds points into its arrays; `base` is where the walk's own instances start. */
  predicate Wf(reg: Registry, n: nat, w: Walk, base: nat) {
    |w.current| == n + 1 && |w.rel| <= n + 1 && base <= |w.heap| &&
    (forall c :: 0 <= c < |w.current| && w.current[c].Some? ==> w.current[c].value < |w.entries|) &&
    (forall e :: 0 <= e < |w.entries| ==> EntryOk(reg, w.heap, |w.entries|, base, w.entries[e])) &&
    (forall key :: key in w.roots ==> w.roots[key] < |w.entries|) &&
    (forall c :: c in w.pos ==> w.pos[c] <= n) &&
    (forall k :: 0 <= k < |w.rel| && w.rel[k].Some? ==> w.rel[k].value <= n) &&
    (forall k :: 0 <= k < |w.classList| ==> base <= w.classList[k] < |w.heap|)
  }

  /** Instances only gain attributes: no class changes, and objects older than the walk stay as they are. */
  predicate Keeps(h: seq<Instance>, h': seq<Instance>, base: nat) {
    |h| <= |h'| && forall k :: 0 <= k < |h| ==> h'[k].cls == h[k].cls && (k < base ==> h'[k] == h[k])
  }

  // ---------------------------------------------------------------------------
  // Wiring a new instance to its parent
  // ---------------------------------------------------------------------------

  /** `getattr(heap[obj], name).append(x)`: the attribute must hold a list. */
  function Append(heap: seq<Instance>, obj: nat, name: string, x: nat): (r: Result<seq<Instance>>)
    requires obj < |heap|
    ensures r.Ok? <==> name in heap[obj].attrs && heap[obj].attrs[name].List?
    ensures r.Ok? ==> |r.value| == |heap| && forall k :: 0 <= k < |heap| && k != obj ==> r.value[k] == heap[k]
    ensures r.Ok? ==> r.value[obj] == heap[obj].(attrs := heap[obj].attrs[name := List(heap[obj].attrs[name].objs + [x])])
  {
    var cur :- GetAttr(heap[obj], name);
    if cur.List? then Ok(heap[obj := heap[obj].(attrs := heap[obj].attrs[name := List(cur.objs + [x])])])
    else Err("AttributeError: object has no attribute 'append'")
  }

  /** `setattr(heap[obj], name, v)` through the instance's `__setattr__`. */
  function SetAt(reg: Registry, heap: seq<Instance>, obj: nat, name: string, v: Value): (r: Result<seq<Instance>>)
    requires obj < |heap| && heap[obj].cls in reg
    ensures r.Ok? ==> |r.value| == |heap| && forall k :: 0 <= k < |heap| && k != obj ==> r.value[k] == heap[k]
    ensures r.Ok? ==> r.value[obj].cls == heap[obj].cls && r.value[obj].attrs == heap[obj].attrs[name := v]
  {
    var inst :- SetAttr(reg[heap[obj].cls], heap[obj], name, v, heap);
    Ok(heap[obj := inst])
  }

  /** The `related_name` attribute of a relation field; other fields have none. */
  function RelatedName(f: Field): (r: Result<string>)
    ensures f.kind.ForeignKey? ==> r == Ok(f.kind.relatedName)
    ensures f.kind.Reference? ==> r == Ok(f.kind.backName)
    ensures !f.kind.ForeignKey? && !f.kind.Reference? ==> r.Err?
  {
    match f.kind
    case ForeignKey(_, _, relatedName, _, _) => Ok(relatedName)
    case Reference(_, backName) => Ok(backName)
    case _ => Err("AttributeError: 'related_name'")
  }

  /** The relation field of the parent's class towards `dest` (`parent._meta.rel_class[dest]`). */
  function KeyField(reg: Registry, heap: seq<Instance>, p: nat, dest: string): Option<Field>
    requires p < |heap| && heap[p].cls in reg
  {
    if dest in reg[heap[p].cls].relClass then Some(reg[heap[p].cls].relClass[dest]) else None
  }

  /**
   * A parent with a foreign key to the new instance's class: the parent joins
   * the new instance's reverse list and its key is set to the new instance.
   * A parent holding the reverse side: the new instance joins the parent's
   * list and the new instance's key is set to the parent. Any other field
   * raises.
   */
  function WireKey(reg: Registry, heap: seq<Instance>, dest: string, p: nat, newObj: nat): (r: Result<seq<Instance>>)
    requires p < newObj < |heap| && heap[p].cls in reg && heap[newObj].cls in reg
    ensures KeyField(reg, heap, p, dest).None? ==> r.Err?
    ensures r.Ok? ==> |r.value| == |heap| && forall k :: 0 <= k < |heap| && k != p && k != newObj ==> r.value[k] == heap[k]
    ensures r.Ok? ==> r.value[p].cls == heap[p].cls && r.value[newObj].cls == heap[newObj].cls
    ensures r.Ok? ==> KeyField(reg, heap, p, dest).Some? &&
                      (KeyField(reg, heap, p, dest).value.kind.ForeignKey? || KeyField(reg, heap, p, dest).value.kind.Reference?)
    ensures r.Ok? && KeyField(reg, heap, p, dest).value.kind.ForeignKey? ==>
              var f := KeyField(reg, heap, p, dest).value;
              f.name in r.value[p].attrs && r.value[p].attrs[f.name] == Ref(newObj) &&
              f.kind.relatedName in r.value[newObj].attrs && r.value[newObj].attrs[f.kind.relatedName].List? &&
              p in r.value[newObj].attrs[f.kind.relatedName].objs
    ensures r.Ok? && KeyField(reg, heap, p, dest).value.kind.Reference? ==>
              var f := KeyField(reg, heap, p, dest).value;
              f.name in r.value[p].attrs && r.value[p].attrs[f.name].List? && newObj in r.value[p].attrs[f.name].objs &&
              f.kind.backName in r.value[newObj].attrs && r.value[newObj].attrs[f.kind.backName] == Ref(p)
  {
    match KeyField(reg, heap, p, dest)
    case None => Err("KeyError: " + dest)
    case Some(f) =>
      if f.kind.ForeignKey? then
        var h1 :- Append(heap, newObj, f.kind.relatedName, p);
        SetAt(reg, h1, p, f.name, Ref(newObj))
      else if f.kind.Reference? then
        var h1 :- Append(heap, p, f.name, newObj);
        SetAt(reg, h1, newObj, f.kind.backName, Ref(p))
      else Err("Here Logic error")
  }

  /**
   * Through a link table: the link's field towards `dest`, and the instance
   * the link table was itself joined from (`current[rel[pos[link class]]]`),
   * when every lookup on the way succeeds.
   */
  function FarEnd(reg: Registry, n: nat, w: Walk, base: nat, p: nat, dest: string): (r: Option<(Field, nat)>)
    requires Wf(reg, n, w, base) && p < |w.heap| && w.heap[p].cls in reg
    ensures r.Some? ==> base <= r.value.1 < |w.heap| && w.heap[p].cls in w.pos &&
                        dest in reg[w.heap[p].cls].relClass && r.value.0 == reg[w.heap[p].cls].relClass[dest]
  {
    var cls := w.heap[p].cls;
    if cls !in w.pos || dest !in reg[cls].relClass then None
    else
      var index := w.pos[cls];
      if index >= |w.rel| || w.rel[index].None? || w.current[w.rel[index].value].None? then None
      else
        match w.entries[w.current[w.rel[index].value].value].model
        case None => None
        case Some(far) => Some((reg[cls].relClass[dest], far))
  }

  /**
   * The source of the join is a link table: each far end joins the other's
   * collection, the new instance's under the link field's related name and
   * the far instance's under the link field's name.
   */
  function WireLink(reg: Registry, n: nat, w: Walk, base: nat, dest: string, parent: Option<nat>, newObj: nat)
      : (r: Result<seq<Instance>>)
    requires Wf(reg, n, w, base) && base <= newObj < |w.heap|
    requires parent.Some? ==> parent.value < |w.heap| && w.heap[parent.value].cls in reg
    ensures parent.None? ==> r.Err?
    ensures r.Ok? ==> parent.Some? && FarEnd(reg, n, w, base, parent.value, dest).Some?
    ensures r.Ok? ==> |r.value| == |w.heap| && Keeps(w.heap, r.value, base)
    ensures r.Ok? ==>
              var (f, far) := FarEnd(reg, n, w, base, parent.value, dest).value;
              RelatedName(f).Ok? &&
              RelatedName(f).value in r.value[newObj].attrs && r.value[newObj].attrs[RelatedName(f).value].List? &&
              far in r.value[newObj].attrs[RelatedName(f).value].objs &&
              f.name in r.value[far].attrs && r.value[far].attrs[f.name].List? && newObj in r.value[far].attrs[f.name].objs
  {
    if parent.None? then Err("KeyError: <class 'NoneType'>")
    else
      match FarEnd(reg, n, w, base, parent.value, dest)
      case None => Err("KeyError")
      case Some((f, far)) =>
        var back :- RelatedName(f);
        var h1 :- Append(w.heap, newObj, back, far);
        Append(h1, far, f.name, newObj)
  }

  /**
   * The wiring of a new instance to the instance it was joined from: through
   * a link table, or by key for other classes; a join into a link table from
   * another class wires nothing. A join whose source was never placed
   * raises.
   */
  function Wire(reg: Registry, n: nat, w: Walk, base: nat, src: string, dest: string, parent: Option<nat>, newObj: nat)
      : (r: Result<seq<Instance>>)
    requires Wf(reg, n, w, base) && src in reg && dest in reg
    requires base <= newObj < |w.heap| && w.heap[newObj].cls in reg
    requires parent.Some? ==> base <= parent.value < newObj && w.heap[parent.value].cls in reg
    ensures src !in w.pos ==> r.Err?
    ensures src in w.pos && !reg[src].manyToMany && reg[dest].manyToMany ==> r == Ok(w.heap)
    ensures src in w.pos && !reg[src].manyToMany && !reg[dest].manyToMany && parent.None? ==> r.Err?
    ensures r.Ok? ==> |r.value| == |w.heap| && Keeps(w.heap, r.value, base)
  {
    if src !in w.pos then Err("Logic error")
    else if reg[src].manyToMany then WireLink(reg, n, w, base, dest, parent, newObj)
    else if !reg[dest].manyToMany then
      if parent.None? then Err("AttributeError: 'NoneType' object has no attribute 'isForeignKey'")
      else WireKey(reg, w.heap, dest, parent.value, newObj)
    else Ok(w.heap)
  }

  /**
   * The instance a new one is wired to: the far end through a link table,
   * the parent for a join by key; none for a join into a link table.
   */
  function WirePeer(reg: Registry, n: nat, w: Walk, base: nat, src: string, dest: string, parent: Option<nat>)
      : Option<nat>
    requires Wf(reg, n, w, base) && src in reg && dest in reg
    requires parent.Some? ==> parent.value < |w.heap| && w.heap[parent.value].cls in reg
  {
    if src !in w.pos then None
    else if reg[src].manyToMany then
      if parent.Some? && FarEnd(reg, n, w, base, parent.value, dest).Some? then
        Some(FarEnd(reg, n, w, base, parent.value, dest).value.1)
      else None
    else if !reg[dest].manyToMany then parent
    else None
  }

  /** A walk stays well formed when its instances only gain attributes. */
  lemma WfKeeps(reg: Registry, n: nat, w: Walk, heap: seq<Instance>, base: nat)
    requires Wf(reg, n, w, base) && |heap| == |w.heap| && Keeps(w.heap, heap, base)
    ensures Wf(reg, n, w.(heap := heap), base)
  {
    forall e | 0 <= e < |w.entries|
      ensures EntryOk(reg, heap, |w.entries|, base, w.entries[e])
    {
      assert EntryOk(reg, w.heap, |w.entries|, base, w.entries[e]);
    }
  }

  // ---------------------------------------------------------------------------
  // Selects the walk carries out, and what it leaves wired
  // ---------------------------------------------------------------------------

  /**
   * `pos` once the first `i` joins are placed on the first row: the queried
   * class at 0 and each join's destination at its own position, a later
   * position winning.
   */
  function PosAt(mc: string, joins: seq<Join>, i: nat): (r: map<string, nat>)
    requires i <= |joins|
    ensures mc in r
    ensures forall c :: c in r ==> r[c] <= i
  {
    if i == 0 then map[mc := 0] else PosAt(mc, joins, i - 1)[joins[i - 1].dest := i]
  }

  /** A class placed by the first `i` joins sits at a position holding that class. */
  lemma {:induction false} PosAtClass(mc: string, joins: seq<Join>, i: nat, c: string)
    requires i <= |joins| && c in PosAt(mc, joins, i)
    ensures ClassAt(mc, joins, PosAt(mc, joins, i)[c]) == c
    decreases i
  {
    if i > 0 && c != joins[i - 1].dest {
      PosAtClass(mc, joins, i - 1, c);
    }
  }

  /** Each class of the select sits at one position: the destinations are distinct and none is the queried class. */
  predicate Distinctly(mc: string, joins: seq<Join>) {
    forall k :: 0 <= k < |joins| ==> joins[k].dest != mc && forall j :: 0 <= j < k ==> joins[j].dest != joins[k].dest
  }

  /** A join's destination is not placed before the join itself. */
  lemma DestFresh(mc: string, joins: seq<Join>, k: nat)
    requires Distinctly(mc, joins) && k < |joins|
    ensures joins[k].dest !in PosAt(mc, joins, k)
  {
    forall c | c in PosAt(mc, joins, k)
      ensures c != joins[k].dest
    {
      PosAtClass(mc, joins, k, c);
      var m := PosAt(mc, joins, k)[c];
      if m > 0 {
        assert joins[m - 1].dest != joins[k].dest;
      }
    }
  }

  /** With every class at one position, a placed class keeps its position through the later joins. */
  lemma PosAtStable(mc: string, joins: seq<Join>, j: nat, j2: nat, c: string)
    requires Distinctly(mc, joins) && j <= j2 <= |joins| && c in PosAt(mc, joins, j)
    ensures c in PosAt(mc, joins, j2) && PosAt(mc, joins, j2)[c] == PosAt(mc, joins, j)[c]
  {
    PosAtOf(mc, joins, j2, PosAt(mc, joins, j)[c]);
  }

  /** With every class at one position, the class placed at `m` stays at `m` through the later joins. */
  lemma {:induction false} PosAtOf(mc: string, joins: seq<Join>, i: nat, m: nat)
    requires Distinctly(mc, joins) && m <= i <= |joins|
    ensures ClassAt(mc, joins, m) in PosAt(mc, joins, i) && PosAt(mc, joins, i)[ClassAt(mc, joins, m)] == m
    decreases i
  {
    if i > m {
      PosAtOf(mc, joins, i - 1, m);
      var d := joins[i - 1].dest;
      assert ClassAt(mc, joins, m) != d by {
        if m > 0 {
          assert joins[m - 1].dest != d;
        }
      }
      assert PosAt(mc, joins, i) == PosAt(mc, joins, i - 1)[d := i];
    } else if m > 0 {
      assert PosAt(mc, joins, i) == PosAt(mc, joins, m - 1)[joins[m - 1].dest := m];
    }
  }

  /** The position join `k` reads its parent from: where its source sits when it is placed. */
  function ParentPos(mc: string, joins: seq<Join>, k: nat): (r: nat)
    requires k < |joins|
    ensures r <= k
  {
    if joins[k].src in PosAt(mc, joins, k) then PosAt(mc, joins, k)[joins[k].src] else 0
  }

  /** Whether join `j` wires its instances: from a link table, or between two classes neither of which is one. */
  predicate Wiring(reg: Registry, src: string, dest: string)
    requires src in reg && dest in reg
  {
    reg[src].manyToMany || !reg[dest].manyToMany
  }

  /**
   * A field the wiring may set on an instance of `cls` to an instance of
   * `target`: a column rather than a collection, whose referenced column the
   * target has when it is a foreign key.
   */
  predicate Assignable(reg: Registry, cls: string, name: string, target: string)
    requires cls in reg && target in reg
  {
    name in reg[cls].fields && name !in reg[cls].reverseRel &&
    (reg[cls].fields[name].kind.ForeignKey? ==> reg[cls].fields[name].kind.reference.name in reg[target].fields)
  }

  /**
   * The relation field `f` of `src` towards `dest` can wire by key: a foreign
   * key whose related name is a collection of `dest`, or a reverse side that is
   * a collection of `src` and whose back name `dest` can set.
   */
  predicate KeyReady(reg: Registry, src: string, dest: string, f: Field)
    requires src in reg && dest in reg
  {
    (f.kind.ForeignKey? && f.kind.relatedName in reg[dest].reverseRel && Assignable(reg, src, f.name, dest)) ||
    (f.kind.Reference? && f.name in reg[src].reverseRel && Assignable(reg, dest, f.kind.backName, src))
  }

  /**
   * What join `k` needs of the registry to wire its instances. From a link
   * table: the link table was itself joined from a class, and its field
   * towards the destination names a collection on each far end. Between two
   * other classes: the source's relation field towards the destination wires
   * by key. A join into a link table needs nothing.
   */
  predicate Wirable(reg: Registry, mc: string, joins: seq<Join>, k: nat)
    requires Resolved(reg, mc, joins) && k < |joins|
  {
    var src := joins[k].src;
    var dest := joins[k].dest;
    var p := ParentPos(mc, joins, k);
    if reg[src].manyToMany then
      dest in reg[src].relClass && 1 <= p &&
      RelatedName(reg[src].relClass[dest]).Ok? &&
      RelatedName(reg[src].relClass[dest]).value in reg[dest].reverseRel &&
      reg[src].relClass[dest].name in reg[joins[p - 1].src].reverseRel
    else if !reg[dest].manyToMany then
      dest in reg[src].relClass && KeyReady(reg, src, dest, reg[src].relClass[dest])
    else true
  }

  /**
   * A select the walk carries out on every consistent set of rows: each
   * class sits at one position, each join's source is placed before the join,
   * and each join wires through fields of the kinds the wiring expects.
   */
  predicate Sound(reg: Registry, mc: string, joins: seq<Join>) {
    Resolved(reg, mc, joins) && Distinctly(mc, joins) &&
    forall k :: 0 <= k < |joins| ==> Joinable(reg, mc, joins, k)
  }

  /** Join `k`'s source is placed before it, and the join wires through fields of the kinds the wiring expects. */
  predicate Joinable(reg: Registry, mc: string, joins: seq<Join>, k: nat)
    requires Resolved(reg, mc, joins) && k < |joins|
  {
    joins[k].src in PosAt(mc, joins, k) && Wirable(reg, mc, joins, k)
  }

  /** Every join's source is placed once the join is: `pos[join.src]` exists on the first row. */
  predicate Placed(mc: string, joins: seq<Join>) {
    forall k :: 0 <= k < |joins| ==> PlacedAt(mc, joins, k)
  }

  /** Join `k`'s source is in `pos` once its destination is placed. */
  predicate PlacedAt(mc: string, joins: seq<Join>, k: nat)
    requires k < |joins|
  {
    joins[k].src in PosAt(mc, joins, k + 1)
  }

  /**
   * A row as a chain of left joins returns it: whenever the columns of a
   * joined position are not all `None`, neither are those of the position it
   * was joined from.
   */
  predicate Consistent(reg: Registry, mc: string, joins: seq<Join>, row: seq<Value>)
    requires Resolved(reg, mc, joins)
  {
    forall k :: 0 <= k < |joins| ==> ConsistentAt(reg, mc, joins, row, k)
  }

  /** `Consistent` at join `k`. */
  predicate ConsistentAt(reg: Registry, mc: string, joins: seq<Join>, row: seq<Value>, k: nat)
    requires Resolved(reg, mc, joins) && k < |joins|
  {
    (joins[k].src in PosAt(mc, joins, k) && 0 < ParentPos(mc, joins, k) &&
     SliceAt(reg, mc, joins, row, k + 1) != Nones(Width(reg, joins[k].dest))) ==>
      SliceAt(reg, mc, joins, row, ParentPos(mc, joins, k)) !=
        Nones(Width(reg, ClassAt(mc, joins, ParentPos(mc, joins, k))))
  }

  /** The class of the instance join `k` wires its new instances to: the far end of a link table, or the source. */
  function PeerClass(reg: Registry, mc: string, joins: seq<Join>, k: nat): string
    requires Resolved(reg, mc, joins) && k < |joins|
  {
    var p := ParentPos(mc, joins, k);
    if reg[joins[k].src].manyToMany && 1 <= p then joins[p - 1].src else joins[k].src
  }

  /** `getattr(heap[o], a)` is a list holding `x`. */
  predicate InList(heap: seq<Instance>, o: nat, a: string, x: nat) {
    o < |heap| && a in heap[o].attrs && heap[o].attrs[a].List? && x in heap[o].attrs[a].objs
  }

  /** `InList`, on a reverse relation (a collection) of the instance's class. */
  predicate RevList(reg: Registry, heap: seq<Instance>, o: nat, a: string, x: nat) {
    InList(heap, o, a, x) && heap[o].cls in reg && a in reg[heap[o].cls].reverseRel
  }

  /** The collections only grow: what a reverse relation list holds, it still holds. */
  ghost predicate Grows(reg: Registry, h: seq<Instance>, h': seq<Instance>) {
    forall o: nat, a: string, x: nat :: RevList(reg, h, o, a, x) ==> RevList(reg, h', o, a, x)
  }

  lemma GrowsTrans(reg: Registry, a: seq<Instance>, b: seq<Instance>, c: seq<Instance>)
    requires Grows(reg, a, b) && Grows(reg, b, c)
    ensures Grows(reg, a, c)
  {
  }

  /** Every field of the instance's class is an attribute, and every reverse relation a list. */
  predicate Shaped(reg: Registry, inst: Instance) {
    inst.cls in reg && reg[inst.cls].fields.Keys <= inst.attrs.Keys &&
    forall a :: a in reg[inst.cls].reverseRel ==> a in inst.attrs && inst.attrs[a].List?
  }

  /** Every instance from `base` on is shaped. */
  predicate ShapedFrom(reg: Registry, heap: seq<Instance>, base: nat) {
    forall o :: base <= o < |heap| ==> Shaped(reg, heap[o])
  }

  /** A new instance is shaped: its fields are attributes and its collections empty lists. */
  lemma FreshShaped(reg: Registry, cls: string, s: seq<Value>)
    requires Named(reg) && cls in reg && Fresh(reg, cls, s).Ok?
    ensures Shaped(reg, Fresh(reg, cls, s).value) && Fresh(reg, cls, s).value.cls == cls
  {
  }

  /**
   * New instance `obj` and its peer `p` sit in each other's collections as
   * the join from `src` to `dest` wires them: both ways through a link table;
   * by key, the side that is a collection holds the other.
   */
  predicate Wired(reg: Registry, src: string, dest: string, heap: seq<Instance>, obj: nat, p: nat)
    requires src in reg && dest in reg
  {
    if reg[src].manyToMany then
      dest in reg[src].relClass && RelatedName(reg[src].relClass[dest]).Ok? &&
      RevList(reg, heap, obj, RelatedName(reg[src].relClass[dest]).value, p) &&
      RevList(reg, heap, p, reg[src].relClass[dest].name, obj)
    else if !reg[dest].manyToMany then
      dest in reg[src].relClass &&
      (reg[src].relClass[dest].kind.ForeignKey? ==> RevList(reg, heap, obj, reg[src].relClass[dest].kind.relatedName, p)) &&
      (reg[src].relClass[dest].kind.Reference? ==> RevList(reg, heap, p, reg[src].relClass[dest].name, obj))
    else true
  }

  /**
   * The instance at `obj`, made at position `at` with peer `peer`: when its
   * join wires, the peer is an instance the walk made, of the class the join
   * links to, and the two are wired.
   */
  ghost predicate BirthWired(reg: Registry, mc: string, joins: seq<Join>, heap: seq<Instance>, base: nat,
                             obj: nat, at: nat, peer: Option<nat>)
    requires Sound(reg, mc, joins)
  {
    0 < at <= |joins| && Wiring(reg, joins[at - 1].src, joins[at - 1].dest) ==>
      peer.Some? && base <= peer.value < |heap| && heap[peer.value].cls == PeerClass(reg, mc, joins, at - 1) &&
      Wired(reg, joins[at - 1].src, joins[at - 1].dest, heap, obj, peer.value)
  }

  /** The births of `born`, at the arena slots from `from` on, are wired. */
  ghost predicate BirthsWired(reg: Registry, mc: string, joins: seq<Join>, heap: seq<Instance>, base: nat,
                              from: nat, born: seq<Birth>)
    requires Sound(reg, mc, joins)
  {
    forall t :: 0 <= t < |born| ==> BirthWired(reg, mc, joins, heap, base, from + t, born[t].at, born[t].peer)
  }

  /** Wired births stay wired while the collections grow. */
  lemma WiredGrow(reg: Registry, mc: string, joins: seq<Join>, heap: seq<Instance>, heap': seq<Instance>, base: nat,
                  from: nat, born: seq<Birth>)
    requires Sound(reg, mc, joins) && BirthsWired(reg, mc, joins, heap, base, from, born)
    requires Grows(reg, heap, heap') && Keeps(heap, heap', base)
    ensures BirthsWired(reg, mc, joins, heap', base, from, born)
  {
    forall t | 0 <= t < |born|
      ensures BirthWired(reg, mc, joins, heap', base, from + t, born[t].at, born[t].peer)
    {
      assert BirthWired(reg, mc, joins, heap, base, from + t, born[t].at, born[t].peer);
    }
  }

  /** Births at the root position are wired trivially: a root has no parent. */
  lemma RootsWired(reg: Registry, mc: string, joins: seq<Join>, heap: seq<Instance>, base: nat, from: nat,
                   born: seq<Birth>)
    requires Sound(reg, mc, joins) && forall t :: 0 <= t < |born| ==> born[t].at == 0
    ensures BirthsWired(reg, mc, joins, heap, base, from, born)
  {
  }

  /** Two runs of wired births, one after the other in the arena. */
  lemma WiredConcat(reg: Registry, mc: string, joins: seq<Join>, heap: seq<Instance>, base: nat,
                    from: nat, mid: nat, b1: seq<Birth>, b2: seq<Birth>)
    requires Sound(reg, mc, joins) && BirthsWired(reg, mc, joins, heap, base, from, b1)
    requires mid == from + |b1| && BirthsWired(reg, mc, joins, heap, base, mid, b2)
    ensures BirthsWired(reg, mc, joins, heap, base, from, b1 + b2)
  {
    var nb := b1 + b2;
    forall t | 0 <= t < |nb|
      ensures BirthWired(reg, mc, joins, heap, base, from + t, nb[t].at, nb[t].peer)
    {
      if t < |b1| {
        assert nb[t] == b1[t];
      } else {
        assert nb[t] == b2[t - |b1|] && from + t == from + |b1| + (t - |b1|);
        assert BirthWired(reg, mc, joins, heap, base, from + |b1| + (t - |b1|), b2[t - |b1|].at, b2[t - |b1|].peer);
      }
    }
  }

  /** Appending to a list attribute only grows the collections and keeps every instance shaped. */
  lemma AppendShapes(reg: Registry, heap: seq<Instance>, obj: nat, name: string, x: nat, base: nat)
    requires obj < |heap| && Append(heap, obj, name, x).Ok?
    ensures Grows(reg, heap, Append(heap, obj, name, x).value)
    ensures ShapedFrom(reg, heap, base) ==> ShapedFrom(reg, Append(heap, obj, name, x).value, base)
  {
    var h := Append(heap, obj, name, x).value;
    forall o, a, y | RevList(reg, heap, o, a, y)
      ensures RevList(reg, h, o, a, y)
    {
      if o == obj && a == name {
        assert y in heap[obj].attrs[name].objs + [x];
      }
    }
  }

  /** Setting an attribute that is not a collection only grows the collections and keeps every instance shaped. */
  lemma SetAtShapes(reg: Registry, heap: seq<Instance>, obj: nat, name: string, v: Value, base: nat)
    requires obj < |heap| && heap[obj].cls in reg && SetAt(reg, heap, obj, name, v).Ok?
    requires name !in reg[heap[obj].cls].reverseRel
    ensures Grows(reg, heap, SetAt(reg, heap, obj, name, v).value)
    ensures ShapedFrom(reg, heap, base) ==> ShapedFrom(reg, SetAt(reg, heap, obj, name, v).value, base)
  {
    var h := SetAt(reg, heap, obj, name, v).value;
    forall o, a, y | RevList(reg, heap, o, a, y)
      ensures RevList(reg, h, o, a, y)
    {
      if o == obj {
        assert a != name;
      }
    }
  }

  /** Wiring by key sets no collection, so it only grows the collections and keeps every instance shaped. */
  lemma WireKeyShapes(reg: Registry, heap: seq<Instance>, dest: string, p: nat, newObj: nat, base: nat)
    requires p < newObj < |heap| && heap[p].cls in reg && heap[newObj].cls in reg
    requires WireKey(reg, heap, dest, p, newObj).Ok?
    requires var f := KeyField(reg, heap, p, dest).value;
             (f.kind.ForeignKey? ==> f.name !in reg[heap[p].cls].reverseRel) &&
             (f.kind.Reference? ==> f.kind.backName !in reg[heap[newObj].cls].reverseRel)
    ensures Grows(reg, heap, WireKey(reg, heap, dest, p, newObj).value)
    ensures ShapedFrom(reg, heap, base) ==> ShapedFrom(reg, WireKey(reg, heap, dest, p, newObj).value, base)
  {
    var f := KeyField(reg, heap, p, dest).value;
    if f.kind.ForeignKey? {
      AppendShapes(reg, heap, newObj, f.kind.relatedName, p, base);
      var h1 := Append(heap, newObj, f.kind.relatedName, p).value;
      SetAtShapes(reg, h1, p, f.name, Ref(newObj), base);
      GrowsTrans(reg, heap, h1, SetAt(reg, h1, p, f.name, Ref(newObj)).value);
    } else {
      AppendShapes(reg, heap, p, f.name, newObj, base);
      var h1 := Append(heap, p, f.name, newObj).value;
      SetAtShapes(reg, h1, newObj, f.kind.backName, Ref(p), base);
      GrowsTrans(reg, heap, h1, SetAt(reg, h1, newObj, f.kind.backName, Ref(p)).value);
    }
  }

  /** Wiring through a link table only appends, so it only grows the collections and keeps every instance shaped. */
  lemma WireLinkShapes(reg: Registry, n: nat, w: Walk, base: nat, dest: string, parent: Option<nat>, newObj: nat)
    requires Wf(reg, n, w, base) && base <= newObj < |w.heap|
    requires parent.Some? ==> parent.value < |w.heap| && w.heap[parent.value].cls in reg
    requires WireLink(reg, n, w, base, dest, parent, newObj).Ok?
    ensures Grows(reg, w.heap, WireLink(reg, n, w, base, dest, parent, newObj).value)
    ensures ShapedFrom(reg, w.heap, base) ==> ShapedFrom(reg, WireLink(reg, n, w, base, dest, parent, newObj).value, base)
  {
    var (f, far) := FarEnd(reg, n, w, base, parent.value, dest).value;
    var back := RelatedName(f).value;
    AppendShapes(reg, w.heap, newObj, back, far, base);
    var h1 := Append(w.heap, newObj, back, far).value;
    AppendShapes(reg, h1, far, f.name, newObj, base);
    GrowsTrans(reg, w.heap, h1, Append(h1, far, f.name, newObj).value);
  }

  /** `setattr(heap[obj], name, heap[target])` succeeds on a field the wiring may set. */
  lemma SetAssignable(reg: Registry, heap: seq<Instance>, obj: nat, name: string, target: nat)
    requires obj < |heap| && target < |heap| && heap[obj].cls in reg && heap[target].cls in reg
    requires reg[heap[target].cls].fields.Keys <= heap[target].attrs.Keys
    requires Assignable(reg, heap[obj].cls, name, heap[target].cls)
    ensures SetAt(reg, heap, obj, name, Ref(target)).Ok?
  {
  }

  /** Wiring by key succeeds between shaped instances when the relation field wires by key. */
  lemma WireKeyOk(reg: Registry, heap: seq<Instance>, dest: string, p: nat, newObj: nat)
    requires p < newObj < |heap| && Shaped(reg, heap[p]) && Shaped(reg, heap[newObj])
    requires KeyField(reg, heap, p, dest).Some?
    requires KeyReady(reg, heap[p].cls, heap[newObj].cls, KeyField(reg, heap, p, dest).value)
    ensures WireKey(reg, heap, dest, p, newObj).Ok?
  {
    var f := KeyField(reg, heap, p, dest).value;
    if f.kind.ForeignKey? {
      var h1 := Append(heap, newObj, f.kind.relatedName, p).value;
      assert h1[p] == heap[p];
      SetAssignable(reg, h1, p, f.name, newObj);
    } else {
      var h1 := Append(heap, p, f.name, newObj).value;
      assert h1[newObj] == heap[newObj];
      SetAssignable(reg, h1, newObj, f.kind.backName, p);
    }
  }

  /** Wiring through a link table succeeds when both far ends are shaped and the link field names a collection on each. */
  lemma WireLinkOk(reg: Registry, n: nat, w: Walk, base: nat, dest: string, p: nat, newObj: nat)
    requires Wf(reg, n, w, base) && base <= newObj < |w.heap| && p < |w.heap| && w.heap[p].cls in reg
    requires FarEnd(reg, n, w, base, p, dest).Some?
    requires var (f, far) := FarEnd(reg, n, w, base, p, dest).value;
             Shaped(reg, w.heap[newObj]) && Shaped(reg, w.heap[far]) &&
             RelatedName(f).Ok? && RelatedName(f).value in reg[w.heap[newObj].cls].reverseRel &&
             f.name in reg[w.heap[far].cls].reverseRel
    ensures WireLink(reg, n, w, base, dest, Some(p), newObj).Ok?
  {
    var (f, far) := FarEnd(reg, n, w, base, p, dest).value;
    var back := RelatedName(f).value;
    var h1 := Append(w.heap, newObj, back, far).value;
    if far != newObj {
      assert h1[far] == w.heap[far];
    }
  }

  // ---------------------------------------------------------------------------
  // One join of one row
  // ---------------------------------------------------------------------------

  /** Every registered class is registered under its own name. */
  predicate Named(reg: Registry) {
    forall c :: c in reg ==> reg[c].cls == c
  }

  /** The entry position `i` reads its parent from: `current[rel[i]]`. */
  function ParentEntry(current: seq<Option<nat>>, rel: seq<Option<nat>>, i: nat): Option<nat> {
    if i < |rel| && rel[i].Some? && rel[i].value < |current| then current[rel[i].value] else None
  }

  /** Slice `s` is already among the children entry `e` holds for position `i`. */
  predicate Seen(entries: seq<Entry>, e: nat, i: nat, s: seq<Value>) {
    e < |entries| && i in entries[e].children && SliceKey(s) in entries[e].children[i]
  }

  /** `current[rel[i]][i][key] = child`, creating `current[rel[i]][i]` when missing. */
  function Register(entries: seq<Entry>, e: nat, i: nat, key: ChildKey, child: nat): (r: seq<Entry>)
    requires e < |entries|
    ensures |r| == |entries| && forall k :: 0 <= k < |entries| ==> r[k].model == entries[k].model
    ensures forall k :: 0 <= k < |entries| && k != e ==> r[k] == entries[k]
    ensures i in r[e].children && key in r[e].children[i] && r[e].children[i][key] == child
    ensures forall j, k :: j in entries[e].children && k in entries[e].children[j] && (j != i || k != key) ==>
              j in r[e].children && k in r[e].children[j] && r[e].children[j][k] == entries[e].children[j][k]
    ensures forall j, k :: j in r[e].children && k in r[e].children[j] ==>
              (j == i && k == key) || (j in entries[e].children && k in entries[e].children[j])
  {
    var kids := if i in entries[e].children then entries[e].children[i] else map[];
    entries[e := entries[e].(children := entries[e].children[i := kids[key := child]])]
  }

  /** A new instance at the end of the arena leaves the walk well formed. */
  lemma WfHeapGrow(reg: Registry, n: nat, w: Walk, inst: Instance, base: nat)
    requires Wf(reg, n, w, base)
    ensures Wf(reg, n, w.(heap := w.heap + [inst]), base)
  {
    var heap := w.heap + [inst];
    forall e | 0 <= e < |w.entries|
      ensures EntryOk(reg, heap, |w.entries|, base, w.entries[e])
    {
      assert EntryOk(reg, w.heap, |w.entries|, base, w.entries[e]);
    }
  }

  /**
   * A new entry, registered under the parent entry and made `current[i]`,
   * leaves the walk well formed.
   */
  lemma WfAddEntry(reg: Registry, n: nat, w: Walk, base: nat, entry: Entry, pe: nat, i: nat, key: ChildKey)
    requires Wf(reg, n, w, base) && pe < |w.entries| && i <= n && entry.children == map[]
    requires entry.model.Some? ==> base <= entry.model.value < |w.heap| && w.heap[entry.model.value].cls in reg
    ensures Wf(reg, n, w.(entries := Register(w.entries + [entry], pe, i, key, |w.entries|),
                          current := w.current[i := Some(|w.entries|)]), base)
  {
    var count := |w.entries| + 1;
    var es := Register(w.entries + [entry], pe, i, key, |w.entries|);
    forall e | 0 <= e < count
      ensures EntryOk(reg, w.heap, count, base, es[e])
    {
      if e < |w.entries| {
        assert EntryOk(reg, w.heap, |w.entries|, base, w.entries[e]);
        assert (w.entries + [entry])[e] == w.entries[e];
      } else {
        assert (w.entries + [entry])[e] == entry;
      }
    }
  }

  /** Entry `c` holds an instance of class `cls`. */
  predicate Holds(w: Walk, c: nat, cls: string) {
    c < |w.entries| && w.entries[c].model.Some? && w.entries[c].model.value < |w.heap| &&
    w.heap[w.entries[c].model.value].cls == cls
  }

  /** The child registered for position `i` under `key`: none under `"None"`, an instance of that position's class under a slice. */
  predicate KeyTyped(reg: Registry, mc: string, joins: seq<Join>, w: Walk, i: nat, key: ChildKey, c: nat)
    requires 1 <= i <= |joins|
  {
    if key.NoneKey? then c < |w.entries| && w.entries[c].model.None? else Holds(w, c, ClassAt(mc, joins, i))
  }

  /**
   * The entries follow the select's positions: a root holds an instance of
   * the queried class, and every child is registered for a joined position
   * and typed by its key.
   */
  ghost predicate Typed(reg: Registry, mc: string, joins: seq<Join>, w: Walk) {
    (forall key :: key in w.roots ==> Holds(w, w.roots[key], mc)) &&
    forall e, i, key :: 0 <= e < |w.entries| && i in w.entries[e].children && key in w.entries[e].children[i] ==>
      1 <= i <= |joins| && KeyTyped(reg, mc, joins, w, i, key, w.entries[e].children[i][key])
  }

  /**
   * `current[k]` in this row: an entry, holding (if anything) an instance of
   * the class at position `k`, and holding one for the root and for every
   * position whose columns are not all `None`.
   */
  predicate CurAt(reg: Registry, mc: string, joins: seq<Join>, row: seq<Value>, w: Walk, k: nat)
    requires Resolved(reg, mc, joins) && k <= |joins|
  {
    k < |w.current| && w.current[k].Some? && w.current[k].value < |w.entries| &&
    (w.entries[w.current[k].value].model.Some? ==> Holds(w, w.current[k].value, ClassAt(mc, joins, k))) &&
    ((k == 0 || SliceAt(reg, mc, joins, row, k) != Nones(Width(reg, ClassAt(mc, joins, k)))) ==>
       w.entries[w.current[k].value].model.Some?)
  }

  /** `current` is set for positions `0..upto` of this row. */
  ghost predicate CurOk(reg: Registry, mc: string, joins: seq<Join>, row: seq<Value>, w: Walk, upto: nat)
    requires Resolved(reg, mc, joins) && upto <= |joins|
  {
    forall k :: 0 <= k <= upto ==> CurAt(reg, mc, joins, row, w, k)
  }

  /**
   * `pos` and `rel` against the select: empty before the first row, then
   * `pos` is `PosAt` of the joins placed and `rel[k]` is the position of join
   * `k - 1`'s source.
   */
  predicate PosOk(mc: string, joins: seq<Join>, w: Walk) {
    (|w.rel| == 0 ==> w.pos == map[]) &&
    (|w.rel| > 0 ==>
       |w.rel| <= |joins| + 1 && w.pos == PosAt(mc, joins, |w.rel| - 1) && w.rel[0].None? &&
       forall k {:trigger w.rel[k]} :: 1 <= k < |w.rel| ==>
         joins[k - 1].src in PosAt(mc, joins, k) && w.rel[k] == Some(PosAt(mc, joins, k)[joins[k - 1].src]))
  }

  /** The walk grew: more entries with the same instances, more instances of the same classes. */
  predicate Extends(w: Walk, w': Walk) {
    |w.entries| <= |w'.entries| && (forall e :: 0 <= e < |w.entries| ==> w'.entries[e].model == w.entries[e].model) &&
    |w.heap| <= |w'.heap| && (forall m :: 0 <= m < |w.heap| ==> w'.heap[m].cls == w.heap[m].cls)
  }

  /** Typed entries stay typed as the walk grows, when its roots and older children stay. */
  lemma TypedExtends(reg: Registry, mc: string, joins: seq<Join>, w: Walk, heap: seq<Instance>)
    requires Typed(reg, mc, joins, w) && Extends(w, w.(heap := heap))
    ensures Typed(reg, mc, joins, w.(heap := heap))
  {
    var w' := w.(heap := heap);
    forall e, i, key | 0 <= e < |w.entries| && i in w.entries[e].children && key in w.entries[e].children[i]
      ensures KeyTyped(reg, mc, joins, w', i, key, w.entries[e].children[i][key])
    {
      assert KeyTyped(reg, mc, joins, w, i, key, w.entries[e].children[i][key]);
    }
  }

  /** `current` stays set as the walk grows, where it is unchanged. */
  lemma CurOkExtends(reg: Registry, mc: string, joins: seq<Join>, row: seq<Value>, w: Walk, w': Walk, upto: nat)
    requires Resolved(reg, mc, joins) && upto <= |joins| && CurOk(reg, mc, joins, row, w, upto) && Extends(w, w')
    requires |w'.current| == |w.current| && upto < |w.current|
    requires forall k :: 0 <= k <= upto ==> w'.current[k] == w.current[k]
    ensures CurOk(reg, mc, joins, row, w', upto)
  {
    forall k | 0 <= k <= upto
      ensures CurAt(reg, mc, joins, row, w', k)
    {
      assert CurAt(reg, mc, joins, row, w, k);
    }
  }

  /** A new entry registered under `pe` for position `i` keeps the entries typed when its own key does. */
  lemma TypedRegister(reg: Registry, mc: string, joins: seq<Join>, w: Walk, w': Walk, entry: Entry, pe: nat, i: nat,
                      key: ChildKey)
    requires Typed(reg, mc, joins, w) && pe < |w.entries| && 1 <= i <= |joins|
    requires entry.children == map[] && w'.roots == w.roots
    requires w'.entries == Register(w.entries + [entry], pe, i, key, |w.entries|)
    requires |w.heap| <= |w'.heap| && forall m :: 0 <= m < |w.heap| ==> w'.heap[m].cls == w.heap[m].cls
    requires KeyTyped(reg, mc, joins, w', i, key, |w.entries|)
    ensures Typed(reg, mc, joins, w')
  {
    var es := w.entries + [entry];
    forall e | 0 <= e < |w.entries|
      ensures w'.entries[e].model == w.entries[e].model
    {
      assert es[e] == w.entries[e];
    }
    assert Extends(w, w');
    forall k | k in w'.roots
      ensures Holds(w', w'.roots[k], mc)
    {
      assert Holds(w, w.roots[k], mc);
    }
    forall e, j, k | 0 <= e < |w'.entries| && j in w'.entries[e].children && k in w'.entries[e].children[j]
      ensures 1 <= j <= |joins| && KeyTyped(reg, mc, joins, w', j, k, w'.entries[e].children[j][k])
    {
      if e < |w.entries| && (e != pe || j != i || k != key) {
        assert es[e] == w.entries[e];
        assert w'.entries[e].children[j][k] == w.entries[e].children[j][k];
        assert KeyTyped(reg, mc, joins, w, j, k, w.entries[e].children[j][k]);
      }
    }
  }

  /**
   * On the first row, `pos[join.dest] = i` and `rel.append(pos[join.src])`;
   * a source not placed yet raises `KeyError`.
   */
  function Place(reg: Registry, n: nat, w: Walk, base: nat, join: Join, i: nat)
      : (r: Result<(map<string, nat>, seq<Option<nat>>)>)
    requires Wf(reg, n, w, base) && 1 <= i <= n
    ensures |w.rel| != i ==> r == Ok((w.pos, w.rel))
    ensures |w.rel| == i ==> (r.Ok? <==> join.src in w.pos[join.dest := i])
    ensures |w.rel| == i && r.Ok? ==>
              r.value == (w.pos[join.dest := i], w.rel + [Some(w.pos[join.dest := i][join.src])])
    ensures r.Ok? ==> Wf(reg, n, w.(pos := r.value.0, rel := r.value.1), base)
  {
    if |w.rel| != i then Ok((w.pos, w.rel))
    else
      var pos := w.pos[join.dest := i];
      if join.src !in pos then Err("KeyError: " + join.src)
      else Ok((pos, w.rel + [Some(pos[join.src])]))
  }

  /**
   * Placing join `ji` keeps `pos` and `rel` in step with the select; the
   * entries and `current`, which placing leaves alone, stay typed and set.
   */
  lemma PlacePosOk(reg: Registry, mc: string, joins: seq<Join>, row: seq<Value>, w: Walk, base: nat, ji: nat,
                   placed: (map<string, nat>, seq<Option<nat>>))
    requires Resolved(reg, mc, joins) && ji < |joins| && Wf(reg, |joins|, w, base) && PosOk(mc, joins, w)
    requires |w.rel| == |joins| + 1 || |w.rel| == JoinPos(ji)
    requires Typed(reg, mc, joins, w) && CurOk(reg, mc, joins, row, w, ji)
    requires Place(reg, |joins|, w, base, joins[ji], JoinPos(ji)) == Ok(placed)
    ensures PosOk(mc, joins, w.(pos := placed.0, rel := placed.1)) && |placed.1| > JoinPos(ji)
    ensures Typed(reg, mc, joins, w.(pos := placed.0, rel := placed.1))
    ensures CurOk(reg, mc, joins, row, w.(pos := placed.0, rel := placed.1), ji)
  {
    PlacedPos(reg, mc, joins, w, base, ji, placed);
    WalkFrame(reg, mc, joins, row, w, w.(pos := placed.0, rel := placed.1), ji);
  }

  /** Placing join `ji` keeps `pos` and `rel` following the select. */
  lemma PlacedPos(reg: Registry, mc: string, joins: seq<Join>, w: Walk, base: nat, ji: nat,
                  placed: (map<string, nat>, seq<Option<nat>>))
    requires Resolved(reg, mc, joins) && ji < |joins| && Wf(reg, |joins|, w, base) && PosOk(mc, joins, w)
    requires |w.rel| == |joins| + 1 || |w.rel| == JoinPos(ji)
    requires Place(reg, |joins|, w, base, joins[ji], JoinPos(ji)) == Ok(placed)
    ensures PosOk(mc, joins, w.(pos := placed.0, rel := placed.1)) && |placed.1| > JoinPos(ji)
  {
    if |w.rel| == JoinPos(ji) {
      var rel' := placed.1;
      assert placed.0 == PosAt(mc, joins, JoinPos(ji));
      forall k | 1 <= k < |rel'|
        ensures joins[k - 1].src in PosAt(mc, joins, k) && rel'[k] == Some(PosAt(mc, joins, k)[joins[k - 1].src])
      {
        if k < |w.rel| {
          assert rel'[k] == w.rel[k];
        }
      }
    }
  }

  /** `Typed` and `CurOk` look at the entries, the arena, the roots and `current` alone. */
  lemma WalkFrame(reg: Registry, mc: string, joins: seq<Join>, row: seq<Value>, a: Walk, b: Walk, upto: nat)
    requires Resolved(reg, mc, joins) && upto <= |joins|
    requires b.entries == a.entries && b.heap == a.heap && b.roots == a.roots && b.current == a.current
    requires Typed(reg, mc, joins, a) && CurOk(reg, mc, joins, row, a, upto)
    ensures Typed(reg, mc, joins, b) && CurOk(reg, mc, joins, row, b, upto)
  {
    forall e, i, key | 0 <= e < |b.entries| && i in b.entries[e].children && key in b.entries[e].children[i]
      ensures 1 <= i <= |joins| && KeyTyped(reg, mc, joins, b, i, key, b.entries[e].children[i][key])
    {
      assert KeyTyped(reg, mc, joins, a, i, key, a.entries[e].children[i][key]);
    }
    forall k | 0 <= k <= upto
      ensures CurAt(reg, mc, joins, row, b, k)
    {
      assert CurAt(reg, mc, joins, row, a, k);
    }
  }

  /** `PosOk` looks at `pos` and `rel` alone. */
  lemma PosOkFrame(mc: string, joins: seq<Join>, a: Walk, b: Walk)
    requires PosOk(mc, joins, a) && b.pos == a.pos && b.rel == a.rel
    ensures PosOk(mc, joins, b)
  {
    forall k | 1 <= k < |b.rel|
      ensures joins[k - 1].src in PosAt(mc, joins, k) && b.rel[k] == Some(PosAt(mc, joins, k)[joins[k - 1].src])
    {
      assert a.rel[k] == b.rel[k];
    }
  }

  /** Under a sound select, join `ji`'s source is already placed, so placing the join succeeds. */
  lemma PlaceSound(reg: Registry, mc: string, joins: seq<Join>, w: Walk, base: nat, ji: nat)
    requires Sound(reg, mc, joins) && ji < |joins| && Wf(reg, |joins|, w, base) && PosOk(mc, joins, w)
    requires |w.rel| == |joins| + 1 || |w.rel| == JoinPos(ji)
    ensures Place(reg, |joins|, w, base, joins[ji], JoinPos(ji)).Ok?
  {
    assert Joinable(reg, mc, joins, ji);
  }

  /**
   * Under a sound select, the parent position of a placed join is one
   * `current` is set for, so the parent entry the join reads under exists.
   */
  lemma ParentSet(reg: Registry, mc: string, joins: seq<Join>, row: seq<Value>, w: Walk, ji: nat)
    requires Sound(reg, mc, joins) && ji < |joins| && PosOk(mc, joins, w) && |w.rel| > JoinPos(ji)
    requires CurOk(reg, mc, joins, row, w, ji)
    ensures w.rel[JoinPos(ji)] == Some(ParentPos(mc, joins, ji))
    ensures ParentPos(mc, joins, ji) < |w.current| && w.current[ParentPos(mc, joins, ji)].Some?
  {
    ParentAt(reg, mc, joins, w, ji);
    assert CurAt(reg, mc, joins, row, w, ParentPos(mc, joins, ji));
  }

  /**
   * Under a sound select, once join `ji` is placed: its parent position `p`
   * comes before it and holds its source's class, and when the source is a
   * link table, the position the link table was joined from comes before `p`.
   */
  lemma ParentAt(reg: Registry, mc: string, joins: seq<Join>, w: Walk, ji: nat)
    requires Sound(reg, mc, joins) && ji < |joins| && PosOk(mc, joins, w) && |w.rel| > JoinPos(ji)
    ensures var p := ParentPos(mc, joins, ji);
            p <= ji && ClassAt(mc, joins, p) == joins[ji].src && w.rel[JoinPos(ji)] == Some(p) &&
            joins[ji].src in w.pos && w.pos[joins[ji].src] == p
    ensures var p := ParentPos(mc, joins, ji);
            reg[joins[ji].src].manyToMany ==>
              1 <= p && joins[p - 1].src in PosAt(mc, joins, p - 1) &&
              ParentPos(mc, joins, p - 1) < p && w.rel[p] == Some(ParentPos(mc, joins, p - 1)) &&
              ClassAt(mc, joins, ParentPos(mc, joins, p - 1)) == joins[p - 1].src
  {
    var src := joins[ji].src;
    assert Joinable(reg, mc, joins, ji);
    PosAtClass(mc, joins, ji, src);
    PosAtStable(mc, joins, ji, |w.rel| - 1, src);
    PosAtStable(mc, joins, ji, JoinPos(ji), src);
    if reg[src].manyToMany {
      ParentAtLink(reg, mc, joins, w, ji);
    }
  }

  /** The link-table half of `ParentAt`: the link table's own parent comes before it. */
  lemma ParentAtLink(reg: Registry, mc: string, joins: seq<Join>, w: Walk, ji: nat)
    requires Sound(reg, mc, joins) && ji < |joins| && PosOk(mc, joins, w) && |w.rel| > JoinPos(ji)
    requires reg[joins[ji].src].manyToMany
    ensures var p := ParentPos(mc, joins, ji);
            1 <= p && joins[p - 1].src in PosAt(mc, joins, p - 1) &&
            ParentPos(mc, joins, p - 1) < p && w.rel[p] == Some(ParentPos(mc, joins, p - 1)) &&
            ClassAt(mc, joins, ParentPos(mc, joins, p - 1)) == joins[p - 1].src
  {
    var p := ParentPos(mc, joins, ji);
    assert Joinable(reg, mc, joins, ji);
    var q := p - 1;
    var c := joins[q].src;
    assert Joinable(reg, mc, joins, q);
    PosAtClass(mc, joins, q, c);
    PosAtStable(mc, joins, q, q + 1, c);
    assert w.rel[p] == Some(PosAt(mc, joins, p)[c]);
  }

  /** An all-`None` slice: a fresh entry without an instance becomes `current[i]`, under the parent's `"None"` key. */
  function NoneChild(reg: Registry, n: nat, w: Walk, base: nat, pe: nat, i: nat): (r: Walk)
    requires Wf(reg, n, w, base) && pe < |w.entries| && i <= n
    ensures Wf(reg, n, r, base)
    ensures r.heap == w.heap && r.roots == w.roots && r.classList == w.classList && r.pos == w.pos && r.rel == w.rel
    ensures r.current[i].Some? && r.entries[r.current[i].value].model.None?
  {
    WfAddEntry(reg, n, w, base, Entry(None, map[]), pe, i, NoneKey);
    var e := |w.entries|;
    w.(entries := Register(w.entries + [Entry(None, map[])], pe, i, NoneKey, e), current := w.current[i := Some(e)])
  }

  /** The entries stay typed and `current` set through an all-`None` slice. */
  lemma NoneFacts(reg: Registry, mc: string, joins: seq<Join>, row: seq<Value>, st: Walk, base: nat, ji: nat, pe: nat)
    requires Resolved(reg, mc, joins) && ji < |joins| && Wf(reg, |joins|, st, base) && pe < |st.entries|
    requires Typed(reg, mc, joins, st) && CurOk(reg, mc, joins, row, st, ji)
    requires SliceAt(reg, mc, joins, row, JoinPos(ji)) == Nones(Width(reg, joins[ji].dest))
    ensures Typed(reg, mc, joins, NoneChild(reg, |joins|, st, base, pe, JoinPos(ji)))
    ensures CurOk(reg, mc, joins, row, NoneChild(reg, |joins|, st, base, pe, JoinPos(ji)), JoinPos(ji))
  {
    var r := NoneChild(reg, |joins|, st, base, pe, JoinPos(ji));
    TypedRegister(reg, mc, joins, st, r, Entry(None, map[]), pe, JoinPos(ji), NoneKey);
    CurOkExtends(reg, mc, joins, row, st, r, ji);
    assert ClassAt(mc, joins, JoinPos(ji)) == joins[ji].dest;
    assert CurAt(reg, mc, joins, row, r, JoinPos(ji));
  }

  /** The entries stay typed and `current` set when a slice seen before is reused. */
  lemma SeenFacts(reg: Registry, mc: string, joins: seq<Join>, row: seq<Value>, st: Walk, ji: nat, pe: nat, s: seq<Value>)
    requires Resolved(reg, mc, joins) && ji < |joins| && |st.current| == |joins| + 1
    requires Typed(reg, mc, joins, st) && CurOk(reg, mc, joins, row, st, ji) && Seen(st.entries, pe, JoinPos(ji), s)
    ensures Typed(reg, mc, joins, st.(current := st.current[JoinPos(ji) := Some(st.entries[pe].children[JoinPos(ji)][SliceKey(s)])]))
    ensures CurOk(reg, mc, joins, row, st.(current := st.current[JoinPos(ji) := Some(st.entries[pe].children[JoinPos(ji)][SliceKey(s)])]),
                  JoinPos(ji))
  {
    var c := st.entries[pe].children[JoinPos(ji)][SliceKey(s)];
    assert KeyTyped(reg, mc, joins, st, JoinPos(ji), SliceKey(s), c);
    var r := st.(current := st.current[JoinPos(ji) := Some(c)]);
    assert Typed(reg, mc, joins, r) by {
      TypedExtends(reg, mc, joins, st, st.heap);
      assert r.heap == st.heap && r.entries == st.entries && r.roots == st.roots;
    }
    CurOkExtends(reg, mc, joins, row, st, r, ji);
    assert CurAt(reg, mc, joins, row, r, JoinPos(ji));
  }

  /**
   * The walk once the instance made from slice `s` ends the arena, in a new
   * entry registered under `pe` and made `current[i]`.
   */
  function Child(reg: Registry, n: nat, w: Walk, base: nat, dest: string, pe: nat, i: nat, s: seq<Value>): (r: Walk)
    requires Wf(reg, n, w, base) && Named(reg) && dest in reg && pe < |w.entries| && i <= n
    requires forall j :: 0 <= j < |s| ==> Plain(s[j])
    ensures Wf(reg, n, r, base) && Fresh(reg, dest, s).Ok? && Fresh(reg, dest, s).value.cls == dest
    ensures r.heap == w.heap + [Fresh(reg, dest, s).value]
    ensures r.entries == Register(w.entries + [Entry(Some(|w.heap|), map[])], pe, i, SliceKey(s), |w.entries|)
    ensures r.current == w.current[i := Some(|w.entries|)]
    ensures r.roots == w.roots && r.classList == w.classList && r.pos == w.pos && r.rel == w.rel
  {
    FreshFromPlain(reg, dest, s, w.heap);
    var inst := Fresh(reg, dest, s).value;
    WfHeapGrow(reg, n, w, inst, base);
    var st := w.(heap := w.heap + [inst]);
    WfAddEntry(reg, n, st, base, Entry(Some(|w.heap|), map[]), pe, i, SliceKey(s));
    st.(entries := Register(st.entries + [Entry(Some(|w.heap|), map[])], pe, i, SliceKey(s), |w.entries|),
        current := st.current[i := Some(|w.entries|)])
  }

  /** The wiring of `Child`'s new instance to the instance of the parent entry. */
  function ChildWire(reg: Registry, n: nat, w: Walk, base: nat, join: Join, pe: nat, i: nat, s: seq<Value>)
      : (r: Result<seq<Instance>>)
    requires Wf(reg, n, w, base) && Named(reg) && join.src in reg && join.dest in reg && pe < |w.entries| && i <= n
    requires forall j :: 0 <= j < |s| ==> Plain(s[j])
    ensures r.Ok? ==> |r.value| == |w.heap| + 1 && Keeps(Child(reg, n, w, base, join.dest, pe, i, s).heap, r.value, base)
  {
    assert EntryOk(reg, w.heap, |w.entries|, base, w.entries[pe]);
    Wire(reg, n, Child(reg, n, w, base, join.dest, pe, i, s), base, join.src, join.dest, w.entries[pe].model, |w.heap|)
  }

  /** The instance `ChildWire` wires the new instance to. */
  function ChildPeer(reg: Registry, n: nat, w: Walk, base: nat, join: Join, pe: nat, i: nat, s: seq<Value>): Option<nat>
    requires Wf(reg, n, w, base) && Named(reg) && join.src in reg && join.dest in reg && pe < |w.entries| && i <= n
    requires forall j :: 0 <= j < |s| ==> Plain(s[j])
  {
    assert EntryOk(reg, w.heap, |w.entries|, base, w.entries[pe]);
    WirePeer(reg, n, Child(reg, n, w, base, join.dest, pe, i, s), base, join.src, join.dest, w.entries[pe].model)
  }

  /**
   * A slice not yet seen under the parent entry: a new instance from the
   * slice, in a new entry registered under the parent and made `current[i]`,
   * then wired to the parent; the step fails exactly when the wiring does.
   */
  method MakeChild(reg: Registry, n: nat, w: Walk, base: nat, join: Join, pe: nat, i: nat, s: seq<Value>)
      returns (r: Result<Walk>, ghost born: Instance, ghost peer: Option<nat>)
    requires Wf(reg, n, w, base) && Named(reg) && join.src in reg && join.dest in reg
    requires pe < |w.entries| && i <= n && !Seen(w.entries, pe, i, s)
    requires forall j :: 0 <= j < |s| ==> Plain(s[j])
    ensures Fresh(reg, join.dest, s) == Ok(born) && peer == ChildPeer(reg, n, w, base, join, pe, i, s)
    ensures r.Err? <==> ChildWire(reg, n, w, base, join, pe, i, s).Err?
    ensures r.Ok? ==> r.value == Child(reg, n, w, base, join.dest, pe, i, s).(heap := ChildWire(reg, n, w, base, join, pe, i, s).value)
    ensures r.Ok? ==> Wf(reg, n, r.value, base) && Keeps(w.heap, r.value.heap, base)
    ensures r.Ok? ==> |r.value.heap| == |w.heap| + 1 && r.value.heap[|w.heap|].cls == born.cls
    ensures r.Ok? ==> r.value.roots == w.roots && r.value.classList == w.classList &&
                      r.value.pos == w.pos && r.value.rel == w.rel
    ensures r.Ok? ==> Seen(r.value.entries, pe, i, s) &&
                      r.value.current[i] == Some(r.value.entries[pe].children[i][SliceKey(s)]) &&
                      r.value.entries[r.value.current[i].value].model == Some(|w.heap|)
  {
    var st := Child(reg, n, w, base, join.dest, pe, i, s);
    born := Fresh(reg, join.dest, s).value;
    peer := ChildPeer(reg, n, w, base, join, pe, i, s);
    var heap :- ChildWire(reg, n, w, base, join, pe, i, s);
    WfKeeps(reg, n, st, heap, base);
    KeepsTrans(w.heap, st.heap, heap, base);
    r := Ok(st.(heap := heap));
  }

  /**
   * The child at position `i` under parent entry `pe`: an all-`None` slice
   * makes no instance and wires nothing; a slice the parent entry already
   * holds for this position is reused, and nothing is made or wired again;
   * any other slice makes one new instance, registered under the parent, and
   * the step fails exactly when wiring it does.
   */
  method ChildStep(reg: Registry, n: nat, w: Walk, base: nat, join: Join, pe: nat, i: nat, s: seq<Value>)
      returns (r: Result<Walk>, ghost born: Option<Instance>, ghost peer: Option<nat>)
    requires Wf(reg, n, w, base) && Named(reg) && join.src in reg && join.dest in reg
    requires pe < |w.entries| && i <= n
    requires forall j :: 0 <= j < |s| ==> Plain(s[j])
    ensures r.Ok? ==> Wf(reg, n, r.value, base) && Keeps(w.heap, r.value.heap, base)
    ensures r.Ok? ==> r.value.roots == w.roots && r.value.classList == w.classList &&
                      r.value.pos == w.pos && r.value.rel == w.rel
    ensures r.Ok? ==> |r.value.heap| == |w.heap| + (if born.Some? then 1 else 0)
    ensures born.Some? ==> Fresh(reg, join.dest, s) == Ok(born.value) && s != Nones(Width(reg, join.dest))
    ensures r.Ok? && born.Some? ==> r.value.heap[|w.heap|].cls == born.value.cls
    ensures s == Nones(Width(reg, join.dest)) ==>
              born.None? && r == Ok(NoneChild(reg, n, w, base, pe, i)) && r.value.heap == w.heap &&
              r.value.current[i].Some? && r.value.entries[r.value.current[i].value].model.None?
    ensures s != Nones(Width(reg, join.dest)) && Seen(w.entries, pe, i, s) ==>
              born.None? && r == Ok(w.(current := w.current[i := Some(w.entries[pe].children[i][SliceKey(s)])]))
    ensures s != Nones(Width(reg, join.dest)) && !Seen(w.entries, pe, i, s) ==>
              born.Some? && peer == ChildPeer(reg, n, w, base, join, pe, i, s) &&
              (r.Err? <==> ChildWire(reg, n, w, base, join, pe, i, s).Err?) &&
              (r.Ok? ==> r.value == Child(reg, n, w, base, join.dest, pe, i, s).(heap := ChildWire(reg, n, w, base, join, pe, i, s).value))
    ensures s != Nones(Width(reg, join.dest)) && !Seen(w.entries, pe, i, s) && r.Ok? ==>
              Seen(r.value.entries, pe, i, s) &&
              r.value.current[i] == Some(r.value.entries[pe].children[i][SliceKey(s)]) &&
              r.value.entries[r.value.current[i].value].model == Some(|w.heap|)
  {
    born := None;
    peer := None;
    if s == Nones(Width(reg, join.dest)) {
      r := Ok(NoneChild(reg, n, w, base, pe, i));
    } else if Seen(w.entries, pe, i, s) {
      r := Ok(w.(current := w.current[i := Some(w.entries[pe].children[i][SliceKey(s)])]));
    } else {
      ghost var inst;
      r, inst, peer := MakeChild(reg, n, w, base, join, pe, i, s);
      born := Some(inst);
    }
  }

  /** The entries stay typed and `current` set when a new instance is made for join `ji`. */
  lemma NewFacts(reg: Registry, mc: string, joins: seq<Join>, row: seq<Value>, st: Walk, base: nat, ji: nat, pe: nat,
                 s: seq<Value>)
    requires Resolved(reg, mc, joins) && Named(reg) && ji < |joins| && Wf(reg, |joins|, st, base) && pe < |st.entries|
    requires Typed(reg, mc, joins, st) && CurOk(reg, mc, joins, row, st, ji)
    requires forall j :: 0 <= j < |s| ==> Plain(s[j])
    ensures var c := Child(reg, |joins|, st, base, joins[ji].dest, pe, JoinPos(ji), s);
            Typed(reg, mc, joins, c) && CurOk(reg, mc, joins, row, c, JoinPos(ji)) && Extends(st, c)
  {
    var c := Child(reg, |joins|, st, base, joins[ji].dest, pe, JoinPos(ji), s);
    assert ClassAt(mc, joins, JoinPos(ji)) == joins[ji].dest;
    assert (st.entries + [Entry(Some(|st.heap|), map[])])[|st.entries|].model == Some(|st.heap|);
    TypedRegister(reg, mc, joins, st, c, Entry(Some(|st.heap|), map[]), pe, JoinPos(ji), SliceKey(s));
    CurOkExtends(reg, mc, joins, row, st, c, ji);
    assert CurAt(reg, mc, joins, row, c, JoinPos(ji));
  }

  /** The entries stay typed and `current` set when only the instances' attributes change. */
  lemma HeapFacts(reg: Registry, mc: string, joins: seq<Join>, row: seq<Value>, w: Walk, heap: seq<Instance>, base: nat,
                  upto: nat)
    requires Resolved(reg, mc, joins) && upto <= |joins| && Typed(reg, mc, joins, w) && CurOk(reg, mc, joins, row, w, upto)
    requires |heap| == |w.heap| && Keeps(w.heap, heap, base)
    ensures Typed(reg, mc, joins, w.(heap := heap)) && CurOk(reg, mc, joins, row, w.(heap := heap), upto)
  {
    TypedExtends(reg, mc, joins, w, heap);
    assert CurAt(reg, mc, joins, row, w, upto);
    CurOkExtends(reg, mc, joins, row, w, w.(heap := heap), upto);
  }

  /**
   * Under a sound select and a consistent row, the new instance of join `ji`
   * can be wired: its parent holds an instance of the source, and through a
   * link table the far end holds one too.
   */
  lemma NewWires(reg: Registry, mc: string, joins: seq<Join>, row: seq<Value>, st: Walk, base: nat, ji: nat, pe: nat,
                 s: seq<Value>)
    requires Sound(reg, mc, joins) && Named(reg) && Consistent(reg, mc, joins, row) && ji < |joins|
    requires Wf(reg, |joins|, st, base) && PosOk(mc, joins, st) && |st.rel| > JoinPos(ji)
    requires CurOk(reg, mc, joins, row, st, ji) && ShapedFrom(reg, st.heap, base)
    requires st.current[ParentPos(mc, joins, ji)] == Some(pe)
    requires s == SliceAt(reg, mc, joins, row, JoinPos(ji)) && s != Nones(Width(reg, joins[ji].dest))
    requires forall j :: 0 <= j < |s| ==> Plain(s[j])
    ensures ChildWire(reg, |joins|, st, base, joins[ji], pe, JoinPos(ji), s).Ok?
  {
    var src := joins[ji].src;
    var dest := joins[ji].dest;
    if reg[src].manyToMany {
      LinkRow(reg, mc, joins, row, ji);
      var p, q := LinkEnds(reg, mc, joins, row, st, base, ji, pe);
      LinkWires(reg, joins, st, base, ji, pe, s, p, q);
    } else if !reg[dest].manyToMany {
      var p := ParentPos(mc, joins, ji);
      ParentAt(reg, mc, joins, st, ji);
      assert Joinable(reg, mc, joins, ji);
      assert ConsistentAt(reg, mc, joins, row, ji);
      assert CurAt(reg, mc, joins, row, st, p);
      var c := Child(reg, |joins|, st, base, dest, pe, JoinPos(ji), s);
      var parent := st.entries[pe].model.value;
      assert EntryOk(reg, st.heap, |st.entries|, base, st.entries[pe]);
      assert c.heap[parent] == st.heap[parent];
      FreshShaped(reg, dest, s);
      assert c.heap[|st.heap|] == Fresh(reg, dest, s).value;
      assert src in c.pos && c.heap[parent].cls == src && c.heap[|st.heap|].cls == dest;
      WireKeyOk(reg, c.heap, dest, parent, |st.heap|);
    } else {
      ParentAt(reg, mc, joins, st, ji);
    }
  }

  /**
   * `NewWires` through a link table, from the two ends `LinkEnds` finds:
   * the link table at position `p` and the far end at position `q`.
   */
  lemma LinkWires(reg: Registry, joins: seq<Join>, st: Walk, base: nat, ji: nat, pe: nat, s: seq<Value>, p: nat, q: nat)
    requires Wf(reg, |joins|, st, base) && Named(reg) && ji < |joins| && |st.rel| > JoinPos(ji) && pe < |st.entries|
    requires ShapedFrom(reg, st.heap, base) && forall j :: 0 <= j < |s| ==> Plain(s[j])
    requires joins[ji].src in reg && joins[ji].dest in reg && reg[joins[ji].src].manyToMany
    requires joins[ji].dest in reg[joins[ji].src].relClass
    requires 1 <= p <= ji && q < p
    requires var src := joins[ji].src;
             var dest := joins[ji].dest;
             var f := reg[src].relClass[dest];
             src in st.pos && st.pos[src] == p && Holds(st, pe, src) &&
             RelatedName(f).Ok? && RelatedName(f).value in reg[dest].reverseRel &&
             st.rel[p] == Some(q) && st.current[q].Some? && joins[p - 1].src in reg &&
             Holds(st, st.current[q].value, joins[p - 1].src) && f.name in reg[joins[p - 1].src].reverseRel
    ensures ChildWire(reg, |joins|, st, base, joins[ji], pe, JoinPos(ji), s).Ok?
  {
    var src := joins[ji].src;
    var dest := joins[ji].dest;
    var eq := st.current[q].value;
    var parent := st.entries[pe].model.value;
    var far := st.entries[eq].model.value;
    assert base <= parent && base <= far by {
      assert EntryOk(reg, st.heap, |st.entries|, base, st.entries[pe]);
      assert EntryOk(reg, st.heap, |st.entries|, base, st.entries[eq]);
    }
    var c := Child(reg, |joins|, st, base, dest, pe, JoinPos(ji), s);
    var newObj := |st.heap|;
    FreshShaped(reg, dest, s);
    assert c.heap[newObj] == Fresh(reg, dest, s).value;
    assert c.heap[parent] == st.heap[parent] && c.heap[far] == st.heap[far];
    assert c.current[q] == st.current[q] && c.entries[eq].model == st.entries[eq].model;
    LinkWireOk(reg, |joins|, c, base, src, dest, parent, newObj, p, q, eq);
  }

  /**
   * Under a sound select and a consistent row, the two ends a join from a link
   * table links: the parent entry holds an instance of the link table, and the
   * entry at the link table's own parent position one of the far class.
   */
  lemma LinkEnds(reg: Registry, mc: string, joins: seq<Join>, row: seq<Value>, st: Walk, base: nat, ji: nat, pe: nat)
      returns (p: nat, q: nat)
    requires Sound(reg, mc, joins) && ji < |joins| && LinkFilled(reg, mc, joins, row, ji)
    requires Wf(reg, |joins|, st, base) && PosOk(mc, joins, st) && |st.rel| > JoinPos(ji)
    requires CurOk(reg, mc, joins, row, st, ji)
    requires st.current[ParentPos(mc, joins, ji)] == Some(pe)
    requires reg[joins[ji].src].manyToMany
    ensures p == ParentPos(mc, joins, ji) && 1 <= p <= ji && q == ParentPos(mc, joins, p - 1) && q < p
    ensures joins[ji].dest in reg[joins[ji].src].relClass
    ensures var src := joins[ji].src;
            var dest := joins[ji].dest;
            var f := reg[src].relClass[dest];
            src in st.pos && st.pos[src] == p && Holds(st, pe, src) &&
            RelatedName(f).Ok? && RelatedName(f).value in reg[dest].reverseRel &&
            st.rel[p] == Some(q) && st.current[q].Some? && joins[p - 1].src in reg &&
            Holds(st, st.current[q].value, joins[p - 1].src) && f.name in reg[joins[p - 1].src].reverseRel
  {
    p, q := LinkNear(reg, mc, joins, row, st, base, ji, pe);
    LinkFar(reg, mc, joins, row, st, ji, p, q);
  }

  /** The parent end of a join from a link table, and where the link table's own parent sits. */
  lemma LinkNear(reg: Registry, mc: string, joins: seq<Join>, row: seq<Value>, st: Walk, base: nat, ji: nat, pe: nat)
      returns (p: nat, q: nat)
    requires Sound(reg, mc, joins) && ji < |joins| && LinkFilled(reg, mc, joins, row, ji)
    requires Wf(reg, |joins|, st, base) && PosOk(mc, joins, st) && |st.rel| > JoinPos(ji)
    requires CurOk(reg, mc, joins, row, st, ji)
    requires st.current[ParentPos(mc, joins, ji)] == Some(pe)
    requires reg[joins[ji].src].manyToMany
    ensures p == ParentPos(mc, joins, ji) && 1 <= p <= ji && q == ParentPos(mc, joins, p - 1) && q < p
    ensures joins[ji].dest in reg[joins[ji].src].relClass && ClassAt(mc, joins, q) == joins[p - 1].src
    ensures var src := joins[ji].src;
            var dest := joins[ji].dest;
            var f := reg[src].relClass[dest];
            src in st.pos && st.pos[src] == p && Holds(st, pe, src) &&
            RelatedName(f).Ok? && RelatedName(f).value in reg[dest].reverseRel &&
            st.rel[p] == Some(q) && joins[p - 1].src in reg && f.name in reg[joins[p - 1].src].reverseRel
  {
    p := ParentPos(mc, joins, ji);
    ParentAt(reg, mc, joins, st, ji);
    LinkFields(reg, mc, joins, ji);
    q := ParentPos(mc, joins, p - 1);
    CurHolds(reg, mc, joins, row, st, p, ji, joins[ji].src);
  }

  /** The far end of a join from a link table: the entry at the link table's own parent position. */
  lemma LinkFar(reg: Registry, mc: string, joins: seq<Join>, row: seq<Value>, st: Walk, ji: nat, p: nat, q: nat)
    requires Resolved(reg, mc, joins) && ji < |joins| && LinkFilled(reg, mc, joins, row, ji)
    requires CurOk(reg, mc, joins, row, st, ji)
    requires p == ParentPos(mc, joins, ji) && 1 <= p <= ji && q == ParentPos(mc, joins, p - 1) && q < p
    requires ClassAt(mc, joins, q) == joins[p - 1].src
    ensures q < |st.current| && st.current[q].Some? && Holds(st, st.current[q].value, joins[p - 1].src)
  {
    CurHolds(reg, mc, joins, row, st, q, ji, joins[p - 1].src);
  }

  /** A filled position set in `current` holds an instance of its class. */
  lemma CurHolds(reg: Registry, mc: string, joins: seq<Join>, row: seq<Value>, st: Walk, k: nat, upto: nat, cls: string)
    requires Resolved(reg, mc, joins) && k <= upto <= |joins| && CurOk(reg, mc, joins, row, st, upto)
    requires Filled(reg, mc, joins, row, k) && ClassAt(mc, joins, k) == cls
    ensures k < |st.current| && st.current[k].Some? && Holds(st, st.current[k].value, cls)
  {
    assert CurAt(reg, mc, joins, row, st, k);
  }

  /** `Wire` through a link table succeeds once the far end is found and both ends can take the new links. */
  lemma LinkWireOk(reg: Registry, n: nat, c: Walk, base: nat, src: string, dest: string, parent: nat, newObj: nat,
                   p: nat, q: nat, eq: nat)
    requires Wf(reg, n, c, base) && src in reg && dest in reg && reg[src].manyToMany
    requires base <= parent < newObj < |c.heap| && c.heap[parent].cls == src && c.heap[newObj].cls == dest
    requires src in c.pos && c.pos[src] == p && p < |c.rel| && c.rel[p] == Some(q)
    requires q < |c.current| && c.current[q] == Some(eq) && eq < |c.entries| && c.entries[eq].model.Some?
    requires var far := c.entries[eq].model.value;
             base <= far < |c.heap| && Shaped(reg, c.heap[far]) && Shaped(reg, c.heap[newObj]) &&
             dest in reg[src].relClass &&
             var f := reg[src].relClass[dest];
             RelatedName(f).Ok? && RelatedName(f).value in reg[dest].reverseRel && f.name in reg[c.heap[far].cls].reverseRel
    ensures Wire(reg, n, c, base, src, dest, Some(parent), newObj).Ok?
  {
    FarEndAt(reg, n, c, base, parent, dest, q, eq);
    WireLinkOk(reg, n, c, base, dest, parent, newObj);
  }

  /** What a sound select promises of a join from a link table: the link field names a collection on each far end. */
  lemma LinkFields(reg: Registry, mc: string, joins: seq<Join>, ji: nat)
    requires Sound(reg, mc, joins) && ji < |joins| && reg[joins[ji].src].manyToMany
    ensures joins[ji].dest in reg[joins[ji].src].relClass
    ensures var p := ParentPos(mc, joins, ji);
            var f := reg[joins[ji].src].relClass[joins[ji].dest];
            1 <= p &&
            RelatedName(f).Ok? && RelatedName(f).value in reg[joins[ji].dest].reverseRel &&
            f.name in reg[joins[p - 1].src].reverseRel
  {
    assert Joinable(reg, mc, joins, ji);
  }

  /**
   * In a consistent row, when join `ji` from a link table has a new slice, so
   * has the link table's own parent position, unless it is the root.
   */
  lemma LinkRow(reg: Registry, mc: string, joins: seq<Join>, row: seq<Value>, ji: nat)
    requires Sound(reg, mc, joins) && Consistent(reg, mc, joins, row) && ji < |joins| && reg[joins[ji].src].manyToMany
    requires SliceAt(reg, mc, joins, row, JoinPos(ji)) != Nones(Width(reg, joins[ji].dest))
    ensures LinkFilled(reg, mc, joins, row, ji)
  {
    var p := ParentPos(mc, joins, ji);
    LinkFields(reg, mc, joins, ji);
    assert Joinable(reg, mc, joins, ji) && Joinable(reg, mc, joins, p - 1);
    assert ConsistentAt(reg, mc, joins, row, ji);
    assert ConsistentAt(reg, mc, joins, row, p - 1);
  }

  /** Position `k` of the row holds an instance: the root, or columns not all `None`. */
  predicate Filled(reg: Registry, mc: string, joins: seq<Join>, row: seq<Value>, k: nat)
    requires Resolved(reg, mc, joins) && k <= |joins|
  {
    k == 0 || SliceAt(reg, mc, joins, row, k) != Nones(Width(reg, ClassAt(mc, joins, k)))
  }

  /** Both ends join `ji` links through a link table are filled in this row. */
  predicate LinkFilled(reg: Registry, mc: string, joins: seq<Join>, row: seq<Value>, ji: nat)
    requires Resolved(reg, mc, joins) && ji < |joins|
  {
    var p := ParentPos(mc, joins, ji);
    1 <= p && Filled(reg, mc, joins, row, p) && Filled(reg, mc, joins, row, ParentPos(mc, joins, p - 1))
  }

  /** The far end of a link table, read off the parent entry the link table was joined from. */
  lemma FarEndAt(reg: Registry, n: nat, w: Walk, base: nat, p: nat, dest: string, q: nat, e: nat)
    requires Wf(reg, n, w, base) && p < |w.heap| && w.heap[p].cls in reg
    requires w.heap[p].cls in w.pos && dest in reg[w.heap[p].cls].relClass
    requires w.pos[w.heap[p].cls] < |w.rel| && w.rel[w.pos[w.heap[p].cls]] == Some(q)
    requires q < |w.current| && w.current[q] == Some(e) && e < |w.entries| && w.entries[e].model.Some?
    ensures FarEnd(reg, n, w, base, p, dest) == Some((reg[w.heap[p].cls].relClass[dest], w.entries[e].model.value))
  {
  }

  /**
   * Under a sound select, wiring the new instance of join `ji` keeps every
   * instance shaped, only grows the collections, and leaves the new instance
   * wired to its peer.
   */
  lemma NewWired(reg: Registry, mc: string, joins: seq<Join>, row: seq<Value>, st: Walk, base: nat, ji: nat, pe: nat,
                 s: seq<Value>)
    requires Sound(reg, mc, joins) && Named(reg) && ji < |joins|
    requires Wf(reg, |joins|, st, base) && PosOk(mc, joins, st) && |st.rel| > JoinPos(ji)
    requires CurOk(reg, mc, joins, row, st, ji) && ShapedFrom(reg, st.heap, base)
    requires st.current[ParentPos(mc, joins, ji)] == Some(pe)
    requires forall j :: 0 <= j < |s| ==> Plain(s[j])
    requires ChildWire(reg, |joins|, st, base, joins[ji], pe, JoinPos(ji), s).Ok?
    ensures var h := ChildWire(reg, |joins|, st, base, joins[ji], pe, JoinPos(ji), s).value;
            ShapedFrom(reg, h, base) && Grows(reg, st.heap, h) &&
            BirthWired(reg, mc, joins, h, base, |st.heap|, JoinPos(ji), ChildPeer(reg, |joins|, st, base, joins[ji], pe, JoinPos(ji), s))
  {
    var p, q := WireEnds(reg, mc, joins, row, st, ji, pe);
    var h := ChildWire(reg, |joins|, st, base, joins[ji], pe, JoinPos(ji), s).value;
    var peer := ChildPeer(reg, |joins|, st, base, joins[ji], pe, JoinPos(ji), s);
    if reg[joins[ji].src].manyToMany {
      LinkWired(reg, joins, st, base, ji, pe, s, p, q);
    } else if !reg[joins[ji].dest].manyToMany {
      KeyWired(reg, joins, st, base, ji, pe, s);
    } else {
      ChildGrows(reg, joins, st, base, ji, pe, s);
    }
    BirthWiredAt(reg, mc, joins, h, base, |st.heap|, ji, peer);
  }

  /**
   * What a sound select tells about the ends join `ji` wires: the parent
   * entry holds an instance of the join's source, and through a link table
   * `current[q]`, at the link table's own parent position `q`, one of the
   * class joined into the link table.
   */
  lemma WireEnds(reg: Registry, mc: string, joins: seq<Join>, row: seq<Value>, st: Walk, ji: nat, pe: nat)
      returns (p: nat, q: nat)
    requires Sound(reg, mc, joins) && ji < |joins| && PosOk(mc, joins, st) && |st.rel| > JoinPos(ji) && ji < |st.current|
    requires CurOk(reg, mc, joins, row, st, ji) && st.current[ParentPos(mc, joins, ji)] == Some(pe)
    ensures p == ParentPos(mc, joins, ji) && p <= ji && joins[ji].src in st.pos && st.pos[joins[ji].src] == p
    ensures pe < |st.entries| && (st.entries[pe].model.Some? ==> Holds(st, pe, joins[ji].src))
    ensures reg[joins[ji].src].manyToMany ==>
              1 <= p && PeerClass(reg, mc, joins, ji) == joins[p - 1].src && LinkReady(reg, joins, st, ji, p, q)
    ensures !reg[joins[ji].src].manyToMany ==> PeerClass(reg, mc, joins, ji) == joins[ji].src
    ensures !reg[joins[ji].src].manyToMany && !reg[joins[ji].dest].manyToMany ==>
              joins[ji].dest in reg[joins[ji].src].relClass &&
              KeyReady(reg, joins[ji].src, joins[ji].dest, reg[joins[ji].src].relClass[joins[ji].dest])
  {
    p := ParentPos(mc, joins, ji);
    ParentAt(reg, mc, joins, st, ji);
    assert Joinable(reg, mc, joins, ji);
    assert CurAt(reg, mc, joins, row, st, p);
    q := 0;
    if reg[joins[ji].src].manyToMany {
      q := ParentPos(mc, joins, p - 1);
      assert CurAt(reg, mc, joins, row, st, q);
      assert Joinable(reg, mc, joins, p - 1);
    }
  }

  /**
   * The far end of a child read through the link table at position `p`:
   * the link table's own parent sits at `q`, where `current` holds an
   * instance of the class joined into the link table, and the relation
   * names on both ends exist.
   */
  predicate LinkReady(reg: Registry, joins: seq<Join>, st: Walk, ji: nat, p: nat, q: nat)
    requires ji < |joins| && joins[ji].src in reg && joins[ji].dest in reg
  {
    1 <= p <= ji && q < p && joins[p - 1].src in reg && p < |st.rel| && st.rel[p] == Some(q) &&
    q < |st.current| && st.current[q].Some? && st.current[q].value < |st.entries| &&
    (st.entries[st.current[q].value].model.Some? ==> Holds(st, st.current[q].value, joins[p - 1].src)) &&
    joins[ji].dest in reg[joins[ji].src].relClass &&
    var f := reg[joins[ji].src].relClass[joins[ji].dest];
    RelatedName(f).Ok? && RelatedName(f).value in reg[joins[ji].dest].reverseRel &&
    f.name in reg[joins[p - 1].src].reverseRel
  }

  /** `BirthWired` at position `JoinPos(ji)`, from the wiring of join `ji`. */
  lemma BirthWiredAt(reg: Registry, mc: string, joins: seq<Join>, h: seq<Instance>, base: nat, obj: nat, ji: nat,
                     peer: Option<nat>)
    requires Sound(reg, mc, joins) && ji < |joins|
    requires Wiring(reg, joins[ji].src, joins[ji].dest) ==>
               peer.Some? && base <= peer.value < |h| && h[peer.value].cls == PeerClass(reg, mc, joins, ji) &&
               Wired(reg, joins[ji].src, joins[ji].dest, h, obj, peer.value)
    ensures BirthWired(reg, mc, joins, h, base, obj, JoinPos(ji), peer)
  {
  }

  /** The new instance alone keeps the heap shaped and every reverse list. */
  lemma ChildGrows(reg: Registry, joins: seq<Join>, st: Walk, base: nat, ji: nat, pe: nat, s: seq<Value>)
    requires Wf(reg, |joins|, st, base) && Named(reg) && ji < |joins| && pe < |st.entries|
    requires joins[ji].src in reg && joins[ji].dest in reg
    requires ShapedFrom(reg, st.heap, base) && forall j :: 0 <= j < |s| ==> Plain(s[j])
    ensures var c := Child(reg, |joins|, st, base, joins[ji].dest, pe, JoinPos(ji), s);
            ShapedFrom(reg, c.heap, base) && Grows(reg, st.heap, c.heap) && Shaped(reg, c.heap[|st.heap|])
  {
    var dest := joins[ji].dest;
    var c := Child(reg, |joins|, st, base, dest, pe, JoinPos(ji), s);
    var newObj := |st.heap|;
    FreshShaped(reg, dest, s);
    assert c.heap[newObj] == Fresh(reg, dest, s).value;
    assert ShapedFrom(reg, c.heap, base) by {
      forall o | base <= o < |c.heap|
        ensures Shaped(reg, c.heap[o])
      {
        if o < |st.heap| {
          assert c.heap[o] == st.heap[o];
        }
      }
    }
    assert Grows(reg, st.heap, c.heap) by {
      forall o: nat, a: string, x: nat | RevList(reg, st.heap, o, a, x)
        ensures RevList(reg, c.heap, o, a, x)
      {
        assert c.heap[o] == st.heap[o];
      }
    }
  }

  /**
   * A child read through a link table (at position `p`, whose own parent is
   * at `q`) is wired to the far end `current[q]` holds, an instance of the
   * class joined into the link table.
   */
  lemma LinkWired(reg: Registry, joins: seq<Join>, st: Walk, base: nat, ji: nat, pe: nat, s: seq<Value>, p: nat, q: nat)
    requires Wf(reg, |joins|, st, base) && Named(reg) && ji < |joins| && pe < |st.entries|
    requires joins[ji].src in reg && joins[ji].dest in reg && reg[joins[ji].src].manyToMany
    requires ShapedFrom(reg, st.heap, base) && forall j :: 0 <= j < |s| ==> Plain(s[j])
    requires joins[ji].src in st.pos && st.pos[joins[ji].src] == p
    requires st.entries[pe].model.Some? ==> Holds(st, pe, joins[ji].src)
    requires LinkReady(reg, joins, st, ji, p, q)
    requires ChildWire(reg, |joins|, st, base, joins[ji], pe, JoinPos(ji), s).Ok?
    ensures var h := ChildWire(reg, |joins|, st, base, joins[ji], pe, JoinPos(ji), s).value;
            ShapedFrom(reg, h, base) && Grows(reg, st.heap, h)
    ensures var h := ChildWire(reg, |joins|, st, base, joins[ji], pe, JoinPos(ji), s).value;
            var peer := ChildPeer(reg, |joins|, st, base, joins[ji], pe, JoinPos(ji), s);
            peer.Some? && base <= peer.value < |h| && h[peer.value].cls == joins[p - 1].src
    ensures var h := ChildWire(reg, |joins|, st, base, joins[ji], pe, JoinPos(ji), s).value;
            var peer := ChildPeer(reg, |joins|, st, base, joins[ji], pe, JoinPos(ji), s);
            peer.Some? && Wired(reg, joins[ji].src, joins[ji].dest, h, |st.heap|, peer.value)
  {
    var dest := joins[ji].dest;
    var c := Child(reg, |joins|, st, base, dest, pe, JoinPos(ji), s);
    var newObj := |st.heap|;
    ChildGrows(reg, joins, st, base, ji, pe, s);
    assert EntryOk(reg, st.heap, |st.entries|, base, st.entries[pe]);
    var parent := st.entries[pe].model;
    assert c.heap[parent.value] == st.heap[parent.value];
    WireLinkShapes(reg, |joins|, c, base, dest, parent, newObj);
    assert c.current[q] == st.current[q];
    var eq := st.current[q].value;
    assert c.entries[eq].model == st.entries[eq].model;
    var far := FarEnd(reg, |joins|, c, base, parent.value, dest);
    assert ChildWire(reg, |joins|, st, base, joins[ji], pe, JoinPos(ji), s) == WireLink(reg, |joins|, c, base, dest, parent, newObj);
    assert ChildPeer(reg, |joins|, st, base, joins[ji], pe, JoinPos(ji), s) == Some(far.value.1);
    assert far.value.0 == reg[joins[ji].src].relClass[dest];
    GrowsTrans(reg, st.heap, c.heap, ChildWire(reg, |joins|, st, base, joins[ji], pe, JoinPos(ji), s).value);
  }

  /** A child read through a key is wired to its parent, an instance of the join's source. */
  lemma KeyWired(reg: Registry, joins: seq<Join>, st: Walk, base: nat, ji: nat, pe: nat, s: seq<Value>)
    requires Wf(reg, |joins|, st, base) && Named(reg) && ji < |joins| && pe < |st.entries|
    requires joins[ji].src in reg && joins[ji].dest in reg
    requires !reg[joins[ji].src].manyToMany && !reg[joins[ji].dest].manyToMany
    requires joins[ji].dest in reg[joins[ji].src].relClass &&
             KeyReady(reg, joins[ji].src, joins[ji].dest, reg[joins[ji].src].relClass[joins[ji].dest])
    requires ShapedFrom(reg, st.heap, base) && forall j :: 0 <= j < |s| ==> Plain(s[j])
    requires joins[ji].src in st.pos && (st.entries[pe].model.Some? ==> Holds(st, pe, joins[ji].src))
    requires ChildWire(reg, |joins|, st, base, joins[ji], pe, JoinPos(ji), s).Ok?
    ensures var h := ChildWire(reg, |joins|, st, base, joins[ji], pe, JoinPos(ji), s).value;
            ShapedFrom(reg, h, base) && Grows(reg, st.heap, h)
    ensures var h := ChildWire(reg, |joins|, st, base, joins[ji], pe, JoinPos(ji), s).value;
            var peer := ChildPeer(reg, |joins|, st, base, joins[ji], pe, JoinPos(ji), s);
            peer.Some? && base <= peer.value < |h| && h[peer.value].cls == joins[ji].src
    ensures var h := ChildWire(reg, |joins|, st, base, joins[ji], pe, JoinPos(ji), s).value;
            var peer := ChildPeer(reg, |joins|, st, base, joins[ji], pe, JoinPos(ji), s);
            peer.Some? && Wired(reg, joins[ji].src, joins[ji].dest, h, |st.heap|, peer.value)
  {
    var dest := joins[ji].dest;
    var c := Child(reg, |joins|, st, base, dest, pe, JoinPos(ji), s);
    var newObj := |st.heap|;
    ChildGrows(reg, joins, st, base, ji, pe, s);
    assert EntryOk(reg, st.heap, |st.entries|, base, st.entries[pe]);
    var parent := st.entries[pe].model;
    assert c.heap[parent.value] == st.heap[parent.value];
    WireKeyShapes(reg, c.heap, dest, parent.value, newObj, base);
    GrowsTrans(reg, st.heap, c.heap, ChildWire(reg, |joins|, st, base, joins[ji], pe, JoinPos(ji), s).value);
  }

  /**
   * What one join step leaves, once it succeeds: the walk stays well formed
   * and follows the select up to the join's position, the arena only grew,
   * the roots are untouched, and the instance made, if any, is the fresh one
   * from the slice at the end of the arena; under a sound select the
   * instances stay shaped, the collections only grew, and it is wired.
   */
  ghost predicate StepOk(reg: Registry, mc: string, joins: seq<Join>, row: seq<Value>, w: Walk, w': Walk, base: nat,
                         ji: nat, s: seq<Value>, born: Option<Instance>, peer: Option<nat>)
    requires Resolved(reg, mc, joins) && ji < |joins|
  {
    Wf(reg, |joins|, w', base) && Keeps(w.heap, w'.heap, base) &&
    w'.roots == w.roots && w'.classList == w.classList &&
    (|w'.rel| == |joins| + 1 || |w'.rel| == ji + 2) &&
    PosOk(mc, joins, w') && Typed(reg, mc, joins, w') && CurOk(reg, mc, joins, row, w', JoinPos(ji)) &&
    |w'.heap| == |w.heap| + (if born.Some? then 1 else 0) &&
    (born.Some? ==> Fresh(reg, joins[ji].dest, s) == Ok(born.value) && s != Nones(Width(reg, joins[ji].dest)) &&
                    w'.heap[|w.heap|].cls == born.value.cls) &&
    (Sound(reg, mc, joins) ==>
       ShapedFrom(reg, w'.heap, base) && Grows(reg, w.heap, w'.heap) &&
       (born.Some? ==> BirthWired(reg, mc, joins, w'.heap, base, |w.heap|, JoinPos(ji), peer)))
  }

  /**
   * One join of one row (`i` is `JoinPos(ji)`, `s` the destination's slice): on
   * the first row the destination's position and its parent's position are
   * recorded, then the child is read under the parent entry `current[rel[i]]`.
   * A sound select on a consistent row never fails here, and the instance
   * made, if any, is wired to its peer.
   */
  method JoinStep(reg: Registry, mc: string, joins: seq<Join>, ghost row: seq<Value>, w: Walk, base: nat, ji: nat,
                  s: seq<Value>)
      returns (r: Result<Walk>, ghost born: Option<Instance>, ghost peer: Option<nat>)
    requires Resolved(reg, mc, joins) && Named(reg) && ji < |joins| && Wf(reg, |joins|, w, base)
    requires |w.rel| == |joins| + 1 || |w.rel| == JoinPos(ji)
    requires PosOk(mc, joins, w) && Typed(reg, mc, joins, w) && CurOk(reg, mc, joins, row, w, ji)
    requires s == SliceAt(reg, mc, joins, row, JoinPos(ji)) && forall j :: 0 <= j < |s| ==> Plain(s[j])
    requires Sound(reg, mc, joins) ==> ShapedFrom(reg, w.heap, base)
    ensures |w.rel| == JoinPos(ji) && joins[ji].src !in w.pos[joins[ji].dest := JoinPos(ji)] ==> r.Err?
    ensures Sound(reg, mc, joins) && Consistent(reg, mc, joins, row) ==> r.Ok?
    ensures r.Ok? ==> ParentEntry(w.current, r.value.rel, JoinPos(ji)).Some?
    ensures r.Ok? ==> StepOk(reg, mc, joins, row, w, r.value, base, ji, s, born, peer)
  {
    var i := JoinPos(ji);
    var join := joins[ji];
    born := None;
    peer := None;
    ghost var sound := Sound(reg, mc, joins);
    if sound {
      PlaceSound(reg, mc, joins, w, base, ji);
    }
    var placed :- Place(reg, |joins|, w, base, join, i);
    var st := w.(pos := placed.0, rel := placed.1);
    PlacePosOk(reg, mc, joins, row, w, base, ji, placed);
    if sound {
      ParentSet(reg, mc, joins, row, st, ji);
    }
    var pe := st.current[st.rel[i].value];
    if pe.None? {
      return Err("TypeError: argument of type 'NoneType' is not iterable"), None, None;
    }
    assert ParentEntry(w.current, st.rel, i) == pe;
    r, born, peer := ChildAt(reg, mc, joins, row, st, base, ji, pe.value, s);
  }

  /**
   * The child read of join `ji` under the parent entry `pe`, once the join is
   * placed: the entries stay typed and `current` set up to the join's
   * position, and under a sound select the instance made is wired.
   */
  method ChildAt(reg: Registry, mc: string, joins: seq<Join>, ghost row: seq<Value>, st: Walk, base: nat, ji: nat,
                 pe: nat, s: seq<Value>)
      returns (r: Result<Walk>, ghost born: Option<Instance>, ghost peer: Option<nat>)
    requires Resolved(reg, mc, joins) && Named(reg) && ji < |joins| && Wf(reg, |joins|, st, base) && pe < |st.entries|
    requires PosOk(mc, joins, st) && |st.rel| > JoinPos(ji) && Typed(reg, mc, joins, st) && CurOk(reg, mc, joins, row, st, ji)
    requires s == SliceAt(reg, mc, joins, row, JoinPos(ji)) && forall j :: 0 <= j < |s| ==> Plain(s[j])
    requires Sound(reg, mc, joins) ==> ShapedFrom(reg, st.heap, base) && st.current[ParentPos(mc, joins, ji)] == Some(pe)
    ensures Sound(reg, mc, joins) && Consistent(reg, mc, joins, row) ==> r.Ok?
    ensures r.Ok? ==> Wf(reg, |joins|, r.value, base) && Keeps(st.heap, r.value.heap, base)
    ensures r.Ok? ==> r.value.roots == st.roots && r.value.classList == st.classList && r.value.rel == st.rel
    ensures r.Ok? ==> PosOk(mc, joins, r.value) && Typed(reg, mc, joins, r.value) &&
                      CurOk(reg, mc, joins, row, r.value, JoinPos(ji))
    ensures r.Ok? ==> |r.value.heap| == |st.heap| + (if born.Some? then 1 else 0)
    ensures born.Some? ==> Fresh(reg, joins[ji].dest, s) == Ok(born.value) && s != Nones(Width(reg, joins[ji].dest))
    ensures r.Ok? && born.Some? ==> r.value.heap[|st.heap|].cls == born.value.cls
    ensures r.Ok? && Sound(reg, mc, joins) ==>
              ShapedFrom(reg, r.value.heap, base) && Grows(reg, st.heap, r.value.heap) &&
              (born.Some? ==> BirthWired(reg, mc, joins, r.value.heap, base, |st.heap|, JoinPos(ji), peer))
  {
    var i := JoinPos(ji);
    var join := joins[ji];
    ghost var sound := Sound(reg, mc, joins);
    r, born, peer := ChildStep(reg, |joins|, st, base, join, pe, i, s);
    if r.Ok? {
      PosOkFrame(mc, joins, st, r.value);
    }
    if s == Nones(Width(reg, join.dest)) {
      NoneFacts(reg, mc, joins, row, st, base, ji, pe);
    } else if Seen(st.entries, pe, i, s) {
      SeenFacts(reg, mc, joins, row, st, ji, pe, s);
    } else {
      NewFacts(reg, mc, joins, row, st, base, ji, pe, s);
      if sound && Consistent(reg, mc, joins, row) {
        NewWires(reg, mc, joins, row, st, base, ji, pe, s);
      }
      if r.Ok? {
        var c := Child(reg, |joins|, st, base, join.dest, pe, i, s);
        HeapFacts(reg, mc, joins, row, c, r.value.heap, base, i);
        if sound {
          NewWired(reg, mc, joins, row, st, base, ji, pe, s);
        }
      }
    }
  }

  // ---------------------------------------------------------------------------
  // One row
  // ---------------------------------------------------------------------------

  /**
   * A record of one instance the walk made: the row, the position, the
   * instance as made, and the instance it was wired to, if any.
   */
  datatype Birth = Birth(row: nat, at: nat, inst: Instance, peer: Option<nat>)

  /**
   * An instance made at position `b.at` of `row` is of the class at that
   * position, and a position past the root is made only from a slice that is
   * not all `None`.
   */
  predicate BornOf(reg: Registry, mc: string, joins: seq<Join>, row: seq<Value>, b: Birth)
    requires Resolved(reg, mc, joins)
  {
    b.at <= |joins| && b.inst.cls == ClassAt(mc, joins, b.at) &&
    (b.at > 0 ==> SliceAt(reg, mc, joins, row, b.at) != Nones(Width(reg, ClassAt(mc, joins, b.at))))
  }

  /** The instance recorded for a birth is the class at its position built from that position's slice. */
  predicate MadeAt(reg: Registry, mc: string, joins: seq<Join>, row: seq<Value>, b: Birth)
    requires Resolved(reg, mc, joins)
  {
    b.at <= |joins| && Fresh(reg, ClassAt(mc, joins, b.at), SliceAt(reg, mc, joins, row, b.at)) == Ok(b.inst)
  }

  /**
   * Every birth of a row is made from its slice. The facts are only looked at
   * where a proof names one of them.
   */
  predicate Made(reg: Registry, mc: string, joins: seq<Join>, row: seq<Value>, born: seq<Birth>)
    requires Resolved(reg, mc, joins)
  {
    forall t {:trigger MadeAt(reg, mc, joins, row, born[t])} :: 0 <= t < |born| ==> MadeAt(reg, mc, joins, row, born[t])
  }

  lemma MadeSnoc(reg: Registry, mc: string, joins: seq<Join>, row: seq<Value>, born: seq<Birth>, b: Birth)
    requires Resolved(reg, mc, joins) && Made(reg, mc, joins, row, born) && MadeAt(reg, mc, joins, row, b)
    ensures Made(reg, mc, joins, row, born + [b])
  {
    var nb := born + [b];
    forall t | 0 <= t < |nb|
      ensures MadeAt(reg, mc, joins, row, nb[t])
    {
      if t < |born| {
        assert nb[t] == born[t] && MadeAt(reg, mc, joins, row, born[t]);
      }
    }
  }

  lemma MadeConcat(reg: Registry, mc: string, joins: seq<Join>, row: seq<Value>, b1: seq<Birth>, b2: seq<Birth>)
    requires Resolved(reg, mc, joins) && Made(reg, mc, joins, row, b1) && Made(reg, mc, joins, row, b2)
    ensures Made(reg, mc, joins, row, b1 + b2)
  {
    var nb := b1 + b2;
    forall t | 0 <= t < |nb|
      ensures MadeAt(reg, mc, joins, row, nb[t])
    {
      if t < |b1| {
        assert nb[t] == b1[t] && MadeAt(reg, mc, joins, row, b1[t]);
      } else {
        assert nb[t] == b2[t - |b1|] && MadeAt(reg, mc, joins, row, b2[t - |b1|]);
      }
    }
  }

  /** An instance made for join `k`, from the slice at position `k + 1` of a row, when that slice is not all `None`. */
  lemma BornAt(reg: Registry, mc: string, joins: seq<Join>, row: seq<Value>, rowIdx: nat, k: nat, s: seq<Value>, inst: Instance,
                peer: Option<nat>)
    requires Resolved(reg, mc, joins) && Named(reg) && k < |joins| && s == SliceAt(reg, mc, joins, row, k + 1)
    requires Fresh(reg, joins[k].dest, s) == Ok(inst) && s != Nones(Width(reg, joins[k].dest))
    ensures BornOf(reg, mc, joins, row, Birth(rowIdx, k + 1, inst, peer)) &&
            MadeAt(reg, mc, joins, row, Birth(rowIdx, k + 1, inst, peer))
  {
    assert ClassAt(mc, joins, k + 1) == joins[k].dest;
  }

  lemma KeepsTrans(a: seq<Instance>, b: seq<Instance>, c: seq<Instance>, base: nat)
    requires Keeps(a, b, base) && Keeps(b, c, base)
    ensures Keeps(a, c, base)
  {
  }

  /**
   * The instances made for row `rowIdx`, in order, sit in the arena from
   * `from` on, each made from its position's slice.
   */
  predicate Births(reg: Registry, mc: string, joins: seq<Join>, row: seq<Value>, rowIdx: nat,
                   born: seq<Birth>, heap: seq<Instance>, from: nat)
    requires Resolved(reg, mc, joins)
  {
    from + |born| <= |heap| &&
    (forall t :: 0 <= t < |born| ==>
       born[t].row == rowIdx && BornOf(reg, mc, joins, row, born[t]) && heap[from + t].cls == born[t].inst.cls) &&
    Made(reg, mc, joins, row, born)
  }

  /** Instances only move forward in the arena and keep their class, so the record of births survives. */
  lemma BirthsKeep(reg: Registry, mc: string, joins: seq<Join>, row: seq<Value>, rowIdx: nat,
                   born: seq<Birth>, heap: seq<Instance>, heap': seq<Instance>, from: nat, base: nat)
    requires Resolved(reg, mc, joins) && Births(reg, mc, joins, row, rowIdx, born, heap, from) && Keeps(heap, heap', base)
    ensures Births(reg, mc, joins, row, rowIdx, born, heap', from)
  {
    forall t | 0 <= t < |born|
      ensures heap'[from + t].cls == born[t].inst.cls
    {
      assert heap'[from + t].cls == heap[from + t].cls;
    }
  }

  /** One more birth, at the next arena slot. */
  lemma BirthsSnoc(reg: Registry, mc: string, joins: seq<Join>, row: seq<Value>, rowIdx: nat,
                   born: seq<Birth>, heap: seq<Instance>, heap': seq<Instance>, from: nat, base: nat, b: Birth)
    requires Resolved(reg, mc, joins) && Births(reg, mc, joins, row, rowIdx, born, heap, from) && Keeps(heap, heap', base)
    requires |heap| == from + |born| && |heap| < |heap'| && heap'[|heap|].cls == b.inst.cls
    requires b.row == rowIdx && BornOf(reg, mc, joins, row, b) && MadeAt(reg, mc, joins, row, b)
    ensures Births(reg, mc, joins, row, rowIdx, born + [b], heap', from)
  {
    BirthsKeep(reg, mc, joins, row, rowIdx, born, heap, heap', from, base);
    MadeSnoc(reg, mc, joins, row, born, b);
    var nb := born + [b];
    forall t | 0 <= t < |nb|
      ensures nb[t].row == rowIdx && BornOf(reg, mc, joins, row, nb[t]) && heap'[from + t].cls == nb[t].inst.cls
    {
      if t < |born| {
        assert nb[t] == born[t];
      } else {
        assert nb[t] == b && from + t == |heap|;
      }
    }
  }

  /** Two runs of births, one after the other in the arena. */
  lemma BirthsConcat(reg: Registry, mc: string, joins: seq<Join>, row: seq<Value>, rowIdx: nat,
                     b1: seq<Birth>, b2: seq<Birth>, heap: seq<Instance>, heap': seq<Instance>, from: nat, mid: nat, base: nat)
    requires Resolved(reg, mc, joins) && Births(reg, mc, joins, row, rowIdx, b1, heap, from) && Keeps(heap, heap', base)
    requires mid == from + |b1| && Births(reg, mc, joins, row, rowIdx, b2, heap', mid)
    ensures Births(reg, mc, joins, row, rowIdx, b1 + b2, heap', from)
  {
    BirthsKeep(reg, mc, joins, row, rowIdx, b1, heap, heap', from, base);
    MadeConcat(reg, mc, joins, row, b1, b2);
    var nb := b1 + b2;
    forall t | 0 <= t < |nb|
      ensures nb[t].row == rowIdx && BornOf(reg, mc, joins, row, nb[t]) && heap'[from + t].cls == nb[t].inst.cls
    {
      if t < |b1| {
        assert nb[t] == b1[t];
      } else {
        assert nb[t] == b2[t - |b1|];
        assert from + t == mid + (t - |b1|);
      }
    }
  }

  /** A new root: its instance at the end of the arena, its entry in `models_class`, and in `class_list`. */
  function AddRoot(reg: Registry, n: nat, w: Walk, base: nat, root: seq<Value>, inst: Instance): (r: Walk)
    requires Wf(reg, n, w, base) && inst.cls in reg
    ensures Wf(reg, n, r, base)
    ensures r.heap == w.heap + [inst] && r.roots == w.roots[root := |w.entries|] &&
            r.classList == w.classList + [|w.heap|]
    ensures r.current == w.current && r.pos == w.pos && r.rel == w.rel
  {
    WfHeapGrow(reg, n, w, inst, base);
    var w1 := w.(heap := w.heap + [inst]);
    var es := w1.entries + [Entry(Some(|w.heap|), map[])];
    forall e | 0 <= e < |es|
      ensures EntryOk(reg, w1.heap, |es|, base, es[e])
    {
      if e < |w1.entries| {
        assert EntryOk(reg, w1.heap, |w1.entries|, base, w1.entries[e]);
      }
    }
    w1.(entries := es, roots := w.roots[root := |w.entries|], classList := w.classList + [|w.heap|])
  }

  /**
   * The queried class's part of a row: on the first row `pos` and `rel` are
   * started; the slice is looked up in `models_class` and a new root instance
   * is made only the first time that slice is seen; its entry becomes
   * `current[0]`.
   */
  method RootStep(reg: Registry, mc: string, joins: seq<Join>, row: seq<Value>, w: Walk, base: nat, ghost rowIdx: nat)
      returns (st: Walk, ghost born: seq<Birth>)
    requires Resolved(reg, mc, joins) && Named(reg) && Wf(reg, |joins|, w, base)
    requires |w.roots| == 0 ==> |w.rel| == 0
    requires |w.roots| > 0 ==> |w.rel| == |joins| + 1
    requires PosOk(mc, joins, w) && Typed(reg, mc, joins, w)
    requires forall j :: 0 <= j < |row| ==> Plain(row[j])
    ensures Wf(reg, |joins|, st, base) && PosOk(mc, joins, st) && Typed(reg, mc, joins, st)
    ensures CurOk(reg, mc, joins, row, st, 0)
    ensures |w.roots| == 0 ==> st.pos == w.pos[mc := 0] && st.rel == [None]
    ensures |w.roots| > 0 ==> st.pos == w.pos && st.rel == w.rel
    ensures RootGrown(reg, mc, joins, row, rowIdx, w, st.heap, st.roots.Keys, st.classList, base,
                     SliceAt(reg, mc, joins, row, 0), born)
  {
    var root := PySlice(row, 0, Width(reg, mc));
    assert root == SliceAt(reg, mc, joins, row, 0);
    var started := StartWalk(reg, mc, joins, w, base);
    st, born := RootEntry(reg, mc, joins, row, started, base, root, rowIdx);
  }

  /**
   * What the root part of a row does to the arena, the roots and
   * `classList`: the walk stays well kept, the slice becomes a key of
   * `models_class`, and an instance is made (and recorded in `classList`)
   * exactly when the slice was not a key before.
   */
  ghost predicate RootGrown(reg: Registry, mc: string, joins: seq<Join>, row: seq<Value>, rowIdx: nat, w: Walk,
                           heap': seq<Instance>, keys': set<seq<Value>>, classList': seq<nat>, base: nat,
                           root: seq<Value>, born: seq<Birth>)
    requires Resolved(reg, mc, joins)
  {
    Keeps(w.heap, heap', base) && Grows(reg, w.heap, heap') &&
    (ShapedFrom(reg, w.heap, base) ==> ShapedFrom(reg, heap', base)) &&
    keys' == w.roots.Keys + {root} &&
    (root in w.roots ==> classList' == w.classList && born == []) &&
    (root !in w.roots ==> classList' == w.classList + [|w.heap|] && |born| == 1 && born[0].row == rowIdx) &&
    |heap'| == |w.heap| + |born| && (forall t :: 0 <= t < |born| ==> born[t].at == 0) &&
    Births(reg, mc, joins, row, rowIdx, born, heap', |w.heap|)
  }

  /** On the first row `pos` and `rel` are started with the queried class at position 0; otherwise nothing changes. */
  method StartWalk(reg: Registry, mc: string, joins: seq<Join>, w: Walk, base: nat) returns (st: Walk)
    requires Wf(reg, |joins|, w, base) && (|w.roots| == 0 ==> |w.rel| == 0)
    requires PosOk(mc, joins, w) && Typed(reg, mc, joins, w)
    ensures Wf(reg, |joins|, st, base) && PosOk(mc, joins, st) && Typed(reg, mc, joins, st)
    ensures st.heap == w.heap && st.roots == w.roots && st.classList == w.classList
    ensures |w.roots| == 0 ==> st.pos == w.pos[mc := 0] && st.rel == [None]
    ensures |w.roots| > 0 ==> st == w
  {
    st := w;
    if |st.roots| == 0 {
      WfStart(reg, |joins|, st, base, mc);
      StartFacts(mc, joins, st);
      st := st.(pos := st.pos[mc := 0], rel := st.rel + [None]);
    }
  }

  /**
   * The root slice of a row looked up in `models_class` (made there on first
   * sighting) and its entry made `current[0]`.
   */
  method RootEntry(reg: Registry, mc: string, joins: seq<Join>, row: seq<Value>, w: Walk, base: nat,
                   root: seq<Value>, ghost rowIdx: nat)
      returns (st: Walk, ghost born: seq<Birth>)
    requires Resolved(reg, mc, joins) && Named(reg) && Wf(reg, |joins|, w, base)
    requires PosOk(mc, joins, w) && Typed(reg, mc, joins, w)
    requires root == SliceAt(reg, mc, joins, row, 0) && forall j :: 0 <= j < |row| ==> Plain(row[j])
    ensures Wf(reg, |joins|, st, base) && PosOk(mc, joins, st) && Typed(reg, mc, joins, st)
    ensures CurOk(reg, mc, joins, row, st, 0) && st.pos == w.pos && st.rel == w.rel
    ensures RootGrown(reg, mc, joins, row, rowIdx, w, st.heap, st.roots.Keys, st.classList, base, root, born)
  {
    var made;
    made, born := NewRoot(reg, mc, joins, row, w, base, root, rowIdx);
    PosOkFrame(mc, joins, w, made);
    WfSetCurrent(reg, |joins|, made, base, 0, made.roots[root]);
    RootCurrent(reg, mc, joins, row, made, root);
    st := made.(current := made.current[0 := Some(made.roots[root])]);
  }

  /** The first row starts `pos` with the queried class at position 0 and `rel` with no parent for it. */
  lemma StartFacts(mc: string, joins: seq<Join>, w: Walk)
    requires PosOk(mc, joins, w) && |w.rel| == 0
    ensures PosOk(mc, joins, w.(pos := w.pos[mc := 0], rel := w.rel + [None]))
  {
    assert w.pos[mc := 0] == PosAt(mc, joins, 0);
  }

  /** The root entry made `current[0]`: the walk stays typed and follows the select, and position 0 is set. */
  lemma RootCurrent(reg: Registry, mc: string, joins: seq<Join>, row: seq<Value>, w: Walk, root: seq<Value>)
    requires Resolved(reg, mc, joins) && PosOk(mc, joins, w) && Typed(reg, mc, joins, w)
    requires root in w.roots && root == SliceAt(reg, mc, joins, row, 0) && |w.current| > 0
    ensures PosOk(mc, joins, w.(current := w.current[0 := Some(w.roots[root])]))
    ensures Typed(reg, mc, joins, w.(current := w.current[0 := Some(w.roots[root])]))
    ensures CurOk(reg, mc, joins, row, w.(current := w.current[0 := Some(w.roots[root])]), 0)
  {
    var st := w.(current := w.current[0 := Some(w.roots[root])]);
    PosOkFrame(mc, joins, w, st);
    assert Holds(w, w.roots[root], mc);
    assert CurAt(reg, mc, joins, row, st, 0);
  }

  /** `models_class[key]` made on first sighting: a new root instance from the slice. */
  method NewRoot(reg: Registry, mc: string, joins: seq<Join>, row: seq<Value>, w: Walk, base: nat,
                 root: seq<Value>, ghost rowIdx: nat)
      returns (st: Walk, ghost born: seq<Birth>)
    requires Resolved(reg, mc, joins) && Named(reg) && Wf(reg, |joins|, w, base)
    requires root == SliceAt(reg, mc, joins, row, 0) && forall j :: 0 <= j < |row| ==> Plain(row[j])
    requires Typed(reg, mc, joins, w)
    ensures Wf(reg, |joins|, st, base) && root in st.roots && Typed(reg, mc, joins, st)
    ensures st.pos == w.pos && st.rel == w.rel && st.current == w.current
    ensures root in w.roots ==> st == w
    ensures RootGrown(reg, mc, joins, row, rowIdx, w, st.heap, st.roots.Keys, st.classList, base, root, born)
  {
    if root in w.roots {
      return w, [];
    }
    FreshFromPlain(reg, mc, root, w.heap);
    var inst := NewInstance(reg[mc], ZipMap(reg[mc].sortedFieldsNames, root), w.heap).value;
    born := [Birth(rowIdx, 0, inst, None)];
    st := AddRoot(reg, |joins|, w, base, root, inst);
    FreshShaped(reg, mc, root);
    RootFacts(reg, mc, joins, w, st, base, root, inst);
    RootNewGrown(reg, mc, joins, row, rowIdx, w, st.heap, st.roots.Keys, st.classList, base, root, inst);
  }

  /** The arena, roots and `classList` after a new root, against the walk before it. */
  lemma RootNewGrown(reg: Registry, mc: string, joins: seq<Join>, row: seq<Value>, rowIdx: nat, w: Walk,
                     heap': seq<Instance>, keys': set<seq<Value>>, classList': seq<nat>, base: nat,
                     root: seq<Value>, inst: Instance)
    requires Resolved(reg, mc, joins) && base <= |w.heap| && heap' == w.heap + [inst]
    requires root == SliceAt(reg, mc, joins, row, 0) && root !in w.roots && keys' == w.roots.Keys + {root}
    requires classList' == w.classList + [|w.heap|]
    requires Fresh(reg, mc, root) == Ok(inst) && inst.cls == mc
    requires Grows(reg, w.heap, heap') && (ShapedFrom(reg, w.heap, base) ==> ShapedFrom(reg, heap', base))
    ensures RootGrown(reg, mc, joins, row, rowIdx, w, heap', keys', classList', base, root,
                      [Birth(rowIdx, 0, inst, None)])
  {
    RootBirth(reg, mc, joins, row, rowIdx, w.heap, heap', base, inst);
  }

  /** The record of a new root: made at position 0 from the row's root slice, at the end of the arena. */
  lemma RootBirth(reg: Registry, mc: string, joins: seq<Join>, row: seq<Value>, rowIdx: nat,
                  heap: seq<Instance>, heap': seq<Instance>, base: nat, inst: Instance)
    requires Resolved(reg, mc, joins) && base <= |heap| && heap' == heap + [inst]
    requires Fresh(reg, mc, SliceAt(reg, mc, joins, row, 0)) == Ok(inst) && inst.cls == mc
    ensures BornOf(reg, mc, joins, row, Birth(rowIdx, 0, inst, None)) && MadeAt(reg, mc, joins, row, Birth(rowIdx, 0, inst, None))
    ensures Births(reg, mc, joins, row, rowIdx, [Birth(rowIdx, 0, inst, None)], heap', |heap|)
    ensures Keeps(heap, heap', base)
  {
    var b := Birth(rowIdx, 0, inst, None);
    assert Keeps(heap, heap', base) by {
      forall k | 0 <= k < |heap|
        ensures heap'[k] == heap[k]
      {
      }
    }
    BirthsSnoc(reg, mc, joins, row, rowIdx, [], heap, heap', |heap|, base, b);
    assert [b] == [] + [b];
  }

  /** A new root keeps the entries typed, the collections as they were and every instance shaped. */
  lemma RootFacts(reg: Registry, mc: string, joins: seq<Join>, w: Walk, st: Walk, base: nat, root: seq<Value>,
                  inst: Instance)
    requires Resolved(reg, mc, joins) && Wf(reg, |joins|, w, base) && inst.cls == mc && Shaped(reg, inst)
    requires Typed(reg, mc, joins, w) && st == AddRoot(reg, |joins|, w, base, root, inst)
    ensures Typed(reg, mc, joins, st) && Grows(reg, w.heap, st.heap)
    ensures ShapedFrom(reg, w.heap, base) ==> ShapedFrom(reg, st.heap, base)
  {
    var es := w.entries + [Entry(Some(|w.heap|), map[])];
    assert st.entries == es;
    assert Extends(w, st) by {
      forall e | 0 <= e < |w.entries|
        ensures st.entries[e].model == w.entries[e].model
      {
        assert es[e] == w.entries[e];
      }
    }
    forall k | k in st.roots
      ensures Holds(st, st.roots[k], mc)
    {
      if k != root {
        assert Holds(w, w.roots[k], mc);
      } else {
        assert st.entries[|w.entries|] == Entry(Some(|w.heap|), map[]);
      }
    }
    forall e, i, key | 0 <= e < |st.entries| && i in st.entries[e].children && key in st.entries[e].children[i]
      ensures 1 <= i <= |joins| && KeyTyped(reg, mc, joins, st, i, key, st.entries[e].children[i][key])
    {
      if e < |w.entries| {
        assert st.entries[e] == w.entries[e];
        assert KeyTyped(reg, mc, joins, w, i, key, w.entries[e].children[i][key]);
      }
    }
    forall o: nat, a: string, x: nat | RevList(reg, w.heap, o, a, x)
      ensures RevList(reg, st.heap, o, a, x)
    {
      assert st.heap[o] == w.heap[o];
    }
    forall o | base <= o < |st.heap| && ShapedFrom(reg, w.heap, base)
      ensures Shaped(reg, st.heap[o])
    {
      if o < |w.heap| {
        assert st.heap[o] == w.heap[o];
      }
    }
  }

  /** The first row starts `pos` and `rel` with the queried class at position 0. */
  lemma WfStart(reg: Registry, n: nat, w: Walk, base: nat, mc: string)
    requires Wf(reg, n, w, base) && |w.rel| == 0
    ensures Wf(reg, n, w.(pos := w.pos[mc := 0], rel := w.rel + [None]), base)
  {
  }

  /** Making an existing entry `current[i]` leaves the walk well formed. */
  lemma WfSetCurrent(reg: Registry, n: nat, w: Walk, base: nat, i: nat, e: nat)
    requires Wf(reg, n, w, base) && i <= n && e < |w.entries|
    ensures Wf(reg, n, w.(current := w.current[i := Some(e)]), base)
  {
  }

  /**
   * Position `JoinPos(ji)` of a row: its slice `s` starts at `start`, the
   * column just past the earlier positions, and ends at `end`, where the next
   * position starts.
   */
  method JoinAt(reg: Registry, mc: string, joins: seq<Join>, row: seq<Value>, st: Walk, base: nat, ji: nat, start: nat)
      returns (r: Result<Walk>, ghost b: Option<Instance>, ghost peer: Option<nat>, next: nat, end: nat, s: seq<Value>)
    requires Resolved(reg, mc, joins) && Named(reg) && ji < |joins| && Wf(reg, |joins|, st, base)
    requires |st.rel| == |joins| + 1 || |st.rel| == JoinPos(ji)
    requires PosOk(mc, joins, st) && Typed(reg, mc, joins, st) && CurOk(reg, mc, joins, row, st, ji)
    requires Sound(reg, mc, joins) ==> ShapedFrom(reg, st.heap, base)
    requires start == Offset(reg, mc, joins, JoinPos(ji))
    requires forall j :: 0 <= j < |row| ==> Plain(row[j])
    ensures Sound(reg, mc, joins) && Consistent(reg, mc, joins, row) ==> r.Ok?
    ensures next == ji + 1 && next <= |joins| && s == SliceAt(reg, mc, joins, row, JoinPos(ji))
    ensures r.Ok? ==> StepOk(reg, mc, joins, row, st, r.value, base, ji, s, b, peer)
    ensures end == start + Width(reg, joins[ji].dest) && end == Offset(reg, mc, joins, JoinPos(next))
  {
    next := JoinPos(ji);
    var dest := joins[ji].dest;
    end := start + Width(reg, dest);
    assert end == Offset(reg, mc, joins, JoinPos(next));
    s := PySlice(row, start, end);
    assert s == SliceAt(reg, mc, joins, row, JoinPos(ji));
    r, b, peer := JoinStep(reg, mc, joins, row, st, base, ji, s);
  }

  /** `JoinsUpTo` one join further, from what one join step promises. */
  lemma JoinsNext(reg: Registry, mc: string, joins: seq<Join>, row: seq<Value>, rowIdx: nat, w: Walk, st: Walk, st': Walk,
                  base: nat, ji: nat, next: nat, s: seq<Value>, born: seq<Birth>, b: Option<Instance>, peer: Option<nat>)
      returns (born': seq<Birth>)
    requires Resolved(reg, mc, joins) && Named(reg) && ji < |joins| && next == JoinPos(ji)
    requires s == SliceAt(reg, mc, joins, row, JoinPos(ji))
    requires JoinsUpTo(reg, mc, joins, row, rowIdx, w, st, base, ji, born)
    requires StepOk(reg, mc, joins, row, st, st', base, ji, s, b, peer)
    ensures JoinsUpTo(reg, mc, joins, row, rowIdx, w, st', base, next, born')
  {
    born' := JoinBirths(reg, mc, joins, row, rowIdx, born, st.heap, st'.heap, |w.heap|, base, ji, s, b, peer);
    KeepsTrans(w.heap, st.heap, st'.heap, base);
    if Sound(reg, mc, joins) {
      GrowsTrans(reg, w.heap, st.heap, st'.heap);
    }
  }

  /**
   * The state after the first `ji` joins of a row: the walk is well formed
   * and follows the select, the arena only grew, the roots are untouched,
   * and `born` records the instances made, in order; under a sound select the
   * instances stay shaped, the collections only grew, and every instance
   * made is wired.
   */
  ghost predicate JoinsUpTo(reg: Registry, mc: string, joins: seq<Join>, row: seq<Value>, rowIdx: nat,
                            w: Walk, st: Walk, base: nat, ji: nat, born: seq<Birth>)
    requires Resolved(reg, mc, joins)
  {
    Wf(reg, |joins|, st, base) && Keeps(w.heap, st.heap, base) &&
    (|st.rel| == |joins| + 1 || |st.rel| == JoinPos(ji)) && ji <= |joins| &&
    PosOk(mc, joins, st) && Typed(reg, mc, joins, st) && CurOk(reg, mc, joins, row, st, ji) &&
    st.roots == w.roots && st.classList == w.classList &&
    |st.heap| == |w.heap| + |born| && Births(reg, mc, joins, row, rowIdx, born, st.heap, |w.heap|) &&
    (forall t :: 0 <= t < |born| ==> born[t].at > 0) &&
    (Sound(reg, mc, joins) ==>
       ShapedFrom(reg, st.heap, base) && Grows(reg, w.heap, st.heap) &&
       BirthsWired(reg, mc, joins, st.heap, base, |w.heap|, born))
  }

  /** The record of births after join `ji`: one more entry when that join made an instance. */
  lemma JoinBirths(reg: Registry, mc: string, joins: seq<Join>, row: seq<Value>, rowIdx: nat, born: seq<Birth>,
                   heap: seq<Instance>, heap': seq<Instance>, from: nat, base: nat, ji: nat, s: seq<Value>, b: Option<Instance>,
                   peer: Option<nat>)
      returns (born': seq<Birth>)
    requires Resolved(reg, mc, joins) && Named(reg) && ji < |joins| && s == SliceAt(reg, mc, joins, row, JoinPos(ji))
    requires |heap| == from + |born| && Births(reg, mc, joins, row, rowIdx, born, heap, from) && Keeps(heap, heap', base)
    requires forall t :: 0 <= t < |born| ==> born[t].at > 0
    requires |heap'| == |heap| + (if b.Some? then 1 else 0)
    requires b.Some? ==> Fresh(reg, joins[ji].dest, s) == Ok(b.value) && s != Nones(Width(reg, joins[ji].dest)) &&
                         heap'[|heap|].cls == b.value.cls
    requires Sound(reg, mc, joins) ==>
               Grows(reg, heap, heap') && BirthsWired(reg, mc, joins, heap, base, from, born) &&
               (b.Some? ==> BirthWired(reg, mc, joins, heap', base, |heap|, JoinPos(ji), peer))
    ensures |heap'| == from + |born'| && Births(reg, mc, joins, row, rowIdx, born', heap', from)
    ensures forall t :: 0 <= t < |born'| ==> born'[t].at > 0
    ensures Sound(reg, mc, joins) ==> BirthsWired(reg, mc, joins, heap', base, from, born')
  {
    if Sound(reg, mc, joins) {
      WiredGrow(reg, mc, joins, heap, heap', base, from, born);
    }
    if b.Some? {
      var nb := Birth(rowIdx, JoinPos(ji), b.value, peer);
      BornAt(reg, mc, joins, row, rowIdx, ji, s, b.value, peer);
      BirthsSnoc(reg, mc, joins, row, rowIdx, born, heap, heap', from, base, nb);
      born' := born + [nb];
      assert forall t :: 0 <= t < |born| ==> born'[t] == born[t];
      if Sound(reg, mc, joins) {
        assert BirthsWired(reg, mc, joins, heap', base, from + |born|, [nb]);
        WiredConcat(reg, mc, joins, heap', base, from, |heap|, born, [nb]);
      }
    } else {
      BirthsKeep(reg, mc, joins, row, rowIdx, born, heap, heap', from, base);
      born' := born;
    }
  }

  /** The joins of one row, in order, each slice starting where the previous position's columns end. */
  method JoinLoop(reg: Registry, mc: string, joins: seq<Join>, row: seq<Value>, w: Walk, base: nat, ghost rowIdx: nat)
      returns (r: Result<Walk>, ghost born: seq<Birth>)
    requires Resolved(reg, mc, joins) && Named(reg) && Wf(reg, |joins|, w, base)
    requires |w.rel| == |joins| + 1 || |w.rel| == 1
    requires PosOk(mc, joins, w) && Typed(reg, mc, joins, w) && CurOk(reg, mc, joins, row, w, 0)
    requires Sound(reg, mc, joins) ==> ShapedFrom(reg, w.heap, base)
    requires forall j :: 0 <= j < |row| ==> Plain(row[j])
    ensures Sound(reg, mc, joins) && Consistent(reg, mc, joins, row) ==> r.Ok?
    ensures r.Ok? ==> Wf(reg, |joins|, r.value, base) && Keeps(w.heap, r.value.heap, base)
    ensures r.Ok? ==> |r.value.rel| == |joins| + 1 && PosOk(mc, joins, r.value) && Typed(reg, mc, joins, r.value)
    ensures r.Ok? && Sound(reg, mc, joins) ==>
              ShapedFrom(reg, r.value.heap, base) && Grows(reg, w.heap, r.value.heap) &&
              BirthsWired(reg, mc, joins, r.value.heap, base, |w.heap|, born)
    ensures r.Ok? ==> r.value.roots == w.roots && r.value.classList == w.classList
    ensures r.Ok? ==> |r.value.heap| == |w.heap| + |born|
    ensures r.Ok? ==> Births(reg, mc, joins, row, rowIdx, born, r.value.heap, |w.heap|)
    ensures forall t :: 0 <= t < |born| ==> born[t].at > 0
  {
    var st := w;
    born := [];
    var start := Width(reg, mc);
    var ji := 0;
    while ji < |joins|
      invariant ji <= |joins|
      invariant start == Offset(reg, mc, joins, JoinPos(ji))
      invariant JoinsUpTo(reg, mc, joins, row, rowIdx, w, st, base, ji, born)
      decreases |joins| - ji
    {
      var res, s;
      ghost var b, peer;
      ghost var at := ji;
      res, b, peer, ji, start, s := JoinAt(reg, mc, joins, row, st, base, ji, start);
      if res.Err? {
        return Err(res.msg), born;
      }
      born := JoinsNext(reg, mc, joins, row, rowIdx, w, st, res.value, base, at, ji, s, born, b, peer);
      st := res.value;
    }
    r := Ok(st);
  }

  /**
   * What one row adds to the walk: the walk stays well formed, the arena only
   * grows, `models_class` gains the row's root slice, `class_list` gains the
   * index of the root exactly when that slice is new, and the instances made
   * for the row are `born`, in order, at the end of the arena; under a sound
   * select the instances stay shaped, the collections only grow, and every
   * instance made is wired.
   */
  ghost predicate RowGrown(reg: Registry, mc: string, joins: seq<Join>, row: seq<Value>, rowIdx: nat,
                     w: Walk, w': Walk, born: seq<Birth>, base: nat)
    requires Resolved(reg, mc, joins)
  {
    Wf(reg, |joins|, w', base) && Keeps(w.heap, w'.heap, base) &&
    |w'.rel| == |joins| + 1 && PosOk(mc, joins, w') && Typed(reg, mc, joins, w') &&
    (Sound(reg, mc, joins) ==>
       ShapedFrom(reg, w'.heap, base) && Grows(reg, w.heap, w'.heap) &&
       BirthsWired(reg, mc, joins, w'.heap, base, |w.heap|, born)) &&
    w'.roots.Keys == w.roots.Keys + {SliceAt(reg, mc, joins, row, 0)} &&
    (SliceAt(reg, mc, joins, row, 0) in w.roots ==> w'.classList == w.classList) &&
    (SliceAt(reg, mc, joins, row, 0) !in w.roots ==>
       w'.classList == w.classList + [|w.heap|] && |born| > 0 && born[0].at == 0) &&
    |w'.heap| == |w.heap| + |born| && Births(reg, mc, joins, row, rowIdx, born, w'.heap, |w.heap|)
  }

  /** One row of a select with joins: the root, then the joins. */
  method HydrateRow(reg: Registry, mc: string, joins: seq<Join>, row: seq<Value>, w: Walk, base: nat, ghost rowIdx: nat)
      returns (r: Result<Walk>, ghost born: seq<Birth>)
    requires Resolved(reg, mc, joins) && Named(reg) && Wf(reg, |joins|, w, base)
    requires |w.roots| == 0 ==> |w.rel| == 0
    requires |w.roots| > 0 ==> |w.rel| == |joins| + 1
    requires PosOk(mc, joins, w) && Typed(reg, mc, joins, w)
    requires Sound(reg, mc, joins) ==> ShapedFrom(reg, w.heap, base)
    requires forall j :: 0 <= j < |row| ==> Plain(row[j])
    ensures Sound(reg, mc, joins) && Consistent(reg, mc, joins, row) ==> r.Ok?
    ensures r.Ok? ==> RowGrown(reg, mc, joins, row, rowIdx, w, r.value, born, base)
  {
    var st;
    ghost var rootBorn;
    st, rootBorn := RootStep(reg, mc, joins, row, w, base, rowIdx);
    ghost var joinBorn;
    r, joinBorn := JoinLoop(reg, mc, joins, row, st, base, rowIdx);
    born := rootBorn + joinBorn;
    if r.Ok? {
      KeepsTrans(w.heap, st.heap, r.value.heap, base);
      BirthsConcat(reg, mc, joins, row, rowIdx, rootBorn, joinBorn, st.heap, r.value.heap, |w.heap|, |st.heap|, base);
      if Sound(reg, mc, joins) {
        GrowsTrans(reg, w.heap, st.heap, r.value.heap);
        RootsWired(reg, mc, joins, r.value.heap, base, |w.heap|, rootBorn);
        WiredConcat(reg, mc, joins, r.value.heap, base, |w.heap|, |st.heap|, rootBorn, joinBorn);
      }
    }
  }

  // ---------------------------------------------------------------------------
  // All rows of a select with joins
  // ---------------------------------------------------------------------------

  /**
   * The instances made for the first `n` rows, in order, sit in the arena
   * from `from` on, each made from its row's slice at its position.
   */
  predicate Log(reg: Registry, mc: string, joins: seq<Join>, rows: seq<seq<Value>>, n: nat,
                log: seq<Birth>, heap: seq<Instance>, from: nat)
    requires Resolved(reg, mc, joins)
  {
    from + |log| <= |heap| &&
    (forall t :: 0 <= t < |log| ==>
       log[t].row < n && log[t].row < |rows| && BornOf(reg, mc, joins, rows[log[t].row], log[t]) &&
       heap[from + t].cls == log[t].inst.cls) &&
    LogMade(reg, mc, joins, rows, log)
  }

  /** Every logged birth is made from its row's slice at its position. */
  predicate LogMade(reg: Registry, mc: string, joins: seq<Join>, rows: seq<seq<Value>>, log: seq<Birth>)
    requires Resolved(reg, mc, joins)
  {
    forall t {:trigger MadeAt(reg, mc, joins, rows[log[t].row], log[t])} :: 0 <= t < |log| && log[t].row < |rows| ==>
      MadeAt(reg, mc, joins, rows[log[t].row], log[t])
  }

  /** The births of row `n` extend the made-from facts of the log. */
  lemma LogMadeExtend(reg: Registry, mc: string, joins: seq<Join>, rows: seq<seq<Value>>, n: nat, log: seq<Birth>,
                      born: seq<Birth>)
    requires Resolved(reg, mc, joins) && n < |rows| && LogMade(reg, mc, joins, rows, log)
    requires Made(reg, mc, joins, rows[n], born) && forall t :: 0 <= t < |born| ==> born[t].row == n
    ensures LogMade(reg, mc, joins, rows, log + born)
  {
    var nl := log + born;
    forall t | 0 <= t < |nl| && nl[t].row < |rows|
      ensures MadeAt(reg, mc, joins, rows[nl[t].row], nl[t])
    {
      if t < |log| {
        assert nl[t] == log[t] && MadeAt(reg, mc, joins, rows[log[t].row], log[t]);
      } else {
        assert nl[t] == born[t - |log|] && MadeAt(reg, mc, joins, rows[n], born[t - |log|]);
      }
    }
  }

  /** The births of row `n` extend the log of the rows before it. */
  lemma LogExtend(reg: Registry, mc: string, joins: seq<Join>, rows: seq<seq<Value>>, n: nat, log: seq<Birth>,
                  heap: seq<Instance>, heap': seq<Instance>, from: nat, base: nat, born: seq<Birth>)
    requires Resolved(reg, mc, joins) && n < |rows|
    requires Log(reg, mc, joins, rows, n, log, heap, from) && |heap| == from + |log| && Keeps(heap, heap', base)
    requires Births(reg, mc, joins, rows[n], n, born, heap', |heap|)
    ensures Log(reg, mc, joins, rows, n + 1, log + born, heap', from)
  {
    LogMadeExtend(reg, mc, joins, rows, n, log, born);
    var nl := log + born;
    forall t | 0 <= t < |nl|
      ensures nl[t].row < n + 1 && nl[t].row < |rows| && BornOf(reg, mc, joins, rows[nl[t].row], nl[t]) &&
              heap'[from + t].cls == nl[t].inst.cls
    {
      if t < |log| {
        assert nl[t] == log[t];
        assert heap'[from + t].cls == heap[from + t].cls;
      } else {
        assert nl[t] == born[t - |log|];
        assert from + t == |heap| + (t - |log|);
      }
    }
  }

  /** Root slices of a prefix of the rows, one more row at a time. */
  lemma RootSlicesSnoc(reg: Registry, mc: string, joins: seq<Join>, rows: seq<seq<Value>>, n: nat)
    requires Resolved(reg, mc, joins) && n < |rows|
    ensures RootSlices(reg, mc, joins, rows[..n + 1]) ==
            RootSlices(reg, mc, joins, rows[..n]) + [SliceAt(reg, mc, joins, rows[n], 0)]
  {
    var a := RootSlices(reg, mc, joins, rows[..n + 1]);
    var b := RootSlices(reg, mc, joins, rows[..n]) + [SliceAt(reg, mc, joins, rows[n], 0)];
    assert |a| == |b|;
    forall k | 0 <= k < |a|
      ensures a[k] == b[k]
    {
      assert rows[..n + 1][k] == rows[k];
      if k < n {
        assert rows[..n][k] == rows[k];
      }
    }
  }

  /** An element is among the distinct elements of a sequence exactly when it is in the sequence. */
  lemma DistinctHas<T>(xs: seq<T>, x: T)
    ensures x in Distinct(xs) <==> x in xs
  {
    if x in xs {
      var i :| 0 <= i < |xs| && xs[i] == x;
    }
    if x in Distinct(xs) {
      var i :| 0 <= i < |Distinct(xs)| && Distinct(xs)[i] == x;
    }
  }

  /**
   * `class_list` against the distinct root slices `d` seen so far: one entry
   * per slice, in order, each the arena index of the root made from it.
   */
  predicate RootsOk(reg: Registry, mc: string, joins: seq<Join>, rows: seq<seq<Value>>,
                    classList: seq<nat>, log: seq<Birth>, from: nat, d: seq<seq<Value>>)
    requires Resolved(reg, mc, joins)
  {
    |classList| == |d| &&
    forall k :: 0 <= k < |classList| ==>
      from <= classList[k] < from + |log| && log[classList[k] - from].at == 0 &&
      log[classList[k] - from].row < |rows| &&
      SliceAt(reg, mc, joins, rows[log[classList[k] - from].row], 0) == d[k]
  }

  /** Births appended to the log leave the roots it already records in place. */
  lemma RootsSeen(reg: Registry, mc: string, joins: seq<Join>, rows: seq<seq<Value>>,
                  classList: seq<nat>, log: seq<Birth>, from: nat, d: seq<seq<Value>>, born: seq<Birth>)
    requires Resolved(reg, mc, joins) && RootsOk(reg, mc, joins, rows, classList, log, from, d)
    ensures RootsOk(reg, mc, joins, rows, classList, log + born, from, d)
  {
    var nl := log + born;
    forall k | 0 <= k < |classList|
      ensures from <= classList[k] < from + |nl| && nl[classList[k] - from].at == 0 &&
              nl[classList[k] - from].row < |rows| &&
              SliceAt(reg, mc, joins, rows[nl[classList[k] - from].row], 0) == d[k]
    {
      assert nl[classList[k] - from] == log[classList[k] - from];
    }
  }

  /** A new root slice: the root born first in this row's births joins `class_list`. */
  lemma RootsNew(reg: Registry, mc: string, joins: seq<Join>, rows: seq<seq<Value>>,
                 classList: seq<nat>, log: seq<Birth>, from: nat, d: seq<seq<Value>>, born: seq<Birth>, key: seq<Value>, top: nat)
    requires Resolved(reg, mc, joins) && RootsOk(reg, mc, joins, rows, classList, log, from, d) && top == from + |log|
    requires |born| > 0 && born[0].at == 0 && born[0].row < |rows| && SliceAt(reg, mc, joins, rows[born[0].row], 0) == key
    ensures RootsOk(reg, mc, joins, rows, classList + [top], log + born, from, d + [key])
  {
    var nl := log + born;
    var cl := classList + [top];
    var d' := d + [key];
    forall k | 0 <= k < |cl|
      ensures from <= cl[k] < from + |nl| && nl[cl[k] - from].at == 0 &&
              nl[cl[k] - from].row < |rows| &&
              SliceAt(reg, mc, joins, rows[nl[cl[k] - from].row], 0) == d'[k]
    {
      if k < |classList| {
        assert cl[k] == classList[k] && d'[k] == d[k];
        assert nl[classList[k] - from] == log[classList[k] - from];
      } else {
        assert cl[k] - from == |log| && nl[|log|] == born[0] && d'[k] == key;
      }
    }
  }

  /** The distinct root slices after one more row. */
  lemma DistinctRootsSnoc(reg: Registry, mc: string, joins: seq<Join>, rows: seq<seq<Value>>, n: nat)
    requires Resolved(reg, mc, joins) && n < |rows|
    ensures var pre := RootSlices(reg, mc, joins, rows[..n]);
            var key := SliceAt(reg, mc, joins, rows[n], 0);
            Distinct(RootSlices(reg, mc, joins, rows[..n + 1])) == if key in pre then Distinct(pre) else Distinct(pre) + [key]
  {
    var pre := RootSlices(reg, mc, joins, rows[..n]);
    var key := SliceAt(reg, mc, joins, rows[n], 0);
    RootSlicesSnoc(reg, mc, joins, rows, n);
    DistinctHas(pre, key);
    DistinctSnoc(pre, key);
  }

  /** Strictly increasing: the roots appear in `class_list` in the order they were made. */
  predicate Increasing(xs: seq<nat>) {
    forall k1, k2 :: 0 <= k1 < k2 < |xs| ==> xs[k1] < xs[k2]
  }

  lemma IncreasingSnoc(xs: seq<nat>, x: nat)
    requires Increasing(xs) && forall k :: 0 <= k < |xs| ==> xs[k] < x
    ensures Increasing(xs + [x])
  {
    var ys := xs + [x];
    forall k1, k2 | 0 <= k1 < k2 < |ys|
      ensures ys[k1] < ys[k2]
    {
      assert ys[k1] == xs[k1];
    }
  }

  /** The arena and the root list `parse_select` returns. */
  datatype Selected = Selected(heap: seq<Instance>, classList: seq<nat>)

  /**
   * The outcome of a select with joins: older objects untouched, the log of
   * births complete, `class_list` one root per distinct root slice, and under
   * a sound select every instance made linked to its parent as its join says.
   */
  ghost predicate Joined(reg: Registry, mc: string, joins: seq<Join>, rows: seq<seq<Value>>, heap0: seq<Instance>,
                         sel: Selected, log: seq<Birth>)
    requires Resolved(reg, mc, joins)
  {
    Keeps(heap0, sel.heap, |heap0|) && |sel.heap| == |heap0| + |log| &&
    Log(reg, mc, joins, rows, |rows|, log, sel.heap, |heap0|) &&
    RootsOk(reg, mc, joins, rows, sel.classList, log, |heap0|, Distinct(RootSlices(reg, mc, joins, rows))) &&
    Increasing(sel.classList) &&
    (Sound(reg, mc, joins) ==> BirthsWired(reg, mc, joins, sel.heap, |heap0|, |heap0|, log))
  }

  /**
   * `parse_select` for a query with joins: each row in turn; `class_list`
   * holds one root per distinct root slice, in order of first sighting, built
   * from that slice, and every instance made comes from some row's slice at
   * some position. A sound select over consistent rows always succeeds; a
   * join whose source class is never placed before it fails on any row.
   */
  method ParseJoined(reg: Registry, mc: string, joins: seq<Join>, rows: seq<seq<Value>>, heap0: seq<Instance>)
      returns (r: Result<Selected>, ghost log: seq<Birth>)
    requires Resolved(reg, mc, joins) && Named(reg) && PlainRows(rows)
    ensures Sound(reg, mc, joins) && (forall n :: 0 <= n < |rows| ==> Consistent(reg, mc, joins, rows[n])) ==> r.Ok?
    ensures rows != [] && !Placed(mc, joins) ==> r.Err?
    ensures r.Ok? ==> Joined(reg, mc, joins, rows, heap0, r.value, log)
  {
    var st := Walk(heap0, [], map[], seq(|joins| + 1, _ => None), map[], [], []);
    log := [];
    var n := 0;
    while n < |rows|
      invariant n <= |rows|
      invariant RowsWalk(reg, mc, joins, heap0, st) && RowsBuilt(reg, mc, joins, rows, n, heap0, st, log)
      decreases |rows| - n
    {
      var res;
      ghost var n0 := n;
      res, log, n := NextRow(reg, mc, joins, rows, n, st, heap0, log);
      if res.Err? {
        return Err(res.msg), log;
      }
      st := res.value;
    }
    RowsDone(reg, mc, joins, rows, heap0, st, log);
    if rows != [] {
      PlacedAll(reg, mc, joins, rows, st);
    }
    r := Ok(Selected(st.heap, st.classList));
  }

  /** Once every row is read, what was built is the outcome of the select. */
  lemma RowsDone(reg: Registry, mc: string, joins: seq<Join>, rows: seq<seq<Value>>, heap0: seq<Instance>, st: Walk,
                 log: seq<Birth>)
    requires Resolved(reg, mc, joins)
    requires RowsWalk(reg, mc, joins, heap0, st) && RowsBuilt(reg, mc, joins, rows, |rows|, heap0, st, log)
    ensures Joined(reg, mc, joins, rows, heap0, Selected(st.heap, st.classList), log)
    ensures forall x :: x in st.roots <==> x in RootSlices(reg, mc, joins, rows)
  {
    assert rows[..|rows|] == rows;
  }

  /** Row `n` of a select with joins, and the bookkeeping of the rows read so far. */
  method NextRow(reg: Registry, mc: string, joins: seq<Join>, rows: seq<seq<Value>>, n: nat, st: Walk,
                 heap0: seq<Instance>, ghost log: seq<Birth>)
      returns (r: Result<Walk>, ghost log': seq<Birth>, next: nat)
    requires Resolved(reg, mc, joins) && Named(reg) && PlainRows(rows) && n < |rows|
    requires RowsWalk(reg, mc, joins, heap0, st) && RowsBuilt(reg, mc, joins, rows, n, heap0, st, log)
    ensures next == n + 1 && next <= |rows|
    ensures Sound(reg, mc, joins) && Consistent(reg, mc, joins, rows[n]) ==> r.Ok?
    ensures r.Ok? ==> RowsWalk(reg, mc, joins, heap0, r.value) && RowsBuilt(reg, mc, joins, rows, next, heap0, r.value, log')
  {
    next := n + 1;
    var row := rows[n];
    assert forall j :: 0 <= j < |row| ==> Plain(row[j]);
    var res;
    ghost var born;
    res, born := HydrateRow(reg, mc, joins, row, st, |heap0|, n);
    log' := log;
    if res.Err? {
      return Err(res.msg), log', next;
    }
    RowStep(reg, mc, joins, rows, n, st, res.value, heap0, log, born);
    log' := log + born;
    r := Ok(res.value);
  }

  /** After at least one row every join has been placed, so its source class was in place before it. */
  lemma PlacedAll(reg: Registry, mc: string, joins: seq<Join>, rows: seq<seq<Value>>, st: Walk)
    requires Resolved(reg, mc, joins) && rows != []
    requires forall x :: x in st.roots <==> x in RootSlices(reg, mc, joins, rows)
    requires (|st.roots| > 0 ==> |st.rel| == |joins| + 1) && PosOk(mc, joins, st)
    ensures Placed(mc, joins)
  {
    assert RootSlices(reg, mc, joins, rows)[0] in st.roots;
    forall k | 0 <= k < |joins|
      ensures PlacedAt(mc, joins, k)
    {
      assert st.rel[k + 1].Some?;
    }
  }

  /**
   * The walk's own shape after the first rows: indices in range, older
   * objects untouched, `rel` started and following the select, the entries
   * typed, and under a sound select every new instance shaped.
   */
  ghost predicate RowsWalk(reg: Registry, mc: string, joins: seq<Join>, heap0: seq<Instance>, st: Walk)
    requires Resolved(reg, mc, joins)
  {
    Wf(reg, |joins|, st, |heap0|) && Keeps(heap0, st.heap, |heap0|) &&
    (|st.roots| == 0 ==> |st.rel| == 0) && (|st.roots| > 0 ==> |st.rel| == |joins| + 1) &&
    PosOk(mc, joins, st) && Typed(reg, mc, joins, st) &&
    (Sound(reg, mc, joins) ==> ShapedFrom(reg, st.heap, |heap0|))
  }

  /** What `parse_select` has built from the first `n` rows: `models_class`, the instances and `class_list`. */
  ghost predicate RowsBuilt(reg: Registry, mc: string, joins: seq<Join>, rows: seq<seq<Value>>, n: nat,
                            heap0: seq<Instance>, st: Walk, log: seq<Birth>)
    requires Resolved(reg, mc, joins) && n <= |rows|
  {
    (forall x :: x in st.roots <==> x in RootSlices(reg, mc, joins, rows[..n])) &&
    |st.heap| == |heap0| + |log| && Log(reg, mc, joins, rows, n, log, st.heap, |heap0|) &&
    RootsOk(reg, mc, joins, rows, st.classList, log, |heap0|, Distinct(RootSlices(reg, mc, joins, rows[..n]))) &&
    Increasing(st.classList) &&
    (Sound(reg, mc, joins) ==> BirthsWired(reg, mc, joins, st.heap, |heap0|, |heap0|, log))
  }

  /** The bookkeeping of one row: the roots seen, the log, `class_list` and its order. */
  lemma RowStep(reg: Registry, mc: string, joins: seq<Join>, rows: seq<seq<Value>>, n: nat, st: Walk, next: Walk,
                heap0: seq<Instance>, log: seq<Birth>, born: seq<Birth>)
    requires Resolved(reg, mc, joins) && n < |rows|
    requires RowsWalk(reg, mc, joins, heap0, st) && RowsBuilt(reg, mc, joins, rows, n, heap0, st, log)
    requires RowGrown(reg, mc, joins, rows[n], n, st, next, born, |heap0|)
    ensures RowsWalk(reg, mc, joins, heap0, next) && RowsBuilt(reg, mc, joins, rows, n + 1, heap0, next, log + born)
  {
    KeepsTrans(heap0, st.heap, next.heap, |heap0|);
    BuiltStep(reg, mc, joins, rows, n, st, next, heap0, log, born);
  }

  /** `RowsBuilt` after one more row. */
  lemma BuiltStep(reg: Registry, mc: string, joins: seq<Join>, rows: seq<seq<Value>>, n: nat, st: Walk, next: Walk,
                  heap0: seq<Instance>, log: seq<Birth>, born: seq<Birth>)
    requires Resolved(reg, mc, joins) && n < |rows| && Wf(reg, |joins|, st, |heap0|)
    requires RowsBuilt(reg, mc, joins, rows, n, heap0, st, log)
    requires RowGrown(reg, mc, joins, rows[n], n, st, next, born, |heap0|)
    ensures RowsBuilt(reg, mc, joins, rows, n + 1, heap0, next, log + born)
  {
    BuiltRoots(reg, mc, joins, rows, n, st, next, heap0, log, born);
    BuiltLog(reg, mc, joins, rows, n, st, next, heap0, log, born);
  }

  /** The roots seen and `class_list` after one more row. */
  lemma BuiltRoots(reg: Registry, mc: string, joins: seq<Join>, rows: seq<seq<Value>>, n: nat, st: Walk, next: Walk,
                   heap0: seq<Instance>, log: seq<Birth>, born: seq<Birth>)
    requires Resolved(reg, mc, joins) && n < |rows| && Wf(reg, |joins|, st, |heap0|)
    requires RowsBuilt(reg, mc, joins, rows, n, heap0, st, log)
    requires RowGrown(reg, mc, joins, rows[n], n, st, next, born, |heap0|)
    ensures forall x :: x in next.roots <==> x in RootSlices(reg, mc, joins, rows[..n + 1])
    ensures RootsOk(reg, mc, joins, rows, next.classList, log + born, |heap0|,
                    Distinct(RootSlices(reg, mc, joins, rows[..n + 1])))
    ensures Increasing(next.classList)
  {
    var key := SliceAt(reg, mc, joins, rows[n], 0);
    if key !in st.roots {
      assert born[0].row == n;
    }
    RootsStep(reg, mc, joins, rows, n, st.roots, next.roots, st.classList, next.classList, log, born, |heap0|, |st.heap|);
  }

  /** The log of births after one more row, wired under a sound select. */
  lemma BuiltLog(reg: Registry, mc: string, joins: seq<Join>, rows: seq<seq<Value>>, n: nat, st: Walk, next: Walk,
                 heap0: seq<Instance>, log: seq<Birth>, born: seq<Birth>)
    requires Resolved(reg, mc, joins) && n < |rows|
    requires RowsBuilt(reg, mc, joins, rows, n, heap0, st, log)
    requires RowGrown(reg, mc, joins, rows[n], n, st, next, born, |heap0|)
    ensures |next.heap| == |heap0| + |log + born| && Log(reg, mc, joins, rows, n + 1, log + born, next.heap, |heap0|)
    ensures Sound(reg, mc, joins) ==> BirthsWired(reg, mc, joins, next.heap, |heap0|, |heap0|, log + born)
  {
    var base := |heap0|;
    LogExtend(reg, mc, joins, rows, n, log, st.heap, next.heap, base, base, born);
    if Sound(reg, mc, joins) {
      WiredGrow(reg, mc, joins, st.heap, next.heap, base, base, log);
      WiredConcat(reg, mc, joins, next.heap, base, base, |st.heap|, log, born);
    }
  }

  /** `models_class`, `class_list` and its order after one more row. */
  lemma RootsStep(reg: Registry, mc: string, joins: seq<Join>, rows: seq<seq<Value>>, n: nat,
                  seen: map<seq<Value>, nat>, seen': map<seq<Value>, nat>, classList: seq<nat>, classList': seq<nat>,
                  log: seq<Birth>, born: seq<Birth>, from: nat, top: nat)
    requires Resolved(reg, mc, joins) && n < |rows| && top == from + |log|
    requires forall x :: x in seen <==> x in RootSlices(reg, mc, joins, rows[..n])
    requires seen'.Keys == seen.Keys + {SliceAt(reg, mc, joins, rows[n], 0)}
    requires RootsOk(reg, mc, joins, rows, classList, log, from, Distinct(RootSlices(reg, mc, joins, rows[..n])))
    requires Increasing(classList) && forall k :: 0 <= k < |classList| ==> classList[k] < top
    requires SliceAt(reg, mc, joins, rows[n], 0) in seen ==> classList' == classList
    requires SliceAt(reg, mc, joins, rows[n], 0) !in seen ==>
               classList' == classList + [top] && |born| > 0 && born[0].at == 0 && born[0].row == n
    ensures forall x :: x in seen' <==> x in RootSlices(reg, mc, joins, rows[..n + 1])
    ensures RootsOk(reg, mc, joins, rows, classList', log + born, from, Distinct(RootSlices(reg, mc, joins, rows[..n + 1])))
    ensures Increasing(classList')
  {
    var key := SliceAt(reg, mc, joins, rows[n], 0);
    RootsKeys(reg, mc, joins, rows, n, seen, seen');
    if key in seen {
      RootsStepSeen(reg, mc, joins, rows, n, classList, log, born, from);
    } else {
      RootsStepNew(reg, mc, joins, rows, n, classList, log, born, from, top);
    }
  }

  /** The keys of `roots` after a row are the root slices of the rows so far. */
  lemma RootsKeys(reg: Registry, mc: string, joins: seq<Join>, rows: seq<seq<Value>>, n: nat,
                  seen: map<seq<Value>, nat>, seen': map<seq<Value>, nat>)
    requires Resolved(reg, mc, joins) && n < |rows|
    requires forall x :: x in seen <==> x in RootSlices(reg, mc, joins, rows[..n])
    requires seen'.Keys == seen.Keys + {SliceAt(reg, mc, joins, rows[n], 0)}
    ensures forall x :: x in seen' <==> x in RootSlices(reg, mc, joins, rows[..n + 1])
  {
    RootSlicesSnoc(reg, mc, joins, rows, n);
    forall x
      ensures x in seen' <==> x in RootSlices(reg, mc, joins, rows[..n + 1])
    {
      assert x in seen' <==> x in seen.Keys || x == SliceAt(reg, mc, joins, rows[n], 0);
    }
  }

  /** A row whose root slice was seen before adds nothing to `class_list`. */
  lemma RootsStepSeen(reg: Registry, mc: string, joins: seq<Join>, rows: seq<seq<Value>>, n: nat,
                      classList: seq<nat>, log: seq<Birth>, born: seq<Birth>, from: nat)
    requires Resolved(reg, mc, joins) && n < |rows|
    requires SliceAt(reg, mc, joins, rows[n], 0) in RootSlices(reg, mc, joins, rows[..n])
    requires RootsOk(reg, mc, joins, rows, classList, log, from, Distinct(RootSlices(reg, mc, joins, rows[..n])))
    ensures RootsOk(reg, mc, joins, rows, classList, log + born, from, Distinct(RootSlices(reg, mc, joins, rows[..n + 1])))
  {
    DistinctRootsSnoc(reg, mc, joins, rows, n);
    RootsSeen(reg, mc, joins, rows, classList, log, from, Distinct(RootSlices(reg, mc, joins, rows[..n])), born);
  }

  /** A row with a new root slice appends the index of its fresh root to `class_list`. */
  lemma RootsStepNew(reg: Registry, mc: string, joins: seq<Join>, rows: seq<seq<Value>>, n: nat,
                     classList: seq<nat>, log: seq<Birth>, born: seq<Birth>, from: nat, top: nat)
    requires Resolved(reg, mc, joins) && n < |rows| && top == from + |log|
    requires SliceAt(reg, mc, joins, rows[n], 0) !in RootSlices(reg, mc, joins, rows[..n])
    requires RootsOk(reg, mc, joins, rows, classList, log, from, Distinct(RootSlices(reg, mc, joins, rows[..n])))
    requires Increasing(classList) && forall k :: 0 <= k < |classList| ==> classList[k] < top
    requires |born| > 0 && born[0].at == 0 && born[0].row == n
    ensures RootsOk(reg, mc, joins, rows, classList + [top], log + born, from,
                    Distinct(RootSlices(reg, mc, joins, rows[..n + 1])))
    ensures Increasing(classList + [top])
  {
    DistinctRootsSnoc(reg, mc, joins, rows, n);
    IncreasingSnoc(classList, top);
    RootsNew(reg, mc, joins, rows, classList, log, from, Distinct(RootSlices(reg, mc, joins, rows[..n])), born,
             SliceAt(reg, mc, joins, rows[n], 0), top);
  }

  /**
   * What a select with joins returns, spelled out: every root in `class_list`
   * is an instance of the queried class made from its distinct root slice.
   */
  lemma JoinedRoots(reg: Registry, mc: string, joins: seq<Join>, rows: seq<seq<Value>>, heap0: seq<Instance>,
                    sel: Selected, log: seq<Birth>)
    requires Resolved(reg, mc, joins) && Named(reg) && Joined(reg, mc, joins, rows, heap0, sel, log)
    ensures RootsMade(reg, mc, joins, rows, heap0, sel, log)
  {
    var d := Distinct(RootSlices(reg, mc, joins, rows));
    forall k | 0 <= k < |sel.classList|
      ensures RootMade(reg, mc, d, sel.classList, log, sel.heap, |heap0|, k)
    {
      RootAt(reg, mc, joins, rows, sel.classList, log, sel.heap, |heap0|, d, k);
    }
    assert sel.heap[..|heap0|] == heap0;
  }

  /** One root of `class_list`: an instance of the queried class made from its slice. */
  lemma RootAt(reg: Registry, mc: string, joins: seq<Join>, rows: seq<seq<Value>>, classList: seq<nat>,
               log: seq<Birth>, heap: seq<Instance>, from: nat, d: seq<seq<Value>>, k: nat)
    requires Resolved(reg, mc, joins) && Named(reg) && |heap| == from + |log|
    requires Log(reg, mc, joins, rows, |rows|, log, heap, from) && RootsOk(reg, mc, joins, rows, classList, log, from, d)
    requires k < |classList|
    ensures RootMade(reg, mc, d, classList, log, heap, from, k)
  {
    var t := classList[k] - from;
    var b := log[t];
    assert BornOf(reg, mc, joins, rows[b.row], b) && MadeAt(reg, mc, joins, rows[b.row], b);
    assert ClassAt(mc, joins, 0) == mc;
    assert heap[from + t].cls == b.inst.cls;
  }

  /** Without joins: one instance per row, made from the whole row, listed in row order. */
  ghost predicate PlainSelected(reg: Registry, mc: string, rows: seq<seq<Value>>, heap0: seq<Instance>, sel: Selected)
    requires mc in reg
  {
    |sel.classList| == |rows| && |sel.heap| == |heap0| + |rows| && sel.heap[..|heap0|] == heap0 &&
    forall k :: 0 <= k < |rows| ==>
      sel.classList[k] == |heap0| + k && Fresh(reg, mc, rows[k]) == Ok(sel.heap[|heap0| + k])
  }

  /**
   * With joins: the arena grows by the instances of `log` only, and the k-th
   * root is a fresh instance of the queried class made from the k-th distinct
   * root slice.
   */
  ghost predicate RootsMade(reg: Registry, mc: string, joins: seq<Join>, rows: seq<seq<Value>>, heap0: seq<Instance>,
                            sel: Selected, log: seq<Birth>)
    requires Resolved(reg, mc, joins)
  {
    |sel.heap| == |heap0| + |log| && sel.heap[..|heap0|] == heap0 &&
    |sel.classList| == |Distinct(RootSlices(reg, mc, joins, rows))| && Increasing(sel.classList) &&
    forall k {:trigger RootMade(reg, mc, Distinct(RootSlices(reg, mc, joins, rows)), sel.classList, log, sel.heap, |heap0|, k)} ::
      0 <= k < |sel.classList| ==>
      RootMade(reg, mc, Distinct(RootSlices(reg, mc, joins, rows)), sel.classList, log, sel.heap, |heap0|, k)
  }

  /**
   * Entry `k` of `class_list` is an arena index past `from` holding an
   * instance of the queried class, made from the k-th distinct root slice.
   */
  predicate RootMade(reg: Registry, mc: string, d: seq<seq<Value>>, classList: seq<nat>, log: seq<Birth>,
                     heap: seq<Instance>, from: nat, k: nat)
    requires mc in reg
  {
    k < |classList| && k < |d| && from <= classList[k] < |heap| && classList[k] - from < |log| &&
    heap[classList[k]].cls == mc && Fresh(reg, mc, d[k]) == Ok(log[classList[k] - from].inst)
  }

  /**
   * `parse_select`: without joins, one instance per row, built from the whole
   * row; with joins, the walk above.
   */
  method ParseSelect(reg: Registry, mc: string, joins: seq<Join>, rows: seq<seq<Value>>, heap0: seq<Instance>)
      returns (r: Result<Selected>, ghost log: seq<Birth>)
    requires Resolved(reg, mc, joins) && Named(reg) && PlainRows(rows)
    ensures joins == [] ==> r.Ok? && PlainSelected(reg, mc, rows, heap0, r.value)
    ensures joins != [] && r.Ok? ==>
              RootsMade(reg, mc, joins, rows, heap0, r.value, log) && Joined(reg, mc, joins, rows, heap0, r.value, log)
    ensures Sound(reg, mc, joins) && (forall n :: 0 <= n < |rows| ==> Consistent(reg, mc, joins, rows[n])) ==> r.Ok?
    ensures rows != [] && !Placed(mc, joins) ==> r.Err?
  {
    if joins == [] {
      var heap, classList := ParsePlain(reg, mc, rows, heap0);
      return Ok(Selected(heap, classList)), [];
    }
    r, log := ParseJoined(reg, mc, joins, rows, heap0);
    if r.Ok? {
      JoinedRoots(reg, mc, joins, rows, heap0, r.value, log);
    }
  }
}
