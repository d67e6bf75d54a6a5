/**
 * The schema registry and record instances (kameleon/model/base.py, with the
 * registration half of kameleon/model/fields/base.py and
 * kameleon/model/fields/foreignKeyField.py).
 *
 * A model class is identified by its class name (`cls`). While classes are
 * being declared, each has a mutable `ModelOptions` object; queries read a
 * `Schema`, the value of a `ModelOptions` once declaration is over.
 */
module Models {
  import opened Common
  import opened Fields

  // ---------------------------------------------------------------------------
  // The registry
  // ---------------------------------------------------------------------------

  /** The field map, the ordered field list and its names agree: same fields, same order, no name twice. */
  predicate Synced(fields: map<string, Field>, sortedFields: seq<Field>, names: seq<string>) {
    && |sortedFields| == |names|
    && NoDup(names)
    && (forall i :: 0 <= i < |names| ==> sortedFields[i].name == names[i])
    && (forall i :: 0 <= i < |names| ==> names[i] in fields && fields[names[i]] == sortedFields[i])
    && (forall k :: k in fields ==> k in names)
  }

  /** `cls._meta` as queries see it once the class is declared. */
  datatype Schema = Schema(
    cls: string,
    name: string,
    tableName: string,
    database: Option<Database>,
    primaryKey: bool,
    onConflict: seq<string>,
    unique: seq<string>,
    manyToMany: bool,
    order: seq<string>,
    fields: map<string, Field>,
    sortedFields: seq<Field>,
    sortedFieldsNames: seq<string>,
    rel: map<string, Field>,
    reverseRel: map<string, Field>,
    relClass: map<string, Field>)
  {
    predicate Valid() {
      Synced(fields, sortedFields, sortedFieldsNames)
    }
  }

  /** The declared classes by class name. */
  type Registry = map<string, Schema>

  /** `table_name.lower() if table_name else name` */
  function TableName(given: string, name: string): (r: string)
    ensures given != "" ==> r == ToLower(given)
    ensures given == "" ==> r == name
  {
    if given != "" then ToLower(given) else name
  }

  /** `ModelOptions`: the options and the field and relation registries of one model class. */
  class ModelOptions {
    const cls: string
    const name: string
    const tableName: string
    const database: Option<Database>
    const primaryKey: bool
    const onConflict: seq<string>
    const unique: seq<string>
    const manyToMany: bool
    const order: seq<string>
    var fields: map<string, Field>
    var sortedFields: seq<Field>
    var sortedFieldsNames: seq<string>
    var rel: map<string, Field>
    var reverseRel: map<string, Field>
    var relClass: map<string, Field>

    ghost predicate Valid()
      reads this
    {
      Synced(fields, sortedFields, sortedFieldsNames)
    }

    /** The registry's current value. */
    function Snapshot(): (s: Schema)
      reads this
      ensures s.cls == cls && s.fields == fields && s.sortedFieldsNames == sortedFieldsNames
      ensures Valid() ==> s.Valid()
    {
      Schema(cls, name, tableName, database, primaryKey, onConflict, unique, manyToMany, order,
             fields, sortedFields, sortedFieldsNames, rel, reverseRel, relClass)
    }

    /** `ModelOptions(cls, **meta)`: the name is the lower-cased class name; every registry starts empty. */
    constructor (cls: string, tableName: string, database: Option<Database>, primaryKey: bool,
                 onConflict: seq<string>, unique: seq<string>, manyToMany: bool, order: seq<string>)
      ensures Valid()
      ensures this.cls == cls && this.name == ToLower(cls)
      ensures this.tableName == TableName(tableName, ToLower(cls))
      ensures this.database == database && this.primaryKey == primaryKey
      ensures this.onConflict == onConflict && this.unique == unique
      ensures this.manyToMany == manyToMany && this.order == order
      ensures fields == map[] && sortedFields == [] && sortedFieldsNames == []
      ensures rel == map[] && reverseRel == map[] && relClass == map[]
    {
      this.cls := cls;
      this.name := ToLower(cls);
      this.tableName := TableName(tableName, ToLower(cls));
      this.database := database;
      this.primaryKey := primaryKey;
      this.onConflict := onConflict;
      this.unique := unique;
      this.manyToMany := manyToMany;
      this.order := order;
      fields := map[];
      sortedFields := [];
      sortedFieldsNames := [];
      rel := map[];
      reverseRel := map[];
      relClass := map[];
    }

    /**
     * `add_field`: a name already present is reported and ignored; otherwise
     * the field goes into the map and at the end of both lists.
     */
    method AddField(f: Field) returns (added: bool)
      requires Valid()
      modifies this
      ensures Valid()
      ensures added <==> f.name !in old(fields)
      ensures fields == if added then old(fields)[f.name := f] else old(fields)
      ensures sortedFields == if added then old(sortedFields) + [f] else old(sortedFields)
      ensures sortedFieldsNames == if added then old(sortedFieldsNames) + [f.name] else old(sortedFieldsNames)
      ensures rel == old(rel) && reverseRel == old(reverseRel) && relClass == old(relClass)
    {
      if f.name in fields {
        return false;
      }
      fields := fields[f.name := f];
      sortedFields := sortedFields + [f];
      sortedFieldsNames := sortedFieldsNames + [f.name];
      added := true;
    }
  }

  /** `Field.add_to_model(model, name)`: names the field, ties it to the model and registers it. */
  method FieldAddToModel(f: Field, model: ModelOptions, name: string) returns (bound: Field)
    requires model.Valid() && Bound(model)
    modifies model
    ensures bound == f.(name := name, modelClass := model.cls)
    ensures model.Valid() && Bound(model)
    ensures model.fields == if name in old(model.fields) then old(model.fields) else old(model.fields)[name := bound]
    ensures model.sortedFieldsNames == if name in old(model.fields) then old(model.sortedFieldsNames)
                                       else old(model.sortedFieldsNames) + [name]
    ensures model.sortedFields == if name in old(model.fields) then old(model.sortedFields)
                                  else old(model.sortedFields) + [bound]
    ensures model.rel == old(model.rel) && model.reverseRel == old(model.reverseRel)
    ensures model.relClass == old(model.relClass)
  {
    bound := f.(name := name, modelClass := model.cls);
    var _ := model.AddField(bound);
  }

  /** The `ReferenceField` a foreign key creates on its peer: named after the related name, pointing back at the owner. */
  function ReferenceFor(fk: Field, peer: string): (r: Field)
    requires fk.kind.ForeignKey?
    ensures r.kind.Reference? && r.name == fk.kind.relatedName && r.modelClass == peer
    ensures r.kind.relModel == fk.modelClass && r.kind.backName == fk.name
  {
    Field(fk.kind.relatedName, peer, false, false, Reference(fk.modelClass, fk.name))
  }

  /**
   * `ForeignKeyField.add_to_model(model, name)`: registers the key on its
   * owner, records it in `rel[name]` and `rel_class[peer]`, and registers the
   * matching reverse `ReferenceField` on the peer under the related name
   * (by default the owner's name followed by "s"). A related name that
   * already names a field or a reverse relation of the peer is only reported
   * (`fieldClash`, `reverseClash`): registration goes on and overwrites.
   */
  method ForeignKeyAddToModel(f: Field, owner: ModelOptions, peer: ModelOptions, name: string)
      returns (bound: Field, fieldClash: bool, reverseClash: bool)
    requires f.kind.ForeignKey? && peer.cls == f.kind.relModel
    requires owner.Valid() && Bound(owner)
    modifies owner, peer
    ensures bound.kind.ForeignKey? && bound.name == name && bound.modelClass == owner.cls
    ensures bound.kind.relatedName == EffectiveRelatedName(f.kind.relatedName, owner.name)
    ensures bound == f.(name := name, modelClass := owner.cls,
                        kind := f.kind.(relatedName := EffectiveRelatedName(f.kind.relatedName, owner.name)))
    ensures owner.Valid() && Bound(owner)
    ensures owner.fields == if name in old(owner.fields) then old(owner.fields) else old(owner.fields)[name := bound]
    ensures owner.sortedFieldsNames == if name in old(owner.fields) then old(owner.sortedFieldsNames)
                                       else old(owner.sortedFieldsNames) + [name]
    ensures owner.sortedFields == if name in old(owner.fields) then old(owner.sortedFields)
                                  else old(owner.sortedFields) + [bound]
    ensures fieldClash == (bound.kind.relatedName in old(peer.fields) || (peer == owner && bound.kind.relatedName == name))
    ensures reverseClash == (bound.kind.relatedName in old(peer.reverseRel))
    ensures owner.rel == old(owner.rel)[name := bound]
    ensures peer.reverseRel == old(peer.reverseRel)[bound.kind.relatedName := ReferenceFor(bound, peer.cls)]
    ensures peer != owner ==> owner.relClass == old(owner.relClass)[peer.cls := bound]
    ensures peer != owner ==> peer.relClass == old(peer.relClass)[owner.cls := ReferenceFor(bound, peer.cls)]
    ensures peer == owner ==> owner.relClass == old(owner.relClass)[owner.cls := ReferenceFor(bound, peer.cls)]
    ensures peer != owner ==> peer.fields == old(peer.fields) && peer.sortedFields == old(peer.sortedFields)
    ensures peer != owner ==> peer.sortedFieldsNames == old(peer.sortedFieldsNames) && peer.rel == old(peer.rel)
    ensures peer != owner ==> owner.reverseRel == old(owner.reverseRel)
  {
    var relatedName := EffectiveRelatedName(f.kind.relatedName, owner.name);
    bound := f.(name := name, modelClass := owner.cls, kind := f.kind.(relatedName := relatedName));
    var _ := owner.AddField(bound);
    fieldClash := relatedName in peer.fields;
    reverseClash := relatedName in peer.reverseRel;
    owner.rel := owner.rel[name := bound];
    owner.relClass := owner.relClass[peer.cls := bound];
    var reference := ReferenceFor(bound, peer.cls);
    peer.reverseRel := peer.reverseRel[relatedName := reference];
    peer.relClass := peer.relClass[owner.cls := reference];
  }

  /** The forward key and the reverse reference it creates name each other. */
  lemma ForwardAndReverseArePaired(bound: Field, peer: string)
    requires bound.kind.ForeignKey?
    ensures ReferenceFor(bound, peer).name == bound.kind.relatedName
    ensures ReferenceFor(bound, peer).kind.backName == bound.name
    ensures ReferenceFor(bound, peer).kind.relModel == bound.modelClass
  {
  }

  // ---------------------------------------------------------------------------
  // Declaring a model class (the metaclass)
  // ---------------------------------------------------------------------------

  /** The name `PrimaryKeyField` is registered under. */
  const PRIMARY_KEY_NAME: string := "id"

  /** The value declared for an attribute, if any. */
  function Lookup(attrs: seq<(string, Field)>, key: string): (r: Option<Field>)
    ensures r.Some? <==> exists i :: 0 <= i < |attrs| && attrs[i].0 == key
  {
    if attrs == [] then None
    else if attrs[0].0 == key then Some(attrs[0].1)
    else
      var r := Lookup(attrs[1..], key);
      assert forall i :: 1 <= i < |attrs| ==> attrs[i] == attrs[1..][i - 1];
      r
  }

  /** The attributes that are not private; `PublicAppend` shows the order of `attrs` is kept. */
  function Public(attrs: seq<(string, Field)>): (r: seq<(string, Field)>)
    ensures forall i :: 0 <= i < |r| ==> !("_" <= r[i].0)
    ensures forall p :: p in r <==> p in attrs && !("_" <= p.0)
    ensures |r| <= |attrs|
  {
    if attrs == [] then []
    else
      assert attrs == [attrs[0]] + attrs[1..];
      (if "_" <= attrs[0].0 then [] else [attrs[0]]) + Public(attrs[1..])
  }

  /** Filtering the private attributes out of a class body splits over its parts: what is left keeps its order. */
  lemma {:induction false} PublicAppend(a: seq<(string, Field)>, b: seq<(string, Field)>)
    ensures Public(a + b) == Public(a) + Public(b)
  {
    if a != [] {
      assert (a + b)[0] == a[0] && (a + b)[1..] == a[1..] + b;
      PublicAppend(a[1..], b);
    } else {
      assert a + b == b;
    }
  }

  /** The attributes named by `order` that the class declares, in the order's order. */
  function Ordered(attrs: seq<(string, Field)>, order: seq<string>): (r: seq<(string, Field)>)
    ensures forall i :: 0 <= i < |r| ==> Lookup(attrs, r[i].0) == Some(r[i].1) && r[i].0 in order
    ensures forall n :: n in order && Lookup(attrs, n).Some? ==> (n, Lookup(attrs, n).value) in r
    ensures |r| <= |order|
  {
    if order == [] then []
    else
      assert order == [order[0]] + order[1..];
      OrderedHead(attrs, order[0]) + Ordered(attrs, order[1..])
  }

  /** The attribute `n` names, if the class declares it. */
  function OrderedHead(attrs: seq<(string, Field)>, n: string): (r: seq<(string, Field)>)
    ensures r == [] <==> Lookup(attrs, n).None?
    ensures r != [] ==> r == [(n, Lookup(attrs, n).value)]
  {
    match Lookup(attrs, n)
    case Some(f) => [(n, f)]
    case None => []
  }

  /** Taking the declared names of an order splits over its parts: the names come in the order's order. */
  lemma {:induction false} OrderedAppend(attrs: seq<(string, Field)>, o: seq<string>, o': seq<string>)
    ensures Ordered(attrs, o + o') == Ordered(attrs, o) + Ordered(attrs, o')
  {
    if o != [] {
      var rest := o[1..];
      OrderedCons(attrs, o, o');
      OrderedAppend(attrs, rest, o');
      AppendAssoc(OrderedHead(attrs, o[0]), Ordered(attrs, rest), Ordered(attrs, o'));
    } else {
      assert o + o' == o';
    }
  }

  /** The first name of a non-empty order comes first. */
  lemma OrderedCons(attrs: seq<(string, Field)>, o: seq<string>, o': seq<string>)
    requires o != []
    ensures Ordered(attrs, o + o') == OrderedHead(attrs, o[0]) + Ordered(attrs, o[1..] + o')
    ensures Ordered(attrs, o) == OrderedHead(attrs, o[0]) + Ordered(attrs, o[1..])
  {
    assert (o + o')[0] == o[0] && (o + o')[1..] == o[1..] + o';
  }

  /** Concatenation regroups. */
  lemma AppendAssoc<T>(a: seq<T>, b: seq<T>, c: seq<T>)
    ensures a + (b + c) == a + b + c
  {
  }

  /** The attributes registered, in registration order: those of `order` when it is given, all public ones otherwise. */
  function Declared(attrs: seq<(string, Field)>, order: seq<string>): seq<(string, Field)> {
    if order != [] then Ordered(attrs, order) else Public(attrs)
  }

  /** The names of a sequence of named entries (attributes, or the pairs of a dictionary), in order. */
  function Names<T>(xs: seq<(string, T)>): (r: seq<string>)
    ensures |r| == |xs| && forall i :: 0 <= i < |xs| ==> r[i] == xs[i].0
  {
    if xs == [] then [] else [xs[0].0] + Names(xs[1..])
  }

  /** The names the metaclass tries to register for a model that is not a link table. */
  function Attempted(primaryKey: bool, declared: seq<(string, Field)>): seq<string> {
    (if primaryKey then [PRIMARY_KEY_NAME] else []) + Names(declared)
  }

  /** Every peer sits under its own class name. */
  ghost predicate PeersWellFormed(peers: map<string, ModelOptions>) {
    forall k :: k in peers ==> peers[k].cls == k
  }

  /** Every foreign key among the given attributes points at a known peer. */
  predicate PeersCover(decl: seq<(string, Field)>, peers: map<string, ModelOptions>) {
    forall i :: 0 <= i < |decl| && decl[i].1.kind.ForeignKey? ==> decl[i].1.kind.relModel in peers
  }

  /** Every registered field is tied to its model's class (each already carries its own name, by `Valid`). */
  ghost predicate Bound(model: ModelOptions)
    reads model
  {
    forall k :: k in model.fields ==> model.fields[k].modelClass == model.cls
  }

  /**
   * `value.add_to_model(model, key)`, dispatched on the field's class. Given
   * that the names registered so far are the distinct names of `attempted`,
   * they are afterwards the distinct names of `attempted + [key]`.
   */
  method RegisterOne(model: ModelOptions, key: string, f: Field, peers: map<string, ModelOptions>,
                     ghost attempted: seq<string>)
      returns (bound: Field)
    requires model.Valid() && Bound(model) && model !in peers.Values && PeersWellFormed(peers)
    requires model.sortedFieldsNames == Distinct(attempted)
    requires f.kind.ForeignKey? ==> f.kind.relModel in peers
    modifies model, set k | k in peers :: peers[k]
    ensures model.Valid() && Bound(model)
    ensures model.sortedFieldsNames == Distinct(attempted + [key])
    ensures bound.name == key && bound.modelClass == model.cls
    ensures model.fields == if key in old(model.fields) then old(model.fields) else old(model.fields)[key := bound]
    ensures f.kind.ForeignKey? ==>
              bound.kind.ForeignKey? && bound.kind.relatedName == EffectiveRelatedName(f.kind.relatedName, model.name)
    ensures !f.kind.ForeignKey? ==> bound == f.(name := key, modelClass := model.cls)
  {
    DistinctSnoc(attempted, key);
    if f.kind.ForeignKey? {
      var peer := peers[f.kind.relModel];
      assert peer in peers.Values && peer != model;
      var fieldClash, reverseClash;
      bound, fieldClash, reverseClash := ForeignKeyAddToModel(f, model, peer, key);
    } else {
      bound := FieldAddToModel(f, model, key);
    }
  }

  /** `b` keeps every entry of `a`. */
  predicate Extends(a: map<string, Field>, b: map<string, Field>) {
    forall k :: k in a ==> k in b && b[k] == a[k]
  }

  /** The registry after the names `names` were offered to it, starting from the fields `initial`. */
  ghost predicate Registered(model: ModelOptions, initial: map<string, Field>, names: seq<string>)
    reads model
  {
    model.Valid() && Bound(model) && model.sortedFieldsNames == Distinct(names) && Extends(initial, model.fields)
  }

  /** One more registration keeps `Registered`, now over the names with the new key at the end. */
  lemma RegisteredStep(model: ModelOptions, initial: map<string, Field>, prev: map<string, Field>,
                       before: seq<string>, decl: seq<(string, Field)>, i: nat, bound: Field)
    requires i < |decl| && Extends(initial, prev)
    requires model.Valid() && Bound(model)
    requires model.sortedFieldsNames == Distinct(before + Names(decl[..i]) + [decl[i].0])
    requires model.fields == if decl[i].0 in prev then prev else prev[decl[i].0 := bound]
    ensures Registered(model, initial, before + Names(decl[..i + 1]))
  {
    NamesSnoc(decl, i);
    SnocAssoc(before, Names(decl[..i]), decl[i].0);
    ExtendsGrow(initial, prev, decl[i].0, bound);
  }

  lemma SnocAssoc(a: seq<string>, b: seq<string>, x: string)
    ensures a + (b + [x]) == a + b + [x]
  {
  }

  /** Registering a name keeps every entry an earlier map had. */
  lemma ExtendsGrow(initial: map<string, Field>, a: map<string, Field>, key: string, f: Field)
    requires Extends(initial, a)
    ensures Extends(initial, if key in a then a else a[key := f])
  {
  }

  /** The declared attributes registered one after the other. */
  method RegisterAll(model: ModelOptions, decl: seq<(string, Field)>, peers: map<string, ModelOptions>,
                     ghost before: seq<string>)
    requires model.Valid() && Bound(model) && model !in peers.Values && PeersWellFormed(peers)
    requires PeersCover(decl, peers)
    requires model.sortedFieldsNames == Distinct(before)
    modifies model, set k | k in peers :: peers[k]
    ensures model.Valid() && Bound(model)
    ensures model.sortedFieldsNames == Distinct(before + Names(decl))
    ensures Extends(old(model.fields), model.fields)
  {
    ghost var initial := model.fields;
    assert decl[..0] == [] && Names(decl[..0]) == [] && before + Names(decl[..0]) == before;
    var i := 0;
    while i < |decl|
      invariant 0 <= i <= |decl|
      invariant Registered(model, initial, before + Names(decl[..i]))
    {
      ghost var prev := model.fields;
      var bound := RegisterOne(model, decl[i].0, decl[i].1, peers, before + Names(decl[..i]));
      RegisteredStep(model, initial, prev, before, decl, i, bound);
      i := i + 1;
    }
    assert decl[..i] == decl;
  }

  /**
   * `BaseModel.__new__` for a model that is not a link table: the primary
   * key `id` first (when `primary_key`), then the declared fields, in `order`
   * when one is given. `attrs` is the class dictionary's items in its
   * iteration order, so each name occurs once; a name that `order` lists
   * twice, or an explicit `id` beside the primary key, is not registered again.
   */
  method DeclareModel(cls: string, tableName: string, database: Option<Database>, primaryKey: bool,
                      onConflict: seq<string>, unique: seq<string>, order: seq<string>,
                      attrs: seq<(string, Field)>, pkTag: string, peers: map<string, ModelOptions>)
      returns (model: ModelOptions)
    requires NoDup(Names(attrs))
    requires PeersWellFormed(peers) && PeersCover(Declared(attrs, order), peers)
    modifies set k | k in peers :: peers[k]
    ensures fresh(model) && model.Valid() && Bound(model) && model.cls == cls && !model.manyToMany
    ensures model.sortedFieldsNames == Distinct(Attempted(primaryKey, Declared(attrs, order)))
    ensures primaryKey ==> model.sortedFieldsNames[0] == PRIMARY_KEY_NAME
    ensures primaryKey ==> model.fields[PRIMARY_KEY_NAME].kind == PrimaryKey(pkTag)
  {
    model := new ModelOptions(cls, tableName, database, primaryKey, onConflict, unique, false, order);
    var decl := Declared(attrs, order);
    if primaryKey {
      var pk := RegisterOne(model, PRIMARY_KEY_NAME, Field("", "", false, false, PrimaryKey(pkTag)), peers, []);
      assert model.fields[PRIMARY_KEY_NAME].kind == PrimaryKey(pkTag);
      RegisterAll(model, decl, peers, [PRIMARY_KEY_NAME]);
      DistinctHead([PRIMARY_KEY_NAME] + Names(decl));
    } else {
      RegisterAll(model, decl, peers, []);
      assert [] + Names(decl) == Names(decl);
    }
  }

  lemma NamesSnoc(xs: seq<(string, Field)>, i: nat)
    requires i < |xs|
    ensures Names(xs[..i + 1]) == Names(xs[..i]) + [xs[i].0]
  {
    assert xs[..i + 1] == xs[..i] + [xs[i]];
    NamesAppend(xs[..i], [xs[i]]);
  }

  lemma NamesAppend(xs: seq<(string, Field)>, ys: seq<(string, Field)>)
    ensures Names(xs + ys) == Names(xs) + Names(ys)
  {
  }

  /**
   * `BaseModel.__new__` for a link table: the first two link attributes (by
   * `order` when given) are registered in turn, each with the other's
   * attribute name as its related name. Fewer than two links raise before
   * anything is registered (`None` here). `attrs` is the class dictionary's
   * items in its iteration order.
   */
  method DeclareLinkTable(cls: string, tableName: string, database: Option<Database>, primaryKey: bool,
                          onConflict: seq<string>, unique: seq<string>, order: seq<string>,
                          attrs: seq<(string, Field)>, peers: map<string, ModelOptions>)
      returns (model: Option<ModelOptions>)
    requires NoDup(Names(attrs))
    requires PeersWellFormed(peers) && PeersCover(Declared(attrs, order), peers)
    modifies set k | k in peers :: peers[k]
    ensures model.None? <==> |Declared(attrs, order)| < 2
    ensures model.None? ==> forall k :: k in peers ==> unchanged(peers[k])
    ensures model.Some? ==> fresh(model.value) && model.value.Valid() && Bound(model.value)
    ensures model.Some? ==> model.value.manyToMany && model.value.cls == cls
    ensures model.Some? ==>
              model.value.sortedFieldsNames == Distinct([Declared(attrs, order)[0].0, Declared(attrs, order)[1].0])
    ensures model.Some? ==> LinkedTo(model.value, Declared(attrs, order)[0], Declared(attrs, order)[1].0)
    ensures model.Some? ==> LinkedTo(model.value, Declared(attrs, order)[1], Declared(attrs, order)[0].0)
  {
    var links := Declared(attrs, order);
    if |links| < 2 {
      return None;
    }
    var m := new ModelOptions(cls, tableName, database, primaryKey, onConflict, unique, true, order);
    RegisterLinks(m, links[0], links[1], peers);
    model := Some(m);
  }

  /** Registers the two links of a link table, each named as the other's related name. */
  method RegisterLinks(m: ModelOptions, link0: (string, Field), link1: (string, Field), peers: map<string, ModelOptions>)
    requires m.Valid() && Bound(m) && m.fields == map[] && m.sortedFieldsNames == []
    requires m !in peers.Values && PeersWellFormed(peers)
    requires link0.1.kind.ForeignKey? ==> link0.1.kind.relModel in peers
    requires link1.1.kind.ForeignKey? ==> link1.1.kind.relModel in peers
    modifies m, set k | k in peers :: peers[k]
    ensures m.Valid() && Bound(m)
    ensures m.sortedFieldsNames == Distinct([link0.0, link1.0])
    ensures LinkedTo(m, link0, link1.0) && LinkedTo(m, link1, link0.0)
  {
    var k0: string, f0: Field := link0.0, link0.1;
    var k1: string, f1: Field := link1.0, link1.1;
    // each link's related_name is the other link's attribute name
    var l0 := if f0.kind.ForeignKey? then f0.(kind := f0.kind.(relatedName := k1)) else f0;
    var l1 := if f1.kind.ForeignKey? then f1.(kind := f1.kind.(relatedName := k0)) else f1;
    var b0 := RegisterOne(m, k0, l0, peers, []);
    assert LinkedTo(m, link0, k1);
    var b1 := RegisterOne(m, k1, l1, peers, [k0]);
    assert LinkedTo(m, link0, k1);
  }

  /**
   * A registered link: a foreign key link knows the other link's
   * attribute as its related name (the first link registered keeps its own
   * entry when both links share a name).
   */
  ghost predicate LinkedTo(model: ModelOptions, link: (string, Field), other: string)
    reads model
  {
    link.0 in model.fields &&
    (link.1.kind.ForeignKey? && link.0 != other ==>
       model.fields[link.0].kind.ForeignKey? &&
       model.fields[link.0].kind.relatedName == EffectiveRelatedName(other, model.name))
  }

  // ---------------------------------------------------------------------------
  // Instances
  // ---------------------------------------------------------------------------

  /**
   * A model instance: its class, `dictValues` (the column values `save`
   * writes) and its attributes. Objects live in an arena (`seq<Instance>`)
   * and refer to each other by index.
   */
  datatype Instance = Instance(cls: string, dictValues: map<string, Value>, attrs: map<string, Value>)

  /** `getattr(obj, name)` on an instance attribute. */
  function GetAttr(inst: Instance, name: string): Result<Value> {
    if name in inst.attrs then Ok(inst.attrs[name]) else Err("AttributeError: " + name)
  }

  /** A keyword argument, or `None` when it was not passed. */
  function Arg(kwargs: map<string, Value>, k: string): Value {
    if k in kwargs then kwargs[k] else Null
  }

  /**
   * What `__setattr__` stores in `dictValues` for a field: an instance
   * assigned to a foreign key is replaced by its referenced column;
   * anything else is stored as given.
   */
  function StoredValue(s: Schema, name: string, v: Value, heap: seq<Instance>): (r: Result<Value>)
    requires name in s.fields
    ensures !(v.Ref? && s.fields[name].kind.ForeignKey?) ==> r == Ok(v)
    ensures v.Ref? && s.fields[name].kind.ForeignKey? && v.obj < |heap| ==>
              r == GetAttr(heap[v.obj], s.fields[name].kind.reference.name)
  {
    if v.Ref? && s.fields[name].kind.ForeignKey? then
      if v.obj < |heap| then GetAttr(heap[v.obj], s.fields[name].kind.reference.name)
      else Err("dangling object")
    else Ok(v)
  }

  /**
   * `Model.__init__(**kwargs)`: every field gets its argument or `None`, in
   * the attributes and in `dictValues`; with a primary key but no `id` field
   * (a link table) `id` is added as `None`; every reverse relation starts as
   * an empty list.
   */
  function NewInstance(s: Schema, kwargs: map<string, Value>, heap: seq<Instance>): (r: Result<Instance>)
    ensures r.Ok? <==> Settable(s, kwargs, heap)
    ensures r.Ok? ==> r.value.cls == s.cls
    ensures r.Ok? ==> r.value.dictValues.Keys == s.fields.Keys + (if s.primaryKey then {PRIMARY_KEY_NAME} else {})
    ensures r.Ok? ==> forall k :: k in s.fields ==> r.value.dictValues[k] == StoredValue(s, k, Arg(kwargs, k), heap).value
    ensures r.Ok? ==> r.value.attrs.Keys == r.value.dictValues.Keys + s.reverseRel.Keys
    ensures r.Ok? ==> forall k :: k in s.reverseRel ==> r.value.attrs[k] == List([])
    ensures r.Ok? ==> forall k :: k in s.fields && k !in s.reverseRel ==> r.value.attrs[k] == Arg(kwargs, k)
    ensures r.Ok? && s.primaryKey && PRIMARY_KEY_NAME !in s.fields && PRIMARY_KEY_NAME !in s.reverseRel ==>
              r.value.dictValues[PRIMARY_KEY_NAME] == Null && r.value.attrs[PRIMARY_KEY_NAME] == Null
  {
    if !Settable(s, kwargs, heap) then Err("error while setting a field")
    else Ok(Instance(s.cls, InitialValues(s, kwargs, heap), InitialAttrs(s, kwargs)))
  }

  /** Every field's argument can be stored. */
  predicate Settable(s: Schema, kwargs: map<string, Value>, heap: seq<Instance>) {
    forall k :: k in s.fields ==> StoredValue(s, k, Arg(kwargs, k), heap).Ok?
  }

  /** A link table with a primary key gets an `id` entry although it has no such field. */
  predicate ExtraId(s: Schema) {
    s.primaryKey && PRIMARY_KEY_NAME !in s.fields
  }

  /** `dictValues` right after `__init__`. */
  function InitialValues(s: Schema, kwargs: map<string, Value>, heap: seq<Instance>): (r: map<string, Value>)
    requires Settable(s, kwargs, heap)
    ensures r.Keys == s.fields.Keys + (if s.primaryKey then {PRIMARY_KEY_NAME} else {})
    ensures forall k :: k in s.fields ==> r[k] == StoredValue(s, k, Arg(kwargs, k), heap).value
    ensures ExtraId(s) ==> r[PRIMARY_KEY_NAME] == Null
  {
    var stored := map k | k in s.fields :: StoredValue(s, k, Arg(kwargs, k), heap).value;
    if ExtraId(s) then stored[PRIMARY_KEY_NAME := Null] else stored
  }

  /** The attributes right after `__init__`. */
  function InitialAttrs(s: Schema, kwargs: map<string, Value>): (r: map<string, Value>)
    ensures r.Keys == s.fields.Keys + (if s.primaryKey then {PRIMARY_KEY_NAME} else {}) + s.reverseRel.Keys
    ensures forall k :: k in s.reverseRel ==> r[k] == List([])
    ensures forall k :: k in s.fields && k !in s.reverseRel ==> r[k] == Arg(kwargs, k)
    ensures ExtraId(s) && PRIMARY_KEY_NAME !in s.reverseRel ==> r[PRIMARY_KEY_NAME] == Null
  {
    var attrs := map k | k in s.fields :: Arg(kwargs, k);
    var withId := if ExtraId(s) then attrs[PRIMARY_KEY_NAME := Null] else attrs;
    withId + map k | k in s.reverseRel :: List([])
  }

  /** An instance built from plain values holds them as given. */
  lemma NewInstancePlain(s: Schema, kwargs: map<string, Value>, heap: seq<Instance>)
    requires forall k :: k in kwargs ==> !kwargs[k].Ref?
    ensures NewInstance(s, kwargs, heap).Ok?
    ensures forall k :: k in s.fields ==> NewInstance(s, kwargs, heap).value.dictValues[k] == Arg(kwargs, k)
  {
    assert forall k :: k in s.fields ==> StoredValue(s, k, Arg(kwargs, k), heap) == Ok(Arg(kwargs, k));
  }

  /**
   * `setattr(inst, name, v)`: the attribute takes `v`. When `name` is a
   * column, `dictValues` follows: an instance assigned to a foreign key
   * stores the instance's referenced column instead. A column without a
   * registered field (a link table's `id`) raises.
   */
  function SetAttr(s: Schema, inst: Instance, name: string, v: Value, heap: seq<Instance>): (r: Result<Instance>)
    ensures name !in inst.dictValues ==> r == Ok(inst.(attrs := inst.attrs[name := v]))
    ensures name in inst.dictValues && name !in s.fields ==> r.Err?
    ensures name in inst.dictValues && name in s.fields && !(v.Ref? && s.fields[name].kind.ForeignKey?) ==>
              r == Ok(inst.(attrs := inst.attrs[name := v], dictValues := inst.dictValues[name := v]))
    ensures r.Ok? ==> r.value.cls == inst.cls && r.value.attrs == inst.attrs[name := v]
    ensures r.Ok? ==> r.value.dictValues.Keys == inst.dictValues.Keys
    ensures r.Ok? ==> forall k :: k in inst.dictValues && k != name ==> r.value.dictValues[k] == inst.dictValues[k]
  {
    var inst' := inst.(attrs := inst.attrs[name := v]);
    if name !in inst.dictValues then Ok(inst')
    else if name !in s.fields then Err("KeyError: " + name)
    else
      var stored :- StoredValue(s, name, v, heap);
      Ok(inst'.(dictValues := inst.dictValues[name := stored]))
  }

  /** Assigning an instance to a foreign key stores that instance's referenced column. */
  lemma SetForeignKeyStoresReferencedColumn(s: Schema, inst: Instance, name: string, target: nat, heap: seq<Instance>)
    requires name in inst.dictValues && name in s.fields && s.fields[name].kind.ForeignKey?
    requires target < |heap| && s.fields[name].kind.reference.name in heap[target].attrs
    ensures SetAttr(s, inst, name, Ref(target), heap).Ok?
    ensures SetAttr(s, inst, name, Ref(target), heap).value.dictValues[name]
            == heap[target].attrs[s.fields[name].kind.reference.name]
    ensures SetAttr(s, inst, name, Ref(target), heap).value.attrs[name] == Ref(target)
  {
  }

  // ---------------------------------------------------------------------------
  // The in-memory half of add and remove
  // ---------------------------------------------------------------------------

  /** The value of a collection attribute once `other` is added: a falsy value becomes `[other]`, a list grows by it. */
  function Appended(v: Value, other: nat): (r: Value)
    ensures v.List? ==> r == List(v.objs + [other])
    ensures !v.List? && !Truthy(v) ==> r == List([other])
  {
    if v.List? then List(v.objs + [other]) else if !Truthy(v) then List([other]) else v
  }

  /**
   * Whether `Model.add` can extend `inst`'s collection `attr`: the attribute
   * exists, is a list or falsy, and, being a column, has a registered field.
   */
  predicate Appendable(s: Schema, inst: Instance, attr: string) {
    attr in inst.attrs && (inst.attrs[attr].List? || !Truthy(inst.attrs[attr])) &&
    (attr in inst.dictValues ==> attr in s.fields)
  }

  /**
   * In `Model.add`: when `getattr(obj, attr)` is falsy it is set to `[other]`,
   * otherwise `other` is appended (no de-duplication).
   */
  function AppendLink(reg: Registry, heap: seq<Instance>, obj: nat, attr: string, other: nat): (r: Result<seq<Instance>>)
    requires obj < |heap| && heap[obj].cls in reg
    ensures r.Ok? <==> Appendable(reg[heap[obj].cls], heap[obj], attr)
    ensures r.Ok? ==> |r.value| == |heap| && forall k :: 0 <= k < |heap| && k != obj ==> r.value[k] == heap[k]
    ensures r.Ok? ==> r.value[obj].dictValues.Keys == heap[obj].dictValues.Keys
    ensures r.Ok? ==> attr in heap[obj].attrs && attr in r.value[obj].attrs
    ensures r.Ok? && heap[obj].attrs[attr].List? ==> r.value[obj].attrs[attr] == List(heap[obj].attrs[attr].objs + [other])
    ensures r.Ok? ==> r.value[obj].attrs[attr].List? && other in r.value[obj].attrs[attr].objs
    ensures r.Ok? ==> r.value[obj].cls == heap[obj].cls && r.value[obj].attrs == heap[obj].attrs[attr := Appended(heap[obj].attrs[attr], other)]
    ensures attr in heap[obj].attrs && Truthy(heap[obj].attrs[attr]) && !heap[obj].attrs[attr].List? ==> r.Err?
  {
    var cur :- GetAttr(heap[obj], attr);
    if !Truthy(cur) then
      assert cur.List? ==> cur.objs + [other] == [other];
      var inst :- SetAttr(reg[heap[obj].cls], heap[obj], attr, List([other]), heap);
      Ok(heap[obj := inst])
    else if cur.List? then
      var inst :- SetAttr(reg[heap[obj].cls], heap[obj], attr, List(cur.objs + [other]), heap);
      Ok(heap[obj := inst])
    else Err("AttributeError: 'append'")
  }

  /** Where `x` first occurs in `xs`. */
  function FirstIndex(xs: seq<nat>, x: nat): (i: nat)
    requires x in xs
    ensures i < |xs| && xs[i] == x && x !in xs[..i]
  {
    if xs[0] == x then 0
    else
      assert xs == [xs[0]] + xs[1..];
      var j := FirstIndex(xs[1..], x);
      assert xs[..j + 1] == [xs[0]] + xs[1..][..j];
      j + 1
  }

  /** The first occurrence of `x` removed (`list.remove`); `RemoveFirstCount` gives the multiset it leaves. */
  function RemoveFirst(xs: seq<nat>, x: nat): (r: seq<nat>)
    ensures x in xs ==> r == xs[..FirstIndex(xs, x)] + xs[FirstIndex(xs, x) + 1..]
    ensures x !in xs ==> r == xs
    ensures x in xs ==> |r| == |xs| - 1
  {
    if xs == [] then []
    else if xs[0] == x then
      assert xs[..0] == [] && xs[0 + 1..] == xs[1..];
      xs[1..]
    else
      var t := xs[1..];
      assert xs == [xs[0]] + t;
      var r := [xs[0]] + RemoveFirst(t, x);
      if x in t then
        var j := FirstIndex(t, x);
        assert FirstIndex(xs, x) == j + 1;
        assert xs[..j + 1] == [xs[0]] + t[..j];
        assert xs[j + 1 + 1..] == t[j + 1..];
        r
      else r
  }

  /** Removing the first occurrence takes one `x` out of the multiset, and nothing else. */
  lemma RemoveFirstCount(xs: seq<nat>, x: nat)
    ensures multiset(RemoveFirst(xs, x)) == multiset(xs) - multiset{x}
  {
    if x in xs {
      MultisetSplit(xs, FirstIndex(xs, x));
    } else {
      assert multiset(xs)[x] == 0;
    }
  }

  /** Dropping the element at `i` takes exactly that one element out of the multiset. */
  lemma MultisetSplit(xs: seq<nat>, i: nat)
    requires i < |xs|
    ensures multiset(xs[..i] + xs[i + 1..]) == multiset(xs) - multiset{xs[i]}
  {
    var a, b := xs[..i], xs[i + 1..];
    assert xs == a + [xs[i]] + b;
    calc {
      multiset(xs);
      multiset(a + [xs[i]] + b);
      multiset(a) + multiset{xs[i]} + multiset(b);
    }
  }

  /**
   * The instance once `list.remove(other)` has run on its list `attr`, when
   * `other` is in it. The list is changed in place, so a `dictValues` entry of
   * the same name, which `__setattr__` made the same list object, is
   * shortened with it.
   */
  function Unlinked(inst: Instance, attr: string, other: nat): Instance
    requires attr in inst.attrs && inst.attrs[attr].List?
  {
    if other !in inst.attrs[attr].objs then inst
    else
      var shorter := List(RemoveFirst(inst.attrs[attr].objs, other));
      inst.(attrs := inst.attrs[attr := shorter],
            dictValues := if attr in inst.dictValues then inst.dictValues[attr := shorter] else inst.dictValues)
  }

  /**
   * In `Model.remove`: `other` is removed from the list once, and only if
   * present. A missing attribute, or one that is not a list, raises.
   */
  function RemoveLink(heap: seq<Instance>, obj: nat, attr: string, other: nat): (r: Result<seq<Instance>>)
    requires obj < |heap|
    ensures r.Ok? <==> attr in heap[obj].attrs && heap[obj].attrs[attr].List?
    ensures r.Ok? ==> r.value == heap[obj := Unlinked(heap[obj], attr, other)]
    ensures r.Ok? && other !in heap[obj].attrs[attr].objs ==> r.value == heap
    ensures r.Ok? && other in heap[obj].attrs[attr].objs ==>
              var shorter := List(RemoveFirst(heap[obj].attrs[attr].objs, other));
              r.value[obj].cls == heap[obj].cls && r.value[obj].attrs == heap[obj].attrs[attr := shorter] &&
              (attr in heap[obj].dictValues ==> r.value[obj].dictValues == heap[obj].dictValues[attr := shorter]) &&
              (attr !in heap[obj].dictValues ==> r.value[obj].dictValues == heap[obj].dictValues)
  {
    var cur :- GetAttr(heap[obj], attr);
    if !cur.List? then Err("TypeError: argument of type is not iterable")
    else if other in cur.objs then Ok(heap[obj := Unlinked(heap[obj], attr, other)])
    else Ok(heap)
  }

  // ---------------------------------------------------------------------------
  // The values save writes
  // ---------------------------------------------------------------------------

  /** An ordered dictionary of formatted values, as the SQL builders take it. */
  type Dict = seq<(string, string)>

  function Vals(d: Dict): (r: seq<string>)
    ensures |r| == |d| && forall i :: 0 <= i < |d| ==> r[i] == d[i].1
  {
    if d == [] then [] else [d[0].1] + Vals(d[1..])
  }

  /** `field.insert_format(value)`; classes other than `CharField` and `ForeignKeyField` use `other`. */
  function InsertFormat(f: Field, v: Value, other: (Field, Value) -> string): (r: string)
    ensures f.kind.Char? || f.kind.ForeignKey? ==> r == QuoteFormat(v)
  {
    if f.kind.Char? || f.kind.ForeignKey? then QuoteFormat(v) else other(f, v)
  }

  /** The names among `names` that have a value. */
  function ValuedNames(names: seq<string>, values: map<string, Value>): (r: seq<string>)
    ensures forall i :: 0 <= i < |r| ==> r[i] in values && r[i] in names
    ensures forall n :: n in names && n in values ==> n in r
  {
    if names == [] then []
    else (if names[0] in values then [names[0]] else []) + ValuedNames(names[1..], values)
  }

  /** Each name with its value formatted by its field. */
  function Formatted(s: Schema, names: seq<string>, inst: Instance, other: (Field, Value) -> string): (r: Dict)
    requires forall i :: 0 <= i < |names| ==> names[i] in s.fields && names[i] in inst.dictValues
    ensures Names(r) == names
    ensures forall i :: 0 <= i < |r| ==> r[i].1 == InsertFormat(s.fields[names[i]], inst.dictValues[names[i]], other)
  {
    if names == [] then []
    else [(names[0], InsertFormat(s.fields[names[0]], inst.dictValues[names[0]], other))] + Formatted(s, names[1..], inst, other)
  }

  /**
   * The `values` dictionary of `save`: every entry of `dictValues` formatted
   * by its field, in field-registration order. A value without a field
   * raises `KeyError`.
   */
  function SaveValues(s: Schema, inst: Instance, other: (Field, Value) -> string): (r: Result<Dict>)
    requires s.Valid()
    ensures r.Ok? <==> inst.dictValues.Keys <= s.fields.Keys
    ensures r.Ok? ==> forall i :: 0 <= i < |r.value| ==>
              r.value[i].0 in inst.dictValues && r.value[i].0 in s.fields &&
              r.value[i].1 == InsertFormat(s.fields[r.value[i].0], inst.dictValues[r.value[i].0], other)
    ensures r.Ok? ==> forall k :: k in inst.dictValues ==> k in Names(r.value)
  {
    if !(inst.dictValues.Keys <= s.fields.Keys) then Err("KeyError")
    else
      var names := ValuedNames(s.sortedFieldsNames, inst.dictValues);
      ValuedAll(s, inst.dictValues);
      var d := Formatted(s, names, inst, other);
      FormattedNames(s, names, inst, other, d);
      Ok(d)
  }

  /** The entries of `Formatted` carry the given names, in order, with their formatted values. */
  lemma FormattedNames(s: Schema, names: seq<string>, inst: Instance, other: (Field, Value) -> string, d: Dict)
    requires forall i :: 0 <= i < |names| ==> names[i] in s.fields && names[i] in inst.dictValues
    requires d == Formatted(s, names, inst, other)
    ensures forall i :: 0 <= i < |d| ==>
              d[i].0 in inst.dictValues && d[i].0 in s.fields &&
              d[i].1 == InsertFormat(s.fields[d[i].0], inst.dictValues[d[i].0], other)
    ensures forall k :: k in names ==> k in Names(d)
  {
    assert forall i :: 0 <= i < |d| ==> d[i].0 == names[i];
  }

  /** Every valued name with a field is among the valued names in field order. */
  lemma ValuedAll(s: Schema, values: map<string, Value>)
    requires s.Valid() && values.Keys <= s.fields.Keys
    ensures forall i :: 0 <= i < |ValuedNames(s.sortedFieldsNames, values)| ==>
              ValuedNames(s.sortedFieldsNames, values)[i] in s.fields
    ensures forall k :: k in values ==> k in ValuedNames(s.sortedFieldsNames, values)
  {
    forall k | k in values
      ensures k in ValuedNames(s.sortedFieldsNames, values)
    {
      assert k in s.fields;
    }
  }

  /** The entry for `key` dropped (`del values[key]`). */
  function Without(d: Dict, key: string): (r: Dict)
    ensures forall i :: 0 <= i < |r| ==> r[i] in d && r[i].0 != key
    ensures forall i :: 0 <= i < |d| && d[i].0 != key ==> d[i] in r
  {
    if d == [] then [] else (if d[0].0 == key then [] else [d[0]]) + Without(d[1..], key)
  }

  /** What `save` sends: an update of the row, or an insert and whether it returns the new key. */
  datatype SaveStep = UpdateRow(values: Dict) | InsertRow(values: Dict, returnsKey: bool)

  /**
   * The decision in `save`: with a primary key, a truthy `id` updates the row
   * and a falsy one inserts without `id`; without a primary key it always
   * inserts.
   */
  function SavePlan(s: Schema, inst: Instance, other: (Field, Value) -> string): (r: Result<SaveStep>)
    requires s.Valid()
    ensures r.Ok? <==> SaveValues(s, inst, other).Ok? &&
                       (s.primaryKey ==> PRIMARY_KEY_NAME in inst.attrs &&
                                         (Truthy(inst.attrs[PRIMARY_KEY_NAME]) || PRIMARY_KEY_NAME in inst.dictValues))
    ensures r.Ok? && !s.primaryKey ==> r.value == InsertRow(SaveValues(s, inst, other).value, false)
    ensures r.Ok? && s.primaryKey && Truthy(inst.attrs[PRIMARY_KEY_NAME]) ==>
              r.value == UpdateRow(SaveValues(s, inst, other).value)
    ensures r.Ok? && s.primaryKey && !Truthy(inst.attrs[PRIMARY_KEY_NAME]) ==>
              r.value == InsertRow(Without(SaveValues(s, inst, other).value, PRIMARY_KEY_NAME), true)
    ensures r.Ok? && r.value.InsertRow? && r.value.returnsKey ==> PRIMARY_KEY_NAME !in Names(r.value.values)
  {
    var values :- SaveValues(s, inst, other);
    if !s.primaryKey then Ok(InsertRow(values, false))
    else if PRIMARY_KEY_NAME !in inst.attrs then Err("AttributeError: id")
    else if Truthy(inst.attrs[PRIMARY_KEY_NAME]) then Ok(UpdateRow(values))
    else if PRIMARY_KEY_NAME !in inst.dictValues then Err("KeyError: 'id'")
    else
      var w := Without(values, PRIMARY_KEY_NAME);
      assert forall i :: 0 <= i < |w| ==> Names(w)[i] != PRIMARY_KEY_NAME;
      Ok(InsertRow(w, true))
  }
}
