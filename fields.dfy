/**
 * Field descriptors and the expression tree built from them
 * (kameleon/model/fields/base.py, charField.py and the pure parts of
 * foreignKeyField.py).
 */
module Fields {
  import opened Common

  // ---------------------------------------------------------------------------
  // Operators
  // ---------------------------------------------------------------------------

  /** The members of `OP`. */
  datatype Op =
    | And | Or | Add | Sub | Mul | Div | BinAnd | BinOr | Xor | Mod
    | Eq | Lt | Lte | Gt | Gte | Ne | In | NotIn | Is | IsNot
    | Like | ILike | Between | Regexp | Concat

  /** The string each member of `OP` stands for (`OP.AND == 'and'`, ...). */
  function OpValue(op: Op): string {
    match op
    case And => "and"
    case Or => "or"
    case Add => "+"
    case Sub => "-"
    case Mul => "*"
    case Div => "/"
    case BinAnd => "&"
    case BinOr => "|"
    case Xor => "^"
    case Mod => "%"
    case Eq => "="
    case Lt => "<"
    case Lte => "<="
    case Gt => ">"
    case Gte => ">="
    case Ne => "!="
    case In => "in"
    case NotIn => "not in"
    case Is => "is"
    case IsNot => "is not"
    case Like => "like"
    case ILike => "ilike"
    case Between => "between"
    case Regexp => "regexp"
    case Concat => "||"
  }

  /** `OP_MAP`: from the operator strings to SQL tokens. */
  const OP_MAP: map<string, string> := map[
    "=" := "=", "<" := "<", "<=" := "<=", ">" := ">", ">=" := ">=", "!=" := "!=",
    "in" := "IN", "not in" := "NOT IN", "is" := "IS", "is not" := "IS NOT",
    "&" := "&", "|" := "|", "like" := "LIKE", "ilike" := "ILIKE", "between" := "BETWEEN",
    "+" := "+", "-" := "-", "*" := "*", "/" := "/", "^" := "#",
    "and" := "AND", "or" := "OR", "%" := "%", "regexp" := "REGEXP", "||" := "||"]

  /** `OP_MAP` is defined for every member of `OP`. */
  lemma OpMapDefined(op: Op)
    ensures OpValue(op) in OP_MAP
  {
    match op
    case And => assert "and" in OP_MAP;
    case Or => assert "or" in OP_MAP;
    case Add => assert "+" in OP_MAP;
    case Sub => assert "-" in OP_MAP;
    case Mul => assert "*" in OP_MAP;
    case Div => assert "/" in OP_MAP;
    case BinAnd => assert "&" in OP_MAP;
    case BinOr => assert "|" in OP_MAP;
    case Xor => assert "^" in OP_MAP;
    case Mod => assert "%" in OP_MAP;
    case Eq => assert "=" in OP_MAP;
    case Lt => assert "<" in OP_MAP;
    case Lte => assert "<=" in OP_MAP;
    case Gt => assert ">" in OP_MAP;
    case Gte => assert ">=" in OP_MAP;
    case Ne => assert "!=" in OP_MAP;
    case In => assert "in" in OP_MAP;
    case NotIn => assert "not in" in OP_MAP;
    case Is => assert "is" in OP_MAP;
    case IsNot => assert "is not" in OP_MAP;
    case Like => assert "like" in OP_MAP;
    case ILike => assert "ilike" in OP_MAP;
    case Between => assert "between" in OP_MAP;
    case Regexp => assert "regexp" in OP_MAP;
    case Concat => assert "||" in OP_MAP;
  }

  /** The SQL token of an operator, `OP_MAP[op]`. */
  function SqlToken(op: Op): string {
    OpMapDefined(op);
    OP_MAP[OpValue(op)]
  }

  // ---------------------------------------------------------------------------
  // Databases as seen by the fields: a type table
  // ---------------------------------------------------------------------------

  /** What a field needs of `model._meta.database`: its `TYPES` table. */
  datatype Database = Database(types: map<string, string>)

  // ---------------------------------------------------------------------------
  // Fields
  // ---------------------------------------------------------------------------

  /**
   * The field classes, by what distinguishes them. `Basic` stands for the
   * classes that only carry a `TYPE` (integer, float, boolean, json, date);
   * `PrimaryKey` for `PrimaryKeyField`, whose type tag is given by its
   * declaration. A foreign key's `relatedName` is "" while none is given.
   */
  datatype FieldKind =
    | Basic(typeTag: string)
    | PrimaryKey(pkTag: string)
    | Char(maxLength: int)
    | ForeignKey(relModel: string, reference: Field, relatedName: string, onDelete: bool, onUpdate: bool)
    | Reference(relModel: string, backName: string)

  /**
   * A field: its column `name` and owning `modelClass` (both "" until
   * `add_to_model`), the `unique` and `salt` flags, and its kind.
   */
  datatype Field = Field(name: string, modelClass: string, unique: bool, salt: bool, kind: FieldKind)

  /** The default `max_length` of a `CharField`. */
  const MAX_LENGTH: int := 255

  /** `CharField(max_length=..., unique=..., salt=...)` before registration. */
  function NewCharField(maxLength: Option<int>, unique: bool, salt: bool): (f: Field)
    ensures f.kind.Char? && f.unique == unique && f.salt == salt
    ensures f.kind.maxLength == if maxLength.Some? then maxLength.value else 255
    ensures f.name == "" && f.modelClass == ""
  {
    Field("", "", unique, salt, Char(if maxLength.Some? then maxLength.value else MAX_LENGTH))
  }

  /**
   * `ForeignKeyField(rel_model, reference, related_name, on_delete, on_update)`.
   * Without a reference the key points at the peer's `id` field, which must
   * then exist (a `KeyError` otherwise).
   */
  function NewForeignKey(relModel: string, peerFields: map<string, Field>, reference: Option<Field>,
                         relatedName: string, onDelete: bool, onUpdate: bool,
                         unique: bool, salt: bool): (r: Result<Field>)
    ensures reference.None? && "id" !in peerFields <==> r.Err?
    ensures r.Ok? ==> r.value.kind.ForeignKey? && r.value.kind.relModel == relModel
    ensures r.Ok? ==> r.value.kind.reference == if reference.Some? then reference.value else peerFields["id"]
    ensures r.Ok? ==> r.value.kind.relatedName == relatedName
    ensures r.Ok? ==> r.value.kind.onDelete == onDelete && r.value.kind.onUpdate == onUpdate
    ensures r.Ok? ==> r.value.unique == unique && r.value.salt == salt && r.value.name == ""
  {
    if reference.None? && "id" !in peerFields then Err("KeyError: 'id'")
    else
      var ref := if reference.Some? then reference.value else peerFields["id"];
      Ok(Field("", "", unique, salt, ForeignKey(relModel, ref, relatedName, onDelete, onUpdate)))
  }

  /** The `related_name` a foreign key registers under: the given one, or the owner's name plus "s". */
  function EffectiveRelatedName(given: string, ownerName: string): (r: string)
    ensures given != "" ==> r == given
    ensures given == "" ==> r == ownerName + "s"
  {
    if given != "" then given else ownerName + "s"
  }

  /**
   * `field.get_db_field()` where `db` is the owning model's database:
   * `TYPES[TYPE]` with a database, the raw `TYPE` without one; a `CharField`
   * adds its length. Foreign keys and references have no `TYPE`.
   */
  function GetDbField(f: Field, db: Option<Database>): (r: Result<string>)
    ensures (f.kind.Basic? || f.kind.PrimaryKey?) && db.None? ==> r == Ok(TypeTag(f))
    ensures (f.kind.Basic? || f.kind.PrimaryKey?) && db.Some? ==>
              if TypeTag(f) in db.value.types then r == Ok(db.value.types[TypeTag(f)]) else r.Err?
    ensures f.kind.Char? && db.None? ==> r == Ok("CHAR")
    ensures f.kind.Char? && db.Some? && "CHAR" in db.value.types ==>
              r == Ok(db.value.types["CHAR"] + "(" + IntToString(f.kind.maxLength) + ")")
    ensures f.kind.Char? && db.Some? && "CHAR" !in db.value.types ==> r.Err?
    ensures f.kind.ForeignKey? || f.kind.Reference? ==> r.Err?
  {
    match f.kind
    case Basic(tag) => LookupType(tag, db)
    case PrimaryKey(tag) => LookupType(tag, db)
    case Char(n) =>
      if db.None? then Ok("CHAR")
      else if "CHAR" in db.value.types then Ok(db.value.types["CHAR"] + "(" + IntToString(n) + ")")
      else Err("KeyError: 'CHAR'")
    case ForeignKey(_, _, _, _, _) => Err("AttributeError: TYPE")
    case Reference(_, _) => Err("AttributeError: TYPE")
  }

  /** The `TYPE` class attribute of a field that has one. */
  function TypeTag(f: Field): string
    requires f.kind.Basic? || f.kind.PrimaryKey?
  {
    if f.kind.Basic? then f.kind.typeTag else f.kind.pkTag
  }

  function LookupType(tag: string, db: Option<Database>): Result<string> {
    if db.None? then Ok(tag)
    else if tag in db.value.types then Ok(db.value.types[tag])
    else Err("KeyError: TYPE")
  }

  /** The optional ` UNIQUE` suffix. */
  function UniqueSuffix(unique: bool): string {
    if unique then " UNIQUE" else ""
  }

  /**
   * `CharField.create_field(name)`: `name varchar(n)` and ` UNIQUE` iff the
   * field is unique. It reads the database's `TYPES` unconditionally, so a
   * model without a database raises.
   */
  function CharCreateField(f: Field, name: string, db: Option<Database>): (r: Result<string>)
    requires f.kind.Char?
    ensures r.Ok? <==> db.Some? && "CHAR" in db.value.types
    ensures r.Ok? ==> r.value == CharColumnHead(name, db.value.types["CHAR"], f.kind.maxLength)
                                 + (if f.unique then " UNIQUE" else "")
    ensures r.Ok? ==> (EndsWith(r.value, " UNIQUE") <==> f.unique)
  {
    if db.None? then Err("AttributeError: 'NoneType' object has no attribute 'TYPES'")
    else if "CHAR" !in db.value.types then Err("KeyError: 'CHAR'")
    else
      var head := CharColumnHead(name, db.value.types["CHAR"], f.kind.maxLength);
      assert head[|head| - 1] == ')';
      if f.unique then
        EndsWithAppended(head, " UNIQUE");
        Ok(head + " UNIQUE")
      else
        assert head + "" == head;
        Ok(head)
  }

  /** `name varchar(n)`: the column name, the database type and the length in parentheses. */
  function CharColumnHead(name: string, dbType: string, maxLength: int): (r: string)
    ensures r != [] && r[|r| - 1] == ')'
    ensures name + " " + dbType + "(" <= r
  {
    name + " " + dbType + "(" + IntToString(maxLength) + ")"
  }

  /** The constraint suffixes of a foreign-key column, in their fixed order. */
  function ForeignKeySuffixes(onDelete: bool, onUpdate: bool, unique: bool): string {
    (if onDelete then " ON DELETE CASCADE" else "")
    + (if onUpdate then " ON UPDATE CASCADE" else "")
    + UniqueSuffix(unique)
  }

  /** Reads the three flags back off a suffix text. */
  function DecodeForeignKeySuffixes(s: string): (bool, bool, bool) {
    var (d, s1) := StripOff(" ON DELETE CASCADE", s);
    var (u, s2) := StripOff(" ON UPDATE CASCADE", s1);
    (d, u, s2 == " UNIQUE")
  }

  /** Whether `s` starts with `p`, and what follows it if so. */
  function StripOff(p: string, s: string): (bool, string) {
    if p <= s then (true, s[|p|..]) else (false, s)
  }

  lemma StripOffPresent(p: string, x: string)
    ensures StripOff(p, p + x) == (true, x)
  {
    StripPrefix(p, x);
  }

  lemma StripOffAbsent(p: string, x: string, k: nat)
    requires k < |p| && (k < |x| ==> x[k] != p[k])
    ensures StripOff(p, x) == (false, x)
  {
  }

  /** Decoding the suffixes gives back the flags that produced them. */
  lemma ForeignKeySuffixesRoundTrip(onDelete: bool, onUpdate: bool, unique: bool)
    ensures DecodeForeignKeySuffixes(ForeignKeySuffixes(onDelete, onUpdate, unique)) == (onDelete, onUpdate, unique)
  {
    var rest := UniqueSuffix(unique);
    var mid := (if onUpdate then " ON UPDATE CASCADE" else "") + rest;
    var s := (if onDelete then " ON DELETE CASCADE" else "") + mid;
    assert s == ForeignKeySuffixes(onDelete, onUpdate, unique);
    if onDelete {
      StripOffPresent(" ON DELETE CASCADE", mid);
    } else {
      assert s == mid;
      assert mid != [] ==> mid[4] != " ON DELETE CASCADE"[4] by {
        if onUpdate { assert mid[4] == 'U'; } else if unique { assert mid[4] == 'Q'; }
      }
      StripOffAbsent(" ON DELETE CASCADE", mid, 4);
    }
    if onUpdate {
      StripOffPresent(" ON UPDATE CASCADE", rest);
    } else {
      assert mid == rest;
      assert rest != [] ==> rest[3] != " ON UPDATE CASCADE"[3] by {
        if unique { assert rest[3] == 'I'; }
      }
      StripOffAbsent(" ON UPDATE CASCADE", rest, 3);
    }
  }


  /**
   * `ForeignKeyField.create_field(name)`: `name type REFERENCES table(col)`
   * followed by the suffixes. It uses the field's own `name` and not the
   * argument, and its type is the referenced field's `get_db_field()` with
   * the database of the referenced field's model (`refDb`).
   */
  function ForeignKeyCreateField(f: Field, peerTable: string, refDb: Option<Database>): (r: Result<string>)
    requires f.kind.ForeignKey?
    ensures r.Ok? <==> GetDbField(f.kind.reference, refDb).Ok?
    ensures r.Ok? ==> r.value == ForeignKeyColumnHead(f, GetDbField(f.kind.reference, refDb).value, peerTable)
                                 + ForeignKeySuffixes(f.kind.onDelete, f.kind.onUpdate, f.unique)
  {
    var t :- GetDbField(f.kind.reference, refDb);
    Ok(ForeignKeyColumnHead(f, t, peerTable) + ForeignKeySuffixes(f.kind.onDelete, f.kind.onUpdate, f.unique))
  }

  function ForeignKeyColumnHead(f: Field, dbType: string, peerTable: string): string
    requires f.kind.ForeignKey?
  {
    f.name + " " + dbType + " REFERENCES " + peerTable + "(" + f.kind.reference.name + ")"
  }

  /** The flags of a foreign-key column can be read back off its text, past the head. */
  lemma ForeignKeyCreateFieldFlags(f: Field, peerTable: string, refDb: Option<Database>)
    requires f.kind.ForeignKey?
    requires ForeignKeyCreateField(f, peerTable, refDb).Ok?
    ensures var r := ForeignKeyCreateField(f, peerTable, refDb).value;
            var head := ForeignKeyColumnHead(f, GetDbField(f.kind.reference, refDb).value, peerTable);
            head <= r && DecodeForeignKeySuffixes(r[|head|..]) == (f.kind.onDelete, f.kind.onUpdate, f.unique)
  {
    var r := ForeignKeyCreateField(f, peerTable, refDb).value;
    var head := ForeignKeyColumnHead(f, GetDbField(f.kind.reference, refDb).value, peerTable);
    assert r[|head|..] == ForeignKeySuffixes(f.kind.onDelete, f.kind.onUpdate, f.unique);
    ForeignKeySuffixesRoundTrip(f.kind.onDelete, f.kind.onUpdate, f.unique);
  }

  /**
   * `insert_format(value)` of a `CharField` or a `ForeignKeyField`: the value's
   * text between single quotes, with no escaping.
   */
  function QuoteFormat(v: Value): (r: string)
    ensures |r| == |Str(v)| + 2 && r[0] == '\'' && r[|r| - 1] == '\''
    ensures r[1..|r| - 1] == Str(v)
  {
    "'" + Str(v) + "'"
  }

  // ---------------------------------------------------------------------------
  // Expression trees
  // ---------------------------------------------------------------------------

  /** The attributes every `Node` starts with. */
  datatype NodeState = NodeState(negated: bool, alias: Option<string>, bindTo: Option<string>, ordering: Option<string>)

  /** A new node: not negated, no alias, no binding, no ordering. */
  const FRESH: NodeState := NodeState(false, None, None, None)

  /** A node of a query: a field, or a binary `Expression`. */
  datatype Node =
    | FieldNode(field: Field)
    | Expression(lhs: Node, op: Op, rhs: Operand, flat: bool, state: NodeState)

  /** The right-hand side of an expression: a Python value (`Null` is `None`) or another node. */
  datatype Operand = Literal(v: Value) | SubNode(node: Node)

  /** `Expression(lhs, op, rhs)`: stores its parts unchanged, with a fresh node state. */
  function NewExpression(lhs: Node, op: Op, rhs: Operand): (r: Node)
    ensures r.Expression? && r.lhs == lhs && r.op == op && r.rhs == rhs
    ensures !r.flat && r.state == FRESH && !r.state.negated
  {
    Expression(lhs, op, rhs, false, FRESH)
  }

  /** `node == rhs`: comparing with `None` builds an `IS` test, anything else an `=` test. */
  function NodeEq(lhs: Node, rhs: Operand): (r: Node)
    ensures r.Expression? && r.lhs == lhs && r.rhs == rhs && r.state == FRESH
    ensures r.op == Is <==> rhs == Literal(Null)
    ensures r.op == Eq <==> rhs != Literal(Null)
  {
    if rhs == Literal(Null) then NewExpression(lhs, Is, rhs) else NewExpression(lhs, Eq, rhs)
  }

  /** `node & rhs`: an `AND` expression with the operands in order. */
  function NodeAnd(lhs: Node, rhs: Node): (r: Node)
    ensures r.Expression? && r.lhs == lhs && r.op == And && r.rhs == SubNode(rhs)
    ensures !r.flat && r.state == FRESH
  {
    NewExpression(lhs, And, SubNode(rhs))
  }
}
