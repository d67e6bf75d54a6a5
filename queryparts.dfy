/**
 * The pieces a query carries to the SQL generator: join clauses and the
 * where clause (kameleon/model/query/selectQuery.py).
 */
module QueryParts {
  import opened Common
  import opened Fields

  /** `Join(src, dest, joint_type, on)`: the source and destination classes by name. */
  datatype Join = Join(src: string, dest: string, jointType: Option<string>, on: Option<Node>)

  /** One argument of `where(...)`: an expression tree or literal SQL text. */
  datatype Clause = Raw(text: string) | Cond(node: Node)

  /**
   * A query's `_where`: unset, literal SQL text, an expression tree, or a
   * list of expressions (the form `generate_delete` iterates over).
   */
  datatype Where = NoWhere | Sql(text: string) | Tree(node: Node) | Conditions(conds: seq<Node>)

  /** Python truthiness of `_where`. */
  predicate Present(w: Where) {
    match w
    case NoWhere => false
    case Sql(s) => s != ""
    case Tree(_) => true
    case Conditions(cs) => cs != []
  }

  function AsWhere(c: Clause): Where {
    match c
    case Raw(s) => Sql(s)
    case Cond(n) => Tree(n)
  }

  /**
   * `reduce(operator.and_, clauses)`: the left fold by `&`. No clause at all
   * raises, and so does `&` with literal text on the left (a `str` has no
   * `&`); text on the right becomes the right operand of the `AND` node.
   */
  function FoldAnd(clauses: seq<Clause>): (r: Result<Where>)
    ensures clauses == [] ==> r.Err?
    ensures |clauses| == 1 ==> r == Ok(AsWhere(clauses[0]))
    ensures r.Ok? ==> r.value.Sql? || r.value.Tree?
    ensures r.Ok? && |clauses| > 1 ==> r.value.Tree? && r.value.node.Expression? && r.value.node.op == And
  {
    if |clauses| == 0 then Err("TypeError: reduce() of empty sequence with no initial value")
    else if |clauses| == 1 then Ok(AsWhere(clauses[0]))
    else
      var acc :- FoldAnd(clauses[..|clauses| - 1]);
      match acc
      case Tree(n) =>
        (match clauses[|clauses| - 1]
         case Cond(m) => Ok(Tree(NodeAnd(n, m)))
         case Raw(s) => Ok(Tree(NewExpression(n, And, Literal(Text(s))))))
      case _ => Err("TypeError: unsupported operand type(s) for &")
  }

  /** Adding one more expression puts the fold so far on the left of a new `AND`. */
  lemma FoldAndSnoc(clauses: seq<Clause>, n: Node, m: Node)
    requires FoldAnd(clauses) == Ok(Tree(n))
    ensures FoldAnd(clauses + [Cond(m)]) == Ok(Tree(Expression(n, And, SubNode(m), false, FRESH)))
  {
    assert (clauses + [Cond(m)])[..|clauses|] == clauses;
  }

  /** Two expressions fold to a single `AND` node with the operands in order. */
  lemma FoldAndPair(a: Node, b: Node)
    ensures FoldAnd([Cond(a), Cond(b)]) == Ok(Tree(NodeAnd(a, b)))
  {
    assert [Cond(a), Cond(b)][..1] == [Cond(a)];
  }
}
