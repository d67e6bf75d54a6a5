/** Small value types and string helpers shared by every part of the model. */
module Common {

  /** Python's `None` next to a present value. */
  datatype Option<+T> = None | Some(value: T)

  /** The outcome of an operation that can raise: a value, or the exception it raises. */
  datatype Result<+T> = Ok(value: T) | Err(msg: string) {
    predicate IsFailure() { Err? }
    function PropagateFailure<U>(): Result<U>
      requires Err?
    {
      Err(msg)
    }
    function Extract(): T
      requires Ok?
    {
      value
    }
  }

  /** `t` is a suffix of `s`. */
  predicate EndsWith(s: string, t: string) {
    |t| <= |s| && s[|s| - |t|..] == t
  }

  /** `sep.join(xs)` */
  function StrJoin(sep: string, xs: seq<string>): (r: string)
    ensures |xs| == 1 ==> r == xs[0]
    ensures xs == [] ==> r == ""
  {
    if |xs| == 0 then ""
    else if |xs| == 1 then xs[0]
    else StrJoin(sep, xs[..|xs| - 1]) + sep + xs[|xs| - 1]
  }

  /** `sep.join(xs + [x])` extends `sep.join(xs)` by one separator and `x`. */
  lemma StrJoinSnoc(sep: string, xs: seq<string>, x: string)
    requires xs != []
    ensures StrJoin(sep, xs + [x]) == StrJoin(sep, xs) + sep + x
  {
    assert (xs + [x])[..|xs + [x]| - 1] == xs;
  }

  /** A text ends with what was appended last. */
  lemma EndsWithAppended(a: string, b: string)
    ensures EndsWith(a + b, b)
  {
    assert (a + b)[|a|..] == b;
  }

  /** A suffix of a suffix is a suffix. */
  lemma EndsWithTrans(a: string, b: string, c: string)
    requires EndsWith(a, b) && EndsWith(b, c)
    ensures EndsWith(a, c)
  {
    assert a[|a| - |c|..] == a[|a| - |b|..][|b| - |c|..];
  }

  /** Taking a prefix off the text it starts leaves the rest. */
  lemma StripPrefix(p: string, x: string)
    ensures p <= p + x && (p + x)[|p|..] == x
  {
    assert (p + x)[..|p|] == p;
  }

  /** A text starts with what it was built from. */
  lemma PrefixOfAppended(a: string, b: string)
    ensures a <= a + b
  {
    assert (a + b)[..|a|] == a;
  }

  /** No element occurs twice. */
  predicate NoDup<T(==)>(xs: seq<T>) {
    forall i, j :: 0 <= i < j < |xs| ==> xs[i] != xs[j]
  }

  /**
   * The elements of `xs` in order of first sighting, each once: what a
   * registry that ignores already-present keys ends up holding.
   */
  function Distinct<T(==)>(xs: seq<T>): (r: seq<T>)
    ensures forall i :: 0 <= i < |r| ==> r[i] in xs
    ensures forall i :: 0 <= i < |xs| ==> xs[i] in r
    ensures |r| <= |xs|
  {
    if |xs| == 0 then []
    else
      var d := Distinct(xs[..|xs| - 1]);
      assert forall i :: 0 <= i < |xs| - 1 ==> xs[i] == xs[..|xs| - 1][i];
      if xs[|xs| - 1] in d then d else d + [xs[|xs| - 1]]
  }

  /** No element of a Distinct list occurs twice. */
  lemma {:induction false} DistinctNoDup<T>(xs: seq<T>)
    ensures NoDup(Distinct(xs))
  {
    if |xs| > 0 {
      var d := Distinct(xs[..|xs| - 1]);
      DistinctNoDup(xs[..|xs| - 1]);
      if xs[|xs| - 1] !in d {
        var e := d + [xs[|xs| - 1]];
        forall i, j | 0 <= i < j < |e|
          ensures e[i] != e[j]
        {
          if j < |d| {
            assert e[i] == d[i] && e[j] == d[j];
          } else {
            assert e[i] == d[i];
          }
        }
      }
    }
  }

  /** One step of `Distinct`, stated for the loops that build it element by element. */
  lemma DistinctSnoc<T>(xs: seq<T>, x: T)
    ensures Distinct(xs + [x]) == if x in Distinct(xs) then Distinct(xs) else Distinct(xs) + [x]
  {
    assert (xs + [x])[..|xs|] == xs;
  }

  /** A Distinct list starts with the first element of the input. */
  lemma {:induction false} DistinctHead<T>(xs: seq<T>)
    requires xs != []
    ensures Distinct(xs) != [] && Distinct(xs)[0] == xs[0]
  {
    if |xs| > 1 {
      DistinctHead(xs[..|xs| - 1]);
    }
  }

  /** Concatenation of a sequence of strings. */
  function Concat(xs: seq<string>): (r: string)
    ensures |xs| == 1 ==> r == xs[0]
  {
    if xs == [] then "" else Concat(xs[..|xs| - 1]) + xs[|xs| - 1]
  }

  /** ASCII lower-casing, standing for Python's `str.lower`. */
  function ToLower(s: string): (r: string)
    ensures |r| == |s|
    ensures forall i :: 0 <= i < |s| ==> r[i] == LowerChar(s[i])
  {
    if s == [] then [] else [LowerChar(s[0])] + ToLower(s[1..])
  }

  function LowerChar(c: char): char {
    if 'A' <= c <= 'Z' then (c as int - 'A' as int + 'a' as int) as char else c
  }

  /** Decimal text of a natural number. */
  function NatToString(n: nat): (r: string)
    ensures r != []
    ensures forall i :: 0 <= i < |r| ==> '0' <= r[i] <= '9'
    decreases n
  {
    if n < 10 then [Digit(n)] else NatToString(n / 10) + [Digit(n % 10)]
  }

  function Digit(d: nat): (c: char)
    requires d < 10
    ensures '0' <= c <= '9'
  {
    ('0' as int + d) as char
  }

  /** Python's `str(n)` for an int. */
  function IntToString(i: int): (r: string)
    ensures r != []
    ensures (r[0] == '-') <==> i < 0
  {
    if i < 0 then "-" + NatToString(-i) else NatToString(i)
  }

  /**
   * A Python value held by a row column or an instance attribute. Objects are
   * referred to by their index in an instance arena (`Ref`), and lists of
   * objects by the sequence of those indices (`List`).
   */
  datatype Value = Null | Int(i: int) | Text(s: string) | Ref(obj: nat) | List(objs: seq<nat>)

  /** Python's `str(v)`; objects and lists are shown by placeholder text. */
  function Str(v: Value): string {
    match v
    case Null => "None"
    case Int(i) => IntToString(i)
    case Text(s) => s
    case Ref(_) => "<object>"
    case List(_) => "<list>"
  }

  /** Python truthiness. */
  predicate Truthy(v: Value) {
    match v
    case Null => false
    case Int(i) => i != 0
    case Text(s) => s != ""
    case Ref(_) => true
    case List(xs) => xs != []
  }
}
