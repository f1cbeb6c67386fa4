/** The expression tree the evaluator walks: the node kinds of Python's
    expression grammar that the evaluator supports, plus one catch-all kind
    for everything else. */
module Ast {

  /** Literal constants (Python parses `True`, `False` and `None` as such). */
  datatype Const = CInt(n: int) | CBool(flag: bool) | CStr(text: string) | CNone

  datatype UnaryOp = Not | Neg

  /** True division `/` is not a node kind of this model (it yields floats). */
  datatype BinOp = Add | Sub | Mul | FloorDiv | Mod | Pow

  datatype BoolOpKind = And | Or

  datatype CmpOp = Eq | NotEq | Lt | LtE | Gt | GtE | In | NotIn

  datatype Expr =
    | Lit(c: Const)
    | Name(id: string)
    | Unary(uop: UnaryOp, operand: Expr)
    | Binary(bop: BinOp, left: Expr, right: Expr)
    /** `a and b`, `a or b`; a longer chain `a and b and c` nests. */
    | BoolOp(conn: BoolOpKind, lhs: Expr, rhs: Expr)
    /** `head ops[0] comparators[0] ops[1] comparators[1] ...`, laid out
        as in Python's tree: two parallel lists, walked pairwise. */
    | Compare(head: Expr, ops: seq<CmpOp>, comparators: seq<Expr>)
    | Call(callee: Expr, args: seq<Expr>)
    | Attribute(target: Expr, attr: string)
    | Subscript(container: Expr, index: Expr)
    | ListLit(elems: seq<Expr>)
    /** `{keys[0]: values[0], ...}`, again as two parallel lists. */
    | DictLit(keys: seq<Expr>, values: seq<Expr>)
    /** Any other node kind: lambda, comprehension, slice, f-string,
        keyword argument, tuple, set, conditional expression, ... */
    | Other(kind: string)

  /** What an expression names: identifiers, attribute names and
      unsupported node kinds. */
  datatype Leaf = NameLeaf(name: string) | AttrLeaf(attr: string) | OtherLeaf(kind: string)

  function Leaves(e: Expr): set<Leaf>
    decreases e, 1
  {
    match e
    case Lit(_) => {}
    case Name(n) => {NameLeaf(n)}
    case Unary(_, x) => Leaves(x)
    case Binary(_, l, r) => Leaves(l) + Leaves(r)
    case BoolOp(_, l, r) => Leaves(l) + Leaves(r)
    case Compare(h, _, cs) => Leaves(h) + ListLeaves(cs)
    case Call(f, args) => Leaves(f) + ListLeaves(args)
    case Attribute(t, a) => {AttrLeaf(a)} + Leaves(t)
    case Subscript(c, i) => Leaves(c) + Leaves(i)
    case ListLit(es) => ListLeaves(es)
    case DictLit(ks, vs) => ListLeaves(ks) + ListLeaves(vs)
    case Other(k) => {OtherLeaf(k)}
  }

  function ListLeaves(es: seq<Expr>): set<Leaf>
    decreases es, 0
  {
    if es == [] then {} else Leaves(es[0]) + ListLeaves(es[1..])
  }
}
