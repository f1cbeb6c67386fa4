/** The tree evaluator: an exhaustive dispatch over node kinds that consults
    the name resolver for identifiers and the attribute guard for member
    access. The context is read-only; nothing is mutated. */
module Evaluator {
  import opened Results
  import opened Values
  import opened Ast
  import opened Operators
  import opened Builtins
  import opened Whitelist

  /** The caller's bindings for one evaluation. */
  type Context = map<string, Value>

  /** Every value the caller binds has dictionaries with distinct keys. */
  predicate WellFormedContext(ctx: Context) {
    forall n :: n in ctx ==> WellFormed(ctx[n])
  }

  function ConstValue(c: Const): Value {
    match c
    case CInt(n) => IntV(n)
    case CBool(b) => BoolV(b)
    case CStr(s) => StrV(s)
    case CNone => NoneV
  }

  /** Name resolver: the context first, then the whitelist, else NameError. */
  function Resolve(name: string, ctx: Context): (r: Result<Value>)
    ensures r.Err? ==> r.error == NameErr(name)
    ensures name in ctx ==> r == Ok(ctx[name])
  {
    if name in ctx then Ok(ctx[name])
    else if name in SAFE_FUNCTIONS then Ok(SAFE_FUNCTIONS[name])
    else Err(NameErr(name))
  }

  /** Attribute guard: names starting with an underscore are private. */
  function IsPrivate(name: string): (p: bool)
    ensures p <==> "_" <= name
  {
    |name| > 0 && name[0] == '_'
  }

  /** Member lookup on an evaluated target, through the curated table. */
  function GetMember(v: Value, name: string): (r: Result<Value>)
    ensures DataFailureOnly(r)
  {
    if v.DictV? && name == "get" then Ok(MethodV(v.entries, Get))
    else Err(DataErr(AttributeError))
  }

  /** A dictionary display key: strings only in this model. */
  function DictKey(k: Value): (r: Result<string>)
    ensures DataFailureOnly(r)
  {
    if k.StrV? then Ok(k.s)
    else if Unhashable(k) then Err(DataErr(TypeError))
    else Err(Unmodelled("non-string dictionary key"))
  }

  /** `safe_eval(expression, context)` on the parsed expression. */
  function Eval(e: Expr, ctx: Context): (r: Result<Value>)
    ensures r.Ok? && e.Compare? ==> r.value.BoolV?
    decreases e, 1, 0
  {
    match e
    case Lit(c) => Ok(ConstValue(c))
    case Name(n) => Resolve(n, ctx)
    case Unary(op, x) =>
      var v :- Eval(x, ctx);
      EvalUnary(op, v)
    case Binary(op, l, r) =>
      var a :- Eval(l, ctx);
      var b :- Eval(r, ctx);
      EvalBinary(op, a, b)
    case BoolOp(op, l, r) =>
      var a :- Eval(l, ctx);
      if (op == And) == Truthy(a) then Eval(r, ctx) else Ok(a)
    case Compare(h, ops, cs) =>
      var a :- Eval(h, ctx);
      EvalChain(a, ops, cs, ctx)
    case Call(f, args) =>
      var fv :- Eval(f, ctx);
      var avs :- EvalList(args, ctx);
      Apply(fv, avs)
    case Attribute(t, name) =>
      if IsPrivate(name) then Err(PrivateAttrErr(name))
      else
        var v :- Eval(t, ctx);
        GetMember(v, name)
    case Subscript(c, i) =>
      var cv :- Eval(c, ctx);
      var iv :- Eval(i, ctx);
      EvalSubscript(cv, iv)
    case ListLit(es) =>
      var vs :- EvalList(es, ctx);
      Ok(ListV(vs))
    case DictLit(ks, vs) =>
      var entries :- EvalDict(ks, vs, 0, [], ctx);
      Ok(DictV(entries))
    case Other(kind) => Err(UnsupportedErr(kind))
  }

  /** Arguments and list elements, left to right; the first failure aborts. */
  function EvalList(es: seq<Expr>, ctx: Context): (r: Result<seq<Value>>)
    ensures r.Ok? ==> |r.value| == |es|
    ensures r.Ok? ==> forall i :: 0 <= i < |es| ==> Eval(es[i], ctx) == Ok(r.value[i])
    ensures r.Err? ==> exists i ::
      && 0 <= i < |es| && Eval(es[i], ctx) == Err(r.error)
      && forall j :: 0 <= j < i ==> Eval(es[j], ctx).Ok?
    decreases es, 0, 0
  {
    if es == [] then Ok([])
    else
      var v :- Eval(es[0], ctx);
      var vs :- EvalList(es[1..], ctx);
      Ok([v] + vs)
  }

  /** The pairs of a comparison chain from `left` on; the first pair that
      does not hold makes the chain false without evaluating the rest. */
  function EvalChain(left: Value, ops: seq<CmpOp>, cs: seq<Expr>, ctx: Context): (r: Result<Value>)
    ensures r.Ok? ==> r.value.BoolV?
    decreases cs, 0, 0
  {
    if ops == [] || cs == [] then Ok(BoolV(true))
    else
      var right :- Eval(cs[0], ctx);
      var holds :- EvalCompare(ops[0], left, right);
      if !holds then Ok(BoolV(false))
      else EvalChain(right, ops[1..], cs[1..], ctx)
  }

  /** The entries of a dictionary display from pair `i` on, each key before
      its value; each pair is stored by `Insert`, so a repeated key keeps its
      first position and takes the later value. */
  function EvalDict(ks: seq<Expr>, vs: seq<Expr>, i: nat, acc: Entries, ctx: Context): (r: Result<Entries>)
    ensures r.Ok? ==> forall k :: HasKey(acc, k) ==> HasKey(r.value, k)
    ensures r.Ok? && DistinctKeys(acc) ==> DistinctKeys(r.value)
    decreases DictLit(ks, vs), 0, |ks| - i
  {
    if i >= |ks| || i >= |vs| then Ok(acc)
    else
      var k :- Eval(ks[i], ctx);
      var v :- Eval(vs[i], ctx);
      var key :- DictKey(k);
      EvalDict(ks, vs, i + 1, Insert(acc, key, v), ctx)
  }
}
