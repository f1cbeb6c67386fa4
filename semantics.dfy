/** What evaluating the supported constructs means: arithmetic, comparison
    chains, the boolean connectives, dictionary membership and `get`, and
    calls of the whitelisted builtins, each stated for every context and
    every value the context binds. */
module Semantics {
  import opened Results
  import opened Values
  import opened Ast
  import opened Operators
  import opened Builtins
  import opened Whitelist
  import opened Evaluator

  // ----- single evaluation steps -----

  lemma ListOfOne(e: Expr, ctx: Context, v: Value)
    requires Eval(e, ctx) == Ok(v)
    ensures EvalList([e], ctx) == Ok([v])
  {
    assert [e][0] == e && [e][1..] == [];
    assert [v] + [] == [v];
  }

  lemma ListOfTwo(e1: Expr, e2: Expr, ctx: Context, v1: Value, v2: Value)
    requires Eval(e1, ctx) == Ok(v1) && Eval(e2, ctx) == Ok(v2)
    ensures EvalList([e1, e2], ctx) == Ok([v1, v2])
  {
    assert [e1, e2][1..] == [e2];
    ListOfOne(e2, ctx, v2);
    assert [v1] + [v2] == [v1, v2];
  }

  lemma ListOfThree(e1: Expr, e2: Expr, e3: Expr, ctx: Context, v1: Value, v2: Value, v3: Value)
    requires Eval(e1, ctx) == Ok(v1) && Eval(e2, ctx) == Ok(v2) && Eval(e3, ctx) == Ok(v3)
    ensures EvalList([e1, e2, e3], ctx) == Ok([v1, v2, v3])
  {
    assert [e1, e2, e3][1..] == [e2, e3];
    ListOfTwo(e2, e3, ctx, v2, v3);
    assert [v1] + [v2, v3] == [v1, v2, v3];
  }

  /** A call applies the callee's value to the argument values. */
  lemma CallStep(f: Expr, args: seq<Expr>, ctx: Context, fv: Value, avs: seq<Value>)
    requires Eval(f, ctx) == Ok(fv) && EvalList(args, ctx) == Ok(avs)
    ensures Eval(Call(f, args), ctx) == Apply(fv, avs)
  {
  }

  /** A single comparison `a op b`. */
  lemma CompareStep(a: Expr, op: CmpOp, b: Expr, ctx: Context, va: Value, vb: Value, holds: bool)
    requires Eval(a, ctx) == Ok(va) && Eval(b, ctx) == Ok(vb)
    requires EvalCompare(op, va, vb) == Ok(holds)
    ensures Eval(Compare(a, [op], [b]), ctx) == Ok(BoolV(holds))
  {
    ChainStep(va, [op], [b], ctx, vb, holds);
    assert [op][1..] == [] && [b][1..] == [];
  }

  /** One pair of a chain: a pair that does not hold ends it. */
  lemma ChainStep(left: Value, ops: seq<CmpOp>, cs: seq<Expr>, ctx: Context, v: Value, holds: bool)
    requires ops != [] && cs != []
    requires Eval(cs[0], ctx) == Ok(v) && EvalCompare(ops[0], left, v) == Ok(holds)
    ensures EvalChain(left, ops, cs, ctx) ==
      if holds then EvalChain(v, ops[1..], cs[1..], ctx) else Ok(BoolV(false))
  {
  }

  // ----- arithmetic -----

  /** On numbers (booleans count as 0 and 1) `+ - *` are the integer
      operations. */
  lemma IntArithmetic(l: Expr, r: Expr, ctx: Context, a: Value, b: Value)
    requires Eval(l, ctx) == Ok(a) && Eval(r, ctx) == Ok(b)
    requires IsNumber(a) && IsNumber(b)
    ensures Eval(Binary(Add, l, r), ctx) == Ok(IntV(AsInt(a) + AsInt(b)))
    ensures Eval(Binary(Sub, l, r), ctx) == Ok(IntV(AsInt(a) - AsInt(b)))
    ensures Eval(Binary(Mul, l, r), ctx) == Ok(IntV(AsInt(a) * AsInt(b)))
  {
  }

  /** On numbers `//` and `%` are floor division and the matching
      remainder, and a zero divisor raises ZeroDivisionError. */
  lemma IntDivision(l: Expr, r: Expr, ctx: Context, a: Value, b: Value)
    requires Eval(l, ctx) == Ok(a) && Eval(r, ctx) == Ok(b)
    requires IsNumber(a) && IsNumber(b)
    ensures AsInt(b) == 0 ==> Eval(Binary(FloorDiv, l, r), ctx) == Err(DataErr(ZeroDivisionError))
    ensures AsInt(b) == 0 ==> Eval(Binary(Mod, l, r), ctx) == Err(DataErr(ZeroDivisionError))
    ensures AsInt(b) != 0 ==>
      exists q, m ::
        && Eval(Binary(FloorDiv, l, r), ctx) == Ok(IntV(q))
        && Eval(Binary(Mod, l, r), ctx) == Ok(IntV(m))
        && AsInt(a) == AsInt(b) * q + m
        && (AsInt(b) > 0 ==> 0 <= m < AsInt(b))
        && (AsInt(b) < 0 ==> AsInt(b) < m <= 0)
  {
    if AsInt(b) != 0 {
      var q, m := FloorDivInt(AsInt(a), AsInt(b)), FloorModInt(AsInt(a), AsInt(b));
      assert Eval(Binary(FloorDiv, l, r), ctx) == Ok(IntV(q));
      assert Eval(Binary(Mod, l, r), ctx) == Ok(IntV(m));
    }
  }

  /** On numbers `**` with a non-negative exponent is `Power`; a negative
      exponent raises ZeroDivisionError on a zero base and otherwise gives
      a float, which is not modelled. */
  lemma IntPower(l: Expr, r: Expr, ctx: Context, a: Value, b: Value)
    requires Eval(l, ctx) == Ok(a) && Eval(r, ctx) == Ok(b)
    requires IsNumber(a) && IsNumber(b)
    ensures AsInt(b) >= 0 ==> Eval(Binary(Pow, l, r), ctx) == Ok(IntV(Power(AsInt(a), AsInt(b))))
    ensures AsInt(b) < 0 && AsInt(a) == 0 ==> Eval(Binary(Pow, l, r), ctx) == Err(DataErr(ZeroDivisionError))
    ensures AsInt(b) < 0 && AsInt(a) != 0 ==>
      Eval(Binary(Pow, l, r), ctx).Err? && Eval(Binary(Pow, l, r), ctx).error.Unmodelled?
  {
  }

  /** Unary minus negates a number (a boolean counts as 0 or 1) and raises
      TypeError on anything else. */
  lemma Negation(x: Expr, ctx: Context, v: Value)
    requires Eval(x, ctx) == Ok(v)
    ensures IsNumber(v) ==> Eval(Unary(Neg, x), ctx) == Ok(IntV(-AsInt(v)))
    ensures !IsNumber(v) ==> Eval(Unary(Neg, x), ctx) == Err(DataErr(TypeError))
  {
  }

  /** Floor division rounds toward negative infinity: the quotient is the
      largest integer whose multiple of the divisor does not pass the
      dividend. */
  lemma FloorDivIsFloor(x: int, y: int)
    requires y != 0
    ensures y > 0 ==> y * FloorDivInt(x, y) <= x < y * (FloorDivInt(x, y) + 1)
    ensures y < 0 ==> y * (FloorDivInt(x, y) + 1) < x <= y * FloorDivInt(x, y)
  {
    var q, m := FloorDivInt(x, y), FloorModInt(x, y);
    assert x == y * q + m;
    assert y * (q + 1) == y * q + y;
  }

  // ----- comparisons and not -----

  /** Pair `i` of a chain compares operand `i` with operand `i + 1`. */
  predicate PairHolds(ops: seq<CmpOp>, operands: seq<Value>, i: int)
    requires 0 <= i && i + 1 < |operands| && i < |ops|
  {
    EvalCompare(ops[i], operands[i], operands[i + 1]) == Ok(true)
  }

  /** All pairs of a chain hold exactly when the first does and all pairs
      of the chain that starts at the second operand do. */
  lemma AllPairsSplit(ops: seq<CmpOp>, operands: seq<Value>)
    requires |ops| > 0 && |operands| == |ops| + 1
    ensures (forall i :: 0 <= i < |ops| ==> PairHolds(ops, operands, i)) <==>
      PairHolds(ops, operands, 0) && forall i :: 0 <= i < |ops| - 1 ==> PairHolds(ops[1..], operands[1..], i)
  {
    assert forall i :: 0 <= i < |ops| - 1 ==>
      (PairHolds(ops[1..], operands[1..], i) <==> PairHolds(ops, operands, i + 1));
    if PairHolds(ops, operands, 0) && forall i :: 0 <= i < |ops| - 1 ==> PairHolds(ops[1..], operands[1..], i) {
      forall i | 0 <= i < |ops| ensures PairHolds(ops, operands, i) {
        if i > 0 { assert PairHolds(ops[1..], operands[1..], i - 1); }
      }
    }
  }

  /** When every operand evaluates and every pair can be compared,
      `a op1 b op2 c ...` is true exactly when every adjacent pair holds,
      as `a op1 b and b op2 c and ...` would be (each operand evaluated once). */
  lemma {:induction false} ChainIsConjunction(left: Value, ops: seq<CmpOp>, cs: seq<Expr>, vals: seq<Value>, ctx: Context)
    requires |ops| == |cs| == |vals|
    requires forall i :: 0 <= i < |cs| ==> Eval(cs[i], ctx) == Ok(vals[i])
    requires forall i :: 0 <= i < |ops| ==> EvalCompare(ops[i], ([left] + vals)[i], vals[i]).Ok?
    ensures EvalChain(left, ops, cs, ctx) ==
      Ok(BoolV(forall i :: 0 <= i < |ops| ==> PairHolds(ops, [left] + vals, i)))
    decreases cs
  {
    if ops != [] {
      var operands := [left] + vals;
      var tail := vals[1..];
      assert [vals[0]] + tail == vals == operands[1..];
      assert Eval(cs[0], ctx) == Ok(vals[0]);
      assert EvalCompare(ops[0], operands[0], vals[0]).Ok?;
      var holds := EvalCompare(ops[0], left, vals[0]).value;
      ChainStep(left, ops, cs, ctx, vals[0], holds);
      forall i | 0 <= i < |cs| - 1 ensures Eval(cs[1..][i], ctx) == Ok(tail[i]) {
        assert cs[1..][i] == cs[i + 1];
      }
      forall i | 0 <= i < |ops| - 1
        ensures EvalCompare(ops[1..][i], ([vals[0]] + tail)[i], tail[i]).Ok?
      {
        assert EvalCompare(ops[i + 1], operands[i + 1], vals[i + 1]).Ok?;
      }
      ChainIsConjunction(vals[0], ops[1..], cs[1..], tail, ctx);
      AllPairsSplit(ops, operands);
    }
  }

  /** A pair that does not hold ends the chain: the operands after it are
      never evaluated, so they cannot fail. */
  lemma ChainShortCircuit(left: Value, ops: seq<CmpOp>, cs: seq<Expr>, rest: seq<Expr>, ctx: Context, v: Value)
    requires ops != [] && cs != []
    requires Eval(cs[0], ctx) == Ok(v) && EvalCompare(ops[0], left, v) == Ok(false)
    ensures EvalChain(left, ops, cs, ctx) == Ok(BoolV(false))
    ensures EvalChain(left, ops, [cs[0]] + rest, ctx) == Ok(BoolV(false))
  {
    ChainStep(left, ops, cs, ctx, v, false);
    assert ([cs[0]] + rest)[0] == cs[0];
    ChainStep(left, ops, [cs[0]] + rest, ctx, v, false);
  }

  /** `not x` is the negation of the truthiness of `x`. */
  lemma NotNegates(x: Expr, ctx: Context, v: Value)
    requires Eval(x, ctx) == Ok(v)
    ensures Eval(Unary(Not, x), ctx) == Ok(BoolV(!Truthy(v)))
  {
  }

  /** `k in d` on a dictionary tests whether `k` is one of its keys, and
      `k not in d` is its negation. */
  lemma DictMembership(k: Expr, d: Expr, ctx: Context, key: string, es: Entries)
    requires Eval(k, ctx) == Ok(StrV(key)) && Eval(d, ctx) == Ok(DictV(es))
    ensures Eval(Compare(k, [In], [d]), ctx) == Ok(BoolV(exists i :: 0 <= i < |es| && es[i].0 == key))
    ensures Eval(Compare(k, [NotIn], [d]), ctx) == Ok(BoolV(!exists i :: 0 <= i < |es| && es[i].0 == key))
  {
    HasKeyMeans(es, key);
    CompareStep(k, In, d, ctx, StrV(key), DictV(es), HasKey(es, key));
    CompareStep(k, NotIn, d, ctx, StrV(key), DictV(es), !HasKey(es, key));
  }

  // ----- dictionaries -----

  lemma HasKeyMeans(es: Entries, k: string)
    ensures HasKey(es, k) <==> exists i :: 0 <= i < |es| && es[i].0 == k
  {
    if exists i :: 0 <= i < |es| && es[i].0 == k {
      var i :| 0 <= i < |es| && es[i].0 == k;
      assert KeyIndex(es, k) <= i;
    }
  }

  /** In a dictionary with distinct keys, `d.get(k, default)` is the value
      stored under `k`, or `default` when `k` is not a key. */
  lemma LookupOrMeans(es: Entries, k: string, default: Value)
    requires DistinctKeys(es)
    ensures forall i :: 0 <= i < |es| && es[i].0 == k ==> LookupOr(es, k, default) == es[i].1
    ensures (forall i :: 0 <= i < |es| ==> es[i].0 != k) ==> LookupOr(es, k, default) == default
  {
    HasKeyMeans(es, k);
  }

  /** `d.get` is the bound member of a dictionary. */
  lemma GetMemberStep(d: Expr, ctx: Context, es: Entries)
    requires Eval(d, ctx) == Ok(DictV(es))
    ensures Eval(Attribute(d, "get"), ctx) == Ok(MethodV(es, Get))
  {
    assert !IsPrivate("get");
  }

  /** `d.get(k)` and `d.get(k, default)` evaluated through the attribute
      `get`: the lookup of the key, with None as the default when omitted. */
  lemma DictGetCall(d: Expr, k: Expr, dflt: Expr, ctx: Context, es: Entries, key: string, dv: Value)
    requires Eval(d, ctx) == Ok(DictV(es)) && Eval(k, ctx) == Ok(StrV(key)) && Eval(dflt, ctx) == Ok(dv)
    ensures Eval(Call(Attribute(d, "get"), [k]), ctx) == Ok(LookupOr(es, key, NoneV))
    ensures Eval(Call(Attribute(d, "get"), [k, dflt]), ctx) == Ok(LookupOr(es, key, dv))
  {
    GetMemberStep(d, ctx, es);
    ListOfOne(k, ctx, StrV(key));
    ListOfTwo(k, dflt, ctx, StrV(key), dv);
    CallStep(Attribute(d, "get"), [k], ctx, MethodV(es, Get), [StrV(key)]);
    CallStep(Attribute(d, "get"), [k, dflt], ctx, MethodV(es, Get), [StrV(key), dv]);
  }

  // ----- and / or -----

  /** `A and B` returns a falsy `A` without evaluating `B`, else `B`;
      `A or B` returns a truthy `A` without evaluating `B`, else `B`. */
  lemma ShortCircuit(l: Expr, r: Expr, ctx: Context, a: Value)
    requires Eval(l, ctx) == Ok(a)
    ensures Eval(BoolOp(And, l, r), ctx) == if Truthy(a) then Eval(r, ctx) else Ok(a)
    ensures Eval(BoolOp(Or, l, r), ctx) == if Truthy(a) then Ok(a) else Eval(r, ctx)
  {
  }

  /** A right operand that fails does not matter when the left decides. */
  lemma ShortCircuitIgnoresFailure(l: Expr, r: Expr, ctx: Context, a: Value)
    requires Eval(l, ctx) == Ok(a) && Eval(r, ctx).Err?
    ensures Eval(BoolOp(And, l, r), ctx).Ok? <==> !Truthy(a)
    ensures Eval(BoolOp(Or, l, r), ctx).Ok? <==> Truthy(a)
  {
  }

  // ----- whitelist entries -----

  /** The type names of the whitelist and the tags they stand for. */
  function TypeNamed(t: TypeTag): string
    requires t in {IntT, BoolT, StrT, FloatT, ListT, DictT, RangeT, TypeT}
  {
    match t
    case IntT => "int"
    case BoolT => "bool"
    case StrT => "str"
    case FloatT => "float"
    case ListT => "list"
    case DictT => "dict"
    case RangeT => "range"
    case TypeT => "type"
  }

  lemma TypeNamesResolve(t: TypeTag)
    requires t in {IntT, BoolT, StrT, FloatT, ListT, DictT, RangeT, TypeT}
    ensures TypeNamed(t) in SAFE_FUNCTIONS && SAFE_FUNCTIONS[TypeNamed(t)] == TypeV(t)
  {
  }

  lemma FunctionNamesResolve()
    ensures "isinstance" in SAFE_FUNCTIONS && SAFE_FUNCTIONS["isinstance"] == FuncV(Isinstance)
    ensures "len" in SAFE_FUNCTIONS && SAFE_FUNCTIONS["len"] == FuncV(Len)
    ensures "all" in SAFE_FUNCTIONS && SAFE_FUNCTIONS["all"] == FuncV(All)
    ensures "any" in SAFE_FUNCTIONS && SAFE_FUNCTIONS["any"] == FuncV(Any)
    ensures "min" in SAFE_FUNCTIONS && SAFE_FUNCTIONS["min"] == FuncV(Min)
    ensures "max" in SAFE_FUNCTIONS && SAFE_FUNCTIONS["max"] == FuncV(Max)
    ensures "sum" in SAFE_FUNCTIONS && SAFE_FUNCTIONS["sum"] == FuncV(Sum)
  {
  }

  /** `f(e)` for an unshadowed whitelisted function `f`. */
  lemma BuiltinCall1(f: string, b: Builtin, e: Expr, ctx: Context, v: Value)
    requires f !in ctx && f in SAFE_FUNCTIONS && SAFE_FUNCTIONS[f] == FuncV(b)
    requires Eval(e, ctx) == Ok(v)
    ensures Eval(Call(Name(f), [e]), ctx) == ApplyBuiltin(b, [v])
  {
    ListOfOne(e, ctx, v);
    CallStep(Name(f), [e], ctx, FuncV(b), [v]);
  }

  /** `T(e)` for an unshadowed whitelisted type `T`. */
  lemma TypeCall1(t: TypeTag, e: Expr, ctx: Context, v: Value)
    requires t in {IntT, BoolT, StrT, FloatT, ListT, DictT, RangeT, TypeT}
    requires TypeNamed(t) !in ctx && Eval(e, ctx) == Ok(v)
    ensures Eval(Call(Name(TypeNamed(t)), [e]), ctx) == Apply(TypeV(t), [v])
  {
    TypeNamesResolve(t);
    ListOfOne(e, ctx, v);
    CallStep(Name(TypeNamed(t)), [e], ctx, TypeV(t), [v]);
  }

  // ----- type tests -----

  /** `isinstance(e, T)` where `T` evaluates to a type is the type test,
      where a boolean is also an int; it never fails. */
  lemma IsinstanceCallMeans(e: Expr, te: Expr, t: TypeTag, ctx: Context, v: Value)
    requires Eval(e, ctx) == Ok(v) && Eval(te, ctx) == Ok(TypeV(t)) && "isinstance" !in ctx
    ensures Eval(Call(Name("isinstance"), [e, te]), ctx) ==
      Ok(BoolV(TypeOf(v) == t || (t == IntT && v.BoolV?)))
  {
    FunctionNamesResolve();
    ListOfTwo(e, te, ctx, v, TypeV(t));
    CallStep(Name("isinstance"), [e, te], ctx, FuncV(Isinstance), [v, TypeV(t)]);
    IsinstanceOfType(v, t);
  }

  /** `type(e) == T` where `T` evaluates to a type is the exact type test:
      a boolean is not an int here. */
  lemma TypeEqualsMeans(e: Expr, te: Expr, t: TypeTag, ctx: Context, v: Value)
    requires Eval(e, ctx) == Ok(v) && Eval(te, ctx) == Ok(TypeV(t)) && "type" !in ctx
    ensures Eval(Compare(Call(Name("type"), [e]), [Eq], [te]), ctx) == Ok(BoolV(TypeOf(v) == t))
  {
    TypeCall1(TypeT, e, ctx, v);
    TypeOfValue(v);
    assert Eval(Call(Name("type"), [e]), ctx) == Ok(TypeV(TypeOf(v)));
    TypesEqualWhenSame(TypeOf(v), t);
    CompareStep(Call(Name("type"), [e]), Eq, te, ctx, TypeV(TypeOf(v)), TypeV(t), TypeOf(v) == t);
  }

  /** A whitelisted type name that the context does not shadow evaluates to
      its type. */
  lemma TypeNameEvaluates(t: TypeTag, ctx: Context)
    requires t in {IntT, BoolT, StrT, FloatT, ListT, DictT, RangeT, TypeT}
    requires TypeNamed(t) !in ctx
    ensures Eval(Name(TypeNamed(t)), ctx) == Ok(TypeV(t))
  {
    TypeNamesResolve(t);
  }

  // ----- the edge-condition patterns -----

  /** `isinstance(x, dict)` for a variable `x`. */
  function IsDictCheck(x: string): Expr {
    Call(Name("isinstance"), [Name(x), Name("dict")])
  }

  /** `isinstance(x, dict)` is true exactly for dictionaries, and never fails. */
  lemma IsDictCheckMeans(x: string, ctx: Context)
    requires x in ctx && "isinstance" !in ctx && "dict" !in ctx
    ensures Eval(IsDictCheck(x), ctx) == Ok(BoolV(ctx[x].DictV?))
  {
    TypeNameEvaluates(DictT, ctx);
    IsinstanceCallMeans(Name(x), Name("dict"), DictT, ctx, ctx[x]);
  }

  /** `isinstance(x, dict) and x.get(key)`. */
  function GuardedGet(x: string, key: string): Expr {
    BoolOp(And, IsDictCheck(x), Call(Attribute(Name(x), "get"), [Lit(CStr(key))]))
  }

  /** The type guard makes `x.get(key)` safe whatever `x` is bound to:
      a dictionary yields its value for `key` (None when absent), anything
      else yields False. */
  lemma GuardedGetNeverFails(x: string, key: string, ctx: Context)
    requires x in ctx && "isinstance" !in ctx && "dict" !in ctx
    ensures Eval(GuardedGet(x, key), ctx) ==
      Ok(if ctx[x].DictV? then LookupOr(ctx[x].entries, key, NoneV) else BoolV(false))
  {
    IsDictCheckMeans(x, ctx);
    ShortCircuit(IsDictCheck(x), Call(Attribute(Name(x), "get"), [Lit(CStr(key))]), ctx, BoolV(ctx[x].DictV?));
    if ctx[x].DictV? {
      DictGetCall(Name(x), Lit(CStr(key)), Lit(CNone), ctx, ctx[x].entries, key, NoneV);
    }
  }

  /** `isinstance(x, dict) and key in x`. */
  function GuardedMembership(x: string, key: string): Expr {
    BoolOp(And, IsDictCheck(x), Compare(Lit(CStr(key)), [In], [Name(x)]))
  }

  /** The guarded membership test is true exactly for a dictionary holding
      `key`, and false (never an error) for anything else. */
  lemma GuardedMembershipMeans(x: string, key: string, ctx: Context)
    requires x in ctx && "isinstance" !in ctx && "dict" !in ctx
    ensures Eval(GuardedMembership(x, key), ctx) ==
      Ok(BoolV(ctx[x].DictV? && exists i :: 0 <= i < |ctx[x].entries| && ctx[x].entries[i].0 == key))
  {
    IsDictCheckMeans(x, ctx);
    ShortCircuit(IsDictCheck(x), Compare(Lit(CStr(key)), [In], [Name(x)]), ctx, BoolV(ctx[x].DictV?));
    if ctx[x].DictV? {
      DictMembership(Lit(CStr(key)), Name(x), ctx, key, ctx[x].entries);
    }
  }

  /** `x.get(key, dflt) < bound`: a counter checked against a limit. */
  function CounterBelow(x: string, key: string, dflt: int, bound: int): Expr {
    Compare(Call(Attribute(Name(x), "get"), [Lit(CStr(key)), Lit(CInt(dflt))]), [Lt], [Lit(CInt(bound))])
  }

  /** On a dictionary whose entry for `key` is a number, or that has no such
      entry, the check compares that number, or the default, with the bound. */
  lemma CounterBelowMeans(x: string, key: string, dflt: int, bound: int, ctx: Context)
    requires x in ctx && ctx[x].DictV?
    requires IsNumber(LookupOr(ctx[x].entries, key, IntV(dflt)))
    ensures Eval(CounterBelow(x, key, dflt, bound), ctx) ==
      Ok(BoolV(AsInt(LookupOr(ctx[x].entries, key, IntV(dflt))) < bound))
  {
    var es := ctx[x].entries;
    var got := LookupOr(es, key, IntV(dflt));
    DictGetCall(Name(x), Lit(CStr(key)), Lit(CInt(dflt)), ctx, es, key, IntV(dflt));
    CompareStep(Call(Attribute(Name(x), "get"), [Lit(CStr(key)), Lit(CInt(dflt))]), Lt, Lit(CInt(bound)),
      ctx, got, IntV(bound), AsInt(got) < bound);
  }

  /** `x.get(key) == True`. */
  function EqualsTrue(x: string, key: string): Expr {
    Compare(Call(Attribute(Name(x), "get"), [Lit(CStr(key))]), [Eq], [Lit(CBool(true))])
  }

  /** The check holds exactly when `key` is present with a value equal to
      True (so also 1); a missing key gives None, which is not. */
  lemma EqualsTrueMeans(x: string, key: string, ctx: Context)
    requires x in ctx && ctx[x].DictV?
    ensures Eval(EqualsTrue(x, key), ctx) ==
      Ok(BoolV(HasKey(ctx[x].entries, key) && IsNumber(LookupOr(ctx[x].entries, key, NoneV))
               && AsInt(LookupOr(ctx[x].entries, key, NoneV)) == 1))
  {
    var es := ctx[x].entries;
    var got := LookupOr(es, key, NoneV);
    DictGetCall(Name(x), Lit(CStr(key)), Lit(CNone), ctx, es, key, NoneV);
    CompareStep(Call(Attribute(Name(x), "get"), [Lit(CStr(key))]), Eq, Lit(CBool(true)),
      ctx, got, BoolV(true), PyEq(got, BoolV(true)));
  }

  // ----- builtins through the evaluator -----

  /** `len` counts list elements, string characters and dictionary entries,
      and refuses numbers and None. */
  lemma LenCounts(e: Expr, ctx: Context, v: Value)
    requires Eval(e, ctx) == Ok(v) && "len" !in ctx
    ensures v.ListV? ==> Eval(Call(Name("len"), [e]), ctx) == Ok(IntV(|v.items|))
    ensures v.StrV? ==> Eval(Call(Name("len"), [e]), ctx) == Ok(IntV(|v.s|))
    ensures v.DictV? ==> Eval(Call(Name("len"), [e]), ctx) == Ok(IntV(|v.entries|))
    ensures v.IntV? || v.BoolV? || v.NoneV? ==> Eval(Call(Name("len"), [e]), ctx) == Err(DataErr(TypeError))
  {
    FunctionNamesResolve();
    BuiltinCall1("len", Len, e, ctx, v);
  }

  /** The integers `start, start + 1, ..., stop - 1`, none when `stop <= start`. */
  predicate CountsUp(xs: seq<Value>, start: int, stop: int) {
    && |xs| == (if start < stop then stop - start else 0)
    && forall i :: 0 <= i < |xs| ==> xs[i] == IntV(start + i)
  }

  /** `list(range(n))` is `[0, 1, ..., n - 1]`. */
  lemma ListRangeOne(e: Expr, ctx: Context, n: int)
    requires Eval(e, ctx) == Ok(IntV(n)) && "list" !in ctx && "range" !in ctx
    ensures var r := Eval(Call(Name("list"), [Call(Name("range"), [e])]), ctx);
      r.Ok? && r.value.ListV? && CountsUp(r.value.items, 0, n)
  {
    ListOfRange(0, n);
    TypeCall1(RangeT, e, ctx, IntV(n));
    TypeCall1(ListT, Call(Name("range"), [e]), ctx, RangeV(0, n));
    RangeCountsUp(0, n);
  }

  /** `list(range(a, b))` is `[a, a + 1, ..., b - 1]`. */
  lemma ListRangeTwo(lo: Expr, hi: Expr, ctx: Context, a: int, b: int)
    requires Eval(lo, ctx) == Ok(IntV(a)) && Eval(hi, ctx) == Ok(IntV(b))
    requires "list" !in ctx && "range" !in ctx
    ensures var r := Eval(Call(Name("list"), [Call(Name("range"), [lo, hi])]), ctx);
      r.Ok? && r.value.ListV? && CountsUp(r.value.items, a, b)
  {
    RangeCall2(lo, hi, ctx, a, b);
    ListOfRange(a, b);
    TypeCall1(ListT, Call(Name("range"), [lo, hi]), ctx, RangeV(a, b));
    RangeCountsUp(a, b);
  }

  lemma RangeCountsUp(a: int, b: int)
    ensures CountsUp(RangeItems(a, b), a, b)
  {
  }

  lemma RangeCall2(lo: Expr, hi: Expr, ctx: Context, a: int, b: int)
    requires Eval(lo, ctx) == Ok(IntV(a)) && Eval(hi, ctx) == Ok(IntV(b)) && "range" !in ctx
    ensures Eval(Call(Name("range"), [lo, hi]), ctx) == Ok(RangeV(a, b))
  {
    TypeNameEvaluates(RangeT, ctx);
    ListOfTwo(lo, hi, ctx, IntV(a), IntV(b));
    CallStep(Name("range"), [lo, hi], ctx, TypeV(RangeT), [IntV(a), IntV(b)]);
    ListOfRange(a, b);
  }

  /** `all(xs)` is true exactly when every element is truthy, `any(xs)`
      exactly when some element is. */
  lemma AllAnyMeans(e: Expr, ctx: Context, xs: seq<Value>)
    requires Eval(e, ctx) == Ok(ListV(xs)) && "all" !in ctx && "any" !in ctx
    ensures Eval(Call(Name("all"), [e]), ctx) == Ok(BoolV(forall i :: 0 <= i < |xs| ==> Truthy(xs[i])))
    ensures Eval(Call(Name("any"), [e]), ctx) == Ok(BoolV(exists i :: 0 <= i < |xs| && Truthy(xs[i])))
  {
    FunctionNamesResolve();
    BuiltinCall1("all", All, e, ctx, ListV(xs));
    BuiltinCall1("any", Any, e, ctx, ListV(xs));
    AllTruthyMeans(xs);
    AnyTruthyMeans(xs);
  }

  /** `min(xs)` on a non-empty list of numbers is its first least element,
      `max(xs)` its first greatest; on an empty list both raise ValueError. */
  lemma MinMaxMeans(e: Expr, ctx: Context, xs: seq<Value>)
    requires Eval(e, ctx) == Ok(ListV(xs)) && "min" !in ctx && "max" !in ctx
    requires AllNumbers(xs)
    ensures xs == [] ==> Eval(Call(Name("min"), [e]), ctx) == Err(DataErr(ValueError))
    ensures xs == [] ==> Eval(Call(Name("max"), [e]), ctx) == Err(DataErr(ValueError))
    ensures xs != [] ==> exists k :: FirstMinimumAt(xs, k) && Eval(Call(Name("min"), [e]), ctx) == Ok(xs[k])
    ensures xs != [] ==> exists k :: FirstMaximumAt(xs, k) && Eval(Call(Name("max"), [e]), ctx) == Ok(xs[k])
  {
    FunctionNamesResolve();
    BuiltinCall1("min", Min, e, ctx, ListV(xs));
    BuiltinCall1("max", Max, e, ctx, ListV(xs));
    MinOfList(xs);
    MaxOfList(xs);
  }

  /** `sum(xs)` on a list of numbers is the sum of their integer values. */
  lemma SumMeans(e: Expr, ctx: Context, xs: seq<Value>)
    requires Eval(e, ctx) == Ok(ListV(xs)) && "sum" !in ctx
    requires AllNumbers(xs)
    ensures Eval(Call(Name("sum"), [e]), ctx) == Ok(IntV(SumOf(xs)))
  {
    FunctionNamesResolve();
    BuiltinCall1("sum", Sum, e, ctx, ListV(xs));
    SumOfList(xs);
  }
}
