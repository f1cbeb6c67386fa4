/** The concrete behaviour of `safe_eval` that core/tests/test_safe_eval.py
    pins down, one lemma per test, each on the expression tree Python's
    parser would build for the tested source text. */
module Scenarios {
  import opened Results
  import opened Values
  import opened Ast
  import opened Builtins
  import opened Whitelist
  import opened Evaluator
  import opened Semantics
  import opened Security

  function Int(n: int): Expr { Lit(CInt(n)) }
  function Str(s: string): Expr { Lit(CStr(s)) }
  function Bool(b: bool): Expr { Lit(CBool(b)) }

  /** `left op right` as a one-pair comparison. */
  function Cmp1(left: Expr, op: CmpOp, right: Expr): Expr {
    Compare(left, [op], [right])
  }

  const EMPTY: Context := map[]

  // ----- TestSafeEvalBasics -----

  lemma OnePlusTwo()
    ensures Eval(Binary(Add, Int(1), Int(2)), EMPTY) == Ok(IntV(3))
  {
    IntArithmetic(Int(1), Int(2), EMPTY, IntV(1), IntV(2));
  }

  lemma TenMinusFive()
    ensures Eval(Binary(Sub, Int(10), Int(5)), EMPTY) == Ok(IntV(5))
  {
    IntArithmetic(Int(10), Int(5), EMPTY, IntV(10), IntV(5));
  }

  lemma ThreeTimesFour()
    ensures Eval(Binary(Mul, Int(3), Int(4)), EMPTY) == Ok(IntV(12))
  {
    IntArithmetic(Int(3), Int(4), EMPTY, IntV(3), IntV(4));
  }

  lemma ComparisonOperators()
    ensures Eval(Cmp1(Int(5), Gt, Int(3)), EMPTY) == Ok(BoolV(true))
    ensures Eval(Cmp1(Int(2), Eq, Int(2)), EMPTY) == Ok(BoolV(true))
    ensures Eval(Cmp1(Int(3), NotEq, Int(4)), EMPTY) == Ok(BoolV(true))
    ensures Eval(Cmp1(Int(1), Lt, Int(2)), EMPTY) == Ok(BoolV(true))
  {
    CompareStep(Int(5), Gt, Int(3), EMPTY, IntV(5), IntV(3), true);
    CompareStep(Int(2), Eq, Int(2), EMPTY, IntV(2), IntV(2), true);
    CompareStep(Int(3), NotEq, Int(4), EMPTY, IntV(3), IntV(4), true);
    CompareStep(Int(1), Lt, Int(2), EMPTY, IntV(1), IntV(2), true);
  }

  lemma BooleanOperators()
    ensures Eval(BoolOp(And, Bool(true), Bool(true)), EMPTY) == Ok(BoolV(true))
    ensures Eval(BoolOp(Or, Bool(true), Bool(false)), EMPTY) == Ok(BoolV(true))
    ensures Eval(Unary(Not, Bool(false)), EMPTY) == Ok(BoolV(true))
  {
  }

  lemma ContextVariables()
    ensures Eval(Binary(Add, Name("x"), Name("y")), map["x" := IntV(10), "y" := IntV(5)]) == Ok(IntV(15))
    ensures Eval(Cmp1(Name("x"), Gt, Name("y")), map["x" := IntV(10), "y" := IntV(5)]) == Ok(BoolV(true))
  {
    var ctx := map["x" := IntV(10), "y" := IntV(5)];
    IntArithmetic(Name("x"), Name("y"), ctx, IntV(10), IntV(5));
    CompareStep(Name("x"), Gt, Name("y"), ctx, IntV(10), IntV(5), true);
  }

  // ----- TestSafeEvalBuiltins -----

  function IsinstanceOf(x: string, typeName: string): Expr {
    Call(Name("isinstance"), [Name(x), Name(typeName)])
  }

  lemma IsinstanceBasic()
    ensures Eval(IsinstanceOf("x", "dict"), map["x" := DictV([])]) == Ok(BoolV(true))
    ensures Eval(IsinstanceOf("x", "list"), map["x" := ListV([])]) == Ok(BoolV(true))
    ensures Eval(IsinstanceOf("x", "str"), map["x" := StrV("hello")]) == Ok(BoolV(true))
    ensures Eval(IsinstanceOf("x", "int"), map["x" := IntV(42)]) == Ok(BoolV(true))
    ensures Eval(IsinstanceOf("x", "dict"), map["x" := ListV([])]) == Ok(BoolV(false))
  {
    var c1, c2, c3, c4 := map["x" := DictV([])], map["x" := ListV([])], map["x" := StrV("hello")], map["x" := IntV(42)];
    TypeNameEvaluates(DictT, c1);
    IsinstanceCallMeans(Name("x"), Name("dict"), DictT, c1, DictV([]));
    TypeNameEvaluates(ListT, c2);
    IsinstanceCallMeans(Name("x"), Name("list"), ListT, c2, ListV([]));
    TypeNameEvaluates(StrT, c3);
    IsinstanceCallMeans(Name("x"), Name("str"), StrT, c3, StrV("hello"));
    TypeNameEvaluates(IntT, c4);
    IsinstanceCallMeans(Name("x"), Name("int"), IntT, c4, IntV(42));
    TypeNameEvaluates(DictT, c2);
    IsinstanceCallMeans(Name("x"), Name("dict"), DictT, c2, ListV([]));
  }

  lemma IsinstanceWithDictGet()
    ensures Eval(GuardedGet("output", "success"), map["output" := DictV([("success", BoolV(true))])]) == Ok(BoolV(true))
    ensures Eval(GuardedGet("output", "success"), map["output" := DictV([("success", BoolV(false))])]) == Ok(BoolV(false))
    ensures Eval(IsDictCheck("output"), map["output" := ListV([])]) == Ok(BoolV(false))
  {
    GuardedGetNeverFails("output", "success", map["output" := DictV([("success", BoolV(true))])]);
    GuardedGetNeverFails("output", "success", map["output" := DictV([("success", BoolV(false))])]);
    IsDictCheckMeans("output", map["output" := ListV([])]);
  }

  lemma TypeFunction()
    ensures Eval(Cmp1(Call(Name("type"), [Name("x")]), Eq, Name("dict")), map["x" := DictV([])]) == Ok(BoolV(true))
    ensures Eval(Cmp1(Call(Name("type"), [Name("x")]), Eq, Name("list")), map["x" := ListV([])]) == Ok(BoolV(true))
    ensures Eval(Cmp1(Call(Name("type"), [Name("x")]), Eq, Name("str")), map["x" := StrV("hello")]) == Ok(BoolV(true))
  {
    var c1, c2, c3 := map["x" := DictV([])], map["x" := ListV([])], map["x" := StrV("hello")];
    TypeNameEvaluates(DictT, c1);
    TypeEqualsMeans(Name("x"), Name("dict"), DictT, c1, DictV([]));
    TypeNameEvaluates(ListT, c2);
    TypeEqualsMeans(Name("x"), Name("list"), ListT, c2, ListV([]));
    TypeNameEvaluates(StrT, c3);
    TypeEqualsMeans(Name("x"), Name("str"), StrT, c3, StrV("hello"));
  }

  lemma LenOfList()
    ensures Eval(Call(Name("len"), [Name("x")]), map["x" := ListV([IntV(1), IntV(2), IntV(3)])]) == Ok(IntV(3))
  {
    LenCounts(Name("x"), map["x" := ListV([IntV(1), IntV(2), IntV(3)])], ListV([IntV(1), IntV(2), IntV(3)]));
  }

  lemma LenOfString()
    ensures Eval(Call(Name("len"), [Name("x")]), map["x" := StrV("hello")]) == Ok(IntV(5))
  {
    LenCounts(Name("x"), map["x" := StrV("hello")], StrV("hello"));
  }

  lemma LenPositive()
    ensures Eval(Cmp1(Call(Name("len"), [Name("x")]), Gt, Int(0)), map["x" := ListV([IntV(1)])]) == Ok(BoolV(true))
  {
    var c := map["x" := ListV([IntV(1)])];
    LenCounts(Name("x"), c, ListV([IntV(1)]));
    CompareStep(Call(Name("len"), [Name("x")]), Gt, Int(0), c, IntV(1), IntV(0), true);
  }

  lemma ListOfRangeStop()
    ensures Eval(Call(Name("list"), [Call(Name("range"), [Int(3)])]), EMPTY) == Ok(ListV([IntV(0), IntV(1), IntV(2)]))
  {
    ListRangeOne(Int(3), EMPTY, 3);
    var r := Eval(Call(Name("list"), [Call(Name("range"), [Int(3)])]), EMPTY).value.items;
    assert r == [IntV(0), IntV(1), IntV(2)];
  }

  lemma ListOfRangeStartStop()
    ensures Eval(Call(Name("list"), [Call(Name("range"), [Int(1), Int(4)])]), EMPTY) == Ok(ListV([IntV(1), IntV(2), IntV(3)]))
  {
    ListRangeTwo(Int(1), Int(4), EMPTY, 1, 4);
    var r := Eval(Call(Name("list"), [Call(Name("range"), [Int(1), Int(4)])]), EMPTY).value.items;
    assert r == [IntV(1), IntV(2), IntV(3)];
  }

  /** The list display `[a, b, c]` of literals. */
  function Three(a: Const, b: Const, c: Const): Expr {
    ListLit([Lit(a), Lit(b), Lit(c)])
  }

  lemma ThreeEvaluates(a: Const, b: Const, c: Const, ctx: Context)
    ensures Eval(Three(a, b, c), ctx) == Ok(ListV([ConstValue(a), ConstValue(b), ConstValue(c)]))
  {
    ListOfThree(Lit(a), Lit(b), Lit(c), ctx, ConstValue(a), ConstValue(b), ConstValue(c));
  }

  const T := CBool(true)
  const F := CBool(false)

  lemma AllTrue()
    ensures Eval(Call(Name("all"), [Three(T, T, T)]), EMPTY) == Ok(BoolV(true))
  {
    ThreeEvaluates(T, T, T, EMPTY);
    AllAnyMeans(Three(T, T, T), EMPTY, [BoolV(true), BoolV(true), BoolV(true)]);
  }

  lemma AllWithOneFalse()
    ensures Eval(Call(Name("all"), [Three(T, F, T)]), EMPTY) == Ok(BoolV(false))
  {
    var xs := [BoolV(true), BoolV(false), BoolV(true)];
    ThreeEvaluates(T, F, T, EMPTY);
    AllAnyMeans(Three(T, F, T), EMPTY, xs);
    assert !Truthy(xs[1]);
  }

  lemma AnyWithOneTrue()
    ensures Eval(Call(Name("any"), [Three(F, T, F)]), EMPTY) == Ok(BoolV(true))
  {
    var xs := [BoolV(false), BoolV(true), BoolV(false)];
    ThreeEvaluates(F, T, F, EMPTY);
    AllAnyMeans(Three(F, T, F), EMPTY, xs);
    assert Truthy(xs[1]);
  }

  lemma MinOfThree()
    ensures Eval(Call(Name("min"), [Three(CInt(3), CInt(1), CInt(2))]), EMPTY) == Ok(IntV(1))
  {
    var e, xs := Three(CInt(3), CInt(1), CInt(2)), [IntV(3), IntV(1), IntV(2)];
    ThreeEvaluates(CInt(3), CInt(1), CInt(2), EMPTY);
    MinMaxMeans(e, EMPTY, xs);
    var k :| FirstMinimumAt(xs, k) && Eval(Call(Name("min"), [e]), EMPTY) == Ok(xs[k]);
    assert AsInt(xs[k]) <= AsInt(xs[1]);
  }

  lemma MaxOfThree()
    ensures Eval(Call(Name("max"), [Three(CInt(3), CInt(1), CInt(2))]), EMPTY) == Ok(IntV(3))
  {
    var e, xs := Three(CInt(3), CInt(1), CInt(2)), [IntV(3), IntV(1), IntV(2)];
    ThreeEvaluates(CInt(3), CInt(1), CInt(2), EMPTY);
    MinMaxMeans(e, EMPTY, xs);
    var k :| FirstMaximumAt(xs, k) && Eval(Call(Name("max"), [e]), EMPTY) == Ok(xs[k]);
    assert AsInt(xs[k]) >= AsInt(xs[0]);
  }

  lemma SumOfThree()
    ensures Eval(Call(Name("sum"), [Three(CInt(1), CInt(2), CInt(3))]), EMPTY) == Ok(IntV(6))
  {
    var xs := [IntV(1), IntV(2), IntV(3)];
    ThreeEvaluates(CInt(1), CInt(2), CInt(3), EMPTY);
    SumMeans(Three(CInt(1), CInt(2), CInt(3)), EMPTY, xs);
    assert SumOf(xs) == 6;
  }

  // ----- TestSafeEvalEdgeConditions -----

  lemma OutputSuccessPattern()
    ensures Eval(EqualsTrue("output", "success"), map["output" := DictV([("success", BoolV(true))])]) == Ok(BoolV(true))
    ensures Eval(EqualsTrue("output", "success"), map["output" := DictV([("success", BoolV(false))])]) == Ok(BoolV(false))
  {
    EqualsTrueMeans("output", "success", map["output" := DictV([("success", BoolV(true))])]);
    EqualsTrueMeans("output", "success", map["output" := DictV([("success", BoolV(false))])]);
  }

  lemma ResultValidationPattern()
    ensures Eval(GuardedMembership("result", "data"),
      map["result" := DictV([("data", ListV([IntV(1), IntV(2)]))])]) == Ok(BoolV(true))
    ensures Eval(GuardedMembership("result", "data"),
      map["result" := DictV([("error", StrV("failed"))])]) == Ok(BoolV(false))
    ensures Eval(GuardedMembership("result", "data"), map["result" := StrV("string")]) == Ok(BoolV(false))
  {
    var es1 := [("data", ListV([IntV(1), IntV(2)]))];
    GuardedMembershipMeans("result", "data", map["result" := DictV(es1)]);
    assert es1[0].0 == "data";
    var es2 := [("error", StrV("failed"))];
    GuardedMembershipMeans("result", "data", map["result" := DictV(es2)]);
    assert es2[0].0 != "data";
    GuardedMembershipMeans("result", "data", map["result" := StrV("string")]);
  }

  lemma MemoryCheckPattern()
    ensures Eval(CounterBelow("memory", "step_count", 0, 10), map["memory" := DictV([("step_count", IntV(5))])]) == Ok(BoolV(true))
    ensures Eval(CounterBelow("memory", "step_count", 0, 10), map["memory" := DictV([("step_count", IntV(15))])]) == Ok(BoolV(false))
    ensures Eval(CounterBelow("memory", "step_count", 0, 10), map["memory" := DictV([])]) == Ok(BoolV(true))
  {
    CounterBelowMeans("memory", "step_count", 0, 10, map["memory" := DictV([("step_count", IntV(5))])]);
    CounterBelowMeans("memory", "step_count", 0, 10, map["memory" := DictV([("step_count", IntV(15))])]);
    CounterBelowMeans("memory", "step_count", 0, 10, map["memory" := DictV([])]);
  }

  // ----- TestSafeEvalSecurity -----

  lemma PrivateAttrBlocked()
    ensures Eval(Attribute(Name("x"), "__class__"), map["x" := DictV([])]) == Err(PrivateAttrErr("__class__"))
    ensures Eval(Attribute(Name("x"), "__dict__"), map["x" := DictV([])]) == Err(PrivateAttrErr("__dict__"))
  {
  }

  lemma UndefinedNameRaisesError()
    ensures Eval(Name("undefined_var"), EMPTY) == Err(NameErr("undefined_var"))
  {
  }

  lemma UnsafeFunctionNotAvailable()
    ensures Eval(Call(Name("eval"), [Str("1+1")]), EMPTY) == Err(NameErr("eval"))
    ensures Eval(Call(Name("exec"), [Str("x=1")]), EMPTY) == Err(NameErr("exec"))
  {
    DangerousCallsRejected("eval", [Str("1+1")], EMPTY);
    DangerousCallsRejected("exec", [Str("x=1")], EMPTY);
  }

  // ----- TestSafeFunctionsWhitelist -----

  lemma TypeCheckingFunctionsPresent()
    ensures "isinstance" in SAFE_FUNCTIONS && "issubclass" in SAFE_FUNCTIONS && "type" in SAFE_FUNCTIONS
  {
  }

  lemma IterationFunctionsPresent()
    ensures "enumerate" in SAFE_FUNCTIONS && "filter" in SAFE_FUNCTIONS && "map" in SAFE_FUNCTIONS
    ensures "range" in SAFE_FUNCTIONS && "sorted" in SAFE_FUNCTIONS && "reversed" in SAFE_FUNCTIONS
    ensures "zip" in SAFE_FUNCTIONS
  {
  }
}
