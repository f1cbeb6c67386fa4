/** What calling a whitelisted function, a type tag or the bound `get`
    member does. The iteration helpers `enumerate`, `filter`, `map`,
    `sorted`, `reversed`, `zip` and `issubclass` are whitelisted but their
    results are not described by this model. */
module Builtins {
  import opened Results
  import opened Values

  /** The elements `for x in v` visits. */
  function Iterate(v: Value): (r: Result<seq<Value>>)
    ensures DataFailureOnly(r)
    ensures r.Ok? <==> Length(v).Ok?
    ensures r.Ok? ==> |r.value| == Length(v).value
    ensures r.Ok? && WellFormed(v) ==> AllWellFormed(r.value)
    ensures v.ListV? ==> r == Ok(v.items)
    ensures v.StrV? ==> r.Ok? && forall i :: 0 <= i < |v.s| ==> r.value[i] == StrV([v.s[i]])
    ensures v.DictV? ==> r.Ok? && forall i :: 0 <= i < |v.entries| ==> r.value[i] == StrV(v.entries[i].0)
    ensures v.RangeV? ==> r.Ok? && forall i :: 0 <= i < |r.value| ==> r.value[i] == IntV(v.start + i)
  {
    match v
    case ListV(items) => Ok(items)
    case StrV(s) => Ok(Chars(s))
    case DictV(es) => Ok(KeyValues(es))
    case RangeV(a, b) => Ok(RangeItems(a, b))
    case _ => Err(DataErr(TypeError))
  }

  /** `len(v)`. */
  function Length(v: Value): (r: Result<int>)
    ensures DataFailureOnly(r)
  {
    match v
    case ListV(items) => Ok(|items|)
    case StrV(s) => Ok(|s|)
    case DictV(es) => Ok(|es|)
    case RangeV(a, b) => Ok(RangeLen(a, b))
    case _ => Err(DataErr(TypeError))
  }

  function AllTruthy(xs: seq<Value>): bool {
    xs == [] || (Truthy(xs[0]) && AllTruthy(xs[1..]))
  }

  function AnyTruthy(xs: seq<Value>): bool {
    xs != [] && (Truthy(xs[0]) || AnyTruthy(xs[1..]))
  }

  predicate AllNumbers(xs: seq<Value>) {
    forall i :: 0 <= i < |xs| ==> IsNumber(xs[i])
  }

  function SumOf(xs: seq<Value>): int
    requires AllNumbers(xs)
  {
    if xs == [] then 0 else AsInt(xs[0]) + SumOf(xs[1..])
  }

  /** Python's `min` scans left to right and replaces the candidate only by
      a strictly smaller element, so the first minimal element wins. */
  function MinFrom(best: Value, xs: seq<Value>): (r: Value)
    requires IsNumber(best) && AllNumbers(xs)
    ensures IsNumber(r) && r in [best] + xs
    decreases xs
  {
    if xs == [] then best
    else MinFrom(if AsInt(xs[0]) < AsInt(best) then xs[0] else best, xs[1..])
  }

  /** `max` likewise keeps the first maximal element. */
  function MaxFrom(best: Value, xs: seq<Value>): (r: Value)
    requires IsNumber(best) && AllNumbers(xs)
    ensures IsNumber(r) && r in [best] + xs
    decreases xs
  {
    if xs == [] then best
    else MaxFrom(if AsInt(xs[0]) > AsInt(best) then xs[0] else best, xs[1..])
  }

  /** The operands of `min`/`max`: one iterable argument, or the arguments. */
  function Operands(args: seq<Value>): Result<seq<Value>> {
    if |args| == 0 then Err(DataErr(TypeError))
    else if |args| == 1 then Iterate(args[0])
    else Ok(args)
  }

  function Extremum(isMin: bool, args: seq<Value>): (r: Result<Value>)
    ensures DataFailureOnly(r)
    ensures r.Ok? && AllWellFormed(args) ==> WellFormed(r.value)
  {
    var xs :- Operands(args);
    if xs == [] then Err(DataErr(ValueError))
    else if |xs| == 1 then Ok(xs[0])
    else if !AllNumbers(xs) then Err(Unmodelled("min/max over non-numbers"))
    else if isMin then Ok(MinFrom(xs[0], xs[1..]))
    else Ok(MaxFrom(xs[0], xs[1..]))
  }

  /** `sum(iterable[, start])`: with nothing to add, `start` itself. */
  function Summation(args: seq<Value>): (r: Result<Value>)
    ensures DataFailureOnly(r)
  {
    if |args| == 0 || |args| > 2 then Err(DataErr(TypeError))
    else
      var xs :- Iterate(args[0]);
      var start := if |args| == 2 then args[1] else IntV(0);
      if !IsNumber(start) then Err(Unmodelled("sum with a non-numeric start"))
      else if xs == [] then Ok(start)
      else if !AllNumbers(xs) then Err(DataErr(TypeError))
      else Ok(IntV(AsInt(start) + SumOf(xs)))
  }

  function IsinstanceCall(args: seq<Value>): (r: Result<Value>)
    ensures DataFailureOnly(r)
  {
    if |args| != 2 then Err(DataErr(TypeError))
    else match args[1]
      case TypeV(t) => Ok(BoolV(IsInstance(args[0], t)))
      case FuncV(f) =>
        if IsClass(f) then Err(Unmodelled("class-valued whitelist entry"))
        else Err(DataErr(TypeError))
      case _ => Err(DataErr(TypeError))
  }

  function ApplyBuiltin(f: Builtin, args: seq<Value>): (r: Result<Value>)
    ensures DataFailureOnly(r)
    ensures r.Ok? && AllWellFormed(args) ==> WellFormed(r.value)
  {
    match f
    case Isinstance => IsinstanceCall(args)
    case Len =>
      if |args| != 1 then Err(DataErr(TypeError))
      else var n :- Length(args[0]); Ok(IntV(n))
    case All =>
      if |args| != 1 then Err(DataErr(TypeError))
      else var xs :- Iterate(args[0]); Ok(BoolV(AllTruthy(xs)))
    case Any =>
      if |args| != 1 then Err(DataErr(TypeError))
      else var xs :- Iterate(args[0]); Ok(BoolV(AnyTruthy(xs)))
    case Min => Extremum(true, args)
    case Max => Extremum(false, args)
    case Sum => Summation(args)
    case Issubclass => Err(Unmodelled("issubclass"))
    case Enumerate => Err(Unmodelled("enumerate"))
    case Filter => Err(Unmodelled("filter"))
    case MapFn => Err(Unmodelled("map"))
    case Sorted => Err(Unmodelled("sorted"))
    case Reversed => Err(Unmodelled("reversed"))
    case Zip => Err(Unmodelled("zip"))
  }

  /** Calling a type tag: conversion or construction. */
  function Construct(t: TypeTag, args: seq<Value>): (r: Result<Value>)
    ensures DataFailureOnly(r)
    ensures r.Ok? && AllWellFormed(args) ==> WellFormed(r.value)
  {
    match t
    case ListT =>
      if |args| == 0 then Ok(ListV([]))
      else if |args| == 1 then var xs :- Iterate(args[0]); Ok(ListV(xs))
      else Err(DataErr(TypeError))
    case BoolT =>
      if |args| == 0 then Ok(BoolV(false))
      else if |args| == 1 then Ok(BoolV(Truthy(args[0])))
      else Err(DataErr(TypeError))
    case IntT =>
      if |args| == 0 then Ok(IntV(0))
      else if |args| == 1 && IsNumber(args[0]) then Ok(IntV(AsInt(args[0])))
      else if !args[0].StrV? || |args| > 2 then Err(DataErr(TypeError))
      else Err(Unmodelled("int from a string"))
    case StrT =>
      if |args| == 0 then Ok(StrV(""))
      else if |args| == 1 && args[0].StrV? then Ok(args[0])
      else Err(Unmodelled("str conversion"))
    case DictT =>
      if |args| == 0 then Ok(DictV([]))
      else if |args| == 1 && args[0].DictV? then Ok(args[0])
      else Err(Unmodelled("dict from pairs or keywords"))
    case RangeT =>
      if |args| == 1 && IsNumber(args[0]) then Ok(RangeV(0, AsInt(args[0])))
      else if |args| == 2 && IsNumber(args[0]) && IsNumber(args[1])
      then Ok(RangeV(AsInt(args[0]), AsInt(args[1])))
      else if |args| == 3 then Err(Unmodelled("range with a step"))
      else Err(DataErr(TypeError))
    case TypeT =>
      if |args| == 1 then Ok(TypeV(TypeOf(args[0])))
      else if |args| == 3 then Err(Unmodelled("class creation"))
      else Err(DataErr(TypeError))
    case _ => Err(Unmodelled("constructor"))
  }

  /** `d.get(key[, default])`. */
  function DictGet(es: Entries, args: seq<Value>): (r: Result<Value>)
    ensures DataFailureOnly(r)
    ensures r.Ok? && WellFormed(DictV(es)) && AllWellFormed(args) ==> WellFormed(r.value)
  {
    if |args| == 0 || |args| > 2 then Err(DataErr(TypeError))
    else
      var key := args[0];
      var default := if |args| == 2 then args[1] else NoneV;
      if Unhashable(key) then Err(DataErr(TypeError))
      else if key.StrV? then Ok(LookupOr(es, key.s, default))
      else Ok(default)
  }

  /** Calling an already evaluated callee on already evaluated arguments. */
  function Apply(f: Value, args: seq<Value>): (r: Result<Value>)
    ensures DataFailureOnly(r)
    ensures r.Ok? && WellFormed(f) && AllWellFormed(args) ==> WellFormed(r.value)
  {
    match f
    case FuncV(b) => ApplyBuiltin(b, args)
    case TypeV(t) => Construct(t, args)
    case MethodV(es, Get) => DictGet(es, args)
    case _ => Err(DataErr(TypeError))
  }

  // ----- the builtins against their list definitions -----

  lemma {:induction false} AllTruthyMeans(xs: seq<Value>)
    ensures AllTruthy(xs) <==> forall i :: 0 <= i < |xs| ==> Truthy(xs[i])
  {
    if xs != [] {
      AllTruthyMeans(xs[1..]);
      assert forall i :: 1 <= i < |xs| ==> xs[i] == xs[1..][i - 1];
    }
  }

  lemma {:induction false} AnyTruthyMeans(xs: seq<Value>)
    ensures AnyTruthy(xs) <==> exists i :: 0 <= i < |xs| && Truthy(xs[i])
  {
    if xs != [] {
      AnyTruthyMeans(xs[1..]);
      if exists i :: 0 <= i < |xs| && Truthy(xs[i]) {
        var i :| 0 <= i < |xs| && Truthy(xs[i]);
        if i > 0 { assert Truthy(xs[1..][i - 1]); }
      }
      if AnyTruthy(xs[1..]) {
        var j :| 0 <= j < |xs[1..]| && Truthy(xs[1..][j]);
        assert Truthy(xs[j + 1]);
      }
    }
  }

  /** Position `k` holds the first element of `all` that no element is below. */
  predicate FirstMinimumAt(all: seq<Value>, k: int) {
    && 0 <= k < |all|
    && (forall i :: 0 <= i < |all| ==> AsInt(all[k]) <= AsInt(all[i]))
    && (forall i :: 0 <= i < k ==> AsInt(all[i]) > AsInt(all[k]))
  }

  /** Position `k` holds the first element of `all` that no element is above. */
  predicate FirstMaximumAt(all: seq<Value>, k: int) {
    && 0 <= k < |all|
    && (forall i :: 0 <= i < |all| ==> AsInt(all[k]) >= AsInt(all[i]))
    && (forall i :: 0 <= i < k ==> AsInt(all[i]) < AsInt(all[k]))
  }

  /** `min` returns an element, no element is smaller, and every element
      before it is strictly larger (ties go to the first). */
  lemma {:induction false} MinFromIsFirstMinimum(best: Value, xs: seq<Value>)
    requires IsNumber(best) && AllNumbers(xs)
    ensures exists k :: FirstMinimumAt([best] + xs, k) && ([best] + xs)[k] == MinFrom(best, xs)
    decreases xs
  {
    var all := [best] + xs;
    if xs == [] {
      assert FirstMinimumAt(all, 0);
    } else {
      var b' := if AsInt(xs[0]) < AsInt(best) then xs[0] else best;
      var all' := [b'] + xs[1..];
      MinFromIsFirstMinimum(b', xs[1..]);
      var k' :| FirstMinimumAt(all', k') && all'[k'] == MinFrom(b', xs[1..]);
      var k := if k' > 0 then k' + 1 else if b' == best then 0 else 1;
      var m := all'[k'];
      assert all[k] == m;
      forall i | 0 <= i < |all| ensures AsInt(m) <= AsInt(all[i]) {
        if i >= 2 { assert all[i] == all'[i - 1]; } else { assert AsInt(m) <= AsInt(all'[0]); }
      }
      forall i | 0 <= i < k ensures AsInt(all[i]) > AsInt(m) {
        if i >= 2 { assert all[i] == all'[i - 1]; } else if k' > 0 { assert AsInt(all'[0]) > AsInt(m); }
      }
      assert FirstMinimumAt(all, k);
    }
  }

  /** `max` returns an element, no element is larger, and every element
      before it is strictly smaller. */
  lemma {:induction false} MaxFromIsFirstMaximum(best: Value, xs: seq<Value>)
    requires IsNumber(best) && AllNumbers(xs)
    ensures exists k :: FirstMaximumAt([best] + xs, k) && ([best] + xs)[k] == MaxFrom(best, xs)
    decreases xs
  {
    var all := [best] + xs;
    if xs == [] {
      assert FirstMaximumAt(all, 0);
    } else {
      var b' := if AsInt(xs[0]) > AsInt(best) then xs[0] else best;
      var all' := [b'] + xs[1..];
      MaxFromIsFirstMaximum(b', xs[1..]);
      var k' :| FirstMaximumAt(all', k') && all'[k'] == MaxFrom(b', xs[1..]);
      var k := if k' > 0 then k' + 1 else if b' == best then 0 else 1;
      var m := all'[k'];
      assert all[k] == m;
      forall i | 0 <= i < |all| ensures AsInt(m) >= AsInt(all[i]) {
        if i >= 2 { assert all[i] == all'[i - 1]; } else { assert AsInt(m) >= AsInt(all'[0]); }
      }
      forall i | 0 <= i < k ensures AsInt(all[i]) < AsInt(m) {
        if i >= 2 { assert all[i] == all'[i - 1]; } else if k' > 0 { assert AsInt(all'[0]) < AsInt(m); }
      }
      assert FirstMaximumAt(all, k);
    }
  }

  /** `isinstance(v, T)` for a type `T`. */
  lemma IsinstanceOfType(v: Value, t: TypeTag)
    ensures Apply(FuncV(Isinstance), [v, TypeV(t)]) == Ok(BoolV(TypeOf(v) == t || (t == IntT && v.BoolV?)))
  {
  }

  /** `enumerate`, `filter`, `map`, `reversed` and `zip` are classes: their
      type is `type` and they are instances of it; the other whitelisted
      functions are builtin functions. */
  lemma TypeOfWhitelistedFunction(f: Builtin)
    ensures Apply(TypeV(TypeT), [FuncV(f)]) == Ok(TypeV(if IsClass(f) then TypeT else BuiltinT))
    ensures Apply(FuncV(Isinstance), [FuncV(f), TypeV(TypeT)]) == Ok(BoolV(IsClass(f)))
  {
  }

  /** A bound `get` has the type of the builtin functions, as in CPython:
      `type(x.get) == type(len)` and `isinstance(x.get, type(len))`. */
  lemma TypeOfBoundMethod(es: Entries)
    ensures Apply(TypeV(TypeT), [MethodV(es, Get)]) == Apply(TypeV(TypeT), [FuncV(Len)])
    ensures Apply(FuncV(Isinstance), [MethodV(es, Get), TypeV(BuiltinT)]) == Ok(BoolV(true))
  {
  }

  /** `type(v)` is the type tag of `v`. */
  lemma TypeOfValue(v: Value)
    ensures Apply(TypeV(TypeT), [v]) == Ok(TypeV(TypeOf(v)))
  {
  }

  /** `list(range(a, b))` holds the elements of the range. */
  lemma ListOfRange(a: int, b: int)
    ensures Apply(TypeV(RangeT), [IntV(b)]) == Ok(RangeV(0, b))
    ensures Apply(TypeV(RangeT), [IntV(a), IntV(b)]) == Ok(RangeV(a, b))
    ensures Apply(TypeV(ListT), [RangeV(a, b)]) == Ok(ListV(RangeItems(a, b)))
  {
  }

  /** `min(xs)` on a list of numbers: ValueError when it is empty, else
      its first least element. */
  lemma MinOfList(xs: seq<Value>)
    requires AllNumbers(xs)
    ensures xs == [] ==> ApplyBuiltin(Min, [ListV(xs)]) == Err(DataErr(ValueError))
    ensures xs != [] ==> exists k :: FirstMinimumAt(xs, k) && ApplyBuiltin(Min, [ListV(xs)]) == Ok(xs[k])
  {
    if |xs| == 1 {
      assert FirstMinimumAt(xs, 0);
    } else if xs != [] {
      assert [xs[0]] + xs[1..] == xs;
      MinFromIsFirstMinimum(xs[0], xs[1..]);
    }
  }

  /** `max(xs)` on a list of numbers: ValueError when it is empty, else
      its first greatest element. */
  lemma MaxOfList(xs: seq<Value>)
    requires AllNumbers(xs)
    ensures xs == [] ==> ApplyBuiltin(Max, [ListV(xs)]) == Err(DataErr(ValueError))
    ensures xs != [] ==> exists k :: FirstMaximumAt(xs, k) && ApplyBuiltin(Max, [ListV(xs)]) == Ok(xs[k])
  {
    if |xs| == 1 {
      assert FirstMaximumAt(xs, 0);
    } else if xs != [] {
      assert [xs[0]] + xs[1..] == xs;
      MaxFromIsFirstMaximum(xs[0], xs[1..]);
    }
  }

  /** `sum(xs)` on a list of numbers is the sum of their integer values
      (0 for the empty list). */
  lemma SumOfList(xs: seq<Value>)
    requires AllNumbers(xs)
    ensures ApplyBuiltin(Sum, [ListV(xs)]) == Ok(IntV(SumOf(xs)))
  {
  }

  /** `sum` is a fold: it adds up the parts of a split list. */
  lemma {:induction false} SumOfConcat(xs: seq<Value>, ys: seq<Value>)
    requires AllNumbers(xs) && AllNumbers(ys)
    ensures AllNumbers(xs + ys) && SumOf(xs + ys) == SumOf(xs) + SumOf(ys)
  {
    if xs != [] {
      assert (xs + ys)[1..] == xs[1..] + ys;
      SumOfConcat(xs[1..], ys);
    } else {
      assert xs + ys == ys;
    }
  }
}
