/** Python's operators on the modelled values: unary and binary arithmetic,
    comparisons, membership and subscripting. Python integers are
    unbounded, like Dafny's. */
module Operators {
  import opened Results
  import opened Values
  import opened Ast

  /** `//` rounds toward negative infinity (Dafny's `/` is Euclidean). */
  function FloorDivInt(a: int, b: int): int
    requires b != 0
  {
    if b > 0 then a / b else (-a) / (-b)
  }

  /** `%` takes the sign of the divisor and completes `//`. */
  function FloorModInt(a: int, b: int): (m: int)
    requires b != 0
    ensures a == b * FloorDivInt(a, b) + m
    ensures b > 0 ==> 0 <= m < b
    ensures b < 0 ==> b < m <= 0
  {
    var q := FloorDivInt(a, b);
    if b < 0 then
      assert -a == (-b) * q + (-a) % (-b);
      a - b * q
    else
      a - b * q
  }

  /** `x ** n` for a non-negative exponent. */
  function Power(x: int, n: nat): int {
    if n == 0 then 1 else x * Power(x, n - 1)
  }

  /** Exponents add: together with `Power(x, 0) == 1` and
      `Power(x, 1) == x` this fixes `Power` as repeated multiplication. */
  lemma {:induction false} PowerAdd(x: int, m: nat, n: nat)
    ensures Power(x, m + n) == Power(x, m) * Power(x, n)
    decreases m
  {
    if m > 0 {
      PowerAdd(x, m - 1, n);
      assert Power(x, m + n) == x * Power(x, m - 1 + n);
    }
  }

  /** `s * n` for a string or a list: `n` copies, none when `n <= 0`. */
  function Repeat<T>(s: seq<T>, n: int): (r: seq<T>)
    ensures |r| == if n > 0 then n * |s| else 0
    ensures forall i :: 0 <= i < |r| ==> r[i] in s
    decreases if n > 0 then n else 0
  {
    if n <= 0 then [] else s + Repeat(s, n - 1)
  }

  function EvalUnary(op: UnaryOp, v: Value): (r: Result<Value>)
    ensures DataFailureOnly(r)
  {
    match op
    case Not => Ok(BoolV(!Truthy(v)))
    case Neg => if IsNumber(v) then Ok(IntV(-AsInt(v))) else Err(DataErr(TypeError))
  }

  function EvalBinary(op: BinOp, a: Value, b: Value): (r: Result<Value>)
    ensures DataFailureOnly(r)
    ensures r.Ok? && WellFormed(a) && WellFormed(b) ==> WellFormed(r.value)
  {
    if IsNumber(a) && IsNumber(b) then
      var x, y := AsInt(a), AsInt(b);
      match op
      case Add => Ok(IntV(x + y))
      case Sub => Ok(IntV(x - y))
      case Mul => Ok(IntV(x * y))
      case FloorDiv => if y == 0 then Err(DataErr(ZeroDivisionError)) else Ok(IntV(FloorDivInt(x, y)))
      case Mod => if y == 0 then Err(DataErr(ZeroDivisionError)) else Ok(IntV(FloorModInt(x, y)))
      case Pow =>
        if y >= 0 then Ok(IntV(Power(x, y)))
        else if x == 0 then Err(DataErr(ZeroDivisionError))
        else Err(Unmodelled("negative exponent gives a float"))
    else
      match op
      case Add =>
        if a.StrV? && b.StrV? then Ok(StrV(a.s + b.s))
        else if a.ListV? && b.ListV? then Ok(ListV(a.items + b.items))
        else Err(DataErr(TypeError))
      case Mul =>
        if a.StrV? && IsNumber(b) then Ok(StrV(Repeat(a.s, AsInt(b))))
        else if IsNumber(a) && b.StrV? then Ok(StrV(Repeat(b.s, AsInt(a))))
        else if a.ListV? && IsNumber(b) then Ok(ListV(Repeat(a.items, AsInt(b))))
        else if IsNumber(a) && b.ListV? then Ok(ListV(Repeat(b.items, AsInt(a))))
        else Err(DataErr(TypeError))
      case Mod =>
        if a.StrV? then Err(Unmodelled("printf-style string formatting"))
        else Err(DataErr(TypeError))
      case _ => Err(DataErr(TypeError))
  }

  /** `x in c`. */
  function Contains(c: Value, x: Value): (r: Result<bool>)
    ensures DataFailureOnly(r)
  {
    match c
    case ListV(items) => Ok(exists i :: 0 <= i < |items| && PyEq(items[i], x))
    case StrV(s) =>
      if x.StrV? then Ok(IsSubstring(x.s, s)) else Err(DataErr(TypeError))
    case DictV(es) =>
      if Unhashable(x) then Err(DataErr(TypeError))
      else Ok(x.StrV? && HasKey(es, x.s))
    case RangeV(a, b) => Ok(IsNumber(x) && a <= AsInt(x) < b)
    case _ => Err(DataErr(TypeError))
  }

  /** `p` occurs in `s` at some position. */
  predicate IsSubstring(p: string, s: string)
    decreases |s|
  {
    p <= s || (|s| > 0 && IsSubstring(p, s[1..]))
  }

  function EvalCompare(op: CmpOp, a: Value, b: Value): (r: Result<bool>)
    ensures DataFailureOnly(r)
  {
    match op
    case Eq => Ok(PyEq(a, b))
    case NotEq => Ok(!PyEq(a, b))
    case Lt => var c :- Order(a, b); Ok(c < 0)
    case LtE => var c :- Order(a, b); Ok(c <= 0)
    case Gt => var c :- Order(a, b); Ok(c > 0)
    case GtE => var c :- Order(a, b); Ok(c >= 0)
    case In => Contains(b, a)
    case NotIn => var c :- Contains(b, a); Ok(!c)
  }

  /** On numbers, the six comparison operators are the integer relations
      (so `True == 1` and `False < 1`). */
  lemma NumericComparison(a: Value, b: Value)
    requires IsNumber(a) && IsNumber(b)
    ensures EvalCompare(Eq, a, b) == Ok(AsInt(a) == AsInt(b))
    ensures EvalCompare(NotEq, a, b) == Ok(AsInt(a) != AsInt(b))
    ensures EvalCompare(Lt, a, b) == Ok(AsInt(a) < AsInt(b))
    ensures EvalCompare(LtE, a, b) == Ok(AsInt(a) <= AsInt(b))
    ensures EvalCompare(Gt, a, b) == Ok(AsInt(a) > AsInt(b))
    ensures EvalCompare(GtE, a, b) == Ok(AsInt(a) >= AsInt(b))
  {
  }

  /** Strings compare lexicographically by code point: `x < y` when `x` is
      a proper prefix of `y` or has the smaller character where they first
      differ. They are equal exactly when they compare as neither smaller
      nor larger; a string and a number are never ordered. */
  lemma StringComparison(x: string, y: string)
    ensures EvalCompare(Eq, StrV(x), StrV(y)) == Ok(x == y)
    ensures EvalCompare(Lt, StrV(x), StrV(y)) == Ok(LexBefore(x, y))
    ensures EvalCompare(LtE, StrV(x), StrV(y)) == Ok(LexBefore(x, y) || x == y)
    ensures EvalCompare(Gt, StrV(x), StrV(y)) == Ok(LexBefore(y, x))
    ensures EvalCompare(GtE, StrV(x), StrV(y)) == Ok(LexBefore(y, x) || x == y)
    ensures EvalCompare(LtE, StrV(x), StrV(y)) == Ok(true) && EvalCompare(GtE, StrV(x), StrV(y)) == Ok(true) <==> x == y
    ensures EvalCompare(Lt, StrV(x), IntV(0)) == Err(DataErr(TypeError))
    ensures forall op: CmpOp, n: Value :: (op.Lt? || op.LtE? || op.Gt? || op.GtE?) && IsNumber(n) ==>
      EvalCompare(op, StrV(x), n) == Err(DataErr(TypeError)) && EvalCompare(op, n, StrV(x)) == Err(DataErr(TypeError))
  {
    StrCmpIsLexicographic(x, y);
    StrCmpIsLexicographic(y, x);
    StrCmpFlip(x, y);
  }

  /** A sequence index, counted from the end when negative. */
  function Position(k: Value, len: nat): Result<nat>
  {
    if !IsNumber(k) then Err(DataErr(TypeError))
    else
      var i := if AsInt(k) < 0 then AsInt(k) + len else AsInt(k);
      if 0 <= i < len then Ok(i) else Err(DataErr(IndexError))
  }

  /** `c[k]`. */
  function EvalSubscript(c: Value, k: Value): (r: Result<Value>)
    ensures DataFailureOnly(r)
    ensures r.Ok? && WellFormed(c) ==> WellFormed(r.value)
  {
    match c
    case ListV(items) =>
      var i :- Position(k, |items|);
      if i < |items| then Ok(items[i]) else Err(DataErr(IndexError))
    case StrV(s) =>
      var i :- Position(k, |s|);
      if i < |s| then Ok(StrV([s[i]])) else Err(DataErr(IndexError))
    case RangeV(a, b) =>
      var i :- Position(k, RangeLen(a, b));
      Ok(IntV(a + i))
    case DictV(es) =>
      if Unhashable(k) then Err(DataErr(TypeError))
      else if k.StrV? && HasKey(es, k.s) then Ok(LookupOr(es, k.s, NoneV))
      else Err(DataErr(KeyError))
    case TypeV(_) => Err(Unmodelled("generic alias"))
    case _ => Err(DataErr(TypeError))
  }
}
