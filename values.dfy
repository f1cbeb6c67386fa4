/** Runtime values of the restricted expression language, with the Python
    semantics the evaluator relies on: type tags, truthiness, dictionary
    lookup, equality and ordering. */
module Values {
  import opened Results

  /** The types an expression can name or obtain through `type(x)`. */
  datatype TypeTag =
    | IntT | BoolT | StrT | FloatT | NoneT | ListT | DictT | RangeT
    | TypeT | BuiltinT

  /** The whitelisted callables that are plain functions rather than types. */
  datatype Builtin =
    | Isinstance | Issubclass | Len | All | Any | Min | Max | Sum
    | Enumerate | Filter | MapFn | Sorted | Reversed | Zip

  /** The curated member table: the only member an attribute access can
      reach is the `get` method of a dictionary. */
  datatype DictMethod = Get

  /** A dictionary is an insertion-ordered list of (key, value) entries;
      keys are strings. */
  datatype Value =
    | IntV(i: int)
    | BoolV(b: bool)
    | StrV(s: string)
    | NoneV
    | ListV(items: seq<Value>)
    | DictV(entries: seq<(string, Value)>)
    | RangeV(start: int, stop: int)
    | TypeV(tag: TypeTag)
    | FuncV(fn: Builtin)
    | MethodV(receiver: seq<(string, Value)>, member: DictMethod)

  type Entries = seq<(string, Value)>

  /** The whitelisted callables that Python implements as classes, so that
      their own type is `type`. */
  predicate IsClass(f: Builtin) {
    f in {Enumerate, Filter, MapFn, Reversed, Zip}
  }

  function TypeOf(v: Value): TypeTag {
    match v
    case IntV(_) => IntT
    case BoolV(_) => BoolT
    case StrV(_) => StrT
    case NoneV => NoneT
    case ListV(_) => ListT
    case DictV(_) => DictT
    case RangeV(_, _) => RangeT
    case TypeV(_) => TypeT
    case FuncV(f) => if IsClass(f) then TypeT else BuiltinT
    case MethodV(_, _) => BuiltinT
  }

  /** `isinstance(v, t)`: `bool` is a subclass of `int`. */
  predicate IsInstance(v: Value, t: TypeTag) {
    TypeOf(v) == t || (t == IntT && TypeOf(v) == BoolT)
  }

  /** Booleans take part in arithmetic and ordering as 0 and 1. */
  predicate IsNumber(v: Value) {
    v.IntV? || v.BoolV?
  }

  /** The integer a number stands for (callers check `IsNumber` first). */
  function AsInt(v: Value): int {
    match v
    case IntV(i) => i
    case BoolV(b) => if b then 1 else 0
    case _ => 0
  }

  /** Python truthiness: zero, false, none and empty collections are falsy;
      every other value is truthy. */
  predicate Truthy(v: Value) {
    match v
    case IntV(i) => i != 0
    case BoolV(b) => b
    case StrV(s) => |s| > 0
    case NoneV => false
    case ListV(xs) => |xs| > 0
    case DictV(es) => |es| > 0
    case RangeV(a, b) => a < b
    case _ => true
  }

  /** Values Python refuses as dictionary keys. */
  predicate Unhashable(v: Value) {
    v.ListV? || v.DictV?
  }

  // ----- dictionaries -----

  /** Position of the first entry with key `k`; `|es|` when there is none. */
  function KeyIndex(es: Entries, k: string): (i: nat)
    ensures i <= |es|
    ensures i < |es| ==> es[i].0 == k
    ensures forall j :: 0 <= j < i ==> es[j].0 != k
  {
    if es == [] then 0
    else if es[0].0 == k then 0
    else 1 + KeyIndex(es[1..], k)
  }

  predicate HasKey(es: Entries, k: string) {
    KeyIndex(es, k) < |es|
  }

  /** `d.get(k, default)` on the entries of `d`. */
  function LookupOr(es: Entries, k: string, default: Value): Value {
    var i := KeyIndex(es, k);
    if i < |es| then es[i].1 else default
  }

  /** Setting `d[k] = v`: an existing key keeps its position and takes the
      new value; a new key goes last. */
  function Insert(es: Entries, k: string, v: Value): (r: Entries)
    ensures HasKey(r, k) && LookupOr(r, k, NoneV) == v
    ensures HasKey(es, k) ==> |r| == |es| && forall j :: 0 <= j < |es| ==> r[j].0 == es[j].0
    ensures !HasKey(es, k) ==> r == es + [(k, v)]
    ensures forall k' :: k' != k ==> HasKey(r, k') == HasKey(es, k')
    ensures forall k', d :: k' != k ==> LookupOr(r, k', d) == LookupOr(es, k', d)
    ensures DistinctKeys(es) ==> DistinctKeys(r)
    ensures forall j :: 0 <= j < |r| ==> r[j] == (k, v) || r[j] in es
  {
    var i := KeyIndex(es, k);
    if i < |es| then
      var r := es[i := (k, v)];
      KeyIndexUpdate(es, i, k, v);
      LookupUpdate(es, i, k, v);
      r
    else
      var r := es + [(k, v)];
      KeyIndexAppend(es, k, v);
      r
  }

  lemma {:induction false} KeyIndexUpdate(es: Entries, i: nat, k: string, v: Value)
    requires i < |es| && es[i].0 == k
    ensures forall k' :: KeyIndex(es[i := (k, v)], k') == KeyIndex(es, k')
  {
    forall k' ensures KeyIndex(es[i := (k, v)], k') == KeyIndex(es, k') {
      if es[0].0 != k' && i > 0 {
        assert es[i := (k, v)][1..] == es[1..][i - 1 := (k, v)];
        KeyIndexUpdate(es[1..], i - 1, k, v);
      }
    }
  }

  lemma LookupUpdate(es: Entries, i: nat, k: string, v: Value)
    requires i < |es| && es[i].0 == k
    ensures forall k', d :: k' != k ==> LookupOr(es[i := (k, v)], k', d) == LookupOr(es, k', d)
  {
    KeyIndexUpdate(es, i, k, v);
    forall k', d | k' != k
      ensures LookupOr(es[i := (k, v)], k', d) == LookupOr(es, k', d)
    {
      var j := KeyIndex(es, k');
      if j < |es| {
        assert j != i;
      }
    }
  }

  lemma {:induction false} KeyIndexAppend(es: Entries, k: string, v: Value)
    requires !HasKey(es, k)
    ensures KeyIndex(es + [(k, v)], k) == |es|
    ensures forall k' :: k' != k ==>
      KeyIndex(es + [(k, v)], k') == if HasKey(es, k') then KeyIndex(es, k') else |es| + 1
  {
    if es != [] {
      assert (es + [(k, v)])[1..] == es[1..] + [(k, v)];
      KeyIndexAppend(es[1..], k, v);
      forall k' | k' != k && es[0].0 != k'
        ensures KeyIndex(es + [(k, v)], k') == if HasKey(es, k') then KeyIndex(es, k') else |es| + 1
      {
        assert KeyIndex(es, k') == 1 + KeyIndex(es[1..], k');
      }
    }
  }

  predicate DistinctKeys(es: Entries) {
    forall i, j :: 0 <= i < j < |es| ==> es[i].0 != es[j].0
  }

  /** Iterating over a dictionary yields its keys in insertion order. */
  function KeyValues(es: Entries): seq<Value> {
    seq(|es|, i requires 0 <= i < |es| => StrV(es[i].0))
  }

  // ----- strings and ranges as sequences -----

  /** Iterating over a string yields its one-character strings. */
  function Chars(s: string): seq<Value> {
    seq(|s|, i requires 0 <= i < |s| => StrV([s[i]]))
  }

  function RangeLen(a: int, b: int): nat {
    if a < b then b - a else 0
  }

  /** The elements of `range(a, b)`. */
  function RangeItems(a: int, b: int): seq<Value> {
    seq(RangeLen(a, b), i => IntV(a + i))
  }

  // ----- equality -----

  /** Python `==` on values: numbers compare by value (so `True == 1`),
      containers element-wise, dictionaries key by key whatever the order. */
  function PyEq(a: Value, b: Value): (r: bool)
    decreases a
  {
    if IsNumber(a) || IsNumber(b) then
      IsNumber(a) && IsNumber(b) && AsInt(a) == AsInt(b)
    else
      match a
      case StrV(x) => b.StrV? && x == b.s
      case NoneV => b.NoneV?
      case ListV(xs) =>
        b.ListV? && |xs| == |b.items| &&
        forall i :: 0 <= i < |xs| ==> PyEq(xs[i], b.items[i])
      case DictV(xs) =>
        b.DictV? &&
        (forall j :: 0 <= j < |b.entries| ==> HasKey(xs, b.entries[j].0)) &&
        forall i :: 0 <= i < |xs| ==>
          HasKey(b.entries, xs[i].0) && PyEq(xs[i].1, LookupOr(b.entries, xs[i].0, NoneV))
      case RangeV(a1, b1) =>
        b.RangeV? && RangeItems(a1, b1) == RangeItems(b.start, b.stop)
      case TypeV(t) => b.TypeV? && t == b.tag
      case FuncV(f) => b.FuncV? && f == b.fn
      case MethodV(r, m) => b.MethodV? && r == b.receiver && m == b.member
      case _ => false
  }

  /** Types are equal exactly when they are the same type. */
  lemma TypesEqualWhenSame(a: TypeTag, b: TypeTag)
    ensures PyEq(TypeV(a), TypeV(b)) <==> a == b
  {
  }

  /** Python truthiness, stated as the list of falsy values: None, the
      numbers equal to zero, and the empty string, list, dictionary and range. */
  lemma TruthyMeans(v: Value)
    ensures !Truthy(v) <==>
      || v == NoneV
      || (IsNumber(v) && AsInt(v) == 0)
      || v == StrV("") || v == ListV([]) || v == DictV([])
      || (v.RangeV? && RangeItems(v.start, v.stop) == [])
  {
  }

  /** Values of different types are never `==`, except numbers of the two
      kinds (`True == 1`). */
  lemma PyEqSameKind(a: Value, b: Value)
    ensures PyEq(a, b) ==> TypeOf(a) == TypeOf(b) || (IsNumber(a) && IsNumber(b))
  {
  }

  /** `x == x` for every value whose dictionaries have distinct keys. */
  lemma {:induction false} PyEqReflexive(a: Value)
    requires WellFormed(a)
    ensures PyEq(a, a)
    decreases a
  {
    match a
    case ListV(xs) =>
      forall i | 0 <= i < |xs| ensures PyEq(xs[i], xs[i]) {
        PyEqReflexive(xs[i]);
      }
    case DictV(xs) =>
      forall i | 0 <= i < |xs| ensures HasKey(xs, xs[i].0) && PyEq(xs[i].1, LookupOr(xs, xs[i].0, NoneV)) {
        KeyIndexOfDistinct(xs, i);
        PyEqReflexive(xs[i].1);
      }
    case _ =>
  }

  /** With distinct keys, the entry at position `i` is the first with its key. */
  lemma KeyIndexOfDistinct(es: Entries, i: nat)
    requires DistinctKeys(es) && i < |es|
    ensures KeyIndex(es, es[i].0) == i
  {
  }

  // ----- ordering -----

  function Cmp(x: int, y: int): int {
    if x < y then -1 else if x == y then 0 else 1
  }

  /** Lexicographic order of code points. */
  function StrCmp(x: string, y: string): (c: int)
    ensures c == 0 <==> x == y
  {
    if x == [] || y == [] then Cmp(|x|, |y|)
    else if x[0] != y[0] then (if x[0] < y[0] then -1 else 1)
    else
      assert x == [x[0]] + x[1..] && y == [y[0]] + y[1..];
      StrCmp(x[1..], y[1..])
  }

  /** `x` sorts before `y`: it is a proper prefix of `y`, or the two agree up
      to a position where `x` has the smaller character. */
  predicate LexBefore(x: string, y: string) {
    x < y || exists i :: 0 <= i < |x| && i < |y| && x[..i] == y[..i] && x[i] < y[i]
  }

  lemma {:induction false} StrCmpIsLexicographic(x: string, y: string)
    ensures StrCmp(x, y) < 0 <==> LexBefore(x, y)
  {
    if x == [] || y == [] {
    } else if x[0] != y[0] {
      if x[0] < y[0] {
        assert x[..0] == y[..0];
      }
    } else {
      var x', y' := x[1..], y[1..];
      StrCmpIsLexicographic(x', y');
      assert x == [x[0]] + x' && y == [y[0]] + y';
      if x' < y' { assert x < y; }
      if x < y { assert x' < y'; }
      if i :| 0 <= i < |x'| && i < |y'| && x'[..i] == y'[..i] && x'[i] < y'[i] {
        assert x[..i + 1] == [x[0]] + x'[..i] && y[..i + 1] == [y[0]] + y'[..i];
        assert x[i + 1] < y[i + 1];
      }
      if i :| 0 <= i < |x| && i < |y| && x[..i] == y[..i] && x[i] < y[i] {
        assert i > 0;
        assert x'[..i - 1] == x[..i][1..] && y'[..i - 1] == y[..i][1..];
        assert x'[i - 1] < y'[i - 1];
      }
    }
  }

  /** Swapping the operands flips the comparison. */
  lemma {:induction false} StrCmpFlip(x: string, y: string)
    ensures StrCmp(y, x) == -StrCmp(x, y)
  {
    if x != [] && y != [] && x[0] == y[0] {
      StrCmpFlip(x[1..], y[1..]);
    }
  }

  /** Three-way comparison behind `<`, `<=`, `>` and `>=`: numbers, strings
      and lists (lexicographically, deciding at the first pair of elements
      that are not `==`); any other pair raises TypeError. */
  function Order(a: Value, b: Value): (r: Result<int>)
    ensures DataFailureOnly(r)
    decreases a, 1
  {
    if IsNumber(a) && IsNumber(b) then Ok(Cmp(AsInt(a), AsInt(b)))
    else if a.StrV? && b.StrV? then Ok(StrCmp(a.s, b.s))
    else if a.ListV? && b.ListV? then ListOrder(a.items, b.items)
    else Err(DataErr(TypeError))
  }

  function ListOrder(xs: seq<Value>, ys: seq<Value>): (r: Result<int>)
    ensures DataFailureOnly(r)
    decreases xs, 0
  {
    if xs == [] || ys == [] then Ok(Cmp(|xs|, |ys|))
    else if PyEq(xs[0], ys[0]) then ListOrder(xs[1..], ys[1..])
    else Order(xs[0], ys[0])
  }

  // ----- well-formedness -----

  /** Every dictionary, at any depth, has distinct keys. */
  predicate WellFormed(v: Value)
    decreases v
  {
    match v
    case ListV(xs) => forall i :: 0 <= i < |xs| ==> WellFormed(xs[i])
    case DictV(es) => DistinctKeys(es) && forall i :: 0 <= i < |es| ==> WellFormed(es[i].1)
    case MethodV(es, _) => DistinctKeys(es) && forall i :: 0 <= i < |es| ==> WellFormed(es[i].1)
    case _ => true
  }

  predicate AllWellFormed(xs: seq<Value>) {
    forall i :: 0 <= i < |xs| ==> WellFormed(xs[i])
  }
}
