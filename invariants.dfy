/** The representation invariant every evaluation keeps: when the caller's
    values have dictionaries with distinct keys, so does every value the
    evaluator returns. A dictionary display with a repeated key, such as
    `{'a': 1, 'a': 2}`, yields a single entry for that key. */
module Invariants {
  import opened Results
  import opened Values
  import opened Ast
  import opened Operators
  import opened Builtins
  import opened Whitelist
  import opened Evaluator

  /** Every whitelist entry is a function or a type, which is well formed. */
  lemma WhitelistWellFormed(n: string)
    requires n in SAFE_FUNCTIONS
    ensures WellFormed(SAFE_FUNCTIONS[n])
  {
    assert SAFE_FUNCTIONS[n].FuncV? || SAFE_FUNCTIONS[n].TypeV?;
  }

  /** The bound `get` of a well-formed dictionary is well formed. */
  lemma MemberWellFormed(v: Value, name: string)
    requires WellFormed(v)
    ensures GetMember(v, name).Ok? ==> WellFormed(GetMember(v, name).value)
  {
  }

  lemma {:induction false} EvalWellFormed(e: Expr, ctx: Context)
    requires WellFormedContext(ctx)
    ensures Eval(e, ctx).Ok? ==> WellFormed(Eval(e, ctx).value)
    decreases e, 1, 0
  {
    match e
    case Lit(_) =>
    case Name(n) =>
      if n !in ctx && n in SAFE_FUNCTIONS { WhitelistWellFormed(n); }
    case Unary(_, x) =>
      EvalWellFormed(x, ctx);
    case Attribute(t, name) =>
      EvalWellFormed(t, ctx);
      var v := Eval(t, ctx);
      if v.Ok? { MemberWellFormed(v.value, name); }
    case ListLit(es) =>
      ListWellFormed(es, ctx);
    case DictLit(ks, vs) =>
      DictWellFormed(ks, vs, 0, [], ctx);
    case Other(_) =>
    case _ =>
      CompoundWellFormed(e, ctx);
  }

  /** The nodes with two or more children, split off to keep proofs small. */
  lemma {:induction false} CompoundWellFormed(e: Expr, ctx: Context)
    requires e.Binary? || e.BoolOp? || e.Subscript? || e.Compare? || e.Call?
    requires WellFormedContext(ctx)
    ensures Eval(e, ctx).Ok? ==> WellFormed(Eval(e, ctx).value)
    decreases e, 0, 0
  {
    match e
    case Binary(_, l, r) =>
      EvalWellFormed(l, ctx);
      EvalWellFormed(r, ctx);
    case BoolOp(_, l, r) =>
      EvalWellFormed(l, ctx);
      EvalWellFormed(r, ctx);
    case Subscript(c, i) =>
      EvalWellFormed(c, ctx);
    case Compare(_, _, _) =>
    case Call(f, args) =>
      EvalWellFormed(f, ctx);
      ListWellFormed(args, ctx);
  }

  lemma {:induction false} ListWellFormed(es: seq<Expr>, ctx: Context)
    requires WellFormedContext(ctx)
    ensures EvalList(es, ctx).Ok? ==> AllWellFormed(EvalList(es, ctx).value)
    decreases es, 0, 0
  {
    if es != [] {
      EvalWellFormed(es[0], ctx);
      ListWellFormed(es[1..], ctx);
    }
  }

  /** Adding an entry keeps a dictionary well formed. */
  lemma InsertWellFormed(es: Entries, k: string, v: Value)
    requires WellFormed(DictV(es)) && WellFormed(v)
    ensures WellFormed(DictV(Insert(es, k, v)))
  {
    var r := Insert(es, k, v);
    forall j | 0 <= j < |r| ensures WellFormed(r[j].1) {
      if r[j] != (k, v) {
        var i :| 0 <= i < |es| && es[i] == r[j];
      }
    }
  }

  lemma {:induction false} DictWellFormed(ks: seq<Expr>, vs: seq<Expr>, i: nat, acc: Entries, ctx: Context)
    requires WellFormedContext(ctx) && WellFormed(DictV(acc))
    ensures EvalDict(ks, vs, i, acc, ctx).Ok? ==> WellFormed(DictV(EvalDict(ks, vs, i, acc, ctx).value))
    decreases DictLit(ks, vs), 0, |ks| - i
  {
    if i < |ks| && i < |vs| {
      EvalWellFormed(vs[i], ctx);
      var k := Eval(ks[i], ctx);
      var v := Eval(vs[i], ctx);
      if k.Ok? && v.Ok? && DictKey(k.value).Ok? {
        InsertWellFormed(acc, DictKey(k.value).value, v.value);
        DictWellFormed(ks, vs, i + 1, Insert(acc, DictKey(k.value).value, v.value), ctx);
      }
    }
  }
}
