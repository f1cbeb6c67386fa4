/** The fail-closed guarantees of the evaluator: name resolution order,
    the attribute guard, the unsupported-construct rejection, the contents
    of the whitelist, where each security error can come from, and that an
    evaluation reads nothing of the context but the names it mentions. */
module Security {
  import opened Results
  import opened Values
  import opened Ast
  import opened Operators
  import opened Builtins
  import opened Whitelist
  import opened Evaluator

  // ----- whitelist contents -----

  lemma WhitelistEntriesAreFunctionsOrTypes()
    ensures forall n :: n in SAFE_FUNCTIONS ==> SAFE_FUNCTIONS[n].FuncV? || SAFE_FUNCTIONS[n].TypeV?
  {
  }

  /** The whitelist holds exactly the assumed names. */
  lemma WhitelistExactContents()
    ensures SAFE_FUNCTIONS.Keys == WHITELISTED_NAMES
  {
  }

  lemma NoCodeLoading()
    ensures forall n :: n in CODE_LOADING_NAMES ==> n !in SAFE_FUNCTIONS
  {
    assert "eval" !in SAFE_FUNCTIONS;
    assert "exec" !in SAFE_FUNCTIONS;
    assert "compile" !in SAFE_FUNCTIONS;
    assert "__import__" !in SAFE_FUNCTIONS;
  }

  lemma NoAttributeAccess()
    ensures forall n :: n in ATTRIBUTE_ACCESS_NAMES ==> n !in SAFE_FUNCTIONS
  {
    assert "getattr" !in SAFE_FUNCTIONS;
    assert "setattr" !in SAFE_FUNCTIONS;
    assert "delattr" !in SAFE_FUNCTIONS;
  }

  lemma NoNamespaces()
    ensures forall n :: n in NAMESPACE_NAMES ==> n !in SAFE_FUNCTIONS
  {
    assert "globals" !in SAFE_FUNCTIONS;
    assert "locals" !in SAFE_FUNCTIONS;
    assert "vars" !in SAFE_FUNCTIONS;
  }

  lemma NoIo()
    ensures forall n :: n in IO_NAMES ==> n !in SAFE_FUNCTIONS
  {
    assert "open" !in SAFE_FUNCTIONS;
    assert "input" !in SAFE_FUNCTIONS;
    assert "breakpoint" !in SAFE_FUNCTIONS;
  }

  lemma WhitelistExcludesDangerous()
    ensures forall n :: n in DANGEROUS_NAMES ==> n !in SAFE_FUNCTIONS
  {
    NoCodeLoading();
    NoAttributeAccess();
    NoNamespaces();
    NoIo();
  }

  // ----- name resolution -----

  lemma ResolutionOrder(n: string, ctx: Context)
    ensures n in ctx ==> Eval(Name(n), ctx) == Ok(ctx[n])
    ensures n !in ctx && n in SAFE_FUNCTIONS ==> Eval(Name(n), ctx) == Ok(SAFE_FUNCTIONS[n])
    ensures n !in ctx && n !in SAFE_FUNCTIONS ==> Eval(Name(n), ctx) == Err(NameErr(n))
  {
  }

  /** An unbound name fails the same way as a variable and as a callee,
      before any argument is evaluated. */
  lemma UnboundNameRejected(n: string, args: seq<Expr>, ctx: Context)
    requires n !in ctx && n !in SAFE_FUNCTIONS
    ensures Eval(Name(n), ctx) == Err(NameErr(n))
    ensures Eval(Call(Name(n), args), ctx) == Err(NameErr(n))
  {
  }

  /** `eval(...)`, `exec(...)`, `open(...)` and the like fail with NameError
      whenever the caller has not bound the name. */
  lemma DangerousCallsRejected(n: string, args: seq<Expr>, ctx: Context)
    requires n in DANGEROUS_NAMES && n !in ctx
    ensures Eval(Call(Name(n), args), ctx) == Err(NameErr(n))
  {
    WhitelistExcludesDangerous();
    UnboundNameRejected(n, args, ctx);
  }

  // ----- attribute guard and dispatch -----

  /** Any underscore attribute fails with the private-attribute error,
      whatever the target expression, before the target is evaluated. */
  lemma PrivateAttributeRejected(target: Expr, name: string, args: seq<Expr>, ctx: Context)
    requires IsPrivate(name)
    ensures Eval(Attribute(target, name), ctx) == Err(PrivateAttrErr(name))
    ensures Eval(Call(Attribute(target, name), args), ctx) == Err(PrivateAttrErr(name))
  {
  }

  lemma UnsupportedRejected(kind: string, ctx: Context)
    ensures Eval(Other(kind), ctx) == Err(UnsupportedErr(kind))
  {
  }

  // ----- provenance of the security errors -----

  /** A NameError names an identifier of the tree that neither the context
      nor the whitelist binds; a private-attribute error names an
      underscore attribute of the tree; an unsupported-construct error names
      a node kind of the tree outside the supported set. */
  predicate Attributed<T>(r: Result<T>, leaves: set<Leaf>, ctx: Context) {
    r.Err? ==>
      match r.error
      case NameErr(n) => NameLeaf(n) in leaves && n !in ctx && n !in SAFE_FUNCTIONS
      case PrivateAttrErr(a) => AttrLeaf(a) in leaves && IsPrivate(a)
      case UnsupportedErr(k) => OtherLeaf(k) in leaves
      case _ => true
  }

  lemma {:induction false} EvalAttributed(e: Expr, ctx: Context)
    ensures Attributed(Eval(e, ctx), Leaves(e), ctx)
    decreases e, 1, 0
  {
    match e
    case Lit(_) =>
    case Name(_) =>
    case Unary(_, x) =>
      EvalAttributed(x, ctx);
    case Attribute(t, _) =>
      EvalAttributed(t, ctx);
    case ListLit(es) =>
      ListAttributed(es, ctx);
    case DictLit(ks, vs) =>
      DictAttributed(ks, vs, 0, [], ctx);
    case Other(_) =>
    case _ =>
      CompoundAttributed(e, ctx);
  }

  lemma {:induction false} CompoundAttributed(e: Expr, ctx: Context)
    requires e.Binary? || e.BoolOp? || e.Subscript? || e.Compare? || e.Call?
    ensures Attributed(Eval(e, ctx), Leaves(e), ctx)
    decreases e, 0, 0
  {
    match e
    case Binary(_, l, r) =>
      EvalAttributed(l, ctx);
      EvalAttributed(r, ctx);
    case BoolOp(_, l, r) =>
      EvalAttributed(l, ctx);
      EvalAttributed(r, ctx);
    case Subscript(c, i) =>
      EvalAttributed(c, ctx);
      EvalAttributed(i, ctx);
    case Compare(h, ops, cs) =>
      EvalAttributed(h, ctx);
      var a := Eval(h, ctx);
      if a.Ok? { ChainAttributed(a.value, ops, cs, ctx); }
    case Call(f, args) =>
      EvalAttributed(f, ctx);
      ListAttributed(args, ctx);
  }

  lemma {:induction false} ListAttributed(es: seq<Expr>, ctx: Context)
    ensures Attributed(EvalList(es, ctx), ListLeaves(es), ctx)
    decreases es, 0, 0
  {
    if es != [] {
      EvalAttributed(es[0], ctx);
      ListAttributed(es[1..], ctx);
    }
  }

  lemma {:induction false} ChainAttributed(left: Value, ops: seq<CmpOp>, cs: seq<Expr>, ctx: Context)
    ensures Attributed(EvalChain(left, ops, cs, ctx), ListLeaves(cs), ctx)
    decreases cs, 0, 0
  {
    if ops != [] && cs != [] {
      EvalAttributed(cs[0], ctx);
      var right := Eval(cs[0], ctx);
      if right.Ok? { ChainAttributed(right.value, ops[1..], cs[1..], ctx); }
    }
  }

  lemma {:induction false} DictAttributed(ks: seq<Expr>, vs: seq<Expr>, i: nat, acc: Entries, ctx: Context)
    ensures Attributed(EvalDict(ks, vs, i, acc, ctx), ListLeaves(ks) + ListLeaves(vs), ctx)
    decreases DictLit(ks, vs), 0, |ks| - i
  {
    if i < |ks| && i < |vs| {
      EvalAttributed(ks[i], ctx);
      EvalAttributed(vs[i], ctx);
      ListLeavesCover(ks, i);
      ListLeavesCover(vs, i);
      var k := Eval(ks[i], ctx);
      var v := Eval(vs[i], ctx);
      if k.Ok? && v.Ok? && DictKey(k.value).Ok? {
        DictAttributed(ks, vs, i + 1, Insert(acc, DictKey(k.value).value, v.value), ctx);
      }
    }
  }

  lemma {:induction false} ListLeavesCover(es: seq<Expr>, i: nat)
    requires i < |es|
    ensures Leaves(es[i]) <= ListLeaves(es)
  {
    if i > 0 { ListLeavesCover(es[1..], i - 1); }
  }

  /** Corollaries: a tree whose names are all bound, whose attribute names
      are all public and whose node kinds are all supported never fails
      with the corresponding security error. */
  lemma SecurityErrorsNeedCause(e: Expr, ctx: Context)
    ensures (forall n :: NameLeaf(n) in Leaves(e) ==> n in ctx || n in SAFE_FUNCTIONS)
              ==> !(Eval(e, ctx).Err? && Eval(e, ctx).error.NameErr?)
    ensures (forall a :: AttrLeaf(a) in Leaves(e) ==> !IsPrivate(a))
              ==> !(Eval(e, ctx).Err? && Eval(e, ctx).error.PrivateAttrErr?)
    ensures (forall k :: OtherLeaf(k) !in Leaves(e))
              ==> !(Eval(e, ctx).Err? && Eval(e, ctx).error.UnsupportedErr?)
  {
    EvalAttributed(e, ctx);
  }

  // ----- the context is read only where the tree looks -----

  ghost predicate AgreeOn(c1: Context, c2: Context, leaves: set<Leaf>) {
    forall n :: NameLeaf(n) in leaves ==> (n in c1 <==> n in c2) && (n in c1 ==> c1[n] == c2[n])
  }

  /** Two contexts that bind the tree's identifiers alike give the same
      outcome: bindings the tree does not name are never consulted. */
  lemma AgreeOnSmaller(c1: Context, c2: Context, small: set<Leaf>, large: set<Leaf>)
    requires small <= large && AgreeOn(c1, c2, large)
    ensures AgreeOn(c1, c2, small)
  {
  }

  lemma {:induction false} EvalLocal(e: Expr, c1: Context, c2: Context)
    requires AgreeOn(c1, c2, Leaves(e))
    ensures Eval(e, c1) == Eval(e, c2)
    decreases e, 1, 0
  {
    match e
    case Lit(_) =>
    case Name(_) =>
    case Unary(_, x) =>
      EvalLocal(x, c1, c2);
    case Attribute(t, _) =>
      AgreeOnSmaller(c1, c2, Leaves(t), Leaves(e));
      EvalLocal(t, c1, c2);
    case ListLit(es) =>
      ListLocal(es, c1, c2);
    case DictLit(ks, vs) =>
      DictLocal(ks, vs, 0, [], c1, c2);
    case Other(_) =>
    case _ =>
      CompoundLocal(e, c1, c2);
  }

  /** The nodes with two or more children, split off to keep proofs small. */
  lemma {:induction false} CompoundLocal(e: Expr, c1: Context, c2: Context)
    requires e.Binary? || e.BoolOp? || e.Subscript? || e.Compare? || e.Call?
    requires AgreeOn(c1, c2, Leaves(e))
    ensures Eval(e, c1) == Eval(e, c2)
    decreases e, 0, 0
  {
    match e
    case Binary(_, l, r) =>
      AgreeOnSmaller(c1, c2, Leaves(l), Leaves(e));
      AgreeOnSmaller(c1, c2, Leaves(r), Leaves(e));
      EvalLocal(l, c1, c2);
      EvalLocal(r, c1, c2);
    case BoolOp(_, l, r) =>
      AgreeOnSmaller(c1, c2, Leaves(l), Leaves(e));
      AgreeOnSmaller(c1, c2, Leaves(r), Leaves(e));
      EvalLocal(l, c1, c2);
      EvalLocal(r, c1, c2);
    case Subscript(c, i) =>
      AgreeOnSmaller(c1, c2, Leaves(c), Leaves(e));
      AgreeOnSmaller(c1, c2, Leaves(i), Leaves(e));
      EvalLocal(c, c1, c2);
      EvalLocal(i, c1, c2);
    case Compare(h, ops, cs) =>
      AgreeOnSmaller(c1, c2, Leaves(h), Leaves(e));
      AgreeOnSmaller(c1, c2, ListLeaves(cs), Leaves(e));
      EvalLocal(h, c1, c2);
      var a := Eval(h, c1);
      if a.Ok? { ChainLocal(a.value, ops, cs, c1, c2); }
    case Call(f, args) =>
      AgreeOnSmaller(c1, c2, Leaves(f), Leaves(e));
      AgreeOnSmaller(c1, c2, ListLeaves(args), Leaves(e));
      EvalLocal(f, c1, c2);
      ListLocal(args, c1, c2);
  }

  lemma {:induction false} ListLocal(es: seq<Expr>, c1: Context, c2: Context)
    requires AgreeOn(c1, c2, ListLeaves(es))
    ensures EvalList(es, c1) == EvalList(es, c2)
    decreases es, 0, 0
  {
    if es != [] {
      AgreeOnSmaller(c1, c2, Leaves(es[0]), ListLeaves(es));
      AgreeOnSmaller(c1, c2, ListLeaves(es[1..]), ListLeaves(es));
      EvalLocal(es[0], c1, c2);
      ListLocal(es[1..], c1, c2);
    }
  }

  lemma {:induction false} ChainLocal(left: Value, ops: seq<CmpOp>, cs: seq<Expr>, c1: Context, c2: Context)
    requires AgreeOn(c1, c2, ListLeaves(cs))
    ensures EvalChain(left, ops, cs, c1) == EvalChain(left, ops, cs, c2)
    decreases cs, 0, 0
  {
    if ops != [] && cs != [] {
      AgreeOnSmaller(c1, c2, Leaves(cs[0]), ListLeaves(cs));
      AgreeOnSmaller(c1, c2, ListLeaves(cs[1..]), ListLeaves(cs));
      EvalLocal(cs[0], c1, c2);
      var right := Eval(cs[0], c1);
      if right.Ok? { ChainLocal(right.value, ops[1..], cs[1..], c1, c2); }
    }
  }

  lemma {:induction false} DictLocal(ks: seq<Expr>, vs: seq<Expr>, i: nat, acc: Entries, c1: Context, c2: Context)
    requires AgreeOn(c1, c2, ListLeaves(ks) + ListLeaves(vs))
    ensures EvalDict(ks, vs, i, acc, c1) == EvalDict(ks, vs, i, acc, c2)
    decreases DictLit(ks, vs), 0, |ks| - i
  {
    if i < |ks| && i < |vs| {
      ListLeavesCover(ks, i);
      ListLeavesCover(vs, i);
      AgreeOnSmaller(c1, c2, Leaves(ks[i]), ListLeaves(ks) + ListLeaves(vs));
      AgreeOnSmaller(c1, c2, Leaves(vs[i]), ListLeaves(ks) + ListLeaves(vs));
      EvalLocal(ks[i], c1, c2);
      EvalLocal(vs[i], c1, c2);
      var k := Eval(ks[i], c1);
      var v := Eval(vs[i], c1);
      if k.Ok? && v.Ok? && DictKey(k.value).Ok? {
        DictLocal(ks, vs, i + 1, Insert(acc, DictKey(k.value).value, v.value), c1, c2);
      }
    }
  }
}
