# safe_eval: a verified model of the restricted expression evaluator

The workflow engine decides whether an edge condition fires by calling
`safe_eval(expression, context)`. This evaluator walks an already-parsed
Python expression tree and returns a value or fails. The expression may
only reach three things:

- the caller's read-only context;
- the whitelist `SAFE_FUNCTIONS` of functions and types;
- the `get` member of a dictionary.

Three fail-closed checks guard it:

- **Name resolution.** A name is looked up in the context first, then in the whitelist, and raises NameError otherwise.
- **Attribute guard.** An attribute name beginning with `_` is rejected, whatever the target. This model runs the check before the target is evaluated (see "Left out").
- **Node-kind check.** Any node kind outside the supported set is rejected.

The implementation module (`framework/graph/safe_eval.py`) is not part of
this model. The behaviour follows the assertions of
`core/tests/test_safe_eval.py`. Where the tests are silent, Python's own
semantics for the supported operators fill the gap: floor division,
chained comparisons, membership and subscripts.

Modules, one per file:

| file | module | contents |
|---|---|---|
| results.dfy | `Results` | the `Result` type and the error taxonomy (NameError, private attribute, unsupported construct, data errors such as TypeError or KeyError) |
| values.dfy | `Values` | runtime values, type tags, truthiness, insertion-ordered dictionaries, Python `==` and ordering |
| ast.dfy | `Ast` | the expression tree and the identifiers, attribute names and node kinds it contains |
| operators.dfy | `Operators` | unary and binary operators, comparisons, `in`, subscripts |
| builtins.dfy | `Builtins` | the whitelisted functions and types when called, and `dict.get` |
| whitelist.dfy | `Whitelist` | the `SAFE_FUNCTIONS` table and the names that must never be in it |
| evaluator.dfy | `Evaluator` | the name resolver, the attribute guard and the tree evaluator `Eval` |
| security.dfy | `Security` | the fail-closed guarantees, for every tree and every context |
| semantics.dfy | `Semantics` | what each supported construct and builtin evaluates to, for every context |
| invariants.dfy | `Invariants` | the well-formedness invariant every evaluation keeps |
| scenarios.dfy | `Scenarios` | the tested assertions: those about expressions as lemmas about `Eval`, the whitelist ones as lemmas about `SAFE_FUNCTIONS`; true division is left out |

`Eval` is a total recursive function. Its own contract says only that a
comparison yields a boolean. Everything else it promises is stated in
`Security`, `Semantics`, `Invariants` and `Scenarios`.

One catch-all error, `Unmodelled(what)`, marks operations Python performs
that this model does not describe, such as floats or the bodies of `map`
and `filter`. It is a data failure, never a security rejection, and no
tested expression reaches it.

The private-attribute failure is a ValueError whose message contains
"private attribute" (`core/tests/test_safe_eval.py:122`). The model keeps
it as its own error kind, `PrivateAttrErr`.

Every value the evaluator returns keeps the model's representation
invariant: when the caller's dictionaries have distinct keys, so do the
returned ones (`invariants.dfy`).

## Model

| member | source | states |
|---|---|---|
| Values.TruthyMeans | core/tests/test_safe_eval.py:31-35 | a value is falsy exactly when it is None, a number equal to zero, or an empty string, list, dictionary or range |
| Values.PyEqReflexive | core/tests/test_safe_eval.py:27 | `==` is reflexive on every value whose dictionaries have distinct keys |
| Values.PyEqSameKind | core/tests/test_safe_eval.py:24-29 | values of different types are never `==`, except a bool and an int (`True == 1`) |
| Values.StrCmpIsLexicographic | core/tests/test_safe_eval.py:24-29 | the string comparison is below zero exactly when the first string is a proper prefix of the second or has the smaller character where they first differ |
| Values.StrCmpFlip | core/tests/test_safe_eval.py:24-29 | swapping two strings flips their comparison |
| Values.TypesEqualWhenSame | core/tests/test_safe_eval.py:62-67 | two type objects are `==` exactly when they are the same type |
| Values.Order | core/tests/test_safe_eval.py:24-29 | the ordering behind `<`, `<=`, `>`, `>=` fails only with a data error (TypeError for unorderable operands), never a security rejection |
| Values.ListOrder | core/tests/test_safe_eval.py:24-29 | list ordering fails only with a data error |
| Operators.EvalUnary | core/tests/test_safe_eval.py:35 | `not` and unary minus fail only with a data error |
| Operators.EvalBinary | core/tests/test_safe_eval.py:17-21 | arithmetic and concatenation fail only with a data error (TypeError, ZeroDivisionError) |
| Operators.Contains | core/tests/test_safe_eval.py:102-107 | `in` fails only with a data error |
| Operators.EvalCompare | core/tests/test_safe_eval.py:24-29 | a single comparison fails only with a data error |
| Operators.NumericComparison | core/tests/test_safe_eval.py:24-29 | on numbers, `== != < <= > >=` are the integer relations, with booleans as 0 and 1 |
| Operators.StringComparison | core/tests/test_safe_eval.py:24-29 | strings are `==` exactly when equal; `<` and `>` are lexicographic order by code point, `<=` and `>=` add equality, and `<`, `<=`, `>`, `>=` between a string and any number, in either order, raise TypeError |
| Builtins.Iterate | core/tests/test_safe_eval.py:80-90 | iterating over a value succeeds exactly when `len` does and yields as many elements as `len` counts: a list yields its items, a string its one-character strings, a dictionary its keys in order, `range(a, b)` the numbers a, a + 1, ...; anything else fails with a data error |
| Builtins.ApplyBuiltin | core/tests/test_safe_eval.py:43-90 | calling a whitelisted function fails only with a data error, and returns a well-formed value for well-formed arguments |
| Builtins.TypeOfWhitelistedFunction | core/tests/test_safe_eval.py:152-160 | `enumerate`, `filter`, `map`, `reversed` and `zip` are classes: `type` of one is `type` and `isinstance(f, type)` is True; for the other functions `type` gives the builtin-function type and `isinstance(f, type)` is False |
| Builtins.Length | core/tests/test_safe_eval.py:69-73 | `len` fails only with a data error (TypeError on a value without a length) |
| Builtins.MinFrom | core/tests/test_safe_eval.py:88 | the left-to-right scan that `min` performs returns one of the scanned numbers |
| Builtins.MaxFrom | core/tests/test_safe_eval.py:89 | the scan that `max` performs returns one of the scanned numbers |
| Builtins.Extremum | core/tests/test_safe_eval.py:86-89 | `min`/`max` fail only with a data error (ValueError on an empty sequence) |
| Builtins.Summation | core/tests/test_safe_eval.py:90 | `sum` fails only with a data error |
| Builtins.IsinstanceCall | core/tests/test_safe_eval.py:46-52 | `isinstance` fails only with a data error |
| Builtins.Construct | core/tests/test_safe_eval.py:62-78 | calling `type`, `range`, `list` and the other type names fails only with a data error, and returns a well-formed value for well-formed arguments |
| Builtins.DictGet | core/tests/test_safe_eval.py:96-114 | `d.get` fails only with a data error (TypeError for an unhashable key or a wrong argument count), and returns a well-formed value from a well-formed dictionary |
| Builtins.Apply | core/tests/test_safe_eval.py:43-90 | calling a whitelisted value or a bound member fails only with a data error, and returns a well-formed value for well-formed callee and arguments |
| Builtins.AllTruthyMeans | core/tests/test_safe_eval.py:82-83 | the fold behind `all` is true exactly when every element is truthy |
| Builtins.AnyTruthyMeans | core/tests/test_safe_eval.py:84 | the fold behind `any` is true exactly when some element is truthy |
| Builtins.MinFromIsFirstMinimum | core/tests/test_safe_eval.py:88 | the `min` scan returns the element at some position k: nothing is smaller, and every element before k is strictly larger (ties go to the first) |
| Builtins.MaxFromIsFirstMaximum | core/tests/test_safe_eval.py:89 | the `max` scan returns the first greatest element |
| Builtins.SumOfConcat | core/tests/test_safe_eval.py:90 | the sum over a concatenation is the sum of the parts' sums |
| Builtins.IsinstanceOfType | core/tests/test_safe_eval.py:46-52 | `isinstance(v, T)` is true exactly when v's type is T, or T is int and v is a bool |
| Builtins.TypeOfValue | core/tests/test_safe_eval.py:62-67 | `type(v)` is v's type tag |
| Builtins.ListOfRange | core/tests/test_safe_eval.py:75-78 | `range(n)` is the range from 0 to n, `range(a, b)` is the range from a to b, and `list` of a range holds its elements |
| Builtins.MinOfList | core/tests/test_safe_eval.py:88 | `min` of a list of numbers raises ValueError when the list is empty, and otherwise returns its first least element |
| Builtins.MaxOfList | core/tests/test_safe_eval.py:89 | `max` of a list of numbers raises ValueError when the list is empty, and otherwise returns its first greatest element |
| Builtins.SumOfList | core/tests/test_safe_eval.py:90 | `sum` of a list of numbers is the sum of their values, 0 for the empty list |
| Evaluator.Eval | core/tests/test_safe_eval.py:17-140 | `safe_eval(expression, context)`: a comparison that evaluates yields a boolean; what each construct returns is stated by the Security, Semantics, Invariants and Scenarios lemmas |
| Evaluator.Resolve | core/tests/test_safe_eval.py:37-40 | a name the context binds resolves to its binding, so the context shadows the whitelist; resolution fails only with a NameError naming the identifier |
| Evaluator.IsPrivate | core/tests/test_safe_eval.py:120-128 | the guard rejects exactly the names that start with `_` |
| Evaluator.EvalList | core/tests/test_safe_eval.py:80-90 | arguments and list elements are evaluated left to right: on success element i is the value of expression i; on failure the error is that of the first expression that fails |
| Evaluator.EvalChain | core/tests/test_safe_eval.py:24-29 | a comparison chain that evaluates yields a boolean |
| Evaluator.GetMember | core/tests/test_safe_eval.py:54-58 | member lookup on a non-private name fails only with a data error (AttributeError), not a security rejection |
| Security.WhitelistEntriesAreFunctionsOrTypes | core/tests/test_safe_eval.py:143-160 | every whitelist entry is a builtin function or a type |
| Security.WhitelistExactContents | core/tests/test_safe_eval.py:143-160 | the model's whitelist holds exactly its 22 assumed names, which include the ten that lines 143-160 require |
| Security.NoCodeLoading | core/tests/test_safe_eval.py:135-140 | `eval`, `exec`, `compile` and `__import__` are not in the whitelist |
| Security.NoAttributeAccess | core/tests/test_safe_eval.py:135-136 | `getattr`, `setattr` and `delattr` are not in the model's assumed whitelist |
| Security.NoNamespaces | core/tests/test_safe_eval.py:135-136 | `globals`, `locals` and `vars` are not in the model's assumed whitelist |
| Security.NoIo | core/tests/test_safe_eval.py:135-136 | `open`, `input` and `breakpoint` are not in the model's assumed whitelist |
| Security.WhitelistExcludesDangerous | core/tests/test_safe_eval.py:135-140 | no code-loading, reflective, namespace or I/O name is in the whitelist |
| Security.ResolutionOrder | core/tests/test_safe_eval.py:37-40 | a name evaluates to its context binding if any, else to its whitelist entry, else raises NameError naming it |
| Security.UnboundNameRejected | core/tests/test_safe_eval.py:130-133 | a name bound in neither place raises NameError, as a variable and as a callee, whatever the arguments |
| Security.DangerousCallsRejected | core/tests/test_safe_eval.py:135-140 | calling `eval`, `exec` or any other dangerous name the context does not bind raises NameError |
| Security.PrivateAttributeRejected | core/tests/test_safe_eval.py:120-128 | for every target and every name starting with `_`, the attribute access and any call of it raise the private-attribute error |
| Security.UnsupportedRejected | core/tests/test_safe_eval.py:117-118 | a node kind outside the supported set is rejected |
| Security.EvalAttributed | core/tests/test_safe_eval.py:117-140 | every security error names its cause in the tree: an identifier of the tree bound nowhere, a private attribute name of the tree, or an unsupported node kind of the tree |
| Security.SecurityErrorsNeedCause | core/tests/test_safe_eval.py:117-140 | a tree whose names are all bound, whose attributes are all public and whose nodes are all supported never raises that kind of security error |
| Security.EvalLocal | core/tests/test_safe_eval.py:37-40 | two contexts that bind the tree's identifiers alike give the same result: nothing else in the context is consulted |
| Semantics.IntArithmetic | core/tests/test_safe_eval.py:17-21 | on numbers, `+ - *` are integer addition, subtraction and multiplication |
| Semantics.ChainIsConjunction | core/tests/test_safe_eval.py:24-29 | `a op1 b op2 c ...` is true exactly when every adjacent pair holds |
| Semantics.ChainShortCircuit | core/tests/test_safe_eval.py:24-29 | the first pair that does not hold makes the chain false, and later operands are not evaluated |
| Semantics.NotNegates | core/tests/test_safe_eval.py:35 | `not x` is the negated truthiness of x |
| Semantics.DictMembership | core/tests/test_safe_eval.py:102-107 | `k in d` is true exactly when some entry of d has key k, and `not in` is its negation |
| Semantics.HasKeyMeans | core/tests/test_safe_eval.py:102-107 | key presence means some entry carries the key |
| Semantics.LookupOrMeans | core/tests/test_safe_eval.py:109-114 | with distinct keys, the lookup behind `get` returns the stored value, or the default when the key is absent |
| Semantics.DictGetCall | core/tests/test_safe_eval.py:96-114 | `d.get(k)` and `d.get(k, default)` are the lookup of k, with None as the default when it is omitted |
| Semantics.ShortCircuit | core/tests/test_safe_eval.py:31-34 | `A and B` is a falsy A, else B; `A or B` is a truthy A, else B |
| Semantics.ShortCircuitIgnoresFailure | core/tests/test_safe_eval.py:54-60 | when the left operand decides, a right operand that would fail does not make the expression fail |
| Semantics.TypeNamesResolve | core/tests/test_safe_eval.py:146-150 | each whitelisted type name maps to its type |
| Semantics.FunctionNamesResolve | core/tests/test_safe_eval.py:148 | `isinstance`, `len`, `all`, `any`, `min`, `max`, `sum` map to those builtins |
| Semantics.TypeNameEvaluates | core/tests/test_safe_eval.py:46-52 | an unshadowed type name evaluates to its type |
| Semantics.IsinstanceCallMeans | core/tests/test_safe_eval.py:46-52 | `isinstance(e, T)` never fails and is true exactly when e's type is T or T is int and e is a bool |
| Semantics.TypeEqualsMeans | core/tests/test_safe_eval.py:62-67 | `type(e) == T` is true exactly when e's type is T |
| Semantics.IsDictCheckMeans | core/tests/test_safe_eval.py:59-60 | `isinstance(x, dict)` is true exactly when x is bound to a dictionary |
| Semantics.GuardedGetNeverFails | core/tests/test_safe_eval.py:54-60 | `isinstance(x, dict) and x.get(k)` never fails: it is the lookup of k for a dictionary and False for anything else |
| Semantics.GuardedMembershipMeans | core/tests/test_safe_eval.py:102-107 | `isinstance(x, dict) and k in x` is true exactly for a dictionary with key k, and False otherwise |
| Semantics.CounterBelowMeans | core/tests/test_safe_eval.py:109-114 | `x.get(k, d) < n` compares the stored number, or d when k is absent, with n |
| Semantics.EqualsTrueMeans | core/tests/test_safe_eval.py:96-100 | `x.get(k) == True` is true exactly when k is present with a value numerically equal to 1 |
| Semantics.LenCounts | core/tests/test_safe_eval.py:69-73 | `len` is the number of list elements, string characters or dictionary entries, and raises TypeError on numbers and None |
| Semantics.ListRangeOne | core/tests/test_safe_eval.py:77 | `list(range(n))` is 0, 1, ..., n - 1, and empty when n <= 0 |
| Semantics.ListRangeTwo | core/tests/test_safe_eval.py:78 | `list(range(a, b))` is a, a + 1, ..., b - 1, and empty when b <= a |
| Semantics.AllAnyMeans | core/tests/test_safe_eval.py:80-84 | `all(xs)` is true when every element is truthy, and `any(xs)` when some element is |
| Semantics.MinMaxMeans | core/tests/test_safe_eval.py:86-89 | `min`/`max` of a list of numbers return its first least / greatest element, and raise ValueError when it is empty |
| Invariants.EvalWellFormed | core/tests/test_safe_eval.py:37-114 | over a context whose dictionaries have distinct keys, every value the evaluator returns has distinct-key dictionaries too |
| Invariants.ListWellFormed | core/tests/test_safe_eval.py:80-90 | the evaluated elements of a list or an argument list are well formed |
| Semantics.SumMeans | core/tests/test_safe_eval.py:90 | `sum(xs)` is the sum of the numbers of xs |
| Scenarios.OnePlusTwo | core/tests/test_safe_eval.py:19 | `1 + 2` is 3 |
| Scenarios.TenMinusFive | core/tests/test_safe_eval.py:20 | `10 - 5` is 5 |
| Scenarios.ThreeTimesFour | core/tests/test_safe_eval.py:21 | `3 * 4` is 12 |
| Scenarios.ComparisonOperators | core/tests/test_safe_eval.py:26-29 | `5 > 3`, `2 == 2`, `3 != 4` and `1 < 2` are True |
| Scenarios.BooleanOperators | core/tests/test_safe_eval.py:33-35 | `True and True`, `True or False` and `not False` are True |
| Scenarios.ContextVariables | core/tests/test_safe_eval.py:39-40 | with x = 10 and y = 5, `x + y` is 15 and `x > y` is True |
| Scenarios.IsinstanceBasic | core/tests/test_safe_eval.py:48-52 | the five `isinstance` assertions |
| Scenarios.IsinstanceWithDictGet | core/tests/test_safe_eval.py:56-60 | the guarded `get` gives True and False, and the guard alone is False on a list |
| Scenarios.TypeFunction | core/tests/test_safe_eval.py:65-67 | `type(x) == dict`, `list` and `str` are True for matching values |
| Scenarios.LenOfList | core/tests/test_safe_eval.py:71 | `len(x)` with x bound to `[1, 2, 3]` is 3 |
| Scenarios.LenOfString | core/tests/test_safe_eval.py:72 | `len(x)` with x bound to `"hello"` is 5 |
| Scenarios.LenPositive | core/tests/test_safe_eval.py:73 | `len(x) > 0` is True for `[1]` |
| Scenarios.ListOfRangeStop | core/tests/test_safe_eval.py:77 | `list(range(3))` is `[0, 1, 2]` |
| Scenarios.ListOfRangeStartStop | core/tests/test_safe_eval.py:78 | `list(range(1, 4))` is `[1, 2, 3]` |
| Scenarios.AllTrue | core/tests/test_safe_eval.py:82 | `all([True, True, True])` is True |
| Scenarios.AllWithOneFalse | core/tests/test_safe_eval.py:83 | `all([True, False, True])` is False |
| Scenarios.AnyWithOneTrue | core/tests/test_safe_eval.py:84 | `any([False, True, False])` is True |
| Scenarios.MinOfThree | core/tests/test_safe_eval.py:88 | `min([3, 1, 2])` is 1 |
| Scenarios.MaxOfThree | core/tests/test_safe_eval.py:89 | `max([3, 1, 2])` is 3 |
| Scenarios.SumOfThree | core/tests/test_safe_eval.py:90 | `sum([1, 2, 3])` is 6 |
| Scenarios.OutputSuccessPattern | core/tests/test_safe_eval.py:98-100 | `output.get('success') == True` is True and then False |
| Scenarios.ResultValidationPattern | core/tests/test_safe_eval.py:104-107 | `isinstance(result, dict) and 'data' in result` is True, False, False on the three contexts |
| Scenarios.MemoryCheckPattern | core/tests/test_safe_eval.py:111-114 | `memory.get('step_count', 0) < 10` is True, False, True on the three contexts |
| Scenarios.PrivateAttrBlocked | core/tests/test_safe_eval.py:122-128 | `x.__class__` and `x.__dict__` raise the private-attribute error |
| Scenarios.UndefinedNameRaisesError | core/tests/test_safe_eval.py:132-133 | `undefined_var` raises NameError |
| Scenarios.UnsafeFunctionNotAvailable | core/tests/test_safe_eval.py:137-140 | `eval('1+1')` and `exec('x=1')` raise NameError |
| Scenarios.TypeCheckingFunctionsPresent | core/tests/test_safe_eval.py:148-150 | `isinstance`, `issubclass` and `type` are whitelisted |
| Scenarios.IterationFunctionsPresent | core/tests/test_safe_eval.py:154-160 | `enumerate`, `filter`, `map`, `range`, `sorted`, `reversed` and `zip` are whitelisted |

## Left out

- Parsing. Python's parser turns the expression text into a tree, and that parser is not part of this model. `Eval` starts from an `Ast.Expr`, so parse errors and statement-level input are not modelled.
- True division. `10 / 2 == 5.0` (core/tests/test_safe_eval.py:22) produces a float, and floats are not modelled. `/` has no `BinOp`: an expression `a / b` enters as an `Other` node and is rejected with `UnsupportedErr`, and a float operand cannot arise. `float` is whitelisted as a type but cannot be called.
- `enumerate`, `filter`, `map`, `sorted`, `reversed`, `zip` and `issubclass`. Only their presence is tested. The model knows which of them are classes (`enumerate`, `filter`, `map`, `reversed`, `zip`), so `type` and `isinstance(f, type)` answer as Python does. Calling any of them gives `Unmodelled`, and so does passing one of the classes as the second argument of `isinstance`.
- Member lookup is limited to `get` on a dictionary. Any other public attribute raises AttributeError, where Python would look it up on the runtime object. Bound `get` methods compare by the receiver's value, which differs from Python: with x = {} and y = {}, `x.get == y.get` is True here, where Python compares the receivers by identity and gives False. A bound `get` has the type of the builtin functions, so `type(x.get) == type(len)` is True, as in Python (Builtins.TypeOfBoundMethod).
- Dictionary keys are strings only. A dictionary display with a key of another hashable type gives `Unmodelled`. Dictionaries are insertion-ordered entry lists.
- Tuple and set displays. The evaluator builds them as collection literals. This model has no node or value for them: they enter as `Other(kind)` and fail with `UnsupportedErr`, where the evaluator would return a value. So `(1, 2)` and `isinstance(x, (dict, list))` are rejected here.
- Slices, keyword arguments, `is`/`is not`, conditional expressions and comprehensions also have no node. They enter as `Other(kind)` and are rejected with `UnsupportedErr`.
- Order of the attribute guard. The model rejects an underscore attribute before it evaluates the target, so `undefined.__class__` gives `PrivateAttrErr`. An evaluator that evaluates the target first gives NameError there. The tests always bind the target (core/tests/test_safe_eval.py:122-128), so they do not fix the order. Security.PrivateAttributeRejected, which holds whatever the target expression, depends on this choice.
- Subscripts, `//`, `%`, `**` and unary minus follow Python's semantics, and no test exercises them. Operators.EvalSubscript, Operators.FloorModInt, Semantics.IntDivision and Semantics.FloorDivIsFloor model the first three; Semantics.IntPower, Operators.PowerAdd and Semantics.Negation state `**` and unary minus. None has a row in the table, because no source line states them.
- Dictionary displays. No test builds one: the tested dictionaries come in through the context and are only read (core/tests/test_safe_eval.py:96-114). Evaluator.EvalDict, Values.Insert, Invariants.DictWellFormed and Invariants.InsertWellFormed model them without a row. Values.Insert states how one pair is stored (an existing key keeps its position and takes the new value, a new key goes last); no lemma states the entries a whole display yields.
- The exact contents of SAFE_FUNCTIONS are assumed. The tests fix only a lower bound: lines 143-160 require `isinstance`, `issubclass`, `type`, `enumerate`, `filter`, `map`, `range`, `sorted`, `reversed` and `zip`, and lines 43-90 use `dict`, `list`, `str`, `int`, `len`, `all`, `any`, `min`, `max` and `sum`; lines 135-140 require only that `eval` and `exec` are absent. The `float` and `bool` entries, and the absence of every other name, are this model's choice of constant. Security.WhitelistExactContents, Security.NoCodeLoading (beyond `eval` and `exec`), Security.NoAttributeAccess, Security.NoNamespaces, Security.NoIo and Security.WhitelistExcludesDangerous hold for that assumed constant.
- Among the inputs that give `Unmodelled` (the list is not exhaustive): `range` with a step, `int` of a string (with or without a base), `str` of a non-string, `dict` from pairs or keywords, class creation through `type`, calling `float` or a type such as `type(None)`, subscripting a type (generic aliases such as `list[int]`), `sum` with a non-numeric start, `%` string formatting and `x ** -n` for a non-zero x (a float in Python).
- Builtins.Extremum: `min`/`max` over non-numbers (strings, lists) give `Unmodelled` instead of Python's ordering of them.
- `a and b and c` is modelled as nested binary `BoolOp`s, which has the same value and the same short-circuit behaviour as Python's flat operand list.
- An empty comparison chain (no operators) evaluates to True. A chain whose operator and operand lists differ in length is evaluated up to the shorter one, and the extra entries are ignored. Python's parser builds neither.
- Recursion-depth and size limits on the tree, and the workflow engine that calls the evaluator, are outside this model.
- Values.Order: its own contract only excludes security errors. For numbers, Operators.NumericComparison states the order. For strings, Operators.StringComparison states it, with Values.StrCmpIsLexicographic and Values.StrCmpFlip. No lemma states that it is a total order.
- Values.ListOrder: its own contract only excludes security errors. No lemma covers lexicographic list ordering, because it is not tested.
- Operators.EvalUnary: its own contract only excludes security errors. `not` is stated by Semantics.NotNegates and unary minus by Semantics.Negation.
- Operators.EvalBinary: its own contract only excludes security errors. On numbers, `+ - *` are stated by Semantics.IntArithmetic, `//` and `%` by Semantics.IntDivision, and `**` by Semantics.IntPower. Concatenation and repetition of strings and lists carry no lemma.
- Operators.Contains: its own contract only excludes security errors. Dictionary membership is stated by Semantics.DictMembership. List, string and range membership carry no lemma.
- Operators.EvalCompare: its own contract only excludes security errors. Its meaning is stated by Operators.NumericComparison, Operators.StringComparison and Semantics.DictMembership, and chains by Semantics.ChainIsConjunction.
- Operators.EvalSubscript: its own contract only excludes security errors and keeps values well formed. No lemma states what indexing returns, because subscripts are not tested.
- Builtins.Length, Builtins.Extremum, Builtins.Summation, Builtins.IsinstanceCall, Builtins.Construct, Builtins.DictGet, Builtins.Apply, Builtins.ApplyBuiltin, Evaluator.GetMember: their own contracts only exclude security errors, and some of them add well-formedness. Their results are stated by the `Builtins` list lemmas and the `Semantics` lemmas named in the table.
- Builtins.MinFrom and Builtins.MaxFrom: their own contracts say only that the result is one of the inputs. Minimality and first position are stated by Builtins.MinFromIsFirstMinimum and Builtins.MaxFromIsFirstMaximum.
- Evaluator.Eval: its own contract says only that a comparison yields a boolean. Its results are stated by the lemmas in `Security`, `Semantics`, `Invariants` and `Scenarios`.
- Evaluator.EvalChain: its own contract says only that the result is a boolean. Which boolean is stated by Semantics.ChainIsConjunction and Semantics.ChainShortCircuit.
- Evaluator.Resolve: its own contract does not say that an unbound name falls back to the whitelist. Security.ResolutionOrder states the full order.
