/** The whitelist registry: the only functions and types an expression can
    reach by name besides what the caller puts in the context. */
module Whitelist {
  import opened Values

  const SAFE_FUNCTIONS: map<string, Value> := map[
    "isinstance" := FuncV(Isinstance),
    "issubclass" := FuncV(Issubclass),
    "type" := TypeV(TypeT),
    "len" := FuncV(Len),
    "range" := TypeV(RangeT),
    "all" := FuncV(All),
    "any" := FuncV(Any),
    "min" := FuncV(Min),
    "max" := FuncV(Max),
    "sum" := FuncV(Sum),
    "enumerate" := FuncV(Enumerate),
    "filter" := FuncV(Filter),
    "map" := FuncV(MapFn),
    "sorted" := FuncV(Sorted),
    "reversed" := FuncV(Reversed),
    "zip" := FuncV(Zip),
    "list" := TypeV(ListT),
    "dict" := TypeV(DictT),
    "str" := TypeV(StrT),
    "int" := TypeV(IntT),
    "float" := TypeV(FloatT),
    "bool" := TypeV(BoolT)
  ]

  /** The names the whitelist is assumed to hold, and nothing else: the
      twenty names the tests use or require, plus `float` and `bool`. */
  const WHITELISTED_NAMES: set<string> := {
    "isinstance", "issubclass", "type", "len", "range", "all", "any", "min", "max", "sum",
    "enumerate", "filter", "map", "sorted", "reversed", "zip",
    "list", "dict", "str", "int", "float", "bool"
  }

  /** Names that give code loading, I/O or reflection in Python. */
  const CODE_LOADING_NAMES: set<string> := {"eval", "exec", "compile", "__import__"}
  const ATTRIBUTE_ACCESS_NAMES: set<string> := {"getattr", "setattr", "delattr"}
  const NAMESPACE_NAMES: set<string> := {"globals", "locals", "vars"}
  const IO_NAMES: set<string> := {"open", "input", "breakpoint"}
  const DANGEROUS_NAMES: set<string> :=
    CODE_LOADING_NAMES + ATTRIBUTE_ACCESS_NAMES + NAMESPACE_NAMES + IO_NAMES
}
