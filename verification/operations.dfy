/**
 The operation registry of Calculator/MathEvaluator.swift: named
 constants, one-operand functions and two-operand functions over an
 abstract value type `V` (the source uses `Double`). The numeric
 primitives themselves are foreign and arrive as a `Library`.
 */
module Operations {

  /** An entry of the registry; the arity is a function of the tag. */
  datatype Operation<!V> =
    | Constant(value: V)
    | Unary(fn: V -> V)
    | Binary(op: (V, V) -> V)
  {
    /** `numberOfOperands` */
    function Arity(): nat {
      match this
      case Binary(_) => 2
      case Unary(_) => 1
      case Constant(_) => 0
    }
  }

  type Registry<!V> = map<string, Operation<V>>

  /** The floating-point primitives the built-in table binds to. */
  datatype Library<!V> = Library(
    pi: V, e: V,
    add: (V, V) -> V, sub: (V, V) -> V, mul: (V, V) -> V, div: (V, V) -> V,
    pow: (V, V) -> V,
    sin: V -> V, cos: V -> V, log2: V -> V, ln: V -> V, log10: V -> V,
    tan: V -> V, abs: V -> V, sqrt: V -> V)

  /** Names the built-in table binds to two-operand functions. */
  const BinaryNames: set<string> := {"+", "-", "*", "/", "^"}

  /** Names the built-in table binds to one-operand functions. */
  const UnaryNames: set<string> := {"sin", "cos", "log2", "ln", "log10", "tan", "abs", "√"}

  /** The initial table. The operator closures take `($0, $1)` and compute
      `$1 op $0`; `^` is bound to `pow` itself, so it computes `pow($0, $1)`. */
  function Builtins<V>(lib: Library<V>): Registry<V> {
    map[
      "π" := Constant(lib.pi),
      "e" := Constant(lib.e),
      "+" := Binary((x: V, y: V) => lib.add(y, x)),
      "-" := Binary((x: V, y: V) => lib.sub(y, x)),
      "*" := Binary((x: V, y: V) => lib.mul(y, x)),
      "/" := Binary((x: V, y: V) => lib.div(y, x)),
      "^" := Binary(lib.pow),
      "sin" := Unary(lib.sin),
      "cos" := Unary(lib.cos),
      "log2" := Unary(lib.log2),
      "ln" := Unary(lib.ln),
      "log10" := Unary(lib.log10),
      "tan" := Unary(lib.tan),
      "abs" := Unary(lib.abs),
      "√" := Unary(lib.sqrt)
    ]
  }

  /** The table with `^` bound so that it follows the same operand
      convention as the other operators: `pow($1, $0)`. */
  function BuiltinsCorrected<V>(lib: Library<V>): Registry<V> {
    Builtins(lib)["^" := Binary((x: V, y: V) => lib.pow(y, x))]
  }

  /** `addConstant(name:value:)`: insert or overwrite with a constant. */
  function AddConstant<V>(reg: Registry<V>, name: string, v: V): (r: Registry<V>)
    ensures name in r && r[name] == Constant(v)
    ensures r.Keys == reg.Keys + {name}
    ensures forall n | n in reg && n != name :: r[n] == reg[n]
  {
    reg[name := Constant(v)]
  }

  /** `getOperationsList()`: the registered names; their order in the
      source is the dictionary's and is not part of the model. */
  function Names<V>(reg: Registry<V>): set<string> {
    reg.Keys
  }

  /** `operations[x]?.numberOfOperands == n` */
  predicate HasArity<V>(reg: Registry<V>, x: string, n: nat) {
    x in reg && reg[x].Arity() == n
  }

  predicate IsConstant<V>(reg: Registry<V>, x: string) {
    HasArity(reg, x, 0)
  }

  predicate IsUnary<V>(reg: Registry<V>, x: string) {
    HasArity(reg, x, 1)
  }

  predicate IsBinary<V>(reg: Registry<V>, x: string) {
    HasArity(reg, x, 2)
  }

  /** The shape every registry of the program has: only constants can be
      added, so functions and operators are exactly built-in names that
      have not been shadowed by a constant. */
  predicate WellFormed<V>(reg: Registry<V>) {
    forall x | x in reg ::
      (reg[x].Unary? ==> x in UnaryNames) && (reg[x].Binary? ==> x in BinaryNames)
  }

  lemma BuiltinsWellFormed<V>(lib: Library<V>)
    ensures WellFormed(Builtins(lib))
    ensures WellFormed(BuiltinsCorrected(lib))
  {
  }

  /** The parentheses are not registered names of the built-in table. */
  lemma ParensNotBuiltin<V>(lib: Library<V>)
    ensures "(" !in Builtins(lib) && ")" !in Builtins(lib)
    ensures "(" !in BuiltinsCorrected(lib) && ")" !in BuiltinsCorrected(lib)
  {
  }

  /** Adding a constant keeps a registry well formed, so every registry
      reachable from the built-in table is well formed. */
  lemma AddConstantPreservesWellFormed<V>(reg: Registry<V>, name: string, v: V)
    requires WellFormed(reg)
    ensures WellFormed(AddConstant(reg, name, v))
  {
  }

  /** `getPriorityLevel(operatorSymbol:)` */
  function Priority<V>(reg: Registry<V>, x: string): (p: int)
    ensures 0 <= p <= 3
  {
    if x == "^" || IsUnary(reg, x) then 3
    else if x == "*" || x == "/" then 2
    else if x == "+" || x == "-" then 1
    else 0
  }

  /** Stand-in the source passes to the priority function when the
      operator stack is empty (`operators.peek() ?? "empty"`). */
  const EmptyMarker := "empty"

  /** In a well-formed registry: every operator ranks at least 1, every
      function and `^` rank 3, `*` `/` rank 2, `+` `-` rank 1, and the
      parenthesis and the empty-stack stand-in rank 0. */
  lemma PriorityLevels<V>(reg: Registry<V>, x: string)
    requires WellFormed(reg)
    ensures IsBinary(reg, x) ==> Priority(reg, x) >= 1
    ensures IsUnary(reg, x) || x == "^" ==> Priority(reg, x) == 3
    ensures x == "*" || x == "/" ==> Priority(reg, x) == 2
    ensures x == "+" || x == "-" ==> Priority(reg, x) == 1
    ensures Priority(reg, "(") == 0 && Priority(reg, EmptyMarker) == 0
  {
    assert !IsUnary(reg, "(") && !IsUnary(reg, EmptyMarker) by {
      assert "(" !in UnaryNames && EmptyMarker !in UnaryNames;
    }
    if IsBinary(reg, x) {
      assert x in BinaryNames;
    }
    if x == "*" || x == "/" || x == "+" || x == "-" {
      assert x !in UnaryNames;
    }
  }
}
