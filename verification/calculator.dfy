/**
 `CalculatorModel` of Calculator/CalculatorModel.swift: the expression
 text the keypad edits and the evaluator that computes it. The
 regular-expression tokenizer is not modelled; `Compute` and `Result`
 take it as a parameter.
 */
module Calculator {
  import opened Wrappers
  import opened Operations
  import opened Rewrite
  import opened Categories
  import opened Grammar
  import opened Shunting
  import opened Evaluator
  import opened Semantics

  datatype Calculator<!V> = Calculator(expression: string, evaluator: Evaluator<V>)

  /** The text shown when the expression cannot be evaluated. */
  const ErrorText := "Error"

  /** A fresh model (lines 13-15): empty expression, evaluator as `init`
      builds it. */
  function NewCalculator<V>(lib: Library<V>): (c: Calculator<V>)
    ensures c.expression == "" && Ready(c.evaluator)
    ensures c.evaluator.operations == Builtins(lib) && c.evaluator.grouping == AsWritten
  {
    Calculator("", NewEvaluatorAsWritten(lib))
  }

  /** The same model over the evaluator with `^` and grouping corrected. */
  function NewCalculatorCorrected<V>(lib: Library<V>): (c: Calculator<V>)
    ensures c.expression == "" && Ready(c.evaluator)
    ensures c.evaluator.operations == BuiltinsCorrected(lib) && c.evaluator.grouping == LeftToRight
  {
    Calculator("", NewEvaluator(lib))
  }

  /** `addToExpression(symbol:)` */
  function AddToExpression<V>(c: Calculator<V>, symbol: string): (r: Calculator<V>)
    ensures |r.expression| == |c.expression| + |symbol|
    ensures r.expression[..|c.expression|] == c.expression && r.expression[|c.expression|..] == symbol
    ensures r.evaluator == c.evaluator
  {
    c.(expression := c.expression + symbol)
  }

  /** `clearExpression()` */
  function ClearExpression<V>(c: Calculator<V>): (r: Calculator<V>)
    ensures |r.expression| == 0 && r.evaluator == c.evaluator
  {
    c.(expression := "")
  }

  /** `addConstant(name:value:)`: forwarded to the evaluator. */
  function CalcAddConstant<V>(c: Calculator<V>, name: string, v: V): (r: Calculator<V>)
    ensures r.expression == c.expression
    ensures Names(r.evaluator.operations) == Names(c.evaluator.operations) + {name}
    ensures r.evaluator.operations[name] == Constant(v)
    ensures forall n | n in c.evaluator.operations && n != name ::
              r.evaluator.operations[n] == c.evaluator.operations[n]
    ensures r.evaluator.pda == c.evaluator.pda && r.evaluator.grouping == c.evaluator.grouping
  {
    c.(evaluator := EvAddConstant(c.evaluator, name, v))
  }

  /** `getOperationsList()`: every registered name. */
  function OperationsList<V>(c: Calculator<V>): set<string> {
    Names(c.evaluator.operations)
  }

  /** `deleteSymbol()`: drop the last character, if any. */
  function DeleteSymbol<V>(c: Calculator<V>): (r: Calculator<V>)
    ensures |c.expression| > 0 ==> r.expression == c.expression[..|c.expression| - 1]
    ensures |c.expression| == 0 ==> r.expression == c.expression
    ensures r.evaluator == c.evaluator
  {
    if |c.expression| > 0 then c.(expression := c.expression[..|c.expression| - 1]) else c
  }

  /** `expressionLength()` */
  function ExpressionLength<V>(c: Calculator<V>): nat {
    |c.expression|
  }

  /** Whether the automaton accepts the expression's tokens. */
  predicate Accepted<V>(c: Calculator<V>, tokenize: string -> seq<string>)
    requires Ready(c.evaluator)
  {
    CalcRun(Q0, 0, PdaWord(c.evaluator.operations, tokenize(c.expression))) == Some((Q1, 0))
  }

  /** `compute()`: the evaluated value as text; `"0"` for an empty
      expression that does not evaluate; otherwise nothing. It answers
      exactly when the expression is empty or accepted, and the answer
      is always a numeral. */
  function Compute<V>(c: Calculator<V>, lits: Literals<V>, tokenize: string -> seq<string>): (r: Option<string>)
    requires Ready(c.evaluator)
    ensures r.Some? <==> c.expression == "" || Accepted(c, tokenize)
    ensures r.Some? ==> IsNumber(r.value)
  {
    match Eval(c.evaluator, lits, tokenize(c.expression))
    case Some(v) => Some(lits.render(v))
    case None => assert IsNumber("0"); if c.expression == "" then Some("0") else None
  }

  /** The `result` property: the computed text, or the error text. */
  function Result<V>(c: Calculator<V>, lits: Literals<V>, tokenize: string -> seq<string>): (r: string)
    requires Ready(c.evaluator)
    ensures r == ErrorText <==> c.expression != "" && !Accepted(c, tokenize)
  {
    NotNumeral(ErrorText);
    Compute(c, lits, tokenize).GetOr(ErrorText)
  }

  /** The `validState` property: the display is not the error text. */
  predicate ValidState<V>(c: Calculator<V>, lits: Literals<V>, tokenize: string -> seq<string>)
    requires Ready(c.evaluator)
    ensures ValidState(c, lits, tokenize) <==> c.expression == "" || Accepted(c, tokenize)
  {
    Result(c, lits, tokenize) != ErrorText
  }

  /** The display is either a numeral or the error text, and it is the
      error text exactly when the expression is not empty and the
      evaluator rejects it. */
  lemma ResultMeaning<V>(c: Calculator<V>, lits: Literals<V>, tokenize: string -> seq<string>)
    requires Ready(c.evaluator)
    ensures IsNumber(Result(c, lits, tokenize)) || Result(c, lits, tokenize) == ErrorText
    ensures ValidState(c, lits, tokenize) <==>
      c.expression == "" || Eval(c.evaluator, lits, tokenize(c.expression)).Some?
    ensures ValidState(c, lits, tokenize) <==>
      c.expression == "" || CalcRun(Q0, 0, PdaWord(c.evaluator.operations, tokenize(c.expression))) == Some((Q1, 0))
  {
    assert IsNumber("0");
    NotNumeral(ErrorText);
  }

  /** An empty expression shows `0` when the tokenizer yields no token
      for it. */
  lemma EmptyShowsZero<V>(c: Calculator<V>, lits: Literals<V>, tokenize: string -> seq<string>)
    requires Ready(c.evaluator) && c.expression == "" && tokenize("") == []
    ensures Result(c, lits, tokenize) == "0"
  {
    var w := PdaWord(c.evaluator.operations, []);
    assert |w| == 0;
  }

  /** The names offered are the fifteen built-in ones at first, and each
      added constant contributes its name, whether new or overwritten. */
  lemma OperationsListMeaning<V>(lib: Library<V>, c: Calculator<V>, name: string, v: V)
    ensures OperationsList(NewCalculator(lib)) == {"π", "e"} + BinaryNames + UnaryNames
    ensures OperationsList(CalcAddConstant(c, name, v)) == OperationsList(c) + {name}
    ensures name in OperationsList(c) ==> OperationsList(CalcAddConstant(c, name, v)) == OperationsList(c)
  {
  }

  /** A fresh calculator evaluates as the source does: `2 ^ 3` with the
      operands of `pow` swapped and `1 - 2 - 3` grouped to the right. The
      corrected one computes `pow(2, 3)` and `(1 - 2) - 3`. */
  lemma NewCalculatorAnswers<V>(lib: Library<V>, lits: Literals<V>)
    ensures Eval(NewCalculator(lib).evaluator, lits, ["2", "^", "3"]) ==
      Some(lib.pow(lits.parse("3"), lits.parse("2")))
    ensures Eval(NewCalculator(lib).evaluator, lits, ["1", "-", "2", "-", "3"]) ==
      Some(lib.sub(lits.parse("1"), lib.sub(lits.parse("2"), lits.parse("3"))))
    ensures Eval(NewCalculatorCorrected(lib).evaluator, lits, ["2", "^", "3"]) ==
      Some(lib.pow(lits.parse("2"), lits.parse("3")))
    ensures Eval(NewCalculatorCorrected(lib).evaluator, lits, ["1", "-", "2", "-", "3"]) ==
      Some(lib.sub(lib.sub(lits.parse("1"), lits.parse("2")), lits.parse("3")))
  {
    PowEndToEnd(lib, lits);
    RightGroupingEndToEnd(lib, lits);
    LeftGroupingEndToEnd(lib, lits);
  }

  /** Deleting undoes appending one character, and the length counts
      characters appended and deleted. */
  lemma DeleteUndoesAdd<V>(c: Calculator<V>, ch: char)
    ensures DeleteSymbol(AddToExpression(c, [ch])) == c
    ensures ExpressionLength(AddToExpression(c, [ch])) == ExpressionLength(c) + 1
    ensures ExpressionLength(DeleteSymbol(c)) == if ExpressionLength(c) > 0 then ExpressionLength(c) - 1 else 0
  {
    assert (c.expression + [ch])[..|c.expression|] == c.expression;
  }
}
