/**
 `MathExpressionEvaluator` of Calculator/MathEvaluator.swift: the
 automaton and the registry it owns, and `eval`, which rewrites unary
 minus, validates the token categories with the automaton, substitutes
 constants, converts to postfix and evaluates. The regular-expression
 tokenizer is not modelled: `eval` takes the token sequence it would
 produce.
 */
module Evaluator {
  import opened Wrappers
  import opened Operations
  import opened Rewrite
  import opened Categories
  import opened Automaton
  import opened Grammar
  import opened Shunting
  import opened Rpn
  import opened Safety

  /** The automaton, the registry, and how the conversion to postfix
      groups operators of equal priority. */
  datatype Evaluator<!V> = Evaluator(pda: Pda, operations: Registry<V>, grouping: Grouping)

  /** `init()`, with the `^` binding corrected (`BuiltinsCorrected`) and
      `+ - * /` grouping left to right. The evaluator it builds is ready. */
  function NewEvaluator<V>(lib: Library<V>): (ev: Evaluator<V>)
    ensures ev.operations == BuiltinsCorrected(lib) && ev.pda == CalcPda() && ev.grouping == LeftToRight
    ensures Ready(ev)
  {
    BuiltinsWellFormed(lib);
    BuiltinsNoNumeralNames(lib);
    Evaluator(CalcPda(), BuiltinsCorrected(lib), LeftToRight)
  }

  /** `init()` and `shuntingYard` exactly as written; also ready. */
  function NewEvaluatorAsWritten<V>(lib: Library<V>): (ev: Evaluator<V>)
    ensures ev.operations == Builtins(lib) && ev.pda == CalcPda() && ev.grouping == AsWritten
    ensures Ready(ev)
  {
    BuiltinsWellFormed(lib);
    BuiltinsNoNumeralNames(lib);
    Evaluator(CalcPda(), Builtins(lib), AsWritten)
  }

  /** `addConstant(name:value:)` on the evaluator. */
  function EvAddConstant<V>(ev: Evaluator<V>, name: string, v: V): (r: Evaluator<V>)
    ensures r.pda == ev.pda && r.grouping == ev.grouping && r.operations == AddConstant(ev.operations, name, v)
  {
    ev.(operations := AddConstant(ev.operations, name, v))
  }

  /** What `init` establishes and `addConstant` keeps for names that are
      not numerals: the automaton is the one of `init`, functions and
      operators are built-in names, and no name is a numeral. */
  predicate Ready<V>(ev: Evaluator<V>) {
    && ev.pda.graph == CalcGraph && ev.pda.initialState == Q0
    && WellFormed(ev.operations) && NoNumeralNames(ev.operations)
  }

  /** The input word the automaton reads for `tokens`. */
  function PdaWord<V>(reg: Registry<V>, tokens: seq<string>): (w: seq<string>)
    ensures |w| == |FixNegative(reg, tokens)| && EndMarker !in w
  {
    var w := Placeholders(reg, FixNegative(reg, tokens));
    assert forall i | 0 <= i < |w| :: w[i] != EndMarker;
    w
  }

  /** An accepted word, after constant substitution, converts and
      evaluates without trapping. */
  lemma AcceptedPipeline<V>(reg: Registry<V>, g: Grouping, lits: Literals<V>, fixed: seq<string>)
    requires WellFormed(reg) && NoNumeralNames(reg)
    requires CalcRun(Q0, 0, Placeholders(reg, fixed)) == Some((Q1, 0))
    ensures ShuntingYard(reg, g, ReplaceConstants(reg, lits, fixed)).Some?
    ensures EvalRpn(reg, lits, ShuntingYard(reg, g, ReplaceConstants(reg, lits, fixed)).value).Some?
  {
    var r := ReplaceConstants(reg, lits, fixed);
    ReplaceKeepsCategories(reg, lits, fixed);
    forall i | 0 <= i < |r| ensures Substituted(reg, r[i]) {
      ReplacedTokens(reg, lits, fixed, i);
      assert Placeholders(reg, r)[i] == Placeholders(reg, fixed)[i];
    }
    AcceptedEvaluates(reg, g, lits, r);
  }

  /** `eval(expr:)`. Its answer is defined exactly when the automaton
      accepts the categories of the rewritten tokens, whatever state the
      automaton was left in by an earlier call: an accepted expression
      never reaches a trapping force-unwrap. */
  function Eval<V>(ev: Evaluator<V>, lits: Literals<V>, tokens: seq<string>): (r: Option<V>)
    requires Ready(ev)
    ensures r.Some? <==> CalcRun(Q0, 0, PdaWord(ev.operations, tokens)) == Some((Q1, 0))
  {
    var reg := ev.operations;
    var fixed := FixNegative(reg, tokens);
    AcceptsIff(ev.pda, PdaWord(reg, tokens));
    if Accept(Reset(ev.pda), Placeholders(reg, fixed)).ok then
      AcceptedPipeline(reg, ev.grouping, lits, fixed);
      EvalRpn(reg, lits, ShuntingYard(reg, ev.grouping, ReplaceConstants(reg, lits, fixed)).value)
    else None
  }

  /** `addConstant` keeps an evaluator ready, provided the constant's
      name is not a numeral. */
  lemma AddConstantKeepsReady<V>(ev: Evaluator<V>, name: string, v: V)
    requires Ready(ev) && !IsNumber(name)
    ensures Ready(EvAddConstant(ev, name, v))
  {
    AddConstantPreservesWellFormed(ev.operations, name, v);
  }

  /** A defined answer comes from a well-nested word: parentheses balance
      and never close early, no token is unknown, the word is not empty
      and ends in an operand or `)`. */
  lemma EvalDefinedShape<V>(ev: Evaluator<V>, lits: Literals<V>, tokens: seq<string>)
    requires Ready(ev) && Eval(ev, lits, tokens).Some?
    ensures var w := PdaWord(ev.operations, tokens);
      && Depth(w) == 0 && PrefixNonNegative(0, w) && Unknown !in w
      && |w| > 0 && (w[|w| - 1] == Num || w[|w| - 1] == ")")
  {
    var w := PdaWord(ev.operations, tokens);
    AcceptsIff(ev.pda, w);
    AcceptedShape(ev.pda, w);
  }

  /** The answer does not depend on what earlier calls left in the
      automaton (any current state, any stack), since `eval` resets it
      first. */
  lemma EvalIgnoresAutomatonState<V>(ev: Evaluator<V>, lits: Literals<V>, tokens: seq<string>, p: Pda)
    requires Ready(ev) && p.graph == ev.pda.graph && p.initialState == ev.pda.initialState
    ensures Eval(ev.(pda := p), lits, tokens) == Eval(ev, lits, tokens)
  {
    ResetIsStart(ev.pda);
    ResetIsStart(p);
  }
}
