# iOS calculator core, modelled in Dafny

This project models the evaluation core of an iOS calculator app. It is a
model in Dafny of these parts:

- the expression evaluator `MathExpressionEvaluator`:
  - the operations table;
  - the push-down automaton built in `init` that validates the token categories;
  - the unary-minus rewrite `fixForNegative`;
  - the category projection `PlaceholdersforPDA`;
  - constant substitution;
  - Dijkstra's shunting-yard conversion to postfix;
  - the postfix evaluator;
  - `eval`.
- The generic automaton `PDA` with its `State` and `Transition` keys.
- The array-backed `Stack`.
- The `CalculatorModel` the keypad drives.

Values are an abstract type `V` rather than `Double`. The numeric
primitives the operations table binds (`+`, `pow`, `sin`, …) arrive as a
`Library<V>`. Conversion between numerals and values (`Double(String)`,
`String(Double)`) arrives as `Literals<V>`. Every force-unwrap of the
source (`pop()!`, `popLast()!`, `result[0]`) is modelled as a `None`
result where it would trap.

The main results are these:

- **No trap after acceptance.** `Safety.AcceptedEvaluates` and
  `Evaluator.Eval` prove that an expression the automaton accepts never
  reaches a trapping unwrap. Whether `eval` answers is exactly whether the
  automaton accepts. The proof runs the shunting-yard loop in lock step
  with a counter-machine reading of the automaton (`Grammar.CalcStep`). It
  tracks how many values the postfix output leaves, against the two-operand
  operators still stacked.
- **The automaton is a counter machine.** The generic automaton on the
  calculator's table behaves like a machine over (state, open-parenthesis
  count), whatever state an earlier call left it in
  (`Grammar.AcceptsIff`).
- **The minus rewrite is a local rewrite.** It only inserts `(`, `0` and
  `)`, and it rewrites exactly the `( -` patterns (`Rewrite.*`).
- **The conversion keeps the operands.** The shunting yard passes the
  numerals through in input order (`Shunting.ShuntingYard`). On an
  accepted expression it emits no parenthesis
  (`Safety.AcceptedPostfixHasNoParens`).
- **What the answers are.** Operand order, grouping, juxtaposition and the
  `^` operand order are stated on concrete inputs, end to end through
  `eval` (`Semantics.*`).

Modules follow the source files:

| module | models |
|---|---|
| `Stacks` | Stack.swift |
| `Automaton` | PushDownAutomata.swift |
| `Operations`, `Rewrite`, `Categories`, `Grammar`, `Shunting`, `Rpn`, `Evaluator` | MathEvaluator.swift |
| `Safety`, `Semantics` | proofs about MathEvaluator.swift |
| `Calculator` | CalculatorModel.swift |

Where the documented intent and the code disagree, the model follows the
code:

- **Equal priorities group to the right.** The doc comment of
  `shuntingYard` (MathEvaluator.swift:160) names Dijkstra's shunting-yard
  algorithm. That algorithm also pops equal-ranked left-associative
  operators, which gives left-to-right evaluation. The popping test at
  MathEvaluator.swift:175 is a strict `>`, so an incoming operator never
  pops an equal-ranked one, and `1 - 2 - 3` converts to `1 2 3 - -`. The
  model keeps that behaviour as the `AsWritten` grouping. See Findings.
- **Juxtaposition is accepted.** The automaton accepts a number followed
  directly by a function call (transitions `t11`/`t12`, lines 89-90). The
  postfix evaluator returns the bottom of its value stack (`result[0]`), so
  `2 sin(3)` evaluates to `2`.

## Model

| member | source | states |
|---|---|---|
| `Stacks.Stack.Push` | Calculator/Stack.swift:15-17 | `push(x)` appends `x` as the new top; `PushThenPop` and `PeekAfterPush` state what `pop` and `peek` then see |
| `Stacks.Stack.Pop` | Calculator/Stack.swift:19-21 | `pop()` removes and returns the top, or returns nothing and changes nothing on an empty stack (`EmptyStackAccess`) |
| `Stacks.Stack.Peek` | Calculator/Stack.swift:27-29 | `peek()` returns the top without removing it, nothing on an empty stack; it always agrees with `pop` (`PeekAfterPush`) |
| `Stacks.Stack.IsEmpty` | Calculator/Stack.swift:23-25 | `empty()` holds exactly when nothing is held (`EmptyIffNoElements`) |
| `Stacks.PushAll` | Calculator/Stack.swift:15-17 | pushing a sequence grows the stack by its length |
| `Stacks.PopN` | Calculator/Stack.swift:19-21 | popping `n` entries from a stack of at least `n` yields `n` entries and leaves `n` fewer |
| `Stacks.PushThenPop` | Calculator/Stack.swift:15-21 | `pop` after `push(x)` returns `x` and restores the stack |
| `Stacks.PeekAfterPush` | Calculator/Stack.swift:15-29 | `peek` after `push(x)` is `x`; `peek` always agrees with what `pop` would return |
| `Stacks.EmptyStackAccess` | Calculator/Stack.swift:19-29 | on an empty stack `pop` and `peek` return nothing and `pop` changes nothing |
| `Stacks.EmptyIffNoElements` | Calculator/Stack.swift:23-25 | `empty()` holds exactly when there are no elements, never after a push |
| `Stacks.LastInFirstOut` | Calculator/Stack.swift:15-21 | pushing a sequence, then popping as many, returns it reversed and restores the original stack |
| `Operations.AddConstant` | Calculator/MathEvaluator.swift:119-121 | the name is bound to the constant, the names grow by exactly that one, every other entry is unchanged |
| `Operations.Builtins` | Calculator/MathEvaluator.swift:46-65 | the initial table as written: constants `π` and `e`, the eight one-operand functions, and the five operators, of which `+ - * /` compute `$1 op $0` and `^` is bound to `pow` unswapped (`BuiltinsWellFormed`, `ArithmeticOperandOrder`, `PowAsWritten`) |
| `Operations.BuiltinsCorrected` | Calculator/MathEvaluator.swift:46-65 | the same table with `^` computing `pow($1, $0)` like the other operators; no other entry differs (`PowCorrected`) |
| `Operations.BuiltinsWellFormed` | Calculator/MathEvaluator.swift:46-65 | in the initial table, as written and corrected, only the eight function names are one-operand and only `+ - * / ^` are two-operand |
| `Operations.ParensNotBuiltin` | Calculator/MathEvaluator.swift:46-65 | `(` and `)` are not registered names |
| `Operations.AddConstantPreservesWellFormed` | Calculator/MathEvaluator.swift:119-121 | adding a constant keeps that shape, so every reachable table has it |
| `Operations.Priority` | Calculator/MathEvaluator.swift:147-157 | the level is between 0 and 3 |
| `Operations.PriorityLevels` | Calculator/MathEvaluator.swift:147-157 | functions and `^` rank 3, `* /` rank 2, `+ -` rank 1, every operator at least 1, `(` and the empty-stack stand-in 0 |
| `Rewrite.IsNumber` | Calculator/MathEvaluator.swift:133-139 | `Double(value) != nil`, read as an optional leading `-` followed by digits with at most one `.` and at least one digit; the forms of `Double(String)` this leaves out are listed below |
| `Rewrite.Insert` | Calculator/MathEvaluator.swift:253-255 | `insert(_:at:)`: one longer, the element at the index, the prefix kept and the rest shifted by one |
| `Rewrite.ScanNegative` | Calculator/MathEvaluator.swift:247-264 | the loop of `fixForNegative` as a left-to-right scan; it never shortens the tokens and keeps a first token other than `(`; `ScanLoop` shows the in-place loop computes it and `ScanIsLocalRewrite` characterises it position by position |
| `Rewrite.FixNegative` | Calculator/MathEvaluator.swift:246-278 | the scan followed by the leading-minus fix-up; `FixForNegative` shows the source procedure computes it, and `FixNegativeInsertsOnly`, `LeadingMinusNumber`, `LeadingMinusFunction` and `NoPatternUnchanged` state what it does |
| `Rewrite.FixForNegative` | Calculator/MathEvaluator.swift:246-278 | the source's procedure, with in-place inserts, index jumps and the leading-minus fix-up, computes `FixNegative` |
| `Rewrite.ScanLoop` | Calculator/MathEvaluator.swift:247-264 | the `while` loop, with insertions that shift later tokens and jumps of 6 and 3, computes the token-by-token scan `ScanNegative` |
| `Rewrite.ScanIsLocalRewrite` | Calculator/MathEvaluator.swift:249-264 | the scan rewrites each `( -` followed by a number (`( ( 0 - N )`) or a one-operand function (`( 0 - f`) and copies every other token, other minus signs included |
| `Rewrite.ScanInsertsOnly` | Calculator/MathEvaluator.swift:249-264 | the scan only inserts the fillers `(`, `0`, `)`: the input is a subsequence of the output |
| `Rewrite.FixNegativeInsertsOnly` | Calculator/MathEvaluator.swift:246-278 | the same for the whole rewrite, leading-minus fix-up included |
| `Rewrite.InsertsOnlyKeepsCount` | Calculator/MathEvaluator.swift:246-278 | hence no token other than a filler, in particular no minus sign, is added or removed |
| `Rewrite.LeadingMinusNumber` | Calculator/MathEvaluator.swift:265-271 | a leading `- N` becomes `( 0 - N )`, the rest being scanned as usual |
| `Rewrite.LeadingMinusFunction` | Calculator/MathEvaluator.swift:272-275 | a leading `- f` before a one-operand function becomes `0 - f` |
| `Rewrite.NoPatternUnchanged` | Calculator/MathEvaluator.swift:246-278 | with no `( -` followed by a number or function and no such leading minus, the tokens are returned unchanged |
| `Categories.BuiltinsNoNumeralNames` | Calculator/MathEvaluator.swift:46-65 | no built-in name is a numeral |
| `Categories.Category` | Calculator/MathEvaluator.swift:284-294 | each token maps to one of the six input symbols `num op fun ( ) nk`, a parenthesis to itself |
| `Categories.Placeholders` | Calculator/MathEvaluator.swift:281-297 | one category per token, as `Categories.CategoryMeaning` characterises it |
| `Categories.CategoryMeaning` | Calculator/MathEvaluator.swift:281-297 | each of the six categories `num op fun ( ) nk` holds exactly when its test holds, the first matching test winning |
| `Categories.ReplaceConstants` | Calculator/MathEvaluator.swift:299-312 | same length; only constant names change, each into the rendering of its value |
| `Categories.ReplaceKeepsCategories` | Calculator/MathEvaluator.swift:299-312 | with no numeral-named entry, substitution leaves the category word unchanged |
| `Categories.ReplacedTokens` | Calculator/MathEvaluator.swift:299-312 | after substitution no token names a constant, and a token is a numeral exactly when its category was `num` |
| `Categories.ReplaceAfterAddConstant` | Calculator/MathEvaluator.swift:299-312 | substitution after `addConstant` writes the new value, even for an overwritten name |
| `Automaton.StructuralEquality` | Calculator/PushDownAutomata.swift:15-59 | states and transitions are equal exactly when their fields are, as the custom `==` says |
| `Automaton.Init` | Calculator/PushDownAutomata.swift:74-79 | a new automaton holds only `Z` and is in its initial state |
| `Automaton.PopAll` | Calculator/PushDownAutomata.swift:82-84 | the loop empties the stack |
| `Automaton.Reset` | Calculator/PushDownAutomata.swift:81-87 | after `reset` the stack is `Z` and the state is the initial one; graph and initial state are kept |
| `Automaton.PushChars` | Calculator/PushDownAutomata.swift:100-103 | the characters are pushed in order, the last one ending on top |
| `Automaton.Step` | Calculator/PushDownAutomata.swift:93-103 | a step succeeds exactly when (state, popped top, input) is in the graph with a target other than `err`; it then moves to the target and pushes its string, and otherwise leaves the popped stack in the error state |
| `Automaton.Run` | Calculator/PushDownAutomata.swift:92-104 | the loop never changes the graph or the initial state, and a failed run stops in the error state |
| `Automaton.Accept` | Calculator/PushDownAutomata.swift:89-106 | acceptance ends in a final state; a rejection ends in the error state or in a state that is not final |
| `Automaton.RunConcat` | Calculator/PushDownAutomata.swift:92-104 | running `a + b` is running `a`, then `b` if `a` succeeded |
| `Automaton.AcceptStopsAtFirstMissing` | Calculator/PushDownAutomata.swift:89-99 | `accept` rejects at the first symbol without a transition and stops there |
| `Automaton.AcceptIsFinalFlag` | Calculator/PushDownAutomata.swift:89-106 | the verdict is the final flag of the state reached after the appended `eps` |
| `Automaton.AcceptLoop` | Calculator/PushDownAutomata.swift:89-106 | the source's loop with its early `return false` computes `Accept` |
| `Grammar.CalcRun` | Calculator/MathEvaluator.swift:68-112 | a successful run ends in a working state with the word's depth as its count, never closes an unopened parenthesis, read no unknown symbol, and is in `q1` only after a number or `)` |
| `Grammar.GraphIsEntry` | Calculator/MathEvaluator.swift:94-109 | the fourteen-entry table is the case analysis `Entry` |
| `Grammar.CalcGraph` | Calculator/MathEvaluator.swift:94-109 | the fourteen transitions t0-t12 and tf, each from (state, top, category) to (state, string pushed); `GraphIsEntry` and `EntryMatchesStep` read it as the counter machine `CalcStep` |
| `Grammar.EntryMatchesStep` | Calculator/MathEvaluator.swift:75-109 | the table entry for a state and top of stack is the counter machine's step |
| `Grammar.StepFollowsTable` | Calculator/MathEvaluator.swift:68-112 | one automaton step from `(q, Z (^k)` succeeds exactly when the counter machine's step does, and lands on the configuration it names |
| `Grammar.EndStep` | Calculator/MathEvaluator.swift:92-108 | the end marker is accepted only in `q1` with no open parenthesis, and leads to `qf` |
| `Grammar.RunFollowsTable` | Calculator/MathEvaluator.swift:68-112 | on words without the end marker, the automaton and the counter machine succeed together and agree on the configuration |
| `Grammar.ResetIsStart` | Calculator/PushDownAutomata.swift:81-87 | reset puts the calculator's automaton in `(q0, 0)`, whatever state it was in |
| `Grammar.AcceptsIff` | Calculator/MathEvaluator.swift:68-112 | after reset, a word is accepted exactly when the counter machine takes it from `(q0, 0)` to `(q1, 0)`; the stack is then `Z` and one `(` per open parenthesis |
| `Grammar.AcceptedShape` | Calculator/MathEvaluator.swift:68-112 | an accepted word is balanced, never closes early, has no unknown symbol, is not empty and ends in `num` or `)` |
| `Grammar.AcceptsNumber` | Calculator/MathEvaluator.swift:77-97 | `num` is accepted |
| `Grammar.AcceptsParenthesised` | Calculator/MathEvaluator.swift:75-99 | `( num )` is accepted |
| `Grammar.AcceptsFunctionCall` | Calculator/MathEvaluator.swift:75-108 | `num op fun ( num )` is accepted |
| `Grammar.RejectsEmpty` | Calculator/MathEvaluator.swift:92-108 | the empty word is rejected |
| `Grammar.RejectsTwoNumbers` | Calculator/MathEvaluator.swift:77-108 | `num num` is rejected |
| `Grammar.RejectsUnclosed` | Calculator/MathEvaluator.swift:75-108 | `( num` is rejected |
| `Grammar.RejectsUnopened` | Calculator/MathEvaluator.swift:77-108 | `num )` is rejected |
| `Shunting.PopHigher` | Calculator/MathEvaluator.swift:175-178 | when the loop ends, the top ranks no higher than the threshold |
| `Shunting.PopHigherTraps` | Calculator/MathEvaluator.swift:175-178 | the loop traps exactly when every entry, and the empty-stack stand-in, ranks above the threshold |
| `Shunting.PopHigherMoves` | Calculator/MathEvaluator.swift:175-178 | the loop moves exactly the run of top entries ranked above the threshold to the output, top first, and keeps the rest |
| `Shunting.ThresholdMeaning` | Calculator/MathEvaluator.swift:174-175 | as written an operator pops the entries ranked strictly above it; grouping left to right, `+ - * /` pop those ranked at least as high; a `(` is never popped |
| `Shunting.PopToOpen` | Calculator/MathEvaluator.swift:183-187 | closing a parenthesis always shrinks the stack |
| `Shunting.PopToOpenTraps` | Calculator/MathEvaluator.swift:183-187 | it traps exactly when no `(` is stacked |
| `Shunting.PopToOpenMoves` | Calculator/MathEvaluator.swift:183-187 | it moves the entries above the topmost `(` to the output, top first, discards that `(` and keeps what lies below |
| `Shunting.Drain` | Calculator/MathEvaluator.swift:190-193 | the output is followed by the stack from top to bottom |
| `Shunting.SyStep` | Calculator/MathEvaluator.swift:170-188 | one token traps only in the pops of a registered name or a `)`, and the output only grows |
| `Shunting.SyStepNumerals` | Calculator/MathEvaluator.swift:170-188 | a numeral goes straight to the output and is never stacked; nothing else adds a numeral to the output |
| `Shunting.SyRunNumerals` | Calculator/MathEvaluator.swift:170-188 | over the token loop the output gains exactly the numerals of the tokens, in order |
| `Shunting.ShuntingYard` | Calculator/MathEvaluator.swift:167-195 | the numerals of the postfix output are those of the input, in input order, none added or dropped |
| `Rpn.EvalStack` | Calculator/MathEvaluator.swift:205-218 | whether the value loop traps, and how many values it leaves, depend only on the stack height as `RunDepth` counts it |
| `Rpn.RunDepthConcat` | Calculator/MathEvaluator.swift:205-218 | heights compose over concatenated token sequences |
| `Rpn.EvalRpn` | Calculator/MathEvaluator.swift:203-220 | the postfix evaluator answers exactly when the height never runs short and ends at least 1 |
| `Rpn.EvalRpnLoop` | Calculator/MathEvaluator.swift:203-220 | the source's loop with its force-unwrapped pops and `result[0]` computes `EvalRpn` |
| `Safety.PopHigherSafe` | Calculator/MathEvaluator.swift:175-178 | with a threshold of at least 0 and a surplus of one value, the pops never trap, never remove a `(` and keep the surplus |
| `Safety.PopToOpenSafe` | Calculator/MathEvaluator.swift:183-187 | with a `(` stacked, closing never traps, removes one `(` and keeps the surplus |
| `Safety.DrainSafe` | Calculator/MathEvaluator.swift:190-193 | with no `(` left and a surplus, the drained output evaluates to at least one value |
| `Safety.StepOperand` | Calculator/MathEvaluator.swift:171-172 | a numeral after an operator, a `(` or nothing adds one value |
| `Safety.StepOpen` | Calculator/MathEvaluator.swift:180-181 | a `(` is stacked and counted |
| `Safety.StepOperator` | Calculator/MathEvaluator.swift:173-179 | an operator after an operand never traps and uses up the surplus |
| `Safety.StepFunction` | Calculator/MathEvaluator.swift:173-179 | a function pops nothing and is stacked |
| `Safety.StepClose` | Calculator/MathEvaluator.swift:182-187 | a `)` after an operand with a `(` open never traps and closes one parenthesis |
| `Safety.SyStepSafe` | Calculator/MathEvaluator.swift:170-189 | a token the automaton accepts never traps the conversion, which stays in agreement with the automaton's configuration |
| `Safety.SyRunSafe` | Calculator/MathEvaluator.swift:167-189 | the same for the whole token loop |
| `Safety.AcceptedEvaluates` | Calculator/MathEvaluator.swift:317-321 | for an accepted, substituted token sequence the postfix form exists and evaluates |
| `Safety.SyStepNoParens` | Calculator/MathEvaluator.swift:170-188 | a token the automaton accepts adds no `(` or `)` to the output |
| `Safety.SyRunNoParens` | Calculator/MathEvaluator.swift:167-189 | the same for the whole token loop |
| `Safety.AcceptedPostfixHasNoParens` | Calculator/MathEvaluator.swift:167-195 | the postfix form of an accepted, substituted token sequence contains neither `(` nor `)` |
| `Evaluator.NewEvaluator` | Calculator/MathEvaluator.swift:46-112 | `init`, with `^` and grouping corrected, builds a ready evaluator with the calculator's automaton |
| `Evaluator.NewEvaluatorAsWritten` | Calculator/MathEvaluator.swift:46-112 | `init` as written builds a ready evaluator |
| `Evaluator.PdaWord` | Calculator/MathEvaluator.swift:229-237 | the category word has one symbol per rewritten token and never contains the end marker |
| `Evaluator.AcceptedPipeline` | Calculator/MathEvaluator.swift:317-321 | after acceptance, substitution, conversion and evaluation never trap |
| `Evaluator.Eval` | Calculator/MathEvaluator.swift:314-325 | `eval` answers exactly when the automaton accepts the categories of the rewritten tokens |
| `Evaluator.EvAddConstant` | Calculator/MathEvaluator.swift:119-121 | only the registry changes, by `addConstant`; the automaton and the grouping are kept |
| `Evaluator.AddConstantKeepsReady` | Calculator/MathEvaluator.swift:119-121 | adding a constant whose name is not a numeral keeps the evaluator ready |
| `Evaluator.EvalDefinedShape` | Calculator/MathEvaluator.swift:314-325 | an answered expression's category word is balanced, has no unknown symbol, is not empty and ends in `num` or `)` |
| `Evaluator.EvalIgnoresAutomatonState` | Calculator/MathEvaluator.swift:314-317 | the answer is the same for any current state and stack an earlier call left in the automaton |
| `Semantics.BinaryCall` | Calculator/MathEvaluator.swift:210-211 | `a b x` calls the two-operand entry with the top of the stack first |
| `Semantics.ArithmeticOperandOrder` | Calculator/MathEvaluator.swift:51-54 | `a b +`, `-`, `*`, `/` compute `a op b` |
| `Semantics.PowAsWritten` | Calculator/MathEvaluator.swift:55 | as written `a b ^` computes `pow(b, a)` |
| `Semantics.PowCorrected` | Calculator/MathEvaluator.swift:51-65 | corrected, `a b ^` computes `pow(a, b)`, and no other entry changes |
| `Semantics.PowOperandsSwapped` | Calculator/MathEvaluator.swift:55 | over the integers `2 3 ^` is 9 as written and 8 corrected |
| `Semantics.RightGroupingPostfix` | Calculator/MathEvaluator.swift:167-195 | as written `1 - 2 - 3` converts to `1 2 3 - -` |
| `Semantics.RightGroupingValue` | Calculator/MathEvaluator.swift:203-220 | `1 2 3 - -` is `1 - (2 - 3)` |
| `Semantics.RightGroupingEndToEnd` | Calculator/MathEvaluator.swift:314-325 | as written `eval` gives `1 - (2 - 3)` for `1 - 2 - 3` |
| `Semantics.LeftGroupingPostfix` | Calculator/MathEvaluator.swift:167-195 | grouping left to right, `1 - 2 - 3` converts to `1 2 - 3 -` |
| `Semantics.LeftGroupingValue` | Calculator/MathEvaluator.swift:203-220 | `1 2 - 3 -` is `(1 - 2) - 3` |
| `Semantics.LeftGroupingEndToEnd` | Calculator/MathEvaluator.swift:314-325 | the corrected evaluator gives `(1 - 2) - 3` for `1 - 2 - 3` |
| `Semantics.EvalUnrewritten` | Calculator/MathEvaluator.swift:314-325 | on tokens the rewrite leaves alone and that name no constant, `eval` is acceptance, then conversion and evaluation of the tokens themselves |
| `Semantics.EvalPlain` | Calculator/MathEvaluator.swift:314-325 | the same for tokens without `(` or constant names that do not start with `-` |
| `Semantics.PowThroughEval` | Calculator/MathEvaluator.swift:314-325 | `eval` on `2 ^ 3` evaluates `2 3 ^` |
| `Semantics.PowPostfix` | Calculator/MathEvaluator.swift:167-195 | `2 ^ 3` converts to `2 3 ^` under either grouping |
| `Semantics.PowEndToEnd` | Calculator/MathEvaluator.swift:314-325 | `2 ^ 3` gives `pow(3, 2)` as written and `pow(2, 3)` corrected |
| `Semantics.JuxtapositionAccepted` | Calculator/MathEvaluator.swift:89-107 | `num fun ( num )` is accepted |
| `Semantics.JuxtapositionUnrewritten` | Calculator/MathEvaluator.swift:246-278 | the minus rewrite leaves `2 sin ( 3 )` alone |
| `Semantics.JuxtapositionPostfix` | Calculator/MathEvaluator.swift:167-195 | `2 sin ( 3 )` converts to `2 3 sin` |
| `Semantics.JuxtapositionValue` | Calculator/MathEvaluator.swift:203-220 | `2 3 sin` leaves two values and the answer is the bottom one, `2`, in the table as written and corrected |
| `Semantics.JuxtapositionThroughEval` | Calculator/MathEvaluator.swift:314-325 | `eval` on `2 sin ( 3 )` evaluates `2 3 sin` |
| `Semantics.JuxtapositionEndToEnd` | Calculator/MathEvaluator.swift:314-325 | `eval` on `2 sin ( 3 )` answers `2`, as written and corrected |
| `Calculator.NewCalculator` | Calculator/CalculatorModel.swift:13-15 | a new model has an empty expression and the evaluator `init` builds as written: the table as written, grouping to the right |
| `Calculator.NewCalculatorCorrected` | Calculator/CalculatorModel.swift:13-15 | the same model over the corrected evaluator |
| `Calculator.NewCalculatorAnswers` | Calculator/CalculatorModel.swift:15 | a new model answers `pow(3, 2)` for `2 ^ 3` and `1 - (2 - 3)` for `1 - 2 - 3`; the corrected one `pow(2, 3)` and `(1 - 2) - 3` |
| `Calculator.AddToExpression` | Calculator/CalculatorModel.swift:33-35 | the symbol is appended and the old expression kept as a prefix |
| `Calculator.ClearExpression` | Calculator/CalculatorModel.swift:37-39 | the expression becomes empty |
| `Calculator.CalcAddConstant` | Calculator/CalculatorModel.swift:41-43 | the expression, automaton and grouping are unchanged; the name is bound to the given value, the names grow by exactly it, and every other entry is unchanged |
| `Calculator.DeleteSymbol` | Calculator/CalculatorModel.swift:49-53 | the last character is dropped if there is one |
| `Calculator.OperationsListMeaning` | Calculator/CalculatorModel.swift:45-47 | the names are the fifteen built-in ones at first, and `addConstant` adds its name |
| `Calculator.OperationsList` | Calculator/CalculatorModel.swift:45-47 | `getOperationsList()`: the registered names, as a set (`OperationsListMeaning`) |
| `Calculator.ExpressionLength` | Calculator/CalculatorModel.swift:55-57 | `expressionLength()`: the number of characters of the expression (`DeleteUndoesAdd`) |
| `Calculator.Compute` | Calculator/CalculatorModel.swift:59-67 | `compute()` answers exactly when the expression is empty or the automaton accepts its tokens, and the answer is a numeral |
| `Calculator.Result` | Calculator/CalculatorModel.swift:17-21 | the display is `Error` exactly when the expression is not empty and the automaton rejects it |
| `Calculator.ValidState` | Calculator/CalculatorModel.swift:23-31 | the state is valid exactly when the expression is empty or accepted |
| `Calculator.ResultMeaning` | Calculator/CalculatorModel.swift:17-67 | the display is a numeral or `Error`; the state is valid exactly when the expression is empty or `eval` answers, that is, when the automaton accepts |
| `Calculator.EmptyShowsZero` | Calculator/CalculatorModel.swift:59-67 | an empty expression shows `0` |
| `Calculator.DeleteUndoesAdd` | Calculator/CalculatorModel.swift:33-57 | deleting undoes appending one character, and the length counts characters added and deleted |

## Left out

- Tokenizing. The regular-expression tokenizer (`tokenize`, `matchingStrings`) is not modelled. `Eval` takes the token sequence and `Calculator.Compute` takes the tokenizer as a parameter, because regular-expression matching is foreign code. The pattern (MathEvaluator.swift:24) matches only words and the symbols `( ) + * - / ^ √`. Any other character, such as `%` in `2%`, never becomes a token, so the automaton never reads it. A token it does read that is not registered, such as `x`, is `nk` and rejects.
- Floating point. `Double`, `pow`, `sin` and the other primitives are abstract (`Library<V>`). Rounding, infinities and NaN are not modelled.
- Numerals. `Rewrite.IsNumber` accepts decimal numerals with an optional leading `-`: digits with at most one `.` and at least one digit. `Double(String)` also accepts a leading `+`, exponents, `inf`, `nan` and hexadecimal forms. A token of those forms is treated as unknown here.
- Rendering. The model assumes `String(Double)` always prints a numeral that `IsNumber` accepts (`Literals.render` is typed so), negative values with their `-`. It does not model `inf`, `nan` or exponent output.
- Numeral-named constants. A constant named like a numeral lets the source trap after acceptance: with a constant `"3.0"` bound to 3, the input `3.0` is substituted by `"3.0"`, converted as a number, then skipped by `evalReversPolishNotation` because `operations["3.0"]` is a constant (MathEvaluator.swift:206-213), so `result[0]` reads an empty array (line 219). `CalculatorModel.addConstant` forwards any name, so the program can build such an evaluator. `Evaluator.Ready` excludes such names, and `Evaluator.AddConstantKeepsReady` requires a name that is not a numeral.
- Operation order. The order of `getOperationsList()` follows the dictionary's hashing; it is modelled as a set (`Calculator.OperationsList`).
- Hash values. The custom `hashValue` of `State` and `Transition` only affects dictionary performance; equality is modelled structurally.
- Mutation and aliasing. The classes' in-place mutation is modelled with immutable values: each operation returns the new state.
- Characters. Characters are Dafny `char`s. `deleteSymbol` and `expressionLength` count grapheme clusters in Swift; the model counts `char`s.
- The user interface (ViewController.swift, UILabelWithPadding.swift) is not part of this model.
- `Operations.WellFormed` is not the whole of what a reachable table satisfies. It is the invariant the safety proof needs: functions and operators keep their built-in names.

## Findings

| source | as written | input that shows it | evidently intended | confidence | as-written member | corrected member |
|---|---|---|---|---|---|---|
| Calculator/MathEvaluator.swift:55 | `^` is bound to `pow` itself, but line 211 passes the top of the stack, the right operand, first; the other four operators swap it back | `2^3` gives `pow(3, 2)` = 9 | `pow(2, 3)` = 8, the left operand as base like `-` and `/` | high, not executed | `Operations.Builtins`, `Semantics.PowAsWritten`, `Semantics.PowOperandsSwapped` | `Operations.BuiltinsCorrected`, `Semantics.PowCorrected`, `Semantics.PowEndToEnd` |
| Calculator/MathEvaluator.swift:175 | the pop test is a strict `>`, so an operator never pops an equal-ranked one and `+ - * /` group to the right | `1 - 2 - 3` gives `1 - (2 - 3)` = 2; `8 / 4 / 2` gives 4 | left-to-right grouping: `(1 - 2) - 3` = -4 | high, not executed | `Shunting.Threshold` with `AsWritten`, `Semantics.RightGroupingPostfix`, `Semantics.RightGroupingEndToEnd` | `Shunting.Threshold` with `LeftToRight`, `Shunting.ThresholdMeaning`, `Semantics.LeftGroupingPostfix`, `Semantics.LeftGroupingEndToEnd` |

`Evaluator.NewEvaluatorAsWritten` builds the source's evaluator, and `Calculator.NewCalculator` uses it, as CalculatorModel.swift:15 does. `Evaluator.NewEvaluator` builds the evaluator with both corrections, `BuiltinsCorrected` and `LeftToRight`; `Calculator.NewCalculatorCorrected` uses it. The no-trap proof covers both. `^` still groups to the right under the correction, as it does in the source.
