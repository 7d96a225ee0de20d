/**
 Why `eval` in Calculator/MathEvaluator.swift never reaches a trapping
 force-unwrap once the automaton has accepted: the shunting-yard run over
 an accepted token sequence stays in step with the automaton's counter
 machine, and at every step the values the postfix output will leave on
 the evaluation stack outnumber the two-operand operators still waiting
 on the operator stack.
 */
module Safety {
  import opened Wrappers
  import opened Stacks
  import opened Operations
  import opened Rewrite
  import opened Categories
  import opened Automaton
  import opened Grammar
  import opened Shunting
  import opened Rpn

  /** An entry the operator stack may hold: a `(`, a function or an operator. */
  predicate Pending<V>(reg: Registry<V>, x: string) {
    x == "(" || IsUnary(reg, x) || IsBinary(reg, x)
  }

  /** Two-operand operators in `s`. */
  function Binaries<V>(reg: Registry<V>, s: seq<string>): nat {
    if |s| == 0 then 0
    else Binaries(reg, s[..|s| - 1]) + (if IsBinary(reg, s[|s| - 1]) then 1 else 0)
  }

  /** Every stack entry is pending, the output evaluates without running
      short, and it leaves at least `m` values more than the stacked
      operators will consume. */
  predicate Surplus<V>(reg: Registry<V>, y: Yard, m: int) {
    var ops := y.operators.items;
    && (forall i | 0 <= i < |ops| :: Pending(reg, ops[i]))
    && RunDepth(reg, y.output, 0).Some?
    && RunDepth(reg, y.output, 0).value >= Binaries(reg, ops) + m
  }

  /** The shunting-yard state agrees with automaton configuration `(q, k)`:
      one stacked `(` per open parenthesis, and a surplus of one value
      right after an operand (`q1`), of none otherwise. */
  predicate Agrees<V>(reg: Registry<V>, q: State, k: nat, y: Yard) {
    && Occurrences(y.operators.items, "(") == k
    && Surplus(reg, y, if q == Q1 then 1 else 0)
  }

  /** Moving the top entry, a function or an operator, to the output
      keeps a surplus of one. */
  lemma EmitTop<V>(reg: Registry<V>, y: Yard)
    requires Surplus(reg, y, 1)
    requires |y.operators.items| > 0 && y.operators.items[|y.operators.items| - 1] != "("
    ensures var ops := y.operators.items;
      var y' := Yard(y.output + [ops[|ops| - 1]], Stack(ops[..|ops| - 1]));
      && Surplus(reg, y', 1)
      && Occurrences(ops, "(") == Occurrences(ops[..|ops| - 1], "(")
  {
    var ops := y.operators.items;
    var top := ops[|ops| - 1];
    var rest := ops[..|ops| - 1];
    assert ops == rest + [top];
    OccurrencesSnoc(rest, top, "(");
    RunDepthConcat(reg, y.output, [top], 0);
    assert [top][1..] == [];
    assert forall i | 0 <= i < |rest| :: Pending(reg, rest[i]) by {
      forall i | 0 <= i < |rest| ensures Pending(reg, rest[i]) {
        assert rest[i] == ops[i];
      }
    }
  }

  /** Popping above a priority of at least zero, in a well-formed
      registry, never traps, never removes a `(`, and keeps a surplus of
      one. */
  lemma {:induction false} PopHigherSafe<V>(reg: Registry<V>, y: Yard, p: int)
    requires WellFormed(reg) && 0 <= p
    requires Surplus(reg, y, 1)
    ensures PopHigher(reg, y, p).Some?
    ensures Surplus(reg, PopHigher(reg, y, p).value, 1)
    ensures Occurrences(PopHigher(reg, y, p).value.operators.items, "(") == Occurrences(y.operators.items, "(")
    decreases |y.operators.items|
  {
    PriorityLevels(reg, "(");
    if TopPriority(reg, y.operators) > p {
      var ops := y.operators.items;
      assert |ops| > 0;
      EmitTop(reg, y);
      var popped := y.operators.Pop();
      assert popped.1 == Stack(ops[..|ops| - 1]);
      PopHigherSafe(reg, Yard(y.output + [popped.0.value], popped.1), p);
    }
  }

  /** With a `(` on the stack, closing a parenthesis never traps, removes
      exactly one `(`, and keeps a surplus of one. */
  lemma {:induction false} PopToOpenSafe<V>(reg: Registry<V>, y: Yard)
    requires Surplus(reg, y, 1) && Occurrences(y.operators.items, "(") > 0
    ensures PopToOpen(y).Some?
    ensures Surplus(reg, PopToOpen(y).value, 1)
    ensures Occurrences(PopToOpen(y).value.operators.items, "(") + 1 == Occurrences(y.operators.items, "(")
    decreases |y.operators.items|
  {
    var ops := y.operators.items;
    assert |ops| > 0;
    var top := ops[|ops| - 1];
    var rest := ops[..|ops| - 1];
    var popped := y.operators.Pop();
    assert popped.1 == Stack(rest);
    assert ops == rest + [top];
    OccurrencesSnoc(rest, top, "(");
    if top == "(" {
      assert Binaries(reg, ops) == Binaries(reg, rest) + (if IsBinary(reg, top) then 1 else 0);
      assert forall i | 0 <= i < |rest| :: Pending(reg, rest[i]) by {
        forall i | 0 <= i < |rest| ensures Pending(reg, rest[i]) {
          assert rest[i] == ops[i];
        }
      }
    } else {
      EmitTop(reg, y);
      PopToOpenSafe(reg, Yard(y.output + [top], popped.1));
    }
  }

  /** With no `(` left and a surplus of one, the final drain produces an
      output that evaluates to at least one value. */
  lemma {:induction false} DrainSafe<V>(reg: Registry<V>, y: Yard)
    requires Surplus(reg, y, 1) && Occurrences(y.operators.items, "(") == 0
    ensures RunDepth(reg, Drain(y), 0).Some? && RunDepth(reg, Drain(y), 0).value >= 1
    decreases |y.operators.items|
  {
    var ops := y.operators.items;
    if |ops| > 0 {
      var top := ops[|ops| - 1];
      assert ops == ops[..|ops| - 1] + [top];
      OccurrencesSnoc(ops[..|ops| - 1], top, "(");
      EmitTop(reg, y);
      var popped := y.operators.Pop();
      assert popped.1 == Stack(ops[..|ops| - 1]);
      DrainSafe(reg, Yard(y.output + [top], popped.1));
    }
  }

  /** After constant substitution, a token of category `num` is a
      numeral and names nothing. */
  predicate Substituted<V>(reg: Registry<V>, x: string) {
    Category(reg, x) == Num ==> IsNumber(x) && x !in reg
  }

  /** Pushing a pending entry: the counts go up by what it is. */
  lemma PushPending<V>(reg: Registry<V>, z: Yard, x: string)
    requires Pending(reg, x)
    requires forall i | 0 <= i < |z.operators.items| :: Pending(reg, z.operators.items[i])
    ensures var ops := z.operators.items;
      var ops' := z.operators.Push(x).items;
      && (forall i | 0 <= i < |ops'| :: Pending(reg, ops'[i]))
      && Binaries(reg, ops') == Binaries(reg, ops) + (if IsBinary(reg, x) then 1 else 0)
      && Occurrences(ops', "(") == Occurrences(ops, "(") + (if x == "(" then 1 else 0)
  {
    var ops := z.operators.items;
    var ops' := ops + [x];
    assert z.operators.Push(x).items == ops';
    OccurrencesSnoc(ops, x, "(");
    assert ops'[..|ops|] == ops;
    forall i | 0 <= i < |ops'| ensures Pending(reg, ops'[i]) {
      if i < |ops| {
        assert ops'[i] == ops[i];
      }
    }
  }

  /** A numeral after an operator, a `(` or nothing: one value more. */
  lemma StepOperand<V>(reg: Registry<V>, g: Grouping, k: nat, y: Yard, x: string)
    requires Agrees(reg, Q0, k, y) && IsNumber(x) && x !in reg
    ensures SyStep(reg, g, y, x) == Some(Yard(y.output + [x], y.operators))
    ensures Agrees(reg, Q1, k, SyStep(reg, g, y, x).value)
  {
    RunDepthConcat(reg, y.output, [x], 0);
    assert [x][1..] == [];
  }

  /** An opening parenthesis: one more `(` on the stack, no value more. */
  lemma StepOpen<V>(reg: Registry<V>, g: Grouping, q: State, k: nat, y: Yard, x: string)
    requires q != Q1 && Agrees(reg, q, k, y) && x == "(" && x !in reg
    ensures SyStep(reg, g, y, x) == Some(Yard(y.output, y.operators.Push(x)))
    ensures Agrees(reg, Q0, k + 1, SyStep(reg, g, y, x).value)
  {
    assert !IsNumber(x) by { assert !IsDigit(x[0]); }
    PushPending(reg, y, x);
  }

  /** A two-operand operator after an operand: the pops keep the surplus
      of one, and pushing the operator uses it up. */
  lemma StepOperator<V>(reg: Registry<V>, g: Grouping, k: nat, y: Yard, x: string)
    requires WellFormed(reg) && Agrees(reg, Q1, k, y) && IsBinary(reg, x) && !IsNumber(x)
    ensures SyStep(reg, g, y, x).Some?
    ensures Agrees(reg, Q0, k, SyStep(reg, g, y, x).value)
  {
    PriorityLevels(reg, x);
    var t := Threshold(reg, g, x);
    assert t >= 0;
    PopHigherSafe(reg, y, t);
    PushPending(reg, PopHigher(reg, y, t).value, x);
  }

  /** A one-operand function: nothing ranks above it, so it is pushed
      straight away. */
  lemma StepFunction<V>(reg: Registry<V>, g: Grouping, q: State, k: nat, y: Yard, x: string)
    requires WellFormed(reg) && q != Q2 && Agrees(reg, q, k, y) && IsUnary(reg, x) && !IsNumber(x)
    ensures SyStep(reg, g, y, x) == Some(Yard(y.output, y.operators.Push(x)))
    ensures Agrees(reg, Q2, k, SyStep(reg, g, y, x).value)
  {
    PriorityLevels(reg, x);
    assert Threshold(reg, g, x) == 3;
    assert PopHigher(reg, y, 3) == Some(y);
    PushPending(reg, y, x);
  }

  /** A closing parenthesis after an operand, with a `(` open. */
  lemma StepClose<V>(reg: Registry<V>, g: Grouping, k: nat, y: Yard, x: string)
    requires k > 0 && Agrees(reg, Q1, k, y) && x == ")" && x !in reg
    ensures SyStep(reg, g, y, x) == PopToOpen(y)
    ensures SyStep(reg, g, y, x).Some?
    ensures Agrees(reg, Q1, k - 1, SyStep(reg, g, y, x).value)
  {
    assert !IsNumber(x) by { assert !IsDigit(x[0]); }
    PopToOpenSafe(reg, y);
  }

  /** One shunting-yard step on a token the automaton accepts in
      configuration `(q, k)` does not trap and lands in agreement with
      the configuration the automaton moves to. */
  lemma SyStepSafe<V>(reg: Registry<V>, g: Grouping, q: State, k: nat, y: Yard, x: string)
    requires WellFormed(reg) && Working(q) && Agrees(reg, q, k, y)
    requires Substituted(reg, x)
    requires CalcStep(q, k, Category(reg, x)).Some?
    ensures SyStep(reg, g, y, x).Some?
    ensures Agrees(reg, CalcStep(q, k, Category(reg, x)).value.0, CalcStep(q, k, Category(reg, x)).value.1,
                   SyStep(reg, g, y, x).value)
  {
    CategoryMeaning(reg, x);
    var c := Category(reg, x);
    if c == Num {
      StepOperand(reg, g, k, y, x);
    } else if c == "(" {
      StepOpen(reg, g, q, k, y, x);
    } else if c == Op {
      StepOperator(reg, g, k, y, x);
    } else if c == Fun {
      StepFunction(reg, g, q, k, y, x);
    } else {
      StepClose(reg, g, k, y, x);
    }
  }

  /** The whole token loop: over a token sequence whose categories drive
      the counter machine from `(q, k)` somewhere, the shunting yard does
      not trap and ends in agreement with where the machine ends. */
  lemma {:induction false} SyRunSafe<V>(reg: Registry<V>, g: Grouping, q: State, k: nat, y: Yard, xs: seq<string>)
    requires WellFormed(reg) && Working(q) && Agrees(reg, q, k, y)
    requires forall i | 0 <= i < |xs| :: Substituted(reg, xs[i])
    requires CalcRun(q, k, Placeholders(reg, xs)).Some?
    ensures SyRun(reg, g, y, xs).Some?
    ensures var e := CalcRun(q, k, Placeholders(reg, xs)).value;
      Agrees(reg, e.0, e.1, SyRun(reg, g, y, xs).value)
    decreases |xs|
  {
    if |xs| > 0 {
      var cats := Placeholders(reg, xs);
      assert cats[0] == Category(reg, xs[0]);
      assert cats[1..] == Placeholders(reg, xs[1..]);
      SyStepSafe(reg, g, q, k, y, xs[0]);
      var (q', k') := CalcStep(q, k, cats[0]).value;
      assert forall i | 0 <= i < |xs[1..]| :: Substituted(reg, xs[1..][i]) by {
        forall i | 0 <= i < |xs[1..]| ensures Substituted(reg, xs[1..][i]) {
          assert xs[1..][i] == xs[i + 1];
        }
      }
      SyRunSafe(reg, g, q', k', SyStep(reg, g, y, xs[0]).value, xs[1..]);
    }
  }

  /** The conversion and the evaluation of an accepted, substituted token
      sequence neither trap: the postfix form exists and evaluates. */
  lemma AcceptedEvaluates<V>(reg: Registry<V>, g: Grouping, lits: Literals<V>, xs: seq<string>)
    requires WellFormed(reg)
    requires forall i | 0 <= i < |xs| :: Substituted(reg, xs[i])
    requires CalcRun(Q0, 0, Placeholders(reg, xs)) == Some((Q1, 0))
    ensures ShuntingYard(reg, g, xs).Some?
    ensures EvalRpn(reg, lits, ShuntingYard(reg, g, xs).value).Some?
  {
    assert Binaries(reg, StartYard().operators.items) == 0;
    assert Occurrences(StartYard().operators.items, "(") == 0;
    SyRunSafe(reg, g, Q0, 0, StartYard(), xs);
    DrainSafe(reg, SyRun(reg, g, StartYard(), xs).value);
  }

  /** A sequence in which `x` occurs zero times does not contain it. */
  lemma {:induction false} OccurrencesZero(s: seq<string>, x: string)
    requires Occurrences(s, x) == 0
    ensures x !in s
    decreases |s|
  {
    if |s| > 0 {
      OccurrencesZero(s[1..], x);
      assert s == [s[0]] + s[1..];
    }
  }

  /** Moving pending entries from `n` up to the output, top first, adds
      no parenthesis when none of them is a `(`: a `)` is never pending
      in a well-formed registry. */
  lemma MovedNoParens<V>(reg: Registry<V>, output: seq<string>, ops: seq<string>, n: nat)
    requires WellFormed(reg) && n <= |ops|
    requires forall i | 0 <= i < |ops| :: Pending(reg, ops[i])
    requires forall i | n <= i < |ops| :: ops[i] != "("
    requires "(" !in output && ")" !in output
    ensures var out := output + Reverse(ops[n..]);
      "(" !in out && ")" !in out
  {
    var moved := Reverse(ops[n..]);
    forall j | 0 <= j < |moved| ensures moved[j] != "(" && moved[j] != ")" {
      var i := |ops| - 1 - j;
      assert moved[j] == ops[n..][|ops[n..]| - 1 - j] == ops[i];
      assert Pending(reg, ops[i]);
    }
  }

  /** Every entry of the operator stack is pending. */
  predicate AllPending<V>(reg: Registry<V>, ops: seq<string>) {
    forall i | 0 <= i < |ops| :: Pending(reg, ops[i])
  }

  /** An incoming registered name pops entries ranked above a threshold
      of at least zero, which a `(` never is. */
  lemma OperatorNoParens<V>(reg: Registry<V>, g: Grouping, y: Yard, x: string)
    requires WellFormed(reg) && AllPending(reg, y.operators.items)
    requires !IsNumber(x) && x in reg && SyStep(reg, g, y, x).Some?
    requires "(" !in y.output && ")" !in y.output
    ensures "(" !in SyStep(reg, g, y, x).value.output && ")" !in SyStep(reg, g, y, x).value.output
  {
    PriorityLevels(reg, x);
    PriorityLevels(reg, "(");
    var t := Threshold(reg, g, x);
    assert t >= 0;
    PopHigherMoves(reg, y, t);
    MovedNoParens(reg, y.output, y.operators.items, |PopHigher(reg, y, t).value.operators.items|);
  }

  /** A closing parenthesis pops the entries above the topmost `(`. */
  lemma CloseNoParens<V>(reg: Registry<V>, g: Grouping, y: Yard, x: string)
    requires WellFormed(reg) && AllPending(reg, y.operators.items)
    requires !IsNumber(x) && x !in reg && x == ")" && SyStep(reg, g, y, x).Some?
    requires "(" !in y.output && ")" !in y.output
    ensures "(" !in SyStep(reg, g, y, x).value.output && ")" !in SyStep(reg, g, y, x).value.output
  {
    var ops := y.operators.items;
    PopToOpenMoves(y);
    var n := |PopToOpen(y).value.operators.items|;
    assert forall i | n + 1 <= i < |ops| :: ops[i] == ops[n + 1..][i - (n + 1)];
    MovedNoParens(reg, y.output, ops, n + 1);
  }

  /** One step on an accepted token adds no parenthesis to the output:
      the pops of an operator stop at a `(`, and closing discards it. */
  lemma SyStepNoParens<V>(reg: Registry<V>, g: Grouping, q: State, k: nat, y: Yard, x: string)
    requires WellFormed(reg) && Working(q) && Agrees(reg, q, k, y)
    requires Substituted(reg, x)
    requires CalcStep(q, k, Category(reg, x)).Some?
    requires "(" !in y.output && ")" !in y.output
    ensures SyStep(reg, g, y, x).Some?
    ensures "(" !in SyStep(reg, g, y, x).value.output && ")" !in SyStep(reg, g, y, x).value.output
  {
    SyStepSafe(reg, g, q, k, y, x);
    if IsNumber(x) {
      NotNumeral("(");
      NotNumeral(")");
    } else if x in reg {
      OperatorNoParens(reg, g, y, x);
    } else if x == ")" {
      CloseNoParens(reg, g, y, x);
    }
  }

  /** The token loop over an accepted word adds no parenthesis. */
  lemma {:induction false} SyRunNoParens<V>(reg: Registry<V>, g: Grouping, q: State, k: nat, y: Yard, xs: seq<string>)
    requires WellFormed(reg) && Working(q) && Agrees(reg, q, k, y)
    requires forall i | 0 <= i < |xs| :: Substituted(reg, xs[i])
    requires CalcRun(q, k, Placeholders(reg, xs)).Some?
    requires "(" !in y.output && ")" !in y.output
    ensures SyRun(reg, g, y, xs).Some?
    ensures "(" !in SyRun(reg, g, y, xs).value.output && ")" !in SyRun(reg, g, y, xs).value.output
    decreases |xs|
  {
    SyRunSafe(reg, g, q, k, y, xs);
    if |xs| > 0 {
      var cats := Placeholders(reg, xs);
      assert cats[0] == Category(reg, xs[0]);
      assert cats[1..] == Placeholders(reg, xs[1..]);
      SyStepSafe(reg, g, q, k, y, xs[0]);
      SyStepNoParens(reg, g, q, k, y, xs[0]);
      var (q', k') := CalcStep(q, k, cats[0]).value;
      assert forall i | 0 <= i < |xs[1..]| :: Substituted(reg, xs[1..][i]) by {
        forall i | 0 <= i < |xs[1..]| ensures Substituted(reg, xs[1..][i]) {
          assert xs[1..][i] == xs[i + 1];
        }
      }
      SyRunNoParens(reg, g, q', k', SyStep(reg, g, y, xs[0]).value, xs[1..]);
    }
  }

  /** The postfix form of an accepted, substituted token sequence holds
      no parenthesis: each `(` is discarded by its `)`, none is left
      for the final drain, and a `)` is never stacked. */
  lemma AcceptedPostfixHasNoParens<V>(reg: Registry<V>, g: Grouping, xs: seq<string>)
    requires WellFormed(reg)
    requires forall i | 0 <= i < |xs| :: Substituted(reg, xs[i])
    requires CalcRun(Q0, 0, Placeholders(reg, xs)) == Some((Q1, 0))
    ensures ShuntingYard(reg, g, xs).Some?
    ensures "(" !in ShuntingYard(reg, g, xs).value && ")" !in ShuntingYard(reg, g, xs).value
  {
    assert Binaries(reg, StartYard().operators.items) == 0;
    assert Occurrences(StartYard().operators.items, "(") == 0;
    SyRunSafe(reg, g, Q0, 0, StartYard(), xs);
    SyRunNoParens(reg, g, Q0, 0, StartYard(), xs);
    var y := SyRun(reg, g, StartYard(), xs).value;
    OccurrencesZero(y.operators.items, "(");
    MovedNoParens(reg, y.output, y.operators.items, 0);
    assert y.operators.items[0..] == y.operators.items;
  }
}
