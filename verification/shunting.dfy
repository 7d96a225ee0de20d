/**
 `shuntingYard(tokenizedExpr:allowedOperators:)` of
 Calculator/MathEvaluator.swift (lines 167-195): infix tokens to postfix.
 The source force-unwraps `pop()` in two loops; where that unwrap would
 trap, the functions here return `None`.
 */
module Shunting {
  import opened Wrappers
  import opened Stacks
  import opened Operations
  import opened Rewrite

  /** The postfix output produced so far and the operator stack. */
  datatype Yard = Yard(output: seq<string>, operators: Stack<string>)

  /** The algorithm's starting state. */
  function StartYard(): Yard {
    Yard([], EmptyStack())
  }

  /** Priority of the top of the operator stack, `"empty"` standing for
      an empty stack. */
  function TopPriority<V>(reg: Registry<V>, s: Stack<string>): int {
    Priority(reg, s.Peek().GetOr(EmptyMarker))
  }

  /** Lines 175-178: move operators from the stack to the output while the
      top ranks strictly above `p`; `pop()!` traps on an empty stack. */
  function PopHigher<V>(reg: Registry<V>, y: Yard, p: int): (r: Option<Yard>)
    ensures r.Some? ==> TopPriority(reg, r.value.operators) <= p
    decreases |y.operators.items|
  {
    if TopPriority(reg, y.operators) > p then
      if y.operators.IsEmpty() then None
      else
        var popped := y.operators.Pop();
        PopHigher(reg, Yard(y.output + [popped.0.value], popped.1), p)
    else Some(y)
  }

  /** `PopHigher` traps only when every entry of the stack and the
      empty-stack stand-in rank above `p`. */
  lemma {:induction false} PopHigherTraps<V>(reg: Registry<V>, y: Yard, p: int)
    ensures var ops := y.operators.items;
      PopHigher(reg, y, p).None? <==>
        Priority(reg, EmptyMarker) > p && forall i | 0 <= i < |ops| :: Priority(reg, ops[i]) > p
    decreases |y.operators.items|
  {
    var ops := y.operators.items;
    if TopPriority(reg, y.operators) > p && !y.operators.IsEmpty() {
      var popped := y.operators.Pop();
      var y' := Yard(y.output + [popped.0.value], popped.1);
      assert popped.1.items == ops[..|ops| - 1];
      PopHigherTraps(reg, y', p);
      if PopHigher(reg, y', p).None? {
        forall i | 0 <= i < |ops| ensures Priority(reg, ops[i]) > p {
          if i < |ops| - 1 {
            assert ops[i] == ops[..|ops| - 1][i];
          }
        }
      }
    } else if TopPriority(reg, y.operators) <= p && |ops| > 0 {
      assert Priority(reg, ops[|ops| - 1]) <= p;
    }
  }

  /** The entries from `n` up, seen as those up to the top plus the top. */
  lemma TopSplit(ops: seq<string>, n: nat)
    requires n < |ops|
    ensures ops[n..] == ops[..|ops| - 1][n..] + [ops[|ops| - 1]]
    ensures Reverse(ops[n..]) == [ops[|ops| - 1]] + Reverse(ops[..|ops| - 1][n..])
  {
    assert ops[n..] == ops[..|ops| - 1][n..] + [ops[|ops| - 1]];
    ReverseSnoc(ops[..|ops| - 1][n..], ops[|ops| - 1]);
  }

  /** When it does not trap, `PopHigher` moves exactly the longest run of
      entries at the top of the stack that rank above `p`, in popping
      order. */
  lemma {:induction false} PopHigherMoves<V>(reg: Registry<V>, y: Yard, p: int)
    requires PopHigher(reg, y, p).Some?
    ensures var r := PopHigher(reg, y, p).value;
      var ops := y.operators.items;
      var n := |r.operators.items|;
      && n <= |ops| && r.operators.items == ops[..n]
      && r.output == y.output + Reverse(ops[n..])
      && (forall i | n <= i < |ops| :: Priority(reg, ops[i]) > p)
    decreases |y.operators.items|
  {
    var ops := y.operators.items;
    if TopPriority(reg, y.operators) > p {
      var popped := y.operators.Pop();
      var top := ops[|ops| - 1];
      assert popped.1.items == ops[..|ops| - 1];
      var y' := Yard(y.output + [top], popped.1);
      PopHigherMoves(reg, y', p);
      var r := PopHigher(reg, y', p).value;
      MovedOneMore(reg, ops, popped.1.items, y.output, |r.operators.items|, r.output, p);
    } else {
      assert ops[|ops|..] == [];
    }
  }

  /** Popping the top entry and then the entries from `n` up to below it
      moves the entries from `n` up to the top, top first. */
  lemma MovedOneMore<V>(reg: Registry<V>, ops: seq<string>, rest: seq<string>, output: seq<string>,
                          n: nat, moved: seq<string>, p: int)
    requires n < |ops| && rest == ops[..|ops| - 1] && Priority(reg, ops[|ops| - 1]) > p
    requires moved == (output + [ops[|ops| - 1]]) + Reverse(rest[n..])
    requires forall i | n <= i < |rest| :: Priority(reg, rest[i]) > p
    ensures rest[..n] == ops[..n]
    ensures moved == output + Reverse(ops[n..])
    ensures forall i | n <= i < |ops| :: Priority(reg, ops[i]) > p
  {
    TopSplit(ops, n);
    forall i | n <= i < |ops| ensures Priority(reg, ops[i]) > p {
      if i < |ops| - 1 {
        assert ops[i] == rest[i];
      }
    }
  }

  /** Lines 183-187: move operators to the output until a `(` is on top,
      then discard that `(`; `pop()!` traps on an empty stack. The `(`
      it stops at is removed, so the stack always shrinks. */
  function PopToOpen(y: Yard): (r: Option<Yard>)
    ensures r.Some? ==> |r.value.operators.items| < |y.operators.items|
    decreases |y.operators.items|
  {
    if y.operators.IsEmpty() then None
    else
      var popped := y.operators.Pop();
      if popped.0.value == "(" then Some(Yard(y.output, popped.1))
      else PopToOpen(Yard(y.output + [popped.0.value], popped.1))
  }

  /** `PopToOpen` succeeds exactly when the stack holds a `(`. */
  lemma {:induction false} PopToOpenTraps(y: Yard)
    ensures PopToOpen(y).Some? <==> "(" in y.operators.items
    decreases |y.operators.items|
  {
    var ops := y.operators.items;
    if |ops| > 0 {
      var popped := y.operators.Pop();
      assert popped.1.items == ops[..|ops| - 1];
      assert ops == popped.1.items + [ops[|ops| - 1]];
      if popped.0.value != "(" {
        PopToOpenTraps(Yard(y.output + [popped.0.value], popped.1));
      }
    }
  }

  /** When it succeeds, `PopToOpen` stops at the topmost `(`: the entries
      above it go to the output in popping order, and the `(` itself is
      discarded. */
  lemma {:induction false} PopToOpenMoves(y: Yard)
    requires PopToOpen(y).Some?
    ensures var ops := y.operators.items;
      var r := PopToOpen(y).value;
      var n := |r.operators.items|;
      && n < |ops| && ops[n] == "(" && r.operators.items == ops[..n]
      && "(" !in ops[n + 1..]
      && r.output == y.output + Reverse(ops[n + 1..])
    decreases |y.operators.items|
  {
    var ops := y.operators.items;
    var popped := y.operators.Pop();
    var top := ops[|ops| - 1];
    assert popped.1.items == ops[..|ops| - 1];
    if top == "(" {
      assert ops[|ops|..] == [];
    } else {
      var y' := Yard(y.output + [top], popped.1);
      PopToOpenMoves(y');
      var r := PopToOpen(y').value;
      var n := |r.operators.items|;
      TopSplit(ops, n + 1);
      assert ops[n] == ops[..|ops| - 1][n];
      assert r.output == (y.output + [top]) + Reverse(ops[..|ops| - 1][n + 1..]);
    }
  }

  /** Lines 190-193: everything left on the stack goes to the output, top
      first. */
  function Drain(y: Yard): (r: seq<string>)
    ensures r == y.output + Reverse(y.operators.items)
    decreases |y.operators.items|
  {
    if y.operators.IsEmpty() then y.output
    else
      var ops := y.operators.items;
      var popped := y.operators.Pop();
      assert Reverse(ops) == [ops[|ops| - 1]] + Reverse(ops[..|ops| - 1]);
      Drain(Yard(y.output + [popped.0.value], popped.1))
  }

  /** How operators of equal priority group. The source pops only entries
      that rank strictly above the incoming symbol (line 175), so every
      operator groups to the right: `AsWritten`. `LeftToRight` also pops
      equal-ranked entries for `+`, `-`, `*` and `/`, the usual reading
      of those operators, and leaves `^` grouping to the right. */
  datatype Grouping = AsWritten | LeftToRight

  /** The priority an incoming registered name pops strictly above. */
  function Threshold<V>(reg: Registry<V>, g: Grouping, x: string): int {
    if g == LeftToRight && IsBinary(reg, x) && x != "^" then Priority(reg, x) - 1
    else Priority(reg, x)
  }

  /** Which entries an incoming operator pops: as written, those ranked
      strictly above it; left to right, for `+ - * /`, those ranked at
      least as high. Either way a `(` is never popped. */
  lemma ThresholdMeaning<V>(reg: Registry<V>, g: Grouping, x: string, top: string)
    requires WellFormed(reg) && IsBinary(reg, x)
    ensures g == AsWritten || x == "^" ==>
      (Priority(reg, top) > Threshold(reg, g, x) <==> Priority(reg, top) > Priority(reg, x))
    ensures g == LeftToRight && x != "^" ==>
      (Priority(reg, top) > Threshold(reg, g, x) <==> Priority(reg, top) >= Priority(reg, x))
    ensures Threshold(reg, g, x) >= 0 && Priority(reg, "(") <= Threshold(reg, g, x)
  {
    PriorityLevels(reg, x);
  }

  /** One iteration of the `for` loop (lines 171-188). The source's
      `allowedOperators` is the registry's key list, so any registered
      name, constants included, counts as an operator. Tokens that are
      neither numbers, registered names nor parentheses are dropped. A
      step traps only in the pops of an operator or a `)`, and the output
      only grows. */
  function SyStep<V>(reg: Registry<V>, g: Grouping, y: Yard, x: string): (r: Option<Yard>)
    ensures r.None? ==> !IsNumber(x) && (x in reg || x == ")")
    ensures r.Some? ==> |y.output| <= |r.value.output| && r.value.output[..|y.output|] == y.output
  {
    if IsNumber(x) then Some(Yard(y.output + [x], y.operators))
    else if x in reg then
      match PopHigher(reg, y, Threshold(reg, g, x))
      case None => None
      case Some(z) =>
        PopHigherMoves(reg, y, Threshold(reg, g, x));
        Some(Yard(z.output, z.operators.Push(x)))
    else if x == "(" then Some(Yard(y.output, y.operators.Push(x)))
    else if x == ")" then
      if PopToOpen(y).Some? then PopToOpenMoves(y); PopToOpen(y) else None
    else Some(y)
  }

  /** The `for` loop over the tokens, trapping at the first trapping step. */
  function SyRun<V>(reg: Registry<V>, g: Grouping, y: Yard, xs: seq<string>): Option<Yard>
    decreases |xs|
  {
    if |xs| == 0 then Some(y)
    else
      match SyStep(reg, g, y, xs[0])
      case None => None
      case Some(y') => SyRun(reg, g, y', xs[1..])
  }

  /** The numerals of `s`, in order. */
  function Numerals(s: seq<string>): seq<string>
    decreases |s|
  {
    if |s| == 0 then [] else (if IsNumber(s[0]) then [s[0]] else []) + Numerals(s[1..])
  }

  /** The numerals of a concatenation are those of each part. */
  lemma {:induction false} NumeralsConcat(a: seq<string>, b: seq<string>)
    ensures Numerals(a + b) == Numerals(a) + Numerals(b)
    decreases |a|
  {
    if |a| == 0 {
      assert a + b == b;
    } else {
      assert (a + b)[0] == a[0] && (a + b)[1..] == a[1..] + b;
      NumeralsConcat(a[1..], b);
    }
  }

  /** No entry of `s` is a numeral. */
  predicate NoNumerals(s: seq<string>) {
    forall i | 0 <= i < |s| :: !IsNumber(s[i])
  }

  /** A sequence with no numeral contributes none. */
  lemma {:induction false} NumeralsNone(s: seq<string>)
    requires NoNumerals(s)
    ensures Numerals(s) == []
    decreases |s|
  {
    if |s| > 0 {
      assert NoNumerals(s[1..]) by {
        forall i | 0 <= i < |s[1..]| ensures !IsNumber(s[1..][i]) {
          assert s[1..][i] == s[i + 1];
        }
      }
      NumeralsNone(s[1..]);
    }
  }

  /** Moving the stack entries from `n` up to the output, top first,
      adds no numeral when the stack holds none, and what stays holds
      none either. */
  lemma EmitNoNumerals(output: seq<string>, ops: seq<string>, n: nat)
    requires NoNumerals(ops) && n <= |ops|
    ensures Numerals(output + Reverse(ops[n..])) == Numerals(output)
    ensures NoNumerals(ops[..n])
  {
    var moved := Reverse(ops[n..]);
    assert NoNumerals(moved) by {
      forall i | 0 <= i < |moved| ensures !IsNumber(moved[i]) {
        assert moved[i] == ops[n..][|ops[n..]| - 1 - i] == ops[|ops| - 1 - i];
      }
    }
    NumeralsNone(moved);
    NumeralsConcat(output, moved);
    assert forall i | 0 <= i < n :: ops[..n][i] == ops[i];
  }

  /** Pushing a non-numeral keeps the stack free of numerals. */
  lemma PushNoNumerals(ops: seq<string>, x: string)
    requires NoNumerals(ops) && !IsNumber(x)
    ensures NoNumerals(ops + [x])
  {
    assert forall i | 0 <= i < |ops| :: (ops + [x])[i] == ops[i];
  }

  /** An incoming registered name: the pops move only stacked entries. */
  lemma OperatorNumerals<V>(reg: Registry<V>, g: Grouping, y: Yard, x: string)
    requires NoNumerals(y.operators.items) && !IsNumber(x) && x in reg
    requires SyStep(reg, g, y, x).Some?
    ensures var z := SyStep(reg, g, y, x).value;
      NoNumerals(z.operators.items) && Numerals(z.output) == Numerals(y.output)
  {
    var t := Threshold(reg, g, x);
    PopHigherMoves(reg, y, t);
    var w := PopHigher(reg, y, t).value;
    EmitNoNumerals(y.output, y.operators.items, |w.operators.items|);
    PushNoNumerals(w.operators.items, x);
  }

  /** A closing parenthesis: the pops move only stacked entries. */
  lemma CloseNumerals<V>(reg: Registry<V>, g: Grouping, y: Yard, x: string)
    requires NoNumerals(y.operators.items) && !IsNumber(x) && x !in reg && x == ")"
    requires SyStep(reg, g, y, x).Some?
    ensures var z := SyStep(reg, g, y, x).value;
      NoNumerals(z.operators.items) && Numerals(z.output) == Numerals(y.output)
  {
    PopToOpenMoves(y);
    var w := PopToOpen(y).value;
    EmitNoNumerals(y.output, y.operators.items, |w.operators.items| + 1);
    var ops := y.operators.items;
    var n := |w.operators.items|;
    assert w.operators.items == ops[..n + 1][..n];
    assert NoNumerals(w.operators.items) by {
      forall i | 0 <= i < n ensures !IsNumber(w.operators.items[i]) {
        assert w.operators.items[i] == ops[..n + 1][i];
      }
    }
  }

  /** One step never stacks a numeral: a numeral goes straight to the
      output, and whatever else reaches the output comes off the stack. */
  lemma SyStepNumerals<V>(reg: Registry<V>, g: Grouping, y: Yard, x: string)
    requires NoNumerals(y.operators.items)
    requires SyStep(reg, g, y, x).Some?
    ensures var z := SyStep(reg, g, y, x).value;
      && NoNumerals(z.operators.items)
      && Numerals(z.output) == Numerals(y.output) + Numerals([x])
  {
    assert [x][1..] == [];
    if IsNumber(x) {
      NumeralsConcat(y.output, [x]);
    } else if x in reg {
      OperatorNumerals(reg, g, y, x);
    } else if x == "(" {
      PushNoNumerals(y.operators.items, x);
    } else if x == ")" {
      CloseNumerals(reg, g, y, x);
    }
  }

  /** The token loop keeps every numeral and adds none, in order. */
  lemma {:induction false} SyRunNumerals<V>(reg: Registry<V>, g: Grouping, y: Yard, xs: seq<string>)
    requires NoNumerals(y.operators.items)
    requires SyRun(reg, g, y, xs).Some?
    ensures NoNumerals(SyRun(reg, g, y, xs).value.operators.items)
    ensures Numerals(SyRun(reg, g, y, xs).value.output) == Numerals(y.output) + Numerals(xs)
    decreases |xs|
  {
    if |xs| > 0 {
      SyStepNumerals(reg, g, y, xs[0]);
      SyRunNumerals(reg, g, SyStep(reg, g, y, xs[0]).value, xs[1..]);
      assert xs == [xs[0]] + xs[1..];
      NumeralsConcat([xs[0]], xs[1..]);
    }
  }

  /** `shuntingYard`: `None` where the source traps. The numerals of the
      input reach the output in their input order, none added or dropped:
      a numeral is never stacked. */
  function ShuntingYard<V>(reg: Registry<V>, g: Grouping, tokens: seq<string>): (r: Option<seq<string>>)
    ensures r.Some? ==> Numerals(r.value) == Numerals(tokens)
  {
    match SyRun(reg, g, StartYard(), tokens)
    case None => None
    case Some(y) =>
      SyRunNumerals(reg, g, StartYard(), tokens);
      EmitNoNumerals(y.output, y.operators.items, 0);
      assert y.operators.items[0..] == y.operators.items;
      Some(Drain(y))
  }
}
