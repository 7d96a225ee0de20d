/**
 `evalReversPolishNotation(rpnExpr:)` of Calculator/MathEvaluator.swift
 (lines 203-220): a value stack driven by the postfix tokens. Where the
 source's `popLast()!` or `result[0]` would trap, the functions here
 return `None`.
 */
module Rpn {
  import opened Wrappers
  import opened Operations
  import opened Rewrite
  import opened Categories

  /** The loop over the tokens from value stack `st` (top last). Whether
      it traps, and how many values it leaves, depend only on the stack
      height, as `RunDepth` counts it. A
      one-operand function replaces the top; a two-operand function is
      called as `fun(top, below)` — Swift evaluates the two `popLast()`
      arguments left to right — and its result replaces both; a constant
      is skipped; a numeral is parsed and pushed; anything else is
      skipped. */
  function EvalStack<V>(reg: Registry<V>, lits: Literals<V>, rpn: seq<string>, st: seq<V>): (r: Option<seq<V>>)
    ensures r.Some? <==> RunDepth(reg, rpn, |st|).Some?
    ensures r.Some? ==> |r.value| == RunDepth(reg, rpn, |st|).value
    decreases |rpn|
  {
    if |rpn| == 0 then Some(st)
    else
      var t := rpn[0];
      if t in reg then
        match reg[t]
        case Unary(f) =>
          if |st| >= 1 then EvalStack(reg, lits, rpn[1..], st[..|st| - 1] + [f(st[|st| - 1])])
          else None
        case Binary(g) =>
          if |st| >= 2 then EvalStack(reg, lits, rpn[1..], st[..|st| - 2] + [g(st[|st| - 1], st[|st| - 2])])
          else None
        case Constant(_) => EvalStack(reg, lits, rpn[1..], st)
      else if IsNumber(t) then EvalStack(reg, lits, rpn[1..], st + [lits.parse(t)])
      else EvalStack(reg, lits, rpn[1..], st)
  }

  /** `evalReversPolishNotation`: the value at the BOTTOM of the stack
      (`result[0]`) once every token is consumed. It answers exactly
      when the heights never run short and end above zero. */
  function EvalRpn<V>(reg: Registry<V>, lits: Literals<V>, rpn: seq<string>): (r: Option<V>)
    ensures r.Some? <==> RunDepth(reg, rpn, 0).Some? && RunDepth(reg, rpn, 0).value >= 1
  {
    match EvalStack(reg, lits, rpn, [])
    case None => None
    case Some(st) => if |st| == 0 then None else Some(st[0])
  }

  /** The stack height alone: what each token needs and leaves, `None`
      where a token needs more values than there are. */
  function RunDepth<V>(reg: Registry<V>, rpn: seq<string>, d: nat): Option<nat>
    decreases |rpn|
  {
    if |rpn| == 0 then Some(d)
    else
      var t := rpn[0];
      if IsUnary(reg, t) then (if d >= 1 then RunDepth(reg, rpn[1..], d) else None)
      else if IsBinary(reg, t) then (if d >= 2 then RunDepth(reg, rpn[1..], d - 1) else None)
      else if t !in reg && IsNumber(t) then RunDepth(reg, rpn[1..], d + 1)
      else RunDepth(reg, rpn[1..], d)
  }

  /** Heights compose: running `a + b` is running `a`, then `b` from the
      height `a` left. */
  lemma {:induction false} RunDepthConcat<V>(reg: Registry<V>, a: seq<string>, b: seq<string>, d: nat)
    ensures RunDepth(reg, a + b, d) ==
      match RunDepth(reg, a, d) case None => None case Some(d') => RunDepth(reg, b, d')
    decreases |a|
  {
    if |a| == 0 {
      assert a + b == b;
    } else {
      assert (a + b)[0] == a[0] && (a + b)[1..] == a[1..] + b;
      var t := a[0];
      if IsUnary(reg, t) {
        if d >= 1 { RunDepthConcat(reg, a[1..], b, d); }
      } else if IsBinary(reg, t) {
        if d >= 2 { RunDepthConcat(reg, a[1..], b, d - 1); }
      } else if t !in reg && IsNumber(t) {
        RunDepthConcat(reg, a[1..], b, d + 1);
      } else {
        RunDepthConcat(reg, a[1..], b, d);
      }
    }
  }

  /** The source's loop with its two force-unwrapped pops and the final
      `result[0]`. */
  method EvalRpnLoop<V>(reg: Registry<V>, lits: Literals<V>, rpn: seq<string>) returns (r: Option<V>)
    ensures r == EvalRpn(reg, lits, rpn)
  {
    var result: seq<V> := [];
    var i := 0;
    while i < |rpn|
      invariant 0 <= i <= |rpn|
      invariant EvalStack(reg, lits, rpn[i..], result) == EvalStack(reg, lits, rpn, [])
    {
      assert rpn[i..][1..] == rpn[i + 1..];
      var symbol := rpn[i];
      if symbol in reg {
        match reg[symbol]
        case Unary(f) =>
          if |result| < 1 {
            return None;
          }
          result := result[..|result| - 1] + [f(result[|result| - 1])];
        case Binary(g) =>
          if |result| < 2 {
            return None;
          }
          result := result[..|result| - 2] + [g(result[|result| - 1], result[|result| - 2])];
        case Constant(_) =>
      } else if IsNumber(symbol) {
        result := result + [lits.parse(symbol)];
      }
      i := i + 1;
    }
    if |result| == 0 {
      return None;
    }
    r := Some(result[0]);
  }
}
