/**
 What the evaluator of Calculator/MathEvaluator.swift computes, stated on
 small inputs: the operand order each built-in operator uses, how
 operators of equal priority group, what happens to a number written
 before a function call, and the operand order of `^`.
 */
module Semantics {
  import opened Wrappers
  import opened Operations
  import opened Rewrite
  import opened Categories
  import opened Shunting
  import opened Rpn
  import opened Automaton
  import opened Grammar
  import opened Evaluator

  /** The postfix evaluator under a registry without numeral names, on
      `a b x` with `x` a two-operand entry, calls it as `op(b, a)`. */
  lemma BinaryCall<V>(reg: Registry<V>, lits: Literals<V>, a: string, b: string, x: string)
    requires NoNumeralNames(reg) && IsNumber(a) && IsNumber(b) && IsBinary(reg, x)
    ensures EvalRpn(reg, lits, [a, b, x]) == Some(reg[x].op(lits.parse(b), lits.parse(a)))
  {
    assert a !in reg && b !in reg;
    var pa, pb := lits.parse(a), lits.parse(b);
    var w := [a, b, x];
    assert w[1..] == [b, x] && w[1..][1..] == [x] && [x][1..] == [];
    assert EvalStack(reg, lits, w, []) == EvalStack(reg, lits, [b, x], [pa]) by {
      assert [] + [pa] == [pa];
    }
    assert EvalStack(reg, lits, [b, x], [pa]) == EvalStack(reg, lits, [x], [pa, pb]);
    var st := [pa, pb];
    assert st[..0] + [reg[x].op(st[1], st[0])] == [reg[x].op(pb, pa)];
    assert EvalStack(reg, lits, [x], st) == Some([reg[x].op(pb, pa)]);
  }

  lemma AddOperandOrder<V>(lib: Library<V>, lits: Literals<V>, a: string, b: string)
    requires IsNumber(a) && IsNumber(b)
    ensures EvalRpn(Builtins(lib), lits, [a, b, "+"]) == Some(lib.add(lits.parse(a), lits.parse(b)))
  {
    BuiltinsNoNumeralNames(lib);
    BinaryCall(Builtins(lib), lits, a, b, "+");
  }

  lemma SubOperandOrder<V>(lib: Library<V>, lits: Literals<V>, a: string, b: string)
    requires IsNumber(a) && IsNumber(b)
    ensures EvalRpn(Builtins(lib), lits, [a, b, "-"]) == Some(lib.sub(lits.parse(a), lits.parse(b)))
  {
    BuiltinsNoNumeralNames(lib);
    BinaryCall(Builtins(lib), lits, a, b, "-");
  }

  lemma MulOperandOrder<V>(lib: Library<V>, lits: Literals<V>, a: string, b: string)
    requires IsNumber(a) && IsNumber(b)
    ensures EvalRpn(Builtins(lib), lits, [a, b, "*"]) == Some(lib.mul(lits.parse(a), lits.parse(b)))
  {
    BuiltinsNoNumeralNames(lib);
    BinaryCall(Builtins(lib), lits, a, b, "*");
  }

  lemma DivOperandOrder<V>(lib: Library<V>, lits: Literals<V>, a: string, b: string)
    requires IsNumber(a) && IsNumber(b)
    ensures EvalRpn(Builtins(lib), lits, [a, b, "/"]) == Some(lib.div(lits.parse(a), lits.parse(b)))
  {
    BuiltinsNoNumeralNames(lib);
    BinaryCall(Builtins(lib), lits, a, b, "/");
  }

  /** The four arithmetic operators take their left operand from deeper
      in the stack: `a b -` is `a - b`, and likewise for `+`, `*`, `/`. */
  lemma ArithmeticOperandOrder<V>(lib: Library<V>, lits: Literals<V>, a: string, b: string)
    requires IsNumber(a) && IsNumber(b)
    ensures EvalRpn(Builtins(lib), lits, [a, b, "+"]) == Some(lib.add(lits.parse(a), lits.parse(b)))
    ensures EvalRpn(Builtins(lib), lits, [a, b, "-"]) == Some(lib.sub(lits.parse(a), lits.parse(b)))
    ensures EvalRpn(Builtins(lib), lits, [a, b, "*"]) == Some(lib.mul(lits.parse(a), lits.parse(b)))
    ensures EvalRpn(Builtins(lib), lits, [a, b, "/"]) == Some(lib.div(lits.parse(a), lits.parse(b)))
  {
    AddOperandOrder(lib, lits, a, b);
    SubOperandOrder(lib, lits, a, b);
    MulOperandOrder(lib, lits, a, b);
    DivOperandOrder(lib, lits, a, b);
  }

  /** As written, `^` is bound to `pow` itself, so `a b ^` is `pow(b, a)`:
      the exponent is taken as the base. */
  lemma PowAsWritten<V>(lib: Library<V>, lits: Literals<V>, a: string, b: string)
    requires IsNumber(a) && IsNumber(b)
    ensures EvalRpn(Builtins(lib), lits, [a, b, "^"]) == Some(lib.pow(lits.parse(b), lits.parse(a)))
  {
    BuiltinsNoNumeralNames(lib);
    BinaryCall(Builtins(lib), lits, a, b, "^");
  }

  /** With `^` bound like the other operators, `a b ^` is `pow(a, b)`, and
      the three other entries named in the binding are unchanged. */
  lemma PowCorrected<V>(lib: Library<V>, lits: Literals<V>, a: string, b: string)
    requires IsNumber(a) && IsNumber(b)
    ensures EvalRpn(BuiltinsCorrected(lib), lits, [a, b, "^"]) == Some(lib.pow(lits.parse(a), lits.parse(b)))
    ensures EvalRpn(BuiltinsCorrected(lib), lits, [a, b, "-"]) == Some(lib.sub(lits.parse(a), lits.parse(b)))
    ensures forall x | x in Builtins(lib) && x != "^" :: BuiltinsCorrected(lib)[x] == Builtins(lib)[x]
  {
    BuiltinsNoNumeralNames(lib);
    BinaryCall(BuiltinsCorrected(lib), lits, a, b, "^");
    BinaryCall(BuiltinsCorrected(lib), lits, a, b, "-");
  }

  /** A concrete instance over the integers, where `pow` is repeated
      multiplication. */
  function IntPow(b: int, e: int): int
    decreases e
  {
    if e <= 0 then 1 else b * IntPow(b, e - 1)
  }

  /** Value of one decimal digit. */
  function DigitValue(c: char): int {
    if IsDigit(c) then c as int - '0' as int else 0
  }

  function IntLibrary(): Library<int> {
    Library(3, 2,
      (x, y) => x + y, (x, y) => x - y, (x, y) => x * y, (x, y) => if y == 0 then 0 else x / y,
      IntPow,
      x => x, x => x, x => x, x => x, x => x, x => x, x => if x < 0 then -x else x, x => x)
  }

  /** Single-digit literals; every value prints as `0`. */
  function IntLiterals(): Literals<int> {
    Literals(s => if |s| == 1 then DigitValue(s[0]) else 0, (_: int) => "0")
  }

  /** `2 3 ^` is 9 as written, where two to the third is 8. */
  lemma PowOperandsSwapped()
    ensures EvalRpn(Builtins(IntLibrary()), IntLiterals(), ["2", "3", "^"]) == Some(9)
    ensures EvalRpn(BuiltinsCorrected(IntLibrary()), IntLiterals(), ["2", "3", "^"]) == Some(8)
  {
    PowAsWritten(IntLibrary(), IntLiterals(), "2", "3");
    PowCorrected(IntLibrary(), IntLiterals(), "2", "3");
    assert IntLiterals().parse("2") == 2 && IntLiterals().parse("3") == 3;
    assert IntPow(3, 2) == 9 && IntPow(2, 3) == 8;
  }

  /** The first three iterations of the token loop on `1 - 2 - 3`, the
      same under either grouping. */
  lemma ChainHead<V>(reg: Registry<V>, g: Grouping)
    requires IsBinary(reg, "-") && !IsUnary(reg, EmptyMarker)
    ensures SyRun(reg, g, StartYard(), ["1", "-", "2", "-", "3"]) ==
      SyRun(reg, g, Yard(["1", "2"], Stacks.Stack(["-"])), ["-", "3"])
  {
    assert IsNumber("1") && IsNumber("2") && !IsNumber("-");
    var xs := ["1", "-", "2", "-", "3"];
    var y1 := Yard(["1"], Stacks.Stack([]));
    var y2 := Yard(["1"], Stacks.Stack(["-"]));
    var y3 := Yard(["1", "2"], Stacks.Stack(["-"]));
    assert [] + ["1"] == ["1"] && ["1"] + ["2"] == ["1", "2"] && [] + ["-"] == ["-"];
    assert Priority(reg, EmptyMarker) == 0 && Priority(reg, "-") == 1;
    assert Threshold(reg, g, "-") >= 0;
    assert SyStep(reg, g, StartYard(), "1") == Some(y1);
    assert SyStep(reg, g, y1, "-") == Some(y2);
    assert SyStep(reg, g, y2, "2") == Some(y3);
    assert xs[1..] == ["-", "2", "-", "3"] && xs[2..] == ["2", "-", "3"] && xs[3..] == ["-", "3"];
  }

  /** The last two iterations: the second `-` does not pop the first. */
  lemma RightGroupingTail<V>(reg: Registry<V>)
    requires IsBinary(reg, "-")
    ensures SyRun(reg, AsWritten, Yard(["1", "2"], Stacks.Stack(["-"])), ["-", "3"]) ==
      Some(Yard(["1", "2", "3"], Stacks.Stack(["-", "-"])))
  {
    assert IsNumber("3") && !IsNumber("-");
    var y3 := Yard(["1", "2"], Stacks.Stack(["-"]));
    var y4 := Yard(["1", "2"], Stacks.Stack(["-", "-"]));
    var y5 := Yard(["1", "2", "3"], Stacks.Stack(["-", "-"]));
    assert ["1", "2"] + ["3"] == ["1", "2", "3"] && ["-"] + ["-"] == ["-", "-"];
    assert Priority(reg, "-") == 1;
    assert SyStep(reg, AsWritten, y3, "-") == Some(y4);
    assert SyStep(reg, AsWritten, y4, "3") == Some(y5);
    assert ["-", "3"][1..] == ["3"] && ["3"][1..] == [];
  }

  /** Equal priorities group to the right: the popping test is a strict
      `>`, so `1 - 2 - 3` converts to `1 2 3 - -`. */
  lemma RightGroupingPostfix<V>(reg: Registry<V>)
    requires IsBinary(reg, "-") && !IsUnary(reg, EmptyMarker)
    ensures ShuntingYard(reg, AsWritten, ["1", "-", "2", "-", "3"]) == Some(["1", "2", "3", "-", "-"])
  {
    ChainHead(reg, AsWritten);
    RightGroupingTail(reg);
    var y5 := Yard(["1", "2", "3"], Stacks.Stack(["-", "-"]));
    var r := Drain(y5);
    assert ShuntingYard(reg, AsWritten, ["1", "-", "2", "-", "3"]) == Some(r);
    assert r == ["1", "2", "3"] + Stacks.Reverse(["-", "-"]);
    assert Stacks.Reverse(["-", "-"]) == ["-", "-"];
    assert ["1", "2", "3"] + ["-", "-"] == ["1", "2", "3", "-", "-"];
  }

  /** Three numerals are pushed in order. */
  lemma PushThree<V>(reg: Registry<V>, lits: Literals<V>, a: string, b: string, c: string, rest: seq<string>)
    requires NoNumeralNames(reg) && IsNumber(a) && IsNumber(b) && IsNumber(c)
    ensures EvalStack(reg, lits, [a, b, c] + rest, []) ==
      EvalStack(reg, lits, rest, [lits.parse(a), lits.parse(b), lits.parse(c)])
  {
    assert a !in reg && b !in reg && c !in reg;
    var pa, pb, pc := lits.parse(a), lits.parse(b), lits.parse(c);
    var w := [a, b, c] + rest;
    assert w[0] == a && w[1..] == [b, c] + rest;
    assert w[1..][0] == b && w[1..][1..] == [c] + rest;
    assert w[1..][1..][0] == c && w[1..][1..][1..] == rest;
    assert [] + [pa] == [pa] && [pa] + [pb] == [pa, pb] && [pa, pb] + [pc] == [pa, pb, pc];
    assert EvalStack(reg, lits, w, []) == EvalStack(reg, lits, [b, c] + rest, [pa]);
    assert EvalStack(reg, lits, [b, c] + rest, [pa]) == EvalStack(reg, lits, [c] + rest, [pa, pb]);
    assert EvalStack(reg, lits, [c] + rest, [pa, pb]) == EvalStack(reg, lits, rest, [pa, pb, pc]);
  }

  /** `a b c x x` with `x` a two-operand entry applies it twice, the
      inner call on the two last operands. */
  lemma NestedCall<V>(reg: Registry<V>, lits: Literals<V>, a: string, b: string, c: string, x: string)
    requires NoNumeralNames(reg) && IsNumber(a) && IsNumber(b) && IsNumber(c) && IsBinary(reg, x)
    ensures var g := reg[x].op;
      EvalRpn(reg, lits, [a, b, c, x, x]) ==
        Some(g(g(lits.parse(c), lits.parse(b)), lits.parse(a)))
  {
    var g := reg[x].op;
    var pa, pb, pc := lits.parse(a), lits.parse(b), lits.parse(c);
    assert [a, b, c, x, x] == [a, b, c] + [x, x];
    PushThree(reg, lits, a, b, c, [x, x]);
    var d := g(pc, pb);
    assert [pa, pb, pc][..1] + [d] == [pa, d];
    assert [x, x][1..] == [x] && [x][1..] == [];
    assert EvalStack(reg, lits, [x, x], [pa, pb, pc]) == EvalStack(reg, lits, [x], [pa, d]);
    assert [pa, d][..0] + [g(d, pa)] == [g(d, pa)];
  }

  /** `1 2 3 - -` is `1 - (2 - 3)`. */
  lemma RightGroupingValue<V>(lib: Library<V>, lits: Literals<V>)
    ensures EvalRpn(Builtins(lib), lits, ["1", "2", "3", "-", "-"]) ==
      Some(lib.sub(lits.parse("1"), lib.sub(lits.parse("2"), lits.parse("3"))))
  {
    var reg := Builtins(lib);
    BuiltinsNoNumeralNames(lib);
    assert IsNumber("1") && IsNumber("2") && IsNumber("3");
    assert reg["-"] == Binary((x: V, y: V) => lib.sub(y, x));
    NestedCall(reg, lits, "1", "2", "3", "-");
  }

  /** `1 - 2 - 3` end to end as written: `1 - (2 - 3)`, not
      `(1 - 2) - 3`. */
  lemma RightGroupingEndToEnd<V>(lib: Library<V>, lits: Literals<V>)
    ensures Eval(NewEvaluatorAsWritten(lib), lits, ["1", "-", "2", "-", "3"]) ==
      Some(lib.sub(lits.parse("1"), lib.sub(lits.parse("2"), lits.parse("3"))))
  {
    var ev := NewEvaluatorAsWritten(lib);
    var reg := ev.operations;
    var xs := ["1", "-", "2", "-", "3"];
    ChainCategories(reg);
    ChainAccepted();
    PriorityLevels(reg, "(");
    RightGroupingPostfix(reg);
    EvalPlain(ev, lits, xs);
    RightGroupingValue(lib, lits);
  }

  /** Grouping left to right, the second `-` pops the first: the loop
      leaves `1 2 - 3` with `-` stacked. */
  lemma LeftGroupingTail<V>(reg: Registry<V>)
    requires IsBinary(reg, "-") && !IsUnary(reg, EmptyMarker)
    ensures SyRun(reg, LeftToRight, Yard(["1", "2"], Stacks.Stack(["-"])), ["-", "3"]) ==
      Some(Yard(["1", "2", "-", "3"], Stacks.Stack(["-"])))
  {
    assert IsNumber("3") && !IsNumber("-");
    var y3 := Yard(["1", "2"], Stacks.Stack(["-"]));
    var z := Yard(["1", "2", "-"], Stacks.Stack([]));
    var y4 := Yard(["1", "2", "-"], Stacks.Stack(["-"]));
    var y5 := Yard(["1", "2", "-", "3"], Stacks.Stack(["-"]));
    assert ["1", "2"] + ["-"] == ["1", "2", "-"] && ["1", "2", "-"] + ["3"] == ["1", "2", "-", "3"];
    assert [] + ["-"] == ["-"];
    assert Priority(reg, "-") == 1 && Priority(reg, EmptyMarker) == 0;
    assert Threshold(reg, LeftToRight, "-") == 0;
    assert PopHigher(reg, z, 0) == Some(z);
    assert PopHigher(reg, y3, 0) == Some(z);
    assert SyStep(reg, LeftToRight, y3, "-") == Some(y4);
    assert SyStep(reg, LeftToRight, y4, "3") == Some(y5);
    assert ["-", "3"][1..] == ["3"] && ["3"][1..] == [];
  }

  /** Grouping left to right, `1 - 2 - 3` converts to `1 2 - 3 -`. */
  lemma LeftGroupingPostfix<V>(reg: Registry<V>)
    requires IsBinary(reg, "-") && !IsUnary(reg, EmptyMarker)
    ensures ShuntingYard(reg, LeftToRight, ["1", "-", "2", "-", "3"]) == Some(["1", "2", "-", "3", "-"])
  {
    ChainHead(reg, LeftToRight);
    LeftGroupingTail(reg);
    var y5 := Yard(["1", "2", "-", "3"], Stacks.Stack(["-"]));
    assert Drain(y5) == ["1", "2", "-", "3"] + Stacks.Reverse(["-"]);
    assert ["1", "2", "-", "3"] + ["-"] == ["1", "2", "-", "3", "-"];
  }

  /** `a b x c x` with `x` a two-operand entry applies it twice, the
      inner call on the two first operands. */
  lemma ChainedCall<V>(reg: Registry<V>, lits: Literals<V>, a: string, b: string, c: string, x: string)
    requires NoNumeralNames(reg) && IsNumber(a) && IsNumber(b) && IsNumber(c) && IsBinary(reg, x)
    ensures var g := reg[x].op;
      EvalRpn(reg, lits, [a, b, x, c, x]) ==
        Some(g(lits.parse(c), g(lits.parse(b), lits.parse(a))))
  {
    var g := reg[x].op;
    var pa, pb, pc := lits.parse(a), lits.parse(b), lits.parse(c);
    var w := [a, b, x, c, x];
    assert a !in reg && b !in reg && c !in reg;
    var d := g(pb, pa);
    assert w[1..] == [b, x, c, x] && w[2..] == [x, c, x] && w[3..] == [c, x] && w[4..] == [x] && w[5..] == [];
    assert [] + [pa] == [pa] && [pa] + [pb] == [pa, pb];
    assert [pa, pb][..0] + [d] == [d] && [d] + [pc] == [d, pc];
    assert EvalStack(reg, lits, w, []) == EvalStack(reg, lits, w[1..], [pa]);
    assert EvalStack(reg, lits, w[1..], [pa]) == EvalStack(reg, lits, w[2..], [pa, pb]);
    assert EvalStack(reg, lits, w[2..], [pa, pb]) == EvalStack(reg, lits, w[3..], [d]);
    assert EvalStack(reg, lits, w[3..], [d]) == EvalStack(reg, lits, w[4..], [d, pc]);
    assert [d, pc][..0] + [g(pc, d)] == [g(pc, d)];
    assert EvalStack(reg, lits, w[4..], [d, pc]) == Some([g(pc, d)]);
  }

  /** `1 2 - 3 -` is `(1 - 2) - 3`. */
  lemma LeftGroupingValue<V>(lib: Library<V>, lits: Literals<V>)
    ensures EvalRpn(BuiltinsCorrected(lib), lits, ["1", "2", "-", "3", "-"]) ==
      Some(lib.sub(lib.sub(lits.parse("1"), lits.parse("2")), lits.parse("3")))
  {
    var reg := BuiltinsCorrected(lib);
    BuiltinsNoNumeralNames(lib);
    assert IsNumber("1") && IsNumber("2") && IsNumber("3");
    assert reg["-"] == Binary((x: V, y: V) => lib.sub(y, x));
    ChainedCall(reg, lits, "1", "2", "3", "-");
  }

  /** `1 - 2 - 3` end to end with the corrected conversion:
      `(1 - 2) - 3`. */
  lemma LeftGroupingEndToEnd<V>(lib: Library<V>, lits: Literals<V>)
    ensures Eval(NewEvaluator(lib), lits, ["1", "-", "2", "-", "3"]) ==
      Some(lib.sub(lib.sub(lits.parse("1"), lits.parse("2")), lits.parse("3")))
  {
    var ev := NewEvaluator(lib);
    var reg := ev.operations;
    var xs := ["1", "-", "2", "-", "3"];
    ChainCategories(reg);
    ChainAccepted();
    PriorityLevels(reg, "(");
    LeftGroupingPostfix(reg);
    EvalPlain(ev, lits, xs);
    LeftGroupingValue(lib, lits);
  }

  /** The tokens of `1 - 2 - 3` name no constant and have the categories
      `num op num op num`. */
  lemma ChainCategories<V>(reg: Registry<V>)
    requires NoNumeralNames(reg) && IsBinary(reg, "-")
    ensures var xs := ["1", "-", "2", "-", "3"];
      && (forall i | 0 <= i < |xs| :: xs[i] != "(" && !IsConstant(reg, xs[i]))
      && Placeholders(reg, xs) == [Num, Op, Num, Op, Num]
  {
    var xs := ["1", "-", "2", "-", "3"];
    var w := [Num, Op, Num, Op, Num];
    assert IsNumber("1") && IsNumber("2") && IsNumber("3");
    assert "1" !in reg && "2" !in reg && "3" !in reg;
    forall i | 0 <= i < |xs| ensures Category(reg, xs[i]) == w[i] {
      CategoryMeaning(reg, xs[i]);
      if i == 1 || i == 3 {
        assert !IsNumber("-");
      }
    }
  }

  lemma ChainAccepted()
    ensures CalcRun(Q0, 0, [Num, Op, Num, Op, Num]) == Some((Q1, 0))
  {
    var w := [Num, Op, Num, Op, Num];
    BinaryAccepted();
    assert w[2..] == [Num, Op, Num];
    assert CalcRun(Q1, 0, w[1..]) == Some((Q1, 0));
  }

  /** On tokens that the minus rewrite leaves alone and that name no
      constant, `eval` is conversion and evaluation of the tokens
      themselves, guarded by the automaton. */
  lemma EvalUnrewritten<V>(ev: Evaluator<V>, lits: Literals<V>, tokens: seq<string>)
    requires Ready(ev) && FixNegative(ev.operations, tokens) == tokens
    requires forall i | 0 <= i < |tokens| :: !IsConstant(ev.operations, tokens[i])
    ensures CalcRun(Q0, 0, Placeholders(ev.operations, tokens)) != Some((Q1, 0)) ==> Eval(ev, lits, tokens).None?
    ensures CalcRun(Q0, 0, Placeholders(ev.operations, tokens)) == Some((Q1, 0)) ==>
      && ShuntingYard(ev.operations, ev.grouping, tokens).Some?
      && Eval(ev, lits, tokens) == EvalRpn(ev.operations, lits, ShuntingYard(ev.operations, ev.grouping, tokens).value)
  {
    var reg := ev.operations;
    assert ReplaceConstants(reg, lits, tokens) == tokens;
    AcceptsIff(ev.pda, PdaWord(reg, tokens));
    if CalcRun(Q0, 0, Placeholders(reg, tokens)) == Some((Q1, 0)) {
      AcceptedPipeline(reg, ev.grouping, lits, tokens);
    }
  }

  /** In particular on tokens with no `(` and no constant name, not
      starting with `-`. */
  lemma EvalPlain<V>(ev: Evaluator<V>, lits: Literals<V>, tokens: seq<string>)
    requires Ready(ev)
    requires forall i | 0 <= i < |tokens| :: tokens[i] != "(" && !IsConstant(ev.operations, tokens[i])
    requires |tokens| > 0 && tokens[0] != "-"
    ensures CalcRun(Q0, 0, Placeholders(ev.operations, tokens)) != Some((Q1, 0)) ==> Eval(ev, lits, tokens).None?
    ensures CalcRun(Q0, 0, Placeholders(ev.operations, tokens)) == Some((Q1, 0)) ==>
      && ShuntingYard(ev.operations, ev.grouping, tokens).Some?
      && Eval(ev, lits, tokens) == EvalRpn(ev.operations, lits, ShuntingYard(ev.operations, ev.grouping, tokens).value)
  {
    NoPatternUnchanged(ev.operations, tokens);
    EvalUnrewritten(ev, lits, tokens);
  }

  /** `2 ^ 3` through `eval` is `2 3 ^` through the postfix evaluator. */
  lemma PowThroughEval<V>(ev: Evaluator<V>, lits: Literals<V>)
    requires Ready(ev) && IsBinary(ev.operations, "^")
    ensures Eval(ev, lits, ["2", "^", "3"]) == EvalRpn(ev.operations, lits, ["2", "3", "^"])
  {
    var reg := ev.operations;
    var xs := ["2", "^", "3"];
    PowCategories(reg);
    BinaryAccepted();
    PriorityLevels(reg, "(");
    PowPostfix(reg, ev.grouping);
    EvalPlain(ev, lits, xs);
  }

  /** The tokens of `2 ^ 3` name no constant and have the categories
      `num op num`. */
  lemma PowCategories<V>(reg: Registry<V>)
    requires NoNumeralNames(reg) && IsBinary(reg, "^")
    ensures var xs := ["2", "^", "3"];
      && (forall i | 0 <= i < |xs| :: xs[i] != "(" && !IsConstant(reg, xs[i]))
      && Placeholders(reg, xs) == [Num, Op, Num]
  {
    var xs := ["2", "^", "3"];
    var w := [Num, Op, Num];
    assert IsNumber("2") && IsNumber("3");
    assert "2" !in reg && "3" !in reg;
    forall i | 0 <= i < |xs| ensures Category(reg, xs[i]) == w[i] {
      CategoryMeaning(reg, xs[i]);
      if i == 1 {
        assert !IsNumber("^");
      }
    }
  }

  lemma BinaryAccepted()
    ensures CalcRun(Q0, 0, [Num, Op, Num]) == Some((Q1, 0))
  {
    var w := [Num, Op, Num];
    assert w[1..] == [Op, Num] && w[2..] == [Num] && w[3..] == [];
    assert CalcRun(Q0, 0, w[2..]) == Some((Q1, 0));
    assert CalcRun(Q1, 0, w[1..]) == Some((Q1, 0));
  }

  /** `2 ^ 3` end to end: `pow(3, 2)` as written, `pow(2, 3)` corrected. */
  lemma PowEndToEnd<V>(lib: Library<V>, lits: Literals<V>)
    ensures Eval(NewEvaluatorAsWritten(lib), lits, ["2", "^", "3"]) == Some(lib.pow(lits.parse("3"), lits.parse("2")))
    ensures Eval(NewEvaluator(lib), lits, ["2", "^", "3"]) == Some(lib.pow(lits.parse("2"), lits.parse("3")))
  {
    assert IsNumber("2") && IsNumber("3");
    PowThroughEval(NewEvaluatorAsWritten(lib), lits);
    PowThroughEval(NewEvaluator(lib), lits);
    PowAsWritten(lib, lits, "2", "3");
    PowCorrected(lib, lits, "2", "3");
  }

  /** `2 ^ 3` converts to `2 3 ^`. */
  lemma PowPostfix<V>(reg: Registry<V>, g: Grouping)
    requires IsBinary(reg, "^") && !IsUnary(reg, EmptyMarker)
    ensures ShuntingYard(reg, g, ["2", "^", "3"]) == Some(["2", "3", "^"])
  {
    assert IsNumber("2") && IsNumber("3") && !IsNumber("^");
    var xs := ["2", "^", "3"];
    var y1 := Yard(["2"], Stacks.Stack([]));
    var y2 := Yard(["2"], Stacks.Stack(["^"]));
    var y3 := Yard(["2", "3"], Stacks.Stack(["^"]));
    assert [] + ["2"] == ["2"] && ["2"] + ["3"] == ["2", "3"] && [] + ["^"] == ["^"];
    assert Priority(reg, EmptyMarker) == 0;
    assert SyStep(reg, g, StartYard(), "2") == Some(y1);
    assert SyStep(reg, g, y1, "^") == Some(y2);
    assert SyStep(reg, g, y2, "3") == Some(y3);
    assert xs[1..] == ["^", "3"] && xs[2..] == ["3"] && xs[3..] == [];
    assert SyRun(reg, g, StartYard(), xs) == Some(y3);
    assert Drain(y3) == ["2", "3"] + Stacks.Reverse(["^"]);
    assert ["2", "3"] + ["^"] == ["2", "3", "^"];
  }

  /** `2 sin ( 3 )` through `eval` is `2 3 sin` through the postfix
      evaluator. */
  lemma JuxtapositionThroughEval<V>(ev: Evaluator<V>, lits: Literals<V>)
    requires Ready(ev) && IsUnary(ev.operations, "sin") && "(" !in ev.operations && ")" !in ev.operations
    ensures Eval(ev, lits, ["2", "sin", "(", "3", ")"]) == EvalRpn(ev.operations, lits, ["2", "3", "sin"])
  {
    var reg := ev.operations;
    var xs := ["2", "sin", "(", "3", ")"];
    JuxtapositionTokens(reg);
    JuxtapositionAccepted();
    JuxtapositionPostfix(reg, ev.grouping);
    EvalUnrewritten(ev, lits, xs);
  }

  /** The tokens of `2 sin ( 3 )` name no constant, pass the minus
      rewrite unchanged and have the categories `num fun ( num )`. */
  lemma JuxtapositionTokens<V>(reg: Registry<V>)
    requires NoNumeralNames(reg) && IsUnary(reg, "sin") && "(" !in reg && ")" !in reg
    ensures var xs := ["2", "sin", "(", "3", ")"];
      && FixNegative(reg, xs) == xs
      && (forall i | 0 <= i < |xs| :: !IsConstant(reg, xs[i]))
      && Placeholders(reg, xs) == [Num, Fun, "(", Num, ")"]
  {
    var xs := ["2", "sin", "(", "3", ")"];
    assert IsNumber("2") && IsNumber("3");
    assert "2" !in reg && "3" !in reg;
    JuxtapositionUnrewritten(reg);
    JuxtapositionCategories(reg);
  }

  lemma JuxtapositionCategories<V>(reg: Registry<V>)
    requires "2" !in reg && "3" !in reg && IsUnary(reg, "sin") && "(" !in reg && ")" !in reg
    ensures Placeholders(reg, ["2", "sin", "(", "3", ")"]) == [Num, Fun, "(", Num, ")"]
  {
    var xs := ["2", "sin", "(", "3", ")"];
    var w := [Num, Fun, "(", Num, ")"];
    forall i | 0 <= i < |xs| ensures Category(reg, xs[i]) == w[i] {
      CategoryMeaning(reg, xs[i]);
      if i == 0 || i == 3 {
        assert IsNumber(xs[i]);
      } else if i == 1 {
        assert !IsNumber("sin");
      }
    }
  }

  lemma JuxtapositionUnrewritten<V>(reg: Registry<V>)
    ensures FixNegative(reg, ["2", "sin", "(", "3", ")"]) == ["2", "sin", "(", "3", ")"]
  {
    var xs := ["2", "sin", "(", "3", ")"];
    forall j | 0 <= j < |xs| ensures !Site(reg, xs, j) {
      if j + 1 < |xs| {
        assert xs[j + 1] != "-";
      }
    }
    NoPatternUnchanged(reg, xs);
  }

  /** A number written right before a function call is accepted, and the
      answer is that number: the call's value is left above it on the
      stack and `result[0]` reads the bottom. */
  lemma JuxtapositionEndToEnd<V>(lib: Library<V>, lits: Literals<V>)
    ensures Eval(NewEvaluatorAsWritten(lib), lits, ["2", "sin", "(", "3", ")"]) == Some(lits.parse("2"))
    ensures Eval(NewEvaluator(lib), lits, ["2", "sin", "(", "3", ")"]) == Some(lits.parse("2"))
  {
    ParensNotBuiltin(lib);
    assert IsUnary(Builtins(lib), "sin") && IsUnary(BuiltinsCorrected(lib), "sin");
    JuxtapositionThroughEval(NewEvaluatorAsWritten(lib), lits);
    JuxtapositionThroughEval(NewEvaluator(lib), lits);
    JuxtapositionValue(lib, lits);
  }

  lemma JuxtapositionAccepted()
    ensures CalcRun(Q0, 0, [Num, Fun, "(", Num, ")"]) == Some((Q1, 0))
  {
    var w := [Num, Fun, "(", Num, ")"];
    assert w[1..] == [Fun, "(", Num, ")"] && w[2..] == ["(", Num, ")"];
    assert w[3..] == [Num, ")"] && w[4..] == [")"] && w[5..] == [];
    assert CalcRun(Q1, 1, w[4..]) == Some((Q1, 0));
    assert CalcRun(Q0, 1, w[3..]) == Some((Q1, 0));
    assert CalcRun(Q2, 0, w[2..]) == Some((Q1, 0));
  }

  /** `2 sin ( 3 )` converts to `2 3 sin`. */
  lemma JuxtapositionPostfix<V>(reg: Registry<V>, g: Grouping)
    requires IsUnary(reg, "sin") && "(" !in reg && ")" !in reg
    ensures ShuntingYard(reg, g, ["2", "sin", "(", "3", ")"]) == Some(["2", "3", "sin"])
  {
    var y5 := Yard(["2", "3"], Stacks.Stack(["sin"]));
    JuxtapositionHead(reg, g);
    JuxtapositionTail(reg, g);
    assert Drain(y5) == ["2", "3"] + Stacks.Reverse(["sin"]);
    assert ["2", "3"] + ["sin"] == ["2", "3", "sin"];
  }

  /** The first three iterations of the token loop on `2 sin ( 3 )`. */
  lemma JuxtapositionHead<V>(reg: Registry<V>, g: Grouping)
    requires IsUnary(reg, "sin") && "(" !in reg
    ensures SyRun(reg, g, StartYard(), ["2", "sin", "(", "3", ")"]) ==
      SyRun(reg, g, Yard(["2"], Stacks.Stack(["sin", "("])), ["3", ")"])
  {
    assert IsNumber("2") && !IsNumber("sin") && !IsNumber("(");
    var xs := ["2", "sin", "(", "3", ")"];
    var y1 := Yard(["2"], Stacks.Stack([]));
    var y2 := Yard(["2"], Stacks.Stack(["sin"]));
    var y3 := Yard(["2"], Stacks.Stack(["sin", "("]));
    assert [] + ["2"] == ["2"] && [] + ["sin"] == ["sin"] && ["sin"] + ["("] == ["sin", "("];
    assert Priority(reg, "sin") == 3;
    assert SyStep(reg, g, StartYard(), "2") == Some(y1);
    assert SyStep(reg, g, y1, "sin") == Some(y2);
    assert SyStep(reg, g, y2, "(") == Some(y3);
    assert xs[1..] == ["sin", "(", "3", ")"] && xs[2..] == ["(", "3", ")"] && xs[3..] == ["3", ")"];
  }

  /** The last two iterations: `)` moves nothing and drops the `(`. */
  lemma JuxtapositionTail<V>(reg: Registry<V>, g: Grouping)
    requires ")" !in reg
    ensures SyRun(reg, g, Yard(["2"], Stacks.Stack(["sin", "("])), ["3", ")"]) ==
      Some(Yard(["2", "3"], Stacks.Stack(["sin"])))
  {
    assert IsNumber("3") && !IsNumber(")");
    var y3 := Yard(["2"], Stacks.Stack(["sin", "("]));
    var y4 := Yard(["2", "3"], Stacks.Stack(["sin", "("]));
    var y5 := Yard(["2", "3"], Stacks.Stack(["sin"]));
    assert ["2"] + ["3"] == ["2", "3"] && ["sin", "("][..1] == ["sin"];
    assert SyStep(reg, g, y3, "3") == Some(y4);
    assert SyStep(reg, g, y4, ")") == Some(y5);
    assert ["3", ")"][1..] == [")"] && [")"][1..] == [];
  }

  /** `2 3 sin` leaves `[2, sin 3]`; the answer is the bottom value. */
  lemma JuxtapositionValue<V>(lib: Library<V>, lits: Literals<V>)
    ensures EvalRpn(Builtins(lib), lits, ["2", "3", "sin"]) == Some(lits.parse("2"))
    ensures EvalRpn(BuiltinsCorrected(lib), lits, ["2", "3", "sin"]) == Some(lits.parse("2"))
  {
    JuxtapositionValueIn(Builtins(lib), lib, lits);
    JuxtapositionValueIn(BuiltinsCorrected(lib), lib, lits);
  }

  /** `2 3 sin` in a registry that binds `sin` and not the numerals. */
  lemma JuxtapositionValueIn<V>(reg: Registry<V>, lib: Library<V>, lits: Literals<V>)
    requires "sin" in reg && reg["sin"] == Unary(lib.sin) && "2" !in reg && "3" !in reg
    ensures EvalRpn(reg, lits, ["2", "3", "sin"]) == Some(lits.parse("2"))
  {
    assert IsNumber("2") && IsNumber("3");
    var p2, p3 := lits.parse("2"), lits.parse("3");
    var w := ["2", "3", "sin"];
    assert w[1..] == ["3", "sin"] && w[2..] == ["sin"] && w[3..] == [];
    assert [] + [p2] == [p2] && [p2] + [p3] == [p2, p3];
    assert [p2, p3][..1] + [lib.sin(p3)] == [p2, lib.sin(p3)];
    assert EvalStack(reg, lits, w, []) == EvalStack(reg, lits, w[2..], [p2, p3]);
  }
}
