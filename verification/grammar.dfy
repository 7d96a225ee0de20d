/**
 The automaton `MathExpressionEvaluator.init` builds (lines 68-112):
 four states and fourteen transitions over the category alphabet. Its
 stack only ever holds the bottom symbol `Z` with `(` symbols above it,
 so each configuration is a state and a count of open parentheses; the
 counter machine `CalcStep` is that reading of the table, and the
 lemmas below show the generic automaton follows it step for step.
 */
module Grammar {
  import opened Wrappers
  import opened Stacks
  import opened Automaton
  import opened Categories

  const Q0 := State("q0", false)
  const Q1 := State("q1", false)
  const Q2 := State("q2", false)
  const QF := State("qf", true)

  const CalcGraph: Graph := map[
    Transition(Q0, "Z", "(") := (Q0, "Z("),
    Transition(Q0, "(", "(") := (Q0, "(("),
    Transition(Q0, "Z", Num) := (Q1, "Z"),
    Transition(Q0, "(", Num) := (Q1, "("),
    Transition(Q1, "(", ")") := (Q1, ""),
    Transition(Q1, "Z", Op) := (Q0, "Z"),
    Transition(Q1, "(", Op) := (Q0, "("),
    Transition(Q0, "Z", Fun) := (Q2, "Z"),
    Transition(Q0, "(", Fun) := (Q2, "("),
    Transition(Q2, "Z", "(") := (Q0, "Z("),
    Transition(Q2, "(", "(") := (Q0, "(("),
    Transition(Q1, "(", Fun) := (Q2, "("),
    Transition(Q1, "Z", Fun) := (Q2, "Z"),
    Transition(Q1, "Z", EndMarker) := (QF, "")
  ]

  /** The evaluator's automaton as `init` leaves it. */
  function CalcPda(): Pda {
    Init(CalcGraph, Q0)
  }

  /** `k` open-parenthesis stack symbols. */
  function Opens(k: nat): (r: seq<string>)
    ensures |r| == k
  {
    seq(k, _ => "(")
  }

  /** The automaton in state `q` with `Z` and `k` parentheses on its stack. */
  function Config(q: State, k: nat): Pda {
    Pda(q, Q0, CalcGraph, Stack([Bottom] + Opens(k)))
  }

  predicate Working(q: State) {
    q == Q0 || q == Q1 || q == Q2
  }

  /** The transition table read as a machine over (state, open count). */
  function CalcStep(q: State, k: nat, c: string): Option<(State, nat)> {
    if q == Q0 && c == "(" then Some((Q0, k + 1))
    else if q == Q0 && c == Num then Some((Q1, k))
    else if q == Q0 && c == Fun then Some((Q2, k))
    else if q == Q1 && c == ")" && k > 0 then Some((Q1, k - 1))
    else if q == Q1 && c == Op then Some((Q0, k))
    else if q == Q1 && c == Fun then Some((Q2, k))
    else if q == Q2 && c == "(" then Some((Q0, k + 1))
    else None
  }

  /** Change in nesting depth caused by one symbol. */
  function Delta(c: string): int {
    if c == "(" then 1 else if c == ")" then -1 else 0
  }

  /** Opened minus closed parentheses in `w`. */
  function Depth(w: seq<string>): int {
    if |w| == 0 then 0 else Delta(w[0]) + Depth(w[1..])
  }

  /** Starting at depth `k`, no prefix of `w` closes more than it opened. */
  predicate PrefixNonNegative(k: int, w: seq<string>)
    decreases |w|
  {
    |w| == 0 || (k + Delta(w[0]) >= 0 && PrefixNonNegative(k + Delta(w[0]), w[1..]))
  }

  /** The counter machine over a whole word. Whatever it reaches, it got
      there through prefixes that never close an unopened parenthesis, its
      count is the depth of the word, no unknown symbol was read, and it
      is in `q1` only right after a number or a `)`. */
  function CalcRun(q: State, k: nat, w: seq<string>): (r: Option<(State, nat)>)
    requires Working(q)
    ensures r.Some? ==> Working(r.value.0)
    ensures r.Some? ==> r.value.1 == k + Depth(w) && PrefixNonNegative(k, w)
    ensures r.Some? ==> Unknown !in w
    ensures r.Some? && |w| > 0 && r.value.0 == Q1 ==> w[|w| - 1] == Num || w[|w| - 1] == ")"
    decreases |w|
  {
    if |w| == 0 then Some((q, k))
    else
      match CalcStep(q, k, w[0])
      case None => None
      case Some((q', k')) =>
        var r := CalcRun(q', k', w[1..]);
        assert r.Some? && |w[1..]| > 0 ==> w[1..][|w[1..]| - 1] == w[|w| - 1];
        r
  }

  /** The table as a case analysis on the key. */
  function Entry(t: Transition): Option<(State, string)> {
    if t.currentState == Q0 then
      if t.tos == "Z" then
        if t.input == "(" then Some((Q0, "Z(")) else if t.input == Num then Some((Q1, "Z"))
        else if t.input == Fun then Some((Q2, "Z")) else None
      else if t.tos == "(" then
        if t.input == "(" then Some((Q0, "((")) else if t.input == Num then Some((Q1, "("))
        else if t.input == Fun then Some((Q2, "(")) else None
      else None
    else if t.currentState == Q1 then
      if t.tos == "Z" then
        if t.input == Op then Some((Q0, "Z")) else if t.input == Fun then Some((Q2, "Z"))
        else if t.input == EndMarker then Some((QF, "")) else None
      else if t.tos == "(" then
        if t.input == ")" then Some((Q1, "")) else if t.input == Op then Some((Q0, "("))
        else if t.input == Fun then Some((Q2, "(")) else None
      else None
    else if t.currentState == Q2 then
      if t.tos == "Z" && t.input == "(" then Some((Q0, "Z("))
      else if t.tos == "(" && t.input == "(" then Some((Q0, "(("))
      else None
    else None
  }

  lemma GraphIsEntry(t: Transition)
    ensures t in CalcGraph <==> Entry(t).Some?
    ensures t in CalcGraph ==> CalcGraph[t] == Entry(t).value
  {
    if t.currentState == Q0 {
      GraphFromQ0(t);
    } else if t.currentState == Q1 {
      GraphFromQ1(t);
    } else if t.currentState == Q2 {
      GraphFromQ2(t);
    }
  }

  lemma GraphFromQ0(t: Transition)
    requires t.currentState == Q0
    ensures t in CalcGraph <==> Entry(t).Some?
    ensures t in CalcGraph ==> CalcGraph[t] == Entry(t).value
  {
  }

  lemma GraphFromQ1(t: Transition)
    requires t.currentState == Q1
    ensures t in CalcGraph <==> Entry(t).Some?
    ensures t in CalcGraph ==> CalcGraph[t] == Entry(t).value
  {
  }

  lemma GraphFromQ2(t: Transition)
    requires t.currentState == Q2
    ensures t in CalcGraph <==> Entry(t).Some?
    ensures t in CalcGraph ==> CalcGraph[t] == Entry(t).value
  {
  }

  /** Popping a `Z (^k` stack. */
  lemma PopConfig(q: State, k: nat)
    ensures Config(q, k).stack.Pop() ==
      if k > 0 then (Some("("), Stack([Bottom] + Opens(k - 1))) else (Some(Bottom), Stack([]))
  {
    var items := [Bottom] + Opens(k);
    if k > 0 {
      assert items[..|items| - 1] == [Bottom] + Opens(k - 1);
    }
  }

  /** The table entry the automaton consults in configuration `(q, k)`
      is the counter machine's step: same target, and the symbols it
      pushes back rebuild the `Z (^k'` stack. */
  lemma EntryMatchesStep(q: State, k: nat, c: string)
    requires Working(q) && c != EndMarker
    ensures var e := Entry(Transition(q, if k > 0 then "(" else Bottom, c));
      && (e.Some? <==> CalcStep(q, k, c).Some?)
      && (e.Some? ==>
            && e.value.0 == CalcStep(q, k, c).value.0 && e.value.0.id != ErrorState.id
            && (if k > 0 then [Bottom] + Opens(k - 1) else []) + Chars(e.value.1)
                 == [Bottom] + Opens(CalcStep(q, k, c).value.1))
  {
    var e := Entry(Transition(q, if k > 0 then "(" else Bottom, c));
    if e.Some? {
      var k' := CalcStep(q, k, c).value.1;
      if k > 0 {
        assert [Bottom] + Opens(k - 1) + Chars(e.value.1) == [Bottom] + Opens(k');
      } else {
        assert Chars(e.value.1) == [Bottom] + Opens(k');
      }
    }
  }

  /** One step of the generic automaton on the calculator graph, from a
      `Z (^k` configuration, is the counter machine's step. */
  lemma StepFollowsTable(q: State, k: nat, c: string)
    requires Working(q) && c != EndMarker
    ensures Step(Config(q, k), c).ok <==> CalcStep(q, k, c).Some?
    ensures CalcStep(q, k, c).Some? ==>
      Step(Config(q, k), c).pda == Config(CalcStep(q, k, c).value.0, CalcStep(q, k, c).value.1)
  {
    PopConfig(q, k);
    GraphIsEntry(Transition(q, if k > 0 then "(" else Bottom, c));
    EntryMatchesStep(q, k, c);
  }

  /** The end marker is read only in `q1` with nothing but `Z` below, and
      leads to the final state. */
  lemma EndStep(q: State, k: nat)
    requires Working(q)
    ensures Step(Config(q, k), EndMarker).ok <==> q == Q1 && k == 0
    ensures Step(Config(q, k), EndMarker).ok ==> Step(Config(q, k), EndMarker).pda.currentState == QF
  {
    PopConfig(q, k);
    GraphIsEntry(Transition(q, if k > 0 then "(" else Bottom, EndMarker));
  }

  /** Over a word without the end marker, the generic automaton and the
      counter machine succeed together and end in the same configuration. */
  lemma {:induction false} RunFollowsTable(q: State, k: nat, w: seq<string>)
    requires Working(q) && EndMarker !in w
    ensures Run(Config(q, k), w).ok <==> CalcRun(q, k, w).Some?
    ensures CalcRun(q, k, w).Some? ==>
      Run(Config(q, k), w).pda == Config(CalcRun(q, k, w).value.0, CalcRun(q, k, w).value.1)
    decreases |w|
  {
    if |w| > 0 {
      StepFollowsTable(q, k, w[0]);
      match CalcStep(q, k, w[0]) {
        case None =>
        case Some((q', k')) =>
          assert EndMarker !in w[1..];
          RunFollowsTable(q', k', w[1..]);
      }
    }
  }

  /** A reset automaton on the calculator graph is the configuration
      `(q0, Z)`. */
  lemma ResetIsStart(p: Pda)
    requires p.graph == CalcGraph && p.initialState == Q0
    ensures Reset(p) == Config(Q0, 0)
  {
    assert Reset(p).stack == Stack([Bottom]);
    assert [Bottom] + Opens(0) == [Bottom];
  }

  /** `accept` on the calculator graph, whatever state the automaton was
      left in, accepts exactly the words the counter machine takes from
      `(q0, 0)` to `(q1, 0)`; before the end marker its stack is `Z`
      followed by one `(` per unclosed parenthesis. */
  lemma AcceptsIff(p: Pda, w: seq<string>)
    requires p.graph == CalcGraph && p.initialState == Q0 && EndMarker !in w
    ensures Accept(Reset(p), w).ok <==> CalcRun(Q0, 0, w) == Some((Q1, 0))
    ensures Run(Reset(p), w).ok ==>
      Depth(w) >= 0 && Run(Reset(p), w).pda.stack.items == [Bottom] + Opens(Depth(w))
  {
    ResetIsStart(p);
    RunConcat(Config(Q0, 0), w, [EndMarker]);
    RunFollowsTable(Q0, 0, w);
    var r := CalcRun(Q0, 0, w);
    if r.Some? {
      EndStep(r.value.0, r.value.1);
      assert [EndMarker][1..] == [];
    }
  }

  /** What every accepted word looks like: balanced parentheses never
      closed before opened, no unknown symbol, and it ends in a number or
      a `)`; in particular it is not empty. */
  lemma AcceptedShape(p: Pda, w: seq<string>)
    requires p.graph == CalcGraph && p.initialState == Q0 && EndMarker !in w
    requires Accept(Reset(p), w).ok
    ensures Depth(w) == 0 && PrefixNonNegative(0, w)
    ensures Unknown !in w
    ensures |w| > 0 && (w[|w| - 1] == Num || w[|w| - 1] == ")")
  {
    AcceptsIff(p, w);
    RunShape(w);
  }

  lemma RunShape(w: seq<string>)
    requires CalcRun(Q0, 0, w) == Some((Q1, 0))
    ensures Depth(w) == 0 && PrefixNonNegative(0, w)
    ensures Unknown !in w
    ensures |w| > 0 && (w[|w| - 1] == Num || w[|w| - 1] == ")")
  {
  }

  /** A lone number is accepted. */
  lemma AcceptsNumber(p: Pda)
    requires p.graph == CalcGraph && p.initialState == Q0
    ensures Accept(Reset(p), [Num]).ok
  {
    AcceptsIff(p, [Num]);
  }

  /** A parenthesised number is accepted. */
  lemma AcceptsParenthesised(p: Pda)
    requires p.graph == CalcGraph && p.initialState == Q0
    ensures Accept(Reset(p), ["(", Num, ")"]).ok
  {
    ParenthesisedRun();
    AcceptsIff(p, ["(", Num, ")"]);
  }

  lemma ParenthesisedRun()
    ensures CalcRun(Q0, 0, ["(", Num, ")"]) == Some((Q1, 0))
  {
    var w := ["(", Num, ")"];
    assert CalcRun(Q1, 1, w[2..]) == Some((Q1, 0));
    assert CalcRun(Q0, 1, w[1..]) == Some((Q1, 0));
  }

  /** A function applied after an operator: `num op fun ( num )`. */
  lemma AcceptsFunctionCall(p: Pda)
    requires p.graph == CalcGraph && p.initialState == Q0
    ensures Accept(Reset(p), [Num, Op, Fun, "(", Num, ")"]).ok
  {
    FunctionCallRun();
    AcceptsIff(p, [Num, Op, Fun, "(", Num, ")"]);
  }

  lemma FunctionCallRun()
    ensures CalcRun(Q0, 0, [Num, Op, Fun, "(", Num, ")"]) == Some((Q1, 0))
  {
    var w := [Num, Op, Fun, "(", Num, ")"];
    assert CalcRun(Q1, 1, w[5..]) == Some((Q1, 0));
    assert CalcRun(Q0, 1, w[4..]) == Some((Q1, 0));
    assert CalcRun(Q2, 0, w[3..]) == Some((Q1, 0));
    assert CalcRun(Q0, 0, w[2..]) == Some((Q1, 0));
    assert CalcRun(Q1, 0, w[1..]) == Some((Q1, 0));
  }

  /** The empty word is rejected: the end marker is read in `q0`. */
  lemma RejectsEmpty(p: Pda)
    requires p.graph == CalcGraph && p.initialState == Q0
    ensures !Accept(Reset(p), []).ok
  {
    AcceptsIff(p, []);
  }

  /** Two numbers in a row are rejected. */
  lemma RejectsTwoNumbers(p: Pda)
    requires p.graph == CalcGraph && p.initialState == Q0
    ensures !Accept(Reset(p), [Num, Num]).ok
  {
    AcceptsIff(p, [Num, Num]);
  }

  /** An unclosed parenthesis is rejected. */
  lemma RejectsUnclosed(p: Pda)
    requires p.graph == CalcGraph && p.initialState == Q0
    ensures !Accept(Reset(p), ["(", Num]).ok
  {
    AcceptsIff(p, ["(", Num]);
  }

  /** A parenthesis closed before it is opened is rejected. */
  lemma RejectsUnopened(p: Pda)
    requires p.graph == CalcGraph && p.initialState == Q0
    ensures !Accept(Reset(p), [Num, ")"]).ok
  {
    AcceptsIff(p, [Num, ")"]);
  }
}
