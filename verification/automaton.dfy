/**
 The pushdown automaton of Calculator/PushDownAutomata.swift: states,
 transition keys, a graph from keys to (target state, symbols to push),
 and the `reset` / `accept` run. Stack symbols are one-character
 strings, as the source pushes `String(v)` for each character `v`.
 */
module Automaton {
  import opened Wrappers
  import opened Stacks

  /** Equality is structural on (id, final), as the source's `==`. */
  datatype State = State(id: string, final: bool)

  /** Equality is structural on (state, top of stack, input). */
  datatype Transition = Transition(currentState: State, tos: string, input: string)

  type Graph = map<Transition, (State, string)>

  datatype Pda = Pda(currentState: State, initialState: State, graph: Graph, stack: Stack<string>)

  /** The symbol the stack is seeded with. */
  const Bottom := "Z"
  /** What a pop from an empty stack reads as. */
  const NoStack := "no stack"
  /** The end-of-input symbol `accept` appends. */
  const EndMarker := "eps"
  /** The state a missing transition leads to. */
  const ErrorState := State("err", false)

  /** The source's `==` on both structs compares exactly these fields. */
  lemma StructuralEquality(s1: State, s2: State, t1: Transition, t2: Transition)
    ensures s1 == s2 <==> s1.id == s2.id && s1.final == s2.final
    ensures t1 == t2 <==> t1.currentState == t2.currentState && t1.tos == t2.tos && t1.input == t2.input
  {
  }

  /** `PDA.init(withGraph:startingFrom:)` */
  function Init(graph: Graph, initial: State): (p: Pda)
    ensures p.stack.items == [Bottom] && p.currentState == initial && p.initialState == initial
  {
    Pda(initial, initial, graph, EmptyStack<string>().Push(Bottom))
  }

  /** `while !stack.empty() { _ = stack.pop() }` */
  function PopAll(s: Stack<string>): (r: Stack<string>)
    ensures r.IsEmpty()
    decreases s.Size()
  {
    if s.IsEmpty() then s else PopAll(s.Pop().1)
  }

  /** `reset()` */
  function Reset(p: Pda): (r: Pda)
    ensures r.stack.items == [Bottom]
    ensures r.currentState == p.initialState
    ensures r.initialState == p.initialState && r.graph == p.graph
  {
    p.(currentState := p.initialState, stack := PopAll(p.stack).Push(Bottom))
  }

  /** The characters of `w`, each as a one-character string. */
  function Chars(w: string): (r: seq<string>)
    ensures |r| == |w|
  {
    seq(|w|, i requires 0 <= i < |w| => [w[i]])
  }

  /** Lines 101-103: push the characters of `w` left to right, so the
      last character ends on top. */
  function PushChars(s: Stack<string>, w: string): (r: Stack<string>)
    ensures r.items == s.items + Chars(w)
    ensures |w| > 0 ==> r.Peek() == Some([w[|w| - 1]])
    decreases |w|
  {
    if |w| == 0 then s
    else
      var r := PushChars(s.Push([w[0]]), w[1..]);
      assert Chars(w) == [[w[0]]] + Chars(w[1..]);
      r
  }

  /** Success flag and the automaton as the source leaves it. */
  datatype Outcome = Outcome(ok: bool, pda: Pda)

  /** One iteration of the loop in `accept` (lines 93-103). */
  function Step(p: Pda, c: string): (o: Outcome)
    ensures var top := p.stack.Pop().0.GetOr(NoStack);
            var t := Transition(p.currentState, top, c);
            && (o.ok <==> t in p.graph && p.graph[t].0.id != ErrorState.id)
            && (o.ok ==> o.pda.currentState == p.graph[t].0)
            && (o.ok ==> o.pda.stack.items == p.stack.Pop().1.items + Chars(p.graph[t].1))
            && (!o.ok ==> o.pda.stack == p.stack.Pop().1 && o.pda.currentState.id == ErrorState.id)
            && o.pda.graph == p.graph && o.pda.initialState == p.initialState
  {
    var popped := p.stack.Pop();
    var t := Transition(p.currentState, popped.0.GetOr(NoStack), c);
    var target := if t in p.graph then p.graph[t].0 else ErrorState;
    if target.id == ErrorState.id then Outcome(false, p.(currentState := target, stack := popped.1))
    else Outcome(true, p.(currentState := target, stack := PushChars(popped.1, p.graph[t].1)))
  }

  /** The loop of `accept` over `input`, stopping at the first failed
      step, which leaves the automaton in the error state. The graph and
      the initial state never change. */
  function Run(p: Pda, input: seq<string>): (o: Outcome)
    ensures o.pda.graph == p.graph && o.pda.initialState == p.initialState
    ensures !o.ok ==> o.pda.currentState.id == ErrorState.id
    decreases |input|
  {
    if |input| == 0 then Outcome(true, p)
    else
      var o := Step(p, input[0]);
      if !o.ok then o else Run(o.pda, input[1..])
  }

  /** `accept(string:)`: run over the input followed by the end marker,
      then report whether the state reached is final. Acceptance ends in
      a final state; a rejection ends in the error state or a state that
      is not final. */
  function Accept(p: Pda, input: seq<string>): (o: Outcome)
    ensures o.pda.graph == p.graph && o.pda.initialState == p.initialState
    ensures o.ok ==> o.pda.currentState.final
    ensures !o.ok ==> o.pda.currentState.id == ErrorState.id || !o.pda.currentState.final
  {
    var o := Run(p, input + [EndMarker]);
    if !o.ok then o else Outcome(o.pda.currentState.final, o.pda)
  }

  /** Running over `a + b` is running over `a`, then over `b` if every
      step of `a` succeeded. */
  lemma {:induction false} RunConcat(p: Pda, a: seq<string>, b: seq<string>)
    ensures Run(p, a + b) == if Run(p, a).ok then Run(Run(p, a).pda, b) else Run(p, a)
    decreases |a|
  {
    if |a| > 0 {
      assert (a + b)[0] == a[0] && (a + b)[1..] == a[1..] + b;
      var o := Step(p, a[0]);
      if o.ok {
        RunConcat(o.pda, a[1..], b);
      }
    } else {
      assert a + b == b;
    }
  }

  /** `accept` consumes the symbols in order and returns false as soon as
      the (state, popped top, input) triple of some symbol is missing. */
  lemma AcceptStopsAtFirstMissing(p: Pda, input: seq<string>, i: nat)
    requires i < |input|
    requires Run(p, input[..i]).ok
    requires !Step(Run(p, input[..i]).pda, input[i]).ok
    ensures !Accept(p, input).ok
    ensures Accept(p, input).pda == Step(Run(p, input[..i]).pda, input[i]).pda
  {
    var rest := input[i..] + [EndMarker];
    assert input + [EndMarker] == input[..i] + rest;
    RunConcat(p, input[..i], rest);
    assert rest[0] == input[i];
  }

  /** The verdict is the `final` flag of the state reached after the end
      marker, provided every step succeeded. */
  lemma AcceptIsFinalFlag(p: Pda, input: seq<string>)
    ensures Accept(p, input).ok <==>
      Run(p, input + [EndMarker]).ok && Run(p, input + [EndMarker]).pda.currentState.final
  {
  }

  /** The source's `for` loop with its early `return false`. */
  method AcceptLoop(p: Pda, input: seq<string>) returns (accepted: bool, q: Pda)
    ensures Outcome(accepted, q) == Accept(p, input)
  {
    var terminated := input + [EndMarker];
    q := p;
    var i := 0;
    while i < |terminated|
      invariant 0 <= i <= |terminated|
      invariant Run(q, terminated[i..]) == Run(p, terminated)
    {
      assert terminated[i..][1..] == terminated[i + 1..];
      var popped := q.stack.Pop();
      var t := Transition(q.currentState, popped.0.GetOr(NoStack), terminated[i]);
      var target := if t in q.graph then q.graph[t].0 else ErrorState;
      if target.id == ErrorState.id {
        q := q.(currentState := target, stack := popped.1);
        return false, q;
      }
      q := q.(currentState := target, stack := PushChars(popped.1, q.graph[t].1));
      i := i + 1;
    }
    accepted := q.currentState.final;
  }
}
