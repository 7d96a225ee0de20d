/**
 A generic LIFO container backed by a sequence whose last element is the
 top, as in Calculator/Stack.swift. `Pop` returns the removed element (or
 `None` on an empty stack) together with the remaining stack, since the
 Swift `mutating func pop()` both returns and updates.
 */
module Stacks {
  import opened Wrappers

  datatype Stack<T> = Stack(items: seq<T>) {

    function Push(x: T): Stack<T> {
      Stack(items + [x])
    }

    function Pop(): (Option<T>, Stack<T>) {
      if |items| == 0 then (None, this)
      else (Some(items[|items| - 1]), Stack(items[..|items| - 1]))
    }

    function Peek(): Option<T> {
      if |items| == 0 then None else Some(items[|items| - 1])
    }

    predicate IsEmpty() {
      |items| == 0
    }

    /** Number of elements held. */
    function Size(): nat {
      |items|
    }
  }

  function EmptyStack<T>(): Stack<T> {
    Stack([])
  }

  /** Pushes every element of `xs`, first element first. */
  function PushAll<T>(s: Stack<T>, xs: seq<T>): (r: Stack<T>)
    ensures r.Size() == s.Size() + |xs|
    decreases |xs|
  {
    if |xs| == 0 then s else PushAll(s.Push(xs[0]), xs[1..])
  }

  /** Pops `n` elements and returns them in the order they came out. */
  function PopN<T>(s: Stack<T>, n: nat): (r: (seq<T>, Stack<T>))
    requires n <= s.Size()
    ensures |r.0| == n && r.1.Size() == s.Size() - n
    decreases n
  {
    if n == 0 then ([], s)
    else
      var popped := s.Pop();
      var more := PopN(popped.1, n - 1);
      ([popped.0.value] + more.0, more.1)
  }

  function Reverse<T>(xs: seq<T>): (r: seq<T>)
    ensures |r| == |xs|
    ensures forall i | 0 <= i < |xs| :: r[i] == xs[|xs| - 1 - i]
  {
    if |xs| == 0 then [] else Reverse(xs[1..]) + [xs[0]]
  }

  /** Reversing puts a last element first. */
  lemma ReverseSnoc<T>(xs: seq<T>, x: T)
    ensures Reverse(xs + [x]) == [x] + Reverse(xs)
  {
    var a, b := Reverse(xs + [x]), [x] + Reverse(xs);
    assert |a| == |b|;
    forall i | 0 <= i < |a| ensures a[i] == b[i] {
      if i > 0 {
        assert a[i] == (xs + [x])[|xs| - i];
      }
    }
  }

  /** `push(x)` followed by `pop()` yields `x` and the stack as it was. */
  lemma PushThenPop<T>(s: Stack<T>, x: T)
    ensures s.Push(x).Pop() == (Some(x), s)
  {
    assert s.Push(x).items[..|s.items|] == s.items;
  }

  /** `peek()` after `push(x)` yields `x`; `peek()` never changes the stack. */
  lemma PeekAfterPush<T>(s: Stack<T>, x: T)
    ensures s.Push(x).Peek() == Some(x)
    ensures s.Peek() == s.Pop().0
  {
  }

  /** `pop()` and `peek()` on an empty stack give nil and leave it empty. */
  lemma EmptyStackAccess<T>(s: Stack<T>)
    requires s.IsEmpty()
    ensures s.Pop() == (None, s)
    ensures s.Peek() == None
  {
  }

  /** `empty()` is true exactly when nothing is held, and false after a push. */
  lemma EmptyIffNoElements<T>(s: Stack<T>, x: T)
    ensures s.IsEmpty() <==> s.Size() == 0
    ensures !s.Push(x).IsEmpty()
  {
  }

  /** LIFO: pushing `xs` and then popping as many elements returns them
      in reverse order of insertion and restores the original stack. */
  lemma {:induction false} LastInFirstOut<T>(s: Stack<T>, xs: seq<T>)
    ensures PopN(PushAll(s, xs), |xs|) == (Reverse(xs), s)
    decreases |xs|
  {
    if |xs| == 0 {
    } else {
      var t := PushAll(s.Push(xs[0]), xs[1..]);
      LastInFirstOut(s.Push(xs[0]), xs[1..]);
      assert PopN(t, |xs| - 1) == (Reverse(xs[1..]), s.Push(xs[0]));
      PopSplit(t, |xs| - 1);
      PushThenPop(s, xs[0]);
      assert PopN(s.Push(xs[0]), 1) == ([xs[0]] + PopN(s, 0).0, PopN(s, 0).1);
      assert PopN(s, 0) == ([], s);
      assert PushAll(s, xs) == t;
      assert PopN(t, |xs|).0 == Reverse(xs[1..]) + [xs[0]];
      assert PopN(t, |xs|).1 == s;
      assert Reverse(xs) == Reverse(xs[1..]) + [xs[0]];
    }
  }

  /** Popping n + 1 elements is popping n and then one more. */
  lemma {:induction false} PopSplit<T>(s: Stack<T>, n: nat)
    requires n + 1 <= s.Size()
    ensures PopN(s, n + 1).0 == PopN(s, n).0 + PopN(PopN(s, n).1, 1).0
    ensures PopN(s, n + 1).1 == PopN(PopN(s, n).1, 1).1
    decreases n
  {
    if n > 0 {
      PopSplit(s.Pop().1, n - 1);
    }
  }
}
