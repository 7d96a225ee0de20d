/**
 Token-level preprocessing of Calculator/MathEvaluator.swift: the
 numeric-literal test and the unary-minus rewrite `fixForNegative`.
 Tokens are the strings the (unmodelled) regular-expression tokenizer
 produces.
 */
module Rewrite {
  import opened Operations

  predicate IsDigit(c: char) {
    '0' <= c <= '9'
  }

  function DotCount(s: string): nat {
    if |s| == 0 then 0 else (if s[0] == '.' then 1 else 0) + DotCount(s[1..])
  }

  /** Digits with at most one decimal point, and at least one digit. */
  predicate IsUnsignedNumber(s: string) {
    && (forall i | 0 <= i < |s| :: IsDigit(s[i]) || s[i] == '.')
    && DotCount(s) <= 1
    && |s| > DotCount(s)
  }

  /** `isNumber(value:)`, simplified from `Double(String) != nil` to: an
      optional leading minus, then an unsigned decimal numeral. */
  predicate IsNumber(s: string) {
    if |s| > 0 && s[0] == '-' then IsUnsignedNumber(s[1..]) else IsUnsignedNumber(s)
  }

  /** Swift's `Array.insert(_:at:)`. */
  function Insert(s: seq<string>, i: nat, x: string): (r: seq<string>)
    requires i <= |s|
    ensures |r| == |s| + 1 && r[i] == x
    ensures r[..i] == s[..i] && r[i + 1..] == s[i..]
  {
    s[..i] + [x] + s[i..]
  }

  /** The loop of `fixForNegative` (lines 248-264) read as a left-to-right
      scan of the original tokens: `( - N` becomes `( ( 0 - N )` and
      `( - f` with `f` a one-operand function becomes `( 0 - f`; the scan
      resumes after `N`, respectively at `f`. */
  function ScanNegative<V>(reg: Registry<V>, s: seq<string>): (r: seq<string>)
    ensures |r| >= |s|
    ensures |s| > 0 && s[0] != "(" ==> |r| > 0 && r[0] == s[0]
    decreases |s|
  {
    if |s| >= 3 && s[0] == "(" && s[1] == "-" && IsNumber(s[2]) then
      ["(", "(", "0", "-", s[2], ")"] + ScanNegative(reg, s[3..])
    else if |s| >= 3 && s[0] == "(" && s[1] == "-" && IsUnary(reg, s[2]) then
      ["(", "0", "-"] + ScanNegative(reg, s[2..])
    else if |s| == 0 then []
    else [s[0]] + ScanNegative(reg, s[1..])
  }

  /** `fixForNegative(tokenizedExpr:)`: the scan, then the rewrite of a
      leading minus (lines 265-276). As in the source, the leading test
      reads the ORIGINAL first token but the REWRITTEN second token, and
      the two inner tests are consecutive `if`s, not `else if`. */
  function FixNegative<V>(reg: Registry<V>, expr: seq<string>): seq<string> {
    var mid := ScanNegative(reg, expr);
    if |expr| > 1 && expr[0] == "-" then
      var a := if IsNumber(mid[1]) then Insert(Insert(Insert(mid, 0, "("), 1, "0"), 4, ")") else mid;
      if IsUnary(reg, a[1]) then Insert(a, 0, "0") else a
    else mid
  }

  /** `fixForNegative` as the source writes it: the loop with its in-place
      insertions and index jumps, then the leading-minus fix-up. It
      computes `FixNegative`. */
  method FixForNegative<V>(reg: Registry<V>, expr: seq<string>) returns (out: seq<string>)
    ensures out == FixNegative(reg, expr)
  {
    var newExpr := ScanLoop(reg, expr);
    if |expr| > 1 && expr[0] == "-" {
      if IsNumber(newExpr[1]) {
        newExpr := Insert(newExpr, 0, "(");
        newExpr := Insert(newExpr, 1, "0");
        newExpr := Insert(newExpr, 4, ")");
      }
      if IsUnary(reg, newExpr[1]) {
        newExpr := Insert(newExpr, 0, "0");
      }
    }
    out := newExpr;
  }

  /** Lines 247-264: the index-juggling loop computes `ScanNegative`.
      The ghost `done`/`k` pair tracks which prefix of the output is final
      and where in the original tokens the rest starts. */
  method ScanLoop<V>(reg: Registry<V>, expr: seq<string>) returns (newExpr: seq<string>)
    ensures newExpr == ScanNegative(reg, expr)
  {
    newExpr := expr;
    var i: nat := 0;
    ghost var k: nat := 0;
    ghost var done: seq<string> := [];
    while i < |newExpr| - 1
      invariant ScanState(reg, expr, newExpr, i, k, done)
      decreases |expr| - k
    {
      newExpr, i, k, done := ScanVisit(reg, expr, newExpr, i, k, done);
    }
    if |expr[k..]| == 1 {
      VisitPlain(reg, expr, k, done);
    }
  }

  /** Where the loop stands: `done` is final output, and the tokens not
      yet visited are the original ones from `k` on. */
  ghost predicate ScanState<V>(reg: Registry<V>, expr: seq<string>, newExpr: seq<string>, i: nat,
                               k: nat, done: seq<string>) {
    && k <= |expr| && i == |done| && newExpr == done + expr[k..]
    && done + ScanNegative(reg, expr[k..]) == ScanNegative(reg, expr)
  }

  /** One iteration of the loop at index `i`: rewrite `( - N` or `( - f`
      in place and jump past it, or step over one token. */
  method ScanVisit<V>(reg: Registry<V>, ghost expr: seq<string>, newExpr: seq<string>, i: nat,
                      ghost k: nat, ghost done: seq<string>)
      returns (newExpr': seq<string>, i': nat, ghost k': nat, ghost done': seq<string>)
    requires ScanState(reg, expr, newExpr, i, k, done) && i < |newExpr| - 1
    ensures ScanState(reg, expr, newExpr', i', k', done') && k < k'
  {
    if newExpr[i] == "(" && newExpr[i + 1] == "-" && |newExpr| > i + 2 && IsNumber(newExpr[i + 2]) {
      newExpr', i', k', done' := VisitNumber(reg, expr, newExpr, i, k, done);
    } else if newExpr[i] == "(" && newExpr[i + 1] == "-" && |newExpr| > i + 2 && IsUnary(reg, newExpr[i + 2]) {
      newExpr', i', k', done' := VisitFunction(reg, expr, newExpr, i, k, done);
    } else {
      assert newExpr[i..i + 2] == expr[k..k + 2];
      assert |newExpr| > i + 2 ==> newExpr[i + 2] == expr[k + 2];
      VisitPlain(reg, expr, k, done);
      newExpr', i' := newExpr, i + 1;
      k', done' := k + 1, done + [expr[k]];
    }
  }

  /** Lines 253-256: `( - N` becomes `( ( 0 - N )`; the index moves past
      the `)`. */
  method VisitNumber<V>(reg: Registry<V>, ghost expr: seq<string>, newExpr: seq<string>, i: nat,
                        ghost k: nat, ghost done: seq<string>)
      returns (newExpr': seq<string>, i': nat, ghost k': nat, ghost done': seq<string>)
    requires ScanState(reg, expr, newExpr, i, k, done) && i + 2 < |newExpr|
    requires newExpr[i] == "(" && newExpr[i + 1] == "-" && IsNumber(newExpr[i + 2])
    ensures ScanState(reg, expr, newExpr', i', k', done') && k < k'
  {
    assert newExpr[i..i + 3] == expr[k..k + 3];
    NumberSiteInsert(done, expr, k);
    ScanNumberSite(reg, expr, k);
    Regroup(done, ["(", "(", "0", "-", expr[k + 2], ")"], ScanNegative(reg, expr[k + 3..]));
    newExpr' := Insert(newExpr, i + 1, "(");
    newExpr' := Insert(newExpr', i + 2, "0");
    newExpr' := Insert(newExpr', i + 5, ")");
    i' := i + 6;
    k', done' := k + 3, done + ["(", "(", "0", "-", expr[k + 2], ")"];
  }

  /** Line 258: `( - f` becomes `( 0 - f`; the index moves to `f`. */
  method VisitFunction<V>(reg: Registry<V>, ghost expr: seq<string>, newExpr: seq<string>, i: nat,
                          ghost k: nat, ghost done: seq<string>)
      returns (newExpr': seq<string>, i': nat, ghost k': nat, ghost done': seq<string>)
    requires ScanState(reg, expr, newExpr, i, k, done) && i + 2 < |newExpr|
    requires newExpr[i] == "(" && newExpr[i + 1] == "-" && !IsNumber(newExpr[i + 2]) && IsUnary(reg, newExpr[i + 2])
    ensures ScanState(reg, expr, newExpr', i', k', done') && k < k'
  {
    assert newExpr[i..i + 3] == expr[k..k + 3];
    FunctionSiteInsert(done, expr, k);
    ScanFunctionSite(reg, expr, k);
    Regroup(done, ["(", "0", "-"], ScanNegative(reg, expr[k + 2..]));
    newExpr' := Insert(newExpr, i + 1, "0");
    i' := i + 3;
    k', done' := k + 2, done + ["(", "0", "-"];
  }

  /** A position where neither rewrite applies is copied unchanged. */
  lemma VisitPlain<V>(reg: Registry<V>, expr: seq<string>, k: nat, done: seq<string>)
    requires k < |expr| && !Site(reg, expr, k)
    ensures done + expr[k..] == (done + [expr[k]]) + expr[k + 1..]
    ensures done + ScanNegative(reg, expr[k..]) == (done + [expr[k]]) + ScanNegative(reg, expr[k + 1..])
  {
    assert expr[k..] == [expr[k]] + expr[k + 1..];
    Regroup(done, [expr[k]], expr[k + 1..]);
    ScanPlain(reg, expr, k);
    Regroup(done, [expr[k]], ScanNegative(reg, expr[k + 1..]));
  }

  /** Lines 253-256 applied at `done + ( - N rest`. */
  lemma NumberSiteInsert(done: seq<string>, expr: seq<string>, k: nat)
    requires k + 3 <= |expr| && expr[k] == "(" && expr[k + 1] == "-"
    ensures var i := |done|;
      Insert(Insert(Insert(done + expr[k..], i + 1, "("), i + 2, "0"), i + 5, ")")
        == (done + ["(", "(", "0", "-", expr[k + 2], ")"]) + expr[k + 3..]
  {
    var n, rest := expr[k + 2], expr[k + 3..];
    assert expr[k..] == ["(", "-", n] + rest;
    InsertThree(done, n, rest);
  }

  lemma InsertThree(done: seq<string>, n: string, rest: seq<string>)
    ensures var i := |done|;
      Insert(Insert(Insert(done + (["(", "-", n] + rest), i + 1, "("), i + 2, "0"), i + 5, ")")
        == (done + ["(", "(", "0", "-", n, ")"]) + rest
  {
    var i := |done|;
    var a := Insert(done + (["(", "-", n] + rest), i + 1, "(");
    assert a == done + ["(", "(", "-", n] + rest;
    var b := Insert(a, i + 2, "0");
    assert b == done + ["(", "(", "0", "-", n] + rest;
    var c := Insert(b, i + 5, ")");
    assert c == done + ["(", "(", "0", "-", n] + [")"] + rest;
  }

  /** Line 258 applied at `done + ( - f rest`. */
  lemma FunctionSiteInsert(done: seq<string>, expr: seq<string>, k: nat)
    requires k + 2 <= |expr| && expr[k] == "(" && expr[k + 1] == "-"
    ensures Insert(done + expr[k..], |done| + 1, "0") == (done + ["(", "0", "-"]) + expr[k + 2..]
  {
    var rest := expr[k + 2..];
    assert expr[k..] == ["(", "-"] + rest;
    assert Insert(done + (["(", "-"] + rest), |done| + 1, "0") == (done + ["(", "0", "-"]) + rest;
  }

  /** The concatenation the loop keeps regrouping. */
  lemma Regroup<T>(a: seq<T>, b: seq<T>, c: seq<T>)
    ensures (a + b) + c == a + (b + c)
  {
  }

  /** The only tokens the rewrite ever adds. */
  const Fillers: set<string> := {"(", "0", ")"}

  /** `t` is `s` with tokens from `Fillers` inserted: `s` is a
      subsequence of `t` and every other token of `t` is a filler. */
  predicate InsertsOnly(s: seq<string>, t: seq<string>)
    decreases |t|
  {
    if |t| == 0 then |s| == 0
    else
      || (|s| > 0 && s[0] == t[0] && InsertsOnly(s[1..], t[1..]))
      || (t[0] in Fillers && InsertsOnly(s, t[1..]))
  }

  /** Occurrences of `x` in `s`. */
  function Occurrences(s: seq<string>, x: string): nat {
    if |s| == 0 then 0 else (if s[0] == x then 1 else 0) + Occurrences(s[1..], x)
  }

  /** Counting over a sequence extended at the end. */
  lemma {:induction false} OccurrencesSnoc(s: seq<string>, y: string, x: string)
    ensures Occurrences(s + [y], x) == Occurrences(s, x) + (if y == x then 1 else 0)
    decreases |s|
  {
    if |s| == 0 {
      assert s + [y] == [y];
    } else {
      assert (s + [y])[1..] == s[1..] + [y];
      OccurrencesSnoc(s[1..], y, x);
    }
  }

  lemma {:induction false} InsertsOnlyRefl(s: seq<string>)
    ensures InsertsOnly(s, s)
    decreases |s|
  {
    if |s| > 0 {
      InsertsOnlyRefl(s[1..]);
    }
  }

  lemma InsertsOnlyCons(x: string, s: seq<string>, t: seq<string>)
    requires InsertsOnly(s, t)
    ensures InsertsOnly([x] + s, [x] + t)
  {
    assert ([x] + s)[1..] == s && ([x] + t)[1..] == t;
  }

  lemma InsertsOnlyFill(x: string, s: seq<string>, t: seq<string>)
    requires x in Fillers && InsertsOnly(s, t)
    ensures InsertsOnly(s, [x] + t)
  {
    assert ([x] + t)[1..] == t;
  }

  lemma {:induction false} InsertsOnlyInsert(s: seq<string>, t: seq<string>, i: nat, x: string)
    requires InsertsOnly(s, t) && x in Fillers && i <= |t|
    ensures InsertsOnly(s, Insert(t, i, x))
    decreases i
  {
    if i == 0 {
      assert Insert(t, 0, x) == [x] + t;
      InsertsOnlyFill(x, s, t);
    } else {
      assert Insert(t, i, x) == [t[0]] + Insert(t[1..], i - 1, x);
      if |s| > 0 && s[0] == t[0] && InsertsOnly(s[1..], t[1..]) {
        InsertsOnlyInsert(s[1..], t[1..], i - 1, x);
        InsertsOnlyCons(t[0], s[1..], Insert(t[1..], i - 1, x));
        assert [s[0]] + s[1..] == s;
      } else {
        InsertsOnlyInsert(s, t[1..], i - 1, x);
        InsertsOnlyFill(t[0], s, Insert(t[1..], i - 1, x));
      }
    }
  }

  /** The scan only inserts fillers. */
  lemma {:induction false} ScanInsertsOnly<V>(reg: Registry<V>, s: seq<string>)
    ensures InsertsOnly(s, ScanNegative(reg, s))
    decreases |s|
  {
    if |s| >= 3 && s[0] == "(" && s[1] == "-" && IsNumber(s[2]) {
      ScanInsertsOnly(reg, s[3..]);
      NumberSiteInsertsOnly(s, ScanNegative(reg, s[3..]));
    } else if |s| >= 3 && s[0] == "(" && s[1] == "-" && IsUnary(reg, s[2]) {
      ScanInsertsOnly(reg, s[2..]);
      FunctionSiteInsertsOnly(s, ScanNegative(reg, s[2..]));
    } else if |s| > 0 {
      ScanInsertsOnly(reg, s[1..]);
      InsertsOnlyCons(s[0], s[1..], ScanNegative(reg, s[1..]));
      assert [s[0]] + s[1..] == s;
    }
  }

  /** `( - N rest` against `( ( 0 - N ) r`, given `rest` against `r`. */
  lemma NumberSiteInsertsOnly(s: seq<string>, r: seq<string>)
    requires |s| >= 3 && s[0] == "(" && s[1] == "-" && InsertsOnly(s[3..], r)
    ensures InsertsOnly(s, ["(", "(", "0", "-", s[2], ")"] + r)
  {
    var t := [s[2], ")"] + r;
    NumberInsertsOnly(s[2..], r);
    FunctionSiteInsertsOnly(s, t);
    InsertsOnlyInsert(s, ["(", "0", "-"] + t, 1, "(");
    assert Insert(["(", "0", "-"] + t, 1, "(") == ["(", "(", "0", "-", s[2], ")"] + r;
  }

  /** `N rest` against `N ) r`, given `rest` against `r`. */
  lemma NumberInsertsOnly(s: seq<string>, r: seq<string>)
    requires |s| >= 1 && InsertsOnly(s[1..], r)
    ensures InsertsOnly(s, [s[0], ")"] + r)
  {
    InsertsOnlyFill(")", s[1..], r);
    InsertsOnlyCons(s[0], s[1..], [")"] + r);
    assert [s[0]] + s[1..] == s;
    assert [s[0]] + ([")"] + r) == [s[0], ")"] + r;
  }

  /** `( - f rest` against `( 0 - r`, given `f rest` against `r`. */
  lemma FunctionSiteInsertsOnly(s: seq<string>, r: seq<string>)
    requires |s| >= 3 && s[0] == "(" && s[1] == "-" && InsertsOnly(s[2..], r)
    ensures InsertsOnly(s, ["(", "0", "-"] + r)
  {
    InsertsOnlyCons("-", s[2..], r);
    InsertsOnlyFill("0", s[1..], ["-"] + r);
    InsertsOnlyCons("(", s[1..], ["0"] + (["-"] + r));
    assert ["-"] + s[2..] == s[1..] && ["("] + s[1..] == s;
    assert ["("] + (["0"] + (["-"] + r)) == ["(", "0", "-"] + r;
  }

  /** `fixForNegative` only inserts tokens, and only `(`, `0` and `)`:
      the input is a subsequence of the output. */
  lemma FixNegativeInsertsOnly<V>(reg: Registry<V>, expr: seq<string>)
    ensures InsertsOnly(expr, FixNegative(reg, expr))
  {
    var mid := ScanNegative(reg, expr);
    ScanInsertsOnly(reg, expr);
    if |expr| > 1 && expr[0] == "-" {
      var a := mid;
      if IsNumber(mid[1]) {
        InsertsOnlyInsert(expr, mid, 0, "(");
        InsertsOnlyInsert(expr, Insert(mid, 0, "("), 1, "0");
        InsertsOnlyInsert(expr, Insert(Insert(mid, 0, "("), 1, "0"), 4, ")");
        a := Insert(Insert(Insert(mid, 0, "("), 1, "0"), 4, ")");
      }
      if IsUnary(reg, a[1]) {
        InsertsOnlyInsert(expr, a, 0, "0");
      }
    }
  }

  /** Inserting fillers keeps every other token's count: in particular no
      minus sign is added or removed. */
  lemma {:induction false} InsertsOnlyKeepsCount(s: seq<string>, t: seq<string>, x: string)
    requires InsertsOnly(s, t) && x !in Fillers
    ensures Occurrences(t, x) == Occurrences(s, x)
    decreases |t|
  {
    if |t| > 0 {
      if |s| > 0 && s[0] == t[0] && InsertsOnly(s[1..], t[1..]) {
        InsertsOnlyKeepsCount(s[1..], t[1..], x);
      } else {
        InsertsOnlyKeepsCount(s, t[1..], x);
      }
    }
  }

  /** Position `j` starts `( - N` or `( - f`, one of the two patterns the
      scan rewrites. */
  predicate Site<V>(reg: Registry<V>, expr: seq<string>, j: int) {
    && 0 <= j && j + 2 < |expr|
    && expr[j] == "(" && expr[j + 1] == "-"
    && (IsNumber(expr[j + 2]) || IsUnary(reg, expr[j + 2]))
  }

  /** Reference definition of the scan, one position at a time: a minus
      right after the `(` of a pattern becomes `( 0 -` (number) or `0 -`
      (function), the number of a number pattern gains a `)` after it,
      and every other token stands for itself. */
  function Expansion<V>(reg: Registry<V>, expr: seq<string>, j: nat): seq<string>
    requires j < |expr|
  {
    if expr[j] == "-" && j >= 1 && Site(reg, expr, j - 1) then
      (if IsNumber(expr[j + 1]) then ["(", "0", "-"] else ["0", "-"])
    else if j >= 2 && Site(reg, expr, j - 2) && IsNumber(expr[j]) then [expr[j], ")"]
    else [expr[j]]
  }

  /** The expansions of positions `k` onwards, concatenated. */
  function ExpandFrom<V>(reg: Registry<V>, expr: seq<string>, k: nat): seq<string>
    requires k <= |expr|
    decreases |expr| - k
  {
    if k == |expr| then [] else Expansion(reg, expr, k) + ExpandFrom(reg, expr, k + 1)
  }

  /** The scan is the position-wise rewrite: exactly the two patterns are
      rewritten and every other token, including every other minus, is
      copied unchanged. */
  lemma ScanIsLocalRewrite<V>(reg: Registry<V>, expr: seq<string>)
    ensures ScanNegative(reg, expr) == ExpandFrom(reg, expr, 0)
  {
    ScanFrom(reg, expr, 0);
  }

  lemma {:induction false} ScanFrom<V>(reg: Registry<V>, expr: seq<string>, k: nat)
    requires k <= |expr|
    requires !(k >= 1 && Site(reg, expr, k - 1))
    requires !(k >= 2 && k < |expr| && Site(reg, expr, k - 2) && IsNumber(expr[k]))
    ensures ScanNegative(reg, expr[k..]) == ExpandFrom(reg, expr, k)
    decreases |expr| - k
  {
    if k == |expr| {
    } else if Site(reg, expr, k) && IsNumber(expr[k + 2]) {
      ScanFrom(reg, expr, k + 3);
      ExpandNumberSite(reg, expr, k);
      ScanNumberSite(reg, expr, k);
    } else if Site(reg, expr, k) {
      ScanFrom(reg, expr, k + 2);
      ExpandFunctionSite(reg, expr, k);
      ScanFunctionSite(reg, expr, k);
    } else {
      ScanFrom(reg, expr, k + 1);
      ExpandPlain(reg, expr, k);
      ScanPlain(reg, expr, k);
    }
  }

  lemma ScanNumberSite<V>(reg: Registry<V>, expr: seq<string>, k: nat)
    requires Site(reg, expr, k) && IsNumber(expr[k + 2])
    ensures ScanNegative(reg, expr[k..]) == ["(", "(", "0", "-", expr[k + 2], ")"] + ScanNegative(reg, expr[k + 3..])
  {
    assert expr[k..][3..] == expr[k + 3..];
  }

  lemma ScanFunctionSite<V>(reg: Registry<V>, expr: seq<string>, k: nat)
    requires Site(reg, expr, k) && !IsNumber(expr[k + 2])
    ensures ScanNegative(reg, expr[k..]) == ["(", "0", "-"] + ScanNegative(reg, expr[k + 2..])
  {
    assert expr[k..][2..] == expr[k + 2..];
  }

  lemma ScanPlain<V>(reg: Registry<V>, expr: seq<string>, k: nat)
    requires k < |expr| && !Site(reg, expr, k)
    ensures ScanNegative(reg, expr[k..]) == [expr[k]] + ScanNegative(reg, expr[k + 1..])
  {
    assert expr[k..][1..] == expr[k + 1..];
  }

  lemma ExpandNumberSite<V>(reg: Registry<V>, expr: seq<string>, k: nat)
    requires Site(reg, expr, k) && IsNumber(expr[k + 2])
    requires !(k >= 2 && Site(reg, expr, k - 2) && IsNumber(expr[k]))
    ensures ExpandFrom(reg, expr, k) == ["(", "(", "0", "-", expr[k + 2], ")"] + ExpandFrom(reg, expr, k + 3)
    ensures !Site(reg, expr, k + 2) && !Site(reg, expr, k + 1)
  {
    assert Expansion(reg, expr, k) == ["("];
    assert Expansion(reg, expr, k + 1) == ["(", "0", "-"];
    assert Expansion(reg, expr, k + 2) == [expr[k + 2], ")"];
    assert ExpandFrom(reg, expr, k + 2) == [expr[k + 2], ")"] + ExpandFrom(reg, expr, k + 3);
    assert ExpandFrom(reg, expr, k + 1) == ["(", "0", "-"] + ExpandFrom(reg, expr, k + 2);
    assert ExpandFrom(reg, expr, k) == ["("] + ExpandFrom(reg, expr, k + 1);
  }

  lemma ExpandFunctionSite<V>(reg: Registry<V>, expr: seq<string>, k: nat)
    requires Site(reg, expr, k) && !IsNumber(expr[k + 2])
    requires !(k >= 2 && Site(reg, expr, k - 2) && IsNumber(expr[k]))
    ensures ExpandFrom(reg, expr, k) == ["(", "0", "-"] + ExpandFrom(reg, expr, k + 2)
    ensures !Site(reg, expr, k + 1)
  {
    assert expr[k + 1] != "(";
    assert Expansion(reg, expr, k) == ["("];
    assert Expansion(reg, expr, k + 1) == ["0", "-"];
    assert ExpandFrom(reg, expr, k + 1) == ["0", "-"] + ExpandFrom(reg, expr, k + 2);
    assert ExpandFrom(reg, expr, k) == ["("] + ExpandFrom(reg, expr, k + 1);
    Regroup(["("], ["0", "-"], ExpandFrom(reg, expr, k + 2));
  }

  lemma ExpandPlain<V>(reg: Registry<V>, expr: seq<string>, k: nat)
    requires k < |expr| && !Site(reg, expr, k)
    requires !(k >= 1 && Site(reg, expr, k - 1))
    requires !(k >= 2 && Site(reg, expr, k - 2) && IsNumber(expr[k]))
    ensures ExpandFrom(reg, expr, k) == [expr[k]] + ExpandFrom(reg, expr, k + 1)
  {
  }

  /** A minus at the very start: `- N` becomes `( 0 - N )`. */
  lemma LeadingMinusNumber<V>(reg: Registry<V>, expr: seq<string>)
    requires WellFormed(reg)
    requires |expr| >= 2 && expr[0] == "-" && IsNumber(expr[1])
    ensures FixNegative(reg, expr) == ["(", "0", "-", expr[1], ")"] + ScanNegative(reg, expr[2..])
  {
    var n, tail := expr[1], ScanNegative(reg, expr[2..]);
    assert n != "(" by { assert !IsNumber("("); }
    LeadingTwo(reg, expr);
    var mid := ScanNegative(reg, expr);
    assert mid == ["-", n] + tail && mid[1] == n;
    InsertLeading(n, tail);
    assert !IsUnary(reg, "0") by { assert "0" !in UnaryNames; }
  }

  /** The three insertions of lines 267-269 on `- N rest`. */
  lemma InsertLeading(n: string, rest: seq<string>)
    ensures Insert(Insert(Insert(["-", n] + rest, 0, "("), 1, "0"), 4, ")") == ["(", "0", "-", n, ")"] + rest
  {
    var a := Insert(["-", n] + rest, 0, "(");
    assert a == ["(", "-", n] + rest;
    var b := Insert(a, 1, "0");
    assert b == ["(", "0", "-", n] + rest;
    var c := Insert(b, 4, ")");
    assert c == ["(", "0", "-", n] + [")"] + rest;
  }

  /** A minus at the very start before a function: `- f` becomes `0 - f`. */
  lemma LeadingMinusFunction<V>(reg: Registry<V>, expr: seq<string>)
    requires WellFormed(reg)
    requires |expr| >= 2 && expr[0] == "-" && !IsNumber(expr[1]) && IsUnary(reg, expr[1])
    ensures FixNegative(reg, expr) == ["0", "-", expr[1]] + ScanNegative(reg, expr[2..])
  {
    var n, tail := expr[1], ScanNegative(reg, expr[2..]);
    assert n != "(" by { assert n in UnaryNames; }
    LeadingTwo(reg, expr);
    var mid := ScanNegative(reg, expr);
    assert mid == ["-", n] + tail && mid[1] == n;
    assert Insert(mid, 0, "0") == ["0", "-", n] + tail;
  }

  /** A leading minus and the token after it pass through the scan. */
  lemma LeadingTwo<V>(reg: Registry<V>, expr: seq<string>)
    requires |expr| >= 2 && expr[0] == "-" && expr[1] != "("
    ensures ScanNegative(reg, expr) == ["-", expr[1]] + ScanNegative(reg, expr[2..])
  {
    ScanPlain(reg, expr, 0);
    ScanPlain(reg, expr, 1);
    assert expr[0..] == expr;
  }

  /** With no pattern anywhere and no leading minus before a number or a
      function, `fixForNegative` returns its input unchanged. */
  lemma NoPatternUnchanged<V>(reg: Registry<V>, expr: seq<string>)
    requires forall j | 0 <= j < |expr| :: !Site(reg, expr, j)
    requires !(|expr| > 1 && expr[0] == "-" && (IsNumber(expr[1]) || IsUnary(reg, expr[1])))
    ensures FixNegative(reg, expr) == expr
  {
    NoSiteScanUnchanged(reg, expr, 0);
    assert expr[0..] == expr;
  }

  lemma {:induction false} NoSiteScanUnchanged<V>(reg: Registry<V>, expr: seq<string>, k: nat)
    requires k <= |expr|
    requires forall j | k <= j < |expr| :: !Site(reg, expr, j)
    ensures ScanNegative(reg, expr[k..]) == expr[k..]
    decreases |expr| - k
  {
    if k < |expr| {
      assert !Site(reg, expr, k);
      assert expr[k..][1..] == expr[k + 1..];
      NoSiteScanUnchanged(reg, expr, k + 1);
    }
  }
}
