/**
 The two per-token maps of Calculator/MathEvaluator.swift applied before
 validation and conversion: `PlaceholdersforPDA`, which projects each
 token onto the automaton's input alphabet, and `replaceConstants`,
 which swaps a constant's name for the text of its value.
 */
module Categories {
  import opened Operations
  import opened Rewrite

  /** Text the literal test accepts. */
  type Numeral = s: string | IsNumber(s) witness "0"

  /** `Double(String)` and `String(Double)`, both foreign. The formatter's
      output is typed as a numeral, signed when the value is negative:
      `String(Double)` produces text that `Double(String)` accepts. */
  datatype Literals<!V> = Literals(parse: string -> V, render: V -> Numeral)

  /** No registered name is itself a numeral. */
  predicate NoNumeralNames<V>(reg: Registry<V>) {
    forall x | x in reg :: !IsNumber(x)
  }

  /** A string that starts with something other than a digit, a point or
      a minus, or that is a lone minus, is not a numeral. */
  lemma NotNumeral(x: string)
    requires |x| > 0 && !IsDigit(x[0]) && x[0] != '.' && (x[0] == '-' ==> |x| == 1)
    ensures !IsNumber(x)
  {
    if x[0] != '-' {
      assert !(IsDigit(x[0]) || x[0] == '.');
    }
  }

  /** No built-in name is a numeral. */
  lemma BuiltinsNoNumeralNames<V>(lib: Library<V>)
    ensures NoNumeralNames(Builtins(lib)) && NoNumeralNames(BuiltinsCorrected(lib))
  {
    var names := ["π", "e", "+", "-", "*", "/", "^", "sin", "cos", "log2", "ln", "log10", "tan", "abs", "√"];
    forall j | 0 <= j < |names| ensures !IsNumber(names[j]) {
      NotNumeral(names[j]);
    }
    forall x | x in Builtins(lib) ensures !IsNumber(x) {
      assert x in names;
    }
    assert BuiltinsCorrected(lib).Keys == Builtins(lib).Keys;
  }

  const Num := "num"
  const Op := "op"
  const Fun := "fun"
  const Unknown := "nk"

  /** The category of one token (lines 284-294): one of the six input
      symbols of the automaton; a parenthesis stands for itself. */
  function Category<V>(reg: Registry<V>, t: string): (c: string)
    ensures c in {Num, Op, Fun, "(", ")", Unknown}
    ensures c == "(" || c == ")" ==> c == t
  {
    if IsConstant(reg, t) || IsNumber(t) then Num
    else if IsBinary(reg, t) then Op
    else if IsUnary(reg, t) then Fun
    else if t == "(" || t == ")" then t
    else Unknown
  }

  /** `PlaceholdersforPDA(tokens:)` */
  function Placeholders<V>(reg: Registry<V>, tokens: seq<string>): (r: seq<string>)
    ensures |r| == |tokens|
  {
    seq(|tokens|, i requires 0 <= i < |tokens| => Category(reg, tokens[i]))
  }

  /** One token of `replaceConstants(tokenizedExpr:)` (lines 302-308). */
  function Replaced<V>(reg: Registry<V>, lits: Literals<V>, t: string): string {
    if t in reg && reg[t].Constant? then lits.render(reg[t].value) else t
  }

  /** `replaceConstants(tokenizedExpr:)` */
  function ReplaceConstants<V>(reg: Registry<V>, lits: Literals<V>, tokens: seq<string>): (r: seq<string>)
    ensures |r| == |tokens|
    ensures forall i | 0 <= i < |tokens| && r[i] != tokens[i] :: IsConstant(reg, tokens[i])
    ensures forall i | 0 <= i < |tokens| && IsConstant(reg, tokens[i]) ::
              r[i] == lits.render(reg[tokens[i]].value)
  {
    seq(|tokens|, i requires 0 <= i < |tokens| => Replaced(reg, lits, tokens[i]))
  }

  /** What each category means, in terms of the registry and the literal
      test: the projection is total and its six outcomes are exclusive. */
  lemma CategoryMeaning<V>(reg: Registry<V>, t: string)
    ensures Category(reg, t) == Num <==> IsConstant(reg, t) || IsNumber(t)
    ensures Category(reg, t) == Op <==> IsBinary(reg, t) && !IsNumber(t)
    ensures Category(reg, t) == Fun <==> IsUnary(reg, t) && !IsNumber(t)
    ensures Category(reg, t) == "(" <==> t == "(" && t !in reg
    ensures Category(reg, t) == ")" <==> t == ")" && t !in reg
    ensures Category(reg, t) == Unknown <==> t !in reg && !IsNumber(t) && t != "(" && t != ")"
  {
    assert !IsNumber("(") && !IsNumber(")") by {
      assert !IsDigit('(') && !IsDigit(')');
    }
    if t in reg {
      assert reg[t].Arity() <= 2;
    }
  }

  /** Substituting constants does not change any token's category, so
      the automaton sees the same word before and after substitution. */
  lemma ReplaceKeepsCategories<V>(reg: Registry<V>, lits: Literals<V>, tokens: seq<string>)
    requires NoNumeralNames(reg)
    ensures Placeholders(reg, ReplaceConstants(reg, lits, tokens)) == Placeholders(reg, tokens)
  {
    var r := ReplaceConstants(reg, lits, tokens);
    forall i | 0 <= i < |tokens|
      ensures Category(reg, r[i]) == Category(reg, tokens[i])
    {
      if IsConstant(reg, tokens[i]) {
        assert IsNumber(r[i]);
      }
    }
  }

  /** After substitution no token names a constant, and a token is a
      numeral exactly when its category is `num`. */
  lemma ReplacedTokens<V>(reg: Registry<V>, lits: Literals<V>, tokens: seq<string>, i: nat)
    requires NoNumeralNames(reg)
    requires i < |tokens|
    ensures var r := ReplaceConstants(reg, lits, tokens);
      && !IsConstant(reg, r[i])
      && (IsNumber(r[i]) <==> Category(reg, tokens[i]) == Num)
  {
    var r := ReplaceConstants(reg, lits, tokens);
    if IsConstant(reg, tokens[i]) {
      assert IsNumber(r[i]);
    }
  }

  /** A constant added with `addConstant(name, v)` is what later
      substitution writes for `name`: the overwrite is visible at once. */
  lemma ReplaceAfterAddConstant<V>(reg: Registry<V>, lits: Literals<V>, name: string, v: V,
                                   tokens: seq<string>, i: nat)
    requires i < |tokens| && tokens[i] == name
    ensures ReplaceConstants(AddConstant(reg, name, v), lits, tokens)[i] == lits.render(v)
  {
  }
}
