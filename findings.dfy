/**
 * The split of a digit-letter run (Function.java lines 496-498 and 584-586)
 * appends the number and a "*" without the implicit "*" that every other
 * operand gets after ")" or a number. With "x2x" the list is x 2 * x, whose
 * evaluation never ends. The model's tokenizer uses the corrected split
 * (AppendSplit). This module also holds the tokenizer as written
 * (TokenizeAsWritten), which differs from it only in the split, and sets the
 * two side by side.
 */
module Findings {
  import opened Results
  import opened Numbers
  import opened Tokens
  import opened Tokenizer
  import opened Evaluator

  /** As written, the split puts a number right after a finished operand. */
  lemma SplitAsWrittenBreaksProducts(tokens: seq<string>, numeric: string)
    requires tokens != [] && EndsValue(Last(tokens)) && IsNumber(numeric)
    ensures !ImplicitProducts(SplitAsWritten(tokens, numeric))
  {
    var r := SplitAsWritten(tokens, numeric);
    var j := |tokens| - 1;
    assert r[j] == Last(tokens) && r[j + 1] == numeric;
  }

  /** The corrected split keeps every juxtaposition a product. */
  lemma AppendSplitKeepsProducts(tokens: seq<string>, numeric: string)
    requires ImplicitProducts(tokens) && IsNumber(numeric)
    ensures ImplicitProducts(AppendSplit(tokens, numeric))
  {
    var r := AppendSplit(tokens, numeric);
    var n := |tokens|;
    forall j, k | 0 <= j < |r| && k == j + 1 && k < |r|
      ensures !(EndsValue(r[j]) && StartsValue(r[k]))
    {
      if k < n {
        assert r[j] == tokens[j] && r[k] == tokens[k];
      } else if k == |r| - 1 {
        assert r[k] == "*";
      } else if k == n {
        assert r[j] == Last(tokens);
      } else {
        assert k == n + 1 && r[j] == "*";
      }
    }
  }

  /** x 2 * x, as the source tokenizes "x2x", with x bound to v: the loop of evaluateAt never ends. */
  lemma AsWrittenDiverges(lib: MathLib, v: Num, w: seq<Item>)
    requires w == [Val(v), Text("2"), Text("*"), Val(v)]
    ensures EvaluateTokens(lib, w) == Err(Diverges)
  {
    var w2 := AsWrittenFirstRound(lib, v, w);
    EvaluateRound(lib, w, w2);
    WholeRound(lib, w2);
    NoOpsFrom(lib, Power, w2, 0);
    ShortTokensFrom(lib, w2);
    NoOpsFrom(lib, Product, w2, 0);
    NoOpsFrom(lib, Sum, w2, 0);
    assert w2[0 := w2[0]] == w2;
    ParseRounds(lib, w2, w2, w2, w2, w2, v);
    EvaluateStuck(lib, w2);
  }

  /** The first round on x 2 * x contracts 2 * v, and nothing else. */
  lemma AsWrittenFirstRound(lib: MathLib, v: Num, w: seq<Item>) returns (w2: seq<Item>)
    requires w == [Val(v), Text("2"), Text("*"), Val(v)]
    ensures w2 == [Val(v), Val(Mul(Fin(2.0), v))] && EvalStep(lib, w) == Ok(w2)
  {
    var two := Fin(2.0);
    assert ParseNumber(lib, Text("2")) == Ok(two) by {
      assert "2"[1..] == [];
    }
    var m := Mul(two, v);
    w2 := [Val(v), Val(m)];
    WholeRound(lib, w);
    NoOpsFrom(lib, Power, w, 0);
    ShortTokensFrom(lib, w);
    assert BinaryFrom(lib, Product, w, 0) == BinaryFrom(lib, Product, w, 2);
    assert Contract(w, 2, m) == w2;
    assert w[2] == Text("*") && w[1] == Text("2") && Combine(lib, "*", two, v, Val(v)) == Ok(m);
    BinaryStep(lib, Product, w, 2, two, v, m);
    assert BinaryFrom(lib, Product, w2, 2) == Ok(w2);
    NoOpsFrom(lib, Sum, w2, 0);
    assert w2[0 := Val(v)] == w2;
    ParseRounds(lib, w, w, w, w2, w2, v);
  }

  /** x * 2 * x, as the corrected split tokenizes "x2x": the value v * 2 * v. */
  lemma CorrectedEvaluates(lib: MathLib, v: Num, w: seq<Item>)
    requires w == [Val(v), Text("*"), Text("2"), Text("*"), Val(v)]
    ensures EvaluateTokens(lib, w) == Ok(Mul(Mul(v, Fin(2.0)), v))
  {
    var m2 := Mul(Mul(v, Fin(2.0)), v);
    WholeRound(lib, w);
    NoOpsFrom(lib, Power, w, 0);
    ShortTokensFrom(lib, w);
    CorrectedProducts(lib, v, w, m2);
    NoOpsFrom(lib, Sum, [Val(m2)], 0);
    assert [Val(m2)][0 := Val(m2)] == [Val(m2)];
    ParseRounds(lib, w, w, w, [Val(m2)], [Val(m2)], m2);
    EvaluateRound(lib, w, [Val(m2)]);
  }

  /** The product pass over x * 2 * x folds left to one value. */
  lemma CorrectedProducts(lib: MathLib, v: Num, w: seq<Item>, m2: Num)
    requires w == [Val(v), Text("*"), Text("2"), Text("*"), Val(v)]
    requires m2 == Mul(Mul(v, Fin(2.0)), v)
    ensures BinaryFrom(lib, Product, w, 0) == Ok([Val(m2)])
  {
    var m1 := Mul(v, Fin(2.0));
    var w2 := [Val(m1), Text("*"), Val(v)];
    assert BinaryFrom(lib, Product, w, 0) == BinaryFrom(lib, Product, w, 1);
    FirstProduct(lib, v, w, m1, w2);
    LastProduct(lib, v, m1, w2, m2);
  }

  /** v * 2 becomes one value, and the pass goes on at the same index. */
  lemma FirstProduct(lib: MathLib, v: Num, w: seq<Item>, m1: Num, w2: seq<Item>)
    requires w == [Val(v), Text("*"), Text("2"), Text("*"), Val(v)]
    requires m1 == Mul(v, Fin(2.0)) && w2 == [Val(m1), Text("*"), Val(v)]
    ensures BinaryFrom(lib, Product, w, 1) == BinaryFrom(lib, Product, w2, 1)
  {
    var two := Fin(2.0);
    assert ParseNumber(lib, Text("2")) == Ok(two) by {
      assert "2"[1..] == [];
    }
    assert Contract(w, 1, m1) == w2;
    assert Combine(lib, "*", v, two, Text("2")) == Ok(m1);
    BinaryStep(lib, Product, w, 1, v, two, m1);
  }

  /** (v * 2) * v becomes the one value left. */
  lemma LastProduct(lib: MathLib, v: Num, m1: Num, w2: seq<Item>, m2: Num)
    requires w2 == [Val(m1), Text("*"), Val(v)] && m2 == Mul(m1, v)
    ensures BinaryFrom(lib, Product, w2, 1) == Ok([Val(m2)])
  {
    assert Contract(w2, 1, m2) == [Val(m2)];
    assert Combine(lib, "*", m1, v, Val(v)) == Ok(m2);
    BinaryStep(lib, Product, w2, 1, m1, v, m2);
    assert BinaryFrom(lib, Product, [Val(m2)], 1) == Ok([Val(m2)]);
  }

  // ---------------------------------------------------------------------------
  // "x2x" from the string to the value

  /** "x" is the one token x. */
  lemma TokenizeX(s: string)
    requires s == "x"
    ensures Tokenize(s) == Ok(["x"])
  {
    assert RemoveSpaces(s) == s;
    SingleCharNumber('x');
    assert Preconditions(s) == Ok((s, []));
    assert "" + [s[0]] == "x";
    assert LetterMove(s, 0, "", []) == Next(1, "", ["x"]);
    ScanUnfold(s, 0, "", []);
    TokenizeUnfold(s);
  }

  /** "x2x" has no spaces to remove. */
  lemma X2xNoSpaces(s: string)
    requires s == "x2x"
    ensures RemoveSpaces(s) == s
  {
    assert s[2..][1..] == [];
    assert RemoveSpaces(s[2..]) == s[2..];
    assert s[1..][1..] == s[2..];
    assert RemoveSpaces(s[1..]) == [s[1]] + s[2..] == s[1..];
    assert RemoveSpaces(s) == [s[0]] + s[1..] == s;
  }

  /** checkPreconditions lets "x2x" through unchanged. */
  lemma X2xPreconditions(s: string)
    requires s == "x2x"
    ensures Preconditions(s) == Ok((s, []))
  {
    assert multiset(s) == multiset{'x', '2', 'x'};
    assert multiset(s)[')'] == 0 && multiset(s)['('] == 0;
    assert s[0] == 'x' && |s| == 3;
    assert LeadingSign(s) == Ok((s, []));
  }

  /** The first character of "x2x" is the token x. */
  lemma X2xFirst(s: string)
    requires s == "x2x"
    ensures Scan(s, 0, "", []) == Scan(s, 1, "", ["x"])
    ensures LetterMove(s, 0, "", []) == Next(1, "", ["x"])
  {
    assert "" + [s[0]] == "x";
    assert LetterMove(s, 0, "", []) == Next(1, "", ["x"]);
    ScanUnfold(s, 0, "", []);
  }

  /** The digit starts a run. */
  lemma X2xSecond(s: string)
    requires s == "x2x"
    ensures Scan(s, 1, "", ["x"]) == Scan(s, 2, "2", ["x"])
    ensures LetterMove(s, 1, "", ["x"]) == Next(2, "2", ["x"])
  {
    assert "" + [s[1]] == "2";
    assert !IsValidToken("2");
    assert LetterMove(s, 1, "", ["x"]) == Next(2, "2", ["x"]);
    ScanUnfold(s, 1, "", ["x"]);
  }

  /** The second x joins the run, which is no valid token. */
  lemma X2xThird(s: string)
    requires s == "x2x"
    ensures Scan(s, 2, "2", ["x"]) == Scan(s, 3, "2x", ["x"])
    ensures LetterMove(s, 2, "2", ["x"]) == Next(3, "2x", ["x"])
  {
    assert "2" + [s[2]] == "2x";
    assert !IsValidToken("2x");
    assert LetterMove(s, 2, "2", ["x"]) == Next(3, "2x", ["x"]);
    ScanUnfold(s, 2, "2", ["x"]);
  }

  /** Lines 573-591 on a run with a numeric part and a rest that tokenizes. */
  lemma TrailingOk(f: string, token: string, tokens: seq<string>, k: nat, rest: seq<string>)
    requires 0 < |token| <= |f| && k == NumericPrefix(token) && k < |token| && IsNumber(token[..k])
    requires Tokenize(token[k..]) == Ok(rest)
    ensures Trailing(f, token, tokens) == Ending(AppendSplit(tokens, token[..k]) + rest)
  {
  }

  /** The run 2x splits into the number 2 and the rest x. */
  lemma X2xRun(t: string)
    requires t == "2x"
    ensures NumericPrefix(t) == 1 && t[..1] == "2" && t[1..] == "x" && IsNumber("2") && !IsNumber(t)
  {
    assert !NumeralRest("x", false, true);
    assert NumericPrefix("x") == 0;
    assert "2"[1..] == [];
  }

  /** The run left at the end is split, with the corrected "*" in front of the 2. */
  lemma X2xEnd(s: string)
    requires s == "x2x"
    ensures Scan(s, 3, "2x", ["x"]) == Ok(["x", "*", "2", "*", "x"])
  {
    var run: string, tokens: seq<string>, split := "2x", ["x"], ["x", "*", "2", "*"];
    X2xRun(run);
    assert Scan(s, 3, run, tokens) == Trailing(s, run, tokens) by {
      assert |s| == 3 && ScanState(s, 3, run);
    }
    X2xTrailing(s, run, tokens, split);
    assert split + tokens == ["x", "*", "2", "*", "x"];
    assert EndsValue("x");
  }

  /** The run 2x is split at its numeric prefix; the rest x tokenizes on its own. */
  lemma X2xTrailing(s: string, run: string, tokens: seq<string>, split: seq<string>)
    requires s == "x2x" && run == "2x" && tokens == ["x"] && split == ["x", "*", "2", "*"]
    ensures Trailing(s, run, tokens) == Ending(split + tokens)
  {
    X2xRun(run);
    TokenizeX(run[1..]);
    TrailingOk(s, run, tokens, 1, tokens);
    assert WithProduct(tokens, "2") == ["x", "*", "2"];
    assert AppendSplit(tokens, run[..1]) == split;
  }

  /** "x2x" tokenizes to x * 2 * x. */
  lemma TokenizeX2x(s: string)
    requires s == "x2x"
    ensures Tokenize(s) == Ok(["x", "*", "2", "*", "x"])
  {
    X2xNoSpaces(s);
    X2xPreconditions(s);
    TokenizeUnfold(s);
    X2xFirst(s);
    X2xSecond(s);
    X2xThird(s);
    X2xEnd(s);
  }

  // ---------------------------------------------------------------------------
  // The tokenizer as written: the same scan with SplitAsWritten at both splits

  /** Lines 484-506 as written: the numeric part of the run is appended by SplitAsWritten. */
  function SplitRunAsWritten(f: string, i: nat, token: string, tokens: seq<string>): (m: Move)
    requires ScanState(f, i, token) && i < |f| && IsOperator(f[i]) && token != []
    ensures m.Next? ==> ScanState(f, m.i, m.token) && Progress(i, token, m.i, m.token)
    ensures m.Fail? <==> SplitRun(f, i, token, tokens).Fail?
    ensures m.Next? ==> m.i == SplitRun(f, i, token, tokens).i && m.token == SplitRun(f, i, token, tokens).token
  {
    var t := token + [f[i]];
    var k := NumericPrefix(t);
    if IsNumber(t[..k]) then
      assert k <= |token| by {
        assert t[|token|] == f[i];
      }
      Next(i - |token| + k, "", SplitAsWritten(tokens, t[..k]))
    else Fail(UnknownToken(token))
  }

  /** One iteration of the loop at lines 466-564 as written; only the split differs from Step. */
  function StepAsWritten(f: string, i: nat, token: string, tokens: seq<string>): (m: Move)
    requires ScanState(f, i, token) && i < |f|
    ensures m.Next? ==> ScanState(f, m.i, m.token) && Progress(i, token, m.i, m.token)
    ensures !(IsOperator(f[i]) && token != [] && !IsNumber(token)) ==> m == Step(f, i, token, tokens)
  {
    if IsOperator(f[i]) && token != [] && !IsNumber(token) then SplitRunAsWritten(f, i, token, tokens)
    else Step(f, i, token, tokens)
  }

  /** tokenize as written. */
  function TokenizeAsWritten(s: string): Result<seq<string>, ParseError>
    decreases |s|, 1, 0, 0
  {
    match Preconditions(RemoveSpaces(s))
    case Err(e) => Err(e)
    case Ok((f, prefix)) => ScanAsWritten(f, 0, "", prefix)
  }

  /** The scan loop and the checks after it, as written. */
  function ScanAsWritten(f: string, i: nat, token: string, tokens: seq<string>): Result<seq<string>, ParseError>
    requires ScanState(f, i, token)
    decreases |f|, 0, |f| - (i - |token|), |f| - i
  {
    if i < |f| then
      match StepAsWritten(f, i, token, tokens)
      case Fail(e) => Err(e)
      case Next(i', token', tokens') => ScanAsWritten(f, i', token', tokens')
    else if IsNumber(token) then Ending(WithProduct(tokens, token))
    else if token != [] then TrailingAsWritten(f, token, tokens)
    else Ending(tokens)
  }

  /** Lines 573-591 as written: the numeric part is appended by SplitAsWritten. */
  function TrailingAsWritten(f: string, token: string, tokens: seq<string>): Result<seq<string>, ParseError>
    requires 0 < |token| <= |f|
    decreases |f|, 0, 0, 0
  {
    var k := NumericPrefix(token);
    if k < |token| && IsNumber(token[..k]) then
      match TokenizeAsWritten(token[k..])
      case Err(e) => Err(e)
      case Ok(rest) => Ending(SplitAsWritten(tokens, token[..k]) + rest)
    else Err(UnknownToken(token))
  }

  /** The two splits agree exactly when the number does not follow a finished operand. */
  lemma SplitsAgree(tokens: seq<string>, numeric: string)
    ensures SplitAsWritten(tokens, numeric) == AppendSplit(tokens, numeric) <==> !(tokens != [] && EndsValue(Last(tokens)))
  {
    if tokens != [] && EndsValue(Last(tokens)) {
      assert |AppendSplit(tokens, numeric)| != |SplitAsWritten(tokens, numeric)|;
    }
  }

  /** A character that is not an operator is scanned as in the corrected model. */
  lemma AsWrittenLetter(f: string, i: nat, token: string, tokens: seq<string>)
    requires ScanState(f, i, token) && i < |f| && !IsOperator(f[i])
    ensures var m := LetterMove(f, i, token, tokens);
      m.Next? ==> ScanAsWritten(f, i, token, tokens) == ScanAsWritten(f, m.i, m.token, m.tokens)
  {
    assert StepAsWritten(f, i, token, tokens) == LetterMove(f, i, token, tokens);
  }

  /** "x" is the one token x, as written too. */
  lemma TokenizeXAsWritten(s: string)
    requires s == "x"
    ensures TokenizeAsWritten(s) == Ok(["x"])
  {
    assert RemoveSpaces(s) == s;
    SingleCharNumber('x');
    assert Preconditions(s) == Ok((s, []));
    assert "" + [s[0]] == "x";
    assert LetterMove(s, 0, "", []) == Next(1, "", ["x"]);
    AsWrittenLetter(s, 0, "", []);
  }

  /** As written, the scan of "x2x" reaches the run 2x after the token x. */
  lemma X2xAsWrittenScan(s: string)
    requires s == "x2x"
    ensures TokenizeAsWritten(s) == ScanAsWritten(s, 3, "2x", ["x"])
  {
    assert TokenizeAsWritten(s) == ScanAsWritten(s, 0, "", []) by {
      X2xNoSpaces(s);
      X2xPreconditions(s);
    }
    X2xAsWrittenLetters(s);
  }

  /** The three characters of "x2x" are letters and digits, scanned as in the corrected model. */
  lemma X2xAsWrittenLetters(s: string)
    requires s == "x2x"
    ensures ScanAsWritten(s, 0, "", []) == ScanAsWritten(s, 3, "2x", ["x"])
  {
    X2xFirst(s);
    AsWrittenLetter(s, 0, "", []);
    X2xSecond(s);
    AsWrittenLetter(s, 1, "", ["x"]);
    X2xThird(s);
    AsWrittenLetter(s, 2, "2", ["x"]);
  }

  /** As written, the run 2x left at the end becomes 2 * with no "*" after the x before it. */
  lemma X2xAsWrittenEnd(s: string)
    requires s == "x2x"
    ensures ScanAsWritten(s, 3, "2x", ["x"]) == Ok(["x", "2", "*", "x"])
  {
    var run := "2x";
    X2xRun(run);
    assert ScanAsWritten(s, 3, run, ["x"]) == TrailingAsWritten(s, run, ["x"]) by {
      assert |s| == 3 && ScanState(s, 3, run);
    }
    TokenizeXAsWritten(run[1..]);
    assert SplitAsWritten(["x"], run[..1]) + ["x"] == ["x", "2", "*", "x"];
    assert EndsValue("x");
  }

  /** As written, "x2x" becomes x 2 * x, which breaks the implicit products and never finishes evaluating. */
  lemma X2xAsWritten(lib: MathLib, s: string, v: Num)
    requires s == "x2x"
    ensures TokenizeAsWritten(s) == Ok(["x", "2", "*", "x"])
    ensures !ImplicitProducts(TokenizeAsWritten(s).value)
    ensures EvaluateTokens(lib, Substitute(TokenizeAsWritten(s).value, v)) == Err(Diverges)
  {
    X2xAsWrittenScan(s);
    X2xAsWrittenEnd(s);
    var w := AsWrittenSubstituted(TokenizeAsWritten(s).value, v);
    AsWrittenDiverges(lib, v, w);
  }

  /** The working copy of x 2 * x; the x before the 2 leaves out the implicit "*". */
  lemma AsWrittenSubstituted(ts: seq<string>, v: Num) returns (w: seq<Item>)
    requires ts == ["x", "2", "*", "x"]
    ensures !ImplicitProducts(ts)
    ensures w == Substitute(ts, v) && w == [Val(v), Text("2"), Text("*"), Val(v)]
  {
    assert EndsValue(ts[0]) && StartsValue(ts[1]);
    w := Substitute(ts, v);
    assert w[0] == Val(v) && w[1] == Text("2") && w[2] == Text("*") && w[3] == Val(v);
  }

  /** With the corrected split, "x2x" evaluates to v * 2 * v. */
  lemma X2xCorrected(lib: MathLib, s: string, v: Num)
    requires s == "x2x"
    ensures Tokenize(s) == Ok(["x", "*", "2", "*", "x"])
    ensures EvaluateTokens(lib, Substitute(Tokenize(s).value, v)) == Ok(Mul(Mul(v, Fin(2.0)), v))
  {
    TokenizeX2x(s);
    var w := X2xSubstituted(Tokenize(s).value, v);
    CorrectedEvaluates(lib, v, w);
  }

  /** The working copy of x * 2 * x. */
  lemma X2xSubstituted(ts: seq<string>, v: Num) returns (w: seq<Item>)
    requires ts == ["x", "*", "2", "*", "x"]
    ensures w == Substitute(ts, v) && w == [Val(v), Text("*"), Text("2"), Text("*"), Val(v)]
  {
    w := Substitute(ts, v);
    assert w[0] == Val(v) && w[1] == Text("*") && w[2] == Text("2") && w[3] == Text("*") && w[4] == Val(v);
  }
}
