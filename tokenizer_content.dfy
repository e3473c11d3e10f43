/**
 * What the tokens of a successful tokenize say about the characters of the
 * input: read back in order, with every "*" (written or implicit) read as
 * nothing and the "-1" of a rewritten sign read as "-", they spell the input
 * without its spaces and its '*' characters, and without the leading '+' that
 * checkPreconditions drops. No character is lost, reordered or invented; with
 * ImplicitProducts this places every implicit "*".
 */
module TokenizerContent {
  import opened Results
  import opened Numbers
  import opened Tokens
  import opened Tokenizer
  import opened TokenizerProps

  /** The characters a token stands for. */
  function Shown(t: string): string {
    if t == "*" then "" else if t == "-1" then "-" else t
  }

  /** The tokens read back as characters, in order. */
  function Spelled(ts: seq<string>): string {
    if ts == [] then "" else Spelled(ts[..|ts| - 1]) + Shown(ts[|ts| - 1])
  }

  /** The string with its '*' characters removed. */
  function WithoutStars(w: string): string {
    if w == [] then "" else WithoutStars(w[..|w| - 1]) + (if w[|w| - 1] == '*' then "" else [w[|w| - 1]])
  }

  /** The string checkPreconditions goes on with, before its "-1" "*" rewrite: a leading '+' before 'x' or a digit is dropped. */
  function SignKept(f0: string): (f: string)
    ensures |f0| > 0 && IsOperator(f0[0]) && f0[0] != '+' ==> f == f0
    ensures f == f0 || (|f0| > 0 && f == f0[1..])
  {
    if LeadingPlus(f0) then f0[1..] else f0
  }

  /** Reading back works piece by piece. */
  lemma {:induction false} SpelledAppend(a: seq<string>, b: seq<string>)
    ensures Spelled(a + b) == Spelled(a) + Spelled(b)
    decreases |b|
  {
    if b == [] {
      assert a + b == a;
    } else {
      var b', t := b[..|b| - 1], b[|b| - 1];
      SpelledAppend(a, b');
      var ab := a + b;
      assert ab[..|ab| - 1] == a + b' && ab[|ab| - 1] == t;
      assert Spelled(ab) == (Spelled(a) + Spelled(b')) + Shown(t);
      assert Spelled(b) == Spelled(b') + Shown(t);
      Associative(Spelled(a), Spelled(b'), Shown(t));
    }
  }

  /** Removing the stars works piece by piece. */
  lemma {:induction false} WithoutStarsAppend(a: string, b: string)
    ensures WithoutStars(a + b) == WithoutStars(a) + WithoutStars(b)
    decreases |b|
  {
    if b == [] {
      assert a + b == a;
    } else {
      var b', c := b[..|b| - 1], b[|b| - 1];
      var kept := if c == '*' then "" else [c];
      WithoutStarsAppend(a, b');
      var ab := a + b;
      assert ab[..|ab| - 1] == a + b' && ab[|ab| - 1] == c;
      assert WithoutStars(ab) == (WithoutStars(a) + WithoutStars(b')) + kept;
      assert WithoutStars(b) == WithoutStars(b') + kept;
      Associative(WithoutStars(a), WithoutStars(b'), kept);
    }
  }

  /** One and two tokens read back. */
  lemma SpelledShort(a: string, b: string)
    ensures Spelled([a]) == Shown(a) && Spelled([a, b]) == Shown(a) + Shown(b)
  {
    assert [a][..0] == [];
    assert [a, b][..1] == [a];
  }

  /** One character without its star. */
  lemma WithoutStarsChar(c: char)
    ensures WithoutStars([c]) == if c == '*' then "" else [c]
  {
    assert [c][..0] == [];
  }

  /** Characters that are not operators are kept as they are. */
  lemma {:induction false} PlainStars(w: string)
    requires NoOperators(w)
    ensures WithoutStars(w) == w
    decreases |w|
  {
    if w != [] {
      var w' := w[..|w| - 1];
      assert NoOperators(w');
      PlainStars(w');
      assert w == w' + [w[|w| - 1]];
    }
  }

  /** A token without operator characters stands for itself. */
  lemma PlainShown(t: string)
    requires NoOperators(t)
    ensures Shown(t) == t
  {
    if t != [] {
      assert !IsOperator(t[0]);
    }
  }

  /** An operand appended with WithProduct adds its characters, and its implicit "*" adds none. */
  lemma ProductSpelled(tokens: seq<string>, t: string)
    requires NoOperators(t)
    ensures Spelled(WithProduct(tokens, t)) == Spelled(tokens) + t
  {
    PlainShown(t);
    SpelledShort("*", t);
    SpelledShort(t, t);
    SpelledAppend(tokens, Glue(tokens, t));
  }

  /** The split appends the characters of the numeric part; its "*" adds none. */
  lemma SplitSpelled(tokens: seq<string>, n: string)
    requires NoOperators(n)
    ensures Spelled(AppendSplit(tokens, n)) == Spelled(tokens) + n
  {
    ProductSpelled(tokens, n);
    SpelledShort("*", "*");
    SpelledAppend(WithProduct(tokens, n), ["*"]);
  }

  /** Whatever lines 509-543 append for the operator f[i] stands for that one character. */
  lemma OperatorSpelled(c: char, tokens: seq<string>, next: seq<string>)
    requires || (next == tokens + ["*", "("] && c == '(')
             || (next == tokens + [")", "*"] && c == ')')
             || (next == tokens + ["-1", "*"] && c == '-')
             || next == tokens + [[c]]
    ensures Spelled(next) == Spelled(tokens) + WithoutStars([c])
  {
    WithoutStarsChar(c);
    if next == tokens + ["*", "("] && c == '(' {
      assert Spelled(next) == Spelled(tokens) + "(" by {
        AppendedSpelled(tokens, "*", "(");
      }
    } else if next == tokens + [")", "*"] && c == ')' {
      assert Spelled(next) == Spelled(tokens) + ")" by {
        AppendedSpelled(tokens, ")", "*");
      }
    } else if next == tokens + ["-1", "*"] && c == '-' {
      assert Spelled(next) == Spelled(tokens) + "-" by {
        AppendedSpelled(tokens, "-1", "*");
      }
    } else {
      assert Spelled(next) == Spelled(tokens) + Shown([c]) by {
        assert next == tokens + [[c]];
        SpelledShort([c], [c]);
        SpelledAppend(tokens, [[c]]);
      }
      assert Shown([c]) == if c == '*' then "" else [c];
    }
  }

  /** Two tokens appended read back as the two of them. */
  lemma AppendedSpelled(tokens: seq<string>, a: string, b: string)
    ensures Spelled(tokens + [a, b]) == Spelled(tokens) + Shown(a) + Shown(b)
  {
    SpelledShort(a, b);
    SpelledAppend(tokens, [a, b]);
  }

  /** What lines 509-543 append, and the character each list stands for. */
  lemma OperatorCases(f: string, i: nat, tokens: seq<string>, next: seq<string>)
    requires i < |f| && IsOperator(f[i]) && OperatorStep(f, i, tokens) == Ok(next)
    ensures || (next == tokens + ["*", "("] && f[i] == '(')
            || (next == tokens + [")", "*"] && f[i] == ')')
            || (next == tokens + ["-1", "*"] && f[i] == '-')
            || next == tokens + [[f[i]]]
  {
  }

  /** The tokens spell the prefix p and then f, starless, up to where the pending run starts. */
  predicate ContentInv(f: string, i: nat, token: string, tokens: seq<string>, p: string) {
    && ScanState(f, i, token)
    && NoOperators(token)
    && Spelled(tokens) == p + WithoutStars(f[..i - |token|])
  }

  /** Characters without operators between a and b are spelled by themselves. */
  lemma ExtendSpelled(f: string, a: nat, b: nat, p: string, n: string)
    requires a <= b <= |f| && n == f[a..b] && NoOperators(n)
    ensures p + WithoutStars(f[..a]) + n == p + WithoutStars(f[..b])
  {
    assert f[..b] == f[..a] + n;
    WithoutStarsPlain(f[..b], f[..a], n);
    Associative(p, WithoutStars(f[..a]), n);
  }

  /** A string that ends with characters that are not operators. */
  lemma WithoutStarsPlain(w: string, a: string, n: string)
    requires w == a + n && NoOperators(n)
    ensures WithoutStars(w) == WithoutStars(a) + n
  {
    WithoutStarsAppend(a, n);
    PlainStars(n);
  }

  /** A string that ends with c. */
  lemma WithoutStarsSnoc(w: string, a: string, c: char)
    requires w == a + [c]
    ensures WithoutStars(w) == WithoutStars(a) + WithoutStars([c])
  {
    WithoutStarsAppend(a, [c]);
  }

  /** The operator itself, once any pending number is in the list. */
  lemma AfterOperatorContent(f: string, i: nat, tokens: seq<string>, p: string)
    requires i < |f| && IsOperator(f[i]) && ContentInv(f, i, "", tokens, p)
    ensures var m := AfterOperator(f, i, tokens);
            m.Next? ==> ContentInv(f, m.i, m.token, m.tokens, p)
  {
    if OperatorStep(f, i, tokens).Ok? {
      var next := OperatorStep(f, i, tokens).value;
      OperatorCases(f, i, tokens, next);
      OperatorSpelled(f[i], tokens, next);
      assert f[..i + 1] == f[..i] + [f[i]];
      WithoutStarsSnoc(f[..i + 1], f[..i], f[i]);
      Associative(p, WithoutStars(f[..i]), WithoutStars([f[i]]));
    }
  }

  /** A step at an operator keeps the spelling (lines 470-545). */
  lemma OperatorMoveContent(f: string, i: nat, token: string, tokens: seq<string>, p: string)
    requires ContentInv(f, i, token, tokens, p) && i < |f| && IsOperator(f[i])
    ensures var m := OperatorMove(f, i, token, tokens);
            m.Next? ==> ContentInv(f, m.i, m.token, m.tokens, p)
  {
    var start := i - |token|;
    if IsNumber(token) {
      var w := WithProduct(tokens, token);
      ProductSpelled(tokens, token);
      ExtendSpelled(f, start, i, p, token);
      AfterOperatorContent(f, i, w, p);
    } else if token != [] {
      SplitRunContent(f, i, token, tokens, p);
    } else {
      AfterOperatorContent(f, i, tokens, p);
    }
  }

  /** Splitting a run at an operator keeps the spelling (lines 484-506). */
  lemma SplitRunContent(f: string, i: nat, token: string, tokens: seq<string>, p: string)
    requires ContentInv(f, i, token, tokens, p) && i < |f| && IsOperator(f[i]) && token != []
    ensures var m := SplitRun(f, i, token, tokens);
            m.Next? ==> ContentInv(f, m.i, m.token, m.tokens, p)
  {
    var m := SplitRun(f, i, token, tokens);
    SplitRunValue(f, i, token, tokens);
    if m.Next? {
      SplitNumeric(f, i, token);
      var t := token + [f[i]];
      SplitContent(f, i - |token|, NumericPrefix(t), tokens, p, t[..NumericPrefix(t)], m);
    }
  }

  /** The numeric part n of a run starting at start, split off with its "*". */
  lemma SplitContent(f: string, start: nat, k: nat, tokens: seq<string>, p: string, n: string, m: Move)
    requires start + k <= |f| && n == f[start..start + k] && NoOperators(n)
    requires Spelled(tokens) == p + WithoutStars(f[..start])
    requires m == Next(start + k, "", AppendSplit(tokens, n))
    ensures ContentInv(f, m.i, m.token, m.tokens, p)
  {
    var j := start + k;
    assert Spelled(m.tokens) == p + WithoutStars(f[..j]) by {
      SplitSpelled(tokens, n);
      ExtendSpelled(f, start, j, p, n);
    }
    ContentAt(f, j, m.tokens, p);
  }

  /** The state with no pending run at index j. */
  lemma ContentAt(f: string, j: nat, tokens: seq<string>, p: string)
    requires j <= |f| && Spelled(tokens) == p + WithoutStars(f[..j])
    ensures ContentInv(f, j, "", tokens, p)
  {
    assert f[j..j] == [];
  }

  /** A step at any other character keeps the spelling (lines 547-563). */
  lemma LetterMoveContent(f: string, i: nat, token: string, tokens: seq<string>, p: string)
    requires ContentInv(f, i, token, tokens, p) && i < |f| && !IsOperator(f[i])
    ensures var m := LetterMove(f, i, token, tokens);
            m.Next? ==> ContentInv(f, m.i, m.token, m.tokens, p)
  {
    var start := i - |token|;
    var t := token + [f[i]];
    var m := LetterMove(f, i, token, tokens);
    LetterShape(f, i, token, tokens);
    RunContent(f, i, token, t);
    if m.token == "" {
      TokenContent(f, i, start, tokens, p, t);
    }
  }

  /** The run extended by a character that is not an operator. */
  lemma RunContent(f: string, i: nat, token: string, t: string)
    requires ScanState(f, i, token) && NoOperators(token) && i < |f| && !IsOperator(f[i]) && t == token + [f[i]]
    ensures t == f[i - |token|..i + 1] && NoOperators(t)
  {
    assert forall j :: 0 <= j < |token| ==> t[j] == token[j];
  }

  /** A run completed into a token at f[i] is appended and spelled by its characters (lines 553-560). */
  lemma TokenContent(f: string, i: nat, start: nat, tokens: seq<string>, p: string, t: string)
    requires start <= i < |f| && t == f[start..i + 1] && NoOperators(t)
    requires Spelled(tokens) == p + WithoutStars(f[..start])
    ensures ContentInv(f, i + 1, "", WithProduct(tokens, t), p)
  {
    var j := i + 1;
    assert Spelled(WithProduct(tokens, t)) == p + WithoutStars(f[..j]) by {
      ProductSpelled(tokens, t);
      ExtendSpelled(f, start, j, p, t);
    }
    ContentAt(f, j, WithProduct(tokens, t), p);
  }

  /** Every step of the scan keeps the spelling. */
  lemma StepContent(f: string, i: nat, token: string, tokens: seq<string>, p: string)
    requires ContentInv(f, i, token, tokens, p) && i < |f|
    ensures var m := Step(f, i, token, tokens);
            m.Next? ==> ContentInv(f, m.i, m.token, m.tokens, p)
  {
    if IsOperator(f[i]) {
      OperatorMoveContent(f, i, token, tokens, p);
    } else {
      LetterMoveContent(f, i, token, tokens, p);
    }
  }

  /** A suffix of a string without spaces has none either. */
  lemma SpacelessSuffix(f: string, j: nat)
    requires Spaceless(f) && j <= |f|
    ensures Spaceless(f[j..])
  {
    assert forall n :: 0 <= n < |f| - j ==> f[j..][n] == f[j + n];
  }

  /** f cut at a and at b. */
  lemma SliceSplit(f: string, a: nat, b: nat)
    requires a <= b <= |f|
    ensures f == f[..a] + (f[a..b] + f[b..])
  {
    assert f[a..] == f[a..b] + f[b..];
    assert f == f[..a] + f[a..];
  }

  /** The end of f, from a run's start, is its numeric part and then the rest. */
  lemma RunWithoutStars(f: string, start: nat, k: nat)
    requires start + k <= |f| && NoOperators(f[start..start + k])
    ensures WithoutStars(f) == WithoutStars(f[..start]) + (f[start..start + k] + WithoutStars(f[start + k..]))
  {
    SliceSplit(f, start, start + k);
    WithoutStarsPieces(f, f[..start], f[start..start + k], f[start + k..]);
  }

  /** A string in three pieces, the middle one without operators. */
  lemma WithoutStarsPieces(f: string, pre: string, n: string, run: string)
    requires f == pre + (n + run) && NoOperators(n)
    ensures WithoutStars(f) == WithoutStars(pre) + (n + WithoutStars(run))
  {
    WithoutStarsAppend(pre, n + run);
    WithoutStarsAppend(n, run);
    PlainStars(n);
  }

  /** A trailing run is spelled by its numeric part and the tokens of its rest (lines 573-591). */
  lemma TrailingContent(f: string, i: nat, token: string, tokens: seq<string>, p: string, k: nat, rest: seq<string>)
    requires ContentInv(f, i, token, tokens, p) && i == |f| && Spaceless(f)
    requires 0 < k < |token| && NoOperators(token[..k])
    requires Spelled(rest) == WithoutStars(SignKept(RemoveSpaces(token[k..])))
    ensures Spelled(AppendSplit(tokens, token[..k]) + rest) == p + WithoutStars(f)
  {
    var start := |f| - |token|;
    var n, run := token[..k], token[k..];
    var split := AppendSplit(tokens, n);
    var a, r := WithoutStars(f[..start]), WithoutStars(run);
    assert n == f[start..start + k] && run == f[start + k..] by {
      assert token == f[start..];
      PrefixOfSlice(f, start, k);
      SuffixOfSlice(f, start, k);
    }
    assert Spelled(rest) == r by {
      assert NoOperators(run);
      SpacelessSuffix(f, start + k);
      NoSpaces(run);
    }
    assert Spelled(split) == p + a + n by {
      SplitSpelled(tokens, n);
    }
    RunWithoutStars(f, start, k);
    SpelledAppend(split, rest);
    Associative(p + a, n, r);
    Associative(p, a, n + r);
  }

  /** A successful scan from a state with the spelling spells p and then all of f. */
  lemma {:induction false} ScanContent(f: string, i: nat, token: string, tokens: seq<string>, p: string, ts: seq<string>)
    requires ContentInv(f, i, token, tokens, p) && Spaceless(f)
    requires Scan(f, i, token, tokens) == Ok(ts)
    ensures Spelled(ts) == p + WithoutStars(f)
    decreases |f|, 0, |f| - (i - |token|), |f| - i
  {
    if i < |f| {
      StepContent(f, i, token, tokens, p);
      ScanUnfold(f, i, token, tokens);
      var m := Step(f, i, token, tokens);
      ScanContent(f, m.i, m.token, m.tokens, p, ts);
    } else if IsNumber(token) {
      NumberEnd(f, i, token, tokens, p, ts);
    } else if token != [] {
      TrailingParts(f, i, token, tokens, ts);
      var k := NumericPrefix(token);
      var rest := Tokenize(token[k..]).value;
      TokenizeContent(token[k..], rest);
      TrailingContent(f, i, token, tokens, p, k, rest);
    } else {
      EmptyEnd(f, i, token, tokens, p, ts);
    }
  }

  /** At the end of f a numeric run becomes the last factor (lines 570-572). */
  lemma NumberEnd(f: string, i: nat, token: string, tokens: seq<string>, p: string, ts: seq<string>)
    requires ContentInv(f, i, token, tokens, p) && i == |f| && IsNumber(token)
    requires Scan(f, i, token, tokens) == Ok(ts)
    ensures Spelled(ts) == p + WithoutStars(f)
  {
    assert ts == WithProduct(tokens, token);
    ProductSpelled(tokens, token);
    ExtendSpelled(f, i - |token|, |f|, p, token);
    assert f[..|f|] == f;
  }

  /** At the end of f with no run the tokens are complete. */
  lemma EmptyEnd(f: string, i: nat, token: string, tokens: seq<string>, p: string, ts: seq<string>)
    requires ContentInv(f, i, token, tokens, p) && i == |f| && token == []
    requires Scan(f, i, token, tokens) == Ok(ts)
    ensures Spelled(ts) == p + WithoutStars(f)
  {
    assert ts == tokens && f[..|f|] == f;
  }

  /** At the end of f a run that is not a number splits at its numeric prefix (lines 573-591). */
  lemma TrailingParts(f: string, i: nat, token: string, tokens: seq<string>, ts: seq<string>)
    requires ScanState(f, i, token) && i == |f| && token != [] && !IsNumber(token)
    requires Scan(f, i, token, tokens) == Ok(ts)
    ensures var k := NumericPrefix(token);
      0 < k < |token| && NoOperators(token[..k]) && Tokenize(token[k..]).Ok? &&
      ts == AppendSplit(tokens, token[..k]) + Tokenize(token[k..]).value
  {
    var k := NumericPrefix(token);
    assert Scan(f, i, token, tokens) == Trailing(f, token, tokens);
    assert k < |token| && IsNumber(token[..k]);
    TrailingNumeric(f, i, token, k);
  }

  /**
   * The tokens of a successful tokenize, read back in order with "*" as
   * nothing and "-1" as "-", spell the input without spaces and '*'
   * characters, less the leading '+' that checkPreconditions drops.
   */
  lemma {:induction false} TokenizeContent(s: string, ts: seq<string>)
    requires Tokenize(s) == Ok(ts)
    ensures Spelled(ts) == WithoutStars(SignKept(RemoveSpaces(s)))
    decreases |s|, 1, 0, 0
  {
    var f0 := RemoveSpaces(s);
    TokenizeUnfold(s);
    assert Spaceless(f0);
    StartContent(f0);
    var (f, prefix) := Preconditions(f0).value;
    ScanContent(f, 0, "", prefix, if LeadingMinus(f0) then "-" else "", ts);
  }

  /**
   * The scan starts from the sign rewrite of checkPreconditions (lines 620-641):
   * a leading "-1" "*" stands for the '-' it replaces, a dropped '+' for nothing.
   */
  lemma StartContent(f0: string)
    requires Spaceless(f0) && Preconditions(f0).Ok?
    ensures var (f, prefix) := Preconditions(f0).value;
      var p := if LeadingMinus(f0) then "-" else "";
      ContentInv(f, 0, "", prefix, p) && Spaceless(f) && WithoutStars(SignKept(f0)) == p + WithoutStars(f)
  {
    SignCases(f0);
    var (f, prefix) := Preconditions(f0).value;
    if LeadingMinus(f0) {
      SpacelessSuffix(f0, 1);
      assert f0 == [f0[0]] + f[..];
      WithoutStarsCons(f0, f0[0], f);
      SpelledShort("-1", "*");
      ContentStart(f, prefix, "-");
    } else if LeadingPlus(f0) {
      SpacelessSuffix(f0, 1);
      ContentStart(f, prefix, "");
    } else {
      ContentStart(f, prefix, "");
    }
  }

  /** A string that starts with c. */
  lemma WithoutStarsCons(w: string, c: char, rest: string)
    requires w == [c] + rest
    ensures WithoutStars(w) == (if c == '*' then "" else [c]) + WithoutStars(rest)
  {
    WithoutStarsAppend([c], rest);
    WithoutStarsChar(c);
  }

  /** The state before the first character. */
  lemma ContentStart(f: string, prefix: seq<string>, p: string)
    requires Spelled(prefix) == p
    ensures ContentInv(f, 0, "", prefix, p)
  {
    assert f[..0] == [];
    ContentAt(f, 0, prefix, p);
  }
}
