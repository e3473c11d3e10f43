/**
 * What a successful tokenize guarantees about its list, proved by induction over
 * the scan: every token is in the vocabulary, juxtaposed operands are always
 * separated by "*", each parenthesis of the input becomes one parenthesis token,
 * no refused pair of adjacent operators survives, "x" appears only if the input
 * has an 'x', and the list opens with an operand, "(" or "-" and ends with ")"
 * or a number-like token.
 */
module TokenizerProps {
  import opened Results
  import opened Numbers
  import opened Tokens
  import opened Tokenizer

  predicate NoOperators(t: string) {
    forall j :: 0 <= j < |t| ==> !IsOperator(t[j])
  }

  /**
   * Lines 509-537: the adjacent characters f[k], f[k + 1] are an operator pair
   * that the consecutive-operator check refuses. Allowed are a first ')', a
   * second '(', the pair "(-" (rewritten to "-1 *") and a ')' followed by a
   * number-like character, whose branch at line 518 is taken before the check.
   */
  predicate Forbidden(f: string, k: nat)
    requires k + 1 < |f|
  {
    IsOperator(f[k]) && IsOperator(f[k + 1]) && f[k] != ')' && f[k + 1] != '('
    && !(f[k] == '(' && f[k + 1] == '-')
    && !(f[k + 1] == ')' && k + 2 < |f| && IsNumber([f[k + 2]]))
  }

  /** No refused pair lies wholly in f[..n]. */
  predicate NoForbiddenBefore(f: string, n: nat)
    requires n <= |f|
  {
    forall k :: 0 <= k < n - 1 ==> !Forbidden(f, k)
  }

  predicate NoForbiddenPair(f: string) {
    NoForbiddenBefore(f, |f|)
  }

  /** The tokens hold as many parentheses of each kind as the string w. */
  predicate ParenCounts(ts: seq<string>, w: string) {
    Count(ts, "(") == multiset(w)['('] && Count(ts, ")") == multiset(w)[')']
  }

  /** A token a list may open with: an operand, "(" or a unary "-". */
  predicate LeadsWell(t: string) {
    StartsValue(t) || t == "-"
  }

  /**
   * How the last token relates to the character before index i when the scan
   * has nothing pending: at the start nothing number-like precedes, a ")"
   * token was the character ')', and a '(' character was the "(" token.
   */
  predicate Seam(f: string, i: nat, tokens: seq<string>)
    requires i <= |f|
  {
    && (i == 0 ==> tokens == [] || !EndsValue(Last(tokens)))
    && (i > 0 && tokens != [] && Last(tokens) == ")" ==> f[i - 1] == ')')
    && (i > 0 && f[i - 1] == '(' ==> tokens != [] && Last(tokens) == "(")
  }

  /** The invariant of the scan loop. */
  predicate ScanInv(f: string, i: nat, token: string, tokens: seq<string>) {
    && ScanState(f, i, token)
    && NoOperators(token)
    && AllInVocabulary(tokens)
    && ImplicitProducts(tokens)
    && ParenCounts(tokens, f[..i - |token|])
    && NoForbiddenBefore(f, i - |token|)
    && ("x" in tokens ==> 'x' in f)
    && (tokens != [] ==> LeadsWell(tokens[0]))
    && (token == [] ==> Seam(f, i, tokens))
  }

  /** What a token list produced from f satisfies. */
  predicate Props(f: string, ts: seq<string>) {
    && ts != []
    && AllInVocabulary(ts)
    && ImplicitProducts(ts)
    && ParenCounts(ts, f)
    && NoForbiddenPair(f)
    && ("x" in ts ==> 'x' in f)
    && LeadsWell(ts[0])
    && EndsValue(Last(ts))
  }

  // ---------------------------------------------------------------------------
  // Small facts about lists and strings

  lemma MinusOneIsNumber()
    ensures IsNumber("-1") && !StartsValue("*") && !EndsValue("*") && !EndsValue("(")
  {
    assert "-1"[1..] == "1";
    assert "1"[1..] == [];
    assert NumeralRest([], false, true);
    SingleCharNumber('*');
    SingleCharNumber('(');
    assert "*" == ['*'] && "(" == ['('];
  }

  lemma OperatorTokens(c: char)
    requires IsOperator(c)
    ensures InVocabulary([c]) && !IsNumber([c]) && !IsFunctionName([c])
    ensures EndsValue([c]) <==> c == ')'
    ensures StartsValue([c]) <==> c == '('
  {
    SingleCharNumber(c);
    assert [c] != "sin";
  }

  lemma ConcatProducts(a: seq<string>, b: seq<string>)
    requires ImplicitProducts(a) && ImplicitProducts(b)
    requires a != [] && b != [] ==> !(EndsValue(Last(a)) && StartsValue(b[0]))
    ensures ImplicitProducts(a + b)
  {
    var ab := a + b;
    forall j, k | 0 <= j < |ab| && k == j + 1 && k < |ab|
      ensures !(EndsValue(ab[j]) && StartsValue(ab[k]))
    {
      if j + 1 < |a| {
        assert ab[j] == a[j] && ab[j + 1] == a[j + 1];
      } else if j + 1 == |a| {
        assert ab[j] == Last(a) && ab[j + 1] == b[0];
      } else {
        assert ab[j] == b[j - |a|] && ab[j + 1] == b[j - |a| + 1];
      }
    }
  }

  lemma ConcatVocabulary(a: seq<string>, b: seq<string>)
    requires AllInVocabulary(a) && AllInVocabulary(b)
    ensures AllInVocabulary(a + b)
  {
    var ab := a + b;
    forall j | 0 <= j < |ab|
      ensures InVocabulary(ab[j])
    {
      if j < |a| {
        assert ab[j] == a[j];
      } else {
        assert ab[j] == b[j - |a|];
      }
    }
  }

  /** A string without operator characters holds no parenthesis. */
  lemma NoParens(w: string)
    requires NoOperators(w)
    ensures multiset(w)['('] == 0 && multiset(w)[')'] == 0
  {
    assert '(' !in w && ')' !in w;
  }

  /** A run of digits and dots holds no operator and no 'x'. */
  lemma DigitsNoOperators(w: string)
    requires forall j :: 0 <= j < |w| ==> IsDigitOrDot(w[j])
    ensures NoOperators(w) && 'x' !in w
  {
  }

  /** Moving the start of the scan over characters that are not operators keeps the counts. */
  lemma ExtendCounts(f: string, a: nat, b: nat, ts: seq<string>)
    requires a <= b <= |f| && ParenCounts(ts, f[..a]) && NoOperators(f[a..b])
    ensures ParenCounts(ts, f[..b])
  {
    assert f[..b] == f[..a] + f[a..b];
    NoParens(f[a..b]);
  }

  /** Moving the start of the scan over characters that are not operators adds no refused pair. */
  lemma ExtendPairs(f: string, a: nat, b: nat)
    requires a <= b <= |f| && NoForbiddenBefore(f, a) && NoOperators(f[a..b])
    ensures NoForbiddenBefore(f, b)
  {
    forall k | 0 <= k < b - 1
      ensures !Forbidden(f, k)
    {
      if k >= a - 1 {
        assert f[k + 1] == f[a..b][k + 1 - a];
      }
    }
  }

  /** The tokens WithProduct appends to `tokens`: an operand t, after a "*" when needed. */
  function Glue(tokens: seq<string>, t: string): (app: seq<string>)
    ensures WithProduct(tokens, t) == tokens + app
  {
    if tokens != [] && EndsValue(Last(tokens)) then ["*", t] else [t]
  }

  lemma GlueFacts(tokens: seq<string>, t: string)
    requires InVocabulary(t) && t != "(" && t != ")"
    ensures var app := Glue(tokens, t);
            && app != [] && AllInVocabulary(app) && ImplicitProducts(app)
            && (tokens != [] ==> !(EndsValue(Last(tokens)) && StartsValue(app[0])))
            && Count(app, "(") == 0 && Count(app, ")") == 0
            && ("x" in app ==> t == "x")
            && (tokens == [] ==> app[0] == t)
            && Last(app) == t
  {
    MinusOneIsNumber();
    OperatorTokens('*');
  }

  /**
   * The scan start moves from i - |token| over characters that are not
   * operators to j, and `app` is appended.
   */
  lemma MoveOver(f: string, i: nat, token: string, tokens: seq<string>, j: nat, app: seq<string>)
    requires ScanInv(f, i, token, tokens)
    requires i - |token| < j <= |f| && NoOperators(f[i - |token|..j])
    requires app != [] && AllInVocabulary(app) && ImplicitProducts(app)
    requires tokens != [] ==> !(EndsValue(Last(tokens)) && StartsValue(app[0]))
    requires Count(app, "(") == 0 && Count(app, ")") == 0
    requires "x" in app ==> 'x' in f
    requires tokens == [] ==> LeadsWell(app[0])
    requires Last(app) != ")"
    ensures ScanInv(f, j, "", tokens + app)
  {
    var start := i - |token|;
    var next := tokens + app;
    ExtendCounts(f, start, j, tokens);
    ExtendPairs(f, start, j);
    ConcatProducts(tokens, app);
    ConcatVocabulary(tokens, app);
    assert Last(next) == Last(app);
    assert f[j - 1] == f[start..j][j - 1 - start];
    assert next != [] && next[0] == (if tokens == [] then app[0] else tokens[0]);
  }

  /** The operator f[i] is handled with nothing pending and `app` is appended. */
  lemma OperatorAppend(f: string, i: nat, tokens: seq<string>, app: seq<string>)
    requires ScanInv(f, i, "", tokens) && i < |f| && IsOperator(f[i])
    requires app != [] && AllInVocabulary(app) && ImplicitProducts(app)
    requires tokens != [] ==> !(EndsValue(Last(tokens)) && StartsValue(app[0]))
    requires Count(app, "(") == multiset([f[i]])['('] && Count(app, ")") == multiset([f[i]])[')']
    requires i > 0 ==> !Forbidden(f, i - 1)
    requires "x" !in app
    requires tokens == [] ==> LeadsWell(app[0])
    requires Last(app) == ")" ==> f[i] == ')'
    requires f[i] == '(' ==> Last(app) == "("
    ensures ScanInv(f, i + 1, "", tokens + app)
  {
    var next, j := tokens + app, i + 1;
    assert ScanState(f, j, "") by {
      assert f[j..j] == [];
    }
    assert AllInVocabulary(next) by {
      ConcatVocabulary(tokens, app);
    }
    assert ImplicitProducts(next) by {
      ConcatProducts(tokens, app);
    }
    OperatorCounts(f, i, tokens, app);
    assert "x" in next ==> 'x' in f;
    assert next[0] == (if tokens == [] then app[0] else tokens[0]);
    assert Seam(f, j, next) by {
      assert Last(next) == Last(app);
    }
  }

  /** The parenthesis tokens appended for f[i] are the parentheses of f[i]. */
  lemma OperatorCounts(f: string, i: nat, tokens: seq<string>, app: seq<string>)
    requires i < |f| && ParenCounts(tokens, f[..i]) && NoForbiddenBefore(f, i)
    requires Count(app, "(") == multiset([f[i]])['('] && Count(app, ")") == multiset([f[i]])[')']
    requires i > 0 ==> !Forbidden(f, i - 1)
    ensures ParenCounts(tokens + app, f[..i + 1]) && NoForbiddenBefore(f, i + 1)
  {
    assert f[..i + 1] == f[..i] + [f[i]];
    assert multiset(tokens + app) == multiset(tokens) + multiset(app);
  }

  // ---------------------------------------------------------------------------
  // One step of the scan keeps the invariant

  /** The pending number is appended (lines 474-482). */
  lemma FlushNumber(f: string, i: nat, token: string, tokens: seq<string>)
    requires ScanInv(f, i, token, tokens) && IsNumber(token)
    ensures ScanInv(f, i, "", WithProduct(tokens, token))
  {
    var start := i - |token|;
    assert token != [] by {
      assert !NumeralRest([], false, false);
    }
    assert token == "x" ==> 'x' in f by {
      if token == "x" { assert f[start] == token[0]; }
    }
    assert token != "(" && token != ")";
    GlueFacts(tokens, token);
    MoveOver(f, i, token, tokens, i, Glue(tokens, token));
  }

  /** Lines 515-516: "(" after ")" or a number-like token. */
  lemma OpenAfterValue(f: string, i: nat, tokens: seq<string>)
    requires ScanInv(f, i, "", tokens) && 0 < i < |f| && f[i] == '(' && tokens != []
    requires f[i - 1] == ')' || IsNumber(Last(tokens))
    ensures ScanInv(f, i + 1, "", tokens + ["*", "("])
  {
    MinusOneIsNumber();
    OperatorTokens('(');
    OperatorTokens('*');
    assert "(" == ['('] && "*" == ['*'];
    OperatorAppend(f, i, tokens, ["*", "("]);
  }

  /** Lines 518-522: ")" followed by a number-like character. */
  lemma CloseBeforeValue(f: string, i: nat, tokens: seq<string>)
    requires ScanInv(f, i, "", tokens) && 0 < i && i + 1 < |f| && f[i] == ')' && tokens != []
    requires IsNumber([f[i + 1]])
    ensures ScanInv(f, i + 1, "", tokens + [")", "*"])
  {
    MinusOneIsNumber();
    OperatorTokens(')');
    OperatorTokens('*');
    assert ")" == [')'] && "*" == ['*'];
    OperatorAppend(f, i, tokens, [")", "*"]);
  }

  /** Lines 525-528: "-" after "(" becomes "-1", "*". */
  lemma MinusAfterOpen(f: string, i: nat, tokens: seq<string>)
    requires ScanInv(f, i, "", tokens) && 0 < i < |f| && f[i] == '-' && f[i - 1] == '('
    ensures ScanInv(f, i + 1, "", tokens + ["-1", "*"])
  {
    MinusOneIsNumber();
    OperatorTokens('-');
    OperatorTokens('*');
    assert "*" == ['*'];
    OperatorAppend(f, i, tokens, ["-1", "*"]);
  }

  /** Lines 540-541: the operator itself. */
  lemma PlainOperator(f: string, i: nat, tokens: seq<string>)
    requires ScanInv(f, i, "", tokens) && i < |f| && IsOperator(f[i]) && LeadOk(f)
    requires i > 0 ==> tokens != [] && !Forbidden(f, i - 1)
    requires f[i] == '(' && i > 0 ==> f[i - 1] != ')' && !IsNumber(Last(tokens))
    ensures ScanInv(f, i + 1, "", tokens + [[f[i]]])
  {
    OperatorTokens(f[i]);
    OperatorAppend(f, i, tokens, [[f[i]]]);
  }

  /** An operator or parenthesis with nothing pending (lines 508-543). */
  lemma OperatorInv(f: string, i: nat, tokens: seq<string>, next: seq<string>)
    requires ScanInv(f, i, "", tokens) && i < |f| && IsOperator(f[i]) && LeadOk(f)
    requires OperatorStep(f, i, tokens) == Ok(next)
    ensures ScanInv(f, i + 1, "", next)
  {
    var c := f[i];
    if i > 0 {
      var prev := f[i - 1];
      var last := Last(tokens);
      if c == '(' && (prev == ')' || IsNumber(last)) {
        OpenAfterValue(f, i, tokens);
      } else if c == ')' && i + 1 < |f| && IsNumber([f[i + 1]]) {
        CloseBeforeValue(f, i, tokens);
      } else if c == '-' && prev == '(' {
        MinusAfterOpen(f, i, tokens);
      } else {
        assert !Forbidden(f, i - 1);
        PlainOperator(f, i, tokens);
      }
    } else {
      PlainOperator(f, i, tokens);
    }
  }

  /** The digit-and-dot prefix of a run followed by an operator lies inside the run. */
  lemma PrefixInsideRun(token: string, c: char)
    requires IsOperator(c)
    ensures NumericPrefix(token + [c]) <= |token|
  {
    assert (token + [c])[|token|] == c;
  }

  /** A number is never empty. */
  lemma NumberNotEmpty(w: string)
    requires IsNumber(w)
    ensures w != []
  {
    assert !IsNumber([]) by {
      assert !NumeralRest([], false, false);
    }
  }

  /** The numeric part of a run that ends in an operator is a non-empty prefix of the run. */
  lemma NumericBounds(token: string, c: char)
    requires IsOperator(c) && IsNumber((token + [c])[..NumericPrefix(token + [c])])
    ensures var t := token + [c];
            var k := NumericPrefix(t);
            0 < k <= |token| && t[..k] == token[..k]
  {
    var t := token + [c];
    var k := NumericPrefix(t);
    PrefixInsideRun(token, c);
    NumberNotEmpty(t[..k]);
    SliceOfAppend(token, [c], k);
  }

  /** The numeric prefix consists of digits and dots. */
  lemma PrefixDigits(t: string)
    ensures forall j :: 0 <= j < NumericPrefix(t) ==> IsDigitOrDot(t[..NumericPrefix(t)][j])
  {
  }

  /** The first k characters of a run are the k characters of f where the run starts. */
  lemma RunSlice(f: string, start: nat, i: nat, k: nat)
    requires start + k <= i < |f|
    ensures (f[start..i] + [f[i]])[..k] == f[start..start + k]
  {
  }

  lemma Associative<T>(a: seq<T>, b: seq<T>, c: seq<T>)
    ensures (a + b) + c == a + (b + c)
  {
  }

  lemma SliceOfAppend(a: string, b: string, k: nat)
    requires k <= |a|
    ensures (a + b)[..k] == a[..k]
  {
  }

  /** A number made of digits and dots is a vocabulary token with no operator, parenthesis or 'x'. */
  lemma DigitRun(w: string)
    requires IsNumber(w) && forall j :: 0 <= j < |w| ==> IsDigitOrDot(w[j])
    ensures InVocabulary(w) && NoOperators(w) && w != "x" && w != "(" && w != ")"
  {
    DigitsNoOperators(w);
    assert w != [] by {
      assert !NumeralRest([], false, false);
    }
    assert IsDigitOrDot(w[0]);
  }

  /** The numeral f[start..j] is split off a run and appended with the "*" after it. */
  lemma SplitAppend(f: string, i: nat, token: string, tokens: seq<string>, j: nat, numeric: string)
    requires ScanInv(f, i, token, tokens) && i - |token| < j <= i
    requires numeric == f[i - |token|..j]
    requires InVocabulary(numeric) && NoOperators(numeric) && IsNumber(numeric)
    requires numeric != "x" && numeric != "(" && numeric != ")"
    ensures ScanInv(f, j, "", AppendSplit(tokens, numeric))
  {
    GlueFacts(tokens, numeric);
    OperatorTokens('*');
    var g := Glue(tokens, numeric);
    var app := g + ["*"];
    ConcatProducts(g, ["*"]);
    ConcatVocabulary(g, ["*"]);
    Associative(tokens, g, ["*"]);
    MoveOver(f, i, token, tokens, j, app);
  }

  /** The numeric part of a run that meets an operator, as SplitAppend needs it. */
  lemma SplitNumeric(f: string, i: nat, token: string)
    requires ScanState(f, i, token) && i < |f| && IsOperator(f[i]) && token != []
    requires var t := token + [f[i]]; IsNumber(t[..NumericPrefix(t)])
    ensures var t := token + [f[i]];
            var k := NumericPrefix(t);
            var numeric := t[..k];
            && 0 < k <= |token| && numeric == f[i - |token|..i - |token| + k]
            && InVocabulary(numeric) && NoOperators(numeric) && IsNumber(numeric)
            && numeric != "x" && numeric != "(" && numeric != ")"
  {
    var t := token + [f[i]];
    var k := NumericPrefix(t);
    NumericBounds(token, f[i]);
    PrefixDigits(t);
    DigitRun(t[..k]);
    RunSlice(f, i - |token|, i, k);
  }

  /** The value of SplitRun when the numeric part is a number. */
  lemma SplitRunValue(f: string, i: nat, token: string, tokens: seq<string>)
    requires ScanState(f, i, token) && i < |f| && IsOperator(f[i]) && token != []
    ensures var t := token + [f[i]];
            var k := NumericPrefix(t);
            var m := SplitRun(f, i, token, tokens);
            m.Next? ==> IsNumber(t[..k]) && m == Next(i - |token| + k, "", AppendSplit(tokens, t[..k]))
  {
  }

  /** A digit-letter run meets an operator: the number is split off (lines 484-506). */
  lemma SplitInv(f: string, i: nat, token: string, tokens: seq<string>)
    requires ScanInv(f, i, token, tokens) && i < |f| && IsOperator(f[i]) && token != []
    ensures var m := SplitRun(f, i, token, tokens);
            m.Next? ==> ScanInv(f, m.i, m.token, m.tokens)
  {
    var m := SplitRun(f, i, token, tokens);
    SplitRunValue(f, i, token, tokens);
    if m.Next? {
      var t := token + [f[i]];
      SplitNumeric(f, i, token);
      SplitAppend(f, i, token, tokens, m.i, t[..NumericPrefix(t)]);
    }
  }

  /** A valid token is complete (lines 549-563). */
  lemma ValidInv(f: string, i: nat, token: string, tokens: seq<string>)
    requires ScanInv(f, i, token, tokens) && i < |f| && !IsOperator(f[i]) && IsValidToken(token + [f[i]])
    ensures ScanInv(f, i + 1, "", WithProduct(tokens, token + [f[i]]))
  {
    var t := token + [f[i]];
    var start := i - |token|;
    assert t == f[start..i + 1];
    assert t == "x" ==> 'x' in f by {
      if t == "x" { assert f[start] == t[0]; }
    }
    assert t != "(" && t != ")";
    GlueFacts(tokens, t);
    MoveOver(f, i, token, tokens, i + 1, Glue(tokens, t));
  }

  /** A character that is not an operator joins the run (lines 552-553 and 564). */
  lemma AccumulateInv(f: string, i: nat, token: string, tokens: seq<string>)
    requires ScanInv(f, i, token, tokens) && i < |f| && !IsOperator(f[i])
    ensures ScanInv(f, i + 1, token + [f[i]], tokens)
  {
    assert token + [f[i]] == f[i - |token|..i + 1];
  }

  /** The operator joins the list with nothing pending. */
  lemma AfterOperatorInv(f: string, i: nat, tokens: seq<string>)
    requires ScanInv(f, i, "", tokens) && i < |f| && IsOperator(f[i]) && LeadOk(f)
    ensures var m := AfterOperator(f, i, tokens);
            m.Next? ==> ScanInv(f, m.i, m.token, m.tokens)
  {
    match OperatorStep(f, i, tokens)
    case Err(e) =>
    case Ok(next) => OperatorInv(f, i, tokens, next);
  }

  /** A step at an operator character keeps the invariant. */
  lemma OperatorStepInv(f: string, i: nat, token: string, tokens: seq<string>)
    requires ScanInv(f, i, token, tokens) && i < |f| && LeadOk(f) && IsOperator(f[i])
    ensures var m := OperatorMove(f, i, token, tokens);
            m.Next? ==> ScanInv(f, m.i, m.token, m.tokens)
  {
    if IsNumber(token) {
      FlushNumber(f, i, token, tokens);
      AfterOperatorInv(f, i, WithProduct(tokens, token));
      assert OperatorMove(f, i, token, tokens) == AfterOperator(f, i, WithProduct(tokens, token));
    } else if token != [] {
      SplitInv(f, i, token, tokens);
      assert OperatorMove(f, i, token, tokens) == SplitRun(f, i, token, tokens);
    } else {
      AfterOperatorInv(f, i, tokens);
      assert OperatorMove(f, i, token, tokens) == AfterOperator(f, i, tokens);
    }
  }

  /** A step at any other character keeps the invariant. */
  lemma LetterStepInv(f: string, i: nat, token: string, tokens: seq<string>)
    requires ScanInv(f, i, token, tokens) && i < |f| && !IsOperator(f[i])
    ensures var m := LetterMove(f, i, token, tokens);
            m.Next? ==> ScanInv(f, m.i, m.token, m.tokens)
  {
    LetterShape(f, i, token, tokens);
    LetterNextInv(f, i, token, tokens, LetterMove(f, i, token, tokens));
  }

  /** Either shape of a letter's move keeps the invariant. */
  lemma LetterNextInv(f: string, i: nat, token: string, tokens: seq<string>, m: Move)
    requires ScanInv(f, i, token, tokens) && i < |f| && !IsOperator(f[i])
    requires var t := token + [f[i]];
      || (m == Next(i + 1, "", WithProduct(tokens, t)) && IsValidToken(t))
      || m == Next(i + 1, t, tokens)
    ensures m.Next? && ScanInv(f, m.i, m.token, m.tokens)
  {
    if m.token == "" && IsValidToken(token + [f[i]]) {
      ValidInv(f, i, token, tokens);
    } else {
      AccumulateInv(f, i, token, tokens);
    }
  }

  /** A letter either completes the run into a valid token or extends it (lines 547-563). */
  lemma LetterShape(f: string, i: nat, token: string, tokens: seq<string>)
    requires ScanState(f, i, token) && i < |f| && !IsOperator(f[i])
    ensures var m, t := LetterMove(f, i, token, tokens), token + [f[i]];
      || (m == Next(i + 1, "", WithProduct(tokens, t)) && IsValidToken(t))
      || m == Next(i + 1, t, tokens)
  {
  }

  /** Every step of the scan keeps the invariant. */
  lemma StepInv(f: string, i: nat, token: string, tokens: seq<string>)
    requires ScanInv(f, i, token, tokens) && i < |f| && LeadOk(f)
    ensures var m := Step(f, i, token, tokens);
            m.Next? ==> ScanInv(f, m.i, m.token, m.tokens)
  {
    if IsOperator(f[i]) {
      OperatorStepInv(f, i, token, tokens);
    } else {
      LetterStepInv(f, i, token, tokens);
    }
  }

  // ---------------------------------------------------------------------------
  // The whole scan

  /** The scan ends with nothing pending and a list that ends in an operand. */
  lemma FinalProps(f: string, tokens: seq<string>)
    requires ScanInv(f, |f|, "", tokens) && tokens != [] && EndsValue(Last(tokens))
    ensures Props(f, tokens)
  {
    assert f[..|f|] == f;
  }

  /** The scan starts with the tokens checkPreconditions added. */
  lemma InitialInv(f: string, prefix: seq<string>)
    requires prefix == [] || prefix == ["-1", "*"]
    ensures ScanInv(f, 0, "", prefix)
  {
    MinusOneIsNumber();
    OperatorTokens('*');
    assert "*" == ['*'];
    assert f[..0] == "";
  }

  /** The tokens of the rest of a trailing run are appended after the "*" of its numeric part. */
  lemma TailAppend(f: string, j: nat, tokens: seq<string>, rest: seq<string>)
    requires ScanInv(f, j, "", tokens) && tokens != [] && Last(tokens) == "*"
    requires NoOperators(f[j..])
    requires rest != [] && AllInVocabulary(rest) && ImplicitProducts(rest)
    requires Count(rest, "(") == 0 && Count(rest, ")") == 0
    requires "x" in rest ==> 'x' in f
    requires LeadsWell(tokens[0]) && EndsValue(Last(rest))
    ensures Props(f, tokens + rest)
  {
    MinusOneIsNumber();
    var ts := tokens + rest;
    assert f[j..|f|] == f[j..];
    ExtendCounts(f, j, |f|, tokens);
    ExtendPairs(f, j, |f|);
    ConcatProducts(tokens, rest);
    ConcatVocabulary(tokens, rest);
    assert multiset(ts) == multiset(tokens) + multiset(rest);
    assert f[..|f|] == f;
    assert Last(ts) == Last(rest) && ts[0] == tokens[0];
  }

  /** A suffix of a run without operators has none either. */
  lemma SuffixNoOperators(token: string, k: nat)
    requires NoOperators(token) && k <= |token|
    ensures NoOperators(token[k..])
  {
    assert forall j :: 0 <= j < |token| - k ==> token[k..][j] == token[k + j];
  }

  lemma PrefixOfSlice(f: string, a: nat, k: nat)
    requires a + k <= |f|
    ensures f[a..][..k] == f[a..a + k]
  {
  }

  lemma SuffixOfSlice(f: string, a: nat, k: nat)
    requires a + k <= |f|
    ensures f[a..][k..] == f[a + k..]
  {
  }

  /** The first k characters of a pending run are a slice of f. */
  lemma RunPrefix(f: string, i: nat, token: string, k: nat)
    requires ScanState(f, i, token) && k <= |token|
    ensures token[..k] == f[i - |token|..i - |token| + k]
  {
  }

  /** The part of a trailing run after its first k characters is the end of f. */
  lemma TrailingSuffix(f: string, i: nat, token: string, k: nat, j: nat)
    requires ScanState(f, i, token) && i == |f| && NoOperators(token) && k <= |token| && j == i - |token| + k
    ensures NoOperators(f[j..]) && NoOperators(token[k..])
    ensures 'x' in token[k..] ==> 'x' in f
  {
    var start := i - |token|;
    assert token == f[start..];
    SuffixOfSlice(f, start, k);
    SuffixNoOperators(token, k);
    if 'x' in token[k..] {
      InSuffix(f, start + k, 'x');
    }
  }

  /** A character of a suffix of f is a character of f. */
  lemma InSuffix(f: string, j: nat, c: char)
    requires j <= |f| && c in f[j..]
    ensures c in f
  {
    var n :| 0 <= n < |f[j..]| && f[j..][n] == c;
    assert f[j + n] == c;
  }

  /** The first k characters of a run pending at index i are a number without operators, parentheses or 'x'. */
  predicate NumericHead(f: string, i: nat, token: string, k: nat) {
    && 0 < k < |token| <= i <= |f|
    && token[..k] == f[i - |token|..i - |token| + k]
    && IsNumber(token[..k]) && InVocabulary(token[..k]) && NoOperators(token[..k])
    && token[..k] != "x" && token[..k] != "(" && token[..k] != ")"
  }

  /** The numeric part of a trailing run, as SplitAppend needs it. */
  lemma TrailingNumeric(f: string, i: nat, token: string, k: nat)
    requires ScanState(f, i, token) && k == NumericPrefix(token) && k < |token|
    requires IsNumber(token[..k])
    ensures NumericHead(f, i, token, k)
  {
    var numeric := token[..k];
    NumberNotEmpty(numeric);
    RunPrefix(f, i, token, k);
    PrefixDigits(token);
    DigitRun(numeric);
  }

  /** The numeric part of a trailing run is split off with its "*" (lines 576-586). */
  lemma TrailingSplit(f: string, i: nat, token: string, tokens: seq<string>, k: nat, split: seq<string>, j: nat)
    requires ScanInv(f, i, token, tokens) && NumericHead(f, i, token, k)
    requires split == AppendSplit(tokens, token[..k]) && j == i - |token| + k
    ensures ScanInv(f, j, "", split)
    ensures split != [] && Last(split) == "*" && LeadsWell(split[0])
  {
    SplitAppend(f, i, token, tokens, j, token[..k]);
    assert split[0] == (if tokens == [] then token[..k] else tokens[0]);
  }

  /** What the tokens of a run without operators hold. */
  lemma RestFacts(run: string, rest: seq<string>)
    requires NoOperators(run) && Props(RemoveSpaces(run), rest)
    ensures Count(rest, "(") == 0 && Count(rest, ")") == 0
    ensures "x" in rest ==> 'x' in run
  {
    var w := RemoveSpaces(run);
    NoParens(run);
    assert multiset(w)['x'] == multiset(run)['x'];
  }

  /** The tokens of the rest of a trailing run follow the split-off number (lines 587-589). */
  lemma TrailingProps(f: string, j: nat, split: seq<string>, run: string, rest: seq<string>)
    requires ScanInv(f, j, "", split) && split != [] && Last(split) == "*" && LeadsWell(split[0])
    requires NoOperators(f[j..]) && NoOperators(run) && ('x' in run ==> 'x' in f)
    requires Props(RemoveSpaces(run), rest)
    ensures Props(f, split + rest)
  {
    RestFacts(run, rest);
    TailAppend(f, j, split, rest);
  }

  /** A run left at the end of the scan is split and the rest tokenized (lines 573-591). */
  lemma TrailingCase(f: string, i: nat, token: string, tokens: seq<string>, k: nat, split: seq<string>, rest: seq<string>)
    requires ScanInv(f, i, token, tokens) && i == |f| && NumericHead(f, i, token, k)
    requires split == AppendSplit(tokens, token[..k])
    requires Props(RemoveSpaces(token[k..]), rest)
    ensures Props(f, split + rest)
  {
    var j := i - |token| + k;
    TrailingSplit(f, i, token, tokens, k, split, j);
    TrailingSuffix(f, i, token, k, j);
    TrailingProps(f, j, split, token[k..], rest);
  }

  /** Dropping a leading sign before a non-operator leaves the properties of the whole string intact. */
  lemma DropSign(f0: string, ts: seq<string>)
    requires |f0| > 1 && (f0[0] == '-' || f0[0] == '+') && !IsOperator(f0[1])
    requires Props(f0[1..], ts)
    ensures Props(f0, ts)
  {
    var f := f0[1..];
    assert f0 == [f0[0]] + f;
    assert multiset(f0) == multiset([f0[0]]) + multiset(f);
    forall k | 0 <= k < |f0| - 1
      ensures !Forbidden(f0, k)
    {
      if k > 0 {
        assert f0[k] == f[k - 1] && f0[k + 1] == f[k];
        if k + 2 < |f0| {
          assert f0[k + 2] == f[k + 1];
        }
        assert !Forbidden(f, k - 1);
      }
    }
  }

  /** A successful scan from a state satisfying the invariant yields a list with the properties. */
  lemma {:induction false} ScanProps(f: string, i: nat, token: string, tokens: seq<string>, ts: seq<string>)
    requires ScanInv(f, i, token, tokens) && LeadOk(f)
    requires Scan(f, i, token, tokens) == Ok(ts)
    ensures Props(f, ts)
    decreases |f|, 0, |f| - (i - |token|), |f| - i
  {
    if i < |f| {
      StepInv(f, i, token, tokens);
      ScanUnfold(f, i, token, tokens);
      var m := Step(f, i, token, tokens);
      ScanProps(f, m.i, m.token, m.tokens, ts);
    } else if IsNumber(token) {
      FlushNumber(f, i, token, tokens);
      FinalProps(f, WithProduct(tokens, token));
    } else if token != [] {
      var k := NumericPrefix(token);
      var split := AppendSplit(tokens, token[..k]);
      var rest := Tokenize(token[k..]).value;
      TrailingNumeric(f, i, token, k);
      TokenizeProps(token[k..], rest);
      TrailingCase(f, i, token, tokens, k, split, rest);
    } else {
      FinalProps(f, tokens);
    }
  }

  /**
   * A successful tokenize of s yields a non-empty list of vocabulary tokens
   * with an implicit "*" between juxtaposed operands, one parenthesis token per
   * parenthesis of s, no refused operator pair in s, "x" only if s has an
   * 'x', and a list that opens with an operand, "(" or "-" and ends with ")" or
   * a number-like token.
   */
  lemma {:induction false} TokenizeProps(s: string, ts: seq<string>)
    requires Tokenize(s) == Ok(ts)
    ensures Props(RemoveSpaces(s), ts)
    decreases |s|, 1, 0, 0
  {
    var f0 := RemoveSpaces(s);
    TokenizeUnfold(s);
    var (f, prefix) := Preconditions(f0).value;
    InitialInv(f, prefix);
    ScanProps(f, 0, "", prefix, ts);
    if f != f0 {
      DropSign(f0, ts);
    }
  }

  // ---------------------------------------------------------------------------
  // The tokens checkPreconditions adds stay at the front

  lemma PrefixTrans(a: seq<string>, b: seq<string>, c: seq<string>)
    requires a <= b && b <= c
    ensures a <= c
  {
    assert forall n :: 0 <= n < |a| ==> a[n] == b[n] == c[n];
  }

  /** A step only appends to the list. */
  lemma StepExtends(f: string, i: nat, token: string, tokens: seq<string>)
    requires ScanState(f, i, token) && i < |f|
    ensures var m := Step(f, i, token, tokens);
            m.Next? ==> tokens <= m.tokens
  {
    var m := Step(f, i, token, tokens);
    if m.Next? && IsOperator(f[i]) {
      if IsNumber(token) {
        var w := WithProduct(tokens, token);
        assert m == AfterOperator(f, i, w);
        PrefixTrans(tokens, w, m.tokens);
      } else if token != [] {
        var t := token + [f[i]];
        var w := WithProduct(tokens, t[..NumericPrefix(t)]);
        assert m.tokens == AppendSplit(tokens, t[..NumericPrefix(t)]);
        PrefixTrans(tokens, w, m.tokens);
      }
    }
  }

  /** A successful scan keeps the list it started from at the front of its result. */
  lemma {:induction false} ScanExtends(f: string, i: nat, token: string, tokens: seq<string>, ts: seq<string>)
    requires ScanState(f, i, token) && Scan(f, i, token, tokens) == Ok(ts)
    ensures tokens <= ts
    decreases |f| - (i - |token|), |f| - i
  {
    if i < |f| {
      StepExtends(f, i, token, tokens);
      ScanUnfold(f, i, token, tokens);
      var m := Step(f, i, token, tokens);
      ScanExtends(f, m.i, m.token, m.tokens, ts);
      PrefixTrans(tokens, m.tokens, ts);
    } else if IsNumber(token) {
      assert ts == WithProduct(tokens, token);
    } else if token != [] {
      var k := NumericPrefix(token);
      var split := AppendSplit(tokens, token[..k]);
      var w := WithProduct(tokens, token[..k]);
      var rest := Tokenize(token[k..]).value;
      assert ts == split + rest;
      PrefixTrans(tokens, w, split);
      PrefixTrans(tokens, split, ts);
    }
  }

  /**
   * Lines 625-629: a leading '-' before a number-like character or a known name
   * is dropped and the list starts with "-1", "*".
   */
  lemma LeadingMinusProduct(s: string, ts: seq<string>)
    requires LeadingMinus(RemoveSpaces(s)) && Tokenize(s) == Ok(ts)
    ensures |ts| >= 2 && ts[0] == "-1" && ts[1] == "*"
    ensures Tokenize(s) == Scan(RemoveSpaces(s)[1..], 0, "", ["-1", "*"])
  {
    var f0 := RemoveSpaces(s);
    TokenizeUnfold(s);
    assert Preconditions(f0) == Ok((f0[1..], ["-1", "*"]));
    ScanExtends(f0[1..], 0, "", ["-1", "*"], ts);
  }
}
