/**
 * The tokenizer of Function.java: `checkPreconditions` and `tokenize`.
 *
 * `Tokenize` and `Scan` are the functional specification of the scan: one call
 * of `Scan` per iteration of the `for` loop over the characters, with the
 * accumulator `token`, the list `tokens` built so far and the index `i`, which
 * the split of a digit-letter run moves back. `TokenizeString` is the method
 * that runs the same loop imperatively and is proved equal to the function.
 */
module Tokenizer {
  import opened Results
  import opened Numbers
  import opened Tokens

  /** The IllegalArgumentException (and the one IndexOutOfBoundsException) a malformed input raises. */
  datatype ParseError =
    | EmptyInput
    | UnbalancedParens
    | UnknownToken(text: string)
    | InvalidLeadingToken
    | InvalidEndingToken
    | IllegalCharacterAfterFunction
    | ConsecutiveOperators
    | IndexOutOfRange

  /** function.replace(" ", "") */
  function RemoveSpaces(s: string): (r: string)
    ensures |r| <= |s|
    ensures forall j :: 0 <= j < |r| ==> r[j] != ' '
    ensures forall c :: c != ' ' ==> multiset(r)[c] == multiset(s)[c]
  {
    if s == [] then []
    else
      assert s == [s[0]] + s[1..];
      if s[0] == ' ' then RemoveSpaces(s[1..]) else [s[0]] + RemoveSpaces(s[1..])
  }

  /** A string without spaces. */
  predicate Spaceless(w: string) {
    forall j :: 0 <= j < |w| ==> w[j] != ' '
  }

  /** Removing spaces works piece by piece, so it keeps the order of what it keeps. */
  lemma {:induction false} RemoveSpacesAppend(a: string, b: string)
    ensures RemoveSpaces(a + b) == RemoveSpaces(a) + RemoveSpaces(b)
  {
    if a == [] {
      assert a + b == b;
    } else {
      var c, t := a[0], a[1..];
      var kept := if c == ' ' then "" else [c];
      RemoveSpacesAppend(t, b);
      assert (a + b)[0] == c && (a + b)[1..] == t + b;
      assert RemoveSpaces(a + b) == kept + (RemoveSpaces(t) + RemoveSpaces(b));
      assert RemoveSpaces(a) == kept + RemoveSpaces(t);
      assert kept + (RemoveSpaces(t) + RemoveSpaces(b)) == (kept + RemoveSpaces(t)) + RemoveSpaces(b);
    }
  }

  /** A single character is removed exactly when it is a space. */
  lemma RemoveSpacesChar(c: char)
    ensures RemoveSpaces([c]) == if c == ' ' then "" else [c]
  {
    assert [c][1..] == [];
  }

  /** A string without spaces is left as it is. */
  lemma {:induction false} NoSpaces(s: string)
    requires Spaceless(s)
    ensures RemoveSpaces(s) == s
  {
    if s != [] {
      NoSpaces(s[1..]);
      assert s == [s[0]] + s[1..];
    }
  }

  /** The input has a leading '-' that checkPreconditions turns into the tokens "-1", "*". */
  predicate LeadingMinus(f: string) {
    |f| > 1 && f[0] == '-' && (IsNumber([f[1]]) || ContainsValidToken(f, 1))
  }

  /** The input has a leading '+' before 'x' or a digit, which checkPreconditions drops. */
  predicate LeadingPlus(f: string) {
    |f| > 1 && f[0] == '+' && (f[1] == 'x' || IsDigit(f[1]))
  }

  /** A leading character checkPreconditions refuses. */
  predicate BadLeading(f: string) {
    |f| > 1 && f[0] != '-' && !LeadingPlus(f) && f[0] != '(' && IsOperator(f[0])
  }

  /** After checkPreconditions the only operators that can open the string are '(' and '-'. */
  predicate LeadOk(f: string) {
    |f| > 0 && IsOperator(f[0]) ==> f[0] == '(' || f[0] == '-'
  }

  /**
   * checkPreconditions: the string left to scan and the tokens it already added.
   */
  function Preconditions(f: string): (r: Result<(string, seq<string>), ParseError>)
    ensures r == Err(UnbalancedParens) <==> multiset(f)[')'] != multiset(f)['(']
    ensures r.Ok? ==> LeadOk(r.value.0)
    ensures r.Ok? ==> r.value == (f, []) || (|f| > 1 && (r.value == (f[1..], []) || r.value == (f[1..], ["-1", "*"])))
    ensures r.Ok? && r.value.0 != f ==> |f| > 1 && (f[0] == '-' || f[0] == '+') && !IsOperator(f[1])
  {
    if multiset(f)[')'] != multiset(f)['('] then Err(UnbalancedParens)
    else if |f| == 1 && !IsNumber([f[0]]) then
      assert [f[0]] == f;
      Err(UnknownToken(f))
    else if |f| > 1 then LeadingSign(f)
    else
      assert |f| == 1 ==> !IsOperator(f[0]) by {
        if |f| == 1 { SingleCharNumber(f[0]); }
      }
      Ok((f, []))
  }

  /** Lines 620-641: the treatment of the first two characters of a string of length two or more. */
  function LeadingSign(f: string): (r: Result<(string, seq<string>), ParseError>)
    requires |f| > 1
    ensures r.Err? ==> r == Err(InvalidLeadingToken)
    ensures r.Ok? ==> LeadOk(r.value.0)
    ensures r.Ok? ==> r.value == (f, []) || r.value == (f[1..], []) || r.value == (f[1..], ["-1", "*"])
    ensures r.Ok? && r.value.0 != f ==> (f[0] == '-' || f[0] == '+') && !IsOperator(f[1])
  {
    var first := f[0];
    var second := f[1];
    if first == '-' then
      if IsNumber([second]) || ContainsValidToken(f, 1) then
        assert !IsOperator(second) by {
          SingleCharNumber(second);
          if ContainsValidToken(f, 1) { ValidTokenInitial(f, 1); }
        }
        Ok((f[1..], ["-1", "*"]))
      else Ok((f, []))
    else if first == '+' && (second == 'x' || IsDigit(second)) then Ok((f[1..], []))
    else if first != '(' && IsOperator(first) then Err(InvalidLeadingToken)
    else Ok((f, []))
  }

  /** Which of its three results a successful checkPreconditions gives, by the leading sign. */
  lemma SignCases(f: string)
    requires Preconditions(f).Ok?
    ensures LeadingMinus(f) ==> Preconditions(f).value == (f[1..], ["-1", "*"])
    ensures LeadingPlus(f) ==> Preconditions(f).value == (f[1..], [])
    ensures !LeadingMinus(f) && !LeadingPlus(f) ==> Preconditions(f).value == (f, [])
  {
    if |f| > 1 {
      assert Preconditions(f) == LeadingSign(f);
    }
  }

  /** The last token, when there is one. */
  function Last(ts: seq<string>): string
    requires ts != []
  {
    ts[|ts| - 1]
  }

  /**
   * Appends an operand, with an implicit "*" first when the last token is ")" or
   * number-like (Function.java lines 476-478, 556-558, 568-570).
   */
  function WithProduct(tokens: seq<string>, t: string): (r: seq<string>)
    ensures |r| == |tokens| + 1 || |r| == |tokens| + 2
    ensures tokens <= r && r[|r| - 1] == t
    ensures |r| == |tokens| + 2 <==> tokens != [] && EndsValue(Last(tokens))
    ensures |r| == |tokens| + 2 ==> r[|tokens|] == "*"
  {
    if tokens != [] && EndsValue(Last(tokens)) then tokens + ["*", t] else tokens + [t]
  }

  /**
   * The number and the "*" that the split of a digit-letter run appends
   * (lines 496-498 and 584-586), with the implicit "*" the source omits here
   * put in front of the number; see SplitAsWritten.
   */
  function AppendSplit(tokens: seq<string>, numeric: string): (r: seq<string>)
    ensures WithProduct(tokens, numeric) <= r && |r| == |WithProduct(tokens, numeric)| + 1
    ensures r[|r| - 1] == "*"
  {
    WithProduct(tokens, numeric) + ["*"]
  }

  /** Lines 496-498 and 584-586 as written: the number is appended without looking at the token before it. */
  function SplitAsWritten(tokens: seq<string>, numeric: string): (r: seq<string>)
    ensures |r| == |tokens| + 2 && tokens <= r
    ensures r[|tokens|] == numeric && r[|tokens| + 1] == "*"
  {
    tokens + [numeric, "*"]
  }

  /** Index of the first character of t that is neither a digit nor a dot, or |t|. */
  function NumericPrefix(t: string): (k: nat)
    ensures k <= |t|
    ensures forall j :: 0 <= j < k ==> IsDigitOrDot(t[j])
    ensures k < |t| ==> !IsDigitOrDot(t[k])
  {
    if t == [] || !IsDigitOrDot(t[0]) then 0 else 1 + NumericPrefix(t[1..])
  }

  /** Line 595: the list must end in ")" or a number-like token. */
  function Ending(ts: seq<string>): (r: Result<seq<string>, ParseError>)
    ensures r.Ok? <==> ts != [] && EndsValue(Last(ts))
    ensures r.Ok? ==> r.value == ts
    ensures ts != [] && !EndsValue(Last(ts)) ==> r == Err(InvalidEndingToken)
  {
    if ts == [] then Err(IndexOutOfRange)
    else if EndsValue(Last(ts)) then Ok(ts)
    else Err(InvalidEndingToken)
  }

  /**
   * Lines 509-543: what an operator or parenthesis at index i appends to `tokens`,
   * or the error it raises, once any pending number has been appended.
   */
  function OperatorStep(f: string, i: nat, tokens: seq<string>): (r: Result<seq<string>, ParseError>)
    requires i < |f| && IsOperator(f[i])
    ensures r.Ok? ==> tokens <= r.value
  {
    var c := f[i];
    if i > 0 then
      if tokens == [] then Err(IndexOutOfRange)
      else
        var prev := f[i - 1];
        var last := Last(tokens);
        if c == '(' && (prev == ')' || IsNumber(last)) then Ok(tokens + ["*", "("])
        else if c == ')' && i + 1 < |f| && IsNumber([f[i + 1]]) then Ok(tokens + [")", "*"])
        else if c == '-' && prev == '(' then Ok(tokens + ["-1", "*"])
        else if c != '(' && !IsNumber(last) && IsValidToken(last) then Err(IllegalCharacterAfterFunction)
        else if IsOperator(prev) && !(prev == ')' || c == '(') then Err(ConsecutiveOperators)
        else Ok(tokens + [[c]])
    else Ok(tokens + [[c]])
  }

  /** The shape of a scan state: `token` holds the characters f[i - |token| .. i]. */
  predicate ScanState(f: string, i: nat, token: string) {
    |token| <= i <= |f| && token == f[i - |token|..i]
  }

  /** The scan position moves on: the start of `token` moves right, or it stays and i moves right. */
  predicate Progress(i: nat, token: string, i': nat, token': string) {
    i' - |token'| > i - |token| || (i' - |token'| == i - |token| && i' > i)
  }

  /** The outcome of one iteration of the scan loop. */
  datatype Move = Next(i: nat, token: string, tokens: seq<string>) | Fail(error: ParseError)

  /**
   * One iteration of the loop at lines 466-564, for the character f[i].
   */
  function Step(f: string, i: nat, token: string, tokens: seq<string>): (m: Move)
    requires ScanState(f, i, token) && i < |f|
    ensures m.Next? ==> ScanState(f, m.i, m.token) && Progress(i, token, m.i, m.token)
  {
    if IsOperator(f[i]) then OperatorMove(f, i, token, tokens) else LetterMove(f, i, token, tokens)
  }

  /** Lines 470-545: the character f[i] is an operator or a parenthesis. */
  function OperatorMove(f: string, i: nat, token: string, tokens: seq<string>): (m: Move)
    requires ScanState(f, i, token) && i < |f| && IsOperator(f[i])
    ensures m.Next? ==> ScanState(f, m.i, m.token) && Progress(i, token, m.i, m.token)
  {
    if IsNumber(token) then
      // lines 474-482: a pending number
      AfterOperator(f, i, WithProduct(tokens, token))
    else if token != [] then SplitRun(f, i, token, tokens)
    else AfterOperator(f, i, tokens)
  }

  /** Lines 508-543: the operator joins the list, once any pending number is in it. */
  function AfterOperator(f: string, i: nat, tokens: seq<string>): (m: Move)
    requires i < |f| && IsOperator(f[i])
    ensures m.Next? ==> m.i == i + 1 && m.token == ""
  {
    match OperatorStep(f, i, tokens)
    case Err(e) => Fail(e)
    case Ok(next) => Next(i + 1, "", next)
  }

  /**
   * Lines 484-506: a run that is not a number meets an operator; its numeric
   * part is split off and the scan resumes at its first non-numeric character.
   */
  function SplitRun(f: string, i: nat, token: string, tokens: seq<string>): (m: Move)
    requires ScanState(f, i, token) && i < |f| && IsOperator(f[i]) && token != []
    ensures m.Next? ==> ScanState(f, m.i, m.token) && Progress(i, token, m.i, m.token)
  {
    var t := token + [f[i]];
    var k := NumericPrefix(t);
    if IsNumber(t[..k]) then
      assert k <= |token| by {
        assert t[|token|] == f[i];
      }
      Next(i - |token| + k, "", AppendSplit(tokens, t[..k]))
    else Fail(UnknownToken(token))
  }

  /** Lines 547-563: any other character extends the run, which may now be a valid token. */
  function LetterMove(f: string, i: nat, token: string, tokens: seq<string>): (m: Move)
    requires ScanState(f, i, token) && i < |f| && !IsOperator(f[i])
    ensures m.Next? ==> ScanState(f, m.i, m.token) && Progress(i, token, m.i, m.token)
  {
    var t := token + [f[i]];
    assert t == f[i - |token|..i + 1];
    if IsValidToken(t) then
      // sin, cos and tan wait one character for an 'h'
      if (t == "sin" || t == "cos" || t == "tan") && i + 1 < |f| && f[i + 1] == 'h' then
        Next(i + 1, t, tokens)
      else Next(i + 1, "", WithProduct(tokens, t))
    else Next(i + 1, t, tokens)
  }

  /**
   * tokenize: remove spaces, check the preconditions, scan.
   */
  function Tokenize(s: string): (r: Result<seq<string>, ParseError>)
    ensures Preconditions(RemoveSpaces(s)).Err? ==> r == Err(Preconditions(RemoveSpaces(s)).error)
    ensures r.Ok? ==> r.value != [] && EndsValue(Last(r.value))
    decreases |s|, 1, 0, 0
  {
    var f0 := RemoveSpaces(s);
    match Preconditions(f0)
    case Err(e) => Err(e)
    case Ok((f, prefix)) => Scan(f, 0, "", prefix)
  }

  /**
   * The main loop from index i, with the accumulator `token` and the list
   * `tokens` built so far, followed by the checks after the loop.
   */
  function Scan(f: string, i: nat, token: string, tokens: seq<string>): (r: Result<seq<string>, ParseError>)
    requires ScanState(f, i, token)
    ensures r.Ok? ==> r.value != [] && EndsValue(Last(r.value))
    decreases |f|, 0, |f| - (i - |token|), |f| - i
  {
    if i < |f| then
      match Step(f, i, token, tokens)
      case Fail(e) => Err(e)
      case Next(i', token', tokens') => Scan(f, i', token', tokens')
    else if IsNumber(token) then Ending(WithProduct(tokens, token))
    else if token != [] then Trailing(f, token, tokens)
    else Ending(tokens)
  }

  /**
   * Lines 573-591: a run left over at the end that is not a number is split
   * into its numeric part and the rest, which is tokenized recursively.
   */
  function Trailing(f: string, token: string, tokens: seq<string>): (r: Result<seq<string>, ParseError>)
    requires 0 < |token| <= |f|
    ensures var k := NumericPrefix(token);
            !(k < |token| && IsNumber(token[..k])) ==> r == Err(UnknownToken(token))
    ensures var k := NumericPrefix(token);
            r.Ok? ==> Tokenize(token[k..]).Ok? && AppendSplit(tokens, token[..k]) <= r.value
    ensures r.Ok? ==> r.value != [] && EndsValue(Last(r.value))
    decreases |f|, 0, 0, 0
  {
    var k := NumericPrefix(token);
    if k < |token| && IsNumber(token[..k]) then
      match Tokenize(token[k..])
      case Err(e) => Err(e)
      case Ok(rest) => Ending(AppendSplit(tokens, token[..k]) + rest)
    else Err(UnknownToken(token))
  }

  // ---------------------------------------------------------------------------
  // The methods: the loops of checkPreconditions and tokenize

  /** checkPreconditions, counting the parentheses with frequency. */
  method CheckPreconditions(f: string) returns (r: Result<(string, seq<string>), ParseError>)
    ensures r == Preconditions(f)
  {
    var closing := Frequency(f, ')');
    var opening := Frequency(f, '(');
    if closing != opening {
      return Err(UnbalancedParens);
    }
    if |f| == 1 && !IsNumber([f[0]]) {
      assert [f[0]] == f;
      return Err(UnknownToken(f));
    }
    r := Ok((f, []));
    if |f| > 1 {
      var first := f[0];
      var second := f[1];
      if first == '-' {
        if IsNumber([second]) || ContainsValidToken(f, 1) {
          r := Ok((f[1..], ["-1", "*"]));
        }
      } else if first == '+' && (second == 'x' || IsDigit(second)) {
        r := Ok((f[1..], []));
      } else if first != '(' && IsOperator(first) {
        r := Err(InvalidLeadingToken);
      }
    } else if |f| == 1 {
      assert [f[0]] == f;
    }
  }

  /** The loops at lines 488-494 and 576-582: the index of the first character that is not a digit or a dot. */
  method SplitIndex(t: string) returns (k: nat)
    ensures k <= |t|
    ensures forall j :: 0 <= j < k ==> IsDigitOrDot(t[j])
    ensures k < |t| ==> !IsDigitOrDot(t[k])
    ensures k == NumericPrefix(t)
  {
    k := 0;
    while k < |t|
      invariant k <= |t|
      invariant forall j :: 0 <= j < k ==> IsDigitOrDot(t[j])
    {
      if !IsDigitOrDot(t[k]) {
        return;
      }
      k := k + 1;
    }
  }

  /** Scan performs one Step while characters remain. */
  lemma ScanUnfold(f: string, i: nat, token: string, tokens: seq<string>)
    requires ScanState(f, i, token) && i < |f|
    ensures Step(f, i, token, tokens).Fail? ==> Scan(f, i, token, tokens) == Err(Step(f, i, token, tokens).error)
    ensures Step(f, i, token, tokens).Next? ==>
      var m := Step(f, i, token, tokens);
      Scan(f, i, token, tokens) == Scan(f, m.i, m.token, m.tokens)
  {
  }

  /** Tokenize scans what Preconditions leaves, from index 0 with the tokens it added. */
  lemma TokenizeUnfold(s: string)
    ensures Preconditions(RemoveSpaces(s)).Err? ==> Tokenize(s) == Err(Preconditions(RemoveSpaces(s)).error)
    ensures Preconditions(RemoveSpaces(s)).Ok? ==>
      var p := Preconditions(RemoveSpaces(s)).value;
      Tokenize(s) == Scan(p.0, 0, "", p.1)
  {
  }

  /** One iteration of the loop at lines 466-564, carried out on the scan state. */
  method ScanChar(f: string, i: nat, token: string, tokens: seq<string>) returns (m: Move)
    requires ScanState(f, i, token) && i < |f|
    ensures m == Step(f, i, token, tokens)
  {
    var c := f[i];
    var t := token + [c];
    assert t == f[i - |token|..i + 1];
    if IsOperator(c) {
      if IsNumber(token) {
        var next := OperatorStep(f, i, WithProduct(tokens, token));
        if next.Err? {
          return Fail(next.error);
        }
        return Next(i + 1, "", next.value);
      } else if token != [] {
        var k := SplitIndex(t);
        if !IsNumber(t[..k]) {
          return Fail(UnknownToken(token));
        }
        assert k <= |token| by {
          assert t[|token|] == c;
        }
        return Next(i - |token| + k, "", AppendSplit(tokens, t[..k]));
      } else {
        var next := OperatorStep(f, i, tokens);
        if next.Err? {
          return Fail(next.error);
        }
        return Next(i + 1, "", next.value);
      }
    } else if IsValidToken(t) {
      if (t == "sin" || t == "cos" || t == "tan") && i + 1 < |f| && f[i + 1] == 'h' {
        return Next(i + 1, t, tokens);
      }
      return Next(i + 1, "", WithProduct(tokens, t));
    }
    return Next(i + 1, t, tokens);
  }

  /** tokenize: remove spaces, check the preconditions, then scan. */
  method TokenizeString(s: string) returns (r: Result<seq<string>, ParseError>)
    ensures r == Tokenize(s)
    decreases |s|, 2
  {
    var f0 := RemoveSpaces(s);
    var pre := CheckPreconditions(f0);
    TokenizeUnfold(s);
    if pre.Err? {
      return Err(pre.error);
    }
    r := ScanString(pre.value.0, pre.value.1);
  }

  /** The loop at lines 466-564 over f, starting from the tokens checkPreconditions added. */
  method ScanString(f: string, prefix: seq<string>) returns (r: Result<seq<string>, ParseError>)
    ensures r == Scan(f, 0, "", prefix)
    decreases |f|, 1
  {
    var tokens := prefix;
    var token := "";
    var i := 0;
    while i < |f|
      invariant ScanState(f, i, token)
      invariant Scan(f, i, token, tokens) == Scan(f, 0, "", prefix)
      decreases |f| - (i - |token|), |f| - i
    {
      var m := ScanChar(f, i, token, tokens);
      ScanUnfold(f, i, token, tokens);
      if m.Fail? {
        return Err(m.error);
      }
      i, token, tokens := m.i, m.token, m.tokens;
    }
    r := FinishScan(f, token, tokens);
  }

  /** Lines 566-598: the run left in `token` after the loop, then the check of the last token. */
  method FinishScan(f: string, token: string, tokens: seq<string>) returns (r: Result<seq<string>, ParseError>)
    requires ScanState(f, |f|, token)
    ensures r == Scan(f, |f|, token, tokens)
    decreases |f|, 0
  {
    if IsNumber(token) {
      return Ending(WithProduct(tokens, token));
    } else if token != [] {
      var k := SplitIndex(token);
      if k < |token| && IsNumber(token[..k]) {
        var rest := TokenizeString(token[k..]);
        if rest.Err? {
          return Err(rest.error);
        }
        return Ending(AppendSplit(tokens, token[..k]) + rest.value);
      }
      return Err(UnknownToken(token));
    }
    return Ending(tokens);
  }
}
