/**
 * The error paths of tokenize: which inputs it refuses, and with which
 * exception, together with a few inputs worked through as examples.
 */
module TokenizerErrors {
  import opened Results
  import opened Numbers
  import opened Tokens
  import opened Tokenizer
  import opened TokenizerProps

  predicate Unbalanced(f: string) {
    multiset(f)[')'] != multiset(f)['(']
  }

  /** A step leaves a run without operators behind it. */
  lemma StepRun(f: string, i: nat, token: string, tokens: seq<string>)
    requires ScanState(f, i, token) && i < |f| && NoOperators(token)
    ensures var m := Step(f, i, token, tokens);
            m.Next? ==> NoOperators(m.token)
  {
    if !IsOperator(f[i]) {
      var t := token + [f[i]];
      assert forall j :: 0 <= j < |t| ==> t[j] == (if j < |token| then token[j] else f[i]);
    }
  }

  /** Only checkPreconditions raises the unbalanced-parentheses error; the scan never does. */
  lemma {:induction false} ScanNotUnbalanced(f: string, i: nat, token: string, tokens: seq<string>)
    requires ScanState(f, i, token) && NoOperators(token)
    ensures Scan(f, i, token, tokens) != Err(UnbalancedParens)
    decreases |f|, 0, |f| - (i - |token|), |f| - i
  {
    if i < |f| {
      StepRun(f, i, token, tokens);
      ScanUnfold(f, i, token, tokens);
      var m := Step(f, i, token, tokens);
      if m.Next? {
        ScanNotUnbalanced(f, m.i, m.token, m.tokens);
      }
    } else if !IsNumber(token) && token != [] {
      var k := NumericPrefix(token);
      if k < |token| && IsNumber(token[..k]) {
        RestBalanced(token, k);
        TokenizeNotUnbalanced(token[k..]);
      }
    }
  }

  /** The rest of a run without operators has no parentheses, so it is balanced. */
  lemma RestBalanced(token: string, k: nat)
    requires NoOperators(token) && k <= |token|
    ensures !Unbalanced(RemoveSpaces(token[k..]))
  {
    var rest := token[k..];
    SuffixNoOperators(token, k);
    NoParens(rest);
    assert multiset(RemoveSpaces(rest))[')'] == multiset(rest)[')'];
    assert multiset(RemoveSpaces(rest))['('] == multiset(rest)['('];
  }

  /** Tokenizing a balanced string never reports unbalanced parentheses. */
  lemma {:induction false} TokenizeNotUnbalanced(s: string)
    requires !Unbalanced(RemoveSpaces(s))
    ensures Tokenize(s) != Err(UnbalancedParens)
    decreases |s|, 1, 0, 0
  {
    TokenizeUnfold(s);
    var f0 := RemoveSpaces(s);
    if Preconditions(f0).Ok? {
      var (f, prefix) := Preconditions(f0).value;
      ScanNotUnbalanced(f, 0, "", prefix);
    }
  }

  /** Lines 612-613: tokenize reports unbalanced parentheses exactly when the counts of '(' and ')' differ. */
  lemma UnbalancedRejected(s: string)
    ensures Tokenize(s) == Err(UnbalancedParens) <==> Unbalanced(RemoveSpaces(s))
  {
    TokenizeUnfold(s);
    if !Unbalanced(RemoveSpaces(s)) {
      TokenizeNotUnbalanced(s);
    }
  }

  /** Lines 616-618: a single character that is not number-like is an unknown token. */
  lemma SingleCharRejected(s: string)
    requires |RemoveSpaces(s)| == 1 && !Unbalanced(RemoveSpaces(s)) && !IsNumber(RemoveSpaces(s))
    ensures Tokenize(s) == Err(UnknownToken(RemoveSpaces(s)))
  {
    var f0 := RemoveSpaces(s);
    TokenizeUnfold(s);
    assert [f0[0]] == f0;
  }

  /** Lines 637-640: any other leading operator than '(', a usable '-' or '+' is refused. */
  lemma BadLeadingRejected(s: string)
    requires BadLeading(RemoveSpaces(s)) && !Unbalanced(RemoveSpaces(s))
    ensures Tokenize(s) == Err(InvalidLeadingToken)
  {
    TokenizeUnfold(s);
  }

  /** Lines 632-635: a leading '+' before 'x' or a digit is dropped and nothing is added. */
  lemma LeadingPlusDropped(s: string)
    requires LeadingPlus(RemoveSpaces(s)) && !Unbalanced(RemoveSpaces(s))
    ensures Tokenize(s) == Scan(RemoveSpaces(s)[1..], 0, "", [])
  {
    TokenizeUnfold(s);
  }

  /**
   * Lines 536-537: a string with two adjacent operator characters that the
   * consecutive-operator check refuses is not tokenized.
   */
  lemma ForbiddenRejected(s: string, k: nat)
    requires k + 1 < |RemoveSpaces(s)| && Forbidden(RemoveSpaces(s), k)
    ensures Tokenize(s).Err?
  {
    if Tokenize(s).Ok? {
      TokenizeProps(s, Tokenize(s).value);
    }
  }

  /** Line 595: a list that does not end in ")" or a number-like token is never the result. */
  lemma EndingRejected(s: string)
    requires Tokenize(s).Ok?
    ensures var ts := Tokenize(s).value;
            ts != [] && (Last(ts) == ")" || IsNumber(Last(ts)))
  {
    TokenizeProps(s, Tokenize(s).value);
  }

  // ---------------------------------------------------------------------------
  // Examples

  /** "1--x", "10*-5" and "x++9" are refused (Test.java lists them as illegal). */
  lemma ConsecutiveExample(s: string)
    requires s == "1--x" || s == "10*-5" || s == "x++9"
    ensures Tokenize(s).Err?
  {
    NoSpaces(s);
    if s == "10*-5" {
      ForbiddenRejected(s, 2);
    } else {
      ForbiddenRejected(s, 1);
    }
  }

  lemma UnbalancedExample(s: string)
    requires s == "(x+1"
    ensures Tokenize(s) == Err(UnbalancedParens)
  {
    assert RemoveSpaces(s) == s by {
      NoSpaces(s);
    }
    assert Unbalanced(s) by {
      assert multiset(s) == multiset{'(', 'x', '+', '1'};
    }
    UnbalancedRejected(s);
  }
}
