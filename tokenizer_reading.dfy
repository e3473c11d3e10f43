/**
 * Where the "*" tokens of a successful tokenize come from. The tokens are read
 * back in order with one mark per token: a marked token is a "*" the tokenizer
 * inserted and reads as nothing, every other token reads as the characters it
 * stands for ("-1" as the '-' it replaced, a "*" as the '*' of the input). A
 * "*" may be marked only between a token that ends an operand and one that
 * starts one (lines 476-478, 511-518, 556-558, 568-570, 584-586) or right after
 * the "-1" of a rewritten sign (lines 521-523, 625-630). Some marking of every
 * successful list reads as the input without spaces and without a dropped
 * leading '+', character for character, so each '*' typed stays one "*" token
 * in place and no other "*" appears.
 */
module TokenizerReading {
  import opened Results
  import opened Tokens
  import opened Tokenizer
  import opened TokenizerProps
  import opened TokenizerContent

  /** The characters a token stands for: "-1" stands for the '-' it replaced. */
  function Full(t: string): string {
    if t == "-1" then "-" else t
  }

  /** A token read back; an inserted "*" stands for nothing. */
  function Piece(t: string, inserted: bool): string {
    if inserted then "" else Full(t)
  }

  /** The tokens read back in order, marks[j] telling whether ts[j] was inserted. */
  function Read(ts: seq<string>, marks: seq<bool>): string
    requires |marks| == |ts|
  {
    if ts == [] then "" else Read(ts[..|ts| - 1], marks[..|ts| - 1]) + Piece(ts[|ts| - 1], marks[|ts| - 1])
  }

  /** Where the tokenizer may insert a "*": at the junction of two operands, or after a rewritten sign. */
  predicate InsertedAt(ts: seq<string>, j: nat)
    requires j < |ts|
  {
    && ts[j] == "*" && 0 < j && j + 1 < |ts|
    && (ts[j - 1] == "-1" || (EndsValue(ts[j - 1]) && StartsValue(ts[j + 1])))
  }

  /** Only tokens where a "*" may be inserted are marked. */
  predicate Inserted(ts: seq<string>, marks: seq<bool>) {
    |marks| == |ts| && forall j :: 0 <= j < |ts| && marks[j] ==> InsertedAt(ts, j)
  }

  /** ts, read with the marks, gives s back, and only inserted "*" tokens are marked. */
  predicate ReadsAs(ts: seq<string>, marks: seq<bool>, s: string) {
    Inserted(ts, marks) && Read(ts, marks) == s
  }

  // ---------------------------------------------------------------------------
  // Reading during the scan

  /** The last token is a marked "*" still waiting for the token after it. */
  predicate Open(ts: seq<string>, marks: seq<bool>)
    requires |marks| == |ts|
  {
    ts != [] && marks[|ts| - 1]
  }

  /** ts reads as w, and every marked token except an open last one is in place. */
  predicate Marked(ts: seq<string>, marks: seq<bool>, w: string) {
    && |marks| == |ts|
    && Read(ts, marks) == w
    && (forall j :: 0 <= j < |ts| - 1 && marks[j] ==> InsertedAt(ts, j))
    && (Open(ts, marks) ==> |ts| > 1 && Last(ts) == "*")
  }

  /** An open "*" follows "-1", or follows the end of an operand with `next` saying an operand comes next. */
  predicate PendingOk(ts: seq<string>, marks: seq<bool>, next: bool)
    requires |marks| == |ts|
  {
    Open(ts, marks) && |ts| > 1 ==> ts[|ts| - 2] == "-1" || (EndsValue(ts[|ts| - 2]) && next)
  }

  /** After a ')' with nothing pending the last token is ")", unless line 518 added ")" "*" before a number-like character. */
  predicate AfterClose(f: string, i: nat, token: string, tokens: seq<string>)
    requires i <= |f|
  {
    token == [] && 0 < i && f[i - 1] == ')' ==> tokens != [] && (Last(tokens) == ")" || (i < |f| && IsNumber([f[i]])))
  }

  /**
   * The reading invariant of the scan: the tokens read as p followed by the
   * characters before the pending run, and an open "*" is followed by a
   * character that is not an operator.
   */
  predicate ReadInv(f: string, i: nat, token: string, tokens: seq<string>, marks: seq<bool>, p: string) {
    && ScanState(f, i, token)
    && NoOperators(token)
    && Marked(tokens, marks, p + f[..i - |token|])
    && PendingOk(tokens, marks, i - |token| < |f| && !IsOperator(f[i - |token|]))
    && AfterClose(f, i, token, tokens)
  }

  // ---------------------------------------------------------------------------
  // Reading, piece by piece

  lemma ReadPush(ts: seq<string>, marks: seq<bool>, t: string, b: bool)
    requires |marks| == |ts|
    ensures Read(ts + [t], marks + [b]) == Read(ts, marks) + Piece(t, b)
  {
    assert (ts + [t])[..|ts|] == ts && (marks + [b])[..|ts|] == marks;
  }

  /** Reading a concatenation reads each part. */
  lemma {:induction false} ReadAppend(a: seq<string>, ma: seq<bool>, b: seq<string>, mb: seq<bool>)
    requires |ma| == |a| && |mb| == |b|
    ensures Read(a + b, ma + mb) == Read(a, ma) + Read(b, mb)
    decreases |b|
  {
    if b == [] {
      assert a + b == a && ma + mb == ma;
    } else {
      var n, ab, mab := |b| - 1, a + b, ma + mb;
      calc {
        Read(ab, mab);
        Read(ab[..|ab| - 1], mab[..|ab| - 1]) + Piece(ab[|ab| - 1], mab[|ab| - 1]);
        { DropLast(a, b); DropLast(ma, mb); }
        Read(a + b[..n], ma + mb[..n]) + Piece(b[n], mb[n]);
        { ReadAppend(a, ma, b[..n], mb[..n]); }
        (Read(a, ma) + Read(b[..n], mb[..n])) + Piece(b[n], mb[n]);
        { Associative(Read(a, ma), Read(b[..n], mb[..n]), Piece(b[n], mb[n])); }
        Read(a, ma) + Read(b, mb);
      }
    }
  }

  /** The last element of a concatenation ending in a non-empty part. */
  lemma DropLast<T>(a: seq<T>, b: seq<T>)
    requires b != []
    ensures (a + b)[..|a + b| - 1] == a + b[..|b| - 1] && (a + b)[|a + b| - 1] == b[|b| - 1]
  {
  }

  /** The reading of a list whose first token is not marked starts with that token's first character. */
  lemma {:induction false} ReadStart(ts: seq<string>, marks: seq<bool>)
    requires |marks| == |ts| && ts != [] && !marks[0] && Full(ts[0]) != []
    ensures Read(ts, marks) != [] && Read(ts, marks)[0] == Full(ts[0])[0]
  {
    var n := |ts| - 1;
    if n > 0 {
      ReadStart(ts[..n], marks[..n]);
    }
  }

  /** p followed by f[..a] and then by f[a..b] is p followed by f[..b]. */
  lemma Extend(f: string, a: nat, b: nat, p: string, n: string)
    requires a <= b <= |f| && n == f[a..b]
    ensures p + f[..a] + n == p + f[..b]
  {
    assert f[..b] == f[..a] + n;
    Associative(p, f[..a], n);
  }

  /** A character that is number-like on its own is not an operator. */
  lemma NumberChar(c: char)
    requires IsNumber([c])
    ensures !IsOperator(c)
  {
    SingleCharNumber(c);
  }

  // ---------------------------------------------------------------------------
  // What the scan appends

  /** A token appended unmarked; an open "*" before it has to be in place then. */
  lemma AddPlain(ts: seq<string>, marks: seq<bool>, w: string, t: string)
    requires Marked(ts, marks, w) && PendingOk(ts, marks, StartsValue(t))
    ensures Marked(ts + [t], marks + [false], w + Full(t)) && !Open(ts + [t], marks + [false])
  {
    var ts', ms' := ts + [t], marks + [false];
    ReadPush(ts, marks, t, false);
    forall j | 0 <= j < |ts'| - 1 && ms'[j]
      ensures InsertedAt(ts', j)
    {
      assert ms'[j] == marks[j] && ts'[j] == ts[j];
      if j < |ts| - 1 {
        assert InsertedAt(ts, j);
        assert ts'[j + 1] == ts[j + 1];
        if j > 0 {
          assert ts'[j - 1] == ts[j - 1];
        }
      } else {
        assert Open(ts, marks) && ts'[j + 1] == t && ts'[j - 1] == ts[j - 1];
      }
    }
  }

  /** A "*" appended marked after a token that is not an open "*". */
  lemma AddPending(ts: seq<string>, marks: seq<bool>, w: string)
    requires Marked(ts, marks, w) && ts != [] && !Open(ts, marks)
    ensures Marked(ts + ["*"], marks + [true], w) && Open(ts + ["*"], marks + [true])
    ensures (ts + ["*"])[|ts| - 1] == Last(ts)
  {
    var ts', ms' := ts + ["*"], marks + [true];
    ReadPush(ts, marks, "*", true);
    assert w + Piece("*", true) == w;
    forall j | 0 <= j < |ts'| - 1 && ms'[j]
      ensures InsertedAt(ts', j)
    {
      assert ms'[j] == marks[j] && ts'[j] == ts[j];
      assert j < |ts| - 1;
      assert InsertedAt(ts, j);
      assert ts'[j + 1] == ts[j + 1];
      if j > 0 {
        assert ts'[j - 1] == ts[j - 1];
      }
    }
  }

  /** An inserted "*" between an operand's end and an operand's start. */
  lemma AddProduct(ts: seq<string>, marks: seq<bool>, w: string, t: string)
    requires Marked(ts, marks, w) && ts != [] && EndsValue(Last(ts)) && StartsValue(t)
    ensures Marked(ts + ["*", t], marks + [true, false], w + Full(t))
    ensures !Open(ts + ["*", t], marks + [true, false])
  {
    MinusOneIsNumber();
    AddPending(ts, marks, w);
    AddPlain(ts + ["*"], marks + [true], w, t);
    assert ts + ["*"] + [t] == ts + ["*", t];
    assert marks + [true] + [false] == marks + [true, false];
  }

  /** The marks of what WithProduct appends: the implicit "*" is marked. */
  function ProductMarks(ts: seq<string>): seq<bool> {
    if ts != [] && EndsValue(Last(ts)) then [true, false] else [false]
  }

  /** An operand appended with WithProduct (lines 476-478, 556-558, 568-570). */
  lemma ProductRead(ts: seq<string>, marks: seq<bool>, w: string, t: string)
    requires Marked(ts, marks, w) && PendingOk(ts, marks, true) && StartsValue(t)
    ensures Marked(WithProduct(ts, t), marks + ProductMarks(ts), w + Full(t))
    ensures !Open(WithProduct(ts, t), marks + ProductMarks(ts))
  {
    if ts != [] && EndsValue(Last(ts)) {
      AddProduct(ts, marks, w, t);
    } else {
      AddPlain(ts, marks, w, t);
    }
  }

  /** The corrected split appends the number with WithProduct and then a "*" that is inserted. */
  lemma SplitRead(ts: seq<string>, marks: seq<bool>, w: string, n: string)
    requires Marked(ts, marks, w) && PendingOk(ts, marks, true) && IsNumber(n)
    ensures var ms := marks + ProductMarks(ts) + [true];
            && Marked(AppendSplit(ts, n), ms, w + Full(n)) && Open(AppendSplit(ts, n), ms)
            && AppendSplit(ts, n)[|AppendSplit(ts, n)| - 2] == n
  {
    ProductRead(ts, marks, w, n);
    AddPending(WithProduct(ts, n), marks + ProductMarks(ts), w + Full(n));
  }

  /** A token without operators is read as itself. */
  lemma PlainFull(t: string)
    requires NoOperators(t)
    ensures Full(t) == t
  {
    assert t == [] || !IsOperator(t[0]);
  }

  /** A number token stands for its own characters. */
  lemma FlushReads(f: string, i: nat, token: string, tokens: seq<string>, marks: seq<bool>, p: string)
    requires ReadInv(f, i, token, tokens, marks, p) && IsNumber(token)
    ensures ReadInv(f, i, "", WithProduct(tokens, token), marks + ProductMarks(tokens), p)
  {
    NumberNotEmpty(token);
    ProductRead(tokens, marks, p + f[..i - |token|], token);
    PlainFull(token);
    Extend(f, i - |token|, i, p, token);
    assert f[i - 1] == token[|token| - 1];
  }

  // ---------------------------------------------------------------------------
  // One step of the scan

  /** A character that is not an operator (lines 547-563). */
  lemma LetterReads(f: string, i: nat, token: string, tokens: seq<string>, marks: seq<bool>, p: string)
    returns (ms: seq<bool>)
    requires ReadInv(f, i, token, tokens, marks, p) && i < |f| && !IsOperator(f[i])
    ensures var m := LetterMove(f, i, token, tokens);
            m.Next? && ReadInv(f, m.i, m.token, m.tokens, ms, p)
  {
    var t := token + [f[i]];
    LetterShape(f, i, token, tokens);
    RunContent(f, i, token, t);
    var m := LetterMove(f, i, token, tokens);
    if m == Next(i + 1, t, tokens) {
      ms := marks;
    } else {
      ms := marks + ProductMarks(tokens);
      CompleteReads(f, i, token, tokens, marks, p, t);
    }
  }

  /** A run completed into a valid token is appended with WithProduct. */
  lemma CompleteReads(f: string, i: nat, token: string, tokens: seq<string>, marks: seq<bool>, p: string, t: string)
    requires ReadInv(f, i, token, tokens, marks, p) && i < |f| && !IsOperator(f[i])
    requires t == f[i - |token|..i + 1] && NoOperators(t) && IsValidToken(t)
    ensures ReadInv(f, i + 1, "", WithProduct(tokens, t), marks + ProductMarks(tokens), p)
  {
    var start := i - |token|;
    ProductRead(tokens, marks, p + f[..start], t);
    PlainFull(t);
    Extend(f, start, i + 1, p, t);
  }

  /** The shapes of what an operator appends (lines 509-543). */
  lemma OperatorReadCases(f: string, i: nat, tokens: seq<string>)
    requires i < |f| && IsOperator(f[i]) && OperatorStep(f, i, tokens).Ok?
    ensures var next := OperatorStep(f, i, tokens).value;
      || (next == tokens + ["*", "("] && f[i] == '(' && 0 < i && tokens != [] && (f[i - 1] == ')' || IsNumber(Last(tokens))))
      || (next == tokens + [")", "*"] && f[i] == ')' && i + 1 < |f| && IsNumber([f[i + 1]]))
      || (next == tokens + ["-1", "*"] && f[i] == '-')
      || next == tokens + [[f[i]]]
  {
  }

  /** Line 511: "(" after ")" or a number gets an inserted "*". */
  lemma OpenProductReads(f: string, i: nat, tokens: seq<string>, marks: seq<bool>, p: string)
    requires ReadInv(f, i, "", tokens, marks, p) && i < |f| && f[i] == '(' && 0 < i && tokens != []
    requires f[i - 1] == ')' || IsNumber(Last(tokens))
    ensures ReadInv(f, i + 1, "", tokens + ["*", "("], marks + [true, false], p)
  {
    SingleCharNumber('(');
    assert EndsValue(Last(tokens));
    OperatorTokens('(');
    AddProduct(tokens, marks, p + f[..i], "(");
    Extend(f, i, i + 1, p, "(");
  }

  /** Line 518: ")" before a number-like character, with the "*" inserted at once. */
  lemma CloseProductReads(f: string, i: nat, tokens: seq<string>, marks: seq<bool>, p: string)
    requires ReadInv(f, i, "", tokens, marks, p) && i + 1 < |f| && f[i] == ')' && IsNumber([f[i + 1]])
    ensures ReadInv(f, i + 1, "", tokens + [")", "*"], marks + [false, true], p)
  {
    var w := p + f[..i];
    AddPlain(tokens, marks, w, ")");
    AddPending(tokens + [")"], marks + [false], w + ")");
    assert tokens + [")"] + ["*"] == tokens + [")", "*"];
    assert marks + [false] + [true] == marks + [false, true];
    Extend(f, i, i + 1, p, ")");
    NumberChar(f[i + 1]);
  }

  /** Line 521: "(-" becomes "(" "-1" "*", and the "*" is inserted. */
  lemma SignProductReads(f: string, i: nat, tokens: seq<string>, marks: seq<bool>, p: string)
    requires ReadInv(f, i, "", tokens, marks, p) && i < |f| && f[i] == '-'
    ensures ReadInv(f, i + 1, "", tokens + ["-1", "*"], marks + [false, true], p)
  {
    var w := p + f[..i];
    AddPlain(tokens, marks, w, "-1");
    AddPending(tokens + ["-1"], marks + [false], w + "-");
    assert tokens + ["-1"] + ["*"] == tokens + ["-1", "*"];
    assert marks + [false] + [true] == marks + [false, true];
    Extend(f, i, i + 1, p, "-");
  }

  /** Line 542: the operator itself, as typed. */
  lemma PlainOperatorReads(f: string, i: nat, tokens: seq<string>, marks: seq<bool>, p: string)
    requires ReadInv(f, i, "", tokens, marks, p) && i < |f| && IsOperator(f[i])
    ensures ReadInv(f, i + 1, "", tokens + [[f[i]]], marks + [false], p)
  {
    var c := f[i];
    assert Full([c]) == [c] by {
      assert |[c]| != |"-1"|;
    }
    AddPlain(tokens, marks, p + f[..i], [c]);
    Extend(f, i, i + 1, p, [c]);
  }

  /** An operator joins the list once nothing is pending (lines 508-543). */
  lemma AfterOperatorReads(f: string, i: nat, tokens: seq<string>, marks: seq<bool>, p: string)
    returns (ms: seq<bool>)
    requires ReadInv(f, i, "", tokens, marks, p) && i < |f| && IsOperator(f[i])
    ensures var m := AfterOperator(f, i, tokens);
            m.Next? ==> ReadInv(f, m.i, m.token, m.tokens, ms, p)
  {
    ms := marks;
    var r := OperatorStep(f, i, tokens);
    if r.Ok? {
      var next := r.value;
      OperatorReadCases(f, i, tokens);
      if |next| == |tokens| + 1 {
        assert next == tokens + [[f[i]]];
        ms := marks + [false];
        PlainOperatorReads(f, i, tokens, marks, p);
      } else if next[|tokens|] == "*" {
        ms := marks + [true, false];
        OpenProductReads(f, i, tokens, marks, p);
      } else if next[|tokens|] == ")" {
        ms := marks + [false, true];
        CloseProductReads(f, i, tokens, marks, p);
      } else {
        assert next == tokens + ["-1", "*"];
        ms := marks + [false, true];
        SignProductReads(f, i, tokens, marks, p);
      }
    }
  }

  /** The numeric part of a run is split off with the corrected split (lines 484-506). */
  lemma SplitAt(f: string, start: nat, k: nat, tokens: seq<string>, marks: seq<bool>, p: string, n: string)
    requires 0 < k && start + k < |f| && n == f[start..start + k] && NoOperators(n) && IsNumber(n)
    requires !IsOperator(f[start + k])
    requires Marked(tokens, marks, p + f[..start]) && PendingOk(tokens, marks, true)
    ensures ReadInv(f, start + k, "", AppendSplit(tokens, n), marks + ProductMarks(tokens) + [true], p)
  {
    SplitRead(tokens, marks, p + f[..start], n);
    PlainFull(n);
    Extend(f, start, start + k, p, n);
    assert f[start + k - 1] == n[k - 1];
  }

  /** The run ends at the scan position, so its k-th character is the input's. */
  lemma RunChar(f: string, i: nat, token: string, k: nat)
    requires ScanState(f, i, token) && k < |token|
    ensures f[i - |token| + k] == token[k]
  {
  }

  /** A run that is not a number meets an operator. */
  lemma SplitReads(f: string, i: nat, token: string, tokens: seq<string>, marks: seq<bool>, p: string)
    returns (ms: seq<bool>)
    requires ReadInv(f, i, token, tokens, marks, p) && i < |f| && IsOperator(f[i])
    requires token != [] && !IsNumber(token)
    ensures var m := SplitRun(f, i, token, tokens);
            m.Next? ==> ReadInv(f, m.i, m.token, m.tokens, ms, p)
  {
    ms := marks;
    var m := SplitRun(f, i, token, tokens);
    SplitRunValue(f, i, token, tokens);
    if m.Next? {
      ms := SplitNext(f, i, token, tokens, marks, p);
    }
  }

  /** The numeric part of the run is split off, and the scan resumes after it. */
  lemma SplitNext(f: string, i: nat, token: string, tokens: seq<string>, marks: seq<bool>, p: string)
    returns (ms: seq<bool>)
    requires ReadInv(f, i, token, tokens, marks, p) && i < |f| && IsOperator(f[i])
    requires token != [] && !IsNumber(token)
    requires var t := token + [f[i]]; IsNumber(t[..NumericPrefix(t)])
    ensures var t := token + [f[i]];
            var k := NumericPrefix(t);
            ReadInv(f, i - |token| + k, "", AppendSplit(tokens, t[..k]), ms, p)
  {
    var t := token + [f[i]];
    var k := NumericPrefix(t);
    SplitNumeric(f, i, token);
    var start := i - |token|;
    assert k < |token|;
    RunChar(f, i, token, k);
    ms := marks + ProductMarks(tokens) + [true];
    SplitAt(f, start, k, tokens, marks, p, t[..k]);
  }

  /** An operator or parenthesis (lines 470-545). */
  lemma OperatorReads(f: string, i: nat, token: string, tokens: seq<string>, marks: seq<bool>, p: string)
    returns (ms: seq<bool>)
    requires ReadInv(f, i, token, tokens, marks, p) && i < |f| && IsOperator(f[i])
    ensures var m := OperatorMove(f, i, token, tokens);
            m.Next? ==> ReadInv(f, m.i, m.token, m.tokens, ms, p)
  {
    if IsNumber(token) {
      FlushReads(f, i, token, tokens, marks, p);
      ms := AfterOperatorReads(f, i, WithProduct(tokens, token), marks + ProductMarks(tokens), p);
    } else if token != [] {
      ms := SplitReads(f, i, token, tokens, marks, p);
    } else {
      ms := AfterOperatorReads(f, i, tokens, marks, p);
    }
  }

  /** Every step of the scan keeps the reading invariant. */
  lemma StepReads(f: string, i: nat, token: string, tokens: seq<string>, marks: seq<bool>, p: string)
    returns (ms: seq<bool>)
    requires ReadInv(f, i, token, tokens, marks, p) && i < |f|
    ensures var m := Step(f, i, token, tokens);
            m.Next? ==> ReadInv(f, m.i, m.token, m.tokens, ms, p)
  {
    if IsOperator(f[i]) {
      ms := OperatorReads(f, i, token, tokens, marks, p);
    } else {
      ms := LetterReads(f, i, token, tokens, marks, p);
    }
  }

  // ---------------------------------------------------------------------------
  // The end of the string and the start of the scan

  /** A list that Ending accepts has no open "*". */
  lemma Settled(ts: seq<string>, marks: seq<bool>, w: string)
    requires Marked(ts, marks, w) && ts != [] && EndsValue(Last(ts))
    ensures ReadsAs(ts, marks, w)
  {
    MinusOneIsNumber();
    assert !Open(ts, marks);
  }

  /** The split of a trailing run, followed by the tokens of the rest (lines 573-591). */
  lemma Join(split: seq<string>, ms: seq<bool>, w: string, rest: seq<string>, mr: seq<bool>, run: string)
    requires Marked(split, ms, w) && Open(split, ms) && EndsValue(split[|split| - 2])
    requires ReadsAs(rest, mr, run) && rest != [] && StartsValue(rest[0])
    ensures ReadsAs(split + rest, ms + mr, w + run)
  {
    var ts, marks := split + rest, ms + mr;
    ReadAppend(split, ms, rest, mr);
    forall j | 0 <= j < |ts| && marks[j]
      ensures InsertedAt(ts, j)
    {
      if j < |split| - 1 {
        assert InsertedAt(split, j) && ts[j + 1] == split[j + 1] && ts[j] == split[j];
        if j > 0 {
          assert ts[j - 1] == split[j - 1];
        }
      } else if j == |split| - 1 {
        assert ts[j] == split[j] && ts[j - 1] == split[j - 1] && ts[j + 1] == rest[0];
      } else {
        var j' := j - |split|;
        assert marks[j] == mr[j'];
        assert InsertedAt(rest, j');
        assert ts[j] == rest[j'] && ts[j - 1] == rest[j' - 1] && ts[j + 1] == rest[j' + 1];
      }
    }
  }

  /** The tokens of the rest of a trailing run read it back, and start with an operand. */
  lemma RestReads(run: string, rest: seq<string>, mr: seq<bool>)
    requires Spaceless(run) && run != [] && !IsOperator(run[0]) && Tokenize(run) == Ok(rest)
    requires ReadsAs(rest, mr, SignKept(RemoveSpaces(run)))
    ensures ReadsAs(rest, mr, run) && rest != [] && StartsValue(rest[0])
  {
    NoSpaces(run);
    TokenizeProps(run, rest);
    if rest[0] == "-" {
      assert !InsertedAt(rest, 0);
      ReadStart(rest, mr);
    }
  }

  /** The operands of a trailing run: its numeric part and the tokens of the rest. */
  lemma TrailingReads(f: string, token: string, tokens: seq<string>, marks: seq<bool>, p: string,
                      k: nat, rest: seq<string>, mr: seq<bool>)
    requires |token| <= |f| && token == f[|f| - |token|..]
    requires Marked(tokens, marks, p + f[..|f| - |token|]) && PendingOk(tokens, marks, true)
    requires 0 < k < |token| && NoOperators(token[..k]) && IsNumber(token[..k])
    requires ReadsAs(rest, mr, token[k..]) && rest != [] && StartsValue(rest[0])
    ensures ReadsAs(AppendSplit(tokens, token[..k]) + rest, marks + ProductMarks(tokens) + [true] + mr, p + f)
  {
    var start := |f| - |token|;
    var n, run := token[..k], token[k..];
    RunParts(f, token, k);
    var w, ms := p + f[..start], marks + ProductMarks(tokens) + [true];
    SplitRead(tokens, marks, w, n);
    PlainFull(n);
    Join(AppendSplit(tokens, n), ms, w + n, rest, mr, run);
    TrailingText(f, start, k, p, n, run);
  }

  /** The rest of a trailing run is spaceless and starts with a character that is not an operator. */
  lemma TrailingRest(f: string, token: string, k: nat, rest: seq<string>, mr: seq<bool>)
    requires |token| <= |f| && token == f[|f| - |token|..] && Spaceless(f) && NoOperators(token) && k < |token|
    requires Tokenize(token[k..]) == Ok(rest)
    requires ReadsAs(rest, mr, SignKept(RemoveSpaces(token[k..])))
    ensures ReadsAs(rest, mr, token[k..]) && rest != [] && StartsValue(rest[0])
  {
    RunParts(f, token, k);
    SpacelessSuffix(f, |f| - |token| + k);
    RestReads(token[k..], rest, mr);
  }

  /** A run at the end of f, cut at k. */
  lemma RunParts(f: string, token: string, k: nat)
    requires |token| <= |f| && token == f[|f| - |token|..] && k < |token|
    ensures var start := |f| - |token|;
            && token[..k] == f[start..start + k] && token[k..] == f[start + k..]
            && token[k..][0] == token[k]
  {
  }

  /** f is the characters before the run, its numeric part and the rest. */
  lemma TrailingText(f: string, start: nat, k: nat, p: string, n: string, run: string)
    requires start + k <= |f| && n == f[start..start + k] && run == f[start + k..]
    ensures p + f[..start] + n + run == p + f
  {
    assert f == f[..start] + n + run;
    Associative(p, f[..start], n);
    Associative(p + f[..start], n, run);
    Associative(f[..start], n, run);
    Associative(p, f[..start] + n, run);
  }

  /** The scan from a state with the reading invariant reads back as p followed by f. */
  lemma {:induction false} ScanReads(f: string, i: nat, token: string, tokens: seq<string>, marks: seq<bool>, p: string,
                                     ts: seq<string>)
    returns (ms: seq<bool>)
    requires ReadInv(f, i, token, tokens, marks, p) && Spaceless(f)
    requires Scan(f, i, token, tokens) == Ok(ts)
    ensures ReadsAs(ts, ms, p + f)
    decreases |f|, 0, |f| - (i - |token|), |f| - i, 2
  {
    if i < |f| {
      var ms' := StepReads(f, i, token, tokens, marks, p);
      ScanUnfold(f, i, token, tokens);
      var m := Step(f, i, token, tokens);
      ms := ScanReads(f, m.i, m.token, m.tokens, ms', p, ts);
    } else {
      ms := EndReads(f, token, tokens, marks, p, ts);
    }
  }

  /** The checks after the loop (lines 566-598). */
  lemma {:induction false} EndReads(f: string, token: string, tokens: seq<string>, marks: seq<bool>, p: string,
                                    ts: seq<string>)
    returns (ms: seq<bool>)
    requires ReadInv(f, |f|, token, tokens, marks, p) && Spaceless(f)
    requires Scan(f, |f|, token, tokens) == Ok(ts)
    ensures ReadsAs(ts, ms, p + f)
    decreases |f|, 0, |token|, 0, 1
  {
    if IsNumber(token) {
      ms := marks + ProductMarks(tokens);
      NumberEndReads(f, token, tokens, marks, p);
    } else if token != [] {
      TrailingParts(f, |f|, token, tokens, ts);
      var k := NumericPrefix(token);
      ms := TrailingEndReads(f, token, tokens, marks, p, k, Tokenize(token[k..]).value);
    } else {
      ms := marks;
      Settled(ts, marks, p + f);
    }
  }

  /** A number pending at the end is appended with WithProduct (lines 568-571). */
  lemma NumberEndReads(f: string, token: string, tokens: seq<string>, marks: seq<bool>, p: string)
    requires ReadInv(f, |f|, token, tokens, marks, p) && IsNumber(token)
    ensures ReadsAs(WithProduct(tokens, token), marks + ProductMarks(tokens), p + f)
  {
    FlushReads(f, |f|, token, tokens, marks, p);
    Settled(WithProduct(tokens, token), marks + ProductMarks(tokens), p + f);
  }

  /** A run that is not a number pending at the end (lines 573-591). */
  lemma {:induction false} TrailingEndReads(f: string, token: string, tokens: seq<string>, marks: seq<bool>, p: string,
                                            k: nat, rest: seq<string>)
    returns (ms: seq<bool>)
    requires ReadInv(f, |f|, token, tokens, marks, p) && Spaceless(f)
    requires 0 < k < |token| && NoOperators(token[..k]) && IsNumber(token[..k]) && Tokenize(token[k..]) == Ok(rest)
    ensures ReadsAs(AppendSplit(tokens, token[..k]) + rest, ms, p + f)
    decreases |f|, 0, |token|, 0, 0
  {
    var mr := TokenizeMarks(token[k..], rest);
    TrailingRest(f, token, k, rest, mr);
    TrailingReads(f, token, tokens, marks, p, k, rest, mr);
    ms := marks + ProductMarks(tokens) + [true] + mr;
  }

  /** The sign rewrite of checkPreconditions (lines 620-641): "-1" stands for '-', a dropped '+' for nothing. */
  lemma StartReads(f0: string)
    requires Spaceless(f0) && Preconditions(f0).Ok?
    ensures var (f, prefix) := Preconditions(f0).value;
      var p := if LeadingMinus(f0) then "-" else "";
      var pm := if LeadingMinus(f0) then [false, true] else [];
      ReadInv(f, 0, "", prefix, pm, p) && Spaceless(f) && SignKept(f0) == p + f
  {
    SignCases(f0);
    var (f, prefix) := Preconditions(f0).value;
    if LeadingMinus(f0) {
      SpacelessSuffix(f0, 1);
      assert f0 == [f0[0]] + f;
      MinusStart(f);
    } else {
      if LeadingPlus(f0) {
        SpacelessSuffix(f0, 1);
      }
      PlainStart(f);
    }
  }

  /** The scan of the rest of a rewritten '-' starts from "-1" "*", which reads as "-". */
  lemma MinusStart(f: string)
    ensures ReadInv(f, 0, "", ["-1", "*"], [false, true], "-")
  {
    ReadPush([], [], "-1", false);
    ReadPush(["-1"], [false], "*", true);
    assert ["-1"] + ["*"] == ["-1", "*"] && [false] + [true] == [false, true];
    assert "-" + f[..0] == "-";
  }

  /** Otherwise the scan starts from nothing. */
  lemma PlainStart(f: string)
    ensures ReadInv(f, 0, "", [], [], "")
  {
    assert "" + f[..0] == "";
  }

  /**
   * Tokenize as a whole (lines 456-599): some marking of a successful list
   * reads it back as the input without spaces and without a dropped '+'.
   */
  lemma TokenizeReads(s: string, ts: seq<string>)
    requires Tokenize(s) == Ok(ts)
    ensures exists marks :: ReadsAs(ts, marks, SignKept(RemoveSpaces(s)))
  {
    var marks := TokenizeMarks(s, ts);
  }

  /** The marking itself, built along the scan. */
  lemma {:induction false} TokenizeMarks(s: string, ts: seq<string>) returns (marks: seq<bool>)
    requires Tokenize(s) == Ok(ts)
    ensures ReadsAs(ts, marks, SignKept(RemoveSpaces(s)))
    decreases |s|, 1, 0, 0, 0
  {
    var f0 := RemoveSpaces(s);
    TokenizeUnfold(s);
    assert Spaceless(f0);
    StartReads(f0);
    var (f, prefix) := Preconditions(f0).value;
    var p := if LeadingMinus(f0) then "-" else "";
    marks := ScanReads(f, 0, "", prefix, if LeadingMinus(f0) then [false, true] else [], p, ts);
  }

  /** A "*" between an operand and an operator is never inserted, so that list cannot read as "x+2". */
  lemma MisplacedStar(marks: seq<bool>)
    ensures !ReadsAs(["x", "*", "+", "2"], marks, "x+2")
  {
    var ts := ["x", "*", "+", "2"];
    if Inserted(ts, marks) {
      assert !StartsValue(ts[2]);
      assert !marks[1];
      assert ts[..2] == ["x", "*"] && ts[..1] == ["x"] && ts[..3] == ["x", "*", "+"];
      assert !marks[0] && !marks[2];
      assert ts[..3][..2] == ts[..2] && ts[..2][..1] == ts[..1] && ts[..1][..0] == [];
      assert marks[..3][..2] == marks[..2] && marks[..2][..1] == marks[..1];
      assert Read(ts[..1], marks[..1]) == "x";
      assert Read(ts[..2], marks[..2]) == "x*";
      assert Read(ts[..3], marks[..3]) == "x*+";
      assert Read(ts, marks) == "x*+2";
    }
  }
}
