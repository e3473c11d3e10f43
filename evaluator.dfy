/**
 * The evaluator of Function.java: parseNumber, the four contraction passes,
 * parse, getInnermostExpression and the loop of evaluateAt.
 *
 * The working list of evaluateAt is a list of strings in which computed values
 * are stored as String.valueOf(result). Double.parseDouble(String.valueOf(d))
 * gives d back for every double, so such an entry is modelled as `Val(d)`; the
 * tokens of the input stay `Text`.
 *
 * Each pass is a recursive function over the list and the iterator position
 * (the specification), and a method with the iterator loop proved equal to it.
 */
module Evaluator {
  import opened Results
  import opened Numbers
  import opened Tokens

  datatype Item = Text(text: string) | Val(n: Num)

  /** The exceptions evaluation can raise, and non-termination of the evaluateAt loop. */
  datatype EvalError =
    | IndexOutOfRange
    | NumberFormat(text: string)
    | NotInDomain(arg: Num)
    | DivisionNotInDomain(divisor: Item)
    | Diverges

  /** parseNumber: "e" and "pi" are the constants; anything else goes to Double.parseDouble. */
  function ParseNumber(lib: MathLib, it: Item): (r: Result<Num, EvalError>)
    ensures it.Val? ==> r == Ok(it.n)
    ensures it.Text? ==> (r.Ok? <==> IsNumber(it.text) && it.text != "x")
    ensures r.Err? ==> r == Err(NumberFormat(it.text))
  {
    match it
    case Val(n) => Ok(n)
    case Text(t) =>
      if t == "e" then Ok(Fin(lib.e))
      else if t == "pi" then Ok(Fin(lib.pi))
      else if IsNumeral(t) then Ok(Fin(NumeralValue(t)))
      else Err(NumberFormat(t))
  }

  // ---------------------------------------------------------------------------
  // The binary passes: resolveExponentiation, resolveMultAndDiv, resolveAddAndSub

  datatype Pass = Power | Product | Sum

  /** The operator tokens a pass contracts. */
  predicate IsPassOp(p: Pass, it: Item) {
    it.Text? &&
    match p
    case Power => it.text == "^"
    case Product => it.text == "*" || it.text == "/"
    case Sum => it.text == "+" || it.text == "-"
  }

  /**
   * The value of `a op b`. A quotient that is infinite raises an
   * ArithmeticException naming the divisor token (lines 373-375).
   */
  function Combine(lib: MathLib, op: string, a: Num, b: Num, right: Item): (r: Result<Num, EvalError>)
    ensures r.Err? <==> op == "/" && ((a.Fin? && a.r != 0.0 && b == Fin(0.0)) || (a.Inf? && b.Fin?))
    ensures r.Err? ==> r.error == DivisionNotInDomain(right)
    ensures op == "/" && a == Fin(0.0) && b == Fin(0.0) ==> r == Ok(NaN)
    ensures op == "*" ==> r == Ok(Mul(a, b))
    ensures op == "^" ==> r == Ok(lib.pow(a, b))
    ensures op == "/" && r.Ok? ==> r == Ok(Div(a, b))
    ensures op == "+" ==> r == Ok(Add(a, b))
    ensures op == "-" ==> r == Ok(Sub(a, b))
  {
    if op == "^" then Ok(lib.pow(a, b))
    else if op == "*" then Ok(Mul(a, b))
    else if op == "/" then
      var q := Div(a, b);
      if q.Inf? then Err(DivisionNotInDomain(right)) else Ok(q)
    else if op == "+" then Ok(Add(a, b))
    else Ok(Sub(a, b))
  }

  /** tokens.set(i - 1, result) and the removal of the operator and the right operand. */
  function Contract(w: seq<Item>, i: nat, v: Num): (r: seq<Item>)
    requires 0 < i < |w| - 1
    ensures |r| == |w| - 2
    ensures forall j :: 0 <= j < i - 1 ==> r[j] == w[j]
    ensures r[i - 1] == Val(v)
    ensures forall j :: i <= j < |r| ==> r[j] == w[j + 2]
  {
    w[..i - 1] + [Val(v)] + w[i + 2..]
  }

  /**
   * A binary pass from iterator position i. An operator at i takes the
   * operands at i - 1 and i + 1 (in that order, each fetched and then parsed);
   * the scan resumes at i, just after the result, so operators of one pass
   * group to the left.
   */
  function BinaryFrom(lib: MathLib, p: Pass, w: seq<Item>, i: nat): (r: Result<seq<Item>, EvalError>)
    ensures r.Ok? ==> |r.value| <= |w| && (|r.value| == |w| ==> r.value == w)
    ensures r.Err? ==> r.error.IndexOutOfRange? || r.error.NumberFormat? || (p == Product && r.error.DivisionNotInDomain?)
    decreases |w| - i
  {
    if i >= |w| then Ok(w)
    else if !IsPassOp(p, w[i]) then BinaryFrom(lib, p, w, i + 1)
    else if i == 0 then Err(IndexOutOfRange)
    else
      var a :- ParseNumber(lib, w[i - 1]);
      if i + 1 == |w| then Err(IndexOutOfRange)
      else
        var b :- ParseNumber(lib, w[i + 1]);
        var v :- Combine(lib, w[i].text, a, b, w[i + 1]);
        BinaryFrom(lib, p, Contract(w, i, v), i)
  }

  // ---------------------------------------------------------------------------
  // resolveFunctions

  /** The value of a function name applied to a, as computed at lines 266-303. */
  function ApplyFunction(lib: MathLib, name: string, a: Num): (r: Num)
    requires IsFunctionName(name)
    ensures name == "tan" ==> r == Div(EnhancedSin(lib, a), EnhancedCos(lib, a))
    ensures name == "sqrt" ==> r == lib.sqrt(a)
  {
    match name
    case "sin" => EnhancedSin(lib, a)
    case "cos" => EnhancedCos(lib, a)
    case "tan" => Div(EnhancedSin(lib, a), EnhancedCos(lib, a))
    case "csc" => Div(Fin(1.0), EnhancedSin(lib, a))
    case "sec" => Div(Fin(1.0), EnhancedCos(lib, a))
    case "cot" => Div(EnhancedCos(lib, a), EnhancedSin(lib, a))
    case "arcsin" => lib.asin(a)
    case "arccos" => lib.acos(a)
    case "arctan" => lib.atan(a)
    case "ln" => lib.log(a)
    case "log" => lib.log10(a)
    case "sinh" => lib.sinh(a)
    case "cosh" => lib.cosh(a)
    case "tanh" => lib.tanh(a)
    case _ => lib.sqrt(a)
  }

  predicate IsFunctionItem(it: Item) {
    it.Text? && IsFunctionName(it.text)
  }

  /**
   * The function pass from iterator position i. The last entry is never
   * visited; an entry whose successor does not parse is skipped (the
   * NumberFormatException is caught); a function name followed by a number is
   * replaced by its value and the scan resumes after it.
   */
  function FunFrom(lib: MathLib, w: seq<Item>, i: nat): (r: Result<seq<Item>, EvalError>)
    ensures r.Ok? ==> |r.value| <= |w| && (|r.value| == |w| ==> r.value == w)
    ensures r.Err? ==> r.error.NotInDomain?
    ensures r.Err? ==> exists j :: i <= j < |w| && IsFunctionItem(w[j]) && Bad(ApplyFunction(lib, w[j].text, r.error.arg))
    decreases |w| - i
  {
    if i + 1 >= |w| then Ok(w)
    else
      match ParseNumber(lib, w[i + 1])
      case Err(_) => FunFrom(lib, w, i + 1)
      case Ok(a) =>
        if IsFunctionItem(w[i]) then
          var v := ApplyFunction(lib, w[i].text, a);
          if Bad(v) then Err(NotInDomain(a))
          else FunFrom(lib, w[..i] + [Val(v)] + w[i + 2..], i + 1)
        else FunFrom(lib, w, i + 1)
  }

  // ---------------------------------------------------------------------------
  // parse and getInnermostExpression

  /**
   * parse: the four passes in order, then the first entry is replaced by its
   * parsed value (which turns a lone "e" or "pi" into a number).
   */
  function ParseGroup(lib: MathLib, g: seq<Item>): (r: Result<seq<Item>, EvalError>)
    ensures r.Ok? ==> 0 < |r.value| <= |g| && r.value[0].Val?
    ensures g == [] ==> r == Err(IndexOutOfRange)
  {
    var g1 :- BinaryFrom(lib, Power, g, 0);
    var g2 :- FunFrom(lib, g1, 0);
    var g3 :- BinaryFrom(lib, Product, g2, 0);
    var g4 :- BinaryFrom(lib, Sum, g3, 0);
    if g4 == [] then Err(IndexOutOfRange)
    else
      var n :- ParseNumber(lib, g4[0]);
      Ok(g4[0 := Val(n)])
  }

  /** tokens.lastIndexOf("(") */
  function LastOpen(w: seq<Item>): (r: Option<nat>)
    ensures r.None? <==> Text("(") !in w
    ensures r.Some? ==> r.value < |w| && w[r.value] == Text("(")
                        && forall j :: r.value < j < |w| ==> w[j] != Text("(")
  {
    if w == [] then None
    else if w[|w| - 1] == Text("(") then Some(|w| - 1)
    else
      var r := LastOpen(w[..|w| - 1]);
      assert w == w[..|w| - 1] + [w[|w| - 1]];
      r
  }

  /** The index of the first ")" at or after index j. */
  function CloseFrom(w: seq<Item>, j: nat): (r: Option<nat>)
    requires j <= |w|
    ensures r.None? <==> forall k :: j <= k < |w| ==> w[k] != Text(")")
    ensures r.Some? ==> j <= r.value < |w| && w[r.value] == Text(")")
                        && forall k :: j <= k < r.value ==> w[k] != Text(")")
    decreases |w| - j
  {
    if j == |w| then None
    else if w[j] == Text(")") then Some(j)
    else CloseFrom(w, j + 1)
  }

  /** What getInnermostExpression returns: the whole list, or the span between two parentheses. */
  datatype Span = Whole | Group(open: nat, close: nat)

  /**
   * getInnermostExpression: the last "(" and the first ")" after it; the whole
   * list when either is missing.
   */
  function Innermost(w: seq<Item>): (r: Span)
    ensures r.Group? ==> r.open < r.close < |w| && w[r.open] == Text("(") && w[r.close] == Text(")")
    ensures r.Group? ==> forall j :: r.open < j < |w| ==> w[j] != Text("(")
    ensures r.Group? ==> forall j :: r.open < j < r.close ==> w[j] != Text(")")
    ensures r.Whole? ==> Text("(") !in w
                         || exists s :: 0 <= s < |w| && w[s] == Text("(")
                                        && (forall j :: s < j < |w| ==> w[j] != Text("(") && w[j] != Text(")"))
  {
    match LastOpen(w)
    case None => Whole
    case Some(s) =>
      match CloseFrom(w, s)
      case None => Whole
      case Some(e) => Group(s, e)
  }

  /**
   * One iteration of the loop of evaluateAt: the innermost group is parsed in
   * place; the parentheses around it are removed first (the subList view).
   */
  function EvalStep(lib: MathLib, w: seq<Item>): (r: Result<seq<Item>, EvalError>)
    ensures r.Ok? ==> |r.value| <= |w|
    ensures r.Ok? && Innermost(w).Group? ==> |r.value| <= |w| - 2
  {
    match Innermost(w)
    case Whole => ParseGroup(lib, w)
    case Group(s, e) =>
      var g :- ParseGroup(lib, w[s + 1..e]);
      Ok(w[..s] + g + w[e + 1..])
  }

  /** Whether an entry still needs parsing; used in the termination measure. */
  function Unparsed(w: seq<Item>): nat {
    if w != [] && w[0].Text? then 1 else 0
  }

  /**
   * The loop `while (tokens.size() > 1)` of evaluateAt and the final
   * parseNumber. A step that leaves the list as it was would be repeated by the
   * source forever; that is reported as Diverges.
   */
  function EvaluateTokens(lib: MathLib, w: seq<Item>): (r: Result<Num, EvalError>)
    ensures w == [] ==> r == Err(IndexOutOfRange)
    ensures |w| == 1 && w[0].Val? ==> r == Ok(w[0].n)
    ensures |w| > 1 && EvalStep(lib, w).Err? ==> r == Err(EvalStep(lib, w).error)
    decreases |w|, Unparsed(w)
  {
    if |w| <= 1 then
      if w == [] then Err(IndexOutOfRange) else ParseNumber(lib, w[0])
    else
      match EvalStep(lib, w)
      case Err(e) => Err(e)
      case Ok(next) =>
        if next == w then Err(Diverges)
        else
          StepMeasure(lib, w);
          EvaluateTokens(lib, next)
  }

  /** A step that changes the list makes it shorter, or parses the first entry. */
  lemma StepMeasure(lib: MathLib, w: seq<Item>)
    requires EvalStep(lib, w).Ok? && EvalStep(lib, w).value != w
    ensures var next := EvalStep(lib, w).value;
            |next| < |w| || (|next| == |w| && Unparsed(next) < Unparsed(w))
  {
    match Innermost(w)
    case Whole => GroupMeasure(lib, w);
    case Group(s, e) => GroupMeasure(lib, w[s + 1..e]);
  }

  /** parse shortens its group, or only parses the first entry. */
  lemma GroupMeasure(lib: MathLib, g: seq<Item>)
    requires ParseGroup(lib, g).Ok?
    ensures var r := ParseGroup(lib, g).value;
            && |r| <= |g| && r != []
            && (|r| == |g| ==> r == g[0 := r[0]] && r[0].Val? && (g[0].Val? ==> r == g))
  {
  }

  /** The working copy of evaluateAt: every "x" replaced by the value. */
  function Substitute(ts: seq<string>, v: Num): (r: seq<Item>)
    ensures |r| == |ts|
    ensures forall j :: 0 <= j < |ts| ==> r[j] == (if ts[j] == "x" then Val(v) else Text(ts[j]))
    ensures forall j :: 0 <= j < |r| ==> r[j] != Text("x")
  {
    if ts == [] then []
    else [if ts[0] == "x" then Val(v) else Text(ts[0])] + Substitute(ts[1..], v)
  }

  // ---------------------------------------------------------------------------
  // The passes as the source runs them: an iterator loop over a list

  /** resolveExponentiation, resolveMultAndDiv and resolveAddAndSub. */
  method ResolveBinary(lib: MathLib, p: Pass, w: seq<Item>) returns (r: Result<seq<Item>, EvalError>)
    ensures r == BinaryFrom(lib, p, w, 0)
  {
    var t := w;
    var i := 0;
    while i < |t|
      invariant i <= |t|
      invariant BinaryFrom(lib, p, t, i) == BinaryFrom(lib, p, w, 0)
      decreases |t| - i
    {
      if IsPassOp(p, t[i]) {
        if i == 0 {
          return Err(IndexOutOfRange);
        }
        var a :- ParseNumber(lib, t[i - 1]);
        if i + 1 == |t| {
          return Err(IndexOutOfRange);
        }
        var b :- ParseNumber(lib, t[i + 1]);
        var v :- Combine(lib, t[i].text, a, b, t[i + 1]);
        // set(i - 1, result), then remove the operator and the right operand
        t := t[..i - 1] + [Val(v)] + t[i + 2..];
      } else {
        i := i + 1;
      }
    }
    return Ok(t);
  }

  /** resolveFunctions */
  method ResolveFunctions(lib: MathLib, w: seq<Item>) returns (r: Result<seq<Item>, EvalError>)
    ensures r == FunFrom(lib, w, 0)
  {
    var t := w;
    if |t| == 1 {
      return Ok(t);
    }
    var i := 0;
    while i < |t|
      invariant FunFrom(lib, t, i) == FunFrom(lib, w, 0)
      decreases |t| - i
    {
      if i == |t| - 1 {
        return Ok(t);
      }
      var n := ParseNumber(lib, t[i + 1]);
      if n.Ok? && IsFunctionItem(t[i]) {
        var v := ApplyFunction(lib, t[i].text, n.value);
        if Bad(v) {
          return Err(NotInDomain(n.value));
        }
        t := t[..i] + [Val(v)] + t[i + 2..];
      }
      i := i + 1;
    }
    return Ok(t);
  }

  /** getInnermostExpression: which span the loop of evaluateAt parses next. */
  method GetInnermostExpression(w: seq<Item>) returns (sp: Span)
    ensures sp == Innermost(w)
  {
    var start := LastOpen(w);
    if start.None? {
      return Whole;
    }
    var s := start.value;
    var i := s;
    while i < |w| && w[i] != Text(")")
      invariant s <= i <= |w|
      invariant CloseFrom(w, i) == CloseFrom(w, s)
      decreases |w| - i
    {
      i := i + 1;
    }
    if i == |w| {
      return Whole;
    }
    return Group(s, i);
  }

  /** parse */
  method Parse(lib: MathLib, g: seq<Item>) returns (r: Result<seq<Item>, EvalError>)
    ensures r == ParseGroup(lib, g)
  {
    var g1 :- ResolveBinary(lib, Power, g);
    var g2 :- ResolveFunctions(lib, g1);
    var g3 :- ResolveBinary(lib, Product, g2);
    var g4 :- ResolveBinary(lib, Sum, g3);
    if g4 == [] {
      return Err(IndexOutOfRange);
    }
    var n :- ParseNumber(lib, g4[0]);
    return Ok(g4[0 := Val(n)]);
  }

  /** One iteration of the loop of evaluateAt: parse(getInnermostExpression(tokens)). */
  method ParseInnermost(lib: MathLib, w: seq<Item>) returns (r: Result<seq<Item>, EvalError>)
    ensures r == EvalStep(lib, w)
  {
    var span := GetInnermostExpression(w);
    match span {
      case Whole =>
        r := Parse(lib, w);
      case Group(s, e) =>
        // the subList view without its parentheses is parsed in place
        var g :- Parse(lib, w[s + 1..e]);
        r := Ok(w[..s] + g + w[e + 1..]);
    }
  }

  // ---------------------------------------------------------------------------
  // What the passes compute

  /** The number of operators of pass p in w. */
  function OpCount(p: Pass, w: seq<Item>): nat {
    if w == [] then 0 else (if IsPassOp(p, w[0]) then 1 else 0) + OpCount(p, w[1..])
  }

  /**
   * Every contraction removes one operator and its right operand (which,
   * having parsed, is no operator): the list shrinks by two per operator.
   */
  lemma {:induction false} BinaryLength(lib: MathLib, p: Pass, w: seq<Item>, i: nat)
    requires i <= |w| && BinaryFrom(lib, p, w, i).Ok?
    ensures |BinaryFrom(lib, p, w, i).value| == |w| - 2 * OpCount(p, w[i..])
    decreases |w| - i
  {
    if i == |w| {
      assert w[i..] == [];
    } else if !IsPassOp(p, w[i]) {
      assert w[i..][1..] == w[i + 1..];
      BinaryLength(lib, p, w, i + 1);
    } else {
      var a := ParseNumber(lib, w[i - 1]).value;
      var b := ParseNumber(lib, w[i + 1]).value;
      var v := Combine(lib, w[i].text, a, b, w[i + 1]).value;
      var c := Contract(w, i, v);
      assert w[i..][1..] == w[i + 1..];
      assert w[i + 1..][1..] == w[i + 2..];
      assert c[i..] == w[i + 2..];
      BinaryLength(lib, p, c, i);
    }
  }

  /** A successful pass leaves no operator of its own kind behind. */
  lemma {:induction false} BinaryClears(lib: MathLib, p: Pass, w: seq<Item>, i: nat)
    requires BinaryFrom(lib, p, w, i).Ok?
    requires forall j :: 0 <= j < i && j < |w| ==> !IsPassOp(p, w[j])
    ensures var r := BinaryFrom(lib, p, w, i).value;
            forall j :: 0 <= j < |r| ==> !IsPassOp(p, r[j])
    decreases |w| - i
  {
    if i < |w| {
      if !IsPassOp(p, w[i]) {
        BinaryClears(lib, p, w, i + 1);
      } else {
        var a := ParseNumber(lib, w[i - 1]).value;
        var b := ParseNumber(lib, w[i + 1]).value;
        var v := Combine(lib, w[i].text, a, b, w[i + 1]).value;
        BinaryClears(lib, p, Contract(w, i, v), i);
      }
    }
  }

  /** A list with no operator of the pass comes back unchanged. */
  lemma BinaryIdentity(lib: MathLib, p: Pass, w: seq<Item>)
    requires forall j :: 0 <= j < |w| ==> !IsPassOp(p, w[j])
    ensures BinaryFrom(lib, p, w, 0) == Ok(w)
  {
    NoOpsFrom(lib, p, w, 0);
  }

  lemma {:induction false} NoOpsFrom(lib: MathLib, p: Pass, w: seq<Item>, i: nat)
    requires forall j :: i <= j < |w| ==> !IsPassOp(p, w[j])
    ensures BinaryFrom(lib, p, w, i) == Ok(w)
    decreases |w| - i
  {
    if i < |w| {
      NoOpsFrom(lib, p, w, i + 1);
    }
  }

  /** A pass adds no operator of another kind: it only removes entries and inserts values. */
  lemma {:induction false} BinaryKeeps(lib: MathLib, p: Pass, q: Pass, w: seq<Item>, i: nat)
    requires BinaryFrom(lib, p, w, i).Ok?
    requires forall j :: 0 <= j < |w| ==> !IsPassOp(q, w[j])
    ensures var r := BinaryFrom(lib, p, w, i).value;
            forall j :: 0 <= j < |r| ==> !IsPassOp(q, r[j])
    decreases |w| - i
  {
    if i < |w| {
      if !IsPassOp(p, w[i]) {
        BinaryKeeps(lib, p, q, w, i + 1);
      } else {
        var a := ParseNumber(lib, w[i - 1]).value;
        var b := ParseNumber(lib, w[i + 1]).value;
        var v := Combine(lib, w[i].text, a, b, w[i + 1]).value;
        BinaryKeeps(lib, p, q, Contract(w, i, v), i);
      }
    }
  }

  /** The function pass adds no operator either. */
  lemma {:induction false} FunKeeps(lib: MathLib, q: Pass, w: seq<Item>, i: nat)
    requires FunFrom(lib, w, i).Ok?
    requires forall j :: 0 <= j < |w| ==> !IsPassOp(q, w[j])
    ensures var r := FunFrom(lib, w, i).value;
            forall j :: 0 <= j < |r| ==> !IsPassOp(q, r[j])
    decreases |w| - i
  {
    if i + 1 < |w| {
      match ParseNumber(lib, w[i + 1])
      case Err(_) => FunKeeps(lib, q, w, i + 1);
      case Ok(a) =>
        if IsFunctionItem(w[i]) {
          var v := ApplyFunction(lib, w[i].text, a);
          FunKeeps(lib, q, w[..i] + [Val(v)] + w[i + 2..], i + 1);
        } else {
          FunKeeps(lib, q, w, i + 1);
        }
    }
  }

  /** After parse no binary operator is left in the group, and its first entry is a value. */
  lemma ParseClears(lib: MathLib, g: seq<Item>)
    requires ParseGroup(lib, g).Ok?
    ensures var r := ParseGroup(lib, g).value;
            && r != [] && r[0].Val?
            && forall q: Pass, j :: 0 <= j < |r| ==> !IsPassOp(q, r[j])
  {
    var g1 := BinaryFrom(lib, Power, g, 0).value;
    BinaryClears(lib, Power, g, 0);
    var g2 := FunFrom(lib, g1, 0).value;
    FunKeeps(lib, Power, g1, 0);
    var g3 := BinaryFrom(lib, Product, g2, 0).value;
    BinaryClears(lib, Product, g2, 0);
    BinaryKeeps(lib, Product, Power, g2, 0);
    var g4 := BinaryFrom(lib, Sum, g3, 0).value;
    BinaryClears(lib, Sum, g3, 0);
    BinaryKeeps(lib, Sum, Power, g3, 0);
    BinaryKeeps(lib, Sum, Product, g3, 0);
    var r := ParseGroup(lib, g).value;
    forall q: Pass, j | 0 <= j < |r|
      ensures !IsPassOp(q, r[j])
    {
      if j == 0 {
        assert r[0].Val?;
      } else {
        assert r[j] == g4[j];
        match q
        case Power =>
        case Product =>
        case Sum =>
      }
    }
  }

  // ---------------------------------------------------------------------------
  // Associativity, domains, and two parses spelled out

  /** One contraction of a binary pass, unfolded. */
  lemma BinaryStep(lib: MathLib, p: Pass, w: seq<Item>, i: nat, a: Num, b: Num, v: Num)
    requires 0 < i < |w| - 1 && IsPassOp(p, w[i])
    requires ParseNumber(lib, w[i - 1]) == Ok(a) && ParseNumber(lib, w[i + 1]) == Ok(b)
    requires Combine(lib, w[i].text, a, b, w[i + 1]) == Ok(v)
    ensures BinaryFrom(lib, p, w, i) == BinaryFrom(lib, p, Contract(w, i, v), i)
  {
  }

  /** Two operators of one pass group to the left: a op1 b op2 c is (a op1 b) op2 c. */
  lemma LeftAssociative(lib: MathLib, p: Pass, a: Num, op1: string, b: Num, op2: string, c: Num)
    requires IsPassOp(p, Text(op1)) && IsPassOp(p, Text(op2))
    requires Combine(lib, op1, a, b, Val(b)).Ok?
    ensures var ab := Combine(lib, op1, a, b, Val(b)).value;
            BinaryFrom(lib, p, [Val(a), Text(op1), Val(b), Text(op2), Val(c)], 0)
              == match Combine(lib, op2, ab, c, Val(c))
                 case Ok(v) => Ok([Val(v)])
                 case Err(e) => Err(e)
  {
    var w := [Val(a), Text(op1), Val(b), Text(op2), Val(c)];
    var ab := Combine(lib, op1, a, b, Val(b)).value;
    var w2 := [Val(ab), Text(op2), Val(c)];
    assert BinaryFrom(lib, p, w, 0) == BinaryFrom(lib, p, w, 1);
    assert Contract(w, 1, ab) == w2;
    BinaryStep(lib, p, w, 1, a, b, ab);
    match Combine(lib, op2, ab, c, Val(c))
    case Ok(v) =>
      assert Contract(w2, 1, v) == [Val(v)];
      BinaryStep(lib, p, w2, 1, ab, c, v);
      assert BinaryFrom(lib, p, [Val(v)], 1) == Ok([Val(v)]);
    case Err(e) =>
      assert BinaryFrom(lib, p, w2, 1) == Err(e);
  }

  /** A group whose power pass leaves one value parses to that value. */
  lemma PowerOnly(lib: MathLib, g: seq<Item>, v: Num)
    requires BinaryFrom(lib, Power, g, 0) == Ok([Val(v)])
    ensures ParseGroup(lib, g) == Ok([Val(v)])
  {
    assert FunFrom(lib, [Val(v)], 0) == Ok([Val(v)]);
    NoOpsFrom(lib, Product, [Val(v)], 0);
    NoOpsFrom(lib, Sum, [Val(v)], 0);
    assert [Val(v)][0 := Val(v)] == [Val(v)];
  }

  /** The group 2^3^2 parses to (2^3)^2. */
  lemma PowerChain(lib: MathLib, g: seq<Item>)
    requires g == [Text("2"), Text("^"), Text("3"), Text("^"), Text("2")]
    ensures ParseGroup(lib, g) == Ok([Val(lib.pow(lib.pow(Fin(2.0), Fin(3.0)), Fin(2.0)))])
  {
    assert ParseNumber(lib, Text("2")) == Ok(Fin(2.0)) by {
      assert "2"[1..] == [];
    }
    assert ParseNumber(lib, Text("3")) == Ok(Fin(3.0)) by {
      assert "3"[1..] == [];
    }
    var p1 := lib.pow(Fin(2.0), Fin(3.0));
    var p2 := lib.pow(p1, Fin(2.0));
    var g2 := [Val(p1), Text("^"), Text("2")];
    assert BinaryFrom(lib, Power, g, 0) == BinaryFrom(lib, Power, g, 1);
    assert Contract(g, 1, p1) == g2;
    BinaryStep(lib, Power, g, 1, Fin(2.0), Fin(3.0), p1);
    assert Contract(g2, 1, p2) == [Val(p2)];
    BinaryStep(lib, Power, g2, 1, p1, Fin(2.0), p2);
    assert BinaryFrom(lib, Power, [Val(p2)], 1) == Ok([Val(p2)]);
    PowerOnly(lib, g, p2);
  }

  /** A quotient 0/0 is NaN and passes; a non-zero number over zero raises, naming the divisor. */
  lemma DivisionDomain(lib: MathLib, a: Num, zero: Item)
    requires ParseNumber(lib, zero) == Ok(Fin(0.0))
    ensures a == Fin(0.0) ==> ParseGroup(lib, [Val(a), Text("/"), zero]) == Ok([Val(NaN)])
    ensures a.Fin? && a.r != 0.0 ==> ParseGroup(lib, [Val(a), Text("/"), zero]) == Err(DivisionNotInDomain(zero))
  {
    var g := [Val(a), Text("/"), zero];
    assert zero.Text? ==> zero.text != "^" && zero.text != "/";
    NoOpsFrom(lib, Power, g, 0);
    assert FunFrom(lib, g, 0) == FunFrom(lib, g, 1) == FunFrom(lib, g, 2) == Ok(g);
    assert BinaryFrom(lib, Product, g, 0) == BinaryFrom(lib, Product, g, 1);
    if a == Fin(0.0) {
      assert Contract(g, 1, NaN) == [Val(NaN)];
      BinaryStep(lib, Product, g, 1, a, Fin(0.0), NaN);
      assert BinaryFrom(lib, Product, [Val(NaN)], 1) == Ok([Val(NaN)]);
      NoOpsFrom(lib, Sum, [Val(NaN)], 0);
      assert [Val(NaN)][0 := Val(NaN)] == [Val(NaN)];
    }
  }

  /** A function applied to a value: the value of the function, or the domain error naming the argument. */
  lemma FunctionDomain(lib: MathLib, name: string, a: Num)
    requires IsFunctionName(name)
    ensures var v := ApplyFunction(lib, name, a);
            ParseGroup(lib, [Text(name), Val(a)]) == if Bad(v) then Err(NotInDomain(a)) else Ok([Val(v)])
  {
    var v := ApplyFunction(lib, name, a);
    var g := [Text(name), Val(a)];
    NoOpsFrom(lib, Power, g, 0);
    if !Bad(v) {
      assert g[..0] + [Val(v)] + g[2..] == [Val(v)];
      assert FunFrom(lib, g, 0) == FunFrom(lib, [Val(v)], 1) == Ok([Val(v)]);
      NoOpsFrom(lib, Product, [Val(v)], 0);
      NoOpsFrom(lib, Sum, [Val(v)], 0);
      assert [Val(v)][0 := Val(v)] == [Val(v)];
    }
  }

  /**
   * enhancedSin is exactly 0 at a multiple of pi and enhancedCos at an odd
   * multiple of pi/2, so sin and cos parse to 0 there, not to a small residue.
   */
  lemma ExactZeros(lib: MathLib, a: Num)
    ensures lib.isMultipleOfPi(a) ==> ParseGroup(lib, [Text("sin"), Val(a)]) == Ok([Val(Fin(0.0))])
    ensures lib.isOddMultipleOfHalfPi(a) ==> ParseGroup(lib, [Text("cos"), Val(a)]) == Ok([Val(Fin(0.0))])
  {
    FunctionDomain(lib, "sin", a);
    FunctionDomain(lib, "cos", a);
  }

  /**
   * At those exact zeros the functions that divide by sine or cosine have no
   * finite value, and parse raises the domain error naming the argument.
   */
  lemma TrigZerosAreDomainErrors(lib: MathLib, a: Num)
    ensures lib.isMultipleOfPi(a) ==> Bad(ApplyFunction(lib, "csc", a)) && Bad(ApplyFunction(lib, "cot", a))
    ensures lib.isOddMultipleOfHalfPi(a) ==> Bad(ApplyFunction(lib, "tan", a)) && Bad(ApplyFunction(lib, "sec", a))
    ensures lib.isMultipleOfPi(a) ==>
              && ParseGroup(lib, [Text("csc"), Val(a)]) == Err(NotInDomain(a))
              && ParseGroup(lib, [Text("cot"), Val(a)]) == Err(NotInDomain(a))
    ensures lib.isOddMultipleOfHalfPi(a) ==>
              && ParseGroup(lib, [Text("tan"), Val(a)]) == Err(NotInDomain(a))
              && ParseGroup(lib, [Text("sec"), Val(a)]) == Err(NotInDomain(a))
  {
    FunctionDomain(lib, "csc", a);
    FunctionDomain(lib, "cot", a);
    FunctionDomain(lib, "tan", a);
    FunctionDomain(lib, "sec", a);
  }

  /** A function name followed by an entry that does not parse is passed over, not reported. */
  lemma FunctionArgumentMissing(lib: MathLib, w: seq<Item>, i: nat)
    requires i + 1 < |w| && IsFunctionItem(w[i]) && ParseNumber(lib, w[i + 1]).Err?
    ensures FunFrom(lib, w, i) == FunFrom(lib, w, i + 1)
  {
  }

  /**
   * A function name followed by something that does not parse is passed over.
   * In sin cos v the sine is skipped, the cosine applied, and the sine then
   * meets the final parseNumber.
   */
  lemma FunctionSkipped(lib: MathLib, a: Num)
    requires !Bad(EnhancedCos(lib, a))
    ensures FunFrom(lib, [Text("sin"), Text("cos"), Val(a)], 0) == Ok([Text("sin"), Val(EnhancedCos(lib, a))])
    ensures ParseGroup(lib, [Text("sin"), Text("cos"), Val(a)]) == Err(NumberFormat("sin"))
  {
    var w := [Text("sin"), Text("cos"), Val(a)];
    var c := EnhancedCos(lib, a);
    var w2 := [Text("sin"), Val(c)];
    assert !IsNumeral("cos") by {
      assert !IsUnsignedNumeral("cos");
    }
    assert !IsNumeral("sin") by {
      assert !IsUnsignedNumeral("sin");
    }
    assert w[..1] + [Val(c)] + w[3..] == w2;
    assert FunFrom(lib, w, 0) == FunFrom(lib, w, 1) == FunFrom(lib, w2, 2) == Ok(w2);
    NoOpsFrom(lib, Power, w, 0);
    NoOpsFrom(lib, Product, w2, 0);
    NoOpsFrom(lib, Sum, w2, 0);
  }

  // ---------------------------------------------------------------------------
  // Unfolding the evaluation a round at a time

  /** The function pass leaves a list without function names as it is. */
  lemma {:induction false} NoFunctionsFrom(lib: MathLib, w: seq<Item>, i: nat)
    requires forall j :: i <= j < |w| ==> !IsFunctionItem(w[j])
    ensures FunFrom(lib, w, i) == Ok(w)
    decreases |w| - i
  {
    if i + 1 < |w| {
      NoFunctionsFrom(lib, w, i + 1);
    }
  }

  /** Every function name has at least two letters. */
  lemma FunctionNameLength(t: string)
    requires IsFunctionName(t)
    ensures |t| >= 2
  {
  }

  /** The function pass leaves a list of values and one-character tokens as it is. */
  lemma ShortTokensFrom(lib: MathLib, w: seq<Item>)
    requires forall j :: 0 <= j < |w| ==> w[j].Val? || |w[j].text| < 2
    ensures FunFrom(lib, w, 0) == Ok(w)
  {
    forall j | 0 <= j < |w|
      ensures !IsFunctionItem(w[j])
    {
      if IsFunctionItem(w[j]) {
        FunctionNameLength(w[j].text);
      }
    }
    NoFunctionsFrom(lib, w, 0);
  }

  /** parse, pass by pass. */
  lemma ParseRounds(lib: MathLib, g: seq<Item>, g1: seq<Item>, g2: seq<Item>, g3: seq<Item>, g4: seq<Item>, n: Num)
    requires BinaryFrom(lib, Power, g, 0) == Ok(g1) && FunFrom(lib, g1, 0) == Ok(g2)
    requires BinaryFrom(lib, Product, g2, 0) == Ok(g3) && BinaryFrom(lib, Sum, g3, 0) == Ok(g4)
    requires g4 != [] && ParseNumber(lib, g4[0]) == Ok(n)
    ensures ParseGroup(lib, g) == Ok(g4[0 := Val(n)])
  {
  }

  /** Without parentheses a round parses the whole list. */
  lemma WholeRound(lib: MathLib, w: seq<Item>)
    requires Text("(") !in w
    ensures EvalStep(lib, w) == ParseGroup(lib, w)
  {
  }

  /** A round that changes the list is followed by the next one. */
  lemma EvaluateRound(lib: MathLib, w: seq<Item>, next: seq<Item>)
    requires |w| > 1 && EvalStep(lib, w) == Ok(next) && next != w
    ensures EvaluateTokens(lib, w) == EvaluateTokens(lib, next)
  {
  }

  /** A round that leaves the list as it was repeats forever. */
  lemma EvaluateStuck(lib: MathLib, w: seq<Item>)
    requires |w| > 1 && EvalStep(lib, w) == Ok(w)
    ensures EvaluateTokens(lib, w) == Err(Diverges)
  {
  }

  // ---------------------------------------------------------------------------
  // Each round removes one pair of parentheses

  /** Every entry of r is a value or an entry of w: a pass brings in no new token. */
  predicate NoNewText(r: seq<Item>, w: seq<Item>) {
    forall j :: 0 <= j < |r| ==> r[j].Val? || r[j] in w
  }

  lemma {:induction false} BinaryNoNewText(lib: MathLib, p: Pass, w: seq<Item>, i: nat)
    requires BinaryFrom(lib, p, w, i).Ok?
    ensures NoNewText(BinaryFrom(lib, p, w, i).value, w)
    decreases |w| - i
  {
    if i < |w| {
      if !IsPassOp(p, w[i]) {
        BinaryNoNewText(lib, p, w, i + 1);
      } else {
        var a := ParseNumber(lib, w[i - 1]).value;
        var b := ParseNumber(lib, w[i + 1]).value;
        var v := Combine(lib, w[i].text, a, b, w[i + 1]).value;
        var c := Contract(w, i, v);
        BinaryNoNewText(lib, p, c, i);
        assert NoNewText(c, w) by {
          forall j | 0 <= j < |c|
            ensures c[j].Val? || c[j] in w
          {
            if j < i - 1 {
              assert c[j] == w[j];
            } else if j >= i {
              assert c[j] == w[j + 2];
            }
          }
        }
      }
    }
  }

  lemma {:induction false} FunNoNewText(lib: MathLib, w: seq<Item>, i: nat)
    requires FunFrom(lib, w, i).Ok?
    ensures NoNewText(FunFrom(lib, w, i).value, w)
    decreases |w| - i
  {
    if i + 1 < |w| {
      match ParseNumber(lib, w[i + 1])
      case Err(_) => FunNoNewText(lib, w, i + 1);
      case Ok(a) =>
        if IsFunctionItem(w[i]) {
          var v := ApplyFunction(lib, w[i].text, a);
          var c := w[..i] + [Val(v)] + w[i + 2..];
          FunNoNewText(lib, c, i + 1);
          assert NoNewText(c, w) by {
            forall j | 0 <= j < |c|
              ensures c[j].Val? || c[j] in w
            {
              if j < i {
                assert c[j] == w[j];
              } else if j > i {
                assert c[j] == w[j + 1];
              }
            }
          }
        } else {
          FunNoNewText(lib, w, i + 1);
        }
    }
  }

  /** parse brings in no new token either. */
  lemma ParseNoNewText(lib: MathLib, g: seq<Item>)
    requires ParseGroup(lib, g).Ok?
    ensures NoNewText(ParseGroup(lib, g).value, g)
  {
    var g1 := BinaryFrom(lib, Power, g, 0).value;
    BinaryNoNewText(lib, Power, g, 0);
    var g2 := FunFrom(lib, g1, 0).value;
    FunNoNewText(lib, g1, 0);
    var g3 := BinaryFrom(lib, Product, g2, 0).value;
    BinaryNoNewText(lib, Product, g2, 0);
    BinaryNoNewText(lib, Sum, g3, 0);
  }

  /**
   * A round that finds a parenthesised group removes exactly one "(" and one
   * ")": the search moves outward by one level.
   */
  lemma RoundRemovesParens(lib: MathLib, w: seq<Item>)
    requires Innermost(w).Group? && EvalStep(lib, w).Ok?
    ensures var next := EvalStep(lib, w).value;
            && multiset(next)[Text("(")] == multiset(w)[Text("(")] - 1
            && multiset(next)[Text(")")] == multiset(w)[Text(")")] - 1
  {
    var s, e := Innermost(w).open, Innermost(w).close;
    var g := ParseGroup(lib, w[s + 1..e]).value;
    assert EvalStep(lib, w).value == w[..s] + g + w[e + 1..];
    assert Text("(") !in w[s + 1..e] && Text(")") !in w[s + 1..e];
    assert Text("(") !in g && Text(")") !in g by {
      ParseNoNewText(lib, w[s + 1..e]);
    }
    SpliceCounts(w, s, e, g);
  }

  /** Replacing w[s..e + 1], which holds one "(" and one ")", by g without parentheses removes one of each. */
  lemma SpliceCounts(w: seq<Item>, s: nat, e: nat, g: seq<Item>)
    requires s < e < |w| && w[s] == Text("(") && w[e] == Text(")")
    requires Text("(") !in w[s + 1..e] && Text(")") !in w[s + 1..e]
    requires Text("(") !in g && Text(")") !in g
    ensures multiset(w[..s] + g + w[e + 1..])[Text("(")] == multiset(w)[Text("(")] - 1
    ensures multiset(w[..s] + g + w[e + 1..])[Text(")")] == multiset(w)[Text(")")] - 1
  {
    assert w == w[..s] + [Text("(")] + w[s + 1..e] + [Text(")")] + w[e + 1..];
  }
}
