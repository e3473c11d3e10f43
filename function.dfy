/**
 * The Function class: the token list built once from the input string, and
 * evaluation of that list at a value.
 */
module FunctionObject {
  import opened Results
  import opened Numbers
  import opened Tokens
  import opened Tokenizer
  import opened TokenizerProps
  import opened TokenizerContent
  import opened Evaluator

  /** What the static evaluate can raise. */
  datatype EvaluateError = ContainsVariable | Rejected(parse: ParseError) | Failed(eval: EvalError)

  /** Spaces once removed stay removed. */
  lemma {:induction false} RemoveSpacesIdempotent(s: string)
    ensures RemoveSpaces(RemoveSpaces(s)) == RemoveSpaces(s)
  {
    if s != [] {
      RemoveSpacesIdempotent(s[1..]);
      if s[0] != ' ' {
        var r := RemoveSpaces(s[1..]);
        assert ([s[0]] + r)[1..] == r;
      }
    }
  }

  /** The tokens do not depend on the spaces. */
  lemma TokenizeIgnoresSpaces(s: string)
    ensures Tokenize(RemoveSpaces(s)) == Tokenize(s)
  {
    RemoveSpacesIdempotent(s);
  }

  /** What constructing a Function from s and evaluating it at value gives. */
  function EvaluateString(lib: MathLib, s: string, value: Num): Result<Num, EvaluateError> {
    if s == [] then Err(Rejected(EmptyInput))
    else
      match Tokenize(s)
      case Err(e) => Err(Rejected(e))
      case Ok(ts) =>
        match EvaluateTokens(lib, Substitute(ts, value))
        case Err(e) => Err(Failed(e))
        case Ok(n) => Ok(n)
  }

  /** Without 'x' in the input there is no "x" among the tokens, so the value does not matter. */
  lemma ConstantTokens(s: string, ts: seq<string>, v1: Num, v2: Num)
    requires 'x' !in s && Tokenize(s) == Ok(ts)
    ensures "x" !in ts
    ensures Substitute(ts, v1) == Substitute(ts, v2)
  {
    TokenizeProps(s, ts);
    assert multiset(RemoveSpaces(s))['x'] == multiset(s)['x'];
    assert forall j :: 0 <= j < |ts| ==> ts[j] != "x";
  }

  class Function {
    /** The tokens of the function, fixed at construction or by SetFunction. */
    var originalTokens: seq<string>
    /** The function string without its spaces (toString). */
    var expression: string

    /** The stored tokens are the tokens of the stored string. */
    predicate Valid()
      reads this
    {
      RemoveSpaces(expression) == expression && Tokenize(expression) == Ok(originalTokens)
    }

    /** Stores the tokens of a string without spaces. */
    constructor Init(tokens: seq<string>, s: string)
      requires RemoveSpaces(s) == s && Tokenize(s) == Ok(tokens)
      ensures originalTokens == tokens && expression == s && Valid()
    {
      originalTokens := tokens;
      expression := s;
    }

    /**
     * What a consistent object's tokens are: they satisfy the properties of
     * every successful tokenize, and read back in order they spell its string.
     */
    lemma TokenFacts()
      requires Valid()
      ensures Props(expression, originalTokens)
      ensures Spelled(originalTokens) == WithoutStars(SignKept(expression))
    {
      TokenizeProps(expression, originalTokens);
      TokenizeContent(expression, originalTokens);
    }

    /** The constructor: an empty string or one tokenize rejects makes no Function. */
    static method Create(s: string) returns (r: Result<Function, ParseError>)
      ensures s == [] ==> r == Err(EmptyInput)
      ensures s != [] && Tokenize(s).Err? ==> r == Err(Tokenize(s).error)
      ensures s != [] && Tokenize(s).Ok? ==> r.Ok?
      ensures r.Ok? ==> fresh(r.value) && r.value.Valid()
                        && r.value.originalTokens == Tokenize(s).value && r.value.expression == RemoveSpaces(s)
    {
      if s == [] {
        return Err(EmptyInput);
      }
      var tokens := TokenizeString(s);
      if tokens.Err? {
        return Err(tokens.error);
      }
      TokenizeIgnoresSpaces(s);
      RemoveSpacesIdempotent(s);
      var f := new Function.Init(tokens.value, RemoveSpaces(s));
      return Ok(f);
    }

    /** setFunction: on any error the object keeps its tokens and its string. */
    method SetFunction(s: string) returns (r: Result<(), ParseError>)
      modifies this
      ensures s == [] ==> r == Err(EmptyInput)
      ensures s != [] ==> (r.Ok? <==> Tokenize(s).Ok?)
      ensures r.Err? && s != [] ==> r.error == Tokenize(s).error
      ensures r.Err? ==> originalTokens == old(originalTokens) && expression == old(expression)
      ensures r.Ok? ==> originalTokens == Tokenize(s).value && expression == RemoveSpaces(s) && Valid()
    {
      if s == [] {
        return Err(EmptyInput);
      }
      var tokens := TokenizeString(s);
      if tokens.Err? {
        return Err(tokens.error);
      }
      TokenizeIgnoresSpaces(s);
      RemoveSpacesIdempotent(s);
      originalTokens := tokens.value;
      expression := RemoveSpaces(s);
      return Ok(());
    }

    /**
     * evaluateAt(value, false): a fresh copy of the tokens with x replaced by
     * the value, contracted group by group until one entry is left.
     */
    method EvaluateAt(lib: MathLib, value: Num) returns (r: Result<Num, EvalError>)
      ensures r == EvaluateTokens(lib, Substitute(originalTokens, value))
    {
      var tokens := WorkingCopy(originalTokens, value);
      while |tokens| > 1
        invariant EvaluateTokens(lib, tokens) == EvaluateTokens(lib, Substitute(originalTokens, value))
        decreases |tokens|, Unparsed(tokens)
      {
        var next :- ParseInnermost(lib, tokens);
        if next == tokens {
          // the source would parse the same list again, forever
          return Err(Diverges);
        }
        StepMeasure(lib, tokens);
        tokens := next;
      }
      if tokens == [] {
        return Err(EvalError.IndexOutOfRange);
      }
      r := ParseNumber(lib, tokens[0]);
    }
  }

  /** The first two loops of evaluateAt: a copy of the tokens, then x replaced by the value. */
  method WorkingCopy(ts: seq<string>, value: Num) returns (tokens: seq<Item>)
    ensures tokens == Substitute(ts, value)
  {
    tokens := [];
    for i := 0 to |ts|
      invariant |tokens| == i
      invariant forall j :: 0 <= j < i ==> tokens[j] == Text(ts[j])
    {
      tokens := tokens + [Text(ts[i])];
    }
    for i := 0 to |tokens|
      invariant |tokens| == |ts|
      invariant forall j :: 0 <= j < i ==> tokens[j] == Substitute(ts, value)[j]
      invariant forall j :: i <= j < |tokens| ==> tokens[j] == Text(ts[j])
    {
      if ts[i] == "x" {
        tokens := tokens[i := Val(value)];
      }
    }
  }

  /** The static evaluate: no 'x' allowed, then a new Function evaluated at 0. */
  method Evaluate(lib: MathLib, s: string) returns (r: Result<Num, EvaluateError>)
    ensures 'x' in s ==> r == Err(ContainsVariable)
    ensures 'x' !in s ==> r == EvaluateString(lib, s, Fin(0.0))
  {
    for i := 0 to |s|
      invariant 'x' !in s[..i]
    {
      if s[i] == 'x' {
        return Err(ContainsVariable);
      }
      assert s[..i + 1] == s[..i] + [s[i]];
    }
    assert s[..|s|] == s;
    var created := Function.Create(s);
    if created.Err? {
      return Err(Rejected(created.error));
    }
    var f := created.value;
    var v := f.EvaluateAt(lib, Fin(0.0));
    if v.Err? {
      return Err(Failed(v.error));
    }
    return Ok(v.value);
  }

  /** evaluateAt(String): the value is itself an expression without variables, evaluated first. */
  method EvaluateAtExpression(lib: MathLib, f: Function, value: string) returns (r: Result<Num, EvaluateError>)
    ensures 'x' in value ==> r == Err(ContainsVariable)
    ensures 'x' !in value && EvaluateString(lib, value, Fin(0.0)).Err? ==> r == EvaluateString(lib, value, Fin(0.0))
    ensures 'x' !in value && EvaluateString(lib, value, Fin(0.0)).Ok? ==>
              var v := EvaluateString(lib, value, Fin(0.0)).value;
              match EvaluateTokens(lib, Substitute(f.originalTokens, v))
              case Ok(n) => r == Ok(n)
              case Err(e) => r == Err(Failed(e))
  {
    var v :- Evaluate(lib, value);
    var n := f.EvaluateAt(lib, v);
    if n.Err? {
      return Err(Failed(n.error));
    }
    return Ok(n.value);
  }

  /** evaluate gives the value of the expression at any point: it has no variable to depend on. */
  lemma EvaluateConstant(lib: MathLib, s: string, v: Num)
    requires 'x' !in s
    ensures EvaluateString(lib, s, v) == EvaluateString(lib, s, Fin(0.0))
  {
    if s != [] && Tokenize(s).Ok? {
      ConstantTokens(s, Tokenize(s).value, v, Fin(0.0));
    }
  }

  /** Two evaluations at one value see the same copy of the tokens and give the same result. */
  method EvaluateTwice(lib: MathLib, f: Function, value: Num) returns (a: Result<Num, EvalError>, b: Result<Num, EvalError>)
    ensures a == b
  {
    a := f.EvaluateAt(lib, value);
    b := f.EvaluateAt(lib, value);
  }
}
