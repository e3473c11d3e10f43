/**
 * The token vocabulary of Function.java and the small character and string
 * tests the tokenizer is built from (isOperator, isValidToken,
 * containsValidToken, isNumber, frequency).
 *
 * Tokens stay strings, as in the source: a numeral, "e", "pi", "x", one of the
 * fifteen function names, or one of the one-character strings ^ * / + - ( ).
 */
module Tokens {
  import opened Numbers

  /** The characters isOperator accepts, in the order of its array. */
  const OperatorChars: string := "^*/+-()"

  /** The validTokens array: the variable, the two constants and the function names. */
  const ValidTokens: seq<string> := ["x", "e", "pi", "sin", "cos", "tan", "csc", "sec", "cot",
                                     "arcsin", "arccos", "arctan", "ln", "log", "sinh", "cosh", "tanh", "sqrt"]

  const FunctionNames: set<string> := {"sin", "cos", "tan", "csc", "sec", "cot", "arcsin", "arccos",
                                       "arctan", "ln", "log", "sinh", "cosh", "tanh", "sqrt"}

  predicate IsFunctionName(t: string) {
    t in FunctionNames
  }

  /** isOperator: the binary operators and the two parentheses. */
  predicate IsOperator(c: char) {
    c == '^' || c == '*' || c == '/' || c == '+' || c == '-' || c == '(' || c == ')'
  }

  /** The loop of isOperator accepts exactly the characters of its array. */
  lemma OperatorArray(c: char)
    ensures IsOperator(c) <==> c in OperatorChars
  {
  }

  /** isValidToken: s is the variable, a constant name or a function name. */
  predicate IsValidToken(s: string) {
    s == "x" || s == "e" || s == "pi" || IsFunctionName(s)
  }

  /** The loop of isValidToken accepts exactly the strings of the validTokens array. */
  lemma ValidTokenArray(s: string)
    ensures IsValidToken(s) <==> s in ValidTokens
  {
  }

  /** Some word of `words` is a prefix of `rest`. */
  function AnyPrefix(words: seq<string>, rest: string): (b: bool)
    ensures b <==> exists k :: 0 <= k < |words| && words[k] <= rest
  {
    if words == [] then false
    else
      var found := |rest| >= |words[0]| && rest[..|words[0]|] == words[0];
      assert found <==> words[0] <= rest;
      if found then true
      else
        var b := AnyPrefix(words[1..], rest);
        assert forall k :: 1 <= k < |words| ==> words[k] == words[1..][k - 1];
        b
  }

  /** containsValidToken: a valid token starts at index `start` of s. */
  function ContainsValidToken(s: string, start: nat): (b: bool)
    requires start <= |s|
    ensures b <==> exists k :: 0 <= k < |ValidTokens| && ValidTokens[k] <= s[start..]
  {
    AnyPrefix(ValidTokens, s[start..])
  }

  /** Every valid token begins with a lower-case letter, so none begins with an operator. */
  lemma ValidTokenInitial(s: string, start: nat)
    requires start <= |s| && ContainsValidToken(s, start)
    ensures start < |s| && 'a' <= s[start] <= 'z'
  {
    var k :| 0 <= k < |ValidTokens| && ValidTokens[k] <= s[start..];
    assert |ValidTokens[k]| > 0 && 'a' <= ValidTokens[k][0] <= 'z';
    assert s[start..][0] == ValidTokens[k][0];
  }

  /** isNumber: "e", "pi", "x", or a string Double.parseDouble accepts (here: a decimal numeral). */
  predicate IsNumber(s: string) {
    s == "e" || s == "pi" || s == "x" || IsNumeral(s)
  }

  /** A one-character string is number-like exactly when it is a digit, "e" or "x". */
  lemma SingleCharNumber(c: char)
    ensures IsNumber([c]) <==> IsDigit(c) || c == 'e' || c == 'x'
  {
    assert [c][1..] == [];
    assert !NumeralRest([], false, false) && !NumeralRest([], true, false);
    assert NumeralRest([c], false, false) <==> IsDigit(c);
  }

  /** The one-character strings ^ * / + - ( ). */
  predicate IsOperatorToken(t: string) {
    |t| == 1 && IsOperator(t[0])
  }

  /** Every token the tokenizer may emit. */
  predicate InVocabulary(t: string) {
    IsNumber(t) || IsFunctionName(t) || IsOperatorToken(t)
  }

  /** A token after which a following operand needs an implicit "*". */
  predicate EndsValue(t: string) {
    t == ")" || IsNumber(t)
  }

  /** A token that begins an operand. */
  predicate StartsValue(t: string) {
    t == "(" || IsNumber(t) || IsFunctionName(t)
  }

  /** No operand follows a finished operand directly: juxtaposition always became "*". */
  predicate ImplicitProducts(ts: seq<string>) {
    forall j, k :: 0 <= j < |ts| && k == j + 1 && k < |ts| ==> !(EndsValue(ts[j]) && StartsValue(ts[k]))
  }

  predicate AllInVocabulary(ts: seq<string>) {
    forall j {:trigger InVocabulary(ts[j])} :: 0 <= j < |ts| ==> InVocabulary(ts[j])
  }

  /** The number of tokens equal to t. */
  function Count(ts: seq<string>, t: string): nat {
    multiset(ts)[t]
  }

  /** frequency: the number of occurrences of c in s, counted by a loop. */
  method Frequency(s: string, c: char) returns (count: nat)
    ensures count == multiset(s)[c]
  {
    count := 0;
    var i := 0;
    while i < |s|
      invariant 0 <= i <= |s|
      invariant count == multiset(s[..i])[c]
    {
      assert s[..i + 1] == s[..i] + [s[i]];
      if s[i] == c {
        count := count + 1;
      }
      i := i + 1;
    }
    assert s[..i] == s;
  }
}
