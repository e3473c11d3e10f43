# A verified model of the expression engine of Function.java

`Function` turns a string such as `3.25cosx + 2(x-1)^2` into a list of string
tokens once, when it is built. It then evaluates that list at a value, as
often as a caller asks.

**The tokenizer.** `tokenize` and `checkPreconditions` work as follows:
- they strip the spaces and check that the parentheses balance;
- a leading `-` followed by a number-like character (a digit, `e` or `x`) or a known name becomes `-1 *`. Any other leading `-`, as in `-(x)`, stays. A leading `+` is dropped only before `x` or a digit. Any other leading operator except `(` is rejected as an invalid leading token, so `+(x)`, `+pi` and `++1` are rejected;
- they scan the characters with an accumulator and a rewindable index;
- they insert the implicit `*` of juxtaposition and split digit-letter runs such as `2x`;
- they reject unknown tokens, consecutive operators and bad endings.

**The evaluator.** `evaluateAt` copies the tokens and replaces `x` by the value. It then repeats the following until one entry is left:
- it picks the innermost parenthesised group (`getInnermostExpression`);
- it contracts that group in place with four left-to-right passes: `^`, the function names, `* /` and `+ -`.

The project is organised as follows:
- `numbers.dfy`: a `double` is a real number, NaN or an infinity (`Num`). The IEEE rules for special values are modelled for `+ - * /`. `java.lang.Math` is a parameter `MathLib` of uninterpreted functions.
- `tokens.dfy`: the vocabulary and the small string tests (`isOperator`, `isValidToken`, `containsValidToken`, `isNumber`, `frequency`).
- `tokenizer.dfy`: the scan as functions (`Tokenize`, `Scan`, one `Step` per loop iteration). It also holds the methods running the source's loops, each proved equal to those functions.
- `tokenizer_props.dfy` and `tokenizer_errors.dfy`: what a successful tokenize guarantees, proved by induction over the scan, and which inputs are rejected and how.
- `tokenizer_content.dfy`: the characters the tokens stand for. Read back in order, the tokens spell the input. Spaces and `*` characters are left out of that spelling, the `-1` of a rewritten sign reads as `-`, and a dropped `+` is gone.
- `tokenizer_reading.dfy`: where the `*` tokens go. A marking picks the `*` tokens the tokenizer inserted. Read with the marked ones left out, the tokens give the input back, and each marked one sits where the tokenizer inserts a product.
- `evaluator.dfy`: the passes, `parse` and `getInnermostExpression`, as recursive functions over the list and the iterator position. Each also has a method with the source's iterator loop, proved equal to its function. Entries computed during evaluation are `Val(n)`, because `String.valueOf` followed by `Double.parseDouble` gives every double back.
- `function.dfy`: the class with its `originalTokens` field, the constructor, `setFunction`, `evaluateAt` and the static `evaluate`.
- `findings.dfy`: the one discrepancy below. It holds a second tokenizer with the split as written (`TokenizeAsWritten`) beside the corrected one.

## Model

| member | source | states |
|---|---|---|
| Numbers.Div | Function.java:373-375 | IEEE division without signed zeros: infinite exactly when a non-zero number is divided by zero or an infinity by a finite number; NaN for 0/0, for infinity/infinity and for a NaN operand |
| Numbers.Mul | Function.java:361-363 | product of finite values; NaN exactly for a NaN operand or an infinity times zero |
| Numbers.Add | Function.java:400-402 | sum of finite values; NaN exactly for a NaN operand or opposite infinities; infinite cases |
| Numbers.Sub | Function.java:412-414 | difference of finite values; NaN exactly for a NaN operand or equal infinities |
| Tokens.OperatorArray | Function.java:646-653 | the operator test accepts exactly the seven characters of its array |
| Tokens.ValidTokenArray | Function.java:655-661 | isValidToken accepts exactly the eighteen strings of validTokens |
| Tokens.AnyPrefix | Function.java:664-669 | true exactly when some listed word is a prefix of the rest of the string |
| Tokens.ContainsValidToken | Function.java:663-671 | true exactly when some valid token starts at the given index |
| Tokens.ValidTokenInitial | Function.java:626 | a valid token found at an index starts with a lower-case letter, so never with an operator |
| Tokens.SingleCharNumber | Function.java:616 | a one-character string is number-like exactly when it is a digit, `e` or `x` |
| Tokens.Frequency | Function.java:601-608 | the loop counts exactly the occurrences of the character |
| Tokenizer.RemoveSpaces | Function.java:458 | no space is left, no character other than space is lost or added, and the result is never longer |
| Tokenizer.RemoveSpacesAppend | Function.java:458 | removing spaces from a concatenation removes them from each part, so the kept characters stay in order |
| Tokenizer.RemoveSpacesChar | Function.java:458 | a single space is removed and any other single character is kept |
| Tokenizer.Preconditions | Function.java:610-644 | rejects unbalanced parentheses exactly when the counts of `(` and `)` differ; on success the string is unchanged, or loses its sign with `-1 *` added or nothing added, and no operator other than `(` or `-` opens it |
| Tokenizer.SignCases | Function.java:620-641 | on success there are three outcomes. A leading `-` that is rewritten leaves the rest of the string with `-1`, `*`. A leading `+` that is dropped leaves the rest with nothing added. Otherwise the string is unchanged with nothing added |
| Tokenizer.LeadingSign | Function.java:620-641 | its only error is the invalid leading token; a removed first character is a sign before a non-operator |
| Tokenizer.CheckPreconditions | Function.java:610-644 | the method (with frequency) returns exactly Preconditions |
| Tokenizer.WithProduct | Function.java:476-478 | a `*` is put before the new operand exactly when the last token is `)` or number-like |
| Tokenizer.Ending | Function.java:593-596 | succeeds exactly when the last token is `)` or number-like, and then returns the list |
| Tokenizer.OperatorStep | Function.java:509-543 | an operator only appends to the list |
| Tokenizer.Tokenize | Function.java:456-599 | the errors of checkPreconditions are passed on unchanged; a successful list is non-empty and ends in `)` or a number-like token |
| Tokenizer.Scan | Function.java:466-564 | a scan that succeeds ends its list in `)` or a number-like token |
| Tokenizer.Trailing | Function.java:566-598 | a leftover run is an unknown token unless its leading digits and dots form a number and something follows them; on success the rest tokenizes, and the list is the tokens so far with the split numeric part, extended, ending in `)` or a number-like token |
| Tokenizer.Step | Function.java:466-564 | one loop iteration keeps the accumulator equal to the characters before the index, and always moves the scan forward |
| Tokenizer.SplitRun | Function.java:484-506 | the split of a run resumes at the first character after the numeric part, and moves forward |
| Tokenizer.LetterMove | Function.java:547-563 | a letter extends the run or completes a token, and the scan moves forward |
| Tokenizer.NumericPrefix | Function.java:486-494 | the index of the first character that is not a digit or dot |
| Tokenizer.SplitIndex | Function.java:488-494 | the loop finds the first character that is not a digit or dot |
| Tokenizer.ScanChar | Function.java:466-564 | one iteration of the loop, as a method, equals Step |
| Tokenizer.ScanString | Function.java:466-564 | the loop over the string returns exactly what Scan returns |
| Tokenizer.FinishScan | Function.java:566-598 | the code after the loop, including the recursive tokenize, returns exactly what Scan returns at the end of the string |
| Tokenizer.TokenizeString | Function.java:456-599 | tokenize as a method returns exactly Tokenize |
| TokenizerProps.TokenizeProps | Function.java:456-599 | every successful tokenize yields a non-empty list with these properties: every token is in the vocabulary; no operand directly follows `)` or a number-like token; as many `(` and `)` tokens as the input has; no refused pair of adjacent operators in the input; `x` only if the input has an `x`; a first token that is an operand, `(` or `-`; a last token that is `)` or number-like |
| TokenizerProps.ScanExtends | Function.java:466-564 | the scan only appends to the tokens it starts from |
| TokenizerProps.SplitRunValue | Function.java:484-506 | when an operator meets a run and the split goes on, the numeric part is a number, the accumulator is empty, the scan resumes just after that part, and the part is appended by the corrected split |
| TokenizerProps.LetterShape | Function.java:547-563 | a character that is not an operator either completes a valid token, appended after a `*` when one is needed, or extends the run, and the scan moves to the next character |
| TokenizerProps.LeadingMinusProduct | Function.java:625-630 | a leading `-` before a number-like character or a known name starts the scan of the rest of the string from `-1`, `*`, so a successful list starts with them |
| TokenizerContent.TokenizeContent | Function.java:456-599 | the tokens of a successful tokenize, read back in order, spell the input without spaces and `*` characters. In that reading a `*` token is nothing and `-1` is `-`. The leading `+` that is dropped is not spelled. No character is lost, reordered or invented |
| TokenizerReading.TokenizeReads | Function.java:456-599 | some marking of the `*` tokens of a successful list reads the tokens back, in order, as the input without spaces and without a dropped `+` (`-1` read as `-`). Only a `*` that follows `-1`, or stands between a token ending an operand and one starting an operand, may be marked, and the marked ones read as nothing. So every `*` of the list that the input does not hold is at such a place |
| TokenizerReading.MisplacedStar | Function.java:476-478 | the list `x * + 2` cannot read as `x+2`: a `*` before an operator is never an inserted product |
| TokenizerErrors.UnbalancedRejected | Function.java:612-613 | tokenize reports unbalanced parentheses if and only if the counts differ |
| TokenizerErrors.SingleCharRejected | Function.java:616-618 | a one-character input that is not number-like is an unknown token |
| TokenizerErrors.BadLeadingRejected | Function.java:639-640 | a leading operator other than `(`, `-` or a `+` before `x` or a digit is rejected |
| TokenizerErrors.LeadingPlusDropped | Function.java:634-635 | a leading `+` before `x` or a digit is dropped and nothing is added |
| TokenizerErrors.ForbiddenRejected | Function.java:536-537 | an input holding a refused pair of adjacent operators is rejected |
| TokenizerErrors.EndingRejected | Function.java:594-596 | an accepted list ends in `)` or a number-like token |
| TokenizerErrors.ConsecutiveExample | Function.java:536-537 | `1--x`, `10*-5` and `x++9` are rejected |
| TokenizerErrors.UnbalancedExample | Function.java:612-613 | `(x+1` is rejected as unbalanced |
| Evaluator.ParseNumber | Function.java:220-230 | a computed value parses to itself; a token parses exactly when it is number-like other than `x`; the only error is a number-format error on that token |
| Evaluator.Combine | Function.java:353-390 | each of the five operators applies its operation: `^` is Math.pow, and `*`, `/`, `+`, `-` are Mul, Div, Add, Sub. The only error is the division whose quotient is infinite, and it names the divisor token. 0/0 is NaN without error |
| Evaluator.ApplyFunction | Function.java:266-305 | tan is the quotient of the enhanced sine and cosine, and sqrt is Math.sqrt |
| Evaluator.Contract | Function.java:337-346 | the triple at i - 1 .. i + 1 becomes one value at i - 1; entries before keep their place, entries after move down by two |
| Evaluator.BinaryFrom | Function.java:328-427 | a pass never lengthens the list, and leaves it unchanged when it does not shorten it; its errors are index and number-format errors, and the division error only in the `* /` pass |
| Evaluator.FunFrom | Function.java:247-326 | the function pass never lengthens the list; its only error is the domain error, raised for some function name in the list whose value at that argument is NaN or infinite |
| Evaluator.LastOpen | Function.java:433 | the last `(`, or none when there is no `(` |
| Evaluator.CloseFrom | Function.java:436-442 | the first `)` from an index on, or none |
| Evaluator.Innermost | Function.java:432-451 | a group is delimited by the last `(` and the first `)` after it; the whole list is chosen when there is no `(`, or no `)` after the last one |
| Evaluator.Substitute | Function.java:163-167 | the copy holds the value wherever the tokens hold `x`, and the token everywhere else, so no `x` is left |
| Evaluator.ResolveBinary | Function.java:328-427 | resolveExponentiation, resolveMultAndDiv and resolveAddAndSub, as iterator loops, compute exactly BinaryFrom |
| Evaluator.ResolveFunctions | Function.java:247-326 | the iterator loop of resolveFunctions computes exactly FunFrom |
| Evaluator.GetInnermostExpression | Function.java:432-451 | the loop finds exactly Innermost |
| Evaluator.ParseGroup | Function.java:201-217 | a successful parse leaves a non-empty group no longer than before, with a value first; an empty group is an index error |
| Evaluator.EvalStep | Function.java:176-185 | a round never lengthens the list, and a round on a parenthesised group shortens it by at least two |
| Evaluator.EvaluateTokens | Function.java:176-186 | an empty list is an index error; a single value is the result; the error of a round on a longer list is the result |
| Evaluator.Parse | Function.java:201-217 | the four passes and the final parse of the first entry compute exactly ParseGroup |
| Evaluator.ParseInnermost | Function.java:177-178 | one round parses the innermost group in place and drops its parentheses (EvalStep) |
| Evaluator.StepMeasure | Function.java:176-185 | a round that changes the list shortens it, or turns its first entry into a value |
| Evaluator.GroupMeasure | Function.java:201-217 | parse never lengthens its group, and at equal length changes only the first entry into a value |
| Evaluator.BinaryLength | Function.java:336-347 | a pass shortens the list by exactly two per operator it contracts |
| Evaluator.BinaryClears | Function.java:332-350 | after a successful pass no operator of that pass is left |
| Evaluator.BinaryIdentity | Function.java:328-350 | a list without operators of the pass comes back unchanged |
| Evaluator.BinaryKeeps | Function.java:336-347 | a pass brings in no operator of another pass |
| Evaluator.FunKeeps | Function.java:314-318 | the function pass brings in no operator |
| Evaluator.ParseClears | Function.java:201-217 | after parse no `^ * / + -` is left in the group and its first entry is a value |
| Evaluator.BinaryStep | Function.java:336-349 | one contraction, then the scan goes on at the same index |
| Evaluator.LeftAssociative | Function.java:332-350 | `a op b op c` with two operators of one pass is `(a op b) op c` |
| Evaluator.PowerChain | Function.java:332-350 | `2^3^2` parses to `(2^3)^2` |
| Evaluator.DivisionDomain | Function.java:373-375 | 0/0 gives NaN and no error; a non-zero number over 0 raises the domain error naming the divisor |
| Evaluator.FunctionDomain | Function.java:306-311 | a function name before a value gives the function's value, or the domain error naming the argument when that value is NaN or infinite |
| Evaluator.ExactZeros | Function.java:232-240 | at an exact multiple of pi, `sin` of the value parses to exactly 0; at an exact odd multiple of pi/2, `cos` parses to exactly 0 |
| Evaluator.TrigZerosAreDomainErrors | Function.java:232-311 | because those zeros are exact, csc and cot at a multiple of pi, and tan and sec at an odd multiple of pi/2, are NaN or infinite, and parse reports the domain error naming the argument |
| Evaluator.FunctionArgumentMissing | Function.java:322-324 | a function name before an entry that does not parse is passed over, not reported |
| Evaluator.FunctionSkipped | Function.java:247-326 | in `sin cos v` the sine is passed over and the cosine applied, and parse then fails on `sin` |
| Evaluator.ParseNoNewText | Function.java:201-217 | parse brings in no new token: every entry after it is a value or an entry of the group |
| Evaluator.RoundRemovesParens | Function.java:445-449 | a round on a parenthesised group removes exactly one `(` and one `)` from the list |
| Evaluator.EvaluateStuck | Function.java:176-185 | a round that leaves the list unchanged makes the loop run forever, reported as Diverges |
| FunctionObject.Function.TokenFacts | Function.java:37-56 | the stored tokens have every property of a successful tokenize and spell the stored string |
| FunctionObject.Function.Create | Function.java:37-43 | the empty string, or one tokenize rejects, makes no Function and gives that error; otherwise the new object stores the tokens of the string and the string without spaces |
| FunctionObject.Function.SetFunction | Function.java:50-56 | on an error, the same errors as the constructor and both fields unchanged; on success, the tokens and the string without spaces, consistent with each other |
| FunctionObject.Function.EvaluateAt | Function.java:155-186 | the result is exactly EvaluateTokens on the copy with `x` replaced by the value |
| FunctionObject.WorkingCopy | Function.java:157-167 | the two loops build exactly the copy with `x` replaced |
| FunctionObject.Evaluate | Function.java:136-143 | a string containing `x` is rejected; otherwise the result is that of a new Function evaluated at 0 |
| FunctionObject.EvaluateAtExpression | Function.java:121-122 | the value expression is evaluated first, and its errors are passed on |
| FunctionObject.EvaluateConstant | Function.java:136-143 | without `x`, the point of evaluation does not matter |
| FunctionObject.ConstantTokens | Function.java:136-143 | an input without `x` has no `x` token, so every substitution leaves the same list |
| FunctionObject.TokenizeIgnoresSpaces | Function.java:42 | tokenizing the string without spaces gives the same result as the original |
| FunctionObject.EvaluateTwice | Function.java:155-167 | evaluateAt works on a copy and changes nothing, so two evaluations at one value agree |
| Findings.SplitAsWrittenBreaksProducts | Function.java:496-498 | after `)` or a number-like token, the split as written puts a number directly after an operand |
| Findings.AppendSplitKeepsProducts | Function.java:496-498 | the corrected split keeps every juxtaposition a product |
| Findings.SplitsAgree | Function.java:496-498 | the split as written and the corrected split agree exactly when the list does not end in `)` or a number-like token |
| Findings.StepAsWritten | Function.java:466-564 | a loop iteration as written always moves the scan forward, and it equals the corrected Step except where a run that is not a number meets an operator |
| Findings.SplitRunAsWritten | Function.java:484-506 | the split as written fails exactly when the corrected one does, and resumes at the same index with the same accumulator |
| Findings.AsWrittenLetter | Function.java:547-563 | a character that is not an operator is scanned by the tokenizer as written exactly as by the corrected one |
| Findings.TokenizeXAsWritten | Function.java:456-599 | as written, `x` tokenizes to the single token `x` |
| Findings.X2xAsWritten | Function.java:456-599 | the tokenizer as written turns `x2x` into `x 2 * x`, where a number directly follows an operand, and evaluating that list never ends |
| Findings.X2xCorrected | Function.java:584-586 | with the corrected split, `x2x` tokenizes to `x * 2 * x` and evaluates to v·2·v |
| Findings.AsWrittenDiverges | Function.java:176-185 | `v 2 * v` reaches `v, 2v`, which every later round leaves unchanged |
| Findings.CorrectedEvaluates | Function.java:176-185 | `v * 2 * v` evaluates to (v·2)·v |

## Left out

- Double.parseDouble is reduced to optionally signed decimal numerals. Exponents, hexadecimal forms, the `d`/`f` suffixes, `NaN`, `Infinity` and surrounding white space are not modelled. The same grammar serves isNumber and parseNumber.
- Numbers.Div, Numbers.Mul, Numbers.Add, Numbers.Sub: rounding, overflow to infinity and the sign of zero are not modelled.
- java.lang.Math (pow, sin, cos, the inverse and hyperbolic functions, log, log10, sqrt, E, PI) and the `%` tests of enhancedSin/enhancedCos are uninterpreted parameters. The IEEE behaviour of those functions is not modelled.
- Character.isDigit accepts every Unicode digit. The model accepts only `0`-`9`.
- The verbose flag, getString and the printf traces are console output and are not modelled. toString is the stored `expression` field. getTokens is the `originalTokens` field, which evaluateAt cannot modify; the read-only wrapper is not modelled.
- The in-place list changes (ListIterator set/remove/previous and the subList view) are modelled on sequence values: each pass returns the new list. Aliasing between the view and its parent list is therefore not modelled; the removal of the parentheses is a splice.
- Exceptions are `Result` errors. The message texts are reduced to the data they carry.
- The loop of evaluateAt can run forever (see Findings). The model reports a round that leaves the list unchanged as `Diverges`. Rounds that change the list always make progress (Evaluator.StepMeasure).
- Evaluator.Innermost: when the whole list is chosen while an unclosed `(` remains, the contract states only that a last `(` exists with no `)` after it.
- Evaluator.ApplyFunction: its contract names only tan and sqrt. The full table is its body. Evaluator.FunctionDomain states what applying it means for parse, and Evaluator.ExactZeros and Evaluator.TrigZerosAreDomainErrors state what the exact zeros of enhancedSin and enhancedCos give.
- Some quirks of the source are kept as written and are not claimed as defects:
  - `sincosx` tokenizes but does not evaluate (Evaluator.FunctionSkipped).
  - the `)` before a digit branch at line 518 comes before the function-name and consecutive-operator checks, so `(x+)2` is accepted by the tokenizer;
  - `-(x)` keeps its leading `-`, so evaluation reads the entry before index 0 and fails with an index error.
- ApproximateIntegral.java, ApproximateIntegralsApp.java and Test.java are not part of this model.

## Findings

| source | as written | input that shows it | evidently intended | confidence | as-written member | corrected member |
|---|---|---|---|---|---|---|
| Function.java:584-586 | The split of a digit-letter run (here and at lines 496-498) appends the numeric part and `*` without the implicit `*` every other operand gets after `)` or a number-like token | `x2x` gives `x 2 * x`. The first round reduces it to two values, and later rounds leave the list unchanged, so `while (tokens.size() > 1)` never ends | `x * 2 * x`, the value x·2·x | not executed | Findings.X2xAsWritten | Findings.X2xCorrected |

The tokenizer of the model uses the corrected split (Tokenizer.AppendSplit). TokenizerProps.TokenizeProps proves that no operand then ever directly follows another. Tokenizer.SplitAsWritten keeps the split as written. Findings.TokenizeAsWritten is the whole tokenizer with that split, and Findings.X2xAsWritten applies it to `x2x`.
