# Integer expression calculator — a Dafny model

This project models `main.py` of a small Python calculator. It evaluates
integer expressions made of `+ - * /`, parentheses and whitespace, in three
stages:

1. **Tokenizer.** A table-driven state machine over character categories. It
   appends a `'\n'` sentinel and emits number, whitespace, operator and
   parenthesis tokens. Numbers and whitespace runs are read one character too
   far, and that character is given back.
2. **Infix-to-postfix conversion.** A variant of shunting-yard with an output
   queue and an operator stack, modelled as the code runs it.
   - The unload loop tests the token it has just popped, not the new stack top.
   - An unmatched `)` returns early with the queue built so far.
3. **Postfix evaluator.** A stack machine whose entries are texts, as in the
   source, which round-trips every result through `str` and `int`. A `/`
   result is an opaque quotient. It can be the final answer, but it fails as
   an operand.

The facade `calc` stores the expression, runs the three stages and returns
the answer.

Every stage is a pure function over immutable data, and failures are a
`Fault` tagged with the reason:

| module | file | what it holds |
|---|---|---|
| `Outcomes` | `outcomes.dfy` | `Option`, `Result`, and the fault reasons |
| `Tokens` | `tokens.dfy` | token kinds, priorities, character categories |
| `Tokenizer` | `tokenizer.dfy` | the state table, `Scan` (one `_get_lexem`), `Lexemes`/`Lex` (repeated `get_token`), the `'sp'` filter |
| `TokenizerSpec` | `tokenizer_spec.dfy` | a maximal-munch reference tokenizer, the proof that the machine computes it, and what follows from that |
| `Converter` | `converter.dfy` | `_infix_to_postfix`, step by step |
| `ConverterProps` | `converter_props.dfy` | invariants of one step and of a whole conversion |
| `Evaluator` | `evaluator.dfy` | `_calc_from_postfix`, `str`/`int` on integers, and a reference evaluator it agrees with |
| `Calculator` | `calculator.dfy` | `calc` and whole-pipeline properties |
| `Intended` | `intended.dfy` | the unload loop as its comment describes it (see Findings) |
| `Demos` | `demos.dfy` | the demo driver's inputs and the corner cases, computed through the model |

## Model

| member | source | states |
|---|---|---|
| Tokens.CategoryOf | main.py:78-94 | A character is a digit, whitespace or one of `+ - * / ( )`, and gets no category exactly when it is none of these. |
| Tokenizer.NextState | main.py:48-57 | From state 1, the machine stays in state 1 exactly on a digit and otherwise accepts a number. From state 2, it stays exactly on whitespace and otherwise accepts a whitespace run. From state 0, it never accepts a number or whitespace at once. |
| Tokenizer.Scan | main.py:104-109 | One `_get_lexem` loop reads at least one character and never past the text. It reads at least two characters when it accepts a number or whitespace run. |
| Tokenizer.Lexemes | main.py:100-120 | Every lexeme handed out is non-empty. |
| Tokenizer.WithoutSpaces | main.py:142-144 | The filtered list holds no `'sp'` token and is no longer than the input list; `TokenizerSpec.WithoutSpacesAppend` says which tokens it keeps. |
| TokenizerSpec.WithoutSpacesAppend | main.py:142-144 | The filter keeps every token that is not `'sp'`, in order: on one token it drops exactly a whitespace token, and it distributes over concatenation. |
| Tokenizer.Lex | main.py:47-120 | The tokenizer run on the text plus its sentinel; what it returns is stated by `TokenizerSpec.LexOutcome` and `TokenizerSpec.LexCharacterization`. |
| Tokenizer.Tokenize | main.py:138-145 | `_transf_expr_to_tokens`; when it succeeds and how it fails is stated by `Calculator.TokenizeOutcome`, and its insensitivity to spacing by `TokenizerSpec.SpacesBetweenTokens`. |
| TokenizerSpec.ScanInNumber | main.py:107-109 | In state 1, the machine reads to the end of the digit run. It accepts a number on the next character, or fails on an unknown character or at the end of the text. |
| TokenizerSpec.ScanInSpace | main.py:107-109 | In state 2, the same holds for a whitespace run. |
| TokenizerSpec.ScanFromStart | main.py:100-116 | One token from state 0 has the kind of its first character and ends where maximal munch ends it. The push-back applies to numbers and whitespace only. Reading past the sentinel happens exactly when whitespace reaches the end of the text. |
| TokenizerSpec.LexemesMatchReference | main.py:100-120 | The machine, run on the text plus its sentinel, returns exactly the maximal-munch tokens, and fails exactly where they fail. |
| TokenizerSpec.LexOutcome | main.py:47-120 | An unknown character faults, and trailing whitespace faults by reading past the end. Any other input yields non-empty, classified, maximal lexemes that concatenate back to the input. |
| TokenizerSpec.LexCharacterization | main.py:100-120 | The tokenizer returns `ts` if and only if `ts` cuts the text into classified, maximal tokens and the text does not end in whitespace. |
| TokenizerSpec.TokenizationUnique | main.py:100-120 | A text has at most one such cut. |
| TokenizerSpec.AllDigitsOneToken | main.py:48-59 | A non-empty string of digits is exactly one number token holding the whole string. |
| TokenizerSpec.SpacesBetweenTokens | main.py:138-145 | After the `'sp'` filter, whitespace inserted anywhere except inside a number or at the end leaves the token list unchanged. |
| TokenizerSpec.TrailingSpaceFaults | main.py:100-109 | An input that ends in whitespace makes the scanner read past the sentinel. |
| Converter.Unload | main.py:170-177 | What the unload loop leaves is a bottom part of the stack. The queue gains the rest, top first. |
| Converter.UnloadAsWritten | main.py:170-177 | `(` on top is pushed back untouched. Otherwise the loop pops no `(`, and every token but the last one it queues has priority at least the incoming one's. It stops at an empty stack, at `(`, or right after queuing a lower-priority token. |
| Converter.PushOperator | main.py:157-178 | The operator ends up on top of what the unload left, and the queue gains the removed part top first. |
| Converter.PushOperatorCases | main.py:157-178 | The operator is pushed directly exactly when the stack is empty, its top is `(`, or its top has strictly lower priority. Otherwise the unload behaves as described for `Converter.UnloadAsWritten`. |
| Converter.CloseParen | main.py:191-198 | Handling `)` after its first pop never faults. |
| Converter.CloseParenCases | main.py:191-198 | `)` queues the operators above the topmost `(` and drops that `(`. With no `(` on the stack, it returns early and loses the bottom token. |
| Converter.Flush | main.py:201-204 | The final unload appends the stack to the queue in pop order. |
| Converter.Step | main.py:150-198 | One pass of the loop body; its effect per token kind is stated by `ConverterProps.StepByKind`, and the invariants it keeps by `ConverterProps.StepKeeps`. |
| Converter.Loop | main.py:149-204 | The `for` loop with the final unload after the last token; its invariants are stated by `ConverterProps.LoopKeeps`. |
| Converter.Convert | main.py:147-204 | `_infix_to_postfix` from an empty queue and stack; what its queue holds is stated by `ConverterProps.ConvertKeeps`. |
| ConverterProps.ClassifiedWellNamed | main.py:58-67 | On tokenizer output, testing for a parenthesis by kind and by text agree. |
| ConverterProps.PushOperatorKeeps | main.py:157-178 | Pushing an operator keeps `)` and numbers off the stack and `)` out of the queue. It queues no number and loses no operator. |
| ConverterProps.CloseParenKeeps | main.py:191-198 | Handling `)` queues no number. Unless it returns early, it loses no operator. |
| ConverterProps.StepUnfold | main.py:150-198 | For a well-named token, exactly one of the four tests of the loop body acts, chosen by the token's kind. |
| ConverterProps.StepKeeps | main.py:150-198 | One step keeps the queue free of `)` and the stack down to operators and `(`. A number goes to the end of the queue, and no operator is lost. The step fails only on `)` with an empty stack. |
| ConverterProps.CloseOnStack | main.py:191-198 | `)` on a non-empty stack either closes at the topmost `(` or returns early with every popped token but the last. |
| ConverterProps.StepByKind | main.py:150-198 | Each kind's effect on queue and stack: a number is queued, and `(` is pushed. An operator is pushed when the stack is empty, `(` is on top, or the top has lower priority. `)` faults on an empty stack, closes at the topmost `(`, or returns early. |
| ConverterProps.LoopKeeps | main.py:147-204 | From any point of the loop the invariants carry through to the end of the conversion. |
| ConverterProps.ConvertKeeps | main.py:147-204 | A conversion that does not return early ends with an empty operator stack. Its queue holds the input's numbers in input order and every operator exactly once, and never `)`. An early return keeps the numbers of a prefix. The only failure is a pop from an empty stack. |
| Evaluator.Apply | main.py:219-228 | `/` fails exactly on a zero divisor. `+ - *` push a text that `int()` reads back as `term_1 + term_2`, `term_1 - term_2` or `term_1 * term_2`. |
| Evaluator.IntText | main.py:228 | `str` on an integer; `Evaluator.ParseIntText` states that `int()` inverts it. |
| Evaluator.ParseInt | main.py:217-218 | `int()` on the texts the stack holds; `Evaluator.ParseIntText` and `Evaluator.DigitsRoundTrip` state it as the inverse of `str`. |
| Evaluator.Operand | main.py:217-218 | `int(unload.attr)` on a stack entry; a quotient fails (`Evaluator.QuotientOnTop`, `Evaluator.QuotientBelow`), and an integer text reads back as its integer (`Evaluator.ParseIntText`). |
| Evaluator.ParseIntText | main.py:217-228 | `int(str(n)) == n` for every integer, with no limit on the number of digits (see Left out). |
| Evaluator.DigitsRoundTrip | main.py:211-228 | A number lexeme reads as the number its digits denote, and `str` of that number gives the lexeme back exactly when the lexeme has no leading zero. |
| Evaluator.EvalStep | main.py:209-228 | One pass of the `while` body; `Evaluator.EvalStepAgrees` and `Evaluator.EvalStepFaults` state its effect. |
| Evaluator.EvalStepAgrees | main.py:209-228 | On a stack of integer texts, a number pushes its value, `+ - *` replace the two top values by `left op right` or fail with too few of them, and any other token leaves the stack alone. |
| Evaluator.EvalStepFaults | main.py:209-228 | One pass raises only on a missing operand, a zero divisor or a quotient operand. |
| Evaluator.Run | main.py:208-230 | The loop and the final pop; stated by `Evaluator.RunAgrees`, `Evaluator.RunFaults` and `Evaluator.SkipsOthers`. |
| Evaluator.Evaluate | main.py:206-230 | `_calc_from_postfix` from an empty stack; stated by `Evaluator.EvaluateAgrees`. |
| Evaluator.RunAgrees | main.py:206-230 | On division-free queues of tokenizer tokens, the evaluator succeeds exactly when an integer postfix evaluator does, with the same integer. That evaluator, like the code, returns the top value, ignores values left below it and skips tokens that are neither numbers nor operators. The only failure is a pop from an empty stack. |
| Evaluator.EvaluateAgrees | main.py:206-230 | The same holds from an empty stack. |
| Evaluator.RunFaults | main.py:206-230 | The evaluator fails only on a missing operand, a zero divisor or a quotient used as an operand (within the model's unbounded integers; see Left out). |
| Evaluator.OperatorStep | main.py:216-228 | The right operand is the one popped first. Both are replaced by `left op right`. |
| Evaluator.DivideByZero | main.py:226-227 | `/` with a zero right operand raises. |
| Evaluator.QuotientOnTop | main.py:217 | A quotient on top of the stack fails as an operand. |
| Evaluator.QuotientBelow | main.py:218 | A quotient below the top fails as the left operand. |
| Evaluator.SkipsOthers | main.py:208-228 | Evaluating a queue gives the same outcome as evaluating only its numbers and operators: a token that is neither (a leftover `(`) has no effect wherever it stands. |
| Calculator.Postfix | main.py:232-236 | The queue `calc` hands to the evaluator, early returns included; stated by `Calculator.PostfixContents`. |
| Calculator.Answer | main.py:232-237 | The answer for an expression; stated by `Calculator.AnswerFaults` and `Calculator.AnswerSpacing`. |
| Calculator.Calc | main.py:232-237 | A non-empty argument replaces the stored expression. No argument or `''` keeps it. The value returned is `Answer` of the expression now stored, so `Calculator.AnswerFaults`, `Calculator.AnswerSpacing` and `Calculator.PostfixContents` describe what `calc` returns. |
| Calculator.CalcRepeats | main.py:232-237 | The stored expression persists. In the model, where each call starts from an empty stack and queue, a second call without an argument gives the same answer (see Left out for where `main.py` differs). `''` acts like no argument. |
| Calculator.TokenizeOutcome | main.py:138-145 | The filtered token list exists exactly when every character has a category and the text does not end in whitespace. It holds classified, well-named tokens. |
| Calculator.AnswerFaults | main.py:232-237 | Which stage fails, and why. An unknown character or trailing whitespace stops the tokenizer. Otherwise only a pop from an empty stack, a zero divisor or a quotient operand can fail (within the model's unbounded integers; see Left out). |
| Calculator.AnswerSpacing | main.py:138-145 | Whitespace between tokens does not change `calc`'s answer. |
| Calculator.PostfixContents | main.py:147-204 | The queue handed to the evaluator holds the expression's numbers in order and its operators exactly once, or on an early return the numbers of a prefix. It never holds `)`. |
| Intended.UnloadIntended | main.py:166-169 | The loop the comment describes leaves a bottom part of the stack and queues the rest, top first. |
| Intended.UnloadIntendedRun | main.py:166-169 | It queues exactly the run of operators of priority at least the incoming one's. It stops at an empty stack, at `(`, or at a lower-priority operator, which stays. |
| Intended.PushOperatorIntended | main.py:166-169 | Below the pushed operator lies `(`, a lower-priority operator or nothing. Every token queued has priority at least the incoming one's. |
| Intended.AsWrittenVsIntended | main.py:170-177 | The code's loop agrees with the intended one when that stops at `(` or an empty stack. Otherwise it queues exactly one token more, the lower-priority operator left on top. |
| Intended.Overpops | main.py:170-177 | With `a` below `b`, `a` of lower and `b` of at least the incoming priority, the code queues `b a` and the intended loop queues `b` alone. |
| Demos.FirstDemo | main.py:241-243 | `"5*6+(2-9)"` gives `"23"`. |
| Demos.SecondDemo | main.py:245-246 | `"6 * (52 + 3) * 4"` gives `"1320"`. |
| Demos.ThirdTokenize | main.py:138-145 | `"6 * 4"` and `"6*4"` tokenize alike. |
| Demos.ThirdDemo | main.py:248-249 | `"6 * 4"` gives `"24"`. |
| Demos.ChainConvert | main.py:170-177 | `"1+2*3*4"` converts to `1 2 3 * + 4 *`. |
| Demos.ChainDemo | main.py:170-177 | `"1+2*3*4"` gives `"28"`. |
| Demos.UnmatchedDemo | main.py:191-198 | `"2+3)"` returns early and loses `+`, and `calc` still evaluates `2 3` to `"3"`. |
| Demos.ExtraCloseDemo | main.py:191-192 | `"(1+2))"` fails with a pop from an empty stack. |
| Demos.UnclosedDemo | main.py:201-204 | `"(2+3"` queues the unclosed `(`, which the evaluator passes over, giving `"5"`. |
| Demos.MinusOrder | main.py:217-223 | `2 9 -` is `-7`. |
| Demos.DivideByZeroDemo | main.py:226-227 | `4 0 /` raises. |
| Demos.QuotientAnswer | main.py:226-230 | `8 2 /` gives a quotient as the answer. |
| Demos.QuotientOperand | main.py:217-228 | `8 2 / 3 *` raises, although 8/2 is whole. |

## Left out

- `main()` and the `__main__` guard (main.py:240-253) only print. Their three input/answer pairs are `Demos.FirstDemo`, `Demos.SecondDemo` and `Demos.ThirdDemo`.
- The float value of a `/` result and its `str` formatting (main.py:227-228) need floating point. A quotient is `Quot(a, b)`: it can be the final answer, and it fails as an operand.
- Evaluator.ParseIntText: `int()` and `str()` on integers have no digit limit here. Since Python 3.11 and its security backports (3.10.7, 3.9.14), they raise ValueError beyond 4300 digits. For example, `calc("1" * 5000 + "+1")` fails at main.py:218: the postfix is `N 1 +`, `term_2 = int("1")` at main.py:217 succeeds, and the long operand is `term_1`, popped second. The model gives the sum.
- Evaluator.Apply: `term_1 / term_2` (main.py:227) raises OverflowError when the quotient is beyond float range, for example a 400-digit numerator over 1. The model returns `Quot(a, b)` for every non-zero divisor.
- Evaluator.RunFaults: the fault list leaves out the two failures above, the ValueError of the digit limit and the OverflowError of a quotient beyond float range.
- Calculator.AnswerFaults: leaves out the same two failures, for the same reasons.
- Property getters and setters, `__str__` and `__repr__` (main.py:10-38, 69-75, 130-136) only store or format values.
- The diagnostic `print` at main.py:195 is the `EarlyReturn` outcome.
- State kept between `calc` calls is not modelled. `_stack` is emptied only at main.py:207, and `_queue` keeps whatever a failed conversion or evaluation left in it, so leftovers from a malformed call reach the next one. Each call starts from an empty stack and queue here; only the stored expression persists.
- Calculator.CalcRepeats: holds only because each call starts from an empty stack. In `main.py`, `Calculator("2+3)").calc()` returns "3" and leaves the `2` token on `_stack`, which is reset only at main.py:207. A second `calc()` then pushes `+` above that `2` (main.py:164-165). At `)` it queues `+` and pops the `2` before the early return (main.py:192-196), so the queue is `2 3 +` and the answer is "5".
- The tokenizer's position fields and its reuse across texts are not modelled. `Lexemes` is the sequence of `get_token` results.
  - The stop on an empty lexeme (main.py:120, 142) never triggers, as `Tokenizer.Lexemes` proves, so it has no branch.
- `str.isdigit` and `str.isspace` are restricted to ASCII: the digits `0`-`9`, and tab through carriage return, 0x1C-0x1F and space. Python's Unicode digits and spaces are not modelled.
- `int()` is modelled only on the texts the evaluator stack can hold: digit lexemes and `str()` of an integer. Other spellings it accepts (signs, underscores, surrounding blanks) never reach it.
- Python's distinct exceptions (TypeError for an unknown character, IndexError, ZeroDivisionError, ValueError) are collapsed into one `Fault` with a reason.
- Evaluator.RunAgrees: covers only division-free queues, because the value of a quotient is a float.

## Findings

| source | as written | input that shows it | evidently intended | confidence | as-written member | corrected member |
|---|---|---|---|---|---|---|
| main.py:170-177 | The unload loop tests the priority of the token it has just popped. Having emptied the run of higher-priority operators, it also queues the lower-priority operator below them. | `"1+2*3*4"` converts to `1 2 3 * + 4 *` and gives 28 | Stop while the top has lower priority, as the comment at main.py:166-169 says. This gives `1 2 3 * 4 * +` and 25. | high; not executed | Intended.Overpops | Intended.PushOperatorIntended |

`Intended.AsWrittenVsIntended` states the exact difference on every stack: one extra token, and only when the loop stops at a lower-priority operator. `Demos.ChainDemo` carries the example through to the answer.

The conversion (`Converter`) keeps the loop as written, because the model is of the calculator's actual answers. The corrected loop and its properties stand beside it in `Intended`.

## Behaviour on malformed input

The code has no error path for unbalanced parentheses or leftover values. What it does instead:

- `"(2+3"` gives `"5"`. The final unload (main.py:201-204) queues the unclosed `(`, and the evaluator skips it (`Demos.UnclosedDemo`).
- `"2+3)"` gives `"3"`. The `)` loop (main.py:193-196) runs out of stack before it meets a `(`. It prints, returns early and loses `+`. `calc` still evaluates the partial queue `2 3` (`Demos.UnmatchedDemo`). The comment at main.py:188-190 only describes the case where the `(` is found.
- `"(1+2))"` fails: the second `)` pops an empty list at main.py:192 (`Demos.ExtraCloseDemo`).
- The final pop at main.py:230 returns the top of the evaluation stack and ignores any values below it (`Evaluator.RunAgrees`).
- Whitespace from state 0 enters state 2 of the table (main.py:48-57), so a whitespace run is one `'sp'` token. An expression that ends in whitespace reads past the sentinel at main.py:108 (`TokenizerSpec.TrailingSpaceFaults`).
