/** `Calculator.calc` (main.py:232-237): tokenize the stored expression, convert
    it to postfix, evaluate the postfix queue. */
module Calculator {
  import opened Outcomes
  import opened Tokens
  import opened Tokenizer
  import opened TokenizerSpec
  import opened Converter
  import opened ConverterProps
  import opened Evaluator

  /** The one piece of state that matters between calls: the stored expression. */
  datatype Calculator = Calculator(expr: string)

  /** The postfix queue `calc` hands to the evaluator. An early return on an
      unmatched ')' leaves the queue built so far, and it is evaluated all
      the same (main.py:196, 236-237). */
  function Postfix(expr: string): Result<seq<Token>> {
    match Tokenize(expr)
    case Fault(e) => Fault(e)
    case Ok(ts) =>
      match Convert(ts)
      case Failed(e) => Fault(e)
      case Converted(q, _) => Ok(q)
      case EarlyReturn(q) => Ok(q)
  }

  /** The answer `calc` gives for an expression. */
  function Answer(expr: string): Result<Value> {
    match Postfix(expr)
    case Fault(e) => Fault(e)
    case Ok(q) => Evaluate(q)
  }

  /** `calc(expr)`: a non-empty argument replaces the stored expression (Python's
      `if expr:` treats both None and '' as absent); the stored expression is
      then evaluated. Each call starts from an empty stack and queue. */
  function Calc(c: Calculator, arg: Option<string>): (r: (Calculator, Result<Value>))
    ensures arg.Some? && arg.value != "" ==> r.0.expr == arg.value
    ensures arg.None? || arg.value == "" ==> r.0 == c
    ensures r.1 == Answer(r.0.expr)
  {
    var c' := if arg.Some? && arg.value != "" then Calculator(arg.value) else c;
    (c', Answer(c'.expr))
  }

  /** The stored expression persists: in this model, where every call starts
      from an empty stack and queue, calling again without an argument gives
      the same answer. */
  lemma CalcRepeats(c: Calculator, arg: Option<string>)
    ensures Calc(Calc(c, arg).0, None) == Calc(c, arg)
    ensures Calc(c, Some("")) == Calc(c, None)
  {
  }

  /** Dropping the 'sp' tokens keeps the other tokens' shape. */
  lemma {:induction false} WithoutSpacesClassified(ts: seq<Token>)
    requires AllClassified(ts)
    ensures AllClassified(WithoutSpaces(ts))
  {
    if |ts| > 0 {
      assert AllClassified(ts[1..]) by {
        forall k | 0 <= k < |ts[1..]| ensures Classified(ts[1..][k]) {
          assert ts[1..][k] == ts[k + 1];
        }
      }
      WithoutSpacesClassified(ts[1..]);
      assert Classified(ts[0]);
    }
  }

  /** What `_transf_expr_to_tokens` hands to the converter: a list exists exactly
      when every character has a category and the input does not end in
      whitespace, and it holds classified tokens, none of them 'sp'. */
  lemma TokenizeOutcome(s: string)
    ensures Tokenize(s).Ok? <==> Known(s) && !EndsInSpace(s)
    ensures Tokenize(s).Ok? ==> AllClassified(Tokenize(s).value) && AllWellNamed(Tokenize(s).value)
    ensures !Known(s) ==> Tokenize(s) == Fault(UnknownCharacter)
    ensures Known(s) && EndsInSpace(s) ==> Tokenize(s) == Fault(IndexPastEnd)
  {
    LexOutcome(s);
    if Known(s) && !EndsInSpace(s) {
      WithoutSpacesClassified(Lex(s).value);
      ClassifiedWellNamed(Tokenize(s).value);
    }
  }

  /** Which stage fails and why. An unknown character or a trailing blank stops
      the tokenizer. Otherwise only a pop from an empty stack (in the converter
      or the evaluator), a zero divisor or a quotient used as an operand can
      make `calc` fail. */
  lemma AnswerFaults(s: string)
    ensures !Known(s) ==> Answer(s) == Fault(UnknownCharacter)
    ensures Known(s) && EndsInSpace(s) ==> Answer(s) == Fault(IndexPastEnd)
    ensures Known(s) && !EndsInSpace(s) && Answer(s).Fault? ==>
              Answer(s).reason in {PopFromEmpty, ZeroDivision, NotAnInteger}
  {
    TokenizeOutcome(s);
    if Known(s) && !EndsInSpace(s) {
      var ts := Tokenize(s).value;
      ConvertKeeps(ts);
      match Convert(ts)
      case Failed(e) =>
      case Converted(q, _) => RunFaults(q, []);
      case EarlyReturn(q) => RunFaults(q, []);
    }
  }

  /** Whitespace between two tokens does not change the answer. */
  lemma AnswerSpacing(s: string, p: nat, w: string)
    requires p < |s| && |w| > 0 && AllSpace(w) && NotInsideNumber(s, p)
    ensures Answer(Insert(s, p, w)) == Answer(s)
  {
    SpacesBetweenTokens(s, p, w);
  }

  /** A conversion that runs to the end hands the evaluator every number of the
      expression in input order and every operator exactly once; one that
      returns early hands it the numbers of a prefix of the expression. */
  lemma PostfixContents(s: string)
    requires Tokenize(s).Ok?
    ensures Postfix(s).Ok? && Convert(Tokenize(s).value).Converted? ==>
              Numbers(Postfix(s).value) == Numbers(Tokenize(s).value) && Ops(Postfix(s).value) == Ops(Tokenize(s).value)
    ensures Postfix(s).Ok? && Convert(Tokenize(s).value).EarlyReturn? ==>
              exists k :: 0 <= k <= |Tokenize(s).value| && Numbers(Postfix(s).value) == Numbers(Tokenize(s).value[..k])
    ensures Postfix(s).Ok? ==> QueueOk(Postfix(s).value)
    ensures Postfix(s).Fault? ==> Postfix(s).reason == PopFromEmpty
  {
    TokenizeOutcome(s);
    ConvertKeeps(Tokenize(s).value);
  }
}
