/** The inputs of the demo driver (main.py:240-249) and the corner cases the
    code singles out, computed through the model stage by stage.

    Each conversion is walked one token at a time. A step lemma names only the
    tokens that step looks at, and the queue and stack are built by appending
    in the order the code appends, so one step's result is literally the next
    step's input. */
module Demos {
  import opened Outcomes
  import opened Tokens
  import opened Tokenizer
  import opened TokenizerSpec
  import opened Converter
  import opened ConverterProps
  import opened Evaluator
  import opened Calculator

  // ---------------------------------------------------------------------------
  // Tokenizing

  lemma NoSpaces(ts: seq<Token>)
    requires forall k :: 0 <= k < |ts| ==> ts[k].kind != Space
    ensures WithoutSpaces(ts) == ts
  {
  }

  /** A tokenization without whitespace is what `_transf_expr_to_tokens` yields. */
  lemma TokensOf(s: string, ts: seq<Token>)
    requires IsTokenization(s, ts)
    requires forall k :: 0 <= k < |ts| ==> ts[k].kind != Space
    ensures Tokenize(s) == Ok(ts)
  {
    LexCharacterization(s, ts);
    NoSpaces(ts);
  }

  /** The per-token half of `IsTokenization`, with no whitespace token. */
  predicate WellCut(ts: seq<Token>) {
    && AllClassified(ts)
    && Maximal(ts)
    && forall k :: 0 <= k < |ts| ==> ts[k].kind != Space
  }

  lemma TokensOfCut(s: string, ts: seq<Token>)
    requires Concat(ts) == s && WellCut(ts)
    ensures Tokenize(s) == Ok(ts)
  {
    TokensOf(s, ts);
  }

  lemma ConcatCons(t: Token, rest: seq<Token>)
    ensures Concat([t] + rest) == t.text + Concat(rest)
  {
  }

  // ---------------------------------------------------------------------------
  // Converting: one token of `ts` at position `i`

  lemma NumberOn(ts: seq<Token>, i: nat, q: seq<Token>, s: seq<Token>)
    requires i < |ts| - 1 && ts[i].kind == Number && WellNamed(ts[i])
    ensures Loop(ts, i, q, s) == Loop(ts, i + 1, q + [ts[i]], s)
  {
  }

  /** The last token is a number: it is queued and the stack is flushed. */
  lemma NumberLastOn(ts: seq<Token>, q: seq<Token>, s: seq<Token>)
    requires |ts| > 0 && ts[|ts| - 1].kind == Number && WellNamed(ts[|ts| - 1])
    ensures Loop(ts, |ts| - 1, q, s) == Converted(q + [ts[|ts| - 1]] + Reversed(s), [])
  {
  }

  lemma OpenOn(ts: seq<Token>, i: nat, q: seq<Token>, s: seq<Token>)
    requires i < |ts| - 1 && ts[i].kind == LParen && WellNamed(ts[i])
    ensures Loop(ts, i, q, s) == Loop(ts, i + 1, q, s + [ts[i]])
  {
  }

  lemma PushOn(ts: seq<Token>, i: nat, q: seq<Token>, s: seq<Token>)
    requires i < |ts| - 1 && IsOperator(ts[i].kind) && WellNamed(ts[i])
    requires |s| == 0 || Top(s).text == "(" || Top(s).Prior() < ts[i].Prior()
    ensures Loop(ts, i, q, s) == Loop(ts, i + 1, q, s + [ts[i]])
  {
  }

  /** An operator onto an empty stack. */
  lemma PushOnEmpty(ts: seq<Token>, i: nat, q: seq<Token>)
    requires i < |ts| - 1 && IsOperator(ts[i].kind) && WellNamed(ts[i])
    ensures Loop(ts, i, q, []) == Loop(ts, i + 1, q, [] + [ts[i]])
  {
  }

  /** An operator onto '(' or onto an operator of lower priority. */
  lemma PushOnTop(ts: seq<Token>, i: nat, q: seq<Token>, s: seq<Token>, u: Token)
    requires i < |ts| - 1 && IsOperator(ts[i].kind) && WellNamed(ts[i])
    requires u.text == "(" || u.Prior() < ts[i].Prior()
    ensures Loop(ts, i, q, s + [u]) == Loop(ts, i + 1, q, s + [u] + [ts[i]])
  {
  }

  lemma UnloadPops(q: seq<Token>, s: seq<Token>, p: int, last: int, u: Token)
    requires last >= p && u.text != "("
    ensures Unload(q, s + [u], p, last) == Unload(q + [u], s, p, u.Prior())
  {
  }

  lemma UnloadAtOpen(q: seq<Token>, s: seq<Token>, p: int, last: int, o: Token)
    requires last >= p && o.text == "("
    ensures Unload(q, s + [o], p, last) == (q, s + [o])
  {
  }

  lemma PushAfterUnload(q: seq<Token>, s: seq<Token>, t: Token)
    requires |s| > 0 && t.Prior() <= Top(s).Prior()
    ensures PushOperator(q, s, t) == (Unload(q, s, t.Prior(), SentinelPrior).0, Unload(q, s, t.Prior(), SentinelPrior).1 + [t])
  {
  }

  /** The unload loop pops `u`, which is not below the incoming operator, and
      then stops because the stack is empty or shows '('. */
  lemma UnloadsOne(q: seq<Token>, s: seq<Token>, u: Token, t: Token)
    requires u.text != "(" && u.Prior() >= t.Prior() && (|s| == 0 || Top(s).text == "(")
    ensures PushOperator(q, s + [u], t) == (q + [u], s + [t])
  {
    PushAfterUnload(q, s + [u], t);
    UnloadPops(q, s, t.Prior(), SentinelPrior, u);
    if |s| > 0 {
      assert s == Pop(s) + [Top(s)];
      UnloadAtOpen(q + [u], Pop(s), t.Prior(), u.Prior(), Top(s));
    }
  }

  /** The unload loop pops `b`, which is not below the incoming operator, and
      then pops and queues `a` although `a` is below it: the loop tests the
      token it has just popped. */
  lemma UnloadsTwo(q: seq<Token>, s: seq<Token>, a: Token, b: Token, t: Token)
    requires b.text != "(" && b.Prior() >= t.Prior() && a.text != "(" && a.Prior() < t.Prior()
    ensures PushOperator(q, s + [a] + [b], t) == (q + [b] + [a], s + [t])
  {
    PushAfterUnload(q, s + [a] + [b], t);
    UnloadPops(q, s + [a], t.Prior(), SentinelPrior, b);
    UnloadPops(q + [b], s, t.Prior(), b.Prior(), a);
  }

  lemma PopOneOn(ts: seq<Token>, i: nat, q: seq<Token>, s: seq<Token>, u: Token)
    requires i < |ts| - 1 && IsOperator(ts[i].kind) && WellNamed(ts[i])
    requires u.text != "(" && u.Prior() >= ts[i].Prior() && (|s| == 0 || Top(s).text == "(")
    ensures Loop(ts, i, q, s + [u]) == Loop(ts, i + 1, q + [u], s + [ts[i]])
  {
    StepUnfold(q, s + [u], ts[i]);
    UnloadsOne(q, s, u, ts[i]);
  }

  lemma PopTwoOn(ts: seq<Token>, i: nat, q: seq<Token>, s: seq<Token>, a: Token, b: Token)
    requires i < |ts| - 1 && IsOperator(ts[i].kind) && WellNamed(ts[i])
    requires b.text != "(" && b.Prior() >= ts[i].Prior() && a.text != "(" && a.Prior() < ts[i].Prior()
    ensures Loop(ts, i, q, s + [a] + [b]) == Loop(ts, i + 1, q + [b] + [a], s + [ts[i]])
  {
    StepUnfold(q, s + [a] + [b], ts[i]);
    UnloadsTwo(q, s, a, b, ts[i]);
  }

  /** ')' with one operator `v` above the matching '(' `o`. */
  lemma CloseOn(ts: seq<Token>, i: nat, q: seq<Token>, s: seq<Token>, o: Token, v: Token)
    requires i < |ts| - 1 && ts[i].kind == RParen && WellNamed(ts[i])
    requires o.text == "(" && v.text != "("
    ensures Loop(ts, i, q, s + [o] + [v]) == Loop(ts, i + 1, q + [v], s)
  {
    StepUnfold(q, s + [o] + [v], ts[i]);
    assert Pop(s + [o] + [v]) == s + [o] && Pop(s + [o]) == s;
  }

  lemma CloseLastOn(ts: seq<Token>, q: seq<Token>, s: seq<Token>, o: Token, v: Token)
    requires |ts| > 0 && ts[|ts| - 1].kind == RParen && WellNamed(ts[|ts| - 1])
    requires o.text == "(" && v.text != "("
    ensures Loop(ts, |ts| - 1, q, s + [o] + [v]) == Converted(q + [v] + Reversed(s), [])
  {
    StepUnfold(q, s + [o] + [v], ts[|ts| - 1]);
    assert Pop(s + [o] + [v]) == s + [o] && Pop(s + [o]) == s;
  }

  /** ')' when the stack holds one operator and no '(': the conversion returns
      early and the popped operator is lost. */
  lemma EarlyOn(ts: seq<Token>, i: nat, q: seq<Token>, v: Token)
    requires i < |ts| && ts[i].kind == RParen && WellNamed(ts[i]) && v.text != "("
    ensures Loop(ts, i, q, [] + [v]) == EarlyReturn(q)
  {
  }

  /** ')' on an empty stack: the pop fails. */
  lemma FaultOn(ts: seq<Token>, i: nat, q: seq<Token>)
    requires i < |ts| && ts[i].kind == RParen && WellNamed(ts[i])
    ensures Loop(ts, i, q, []) == Failed(PopFromEmpty)
  {
  }

  // ---------------------------------------------------------------------------
  // Evaluating

  lemma RunNumber(q: seq<Token>, t: Token, rest: seq<Token>, st: seq<Value>, st': seq<Value>)
    requires q == [t] + rest && t.kind == Number && !IsOperatorText(t.text) && st' == st + [Text(t.text)]
    ensures Run(q, st) == Run(rest, st')
  {
  }

  lemma RunOperator(q: seq<Token>, t: Token, rest: seq<Token>, s0: seq<Value>, st: seq<Value>,
                    x: string, y: string, a: int, b: int, v: Value, st': seq<Value>)
    requires q == [t] + rest && t.kind != Number && IsOperatorText(t.text)
    requires st == s0 + [Text(x), Text(y)] && ParseInt(x) == Some(a) && ParseInt(y) == Some(b)
    requires Apply(t.text, a, b) == Ok(v) && st' == s0 + [v]
    ensures Run(q, st) == Run(rest, st')
  {
    OperatorStep(t, rest, s0, x, y, a, b);
  }

  lemma ParseText(n: int, s: string)
    requires IntText(n) == s
    ensures ParseInt(s) == Some(n)
  {
    ParseIntText(n);
  }

  /** Number, number, operator. */
  lemma EvalBinary(n: Token, op: Token, m: Token, a: int, b: int)
    requires n.kind == Number && m.kind == Number && op.kind != Number
    requires !IsOperatorText(n.text) && !IsOperatorText(m.text) && IsOperatorText(op.text)
    requires ParseInt(n.text) == Some(a) && ParseInt(m.text) == Some(b)
    ensures Evaluate([n, m, op]) == if Apply(op.text, a, b).Ok? then Ok(Apply(op.text, a, b).value) else Fault(Apply(op.text, a, b).reason)
  {
    assert [n, m, op] == [n] + [m, op] && [m, op] == [m] + [op];
    NumberStep(n, [m, op], []);
    NumberStep(m, [op], [Text(n.text)]);
    assert [] + [Text(n.text)] + [Text(m.text)] == [] + [Text(n.text), Text(m.text)];
    OperatorStep(op, [], [], n.text, m.text, a, b);
    assert [op] == [op] + [];
  }

  lemma AnswerConverted(s: string, ts: seq<Token>, q: seq<Token>)
    requires Tokenize(s) == Ok(ts) && Convert(ts) == Converted(q, [])
    ensures Answer(s) == Evaluate(q)
  {
  }

  lemma AnswerEarly(s: string, ts: seq<Token>, q: seq<Token>)
    requires Tokenize(s) == Ok(ts) && Convert(ts) == EarlyReturn(q)
    ensures Answer(s) == Evaluate(q)
  {
  }

  lemma AnswerFailed(s: string, ts: seq<Token>, e: Reason)
    requires Tokenize(s) == Ok(ts) && Convert(ts) == Failed(e)
    ensures Answer(s) == Fault(e)
  {
  }

  // ---------------------------------------------------------------------------
  // Tokens of the demos

  const One := Token(Number, "1")
  const Two := Token(Number, "2")
  const Three := Token(Number, "3")
  const Four := Token(Number, "4")
  const Five := Token(Number, "5")
  const Six := Token(Number, "6")
  const Eight := Token(Number, "8")
  const Nine := Token(Number, "9")
  const Zero := Token(Number, "0")
  const FiftyTwo := Token(Number, "52")
  const PlusSign := Token(Plus, "+")
  const MinusSign := Token(Minus, "-")
  const TimesSign := Token(Times, "*")
  const DivideSign := Token(Divide, "/")
  const Open := Token(LParen, "(")
  const Close := Token(RParen, ")")

  // ---------------------------------------------------------------------------
  // "5*6+(2-9)" gives "23" (main.py:241-243)

  const FirstTokens := [Five, TimesSign, Six, PlusSign, Open, Two, MinusSign, Nine, Close]
  const FirstPostfix := [Five, Six, TimesSign, Two, Nine, MinusSign, PlusSign]

  lemma FirstConcat()
    ensures Concat(FirstTokens) == "5*6+(2-9)"
  {
    ConcatCons(Close, []);
    ConcatCons(Nine, [Close]);
    ConcatCons(MinusSign, [Nine, Close]);
    ConcatCons(Two, [MinusSign, Nine, Close]);
    ConcatCons(Open, [Two, MinusSign, Nine, Close]);
    ConcatCons(PlusSign, [Open, Two, MinusSign, Nine, Close]);
    ConcatCons(Six, [PlusSign, Open, Two, MinusSign, Nine, Close]);
    ConcatCons(TimesSign, [Six, PlusSign, Open, Two, MinusSign, Nine, Close]);
    ConcatCons(Five, [TimesSign, Six, PlusSign, Open, Two, MinusSign, Nine, Close]);
  }

  lemma FirstCut()
    ensures WellCut(FirstTokens)
  {
  }

  lemma FirstTokenize()
    ensures Tokenize("5*6+(2-9)") == Ok(FirstTokens)
  {
    FirstConcat();
    FirstCut();
    TokensOfCut("5*6+(2-9)", FirstTokens);
  }

  /** `ts` has the kinds of "5*6+(2-9)", and its parentheses are named by their text. */
  predicate FirstShape(ts: seq<Token>) {
    && |ts| == 9
    && ts[0].kind == Number && ts[1].kind == Times && ts[2].kind == Number && ts[3].kind == Plus && ts[4].kind == LParen
    && ts[5].kind == Number && ts[6].kind == Minus && ts[7].kind == Number && ts[8].kind == RParen
    && WellNamed(ts[0]) && WellNamed(ts[1]) && WellNamed(ts[2]) && WellNamed(ts[3]) && WellNamed(ts[4])
    && WellNamed(ts[5]) && WellNamed(ts[6]) && WellNamed(ts[7]) && WellNamed(ts[8])
  }

  lemma FirstStep0(ts: seq<Token>)
    requires |ts| == 9 && ts[0].kind == Number && WellNamed(ts[0])
    ensures Loop(ts, 0, [], []) == Loop(ts, 1, [] + [ts[0]], [])
  {
  }

  lemma FirstStep1(ts: seq<Token>, q: seq<Token>)
    requires |ts| == 9 && ts[1].kind == Times && WellNamed(ts[1])
    ensures Loop(ts, 1, q, []) == Loop(ts, 2, q, [] + [ts[1]])
  {
  }

  lemma FirstStep2(ts: seq<Token>, q: seq<Token>, s: seq<Token>)
    requires |ts| == 9 && ts[2].kind == Number && WellNamed(ts[2])
    ensures Loop(ts, 2, q, s) == Loop(ts, 3, q + [ts[2]], s)
  {
  }

  /** '+' meets '*': '*' is queued. */
  lemma FirstStep3(ts: seq<Token>, q: seq<Token>)
    requires |ts| == 9 && ts[1].kind == Times && WellNamed(ts[1]) && ts[3].kind == Plus && WellNamed(ts[3])
    ensures Loop(ts, 3, q, [] + [ts[1]]) == Loop(ts, 4, q + [ts[1]], [] + [ts[3]])
  {
    PopOneOn(ts, 3, q, [], ts[1]);
  }

  lemma FirstStep4(ts: seq<Token>, q: seq<Token>, s: seq<Token>)
    requires |ts| == 9 && ts[4].kind == LParen && WellNamed(ts[4])
    ensures Loop(ts, 4, q, s) == Loop(ts, 5, q, s + [ts[4]])
  {
  }

  lemma FirstStep5(ts: seq<Token>, q: seq<Token>, s: seq<Token>)
    requires |ts| == 9 && ts[5].kind == Number && WellNamed(ts[5])
    ensures Loop(ts, 5, q, s) == Loop(ts, 6, q + [ts[5]], s)
  {
  }

  /** '-' goes onto '('. */
  lemma FirstStep6(ts: seq<Token>, q: seq<Token>, s: seq<Token>)
    requires |ts| == 9 && ts[4].kind == LParen && WellNamed(ts[4]) && ts[6].kind == Minus && WellNamed(ts[6])
    ensures Loop(ts, 6, q, s + [ts[4]]) == Loop(ts, 7, q, s + [ts[4]] + [ts[6]])
  {
  }

  lemma FirstStep7(ts: seq<Token>, q: seq<Token>, s: seq<Token>)
    requires |ts| == 9 && ts[7].kind == Number && WellNamed(ts[7])
    ensures Loop(ts, 7, q, s) == Loop(ts, 8, q + [ts[7]], s)
  {
  }

  /** ')' queues '-' and drops '('; the stack is flushed. */
  lemma FirstStep8(ts: seq<Token>, q: seq<Token>, s: seq<Token>)
    requires |ts| == 9 && ts[4].kind == LParen && WellNamed(ts[4]) && ts[6].kind == Minus && WellNamed(ts[6])
    requires ts[8].kind == RParen && WellNamed(ts[8])
    ensures Loop(ts, 8, q, s + [ts[4]] + [ts[6]]) == Converted(q + [ts[6]] + Reversed(s), [])
  {
    CloseLastOn(ts, q, s, ts[4], ts[6]);
  }

  lemma FirstSteps(ts: seq<Token>)
    requires FirstShape(ts)
    ensures Convert(ts) == Converted([] + [ts[0]] + [ts[2]] + [ts[1]] + [ts[5]] + [ts[7]] + [ts[6]] + Reversed([] + [ts[3]]), [])
  {
    FirstStep0(ts);
    FirstStep1(ts, [] + [ts[0]]);
    FirstStep2(ts, [] + [ts[0]], [] + [ts[1]]);
    FirstStep3(ts, [] + [ts[0]] + [ts[2]]);
    FirstStep4(ts, [] + [ts[0]] + [ts[2]] + [ts[1]], [] + [ts[3]]);
    FirstStep5(ts, [] + [ts[0]] + [ts[2]] + [ts[1]], [] + [ts[3]] + [ts[4]]);
    FirstStep6(ts, [] + [ts[0]] + [ts[2]] + [ts[1]] + [ts[5]], [] + [ts[3]]);
    FirstStep7(ts, [] + [ts[0]] + [ts[2]] + [ts[1]] + [ts[5]], [] + [ts[3]] + [ts[4]] + [ts[6]]);
    FirstStep8(ts, [] + [ts[0]] + [ts[2]] + [ts[1]] + [ts[5]] + [ts[7]], [] + [ts[3]]);
  }

  lemma FirstQueue(ts: seq<Token>)
    requires |ts| == 9
    ensures [] + [ts[0]] + [ts[2]] + [ts[1]] + [ts[5]] + [ts[7]] + [ts[6]] + Reversed([] + [ts[3]])
         == [ts[0], ts[2], ts[1], ts[5], ts[7], ts[6], ts[3]]
  {
  }

  lemma FirstConvert()
    ensures Convert(FirstTokens) == Converted(FirstPostfix, [])
  {
    assert FirstShape(FirstTokens);
    FirstSteps(FirstTokens);
    FirstQueue(FirstTokens);
  }

  lemma FirstEval0()
    ensures Run(FirstPostfix, []) == Run([Six, TimesSign, Two, Nine, MinusSign, PlusSign], [Text("5")])
  {
  }

  lemma FirstEval1()
    ensures Run([Six, TimesSign, Two, Nine, MinusSign, PlusSign], [Text("5")])
         == Run([TimesSign, Two, Nine, MinusSign, PlusSign], [Text("5"), Text("6")])
  {
  }

  /** 5 * 6 */
  lemma FirstEval2()
    ensures Run([TimesSign, Two, Nine, MinusSign, PlusSign], [Text("5"), Text("6")])
         == Run([Two, Nine, MinusSign, PlusSign], [Text("30")])
  {
    ParseText(5, "5");
    ParseText(6, "6");
    assert IntText(30) == "30";
    RunOperator([TimesSign, Two, Nine, MinusSign, PlusSign], TimesSign, [Two, Nine, MinusSign, PlusSign],
                [], [Text("5"), Text("6")], "5", "6", 5, 6, Text("30"), [Text("30")]);
  }

  lemma FirstEval3()
    ensures Run([Two, Nine, MinusSign, PlusSign], [Text("30")])
         == Run([Nine, MinusSign, PlusSign], [Text("30"), Text("2")])
  {
    RunNumber([Two, Nine, MinusSign, PlusSign], Two, [Nine, MinusSign, PlusSign], [Text("30")], [Text("30"), Text("2")]);
  }

  lemma FirstEval4()
    ensures Run([Nine, MinusSign, PlusSign], [Text("30"), Text("2")])
         == Run([MinusSign, PlusSign], [Text("30"), Text("2"), Text("9")])
  {
    RunNumber([Nine, MinusSign, PlusSign], Nine, [MinusSign, PlusSign], [Text("30"), Text("2")], [Text("30"), Text("2"), Text("9")]);
  }

  /** 2 - 9: the right operand is the one popped first. */
  lemma FirstEval5()
    ensures Run([MinusSign, PlusSign], [Text("30"), Text("2"), Text("9")]) == Run([PlusSign], [Text("30"), Text("-7")])
  {
    ParseText(2, "2");
    ParseText(9, "9");
    assert IntText(-7) == "-7";
    RunOperator([MinusSign, PlusSign], MinusSign, [PlusSign], [Text("30")], [Text("30"), Text("2"), Text("9")],
                "2", "9", 2, 9, Text("-7"), [Text("30"), Text("-7")]);
  }

  /** 30 + -7 */
  lemma FirstEval6()
    ensures Run([PlusSign], [Text("30"), Text("-7")]) == Ok(Text("23"))
  {
    ParseText(30, "30");
    ParseText(-7, "-7");
    assert IntText(23) == "23";
    RunOperator([PlusSign], PlusSign, [], [], [Text("30"), Text("-7")], "30", "-7", 30, -7, Text("23"), [Text("23")]);
  }

  lemma FirstEvaluate()
    ensures Evaluate(FirstPostfix) == Ok(Text("23"))
  {
    FirstEval0();
    FirstEval1();
    FirstEval2();
    FirstEval3();
    FirstEval4();
    FirstEval5();
    FirstEval6();
  }

  /** The first line of the demo driver. */
  lemma FirstDemo()
    ensures Answer("5*6+(2-9)") == Ok(Text("23"))
  {
    FirstTokenize();
    FirstConvert();
    FirstEvaluate();
    AnswerConverted("5*6+(2-9)", FirstTokens, FirstPostfix);
  }

  // ---------------------------------------------------------------------------
  // "6 * (52 + 3) * 4" gives "1320" (main.py:245-246)

  const SecondTokens := [Six, TimesSign, Open, FiftyTwo, PlusSign, Three, Close, TimesSign, Four]
  const SecondPostfix := [Six, FiftyTwo, Three, PlusSign, TimesSign, Four, TimesSign]

  lemma SecondConcat()
    ensures Concat(SecondTokens) == "6*(52+3)*4"
  {
    ConcatCons(Four, []);
    ConcatCons(TimesSign, [Four]);
    ConcatCons(Close, [TimesSign, Four]);
    ConcatCons(Three, [Close, TimesSign, Four]);
    ConcatCons(PlusSign, [Three, Close, TimesSign, Four]);
    ConcatCons(FiftyTwo, [PlusSign, Three, Close, TimesSign, Four]);
    ConcatCons(Open, [FiftyTwo, PlusSign, Three, Close, TimesSign, Four]);
    ConcatCons(TimesSign, [Open, FiftyTwo, PlusSign, Three, Close, TimesSign, Four]);
    ConcatCons(Six, [TimesSign, Open, FiftyTwo, PlusSign, Three, Close, TimesSign, Four]);
  }

  /** One blank inserted between two tokens of a demo input. */
  lemma Blank(s: string, p: nat, t: string)
    requires p < |s| && NotInsideNumber(s, p) && t == Insert(s, p, " ")
    ensures Tokenize(t) == Tokenize(s)
  {
    SpacesBetweenTokens(s, p, " ");
  }

  /** Blanks around the first '*' of the demo input sit between tokens. */
  lemma SpaceFirstTimes()
    ensures Tokenize("6 * (52+3)*4") == Tokenize("6*(52+3)*4")
  {
    Blank("6*(52+3)*4", 1, "6 *(52+3)*4");
    Blank("6 *(52+3)*4", 3, "6 * (52+3)*4");
  }

  /** Blanks around the '+' of the demo input sit between tokens. */
  lemma SpacePlus()
    ensures Tokenize("6 * (52 + 3)*4") == Tokenize("6 * (52+3)*4")
  {
    Blank("6 * (52+3)*4", 7, "6 * (52 +3)*4");
    Blank("6 * (52 +3)*4", 9, "6 * (52 + 3)*4");
  }

  /** Blanks around the last '*' of the demo input sit between tokens. */
  lemma SpaceLastTimes()
    ensures Tokenize("6 * (52 + 3) * 4") == Tokenize("6 * (52 + 3)*4")
  {
    Blank("6 * (52 + 3)*4", 12, "6 * (52 + 3) *4");
    Blank("6 * (52 + 3) *4", 14, "6 * (52 + 3) * 4");
  }

  /** The blanks of the demo input sit between tokens. */
  lemma SecondSpacing()
    ensures Tokenize("6 * (52 + 3) * 4") == Tokenize("6*(52+3)*4")
  {
    SpaceFirstTimes();
    SpacePlus();
    SpaceLastTimes();
  }

  lemma SecondCut()
    ensures WellCut(SecondTokens)
  {
  }

  lemma SecondTokenize()
    ensures Tokenize("6 * (52 + 3) * 4") == Ok(SecondTokens)
  {
    SecondConcat();
    SecondCut();
    TokensOfCut("6*(52+3)*4", SecondTokens);
    SecondSpacing();
  }

  /** `ts` has the kinds of "6*(52+3)*4", and its parentheses are named by their text. */
  predicate SecondShape(ts: seq<Token>) {
    && |ts| == 9
    && ts[0].kind == Number && ts[1].kind == Times && ts[2].kind == LParen && ts[3].kind == Number && ts[4].kind == Plus
    && ts[5].kind == Number && ts[6].kind == RParen && ts[7].kind == Times && ts[8].kind == Number
    && WellNamed(ts[0]) && WellNamed(ts[1]) && WellNamed(ts[2]) && WellNamed(ts[3]) && WellNamed(ts[4])
    && WellNamed(ts[5]) && WellNamed(ts[6]) && WellNamed(ts[7]) && WellNamed(ts[8])
  }

  lemma SecondStep0(ts: seq<Token>)
    requires |ts| == 9 && ts[0].kind == Number && WellNamed(ts[0])
    ensures Loop(ts, 0, [], []) == Loop(ts, 1, [] + [ts[0]], [])
  {
  }

  lemma SecondStep1(ts: seq<Token>, q: seq<Token>)
    requires |ts| == 9 && ts[1].kind == Times && WellNamed(ts[1])
    ensures Loop(ts, 1, q, []) == Loop(ts, 2, q, [] + [ts[1]])
  {
  }

  lemma SecondStep2(ts: seq<Token>, q: seq<Token>, s: seq<Token>)
    requires |ts| == 9 && ts[2].kind == LParen && WellNamed(ts[2])
    ensures Loop(ts, 2, q, s) == Loop(ts, 3, q, s + [ts[2]])
  {
  }

  lemma SecondStep3(ts: seq<Token>, q: seq<Token>, s: seq<Token>)
    requires |ts| == 9 && ts[3].kind == Number && WellNamed(ts[3])
    ensures Loop(ts, 3, q, s) == Loop(ts, 4, q + [ts[3]], s)
  {
  }

  /** '+' goes onto '(': the unload loop pops '(' and pushes it back. */
  lemma SecondStep4(ts: seq<Token>, q: seq<Token>, s: seq<Token>)
    requires |ts| == 9 && ts[2].kind == LParen && WellNamed(ts[2]) && ts[4].kind == Plus && WellNamed(ts[4])
    ensures Loop(ts, 4, q, s + [ts[2]]) == Loop(ts, 5, q, s + [ts[2]] + [ts[4]])
  {
  }

  lemma SecondStep5(ts: seq<Token>, q: seq<Token>, s: seq<Token>)
    requires |ts| == 9 && ts[5].kind == Number && WellNamed(ts[5])
    ensures Loop(ts, 5, q, s) == Loop(ts, 6, q + [ts[5]], s)
  {
  }

  /** ')' queues '+' and drops '('. */
  lemma SecondStep6(ts: seq<Token>, q: seq<Token>, s: seq<Token>)
    requires |ts| == 9 && ts[2].kind == LParen && WellNamed(ts[2]) && ts[4].kind == Plus && WellNamed(ts[4])
    requires ts[6].kind == RParen && WellNamed(ts[6])
    ensures Loop(ts, 6, q, s + [ts[2]] + [ts[4]]) == Loop(ts, 7, q + [ts[4]], s)
  {
    CloseOn(ts, 6, q, s, ts[2], ts[4]);
  }

  /** The second '*' meets the first: the first is queued. */
  lemma SecondStep7(ts: seq<Token>, q: seq<Token>)
    requires |ts| == 9 && ts[1].kind == Times && WellNamed(ts[1]) && ts[7].kind == Times && WellNamed(ts[7])
    ensures Loop(ts, 7, q, [] + [ts[1]]) == Loop(ts, 8, q + [ts[1]], [] + [ts[7]])
  {
    PopOneOn(ts, 7, q, [], ts[1]);
  }

  lemma SecondStep8(ts: seq<Token>, q: seq<Token>, s: seq<Token>)
    requires |ts| == 9 && ts[8].kind == Number && WellNamed(ts[8])
    ensures Loop(ts, 8, q, s) == Converted(q + [ts[8]] + Reversed(s), [])
  {
  }

  lemma SecondSteps(ts: seq<Token>)
    requires SecondShape(ts)
    ensures Convert(ts) == Converted([] + [ts[0]] + [ts[3]] + [ts[5]] + [ts[4]] + [ts[1]] + [ts[8]] + Reversed([] + [ts[7]]), [])
  {
    SecondStep0(ts);
    SecondStep1(ts, [] + [ts[0]]);
    SecondStep2(ts, [] + [ts[0]], [] + [ts[1]]);
    SecondStep3(ts, [] + [ts[0]], [] + [ts[1]] + [ts[2]]);
    SecondStep4(ts, [] + [ts[0]] + [ts[3]], [] + [ts[1]]);
    SecondStep5(ts, [] + [ts[0]] + [ts[3]], [] + [ts[1]] + [ts[2]] + [ts[4]]);
    SecondStep6(ts, [] + [ts[0]] + [ts[3]] + [ts[5]], [] + [ts[1]]);
    SecondStep7(ts, [] + [ts[0]] + [ts[3]] + [ts[5]] + [ts[4]]);
    SecondStep8(ts, [] + [ts[0]] + [ts[3]] + [ts[5]] + [ts[4]] + [ts[1]], [] + [ts[7]]);
  }

  lemma SecondQueue(ts: seq<Token>)
    requires |ts| == 9
    ensures [] + [ts[0]] + [ts[3]] + [ts[5]] + [ts[4]] + [ts[1]] + [ts[8]] + Reversed([] + [ts[7]])
         == [ts[0], ts[3], ts[5], ts[4], ts[1], ts[8], ts[7]]
  {
  }

  lemma SecondConvert()
    ensures Convert(SecondTokens) == Converted(SecondPostfix, [])
  {
    assert SecondShape(SecondTokens);
    SecondSteps(SecondTokens);
    SecondQueue(SecondTokens);
  }

  lemma SecondEval0()
    ensures Run(SecondPostfix, []) == Run([FiftyTwo, Three, PlusSign, TimesSign, Four, TimesSign], [Text("6")])
  {
  }

  lemma SecondEval1()
    ensures Run([FiftyTwo, Three, PlusSign, TimesSign, Four, TimesSign], [Text("6")])
         == Run([Three, PlusSign, TimesSign, Four, TimesSign], [Text("6"), Text("52")])
  {
    RunNumber([FiftyTwo, Three, PlusSign, TimesSign, Four, TimesSign], FiftyTwo, [Three, PlusSign, TimesSign, Four, TimesSign],
              [Text("6")], [Text("6"), Text("52")]);
  }

  lemma SecondEval2()
    ensures Run([Three, PlusSign, TimesSign, Four, TimesSign], [Text("6"), Text("52")])
         == Run([PlusSign, TimesSign, Four, TimesSign], [Text("6"), Text("52"), Text("3")])
  {
    RunNumber([Three, PlusSign, TimesSign, Four, TimesSign], Three, [PlusSign, TimesSign, Four, TimesSign],
              [Text("6"), Text("52")], [Text("6"), Text("52"), Text("3")]);
  }

  /** 52 + 3 */
  lemma SecondEval3()
    ensures Run([PlusSign, TimesSign, Four, TimesSign], [Text("6"), Text("52"), Text("3")])
         == Run([TimesSign, Four, TimesSign], [Text("6"), Text("55")])
  {
    ParseText(52, "52");
    ParseText(3, "3");
    assert IntText(55) == "55";
    RunOperator([PlusSign, TimesSign, Four, TimesSign], PlusSign, [TimesSign, Four, TimesSign], [Text("6")],
                [Text("6"), Text("52"), Text("3")], "52", "3", 52, 3, Text("55"), [Text("6"), Text("55")]);
  }

  /** 6 * 55 */
  lemma SecondEval4()
    ensures Run([TimesSign, Four, TimesSign], [Text("6"), Text("55")]) == Run([Four, TimesSign], [Text("330")])
  {
    ParseText(6, "6");
    ParseText(55, "55");
    assert IntText(330) == "330";
    RunOperator([TimesSign, Four, TimesSign], TimesSign, [Four, TimesSign], [], [Text("6"), Text("55")],
                "6", "55", 6, 55, Text("330"), [Text("330")]);
  }

  lemma SecondEval5()
    ensures Run([Four, TimesSign], [Text("330")]) == Run([TimesSign], [Text("330"), Text("4")])
  {
  }

  /** 330 * 4 */
  lemma SecondEval6()
    ensures Run([TimesSign], [Text("330"), Text("4")]) == Ok(Text("1320"))
  {
    ParseText(330, "330");
    ParseText(4, "4");
    assert IntText(1320) == "1320";
    RunOperator([TimesSign], TimesSign, [], [], [Text("330"), Text("4")], "330", "4", 330, 4, Text("1320"), [Text("1320")]);
  }

  lemma SecondEvaluate()
    ensures Evaluate(SecondPostfix) == Ok(Text("1320"))
  {
    SecondEval0();
    SecondEval1();
    SecondEval2();
    SecondEval3();
    SecondEval4();
    SecondEval5();
    SecondEval6();
  }

  /** The second line of the demo driver. */
  lemma SecondDemo()
    ensures Answer("6 * (52 + 3) * 4") == Ok(Text("1320"))
  {
    SecondTokenize();
    SecondConvert();
    SecondEvaluate();
    AnswerConverted("6 * (52 + 3) * 4", SecondTokens, SecondPostfix);
  }

  // ---------------------------------------------------------------------------
  // "6 * 4" gives "24" (main.py:248-249)

  const ThirdTokens := [Six, TimesSign, Four]
  const ThirdPostfix := [Six, Four, TimesSign]

  lemma ThirdConcat()
    ensures Concat(ThirdTokens) == "6*4"
  {
    ConcatCons(Four, []);
    ConcatCons(TimesSign, [Four]);
    ConcatCons(Six, [TimesSign, Four]);
  }

  lemma ThirdCut()
    ensures WellCut(ThirdTokens)
  {
  }

  /** "6 * 4" and "6*4" tokenize alike. */
  lemma ThirdTokenize()
    ensures Tokenize("6 * 4") == Ok(ThirdTokens) && Tokenize("6*4") == Ok(ThirdTokens)
  {
    ThirdConcat();
    ThirdCut();
    TokensOfCut("6*4", ThirdTokens);
    Blank("6*4", 1, "6 *4");
    Blank("6 *4", 3, "6 * 4");
  }

  lemma ThirdStep0(ts: seq<Token>)
    requires |ts| == 3 && ts[0].kind == Number && WellNamed(ts[0])
    ensures Loop(ts, 0, [], []) == Loop(ts, 1, [] + [ts[0]], [])
  {
  }

  lemma ThirdStep1(ts: seq<Token>, q: seq<Token>)
    requires |ts| == 3 && ts[1].kind == Times && WellNamed(ts[1])
    ensures Loop(ts, 1, q, []) == Loop(ts, 2, q, [] + [ts[1]])
  {
  }

  lemma ThirdStep2(ts: seq<Token>, q: seq<Token>, s: seq<Token>)
    requires |ts| == 3 && ts[2].kind == Number && WellNamed(ts[2])
    ensures Loop(ts, 2, q, s) == Converted(q + [ts[2]] + Reversed(s), [])
  {
  }

  /** `ts` has the kinds of "6*4". */
  predicate ThirdShape(ts: seq<Token>) {
    && |ts| == 3
    && ts[0].kind == Number && ts[1].kind == Times && ts[2].kind == Number
    && WellNamed(ts[0]) && WellNamed(ts[1]) && WellNamed(ts[2])
  }

  lemma ThirdSteps(ts: seq<Token>)
    requires ThirdShape(ts)
    ensures Convert(ts) == Converted([] + [ts[0]] + [ts[2]] + Reversed([] + [ts[1]]), [])
  {
    ThirdStep0(ts);
    ThirdStep1(ts, [] + [ts[0]]);
    ThirdStep2(ts, [] + [ts[0]], [] + [ts[1]]);
  }

  lemma ThirdQueue(ts: seq<Token>)
    requires |ts| == 3
    ensures [] + [ts[0]] + [ts[2]] + Reversed([] + [ts[1]]) == [ts[0], ts[2], ts[1]]
  {
  }

  lemma ThirdConvert()
    ensures Convert(ThirdTokens) == Converted(ThirdPostfix, [])
  {
    assert ThirdShape(ThirdTokens);
    ThirdSteps(ThirdTokens);
    ThirdQueue(ThirdTokens);
  }

  lemma ThirdEvaluate()
    ensures Evaluate(ThirdPostfix) == Ok(Text("24"))
  {
    ParseText(6, "6");
    ParseText(4, "4");
    assert IntText(24) == "24";
    EvalBinary(Six, TimesSign, Four, 6, 4);
  }

  /** The third line of the demo driver. */
  lemma ThirdDemo()
    ensures Answer("6 * 4") == Ok(Text("24"))
  {
    ThirdTokenize();
    ThirdConvert();
    ThirdEvaluate();
    AnswerConverted("6 * 4", ThirdTokens, ThirdPostfix);
  }

  // ---------------------------------------------------------------------------
  // "1+2*3*4": the second '*' unloads '*' and then '+' as well, because the
  // unload loop tests the token it has just queued (main.py:171-177), so the
  // answer is 28 and not 25.

  const ChainTokens := [One, PlusSign, Two, TimesSign, Three, TimesSign, Four]
  const ChainPostfix := [One, Two, Three, TimesSign, PlusSign, Four, TimesSign]

  lemma ChainConcat()
    ensures Concat(ChainTokens) == "1+2*3*4"
  {
    ConcatCons(Four, []);
    ConcatCons(TimesSign, [Four]);
    ConcatCons(Three, [TimesSign, Four]);
    ConcatCons(TimesSign, [Three, TimesSign, Four]);
    ConcatCons(Two, [TimesSign, Three, TimesSign, Four]);
    ConcatCons(PlusSign, [Two, TimesSign, Three, TimesSign, Four]);
    ConcatCons(One, [PlusSign, Two, TimesSign, Three, TimesSign, Four]);
  }

  lemma ChainCut()
    ensures WellCut(ChainTokens)
  {
  }

  lemma ChainTokenize()
    ensures Tokenize("1+2*3*4") == Ok(ChainTokens)
  {
    ChainConcat();
    ChainCut();
    TokensOfCut("1+2*3*4", ChainTokens);
  }

  /** `ts` has the kinds of "1+2*3*4". */
  predicate ChainShape(ts: seq<Token>) {
    && |ts| == 7
    && ts[0].kind == Number && ts[1].kind == Plus && ts[2].kind == Number && ts[3].kind == Times
    && ts[4].kind == Number && ts[5].kind == Times && ts[6].kind == Number
    && WellNamed(ts[0]) && WellNamed(ts[1]) && WellNamed(ts[2]) && WellNamed(ts[3])
    && WellNamed(ts[4]) && WellNamed(ts[5]) && WellNamed(ts[6])
  }

  lemma ChainStep0(ts: seq<Token>)
    requires |ts| == 7 && ts[0].kind == Number && WellNamed(ts[0])
    ensures Loop(ts, 0, [], []) == Loop(ts, 1, [] + [ts[0]], [])
  {
  }

  lemma ChainStep1(ts: seq<Token>, q: seq<Token>)
    requires |ts| == 7 && ts[1].kind == Plus && WellNamed(ts[1])
    ensures Loop(ts, 1, q, []) == Loop(ts, 2, q, [] + [ts[1]])
  {
  }

  lemma ChainStep2(ts: seq<Token>, q: seq<Token>, s: seq<Token>)
    requires |ts| == 7 && ts[2].kind == Number && WellNamed(ts[2])
    ensures Loop(ts, 2, q, s) == Loop(ts, 3, q + [ts[2]], s)
  {
  }

  /** '*' goes onto the lower-priority '+'. */
  lemma ChainStep3(ts: seq<Token>, q: seq<Token>)
    requires |ts| == 7 && ts[1].kind == Plus && WellNamed(ts[1]) && ts[3].kind == Times && WellNamed(ts[3])
    ensures Loop(ts, 3, q, [] + [ts[1]]) == Loop(ts, 4, q, [] + [ts[1]] + [ts[3]])
  {
  }

  lemma ChainStep4(ts: seq<Token>, q: seq<Token>, s: seq<Token>)
    requires |ts| == 7 && ts[4].kind == Number && WellNamed(ts[4])
    ensures Loop(ts, 4, q, s) == Loop(ts, 5, q + [ts[4]], s)
  {
  }

  /** The second '*' queues the first, and then '+' below it. */
  lemma ChainStep5(ts: seq<Token>, q: seq<Token>)
    requires |ts| == 7 && ts[1].kind == Plus && WellNamed(ts[1]) && ts[3].kind == Times && WellNamed(ts[3])
    requires ts[5].kind == Times && WellNamed(ts[5])
    ensures Loop(ts, 5, q, [] + [ts[1]] + [ts[3]]) == Loop(ts, 6, q + [ts[3]] + [ts[1]], [] + [ts[5]])
  {
    PopTwoOn(ts, 5, q, [], ts[1], ts[3]);
  }

  lemma ChainStep6(ts: seq<Token>, q: seq<Token>, s: seq<Token>)
    requires |ts| == 7 && ts[6].kind == Number && WellNamed(ts[6])
    ensures Loop(ts, 6, q, s) == Converted(q + [ts[6]] + Reversed(s), [])
  {
  }

  lemma ChainSteps(ts: seq<Token>)
    requires ChainShape(ts)
    ensures Convert(ts) == Converted([] + [ts[0]] + [ts[2]] + [ts[4]] + [ts[3]] + [ts[1]] + [ts[6]] + Reversed([] + [ts[5]]), [])
  {
    ChainStep0(ts);
    ChainStep1(ts, [] + [ts[0]]);
    ChainStep2(ts, [] + [ts[0]], [] + [ts[1]]);
    ChainStep3(ts, [] + [ts[0]] + [ts[2]]);
    ChainStep4(ts, [] + [ts[0]] + [ts[2]], [] + [ts[1]] + [ts[3]]);
    ChainStep5(ts, [] + [ts[0]] + [ts[2]] + [ts[4]]);
    ChainStep6(ts, [] + [ts[0]] + [ts[2]] + [ts[4]] + [ts[3]] + [ts[1]], [] + [ts[5]]);
  }

  lemma ChainQueue(ts: seq<Token>)
    requires |ts| == 7
    ensures [] + [ts[0]] + [ts[2]] + [ts[4]] + [ts[3]] + [ts[1]] + [ts[6]] + Reversed([] + [ts[5]])
         == [ts[0], ts[2], ts[4], ts[3], ts[1], ts[6], ts[5]]
  {
  }

  /** The postfix form is `1 2 3 * + 4 *`. */
  lemma ChainConvert()
    ensures Convert(ChainTokens) == Converted(ChainPostfix, [])
  {
    assert ChainShape(ChainTokens);
    ChainSteps(ChainTokens);
    ChainQueue(ChainTokens);
  }

  lemma ChainEval0()
    ensures Run(ChainPostfix, []) == Run([Three, TimesSign, PlusSign, Four, TimesSign], [Text("1"), Text("2")])
  {
    RunNumber(ChainPostfix, One, [Two, Three, TimesSign, PlusSign, Four, TimesSign], [], [Text("1")]);
    RunNumber([Two, Three, TimesSign, PlusSign, Four, TimesSign], Two, [Three, TimesSign, PlusSign, Four, TimesSign],
              [Text("1")], [Text("1"), Text("2")]);
  }

  lemma ChainEval1()
    ensures Run([Three, TimesSign, PlusSign, Four, TimesSign], [Text("1"), Text("2")])
         == Run([TimesSign, PlusSign, Four, TimesSign], [Text("1"), Text("2"), Text("3")])
  {
    RunNumber([Three, TimesSign, PlusSign, Four, TimesSign], Three, [TimesSign, PlusSign, Four, TimesSign],
              [Text("1"), Text("2")], [Text("1"), Text("2"), Text("3")]);
  }

  /** 2 * 3 */
  lemma ChainEval2()
    ensures Run([TimesSign, PlusSign, Four, TimesSign], [Text("1"), Text("2"), Text("3")])
         == Run([PlusSign, Four, TimesSign], [Text("1"), Text("6")])
  {
    ParseText(2, "2");
    ParseText(3, "3");
    assert IntText(6) == "6";
    RunOperator([TimesSign, PlusSign, Four, TimesSign], TimesSign, [PlusSign, Four, TimesSign], [Text("1")],
                [Text("1"), Text("2"), Text("3")], "2", "3", 2, 3, Text("6"), [Text("1"), Text("6")]);
  }

  /** 1 + 6 */
  lemma ChainEval3()
    ensures Run([PlusSign, Four, TimesSign], [Text("1"), Text("6")]) == Run([Four, TimesSign], [Text("7")])
  {
    ParseText(1, "1");
    ParseText(6, "6");
    assert IntText(7) == "7";
    RunOperator([PlusSign, Four, TimesSign], PlusSign, [Four, TimesSign], [], [Text("1"), Text("6")],
                "1", "6", 1, 6, Text("7"), [Text("7")]);
  }

  lemma ChainEval4()
    ensures Run([Four, TimesSign], [Text("7")]) == Run([TimesSign], [Text("7"), Text("4")])
  {
  }

  /** 7 * 4 */
  lemma ChainEval5()
    ensures Run([TimesSign], [Text("7"), Text("4")]) == Ok(Text("28"))
  {
    ParseText(7, "7");
    ParseText(4, "4");
    assert IntText(28) == "28";
    RunOperator([TimesSign], TimesSign, [], [], [Text("7"), Text("4")], "7", "4", 7, 4, Text("28"), [Text("28")]);
  }

  /** "1+2*3*4" gives "28": `(1 + 2*3) * 4` rather than `1 + 2*3*4`. */
  lemma ChainDemo()
    ensures Answer("1+2*3*4") == Ok(Text("28"))
  {
    ChainTokenize();
    ChainConvert();
    ChainEval0();
    ChainEval1();
    ChainEval2();
    ChainEval3();
    ChainEval4();
    ChainEval5();
    AnswerConverted("1+2*3*4", ChainTokens, ChainPostfix);
  }

  // ---------------------------------------------------------------------------
  // "2+3)": the unmatched ')' pops '+', finds the stack empty and returns
  // early; '+' is lost, and the queue `2 3` is evaluated all the same.

  const UnmatchedTokens := [Two, PlusSign, Three, Close]

  lemma UnmatchedCut()
    ensures WellCut(UnmatchedTokens)
  {
  }

  lemma UnmatchedTokenize()
    ensures Tokenize("2+3)") == Ok(UnmatchedTokens)
  {
    ConcatCons(Close, []);
    ConcatCons(Three, [Close]);
    ConcatCons(PlusSign, [Three, Close]);
    ConcatCons(Two, [PlusSign, Three, Close]);
    UnmatchedCut();
    TokensOfCut("2+3)", UnmatchedTokens);
  }

  /** `ts` has the kinds of "2+3)". */
  predicate UnmatchedShape(ts: seq<Token>) {
    && |ts| == 4
    && ts[0].kind == Number && ts[1].kind == Plus && ts[2].kind == Number && ts[3].kind == RParen
    && WellNamed(ts[0]) && WellNamed(ts[1]) && WellNamed(ts[2]) && WellNamed(ts[3])
  }

  lemma UnmatchedStep0(ts: seq<Token>)
    requires |ts| == 4 && ts[0].kind == Number && WellNamed(ts[0])
    ensures Loop(ts, 0, [], []) == Loop(ts, 1, [] + [ts[0]], [])
  {
  }

  lemma UnmatchedStep1(ts: seq<Token>, q: seq<Token>)
    requires |ts| == 4 && ts[1].kind == Plus && WellNamed(ts[1])
    ensures Loop(ts, 1, q, []) == Loop(ts, 2, q, [] + [ts[1]])
  {
  }

  lemma UnmatchedStep2(ts: seq<Token>, q: seq<Token>, s: seq<Token>)
    requires |ts| == 4 && ts[2].kind == Number && WellNamed(ts[2])
    ensures Loop(ts, 2, q, s) == Loop(ts, 3, q + [ts[2]], s)
  {
  }

  /** ')' pops '+' and finds nothing below it. */
  lemma UnmatchedStep3(ts: seq<Token>, q: seq<Token>)
    requires |ts| == 4 && ts[1].kind == Plus && WellNamed(ts[1]) && ts[3].kind == RParen && WellNamed(ts[3])
    ensures Loop(ts, 3, q, [] + [ts[1]]) == EarlyReturn(q)
  {
  }

  lemma UnmatchedSteps(ts: seq<Token>)
    requires UnmatchedShape(ts)
    ensures Convert(ts) == EarlyReturn([] + [ts[0]] + [ts[2]])
  {
    UnmatchedStep0(ts);
    UnmatchedStep1(ts, [] + [ts[0]]);
    UnmatchedStep2(ts, [] + [ts[0]], [] + [ts[1]]);
    UnmatchedStep3(ts, [] + [ts[0]] + [ts[2]]);
  }

  lemma UnmatchedConvert()
    ensures Convert(UnmatchedTokens) == EarlyReturn([Two, Three])
  {
    assert UnmatchedShape(UnmatchedTokens);
    UnmatchedSteps(UnmatchedTokens);
  }

  lemma UnmatchedEvaluate()
    ensures Evaluate([Two, Three]) == Ok(Text("3"))
  {
    RunNumber([Two, Three], Two, [Three], [], [Text("2")]);
    RunNumber([Three], Three, [], [Text("2")], [Text("2"), Text("3")]);
  }

  /** "2+3)" gives "3": the top of the stack once the partial queue is used up. */
  lemma UnmatchedDemo()
    ensures Answer("2+3)") == Ok(Text("3"))
  {
    UnmatchedTokenize();
    UnmatchedConvert();
    UnmatchedEvaluate();
    AnswerEarly("2+3)", UnmatchedTokens, [Two, Three]);
  }

  // ---------------------------------------------------------------------------
  // "(1+2))": the first ')' closes the group and empties the stack; the
  // second pops from the empty stack.

  const ExtraCloseTokens := [Open, One, PlusSign, Two, Close, Close]

  lemma ExtraCloseCut()
    ensures WellCut(ExtraCloseTokens)
  {
  }

  lemma ExtraCloseTokenize()
    ensures Tokenize("(1+2))") == Ok(ExtraCloseTokens)
  {
    ConcatCons(Close, []);
    ConcatCons(Close, [Close]);
    ConcatCons(Two, [Close, Close]);
    ConcatCons(PlusSign, [Two, Close, Close]);
    ConcatCons(One, [PlusSign, Two, Close, Close]);
    ConcatCons(Open, [One, PlusSign, Two, Close, Close]);
    ExtraCloseCut();
    TokensOfCut("(1+2))", ExtraCloseTokens);
  }

  /** `ts` has the kinds of "(1+2))". */
  predicate ExtraCloseShape(ts: seq<Token>) {
    && |ts| == 6
    && ts[0].kind == LParen && ts[1].kind == Number && ts[2].kind == Plus && ts[3].kind == Number
    && ts[4].kind == RParen && ts[5].kind == RParen
    && WellNamed(ts[0]) && WellNamed(ts[1]) && WellNamed(ts[2]) && WellNamed(ts[3])
    && WellNamed(ts[4]) && WellNamed(ts[5])
  }

  lemma ExtraCloseStep0(ts: seq<Token>)
    requires |ts| == 6 && ts[0].kind == LParen && WellNamed(ts[0])
    ensures Loop(ts, 0, [], []) == Loop(ts, 1, [], [] + [ts[0]])
  {
    OpenOn(ts, 0, [], []);
  }

  lemma ExtraCloseStep1(ts: seq<Token>, s: seq<Token>)
    requires |ts| == 6 && ts[1].kind == Number && WellNamed(ts[1])
    ensures Loop(ts, 1, [], s) == Loop(ts, 2, [] + [ts[1]], s)
  {
  }

  lemma ExtraCloseStep2(ts: seq<Token>, q: seq<Token>)
    requires |ts| == 6 && ts[0].kind == LParen && WellNamed(ts[0]) && ts[2].kind == Plus && WellNamed(ts[2])
    ensures Loop(ts, 2, q, [] + [ts[0]]) == Loop(ts, 3, q, [] + [ts[0]] + [ts[2]])
  {
  }

  lemma ExtraCloseStep3(ts: seq<Token>, q: seq<Token>, s: seq<Token>)
    requires |ts| == 6 && ts[3].kind == Number && WellNamed(ts[3])
    ensures Loop(ts, 3, q, s) == Loop(ts, 4, q + [ts[3]], s)
  {
  }

  lemma ExtraCloseStep4(ts: seq<Token>, q: seq<Token>)
    requires |ts| == 6 && ts[0].kind == LParen && WellNamed(ts[0]) && ts[2].kind == Plus && WellNamed(ts[2])
    requires ts[4].kind == RParen && WellNamed(ts[4])
    ensures Loop(ts, 4, q, [] + [ts[0]] + [ts[2]]) == Loop(ts, 5, q + [ts[2]], [])
  {
    CloseOn(ts, 4, q, [], ts[0], ts[2]);
  }

  /** The second ')' meets an empty stack. */
  lemma ExtraCloseStep5(ts: seq<Token>, q: seq<Token>)
    requires |ts| == 6 && ts[5].kind == RParen && WellNamed(ts[5])
    ensures Loop(ts, 5, q, []) == Failed(PopFromEmpty)
  {
  }

  lemma ExtraCloseSteps(ts: seq<Token>)
    requires ExtraCloseShape(ts)
    ensures Convert(ts) == Failed(PopFromEmpty)
  {
    ExtraCloseStep0(ts);
    ExtraCloseStep1(ts, [] + [ts[0]]);
    ExtraCloseStep2(ts, [] + [ts[1]]);
    ExtraCloseStep3(ts, [] + [ts[1]], [] + [ts[0]] + [ts[2]]);
    ExtraCloseStep4(ts, [] + [ts[1]] + [ts[3]]);
    ExtraCloseStep5(ts, [] + [ts[1]] + [ts[3]] + [ts[2]]);
  }

  lemma ExtraCloseConvert()
    ensures Convert(ExtraCloseTokens) == Failed(PopFromEmpty)
  {
    assert ExtraCloseShape(ExtraCloseTokens);
    ExtraCloseSteps(ExtraCloseTokens);
  }

  /** "(1+2))" fails at the pop. */
  lemma ExtraCloseDemo()
    ensures Answer("(1+2))") == Fault(PopFromEmpty)
  {
    ExtraCloseTokenize();
    ExtraCloseConvert();
    AnswerFailed("(1+2))", ExtraCloseTokens, PopFromEmpty);
  }

  // ---------------------------------------------------------------------------
  // "(2+3": the final unload queues the unclosed '(' after '+', and the
  // evaluator skips it, so the answer is "5" rather than an error.

  const UnclosedTokens := [Open, Two, PlusSign, Three]
  const UnclosedPostfix := [Two, Three, PlusSign, Open]

  lemma UnclosedCut()
    ensures WellCut(UnclosedTokens)
  {
  }

  lemma UnclosedTokenize()
    ensures Tokenize("(2+3") == Ok(UnclosedTokens)
  {
    ConcatCons(Three, []);
    ConcatCons(PlusSign, [Three]);
    ConcatCons(Two, [PlusSign, Three]);
    ConcatCons(Open, [Two, PlusSign, Three]);
    UnclosedCut();
    TokensOfCut("(2+3", UnclosedTokens);
  }

  lemma ReversedPair(a: Token, b: Token)
    ensures Reversed([] + [a] + [b]) == [b, a]
  {
  }

  /** `ts` has the kinds of "(2+3". */
  predicate UnclosedShape(ts: seq<Token>) {
    && |ts| == 4
    && ts[0].kind == LParen && ts[1].kind == Number && ts[2].kind == Plus && ts[3].kind == Number
    && WellNamed(ts[0]) && WellNamed(ts[1]) && WellNamed(ts[2]) && WellNamed(ts[3])
  }

  lemma UnclosedStep0(ts: seq<Token>)
    requires |ts| == 4 && ts[0].kind == LParen && WellNamed(ts[0])
    ensures Loop(ts, 0, [], []) == Loop(ts, 1, [], [] + [ts[0]])
  {
    OpenOn(ts, 0, [], []);
  }

  lemma UnclosedStep1(ts: seq<Token>, s: seq<Token>)
    requires |ts| == 4 && ts[1].kind == Number && WellNamed(ts[1])
    ensures Loop(ts, 1, [], s) == Loop(ts, 2, [] + [ts[1]], s)
  {
  }

  lemma UnclosedStep2(ts: seq<Token>, q: seq<Token>)
    requires |ts| == 4 && ts[0].kind == LParen && WellNamed(ts[0]) && ts[2].kind == Plus && WellNamed(ts[2])
    ensures Loop(ts, 2, q, [] + [ts[0]]) == Loop(ts, 3, q, [] + [ts[0]] + [ts[2]])
  {
  }

  /** The last number, then the final unload of '+' and '('. */
  lemma UnclosedStep3(ts: seq<Token>, q: seq<Token>, s: seq<Token>)
    requires |ts| == 4 && ts[3].kind == Number && WellNamed(ts[3])
    ensures Loop(ts, 3, q, s) == Converted(q + [ts[3]] + Reversed(s), [])
  {
  }

  lemma UnclosedSteps(ts: seq<Token>)
    requires UnclosedShape(ts)
    ensures Convert(ts) == Converted([] + [ts[1]] + [ts[3]] + Reversed([] + [ts[0]] + [ts[2]]), [])
  {
    UnclosedStep0(ts);
    UnclosedStep1(ts, [] + [ts[0]]);
    UnclosedStep2(ts, [] + [ts[1]]);
    UnclosedStep3(ts, [] + [ts[1]], [] + [ts[0]] + [ts[2]]);
  }

  lemma UnclosedQueue(ts: seq<Token>)
    requires |ts| == 4
    ensures [] + [ts[1]] + [ts[3]] + Reversed([] + [ts[0]] + [ts[2]]) == [ts[1], ts[3], ts[2], ts[0]]
  {
  }

  lemma UnclosedConvert()
    ensures Convert(UnclosedTokens) == Converted(UnclosedPostfix, [])
  {
    assert UnclosedShape(UnclosedTokens);
    UnclosedSteps(UnclosedTokens);
    UnclosedQueue(UnclosedTokens);
  }

  lemma UnclosedEval0()
    ensures Run(UnclosedPostfix, []) == Run([PlusSign, Open], [Text("2"), Text("3")])
  {
    RunNumber(UnclosedPostfix, Two, [Three, PlusSign, Open], [], [Text("2")]);
    RunNumber([Three, PlusSign, Open], Three, [PlusSign, Open], [Text("2")], [Text("2"), Text("3")]);
  }

  /** 2 + 3, then '(' is passed over. */
  lemma UnclosedEval1()
    ensures Run([PlusSign, Open], [Text("2"), Text("3")]) == Ok(Text("5"))
  {
    ParseText(2, "2");
    ParseText(3, "3");
    assert IntText(5) == "5";
    RunOperator([PlusSign, Open], PlusSign, [Open], [], [Text("2"), Text("3")], "2", "3", 2, 3, Text("5"), [Text("5")]);
    SkipStep(Open, [], [Text("5")]);
    assert [Open] == [Open] + [];
  }

  /** "(2+3" gives "5". */
  lemma UnclosedDemo()
    ensures Answer("(2+3") == Ok(Text("5"))
  {
    UnclosedTokenize();
    UnclosedConvert();
    UnclosedEval0();
    UnclosedEval1();
    AnswerConverted("(2+3", UnclosedTokens, UnclosedPostfix);
  }

  // ---------------------------------------------------------------------------
  // The evaluator on its own

  /** The right operand is the one popped first: `2 9 -` is -7. */
  lemma MinusOrder()
    ensures Evaluate([Two, Nine, MinusSign]) == Ok(Text("-7"))
  {
    ParseText(2, "2");
    ParseText(9, "9");
    assert IntText(-7) == "-7";
    EvalBinary(Two, MinusSign, Nine, 2, 9);
  }

  /** `4 0 /` raises. */
  lemma DivideByZeroDemo()
    ensures Evaluate([Four, Zero, DivideSign]) == Fault(ZeroDivision)
  {
    ParseText(4, "4");
    ParseText(0, "0");
    EvalBinary(Four, DivideSign, Zero, 4, 0);
  }

  /** `8 2 /` is a quotient, which is a fine final answer ... */
  lemma QuotientAnswer()
    ensures Evaluate([Eight, Two, DivideSign]) == Ok(Quot(8, 2))
  {
    ParseText(8, "8");
    ParseText(2, "2");
    EvalBinary(Eight, DivideSign, Two, 8, 2);
  }

  lemma QuotientOperand0()
    ensures Run([Eight, Two, DivideSign, Three, TimesSign], []) == Run([Two, DivideSign, Three, TimesSign], [Text("8")])
  {
  }

  lemma QuotientOperandPush()
    ensures Run([Two, DivideSign, Three, TimesSign], [Text("8")]) == Run([DivideSign, Three, TimesSign], [Text("8"), Text("2")])
  {
  }

  lemma QuotientOperand1()
    ensures Run([DivideSign, Three, TimesSign], [Text("8"), Text("2")]) == Run([Three, TimesSign], [Quot(8, 2)])
  {
    ParseText(8, "8");
    ParseText(2, "2");
    RunOperator([DivideSign, Three, TimesSign], DivideSign, [Three, TimesSign], [], [Text("8"), Text("2")],
                "8", "2", 8, 2, Quot(8, 2), [Quot(8, 2)]);
  }

  lemma QuotientOperand2()
    ensures Run([Three, TimesSign], [Quot(8, 2)]) == Fault(NotAnInteger)
  {
  }

  /** ... but not an operand: `8 2 / 3 *` raises, although 8/2 is whole. */
  lemma QuotientOperand()
    ensures Evaluate([Eight, Two, DivideSign, Three, TimesSign]) == Fault(NotAnInteger)
  {
    QuotientOperand0();
    QuotientOperandPush();
    QuotientOperand1();
    QuotientOperand2();
  }
}
