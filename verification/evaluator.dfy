/** `Calculator._calc_from_postfix` (main.py:206-230): a stack machine whose stack
    holds the text of tokens. Operands are read back with `int()` and results
    are stored with `str()`. A quotient of `/` is a Python float; its value and
    text are not modelled, only the fact that `int()` rejects it. */
module Evaluator {
  import opened Outcomes
  import opened Tokens

  /** An entry of the evaluation stack: the text of a 'digit' token (a lexeme
      or the `str` of an int result), or the float quotient `num / den`. */
  datatype Value = Text(s: string) | Quot(num: int, den: int)

  predicate AllDigits(s: string) {
    forall k :: 0 <= k < |s| ==> IsDigit(s[k])
  }

  function DigitChar(d: nat): (c: char)
    requires d < 10
    ensures IsDigit(c)
  {
    (('0' as int) + d) as char
  }

  function DigitValue(c: char): (d: nat)
    requires IsDigit(c)
    ensures d < 10
  {
    (c as int) - ('0' as int)
  }

  /** Decimal digits of a natural number, most significant first, no leading zero. */
  function NatText(n: nat): (r: string)
    ensures |r| > 0 && AllDigits(r)
  {
    if n < 10 then [DigitChar(n)] else NatText(n / 10) + [DigitChar(n % 10)]
  }

  /** Python's `str` on an int. */
  function IntText(n: int): string {
    if n < 0 then "-" + NatText(-n) else NatText(n)
  }

  /** The number a string of decimal digits denotes (leading zeros allowed). */
  function DigitsValue(s: string): nat
    requires AllDigits(s)
  {
    if |s| == 0 then 0 else DigitsValue(s[..|s| - 1]) * 10 + DigitValue(s[|s| - 1])
  }

  /** Python's `int()` on the strings that reach it here: digits, optionally
      after a minus sign. Anything else is the ValueError case. */
  function ParseInt(s: string): Option<int> {
    if |s| > 0 && AllDigits(s) then Some(DigitsValue(s))
    else if |s| > 1 && s[0] == '-' && AllDigits(s[1..]) then Some(0 - DigitsValue(s[1..]) as int)
    else None
  }

  /** `int(unload.attr)` for a stack entry (main.py:217-218): a quotient's text
      is a float literal, which `int()` rejects. */
  function Operand(v: Value): Result<int> {
    match v
    case Quot(_, _) => Fault(NotAnInteger)
    case Text(s) => if ParseInt(s).Some? then Ok(ParseInt(s).value) else Fault(NotAnInteger)
  }

  /** The texts matched by `unload.attr in ('+', '-', '*', '/')` (main.py:216). */
  predicate IsOperatorText(s: string) {
    s == "+" || s == "-" || s == "*" || s == "/"
  }

  /** main.py:219-228: `term_1 op term_2`, the left operand being the one pushed
      first; `/` is true division. */
  function Apply(op: string, a: int, b: int): (r: Result<Value>)
    requires IsOperatorText(op)
    ensures op == "/" ==> (r.Fault? <==> b == 0)
    ensures r.Fault? ==> r.reason == ZeroDivision
    ensures op != "/" ==> r.Ok? && r.value.Text?
    ensures op != "/" ==>
              Operand(r.value) == Ok(if op == "+" then a + b else if op == "-" then a - b else a * b)
  {
    if op == "+" then ParseIntText(a + b); Ok(Text(IntText(a + b)))
    else if op == "-" then ParseIntText(a - b); Ok(Text(IntText(a - b)))
    else if op == "*" then ParseIntText(a * b); Ok(Text(IntText(a * b)))
    else if b == 0 then Fault(ZeroDivision)
    else Ok(Quot(a, b))
  }

  /** One pass of the body of the `while len(self._queue)` loop
      (main.py:209-228) on the token `t` taken from the queue: the stack after
      it, or the exception it raises. */
  function EvalStep(t: Token, st: seq<Value>): Result<seq<Value>> {
    var st1 := if t.kind == Number then st + [Text(t.text)] else st;
    if !IsOperatorText(t.text) then Ok(st1)
    else if |st1| == 0 then Fault(PopFromEmpty)
    else
      match Operand(st1[|st1| - 1])
      case Fault(e) => Fault(e)
      case Ok(b) =>
        var st2 := st1[..|st1| - 1];
        if |st2| == 0 then Fault(PopFromEmpty)
        else
          match Operand(st2[|st2| - 1])
          case Fault(e) => Fault(e)
          case Ok(a) =>
            match Apply(t.text, a, b)
            case Fault(e) => Fault(e)
            case Ok(v) => Ok(st2[..|st2| - 1] + [v])
  }

  /** The `while len(self._queue)` loop (main.py:208-228) on the rest of the
      queue `q` and the stack `st`, followed by the final pop (main.py:230). */
  function Run(q: seq<Token>, st: seq<Value>): Result<Value>
    decreases |q|
  {
    if |q| == 0 then
      if |st| == 0 then Fault(PopFromEmpty) else Ok(st[|st| - 1])
    else
      match EvalStep(q[0], st)
      case Fault(e) => Fault(e)
      case Ok(st') => Run(q[1..], st')
  }

  /** `_calc_from_postfix`: the stack starts empty (main.py:207). */
  function Evaluate(q: seq<Token>): Result<Value> {
    Run(q, [])
  }

  // ----- str and int are inverse on integers -----

  lemma DigitsValueSnoc(s: string, c: char)
    requires AllDigits(s) && IsDigit(c)
    ensures AllDigits(s + [c])
    ensures DigitsValue(s + [c]) == DigitsValue(s) * 10 + DigitValue(c)
  {
  }

  lemma {:induction false} NatTextValue(n: nat)
    ensures DigitsValue(NatText(n)) == n
  {
    if n >= 10 {
      NatTextValue(n / 10);
      DigitsValueSnoc(NatText(n / 10), DigitChar(n % 10));
    } else {
      assert NatText(n)[..0] == [];
    }
  }

  /** `int(str(n)) == n`: a result pushed back onto the stack reads back as the
      same integer. */
  lemma ParseIntText(n: int)
    ensures ParseInt(IntText(n)) == Some(n)
  {
    if n < 0 {
      var d := NatText(-n);
      NatTextValue(-n);
      assert ("-" + d)[1..] == d;
      assert !IsDigit(("-" + d)[0]);
    } else {
      NatTextValue(n);
    }
  }

  lemma ParseDigits(s: string)
    requires |s| > 0 && AllDigits(s)
    ensures ParseInt(s) == Some(DigitsValue(s))
  {
  }

  lemma {:induction false} DigitsValuePositive(s: string)
    requires |s| > 0 && AllDigits(s) && s[0] != '0'
    ensures DigitsValue(s) > 0
    decreases |s|
  {
    if |s| > 1 {
      DigitsValuePositive(s[..|s| - 1]);
    }
  }

  /** A digit string without a leading zero is the decimal text of its value. */
  lemma {:induction false} NatTextDigits(s: string)
    requires |s| > 0 && AllDigits(s) && (s[0] != '0' || |s| == 1)
    ensures NatText(DigitsValue(s)) == s
    decreases |s|
  {
    var c := s[|s| - 1];
    assert DigitChar(DigitValue(c)) == c;
    if |s| == 1 {
      assert s[..0] == [];
      assert s == [c];
    } else {
      var init := s[..|s| - 1];
      NatTextDigits(init);
      DigitsValuePositive(init);
      var n := DigitsValue(s);
      assert n == DigitsValue(init) * 10 + DigitValue(c);
      assert n / 10 == DigitsValue(init) && n % 10 == DigitValue(c);
      assert s == init + [c];
    }
  }

  /** `str(int(s)) == s` for a number lexeme without a leading zero: such a
      lexeme reads as the number it denotes, and writing that number back gives
      the lexeme. With a leading zero (`"007"`), `int()` still succeeds but the
      text changes. */
  lemma DigitsRoundTrip(s: string)
    requires |s| > 0 && AllDigits(s)
    ensures ParseInt(s) == Some(DigitsValue(s))
    ensures s[0] != '0' || |s| == 1 <==> IntText(DigitsValue(s)) == s
  {
    if s[0] != '0' || |s| == 1 {
      NatTextDigits(s);
    } else {
      var t := IntText(DigitsValue(s));
      if t == s {
        assert NatText(DigitsValue(s)) == s;
        NatTextLeading(DigitsValue(s));
      }
    }
  }

  /** The decimal text of a number has no leading zero. */
  lemma {:induction false} NatTextLeading(n: nat)
    ensures NatText(n)[0] != '0' || n == 0
    ensures n == 0 ==> NatText(n) == "0"
  {
    if n >= 10 {
      NatTextLeading(n / 10);
      assert NatText(n)[0] == NatText(n / 10)[0];
    }
  }

  // ----- A reference: integer postfix evaluation over token kinds -----

  function Arith(k: Kind, a: int, b: int): int
    requires k == Plus || k == Minus || k == Times
  {
    match k
    case Plus => a + b
    case Minus => a - b
    case Times => a * b
  }

  /** An integer postfix evaluator over token kinds: numbers push their value;
      `+`, `-`, `*` replace the two topmost values `a` (lower) and `b` (upper)
      by `a op b`. Like the code it returns the topmost value, ignores values
      left below it, and skips tokens that are neither numbers nor operators.
      Division is outside the reference. */
  function Reference(q: seq<Token>, ns: seq<int>): Option<int>
    requires AllClassified(q)
    decreases |q|
  {
    if |q| == 0 then
      if |ns| == 0 then None else Some(ns[|ns| - 1])
    else
      var t := q[0];
      if t.kind == Number then Reference(q[1..], ns + [DigitsValue(t.text)])
      else if t.kind == Plus || t.kind == Minus || t.kind == Times then
        if |ns| < 2 then None
        else Reference(q[1..], ns[..|ns| - 2] + [Arith(t.kind, ns[|ns| - 2], ns[|ns| - 1])])
      else if t.kind == Divide then None
      else Reference(q[1..], ns)
  }

  predicate NoDivision(q: seq<Token>) {
    forall k :: 0 <= k < |q| ==> q[k].kind != Divide
  }

  /** The evaluation stack holds exactly the integers `ns`, as text. */
  predicate Holds(st: seq<Value>, ns: seq<int>) {
    && |st| == |ns|
    && forall k :: 0 <= k < |st| ==> st[k].Text? && ParseInt(st[k].s) == Some(ns[k])
  }

  lemma HoldsPush(st: seq<Value>, ns: seq<int>, s: string, n: int)
    requires Holds(st, ns) && ParseInt(s) == Some(n)
    ensures Holds(st + [Text(s)], ns + [n])
  {
  }

  lemma HoldsPrefix(st: seq<Value>, ns: seq<int>, m: nat)
    requires Holds(st, ns) && m <= |st|
    ensures Holds(st[..m], ns[..m])
  {
  }

  lemma OperatorKindText(t: Token)
    requires Classified(t)
    ensures IsOperatorText(t.text) <==> IsOperator(t.kind)
  {
    if t.kind == Space || t.kind == Number {
      assert IsSpace(t.text[0]) || IsDigit(t.text[0]);
      var c := t.text[0];
      assert c != '+' && c != '-' && c != '*' && c != '/';
    }
  }

  /** One evaluation step on a stack that holds the integers `ns`, against the
      reference's step. */
  lemma EvalStepAgrees(t: Token, st: seq<Value>, ns: seq<int>)
    requires Classified(t) && t.kind != Divide && Holds(st, ns)
    ensures t.kind == Number ==>
              EvalStep(t, st) == Ok(st + [Text(t.text)]) && Holds(st + [Text(t.text)], ns + [DigitsValue(t.text)])
    ensures IsOperator(t.kind) && |ns| < 2 ==> EvalStep(t, st) == Fault(PopFromEmpty)
    ensures IsOperator(t.kind) && |ns| >= 2 ==>
              EvalStep(t, st).Ok? &&
              Holds(EvalStep(t, st).value, ns[..|ns| - 2] + [Arith(t.kind, ns[|ns| - 2], ns[|ns| - 1])])
    ensures t.kind != Number && !IsOperator(t.kind) ==> EvalStep(t, st) == Ok(st)
  {
    OperatorKindText(t);
    if t.kind == Number {
      ParseDigits(t.text);
      HoldsPush(st, ns, t.text, DigitsValue(t.text));
    } else if IsOperator(t.kind) {
      if |st| >= 2 {
        var a, b := ns[|ns| - 2], ns[|ns| - 1];
        var r := Arith(t.kind, a, b);
        assert Operand(st[|st| - 1]) == Ok(b);
        assert st[..|st| - 1][|st| - 2] == st[|st| - 2];
        assert Operand(st[|st| - 2]) == Ok(a);
        assert Apply(t.text, a, b) == Ok(Text(IntText(r)));
        ParseIntText(r);
        HoldsPrefix(st, ns, |st| - 2);
        assert st[..|st| - 1][..|st| - 2] == st[..|st| - 2];
        HoldsPush(st[..|st| - 2], ns[..|ns| - 2], IntText(r), r);
      } else if |st| == 1 {
        assert Operand(st[0]) == Ok(ns[0]);
        assert |st[..0]| == 0;
      }
    }
  }

  /** On a division-free queue of well-formed tokens, the evaluator computes what
      the reference computes, and its only failure is a pop from an empty stack
      (too few operands, or nothing left to return). */
  lemma {:induction false} RunAgrees(q: seq<Token>, st: seq<Value>, ns: seq<int>)
    requires AllClassified(q) && NoDivision(q) && Holds(st, ns)
    ensures Run(q, st).Ok? <==> Reference(q, ns).Some?
    ensures Run(q, st).Ok? ==> Run(q, st).value.Text? && ParseInt(Run(q, st).value.s) == Reference(q, ns)
    ensures Run(q, st).Fault? ==> Run(q, st).reason == PopFromEmpty
    decreases |q|
  {
    if |q| > 0 {
      var t := q[0];
      assert Classified(t) && t.kind != Divide;
      assert AllClassified(q[1..]) && NoDivision(q[1..]) by {
        forall k | 0 <= k < |q[1..]| ensures Classified(q[1..][k]) && q[1..][k].kind != Divide {
          assert q[1..][k] == q[k + 1];
        }
      }
      EvalStepAgrees(t, st, ns);
      if t.kind == Number {
        RunAgrees(q[1..], st + [Text(t.text)], ns + [DigitsValue(t.text)]);
      } else if IsOperator(t.kind) {
        if |ns| >= 2 {
          RunAgrees(q[1..], EvalStep(t, st).value, ns[..|ns| - 2] + [Arith(t.kind, ns[|ns| - 2], ns[|ns| - 1])]);
        }
      } else {
        RunAgrees(q[1..], st, ns);
      }
    }
  }

  /** `_calc_from_postfix` agrees with the reference on division-free queues. */
  lemma EvaluateAgrees(q: seq<Token>)
    requires AllClassified(q) && NoDivision(q)
    ensures Evaluate(q).Ok? <==> Reference(q, []).Some?
    ensures Evaluate(q).Ok? ==> Evaluate(q).value.Text? && ParseInt(Evaluate(q).value.s) == Reference(q, [])
    ensures Evaluate(q).Fault? ==> Evaluate(q).reason == PopFromEmpty
  {
    RunAgrees(q, [], []);
  }

  /** One evaluation step fails only on a missing operand, a zero divisor or a
      quotient used as an operand. */
  lemma EvalStepFaults(t: Token, st: seq<Value>)
    ensures EvalStep(t, st).Fault? ==> EvalStep(t, st).reason in {PopFromEmpty, ZeroDivision, NotAnInteger}
  {
  }

  /** The evaluator fails only on a missing operand, a zero divisor or a
      quotient used as an operand. */
  lemma {:induction false} RunFaults(q: seq<Token>, st: seq<Value>)
    ensures Run(q, st).Fault? ==> Run(q, st).reason in {PopFromEmpty, ZeroDivision, NotAnInteger}
    decreases |q|
  {
    if |q| > 0 {
      EvalStepFaults(q[0], st);
      if EvalStep(q[0], st).Ok? {
        RunFaults(q[1..], EvalStep(q[0], st).value);
      }
    }
  }

  // ----- Single steps the source singles out -----

  /** A number is pushed onto the stack as it is. */
  lemma NumberStep(t: Token, rest: seq<Token>, st: seq<Value>)
    requires t.kind == Number && !IsOperatorText(t.text)
    ensures Run([t] + rest, st) == Run(rest, st + [Text(t.text)])
  {
  }

  /** An operator takes its right operand `b` from the top of the stack and its
      left operand `a` from below it, and replaces both by `a op b`. */
  lemma OperatorStep(t: Token, rest: seq<Token>, st: seq<Value>, x: string, y: string, a: int, b: int)
    requires t.kind != Number && IsOperatorText(t.text)
    requires ParseInt(x) == Some(a) && ParseInt(y) == Some(b)
    ensures Apply(t.text, a, b).Ok? ==>
      Run([t] + rest, st + [Text(x), Text(y)]) == Run(rest, st + [Apply(t.text, a, b).value])
    ensures Apply(t.text, a, b).Fault? ==>
      Run([t] + rest, st + [Text(x), Text(y)]) == Fault(Apply(t.text, a, b).reason)
  {
    var st1 := st + [Text(x), Text(y)];
    assert ([t] + rest)[0] == t && ([t] + rest)[1..] == rest;
    assert st1[..|st1| - 1] == st + [Text(x)];
    assert (st + [Text(x)])[..|st|] == st;
  }

  /** A division whose right operand (the value on top) is zero raises. */
  lemma DivideByZero(t: Token, rest: seq<Token>, st: seq<Value>, a: string, z: string)
    requires t.kind == Divide && t.text == "/"
    requires ParseInt(a).Some? && ParseInt(z) == Some(0)
    ensures Run([t] + rest, st + [Text(a), Text(z)]) == Fault(ZeroDivision)
  {
  }

  /** A quotient is never a valid operand: an operator that meets one on top
      of the stack raises, whatever lies below it. */
  lemma QuotientOnTop(t: Token, rest: seq<Token>, st: seq<Value>, num: int, den: int)
    requires t.kind != Number && IsOperatorText(t.text)
    ensures Run([t] + rest, st + [Quot(num, den)]) == Fault(NotAnInteger)
  {
  }

  /** ... nor is it valid as the left operand. */
  lemma QuotientBelow(t: Token, rest: seq<Token>, st: seq<Value>, num: int, den: int, b: string)
    requires t.kind != Number && IsOperatorText(t.text) && ParseInt(b).Some?
    ensures Run([t] + rest, st + [Quot(num, den), Text(b)]) == Fault(NotAnInteger)
  {
  }

  /** A token that is neither a number nor an operator (a left parenthesis the
      conversion left in the queue) leaves the stack as it is. */
  lemma SkipStep(t: Token, rest: seq<Token>, st: seq<Value>)
    requires t.kind != Number && !IsOperatorText(t.text)
    ensures Run([t] + rest, st) == Run(rest, st)
  {
  }

  /** The tokens of a queue the evaluator acts on: numbers and operators. */
  function Acting(q: seq<Token>): (r: seq<Token>)
    ensures |r| <= |q|
    ensures forall k :: 0 <= k < |r| ==> r[k].kind == Number || IsOperatorText(r[k].text)
  {
    if |q| == 0 then []
    else if q[0].kind == Number || IsOperatorText(q[0].text) then [q[0]] + Acting(q[1..])
    else Acting(q[1..])
  }

  /** Evaluating a queue is evaluating its numbers and operators alone: every
      other token is passed over without effect, wherever it stands. */
  lemma {:induction false} SkipsOthers(q: seq<Token>, st: seq<Value>)
    ensures Run(q, st) == Run(Acting(q), st)
    decreases |q|
  {
    if |q| > 0 {
      var t := q[0];
      if t.kind == Number || IsOperatorText(t.text) {
        var a := Acting(q);
        assert a[0] == t && a[1..] == Acting(q[1..]);
        if EvalStep(t, st).Ok? {
          SkipsOthers(q[1..], EvalStep(t, st).value);
        }
      } else {
        SkipsOthers(q[1..], st);
      }
    }
  }
}
