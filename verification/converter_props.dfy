/** Invariants of the conversion: what each token does to the queue and the
    operator stack, and what survives a whole conversion. */
module ConverterProps {
  import opened Outcomes
  import opened Tokens
  import opened Converter

  /** The tokens of `ts` whose kind is in `ks`, in order. */
  function OfKind(ts: seq<Token>, ks: set<Kind>): (r: seq<Token>)
    ensures forall k :: 0 <= k < |r| ==> r[k].kind in ks
  {
    if |ts| == 0 then []
    else if ts[0].kind in ks then [ts[0]] + OfKind(ts[1..], ks)
    else OfKind(ts[1..], ks)
  }

  const Operators: set<Kind> := {Plus, Minus, Times, Divide}

  function Numbers(ts: seq<Token>): seq<Token> {
    OfKind(ts, {Number})
  }

  function Ops(ts: seq<Token>): multiset<Token> {
    multiset(OfKind(ts, Operators))
  }

  /** The conversion tests parentheses by their text and everything else by
      kind; the two agree on every token the tokenizer makes. */
  predicate WellNamed(t: Token) {
    (t.kind == LParen <==> t.text == "(") && (t.kind == RParen <==> t.text == ")")
  }

  predicate AllWellNamed(ts: seq<Token>) {
    forall k :: 0 <= k < |ts| ==> WellNamed(ts[k])
  }

  lemma ClassifiedWellNamed(ts: seq<Token>)
    requires AllClassified(ts)
    ensures AllWellNamed(ts)
  {
    forall k | 0 <= k < |ts|
      ensures WellNamed(ts[k])
    {
      var t := ts[k];
      assert Classified(t);
      if t.kind == Number || t.kind == Space {
        assert t.text != "(" && t.text != ")" by {
          assert IsDigit(t.text[0]) || IsSpace(t.text[0]);
        }
      }
    }
  }

  /** What the operator stack may hold: operators and '('. */
  predicate Stackable(t: Token) {
    WellNamed(t) && (IsOperator(t.kind) || t.kind == LParen)
  }

  /** What the queue may hold: numbers, operators and '(' left over by the final
      unload, never ')'. */
  predicate Queueable(t: Token) {
    WellNamed(t) && (t.kind == Number || IsOperator(t.kind) || t.kind == LParen)
  }

  predicate StackOk(st: seq<Token>) {
    forall k :: 0 <= k < |st| ==> Stackable(st[k])
  }

  predicate QueueOk(q: seq<Token>) {
    forall k :: 0 <= k < |q| ==> Queueable(q[k])
  }

  // ---------------------------------------------------------------------------
  // Sequence facts

  lemma {:induction false} OfKindAppend(a: seq<Token>, b: seq<Token>, ks: set<Kind>)
    ensures OfKind(a + b, ks) == OfKind(a, ks) + OfKind(b, ks)
    decreases |a|
  {
    if |a| > 0 {
      assert (a + b)[1..] == a[1..] + b;
      OfKindAppend(a[1..], b, ks);
    } else {
      assert a + b == b;
    }
  }

  lemma OfKindSingle(t: Token, ks: set<Kind>)
    ensures OfKind([t], ks) == if t.kind in ks then [t] else []
  {
  }

  lemma {:induction false} OfKindReversed(st: seq<Token>, ks: set<Kind>)
    ensures multiset(OfKind(Reversed(st), ks)) == multiset(OfKind(st, ks))
    decreases |st|
  {
    if |st| > 0 {
      OfKindReversed(Pop(st), ks);
      OfKindAppend([Top(st)], Reversed(Pop(st)), ks);
      assert st == Pop(st) + [Top(st)];
      OfKindAppend(Pop(st), [Top(st)], ks);
    }
  }

  lemma NoNumbers(st: seq<Token>)
    requires StackOk(st)
    ensures Numbers(st) == [] && Numbers(Reversed(st)) == []
  {
    NoNumbersIn(st);
    NoNumbersIn(Reversed(st));
  }

  lemma {:induction false} NoNumbersIn(s: seq<Token>)
    requires forall k :: 0 <= k < |s| ==> s[k].kind != Number
    ensures Numbers(s) == []
    decreases |s|
  {
    if |s| > 0 {
      NoNumbersIn(s[1..]);
    }
  }

  lemma StackSlices(st: seq<Token>, k: nat)
    requires StackOk(st) && k <= |st|
    ensures StackOk(st[..k]) && StackOk(st[k..]) && QueueOk(Reversed(st[k..]))
    ensures st == st[..k] + st[k..]
  {
  }

  /** Moving the top part of a stack to the queue keeps both well formed, moves
      no number and loses no operator. */
  lemma MoveToQueue(q: seq<Token>, st: seq<Token>, k: nat)
    requires QueueOk(q) && StackOk(st) && k <= |st|
    ensures QueueOk(q + Reversed(st[k..])) && StackOk(st[..k])
    ensures Numbers(q + Reversed(st[k..])) == Numbers(q)
    ensures Ops(q + Reversed(st[k..])) + Ops(st[..k]) == Ops(q) + Ops(st)
  {
    StackSlices(st, k);
    OfKindAppend(q, Reversed(st[k..]), {Number});
    NoNumbers(st[k..]);
    OfKindAppend(q, Reversed(st[k..]), Operators);
    OfKindReversed(st[k..], Operators);
    OfKindAppend(st[..k], st[k..], Operators);
  }

  // ---------------------------------------------------------------------------
  // One token

  lemma PushOperatorKeeps(q: seq<Token>, st: seq<Token>, t: Token)
    requires QueueOk(q) && StackOk(st) && Stackable(t) && IsOperator(t.kind)
    ensures var r := PushOperator(q, st, t);
      && QueueOk(r.0) && StackOk(r.1)
      && Numbers(r.0) == Numbers(q)
      && Ops(r.0) + Ops(r.1) == Ops(q) + Ops(st) + multiset{t}
  {
    var r := PushOperator(q, st, t);
    var k := |r.1| - 1;
    MoveToQueue(q, st, k);
    OfKindAppend(st[..k], [t], Operators);
  }

  /** One round of the ')' loop: the token in hand goes to the queue and the
      top of the stack comes into hand. */
  lemma CloseParenMove(q: seq<Token>, st: seq<Token>, u: Token)
    requires QueueOk(q) && StackOk(st) && Stackable(u) && |st| > 0
    ensures QueueOk(q + [u]) && StackOk(Pop(st)) && Stackable(Top(st))
    ensures Numbers(q + [u]) == Numbers(q)
    ensures Ops(q + [u]) + Ops(Pop(st)) + Ops([Top(st)]) == Ops(q) + Ops(st) + Ops([u])
  {
    OfKindAppend(q, [u], {Number});
    OfKindSingle(u, {Number});
    OfKindAppend(q, [u], Operators);
    assert st == Pop(st) + [Top(st)];
    OfKindAppend(Pop(st), [Top(st)], Operators);
  }

  lemma {:induction false} CloseParenKeeps(q: seq<Token>, st: seq<Token>, u: Token)
    requires QueueOk(q) && StackOk(st) && Stackable(u)
    ensures match CloseParen(q, st, u)
      case Continue(q', st') =>
        QueueOk(q') && StackOk(st') && Numbers(q') == Numbers(q) && Ops(q') + Ops(st') == Ops(q) + Ops(st) + Ops([u])
      case Early(q') => QueueOk(q') && Numbers(q') == Numbers(q)
      case StepFault(_) => false
    decreases |st|
  {
    if u.text == "(" {
      OfKindSingle(u, Operators);
    } else if |st| > 0 {
      CloseParenMove(q, st, u);
      CloseParenKeeps(q + [u], Pop(st), Top(st));
    }
  }

  /** The four tests of the loop body, resolved by the token's kind. */
  lemma StepUnfold(q: seq<Token>, st: seq<Token>, t: Token)
    requires WellNamed(t)
    ensures t.kind == Number ==> Step(q, st, t) == Continue(q + [t], st)
    ensures IsOperator(t.kind) ==>
              Step(q, st, t) == Continue(PushOperator(q, st, t).0, PushOperator(q, st, t).1)
    ensures t.kind == LParen ==> Step(q, st, t) == Continue(q, st + [t])
    ensures t.kind == RParen ==>
              Step(q, st, t) == if |st| == 0 then StepFault(PopFromEmpty) else CloseParen(q, Pop(st), Top(st))
    ensures t.kind == Space ==> Step(q, st, t) == Continue(q, st)
  {
    if t.kind == RParen {
      assert st + [] == st;
    }
  }

  /** What `StepKeeps` promises about one step's outcome. */
  predicate StepKept(q: seq<Token>, st: seq<Token>, t: Token, r: StepOutcome) {
    match r
    case Continue(q', st') =>
      && QueueOk(q') && StackOk(st')
      && Numbers(q') == Numbers(q) + Numbers([t])
      && Ops(q') + Ops(st') == Ops(q) + Ops(st) + Ops([t])
    case Early(q') => QueueOk(q') && Numbers(q') == Numbers(q) && t.kind == RParen
    case StepFault(e) => e == PopFromEmpty && t.kind == RParen && |st| == 0
  }

  lemma StepKeepsNumber(q: seq<Token>, st: seq<Token>, t: Token)
    requires QueueOk(q) && StackOk(st) && WellNamed(t) && t.kind == Number
    ensures StepKept(q, st, t, Continue(q + [t], st))
  {
    OfKindAppend(q, [t], {Number});
    OfKindAppend(q, [t], Operators);
    assert OfKind([t], Operators) == [];
  }

  lemma StepKeepsOperator(q: seq<Token>, st: seq<Token>, t: Token)
    requires QueueOk(q) && StackOk(st) && WellNamed(t) && IsOperator(t.kind)
    ensures StepKept(q, st, t, Continue(PushOperator(q, st, t).0, PushOperator(q, st, t).1))
  {
    assert OfKind([t], {Number}) == [];
    assert OfKind([t], Operators) == [t];
    PushOperatorKeeps(q, st, t);
  }

  lemma StepKeepsOpen(q: seq<Token>, st: seq<Token>, t: Token)
    requires QueueOk(q) && StackOk(st) && WellNamed(t) && t.kind == LParen
    ensures StepKept(q, st, t, Continue(q, st + [t]))
  {
    OfKindSingle(t, {Number});
    OfKindSingle(t, Operators);
    OfKindAppend(st, [t], Operators);
  }

  lemma StepKeepsClose(q: seq<Token>, st: seq<Token>, t: Token)
    requires QueueOk(q) && StackOk(st) && WellNamed(t) && t.kind == RParen
    ensures StepKept(q, st, t, if |st| == 0 then StepFault(PopFromEmpty) else CloseParen(q, Pop(st), Top(st)))
  {
    assert Numbers([t]) == [] && Ops([t]) == multiset{} by {
      OfKindSingle(t, {Number});
      OfKindSingle(t, Operators);
    }
    if |st| > 0 {
      PopSplit(st);
      CloseParenKeeps(q, Pop(st), Top(st));
    }
  }

  /** A non-empty stack is its popped part plus its top. */
  lemma PopSplit(st: seq<Token>)
    requires StackOk(st) && |st| > 0
    ensures StackOk(Pop(st)) && Stackable(Top(st))
    ensures Ops(st) == Ops(Pop(st)) + Ops([Top(st)])
  {
    assert st == Pop(st) + [Top(st)];
    OfKindAppend(Pop(st), [Top(st)], Operators);
  }

  /** Processing one token keeps the queue free of ')' and the stack down to
      operators and '('; a number goes to the queue, and no operator is lost
      unless the conversion returns early. A step can only fail on ')' with an
      empty stack. */
  lemma StepKeeps(q: seq<Token>, st: seq<Token>, t: Token)
    requires QueueOk(q) && StackOk(st) && WellNamed(t)
    ensures StepKept(q, st, t, Step(q, st, t))
  {
    StepUnfold(q, st, t);
    if t.kind == Number {
      StepKeepsNumber(q, st, t);
    } else if IsOperator(t.kind) {
      StepKeepsOperator(q, st, t);
    } else if t.kind == LParen {
      StepKeepsOpen(q, st, t);
    } else if t.kind == RParen {
      StepKeepsClose(q, st, t);
    } else {
      assert t.kind == Space && t.kind !in Operators;
      assert [t][1..] == [];
      assert OfKind([t], {Number}) == [] && OfKind([t], Operators) == [];
      assert Numbers(q) + [] == Numbers(q);
    }
  }

  lemma ReversedTop(st: seq<Token>)
    requires |st| > 0
    ensures Reversed(st) == [Top(st)] + Reversed(Pop(st))
  {
  }

  /** ')' popping an operator that is not '(' from a stack with an '(' below. */
  lemma CloseFound(q: seq<Token>, st: seq<Token>)
    requires |st| > 0 && Top(st).text != "(" && OpenIndex(st) >= 0
    ensures CloseParen(q, Pop(st), Top(st)) == Continue(q + Reversed(st[OpenIndex(st) + 1..]), st[..OpenIndex(st)])
  {
    var i := OpenIndex(st);
    assert OpenIndex(Pop(st)) == i;
    CloseParenCases(q, Pop(st), Top(st));
    var x := st[i + 1..];
    assert Top(x) == Top(st) && Pop(x) == Pop(st)[i + 1..];
    ReversedTop(x);
    assert Pop(st)[..i] == st[..i];
  }

  /** ')' popping an operator that is not '(' from a stack with no '(' at all. */
  lemma CloseMissing(q: seq<Token>, st: seq<Token>)
    requires |st| > 0 && OpenIndex(st) < 0
    ensures CloseParen(q, Pop(st), Top(st)) == Early(q + Reversed(st)[..|st| - 1])
  {
    assert OpenIndex(Pop(st)) < 0;
    CloseParenCases(q, Pop(st), Top(st));
    ReversedTop(st);
  }

  /** ')' on a non-empty stack, in closed form. */
  lemma CloseOnStack(q: seq<Token>, st: seq<Token>)
    requires |st| > 0
    ensures OpenIndex(st) >= 0 ==>
              CloseParen(q, Pop(st), Top(st)) == Continue(q + Reversed(st[OpenIndex(st) + 1..]), st[..OpenIndex(st)])
    ensures OpenIndex(st) < 0 ==> CloseParen(q, Pop(st), Top(st)) == Early(q + Reversed(st)[..|st| - 1])
  {
    if Top(st).text == "(" {
      CloseParenCases(q, Pop(st), Top(st));
      assert st[|st|..] == [];
    } else if OpenIndex(st) >= 0 {
      CloseFound(q, st);
    } else {
      CloseMissing(q, st);
    }
  }

  /** The effect of one token, by kind (main.py:150-198): a number is queued at
      once; '(' is pushed; an operator is pushed straight away when the stack is
      empty, '(' is on top, or the top has strictly lower priority; ')' queues
      the tokens above the topmost '(' and drops that '(', returns early when
      there is none, and fails on an empty stack. */
  lemma StepByKind(q: seq<Token>, st: seq<Token>, t: Token)
    requires WellNamed(t) && StackOk(st)
    ensures t.kind == Number ==> Step(q, st, t) == Continue(q + [t], st)
    ensures t.kind == LParen ==> Step(q, st, t) == Continue(q, st + [t])
    ensures IsOperator(t.kind) && (|st| == 0 || Top(st).kind == LParen || Top(st).Prior() < t.Prior()) ==>
              Step(q, st, t) == Continue(q, st + [t])
    ensures t.kind == RParen && |st| == 0 ==> Step(q, st, t) == StepFault(PopFromEmpty)
    ensures t.kind == RParen && |st| > 0 && OpenIndex(st) >= 0 ==>
              Step(q, st, t) == Continue(q + Reversed(st[OpenIndex(st) + 1..]), st[..OpenIndex(st)])
    ensures t.kind == RParen && |st| > 0 && OpenIndex(st) < 0 ==>
              Step(q, st, t) == Early(q + Reversed(st)[..|st| - 1])
  {
    if IsOperator(t.kind) {
      OperatorByKind(q, st, t);
    } else if t.kind == RParen {
      CloseByKind(q, st, t);
    } else {
      StepUnfold(q, st, t);
    }
  }

  lemma OperatorByKind(q: seq<Token>, st: seq<Token>, t: Token)
    requires WellNamed(t) && StackOk(st) && IsOperator(t.kind)
    ensures |st| == 0 || Top(st).kind == LParen || Top(st).Prior() < t.Prior() ==>
              Step(q, st, t) == Continue(q, st + [t])
  {
  }

  lemma CloseByKind(q: seq<Token>, st: seq<Token>, t: Token)
    requires WellNamed(t) && t.kind == RParen
    ensures |st| == 0 ==> Step(q, st, t) == StepFault(PopFromEmpty)
    ensures |st| > 0 && OpenIndex(st) >= 0 ==>
              Step(q, st, t) == Continue(q + Reversed(st[OpenIndex(st) + 1..]), st[..OpenIndex(st)])
    ensures |st| > 0 && OpenIndex(st) < 0 ==> Step(q, st, t) == Early(q + Reversed(st)[..|st| - 1])
  {
    StepUnfold(q, st, t);
    if |st| > 0 {
      CloseOnStack(q, st);
    }
  }

  // ---------------------------------------------------------------------------
  // A whole conversion

  lemma {:induction false} LoopKeeps(ts: seq<Token>, i: nat, q: seq<Token>, st: seq<Token>)
    requires AllWellNamed(ts) && i <= |ts|
    requires QueueOk(q) && StackOk(st)
    requires Numbers(q) == Numbers(ts[..i])
    requires Ops(q) + Ops(st) == Ops(ts[..i])
    requires i == |ts| ==> st == []
    ensures match Loop(ts, i, q, st)
      case Converted(q', st') => st' == [] && QueueOk(q') && Numbers(q') == Numbers(ts) && Ops(q') == Ops(ts)
      case EarlyReturn(q') => QueueOk(q') && exists k :: i <= k <= |ts| && Numbers(q') == Numbers(ts[..k])
      case Failed(e) => e == PopFromEmpty
    decreases |ts| - i
  {
    if i == |ts| {
      assert ts[..i] == ts;
    } else {
      var t := ts[i];
      assert WellNamed(t);
      StepKeeps(q, st, t);
      assert ts[..i + 1] == ts[..i] + [t];
      OfKindAppend(ts[..i], [t], {Number});
      OfKindAppend(ts[..i], [t], Operators);
      match Step(q, st, t) {
        case StepFault(e) =>
        case Early(q') =>
          assert Numbers(q') == Numbers(ts[..i]);
        case Continue(q', st') =>
          if i == |ts| - 1 {
            MoveToQueue(q', st', 0);
            assert st'[0..] == st' && st'[..0] == [];
            assert Ops([]) == multiset{};
            LoopKeeps(ts, i + 1, Flush(q', st'), []);
          } else {
            LoopKeeps(ts, i + 1, q', st');
          }
      }
    }
  }

  /** A conversion of well-named tokens never queues ')'. When it does not return
      early it ends with an empty operator stack, its queue holds the input's
      numbers in input order, and every operator of the input exactly once.
      When it returns early its numbers are those of a prefix of the input. It
      fails only on a pop from an empty stack. */
  lemma ConvertKeeps(ts: seq<Token>)
    requires AllWellNamed(ts)
    ensures match Convert(ts)
      case Converted(q, st) => st == [] && QueueOk(q) && Numbers(q) == Numbers(ts) && Ops(q) == Ops(ts)
      case EarlyReturn(q) => QueueOk(q) && exists k :: 0 <= k <= |ts| && Numbers(q) == Numbers(ts[..k])
      case Failed(e) => e == PopFromEmpty
  {
    assert ts[..0] == [];
    LoopKeeps(ts, 0, [], []);
  }
}
