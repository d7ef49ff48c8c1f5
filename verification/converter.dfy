/** `Calculator._infix_to_postfix` (main.py:147-204), modelled as the code runs
    rather than as textbook shunting-yard. Stacks are sequences whose top is the
    last element, like the Python list; the queue is appended at its end. */
module Converter {
  import opened Outcomes
  import opened Tokens

  /** Outcome of a conversion: the queue (and the final operator stack) when every
      token was processed, the partial queue when an unmatched ')' made the
      conversion return early (main.py:194-196), or a failed pop. */
  datatype Conversion =
    | Converted(queue: seq<Token>, stack: seq<Token>)
    | EarlyReturn(queue: seq<Token>)
    | Failed(reason: Reason)

  /** Outcome of processing one token. */
  datatype StepOutcome =
    | Continue(queue: seq<Token>, stack: seq<Token>)
    | Early(queue: seq<Token>)
    | StepFault(reason: Reason)

  function Top(st: seq<Token>): Token
    requires |st| > 0
  {
    st[|st| - 1]
  }

  function Pop(st: seq<Token>): seq<Token>
    requires |st| > 0
  {
    st[..|st| - 1]
  }

  /** The elements of a stack in the order repeated pops return them. */
  function Reversed(st: seq<Token>): (r: seq<Token>)
    ensures |r| == |st|
    ensures forall k :: 0 <= k < |st| ==> r[k] == st[|st| - 1 - k]
  {
    if |st| == 0 then [] else [Top(st)] + Reversed(Pop(st))
  }

  /** Priority of the placeholder token `Token(prior=1000)` that starts the unload
      loop (main.py:171). */
  const SentinelPrior := 1000

  /** Popping the top of a stack adds it in front of the popped part of
      every suffix that contains it. */
  lemma PopSuffix(st: seq<Token>, k: nat)
    requires k < |st|
    ensures st[k..] == Pop(st)[k..] + [Top(st)]
    ensures Reversed(st[k..]) == [Top(st)] + Reversed(Pop(st)[k..])
  {
  }

  /** How the unload loop of main.py:171-177 leaves a stack `st` when it stops
      with `st[..k]` on the stack: the tokens above position `k` went to the
      queue top first, none of them was '(', every one popped before the last
      had priority at least `p`, and the loop stopped because the stack ran out,
      '(' came next, or the token it had just queued was below `p`. The last
      token popped, `st[k]`, is queued whatever its priority. */
  predicate UnloadedAsWritten(q: seq<Token>, st: seq<Token>, p: int, k: nat, q': seq<Token>) {
    && k < |st|
    && q' == q + Reversed(st[k..])
    && (forall j :: k <= j < |st| ==> st[j].text != "(")
    && (forall j :: k < j < |st| ==> st[j].Prior() >= p)
    && (k == 0 || st[k - 1].text == "(" || st[k].Prior() < p)
  }

  /** The unload loop of main.py:171-177, `last` being the priority of the token
      it popped last. Its condition tests that token, not the stack top. What it
      leaves is a bottom part of the stack, and the queue gains the rest, top
      first. */
  function Unload(q: seq<Token>, st: seq<Token>, p: int, last: int): (r: (seq<Token>, seq<Token>))
    ensures |r.1| <= |st| && r.1 == st[..|r.1|]
    ensures r.0 == q + Reversed(st[|r.1|..])
    decreases |st|
  {
    if |st| == 0 || last < p then
      assert st[|st|..] == [];
      (q, st)
    else
      var u := Top(st);
      if u.text == "(" then
        assert st[|st|..] == [];
        (q, st)
      else
        var r := Unload(q + [u], Pop(st), p, u.Prior());
        PopSuffix(st, |r.1|);
        r
  }

  /** The loop as it runs from main.py:171, with `last` at least `p`: it pushes
      '(' back untouched, and otherwise stops as `UnloadedAsWritten` says. */
  lemma {:induction false} UnloadAsWritten(q: seq<Token>, st: seq<Token>, p: int, last: int)
    requires last >= p && |st| > 0
    ensures Top(st).text == "(" ==> Unload(q, st, p, last) == (q, st)
    ensures Top(st).text != "(" ==>
              var r := Unload(q, st, p, last);
              UnloadedAsWritten(q, st, p, |r.1|, r.0)
    decreases |st|
  {
    var u := Top(st);
    if u.text != "(" {
      var r := Unload(q, st, p, last);
      assert r == Unload(q + [u], Pop(st), p, u.Prior());
      if |st| > 1 && u.Prior() >= p && Top(Pop(st)).text != "(" {
        UnloadAsWritten(q + [u], Pop(st), p, u.Prior());
        var k := |r.1|;
        assert forall j :: 0 <= j < |st| - 1 ==> Pop(st)[j] == st[j];
        assert k < |st| - 1;
      } else {
        assert |r.1| == |st| - 1;
      }
    }
  }

  /** Step 2 of the conversion (main.py:157-178) for an operator token `t`. The
      test `self._stack[...] == '('` at main.py:160 compares a Token with a str
      and never holds, so only an empty stack pushes directly; an '(' on top is
      popped by the unload loop and pushed back, which has the same effect. The
      operator ends on top of what the unload left. */
  function PushOperator(q: seq<Token>, st: seq<Token>, t: Token): (r: (seq<Token>, seq<Token>))
    ensures 0 < |r.1| <= |st| + 1 && r.1 == st[..|r.1| - 1] + [t]
    ensures r.0 == q + Reversed(st[|r.1| - 1..])
  {
    if |st| == 0 then (q, st + [t])
    else if t.Prior() > Top(st).Prior() then
      assert st[|st|..] == [];
      (q, st + [t])
    else
      var (q', st') := Unload(q, st, t.Prior(), SentinelPrior);
      (q', st' + [t])
  }

  /** Which way `PushOperator` goes: straight onto an empty stack, onto '(' or onto
      an operator of strictly lower priority; otherwise after an unload. */
  lemma PushOperatorCases(q: seq<Token>, st: seq<Token>, t: Token)
    ensures |st| == 0 || Top(st).text == "(" || Top(st).Prior() < t.Prior() ==>
              PushOperator(q, st, t) == (q, st + [t])
    ensures !(|st| == 0 || Top(st).text == "(" || Top(st).Prior() < t.Prior()) ==>
              var r := PushOperator(q, st, t);
              UnloadedAsWritten(q, st, t.Prior(), |r.1| - 1, r.0)
  {
    if |st| > 0 && t.Prior() <= Top(st).Prior() {
      UnloadAsWritten(q, st, t.Prior(), SentinelPrior);
    }
  }

  /** Index of the topmost '(' of a stack, or -1 when there is none. */
  function OpenIndex(st: seq<Token>): (i: int)
    ensures -1 <= i < |st|
    ensures i >= 0 ==> st[i].text == "("
    ensures forall j :: i < j < |st| ==> st[j].text != "("
  {
    if |st| == 0 then -1
    else if Top(st).text == "(" then |st| - 1
    else OpenIndex(Pop(st))
  }

  /** The loop of main.py:193-198 after `u` has been popped: queue popped tokens
      until '(' is popped, which is dropped; if the stack runs out first, the
      conversion returns early and the token in hand is lost. */
  function CloseParen(q: seq<Token>, st: seq<Token>, u: Token): (r: StepOutcome)
    ensures !r.StepFault?
    decreases |st|
  {
    if u.text == "(" then Continue(q, st)
    else if |st| == 0 then Early(q)
    else CloseParen(q + [u], Pop(st), Top(st))
  }

  /** Where `CloseParen` stops: at the topmost '(' of the stack, or with an early
      return that loses the bottom token when there is none. */
  lemma {:induction false} CloseParenCases(q: seq<Token>, st: seq<Token>, u: Token)
    ensures u.text == "(" ==> CloseParen(q, st, u) == Continue(q, st)
    ensures u.text != "(" && OpenIndex(st) >= 0 ==>
              CloseParen(q, st, u) == Continue(q + [u] + Reversed(st[OpenIndex(st) + 1..]), st[..OpenIndex(st)])
    ensures u.text != "(" && OpenIndex(st) < 0 ==> CloseParen(q, st, u) == Early(q + ([u] + Reversed(st))[..|st|])
    decreases |st|
  {
    if u.text != "(" {
      if |st| == 0 {
        assert q + ([u] + Reversed(st))[..|st|] == q;
      } else {
        var i := OpenIndex(st);
        CloseParenCases(q + [u], Pop(st), Top(st));
        assert Reversed(st) == [Top(st)] + Reversed(Pop(st));
        if Top(st).text == "(" {
          assert st[i + 1..] == [];
          assert st[..i] == Pop(st);
        } else {
          assert OpenIndex(Pop(st)) == i;
          if i >= 0 {
            var x := st[i + 1..];
            assert Top(x) == Top(st) && Pop(x) == Pop(st)[i + 1..];
            assert Pop(st)[..i] == st[..i];
          } else {
            assert ([u] + Reversed(st))[..|st|] == [u] + ([Top(st)] + Reversed(Pop(st)))[..|Pop(st)|];
          }
        }
      }
    }
  }

  /** One pass of the body of the `for` loop (main.py:150-198): the four tests
      run one after the other on the same token. */
  function Step(q: seq<Token>, st: seq<Token>, t: Token): StepOutcome {
    var q1 := if t.kind == Number then q + [t] else q;
    var (q2, st2) := if IsOperator(t.kind) then PushOperator(q1, st, t) else (q1, st);
    var st3 := if t.text == "(" then st2 + [t] else st2;
    if t.text == ")" then
      if |st3| == 0 then StepFault(PopFromEmpty) else CloseParen(q2, Pop(st3), Top(st3))
    else Continue(q2, st3)
  }

  /** The final unload of main.py:201-204: pop everything into the queue. */
  function Flush(q: seq<Token>, st: seq<Token>): (r: seq<Token>)
    ensures r == q + Reversed(st)
    decreases |st|
  {
    if |st| == 0 then q else Flush(q + [Top(st)], Pop(st))
  }

  /** The `for` loop from token `i`, the stack being flushed right after the last
      token (main.py:201). */
  function Loop(ts: seq<Token>, i: nat, q: seq<Token>, st: seq<Token>): Conversion
    requires i <= |ts|
    decreases |ts| - i
  {
    if i == |ts| then Converted(q, st)
    else
      match Step(q, st, ts[i])
      case StepFault(e) => Failed(e)
      case Early(q') => EarlyReturn(q')
      case Continue(q', st') =>
        if i == |ts| - 1 then Loop(ts, i + 1, Flush(q', st'), []) else Loop(ts, i + 1, q', st')
  }

  /** `_infix_to_postfix` from an empty queue and stack. */
  function Convert(ts: seq<Token>): Conversion {
    Loop(ts, 0, [], [])
  }
}
