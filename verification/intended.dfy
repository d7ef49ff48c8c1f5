/** The unload loop as the comment above it describes it (main.py:166-169): pop
    operators into the queue while the top of the stack has priority at least
    that of the incoming operator, stopping at '(' or at a lower-priority top,
    which stays on the stack. The code (main.py:171-177) tests the token it has
    just popped instead, so it queues one token too many whenever it stops at a
    lower-priority operator. `Converter.Unload` keeps the code's behaviour,
    since that is what the calculator computes; this module states the
    corrected loop and exactly how far the two differ. */
module Intended {
  import opened Tokens
  import opened Converter

  /** The corrected loop: what it leaves is a bottom part of the stack, and the
      queue gains the rest, top first. */
  function UnloadIntended(q: seq<Token>, st: seq<Token>, p: int): (r: (seq<Token>, seq<Token>))
    ensures |r.1| <= |st| && r.1 == st[..|r.1|]
    ensures r.0 == q + Reversed(st[|r.1|..])
    decreases |st|
  {
    if |st| == 0 || Top(st).text == "(" || Top(st).Prior() < p then
      assert st[|st|..] == [];
      (q, st)
    else
      var u := Top(st);
      var r := UnloadIntended(q + [u], Pop(st), p);
      assert st[|r.1|..] == Pop(st)[|r.1|..] + [u];
      assert Reversed(st[|r.1|..]) == [u] + Reversed(Pop(st)[|r.1|..]);
      r
  }

  /** The corrected loop queues exactly the run of operators of priority at
      least `p` on top of the stack: it stops at an empty stack, at '(' or at a
      lower-priority operator, and queues nothing else. */
  lemma {:induction false} UnloadIntendedRun(q: seq<Token>, st: seq<Token>, p: int)
    ensures var k := |UnloadIntended(q, st, p).1|;
            k == 0 || st[k - 1].text == "(" || st[k - 1].Prior() < p
    ensures var k := |UnloadIntended(q, st, p).1|;
            forall j :: k <= j < |st| ==> st[j].text != "(" && st[j].Prior() >= p
    decreases |st|
  {
    if !(|st| == 0 || Top(st).text == "(" || Top(st).Prior() < p) {
      UnloadIntendedRun(q + [Top(st)], Pop(st), p);
      var k := |UnloadIntended(q, st, p).1|;
      assert k <= |st| - 1;
      assert forall j :: k <= j < |st| - 1 ==> st[j] == Pop(st)[j];
    }
  }

  /** The corrected push of an operator: unload as the comment says, then push.
      Below the pushed operator lies '(', a lower-priority operator or nothing,
      and every token queued has priority at least the incoming one's. */
  function PushOperatorIntended(q: seq<Token>, st: seq<Token>, t: Token): (r: (seq<Token>, seq<Token>))
    ensures 0 < |r.1| <= |st| + 1 && r.1 == st[..|r.1| - 1] + [t]
    ensures r.0 == q + Reversed(st[|r.1| - 1..])
    ensures |r.1| == 1 || r.1[|r.1| - 2].text == "(" || r.1[|r.1| - 2].Prior() < t.Prior()
    ensures forall j :: |r.1| - 1 <= j < |st| ==> st[j].Prior() >= t.Prior()
  {
    UnloadIntendedRun(q, st, t.Prior());
    var (q', st') := UnloadIntended(q, st, t.Prior());
    (q', st' + [t])
  }

  /** The loop as written agrees with the corrected one when the corrected one
      stops at '(' or an empty stack, and otherwise queues exactly one token
      more: the lower-priority operator the corrected loop leaves on top. */
  lemma {:induction false} AsWrittenVsIntended(q: seq<Token>, st: seq<Token>, p: int, last: int)
    requires last >= p
    ensures var r := UnloadIntended(q, st, p);
            |r.1| == 0 || Top(r.1).text == "(" ==> Unload(q, st, p, last) == r
    ensures var r := UnloadIntended(q, st, p);
            |r.1| > 0 && Top(r.1).text != "(" ==> Unload(q, st, p, last) == (r.0 + [Top(r.1)], Pop(r.1))
    decreases |st|
  {
    if |st| > 0 && Top(st).text != "(" && Top(st).Prior() >= p {
      AsWrittenVsIntended(q + [Top(st)], Pop(st), p, Top(st).Prior());
    }
  }

  /** A lower-priority operator `a` under an operator `b` that the incoming
      priority `p` unloads: the code queues `b` and `a`, the corrected loop
      queues `b` alone and leaves `a` on the stack. With `a` = '+', `b` = '*'
      and an incoming '*' this is "1+2*3*4" (main.py:171-177). */
  lemma Overpops(q: seq<Token>, s: seq<Token>, a: Token, b: Token, p: int, last: int)
    requires last >= p && a.text != "(" && b.text != "(" && a.Prior() < p <= b.Prior()
    ensures Unload(q, s + [a] + [b], p, last) == (q + [b] + [a], s)
    ensures UnloadIntended(q, s + [a] + [b], p) == (q + [b], s + [a])
  {
    var st := s + [a] + [b];
    assert Top(st) == b && Pop(st) == s + [a];
    assert Top(s + [a]) == a && Pop(s + [a]) == s;
    assert Unload(q + [b], s + [a], p, b.Prior()) == Unload(q + [b] + [a], s, p, a.Prior());
  }
}
