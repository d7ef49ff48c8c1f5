/** What the state machine of `Tokenizer` computes, stated without the machine:
    maximal munch over digit runs and whitespace runs, one character for
    operators and parentheses. The lemmas connect the two and derive the
    tokenizer's guarantees from the reference. */
module TokenizerSpec {
  import opened Outcomes
  import opened Tokens
  import opened Tokenizer

  /** End of the maximal run of digits that starts at `i`. */
  function DigitsEnd(s: string, i: nat): (j: nat)
    requires i <= |s|
    ensures i <= j <= |s|
    ensures forall k :: i <= k < j ==> IsDigit(s[k])
    ensures j < |s| ==> !IsDigit(s[j])
    decreases |s| - i
  {
    if i < |s| && IsDigit(s[i]) then DigitsEnd(s, i + 1) else i
  }

  /** End of the maximal run of whitespace that starts at `i`. */
  function SpacesEnd(s: string, i: nat): (j: nat)
    requires i <= |s|
    ensures i <= j <= |s|
    ensures forall k :: i <= k < j ==> IsSpace(s[k])
    ensures j < |s| ==> !IsSpace(s[j])
    decreases |s| - i
  {
    if i < |s| && IsSpace(s[i]) then SpacesEnd(s, i + 1) else i
  }

  /** Where a token of kind `k` that starts at `i` ends under maximal munch. */
  function TokenEnd(s: string, i: nat, k: Kind): (j: nat)
    requires i < |s|
    requires CategoryOf(s[i]) == Some(k)
    ensures i < j <= |s|
  {
    if k == Number then DigitsEnd(s, i) else if k == Space then SpacesEnd(s, i) else i + 1
  }

  /** The tokens of `s[i..]` by maximal munch. A whitespace run that reaches the
      end of the text is the machine reading past its sentinel. */
  function Reference(s: string, i: nat): Result<seq<Token>>
    requires i <= |s|
    decreases |s| - i
  {
    if i == |s| then Ok([])
    else
      match CategoryOf(s[i])
      case None => Fault(UnknownCharacter)
      case Some(k) =>
        var j := TokenEnd(s, i, k);
        if k == Space && j == |s| then Fault(IndexPastEnd)
        else
          match Reference(s, j)
          case Fault(e) => Fault(e)
          case Ok(rest) => Ok([Token(k, s[i..j])] + rest)
  }

  /** The lexemes laid end to end. */
  function Concat(ts: seq<Token>): string {
    if |ts| == 0 then "" else ts[0].text + Concat(ts[1..])
  }

  /** No two neighbouring tokens could have been one longer token. */
  predicate Maximal(ts: seq<Token>) {
    forall k :: 0 <= k < |ts| - 1 ==> !(ts[k].kind == ts[k + 1].kind && PushBack(ts[k].kind) == 1)
  }

  /** `ts` cuts `s` into classified, maximal tokens, and `s` does not end in a
      whitespace run. */
  predicate IsTokenization(s: string, ts: seq<Token>) {
    && Concat(ts) == s
    && AllClassified(ts)
    && Maximal(ts)
    && (|ts| > 0 ==> ts[|ts| - 1].kind != Space)
  }

  /** Every character of `s` has a category. */
  predicate Known(s: string) {
    forall k :: 0 <= k < |s| ==> CategoryOf(s[k]).Some?
  }

  predicate EndsInSpace(s: string) {
    |s| > 0 && IsSpace(s[|s| - 1])
  }

  // ---------------------------------------------------------------------------
  // Small facts about runs

  lemma {:induction false} DigitsEndIs(s: string, i: nat, j: nat)
    requires i <= j <= |s|
    requires forall k :: i <= k < j ==> IsDigit(s[k])
    requires j < |s| ==> !IsDigit(s[j])
    ensures DigitsEnd(s, i) == j
    decreases j - i
  {
  }

  lemma {:induction false} SpacesEndIs(s: string, i: nat, j: nat)
    requires i <= j <= |s|
    requires forall k :: i <= k < j ==> IsSpace(s[k])
    requires j < |s| ==> !IsSpace(s[j])
    ensures SpacesEnd(s, i) == j
    decreases j - i
  {
  }

  // ---------------------------------------------------------------------------
  // The machine computes the reference

  /** In state 1 the machine reads to the end of the digit run and accepts a
      number on the first other character that has a category. */
  lemma {:induction false} ScanInNumber(expr: string, mid: nat)
    requires mid <= |expr|
    ensures Scan(expr, mid, InNumber) ==
              (var j := DigitsEnd(expr, mid);
               if j == |expr| then Fault(IndexPastEnd)
               else if CategoryOf(expr[j]).None? then Fault(UnknownCharacter)
               else Ok((Number, j + 1)))
    decreases |expr| - mid
  {
    if mid < |expr| && IsDigit(expr[mid]) {
      ScanInNumber(expr, mid + 1);
    }
  }

  /** In state 2 the machine reads to the end of the whitespace run and accepts
      it on the first other character that has a category. */
  lemma {:induction false} ScanInSpace(expr: string, mid: nat)
    requires mid <= |expr|
    ensures Scan(expr, mid, InSpace) ==
              (var j := SpacesEnd(expr, mid);
               if j == |expr| then Fault(IndexPastEnd)
               else if CategoryOf(expr[j]).None? then Fault(UnknownCharacter)
               else Ok((Space, j + 1)))
    decreases |expr| - mid
  {
    if mid < |expr| && IsSpace(expr[mid]) {
      ScanInSpace(expr, mid + 1);
    }
  }

  lemma {:induction false} DigitsEndSentinel(s: string, i: nat)
    requires i <= |s|
    ensures DigitsEnd(s + "\n", i) == DigitsEnd(s, i)
  {
    var j := DigitsEnd(s, i);
    var e := s + "\n";
    assert forall k :: i <= k < j ==> e[k] == s[k];
    DigitsEndIs(e, i, j);
  }

  lemma {:induction false} SpacesEndSentinel(s: string, i: nat)
    requires i <= |s|
    ensures SpacesEnd(s + "\n", i) == if SpacesEnd(s, i) == |s| then |s| + 1 else SpacesEnd(s, i)
  {
    var j := SpacesEnd(s, i);
    var e := s + "\n";
    assert forall k :: i <= k < j ==> e[k] == s[k];
    if j == |s| {
      assert IsSpace(e[|s|]);
      SpacesEndIs(e, i, |s| + 1);
    } else {
      SpacesEndIs(e, i, j);
    }
  }

  /** Reading at or before the sentinel: the sentinel has a category. */
  lemma SentinelCategory(s: string, j: nat)
    requires j <= |s|
    ensures j < |s + "\n"|
    ensures CategoryOf((s + "\n")[j]).None? <==> j < |s| && CategoryOf(s[j]).None?
  {
  }

  lemma ScanNumberFromStart(s: string, i: nat)
    requires i < |s| && IsDigit(s[i])
    ensures var j := DigitsEnd(s, i);
            Scan(s + "\n", i, Start) ==
              (if j < |s| && CategoryOf(s[j]).None? then Fault(UnknownCharacter) else Ok((Number, j + 1)))
  {
    var e := s + "\n";
    var j := DigitsEnd(s, i);
    assert Scan(e, i, Start) == Scan(e, i + 1, InNumber) by {
      assert e[i] == s[i];
    }
    assert DigitsEnd(e, i + 1) == j by {
      DigitsEndSentinel(s, i + 1);
    }
    SentinelCategory(s, j);
    ScanInNumber(e, i + 1);
  }

  lemma ScanSpaceFromStart(s: string, i: nat)
    requires i < |s| && IsSpace(s[i])
    ensures var j := SpacesEnd(s, i);
            Scan(s + "\n", i, Start) ==
              (if j == |s| then Fault(IndexPastEnd)
               else if CategoryOf(s[j]).None? then Fault(UnknownCharacter) else Ok((Space, j + 1)))
  {
    var e := s + "\n";
    var j := SpacesEnd(s, i);
    assert Scan(e, i, Start) == Scan(e, i + 1, InSpace) by {
      assert e[i] == s[i];
    }
    assert SpacesEnd(e, i + 1) == (if j == |s| then |e| else j) by {
      SpacesEndSentinel(s, i + 1);
    }
    assert j < |s| ==> e[j] == s[j];
    ScanInSpace(e, i + 1);
  }

  /** One call of `_get_lexem` from a position before the sentinel: the kind the
      machine accepts and where it stops reading. */
  lemma ScanFromStart(s: string, i: nat)
    requires i < |s|
    ensures CategoryOf(s[i]).None? ==> Scan(s + "\n", i, Start) == Fault(UnknownCharacter)
    ensures CategoryOf(s[i]).Some? ==>
              var k := CategoryOf(s[i]).value;
              var j := TokenEnd(s, i, k);
              Scan(s + "\n", i, Start) ==
                (if k == Space && j == |s| then Fault(IndexPastEnd)
                 else if PushBack(k) == 1 && j < |s| && CategoryOf(s[j]).None? then Fault(UnknownCharacter)
                 else Ok((k, j + PushBack(k))))
  {
    var e := s + "\n";
    assert e[i] == s[i];
    if CategoryOf(s[i]) == Some(Number) {
      ScanNumberFromStart(s, i);
    } else if CategoryOf(s[i]) == Some(Space) {
      ScanSpaceFromStart(s, i);
    }
  }

  /** The table-driven scanner, run on the text with its sentinel, produces
      exactly the maximal-munch tokens, and fails exactly where the reference
      does. */
  lemma {:induction false} LexemesMatchReference(s: string, i: nat)
    requires i <= |s|
    ensures Lexemes(s + "\n", i) == Reference(s, i)
    decreases |s| - i
  {
    var e := s + "\n";
    if i < |s| {
      ScanFromStart(s, i);
      if CategoryOf(s[i]).Some? {
        var k := CategoryOf(s[i]).value;
        var j := TokenEnd(s, i, k);
        if !(k == Space && j == |s|) {
          assert e[i..j] == s[i..j];
          LexemesMatchReference(s, j);
        }
      }
    }
  }

  lemma LexIsReference(s: string)
    ensures Lex(s) == Reference(s, 0)
  {
    LexemesMatchReference(s, 0);
  }

  // ---------------------------------------------------------------------------
  // What the reference promises

  lemma ConcatFirst(ts: seq<Token>)
    requires |ts| > 0 && |ts[0].text| > 0
    ensures |Concat(ts)| > 0 && Concat(ts)[0] == ts[0].text[0]
  {
  }

  lemma ClassifiedFirstChar(t: Token)
    requires Classified(t)
    ensures CategoryOf(t.text[0]) == Some(t.kind)
  {
  }

  /** A classified token in front of a tokenization that it cannot merge with
      gives a tokenization of the longer text. */
  lemma ConsTokenization(s: string, t: Token, rest: seq<Token>)
    requires IsTokenization(s, rest)
    requires Classified(t)
    requires |rest| > 0 ==> !(t.kind == rest[0].kind && PushBack(t.kind) == 1)
    requires |rest| == 0 ==> t.kind != Space
    ensures IsTokenization(t.text + s, [t] + rest)
  {
  }

  /** One maximal-munch token in front of a tokenization of the rest. */
  lemma ReferenceSoundStep(s: string, i: nat, k: Kind, rest: seq<Token>)
    requires i < |s| && CategoryOf(s[i]) == Some(k)
    requires !(k == Space && TokenEnd(s, i, k) == |s|)
    requires IsTokenization(s[TokenEnd(s, i, k)..], rest)
    ensures IsTokenization(s[i..], [Token(k, s[i..TokenEnd(s, i, k)])] + rest)
  {
  }

  /** Every token list the reference returns is a tokenization of the text. */
  lemma {:induction false} ReferenceSound(s: string, i: nat)
    requires i <= |s|
    ensures Reference(s, i).Ok? ==> IsTokenization(s[i..], Reference(s, i).value)
    decreases |s| - i
  {
    if i < |s| && CategoryOf(s[i]).Some? {
      var k := CategoryOf(s[i]).value;
      var j := TokenEnd(s, i, k);
      if !(k == Space && j == |s|) {
        ReferenceSound(s, j);
        if Reference(s, j).Ok? {
          ReferenceSoundStep(s, i, k, Reference(s, j).value);
        }
      }
    }
  }

  /** The reference fails on an unknown character wherever it occurs, and
      otherwise fails exactly when the text ends in whitespace. */
  lemma {:induction false} ReferenceOutcome(s: string, i: nat)
    requires i <= |s|
    ensures (exists k :: i <= k < |s| && CategoryOf(s[k]).None?) ==> Reference(s, i) == Fault(UnknownCharacter)
    ensures (forall k :: i <= k < |s| ==> CategoryOf(s[k]).Some?) ==>
              Reference(s, i) != Fault(UnknownCharacter) &&
              (Reference(s, i).Ok? <==> i == |s| || !IsSpace(s[|s| - 1]))
    decreases |s| - i
  {
    if i < |s| && CategoryOf(s[i]).Some? {
      var k := CategoryOf(s[i]).value;
      var j := TokenEnd(s, i, k);
      assert forall m :: i <= m < j ==> CategoryOf(s[m]).Some?;
      if k == Space && j == |s| {
        assert IsSpace(s[|s| - 1]);
      } else {
        ReferenceOutcome(s, j);
        if j == |s| {
          assert k != Space;
          assert !IsSpace(s[|s| - 1]);
        }
      }
    }
  }

  // ---------------------------------------------------------------------------
  // The tokenizer's guarantees

  /** Outcome of the tokenizer: a character without a category fails the table
      lookup; otherwise a text ending in whitespace carries state 2 over the
      sentinel and reads past the end; every other text is cut into a
      tokenization (non-empty lexemes that concatenate back to the text). */
  lemma LexOutcome(s: string)
    ensures !Known(s) ==> Lex(s) == Fault(UnknownCharacter)
    ensures Known(s) && EndsInSpace(s) ==> Lex(s) == Fault(IndexPastEnd)
    ensures Known(s) && !EndsInSpace(s) ==> Lex(s).Ok? && IsTokenization(s, Lex(s).value)
  {
    LexIsReference(s);
    ReferenceOutcome(s, 0);
    ReferenceSound(s, 0);
    assert s[0..] == s;
    if Lex(s).Fault? {
      assert Lex(s).reason == UnknownCharacter || Lex(s).reason == IndexPastEnd by {
        LexFaultReasons(s, 0);
      }
    }
  }

  lemma {:induction false} LexFaultReasons(s: string, i: nat)
    requires i <= |s|
    ensures Reference(s, i).Fault? ==> Reference(s, i).reason in {UnknownCharacter, IndexPastEnd}
    decreases |s| - i
  {
    if i < |s| && CategoryOf(s[i]).Some? {
      var k := CategoryOf(s[i]).value;
      var j := TokenEnd(s, i, k);
      if !(k == Space && j == |s|) {
        LexFaultReasons(s, j);
      }
    }
  }

  // ---------------------------------------------------------------------------
  // A tokenization is unique, so it characterises the tokenizer

  lemma TokenizationTail(s: string, ts: seq<Token>)
    requires IsTokenization(s, ts) && |ts| > 0
    ensures s == ts[0].text + Concat(ts[1..])
    ensures IsTokenization(Concat(ts[1..]), ts[1..])
  {
  }

  /** A text that has a tokenization has only known characters and does not end
      in whitespace. */
  lemma {:induction false} TokenizationLexable(s: string, ts: seq<Token>)
    requires IsTokenization(s, ts)
    ensures Known(s) && !EndsInSpace(s)
    decreases |ts|
  {
    if |ts| > 0 {
      var t := ts[0];
      var rest := ts[1..];
      TokenizationTail(s, ts);
      TokenizationLexable(Concat(rest), rest);
      assert Classified(t);
      assert forall m :: 0 <= m < |t.text| ==> CategoryOf(t.text[m]).Some?;
      assert forall m :: 0 <= m < |s| ==> s[m] == if m < |t.text| then t.text[m] else Concat(rest)[m - |t.text|];
      if |rest| > 0 {
        assert Classified(rest[0]);
        ConcatFirst(rest);
      } else {
        assert s == t.text;
      }
    }
  }

  /** The first token of a tokenization is the maximal-munch token at the start. */
  lemma FirstTokenEnd(s: string, ts: seq<Token>)
    requires IsTokenization(s, ts) && |ts| > 0
    ensures |s| > 0 && CategoryOf(s[0]) == Some(ts[0].kind)
    ensures |ts[0].text| == TokenEnd(s, 0, ts[0].kind)
  {
    var t := ts[0];
    var n := |t.text|;
    TokenizationTail(s, ts);
    assert Classified(t);
    ClassifiedFirstChar(t);
    assert s[0] == t.text[0];
    assert forall m :: 0 <= m < n ==> s[m] == t.text[m];
    if |ts| > 1 {
      var u := ts[1];
      assert ts[1..][0] == u;
      assert Classified(u);
      ConcatFirst(ts[1..]);
      ClassifiedFirstChar(u);
      assert s[n] == u.text[0];
      assert !(t.kind == u.kind && PushBack(t.kind) == 1);
    } else {
      assert ts[1..] == [];
      assert s == t.text;
    }
    if t.kind == Number {
      DigitsEndIs(s, 0, n);
    } else if t.kind == Space {
      SpacesEndIs(s, 0, n);
    }
  }

  /** Classified tokens concatenate to the empty text only when there are none. */
  lemma ConcatEmpty(ts: seq<Token>)
    requires AllClassified(ts)
    ensures |Concat(ts)| == 0 <==> |ts| == 0
  {
  }

  /** A text has at most one tokenization. */
  lemma {:induction false} TokenizationUnique(s: string, ts1: seq<Token>, ts2: seq<Token>)
    requires IsTokenization(s, ts1) && IsTokenization(s, ts2)
    ensures ts1 == ts2
    decreases |s|
  {
    ConcatEmpty(ts1);
    ConcatEmpty(ts2);
    if |s| > 0 {
      FirstTokenEnd(s, ts1);
      FirstTokenEnd(s, ts2);
      TokenizationTail(s, ts1);
      TokenizationTail(s, ts2);
      var n := |ts1[0].text|;
      assert ts1[0].text == s[..n] == ts2[0].text;
      assert Concat(ts1[1..]) == s[n..] == Concat(ts2[1..]);
      TokenizationUnique(s[n..], ts1[1..], ts2[1..]);
      assert ts1 == [ts1[0]] + ts1[1..];
      assert ts2 == [ts2[0]] + ts2[1..];
    }
  }

  /** The tokenizer succeeds with `ts` exactly when `ts` is a tokenization of the
      input: lexemes are non-empty, classified by their kind, maximal, and
      concatenate back to the input. */
  lemma LexCharacterization(s: string, ts: seq<Token>)
    ensures Lex(s) == Ok(ts) <==> IsTokenization(s, ts)
  {
    LexOutcome(s);
    if IsTokenization(s, ts) {
      TokenizationLexable(s, ts);
      TokenizationUnique(s, ts, Lex(s).value);
    }
  }

  /** A string of digits is one number token holding the whole string. */
  lemma AllDigitsOneToken(s: string)
    requires |s| > 0
    requires forall k :: 0 <= k < |s| ==> IsDigit(s[k])
    ensures Tokenize(s) == Ok([Token(Number, s)])
  {
    LexIsReference(s);
    DigitsEndIs(s, 0, |s|);
    assert s[0..|s|] == s;
    assert CategoryOf(s[0]) == Some(Number);
    var j := TokenEnd(s, 0, Number);
    assert j == |s|;
    assert Reference(s, j) == Ok([]);
    assert s[0..j] == s;
    assert Reference(s, 0) == Ok([Token(Number, s[0..j])] + []);
    assert [Token(Number, s[0..j])] + [] == [Token(Number, s)];
  }

  // ---------------------------------------------------------------------------
  // Whitespace between tokens does not matter once 'sp' tokens are dropped

  lemma WithoutSpacesCons(t: Token, rest: seq<Token>)
    ensures WithoutSpaces([t] + rest) == if t.kind == Space then WithoutSpaces(rest) else [t] + WithoutSpaces(rest)
  {
  }

  /** The `'sp'` filter keeps every other token, in order: it drops exactly the
      whitespace tokens and distributes over concatenation, so filtering a list
      is filtering its parts and joining the results. */
  lemma {:induction false} WithoutSpacesAppend(a: seq<Token>, b: seq<Token>)
    ensures WithoutSpaces(a + b) == WithoutSpaces(a) + WithoutSpaces(b)
    ensures |a| == 1 ==> WithoutSpaces(a) == if a[0].kind == Space then [] else a
    decreases |a|
  {
    if |a| > 0 {
      assert a + b == [a[0]] + (a[1..] + b) && a == [a[0]] + a[1..];
      WithoutSpacesCons(a[0], a[1..] + b);
      WithoutSpacesCons(a[0], a[1..]);
      WithoutSpacesAppend(a[1..], b);
      if |a| == 1 {
        assert a[1..] == [];
      }
    } else {
      assert a + b == b;
    }
  }

  lemma DigitsEndShift(x: string, y: string, i: nat)
    requires i <= |y|
    ensures DigitsEnd(x + y, |x| + i) == |x| + DigitsEnd(y, i)
  {
    DigitsEndIs(x + y, |x| + i, |x| + DigitsEnd(y, i));
  }

  lemma SpacesEndShift(x: string, y: string, i: nat)
    requires i <= |y|
    ensures SpacesEnd(x + y, |x| + i) == |x| + SpacesEnd(y, i)
  {
    SpacesEndIs(x + y, |x| + i, |x| + SpacesEnd(y, i));
  }

  lemma TokenEndShift(x: string, y: string, i: nat, k: Kind)
    requires i < |y| && CategoryOf(y[i]) == Some(k)
    ensures (x + y)[|x| + i] == y[i]
    ensures TokenEnd(x + y, |x| + i, k) == |x| + TokenEnd(y, i, k)
    ensures (x + y)[|x| + i..|x| + TokenEnd(y, i, k)] == y[i..TokenEnd(y, i, k)]
  {
    if k == Number {
      DigitsEndShift(x, y, i);
    } else if k == Space {
      SpacesEndShift(x, y, i);
    }
    SliceShift(x, y, i, TokenEnd(y, i, k));
  }

  lemma SliceShift(x: string, y: string, a: nat, b: nat)
    requires a <= b <= |y|
    ensures (x + y)[|x| + a..|x| + b] == y[a..b]
  {
  }

  /** What follows a position is tokenized without regard to what precedes it. */
  lemma {:induction false} ReferenceShift(x: string, y: string, i: nat)
    requires i <= |y|
    ensures Reference(x + y, |x| + i) == Reference(y, i)
    decreases |y| - i
  {
    if i < |y| {
      assert (x + y)[|x| + i] == y[i];
      if CategoryOf(y[i]).Some? {
        var k := CategoryOf(y[i]).value;
        TokenEndShift(x, y, i, k);
        ReferenceShift(x, y, TokenEnd(y, i, k));
      }
    }
  }

  /** The text `s` with the whitespace `w` inserted at position `p`. */
  function Insert(s: string, p: nat, w: string): string
    requires p <= |s|
  {
    s[..p] + w + s[p..]
  }

  lemma InsertAt(s: string, p: nat, w: string)
    requires p <= |s|
    ensures |Insert(s, p, w)| == |s| + |w|
    ensures forall m :: 0 <= m < p ==> Insert(s, p, w)[m] == s[m]
    ensures forall m :: p <= m < p + |w| ==> Insert(s, p, w)[m] == w[m - p]
    ensures forall m :: p + |w| <= m < |s| + |w| ==> Insert(s, p, w)[m] == s[m - |w|]
  {
  }

  lemma InsertSuffix(s: string, p: nat, w: string, j: nat)
    requires p <= j <= |s|
    ensures Reference(Insert(s, p, w), j + |w|) == Reference(s, j)
  {
    ShiftPair(s, s[..p], w, s[p..], j - p, j);
  }

  /** Inserting `w` between `x` and `y` shifts what follows by `|w|`. */
  lemma ShiftPair(s: string, x: string, w: string, y: string, i: nat, m: nat)
    requires s == x + y && i <= |y| && m == |x| + i
    ensures Reference(x + w + y, m + |w|) == Reference(s, m)
  {
    ReferenceShiftAt(x + w, y, i, m + |w|);
    ReferenceShiftAt(x, y, i, m);
  }

  lemma ReferenceShiftAt(x: string, y: string, i: nat, m: nat)
    requires i <= |y| && m == |x| + i
    ensures Reference(x + y, m) == Reference(y, i)
  {
    ReferenceShift(x, y, i);
  }

  predicate AllSpace(w: string) {
    forall m :: 0 <= m < |w| ==> IsSpace(w[m])
  }

  /** Position `p` does not fall between two digits of one number. */
  predicate NotInsideNumber(s: string, p: nat)
    requires p < |s|
  {
    !(0 < p && IsDigit(s[p - 1]) && IsDigit(s[p]))
  }

  /** Once 'sp' tokens are dropped, a whitespace run followed by more text
      contributes nothing. */
  lemma SkipSpaceRun(s: string, i: nat, j: nat)
    requires i < |s| && IsSpace(s[i]) && j == SpacesEnd(s, i)
    ensures j == |s| ==> Reference(s, i) == Fault(IndexPastEnd)
    ensures j < |s| ==> FilterSpaces(Reference(s, i)) == FilterSpaces(Reference(s, j))
  {
  }

  /** Whitespace inserted into or in front of a whitespace run lengthens it. */
  lemma InsertSpacesEnd(s: string, p: nat, w: string, i: nat)
    requires i <= p < |s| && AllSpace(w)
    requires forall k :: i <= k < p ==> IsSpace(s[k])
    ensures SpacesEnd(Insert(s, p, w), i) == SpacesEnd(s, p) + |w|
  {
    InsertAt(s, p, w);
    SpacesEndIs(Insert(s, p, w), i, SpacesEnd(s, p) + |w|);
  }

  /** The inserted text's side of `InsertedRun`. */
  lemma InsertedRunLeft(s: string, p: nat, w: string, i: nat)
    requires i <= p < |s| && |w| > 0 && AllSpace(w)
    requires forall k :: i <= k < p ==> IsSpace(s[k])
    ensures SpacesEnd(s, p) == |s| ==> Reference(Insert(s, p, w), i) == Fault(IndexPastEnd)
    ensures SpacesEnd(s, p) < |s| ==>
              FilterSpaces(Reference(Insert(s, p, w), i)) == FilterSpaces(Reference(s, SpacesEnd(s, p)))
  {
    var s' := Insert(s, p, w);
    var e := SpacesEnd(s, p);
    InsertSpacesEnd(s, p, w, i);
    assert IsSpace(s'[i]) by {
      InsertAt(s, p, w);
    }
    SkipSpaceRun(s', i, e + |w|);
    if e < |s| {
      InsertSuffix(s, p, w, e);
    }
  }

  /** The original text's side of `InsertedRun`. */
  lemma InsertedRunRight(s: string, p: nat, i: nat)
    requires i <= p < |s|
    requires forall k :: i <= k < p ==> IsSpace(s[k])
    ensures SpacesEnd(s, p) == |s| ==> Reference(s, i) == Fault(IndexPastEnd)
    ensures SpacesEnd(s, p) < |s| ==> FilterSpaces(Reference(s, i)) == FilterSpaces(Reference(s, SpacesEnd(s, p)))
  {
  }

  /** A scan that starts in whitespace reaching the insertion point, or at the
      insertion point itself, sees the same tokens once 'sp' is dropped. */
  lemma InsertedRun(s: string, p: nat, w: string, i: nat)
    requires i <= p < |s| && |w| > 0 && AllSpace(w)
    requires forall k :: i <= k < p ==> IsSpace(s[k])
    ensures FilterSpaces(Reference(Insert(s, p, w), i)) == FilterSpaces(Reference(s, i))
  {
    InsertedRunLeft(s, p, w, i);
    InsertedRunRight(s, p, i);
  }

  lemma {:induction false} InsertFrom(s: string, p: nat, w: string, i: nat)
    requires i <= p < |s| && |w| > 0 && AllSpace(w) && NotInsideNumber(s, p)
    ensures FilterSpaces(Reference(Insert(s, p, w), i)) == FilterSpaces(Reference(s, i))
    decreases p - i
  {
    var s' := Insert(s, p, w);
    InsertAt(s, p, w);
    if i == p {
      InsertedRun(s, p, w, p);
    } else if CategoryOf(s[i]).Some? {
      assert s'[i] == s[i];
      var k := CategoryOf(s[i]).value;
      var j := TokenEnd(s, i, k);
      if k == Number {
        DigitsEndIs(s', i, j);
        assert s'[i..j] == s[i..j];
        InsertFrom(s, p, w, j);
      } else if k == Space && j < p {
        SpacesEndIs(s', i, j);
        assert s'[i..j] == s[i..j];
        InsertFrom(s, p, w, j);
      } else if k == Space {
        InsertedRun(s, p, w, i);
      } else {
        assert s'[i..j] == s[i..j];
        InsertFrom(s, p, w, j);
      }
    }
  }

  /** Inserting whitespace anywhere but at the end or inside a number leaves the
      token list after the 'sp' filter unchanged, failures included: "6*4" and
      "6 * 4" tokenize alike. */
  lemma SpacesBetweenTokens(s: string, p: nat, w: string)
    requires p < |s| && |w| > 0 && AllSpace(w) && NotInsideNumber(s, p)
    ensures Tokenize(Insert(s, p, w)) == Tokenize(s)
  {
    LexIsReference(s);
    LexIsReference(Insert(s, p, w));
    InsertFrom(s, p, w, 0);
  }

  /** Whitespace at the very end makes the scan read past the sentinel. */
  lemma TrailingSpaceFaults(s: string, w: string)
    requires Known(s) && |w| > 0 && AllSpace(w)
    ensures Tokenize(s + w) == Fault(IndexPastEnd)
  {
    assert Known(s + w) by {
      forall m | 0 <= m < |s + w|
        ensures CategoryOf((s + w)[m]).Some?
      {
        if m >= |s| {
          assert (s + w)[m] == w[m - |s|];
        }
      }
    }
    assert IsSpace((s + w)[|s + w| - 1]);
    LexOutcome(s + w);
  }
}
