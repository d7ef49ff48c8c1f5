/** The table-driven tokenizer (main.py:41-120) and the whitespace filter of the
    calculator (main.py:138-145). */
module Tokenizer {
  import opened Outcomes
  import opened Tokens

  /** Scanner states: 0, 1 and 2 of the source, and the negative accepting states,
      each of which names the kind of the accepted token (main.py:58-67). */
  datatype State = Start | InNumber | InSpace | Accept(kind: Kind)

  /** One row of the state table per character category (main.py:48-57); the
      columns are the states Start, InNumber and InSpace. */
  function Row(c: Kind): seq<State> {
    match c
    case Number => [InNumber, InNumber, Accept(Space)]
    case Space => [InSpace, Accept(Number), InSpace]
    case Plus => [Accept(Plus), Accept(Number), Accept(Space)]
    case Minus => [Accept(Minus), Accept(Number), Accept(Space)]
    case Times => [Accept(Times), Accept(Number), Accept(Space)]
    case Divide => [Accept(Divide), Accept(Number), Accept(Space)]
    case LParen => [Accept(LParen), Accept(Number), Accept(Space)]
    case RParen => [Accept(RParen), Accept(Number), Accept(Space)]
  }

  function Column(s: State): nat
    requires !s.Accept?
  {
    match s
    case Start => 0
    case InNumber => 1
    case InSpace => 2
  }

  /** `_get_next_state` (main.py:96-98) once the category is known. */
  function NextState(c: Kind, s: State): (r: State)
    requires !s.Accept?
    ensures s == Start ==> r != Accept(Number) && r != Accept(Space)
    ensures s == InNumber ==> (r == InNumber <==> c == Number)
    ensures s == InNumber && r != InNumber ==> r == Accept(Number)
    ensures s == InSpace ==> (r == InSpace <==> c == Space)
    ensures s == InSpace && r != InSpace ==> r == Accept(Space)
  {
    Row(c)[Column(s)]
  }

  /** `_get_ret_poss_count` (main.py:115-116): a number or a whitespace run is
      recognised one character late, and that character is given back. */
  function PushBack(k: Kind): nat {
    if k == Number || k == Space then 1 else 0
  }

  /** The `while self._state >= 0` loop of `_get_lexem` (main.py:107-109), from
      position `mid` in state `s`: the kind accepted and the position after the
      last character read. Reading at `|expr|` is Python's IndexError; a
      character with no category is the failed table lookup. */
  function Scan(expr: string, mid: nat, s: State): (r: Result<(Kind, nat)>)
    requires !s.Accept?
    ensures r.Ok? ==> mid < r.value.1 <= |expr|
    ensures r.Ok? && s == Start && PushBack(r.value.0) == 1 ==> mid + 2 <= r.value.1
    decreases |expr| - mid
  {
    if mid >= |expr| then Fault(IndexPastEnd)
    else
      match CategoryOf(expr[mid])
      case None => Fault(UnknownCharacter)
      case Some(c) =>
        var n := NextState(c, s);
        if n.Accept? then Ok((n.kind, mid + 1)) else Scan(expr, mid + 1, n)
  }

  /** Repeated `get_token` calls from position `pos` of the sentinel-terminated
      text `expr` (main.py:100-120, 141-145): every token the tokenizer hands out,
      whitespace runs included, in order. Scanning stops once the next start
      position reaches the sentinel (main.py:101-102). The source also stops on
      an empty lexeme; `Scan` shows that none is ever produced. */
  function Lexemes(expr: string, pos: nat): (r: Result<seq<Token>>)
    requires |expr| > 0
    ensures r.Ok? ==> forall k :: 0 <= k < |r.value| ==> |r.value[k].text| > 0
    decreases |expr| - pos
  {
    if pos >= |expr| - 1 then Ok([])
    else
      match Scan(expr, pos, Start)
      case Fault(e) => Fault(e)
      case Ok((k, mid)) =>
        var end := mid - PushBack(k);
        match Lexemes(expr, end)
        case Fault(e) => Fault(e)
        case Ok(rest) => Ok([Token(k, expr[pos..end])] + rest)
  }

  /** The tokenizer on an expression: the sentinel '\n' is appended (main.py:47). */
  function Lex(input: string): Result<seq<Token>> {
    Lexemes(input + "\n", 0)
  }

  /** The `'sp'` filter of `_transf_expr_to_tokens` (main.py:142-144). */
  function WithoutSpaces(ts: seq<Token>): (r: seq<Token>)
    ensures forall k :: 0 <= k < |r| ==> r[k].kind != Space
    ensures |r| <= |ts|
  {
    if |ts| == 0 then []
    else if ts[0].kind == Space then WithoutSpaces(ts[1..])
    else [ts[0]] + WithoutSpaces(ts[1..])
  }

  /** The filter applied to the outcome of a tokenizer run: a failure passes
      through, a token list loses its `'sp'` tokens. */
  function FilterSpaces(r: Result<seq<Token>>): Result<seq<Token>> {
    match r
    case Fault(e) => Fault(e)
    case Ok(ts) => Ok(WithoutSpaces(ts))
  }

  /** `_transf_expr_to_tokens` (main.py:138-145): the token list the converter sees. */
  function Tokenize(input: string): Result<seq<Token>> {
    FilterSpaces(Lex(input))
  }
}
