/** Tokens and character classes (main.py:4-8, 58-67, 78-94). */
module Tokens {
  import opened Outcomes

  /** Token names of the source: 'digit', 'sp', '+', '-', '*', '/', '(', ')'.
      The character categories of the state table (main.py:78-94) come in the same
      order, so one type serves for both. */
  datatype Kind = Number | Space | Plus | Minus | Times | Divide | LParen | RParen

  /** The names matched by `token.name in ('+', '-', '*', '/')`. */
  predicate IsOperator(k: Kind) {
    k == Plus || k == Minus || k == Times || k == Divide
  }

  /** Priority column of the token table (main.py:58-67). */
  function KindPrior(k: Kind): int {
    match k
    case Number => 1
    case Space => 0
    case Plus => 2
    case Minus => 2
    case Times => 3
    case Divide => 3
    case LParen => 4
    case RParen => 4
  }

  /** The one character of an operator or parenthesis token. */
  function Symbol(k: Kind): char
    requires k != Number && k != Space
  {
    match k
    case Plus => '+'
    case Minus => '-'
    case Times => '*'
    case Divide => '/'
    case LParen => '('
    case RParen => ')'
  }

  /** `str.isdigit` on ASCII characters. */
  predicate IsDigit(c: char) {
    '0' <= c <= '9'
  }

  /** `str.isspace` on ASCII characters: tab, line feed, vertical tab, form feed,
      carriage return, the four separators 0x1C-0x1F, and space. */
  predicate IsSpace(c: char) {
    ('\t' <= c <= '\r') || ('\U{1C}' <= c <= '\U{1F}') || c == ' '
  }

  /** The operator and parenthesis characters. */
  predicate IsSymbol(c: char) {
    c == '+' || c == '-' || c == '*' || c == '/' || c == '(' || c == ')'
  }

  /** `_get_sym_num` (main.py:78-94): the category of a character, or None when
      the source's chain of tests falls through and returns Python's None. */
  function CategoryOf(c: char): (r: Option<Kind>)
    ensures r == Some(Number) <==> IsDigit(c)
    ensures r == Some(Space) <==> IsSpace(c)
    ensures r.Some? && r.value != Number && r.value != Space ==> c == Symbol(r.value)
    ensures r.None? <==> !IsDigit(c) && !IsSpace(c) && !IsSymbol(c)
  {
    if IsDigit(c) then Some(Number)
    else if IsSpace(c) then Some(Space)
    else if c == '+' then Some(Plus)
    else if c == '-' then Some(Minus)
    else if c == '*' then Some(Times)
    else if c == '/' then Some(Divide)
    else if c == '(' then Some(LParen)
    else if c == ')' then Some(RParen)
    else None
  }

  /** A token: its name (`kind`) and its lexeme (`text`). The priority of a token
      is the one the token table gives its kind. */
  datatype Token = Token(kind: Kind, text: string) {
    function Prior(): int {
      KindPrior(kind)
    }
  }

  /** The shape every token of the tokenizer has: a non-empty lexeme made of the
      characters its kind stands for. */
  predicate Classified(t: Token) {
    && |t.text| > 0
    && (t.kind == Number ==> forall k :: 0 <= k < |t.text| ==> IsDigit(t.text[k]))
    && (t.kind == Space ==> forall k :: 0 <= k < |t.text| ==> IsSpace(t.text[k]))
    && (t.kind != Number && t.kind != Space ==> t.text == [Symbol(t.kind)])
  }

  predicate AllClassified(ts: seq<Token>) {
    forall k :: 0 <= k < |ts| ==> Classified(ts[k])
  }
}
