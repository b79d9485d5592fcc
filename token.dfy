/**
 * Tokens and signs (src/interpreter/token/mod.rs). The token set is the
 * union of the variants the lexer, parser and evaluator use.
 */
module Tokens {
  import opened Wrappers
  import opened Idents
  import opened Keywords
  import opened Types

  datatype Sign = Plus | Minus

  datatype Token =
    | Plus | Minus | Star | Slash
    | LeftParenthesis | RightParenthesis
    | Equal | DoubleEqual | NonEqual
    | LessThan | GreaterThan | LessThanEq | GreaterThanEq
    | DoubleAnd | DoubleOr | Bang
    | Ident(ident: Ident)
    | Type(ty: Type)
    | Keyword(keyword: Keyword)
    | EOF

  /** `Display for Sign`. */
  function SignText(s: Sign): string {
    match s
    case Plus => "+"
    case Minus => "-"
  }

  /** `Sign::from_token`: only the `+` and `-` tokens are signs. */
  function SignFromToken(t: Token): Option<Sign> {
    match t
    case Plus => Some(Sign.Plus)
    case Minus => Some(Sign.Minus)
    case _ => None
  }

  /**
   * `Display for Token`: a payload token prints its payload, `EOF` prints
   * "EOF", and every operator prints the characters it was lexed from.
   */
  function TokenText(t: Token): string {
    match t
    case Plus => "+"
    case Minus => "-"
    case Star => "*"
    case Slash => "/"
    case LeftParenthesis => "("
    case RightParenthesis => ")"
    case Equal => "="
    case DoubleEqual => "=="
    case NonEqual => "!="
    case LessThan => "<"
    case GreaterThan => ">"
    case LessThanEq => "<="
    case GreaterThanEq => ">="
    case DoubleAnd => "&&"
    case DoubleOr => "||"
    case Bang => "!"
    case Ident(i) => IdentText(i)
    case Type(v) => TypeText(v)
    case Keyword(k) => KeywordText(k)
    case EOF => "EOF"
  }

  /** `from_token` recognises exactly the two sign tokens, and a sign prints as the token it came from. */
  lemma SignFromTokenSpec(t: Token)
    ensures SignFromToken(t) == Some(Sign.Plus) <==> t == Token.Plus
    ensures SignFromToken(t) == Some(Sign.Minus) <==> t == Token.Minus
    ensures SignFromToken(t).None? <==> !(t.Plus? || t.Minus?)
    ensures SignFromToken(t).Some? ==> SignText(SignFromToken(t).value) == TokenText(t)
  {
  }

  /** Payload tokens print their payload; `EOF` and `=` print themselves. */
  lemma PayloadTokenText(i: Ident, k: Keyword)
    ensures TokenText(Token.Ident(i)) == i.name
    ensures TokenText(Token.Keyword(k)) == KeywordText(k)
    ensures TokenText(EOF) == "EOF" && TokenText(Token.Equal) == "="
  {
  }

  /** Operator tokens print distinct texts, so the printed form identifies the operator. */
  lemma OperatorTextInjective(t1: Token, t2: Token)
    requires !(t1.Ident? || t1.Type? || t1.Keyword? || t1.EOF?)
    requires !(t2.Ident? || t2.Type? || t2.Keyword? || t2.EOF?)
    requires TokenText(t1) == TokenText(t2)
    ensures t1 == t2
  {
  }
}
