/**
 * The scanner (src/interpreter/lexer.rs): a cursor over the text with one
 * character of lookahead, turning the text into tokens with their spans.
 *
 * The functions below say what the scanner produces from each index of the
 * text; the `Lexer` class is the scanner itself, and each of its methods is
 * proved to produce what the function for its index says.
 */
module Lexing {
  import opened Wrappers
  import opened Decimal
  import opened Positions
  import opened Errors
  import opened Idents
  import opened Keywords
  import opened Types
  import opened Tokens

  // ---- characters ----

  predicate IsAsciiAlpha(c: char) {
    'a' <= c <= 'z' || 'A' <= c <= 'Z'
  }

  /** The characters an identifier continues with. */
  predicate IsIdentChar(c: char) {
    IsAsciiAlpha(c) || IsDigit(c) || c == '_'
  }

  predicate IsBlank(c: char) {
    c == ' ' || c == '\t'
  }

  /** A character no scanner ever consumes: lexing any text that holds one fails. */
  predicate IsForeign(c: char) {
    !(IsBlank(c) || c in "+-*/()!&|=<>" || IsIdentChar(c) || c == '.')
  }

  predicate AllDigits(s: string) {
    forall i :: 0 <= i < |s| ==> IsDigit(s[i])
  }

  /** The character under the cursor at index `k`, if the text has one there. */
  function CharAt(text: string, k: int): Option<char> {
    if 0 <= k < |text| then Some(text[k]) else None
  }

  /**
   * The lexer's position once its cursor is at index `k`: `new` starts one
   * before the text and advances once, and every step advances over the
   * character under the cursor.
   */
  function PosAt(f: string, text: string, k: nat): (p: Position)
    ensures p.index == k && p.filename == f && p.len == 1
  {
    if k == 0 then Position(-1, f, 0, -1, 1).Advance(None)
    else PosAt(f, text, k - 1).Advance(CharAt(text, k - 1))
  }

  /** What one scanner call returns: the token, its span and the index after it. */
  datatype Scanned = Scanned(token: Token, pos: Position, next: nat)

  // ---- numbers ----

  /** The index where a number that continues at `j` ends; `dotSeen` once it holds a '.'. */
  function NumberEnd(text: string, j: nat, dotSeen: bool): (e: nat)
    requires j <= |text|
    ensures j <= e <= |text|
    ensures forall i :: j <= i < e ==> IsDigit(text[i]) || text[i] == '.'
    decreases |text| - j
  {
    if j < |text| && (IsDigit(text[j]) || (text[j] == '.' && !dotSeen)) then
      NumberEnd(text, j + 1, dotSeen || text[j] == '.')
    else j
  }

  /** The index of the first '.' of `s`, or `|s|` when there is none. */
  function DotIndex(s: string): (d: nat)
    ensures d <= |s|
    ensures forall i :: 0 <= i < d ==> s[i] != '.'
    ensures d < |s| ==> s[d] == '.'
  {
    if s == [] || s[0] == '.' then 0 else 1 + DotIndex(s[1..])
  }

  /** The texts a number scan can produce: digits, optionally one '.' and more digits. */
  predicate NumberLexeme(s: string) {
    AllDigits(s[..DotIndex(s)]) && (DotIndex(s) < |s| ==> AllDigits(s[DotIndex(s) + 1..]))
  }

  function Pow10(n: nat): (r: nat)
    ensures r > 0
  {
    if n == 0 then 1 else 10 * Pow10(n - 1)
  }

  /** The exact value of a decimal fraction such as "12.50". */
  function FloatValue(s: string): real
    requires NumberLexeme(s) && DotIndex(s) < |s|
  {
    var d := DotIndex(s);
    DecimalValue(s[..d]) as real + DecimalValue(s[d + 1..]) as real / Pow10(|s| - d - 1) as real
  }

  /** The scanned text of a number is digits with at most one '.'. */
  lemma {:induction false} NumberEndShape(text: string, j: nat, dotSeen: bool)
    requires j <= |text|
    ensures dotSeen ==> AllDigits(text[j..NumberEnd(text, j, dotSeen)])
    ensures !dotSeen ==> NumberLexeme(text[j..NumberEnd(text, j, dotSeen)])
    decreases |text| - j
  {
    var e := NumberEnd(text, j, dotSeen);
    var s := text[j..e];
    if j < |text| && (IsDigit(text[j]) || (text[j] == '.' && !dotSeen)) {
      var ds := dotSeen || text[j] == '.';
      NumberEndShape(text, j + 1, ds);
      assert s[1..] == text[j + 1..e];
      if !dotSeen {
        if text[j] == '.' {
          assert DotIndex(s) == 0;
          assert s[DotIndex(s) + 1..] == text[j + 1..e];
        } else {
          assert DotIndex(s) == 1 + DotIndex(s[1..]);
          assert s[..DotIndex(s)] == [s[0]] + s[1..][..DotIndex(s[1..])];
          if DotIndex(s) < |s| {
            assert s[DotIndex(s) + 1..] == s[1..][DotIndex(s[1..]) + 1..];
          }
        }
      }
    }
  }

  /** `make_number` at index `k`: the token is an Integer without a '.' and a Float with one; the span counts digits only. */
  function NumberAt(f: string, text: string, k: nat): (r: Scanned)
    requires k < |text| && IsDigit(text[k])
    ensures k < r.next <= |text|
    ensures forall i :: k <= i < r.next ==> IsDigit(text[i]) || text[i] == '.'
  {
    var e := NumberEnd(text, k, false);
    var s := text[k..e];
    NumberEndShape(text, k, false);
    if DotIndex(s) == |s| then
      Scanned(Token.Type(Integer(DecimalValue(s))), PosAt(f, text, k).(len := |s|), e)
    else
      Scanned(Token.Type(Float(FloatValue(s))), PosAt(f, text, k).(len := |s| - 1), e)
  }

  // ---- identifiers and keywords ----

  /** The index where an identifier that continues at `j` ends. */
  function IdentEnd(text: string, j: nat): (e: nat)
    requires j <= |text|
    ensures j <= e <= |text|
    ensures forall i :: j <= i < e ==> IsIdentChar(text[i])
    ensures e < |text| ==> !IsIdentChar(text[e])
    decreases |text| - j
  {
    if j < |text| && IsIdentChar(text[j]) then IdentEnd(text, j + 1) else j
  }

  /** `make_ident` at index `k`: a keyword token when the word is a keyword, else an identifier. */
  function IdentAt(f: string, text: string, k: nat): (r: Scanned)
    requires k < |text| && IsAsciiAlpha(text[k])
    ensures k < r.next <= |text|
  {
    var e := IdentEnd(text, k);
    var word := text[k..e];
    FromStrIffIsKeyword(word);
    var token := if IsKeyword(word) then Token.Keyword(FromStr(word).value) else Token.Ident(Ident.Ident(word));
    Scanned(token, PosAt(f, text, k).Combine(PosAt(f, text, e)), e)
  }

  // ---- operators ----

  /** `check_eq` with the cursor at `j`: the long token when an '=' is there, else the short one. */
  function CheckEqAt(f: string, text: string, j: nat, long: Token, short: Token, p: Position): Scanned {
    if CharAt(text, j) == Some('=') then Scanned(long, p.Combine(PosAt(f, text, j + 1)), j + 1)
    else Scanned(short, p, j)
  }

  /** `make_not`: "!=" or a lone "!". */
  function NotAt(f: string, text: string, k: nat): Scanned {
    if CharAt(text, k + 1) == Some('=') then Scanned(NonEqual, PosAt(f, text, k).Combine(PosAt(f, text, k + 2)), k + 2)
    else Scanned(Bang, PosAt(f, text, k), k + 1)
  }

  /** `make_and` and `make_or`: the doubled character, or an error at the character after the first. */
  function DoubledAt(f: string, text: string, k: nat, c: char, token: Token): Result<Scanned, Error> {
    if CharAt(text, k + 1) == Some(c) then
      Ok(Scanned(token, PosAt(f, text, k).Combine(PosAt(f, text, k + 2)), k + 2))
    else
      Err(New(SyntaxError, "expected " + [c], Some(PosAt(f, text, k + 1))))
  }

  function IllegalCharacter(c: char, p: Position): Error {
    New(SyntaxError, "Illegal character: " + [c], Some(p))
  }

  /** One step of `make_tokens` on a character that is not blank. */
  function ScanToken(f: string, text: string, k: nat): (r: Result<Scanned, Error>)
    requires k < |text| && !IsBlank(text[k])
    ensures r.Ok? ==> k < r.value.next <= |text|
    ensures r.Ok? ==> forall i :: k <= i < r.value.next ==> !IsForeign(text[i])
    ensures r.Err? && IsForeign(text[k]) ==> r.error == IllegalCharacter(text[k], PosAt(f, text, k))
  {
    var c := text[k];
    var p := PosAt(f, text, k);
    if c == '+' then Ok(Scanned(Token.Plus, p, k + 1))
    else if c == '-' then Ok(Scanned(Token.Minus, p, k + 1))
    else if c == '*' then Ok(Scanned(Star, p, k + 1))
    else if c == '/' then Ok(Scanned(Slash, p, k + 1))
    else if c == '(' then Ok(Scanned(LeftParenthesis, p, k + 1))
    else if c == ')' then Ok(Scanned(RightParenthesis, p, k + 1))
    else if c == '!' then Ok(NotAt(f, text, k))
    else if c == '&' then DoubledAt(f, text, k, '&', DoubleAnd)
    else if c == '|' then DoubledAt(f, text, k, '|', DoubleOr)
    else if c == '=' then Ok(CheckEqAt(f, text, k + 1, DoubleEqual, Token.Equal, p))
    else if c == '<' then Ok(CheckEqAt(f, text, k + 1, LessThanEq, LessThan, p))
    else if c == '>' then Ok(CheckEqAt(f, text, k + 1, GreaterThanEq, GreaterThan, p))
    else if IsDigit(c) then Ok(NumberAt(f, text, k))
    else if IsAsciiAlpha(c) then Ok(IdentAt(f, text, k))
    else Err(IllegalCharacter(c, p))
  }

  /** `make_tokens` from index `k`: blanks skipped, one token per scan, `EOF` at the end. */
  function Lex(f: string, text: string, k: nat): Result<seq<(Token, Position)>, Error>
    decreases |text| - k
  {
    if k >= |text| then Ok([(EOF, PosAt(f, text, k))])
    else if IsBlank(text[k]) then Lex(f, text, k + 1)
    else match ScanToken(f, text, k)
      case Err(e) => Err(e)
      case Ok(s) => Prepend([(s.token, s.pos)], Lex(f, text, s.next))
  }

  // ---- the scanner ----

  class Lexer {
    var text: string
    var pos: Position
    var currentChar: Option<char>

    /** The position is the one reached by advancing to its index, and the lookahead is the character there. */
    predicate Valid()
      reads this
    {
      0 <= pos.index <= |text| &&
      pos == PosAt(pos.filename, text, pos.index) &&
      currentChar == CharAt(text, pos.index)
    }

    /** `Lexer::new`: start one before the text and advance onto its first character. */
    constructor (text: string, fileName: string)
      ensures Valid() && this.text == text
      ensures pos == PosAt(fileName, text, 0) && pos == Position(0, fileName, 0, 0, 1)
    {
      this.text := text;
      this.pos := Position(-1, fileName, 0, -1, 1);
      this.currentChar := None;
      new;
      Advance();
    }

    /** `advance`: step the position over the current character and look up the next one. */
    method Advance()
      modifies this
      ensures text == old(text)
      ensures pos == old(pos).Advance(old(currentChar))
      ensures currentChar == CharAt(text, pos.index)
      ensures old(Valid()) && old(currentChar).Some? ==> Valid() && pos.index == old(pos.index) + 1
    {
      pos := pos.Advance(currentChar);
      if 0 <= pos.index < |text| {
        currentChar := Some(text[pos.index]);
      } else {
        currentChar := None;
      }
    }

    /** `make_tokens`: the result `Lex` gives from the cursor's index. */
    method MakeTokens() returns (r: Result<seq<(Token, Position)>, Error>)
      requires Valid()
      modifies this
      ensures text == old(text)
      ensures r == Lex(old(pos.filename), text, old(pos.index))
    {
      ghost var f, k0 := pos.filename, pos.index;
      var tokens: seq<(Token, Position)> := [];
      ghost var rest := Lex(f, text, k0);
      if rest.Ok? {
        assert [] + rest.value == rest.value;
      }
      while currentChar.Some?
        invariant Valid() && text == old(text) && pos.filename == f
        invariant Lex(f, text, k0) == Prepend(tokens, Lex(f, text, pos.index))
        decreases |text| - pos.index
      {
        var c := currentChar.value;
        ghost var k := pos.index;
        ghost var before := tokens;
        if IsBlank(c) {
          Advance();
          continue;
        }
        var s := ScanOne();
        assert s == ScanToken(f, text, k);
        if s.Err? {
          return Err(s.error);
        }
        tokens := tokens + [(s.value.token, s.value.pos)];
        PrependTwice(before, [(s.value.token, s.value.pos)], Lex(f, text, pos.index));
      }
      tokens := tokens + [(EOF, pos)];
      r := Ok(tokens);
    }

    /** The `match` of `make_tokens` on a character that is not blank: run the scanner it selects. */
    method ScanOne() returns (s: Result<Scanned, Error>)
      requires Valid() && currentChar.Some? && !IsBlank(currentChar.value)
      modifies this
      ensures Valid() && text == old(text) && pos.filename == old(pos.filename)
      ensures s == ScanToken(pos.filename, text, old(pos.index))
      ensures s.Ok? ==> pos.index == s.value.next
    {
      var c := currentChar.value;
      if c == '+' || c == '-' || c == '*' || c == '/' || c == '(' || c == ')' {
        var token :=
          if c == '+' then Token.Plus else if c == '-' then Token.Minus
          else if c == '*' then Star else if c == '/' then Slash
          else if c == '(' then LeftParenthesis else RightParenthesis;
        var p := pos;
        Advance();
        s := Ok(Scanned(token, p, pos.index));
      } else if c == '!' {
        var t := MakeNot();
        s := Ok(t);
      } else if c == '&' {
        s := MakeDoubled('&', DoubleAnd);
      } else if c == '|' {
        s := MakeDoubled('|', DoubleOr);
      } else if c == '=' || c == '<' || c == '>' {
        var t := MakeEqLike();
        s := Ok(t);
      } else if IsDigit(c) {
        s := MakeNumber();
      } else if IsAsciiAlpha(c) {
        s := MakeIdent();
      } else {
        s := Err(IllegalCharacter(c, pos));
      }
    }

    /** `make_ident`: gather identifier characters, then decide between keyword and identifier. */
    method MakeIdent() returns (r: Result<Scanned, Error>)
      requires Valid() && currentChar.Some? && IsAsciiAlpha(currentChar.value)
      modifies this
      ensures Valid() && text == old(text) && pos.filename == old(pos.filename)
      ensures r == Ok(IdentAt(pos.filename, text, old(pos.index))) && pos.index == r.value.next
    {
      ghost var f, k := pos.filename, pos.index;
      var ident := "";
      var posStart := pos;
      while currentChar.Some?
        invariant Valid() && text == old(text) && pos.filename == f
        invariant k <= pos.index && ident == text[k..pos.index]
        invariant IdentEnd(text, pos.index) == IdentEnd(text, k)
        decreases |text| - pos.index
      {
        var c := currentChar.value;
        if !IsIdentChar(c) {
          break;
        }
        ident := ident + [c];
        Advance();
      }
      var token: Token;
      FromStrIffIsKeyword(ident);
      if IsKeyword(ident) {
        token := Token.Keyword(FromStr(ident).value);
      } else {
        token := Token.Ident(Ident.Ident(ident));
      }
      r := Ok(Scanned(token, posStart.Combine(pos), pos.index));
    }

    /** `check_eq`: take an '=' under the cursor into the long token, else keep the short one. */
    method CheckEq(long: Token, short: Token, p: Position) returns (s: Scanned)
      requires Valid()
      modifies this
      ensures Valid() && text == old(text) && pos.filename == old(pos.filename)
      ensures s == CheckEqAt(pos.filename, text, old(pos.index), long, short, p) && pos.index == s.next
    {
      if currentChar == Some('=') {
        Advance();
        s := Scanned(long, p.Combine(pos), pos.index);
      } else {
        s := Scanned(short, p, pos.index);
      }
    }

    /** `make_eq`, `make_less_than` and `make_greater_than`, which differ only in their two tokens. */
    method MakeEqLike() returns (s: Scanned)
      requires Valid() && currentChar.Some? && currentChar.value in "=<>"
      modifies this
      ensures Valid() && text == old(text) && pos.filename == old(pos.filename)
      ensures Ok(s) == ScanToken(pos.filename, text, old(pos.index)) && pos.index == s.next
    {
      var c := currentChar.value;
      var p := pos;
      Advance();
      if c == '=' {
        s := CheckEq(DoubleEqual, Token.Equal, p);
      } else if c == '<' {
        s := CheckEq(LessThanEq, LessThan, p);
      } else {
        s := CheckEq(GreaterThanEq, GreaterThan, p);
      }
    }

    /** `make_not`. */
    method MakeNot() returns (s: Scanned)
      requires Valid() && currentChar == Some('!')
      modifies this
      ensures Valid() && text == old(text) && pos.filename == old(pos.filename)
      ensures s == NotAt(pos.filename, text, old(pos.index)) && pos.index == s.next
    {
      var p := pos;
      Advance();
      if currentChar == Some('=') {
        Advance();
        s := Scanned(NonEqual, p.Combine(pos), pos.index);
      } else {
        s := Scanned(Bang, p, pos.index);
      }
    }

    /** `make_and` (with '&') and `make_or` (with '|'). */
    method MakeDoubled(c: char, token: Token) returns (r: Result<Scanned, Error>)
      requires Valid() && currentChar == Some(c)
      modifies this
      ensures Valid() && text == old(text) && pos.filename == old(pos.filename)
      ensures r == DoubledAt(pos.filename, text, old(pos.index), c, token)
      ensures r.Ok? ==> pos.index == r.value.next
    {
      var p := pos;
      Advance();
      if currentChar == Some(c) {
        Advance();
        r := Ok(Scanned(token, p.Combine(pos), pos.index));
      } else {
        r := Err(New(SyntaxError, "expected " + [c], Some(pos)));
      }
    }

    /** `make_number`: digits and at most one '.', the span counting the digits. */
    method MakeNumber() returns (r: Result<Scanned, Error>)
      requires Valid() && currentChar.Some? && IsDigit(currentChar.value)
      modifies this
      ensures Valid() && text == old(text) && pos.filename == old(pos.filename)
      ensures r == Ok(NumberAt(pos.filename, text, old(pos.index))) && pos.index == r.value.next
    {
      ghost var k := pos.index;
      var number, dots, p := GatherNumber();
      NumberEndShape(text, k, false);
      var value: Type;
      if dots == 0 {
        value := Integer(DecimalValue(number));
      } else {
        value := Float(FloatValue(number));
      }
      r := Ok(Scanned(Token.Type(value), p, pos.index));
    }

    /** The loop of `make_number`: the text of the number, its count of dots and its span. */
    method GatherNumber() returns (number: string, dots: int, p: Position)
      requires Valid() && currentChar.Some? && IsDigit(currentChar.value)
      modifies this
      ensures Valid() && text == old(text) && pos.filename == old(pos.filename)
      ensures pos.index == NumberEnd(text, old(pos.index), false)
      ensures number == text[old(pos.index)..pos.index]
      ensures dots == (if '.' in number then 1 else 0)
      ensures p == PosAt(pos.filename, text, old(pos.index)).(len := |number| - dots)
    {
      ghost var f, k := pos.filename, pos.index;
      number := "";
      dots := 0;
      p := pos.(len := 0);
      ghost var start := pos;
      while currentChar.Some?
        invariant Gathering(k, start, number, dots, p)
        invariant text == old(text) && pos.filename == f
        decreases |text| - pos.index
      {
        var stop;
        stop, number, dots, p := GatherOne(k, start, number, dots, p);
        if stop {
          return;
        }
      }
    }

    /** What the loop of `make_number` has gathered from index `k` up to the cursor. */
    ghost predicate Gathering(k: nat, start: Position, number: string, dots: int, p: Position)
      reads this
    {
      Valid() && k <= pos.index && number == text[k..pos.index] &&
      dots == (if '.' in number then 1 else 0) && p == start.(len := |number| - dots) &&
      NumberEnd(text, pos.index, dots == 1) == NumberEnd(text, k, false)
    }

    /** One turn of the loop of `make_number`: take the character under the cursor, or stop before it. */
    method GatherOne(ghost k: nat, ghost start: Position, number: string, dots: int, p: Position)
      returns (stop: bool, number': string, dots': int, p': Position)
      requires Gathering(k, start, number, dots, p) && currentChar.Some?
      modifies this
      ensures text == old(text) && pos.filename == old(pos.filename)
      ensures Gathering(k, start, number', dots', p')
      ensures stop ==> pos.index == NumberEnd(text, k, false)
      ensures !stop ==> pos.index == old(pos.index) + 1
    {
      var c := currentChar.value;
      ghost var i := pos.index;
      assert text[k..i + 1] == text[k..i] + [c];
      DotInAppend(number, c);
      number', dots', p' := number, dots, p;
      if c == '.' {
        if dots == 1 {
          return true, number', dots', p';
        }
        dots' := dots + 1;
        number' := number + ".";
      } else if IsDigit(c) {
        p' := p.(len := p.len + 1);
        number' := number + [c];
      } else {
        return true, number', dots', p';
      }
      Advance();
      stop := false;
    }
  }

  lemma DotInAppend(s: string, c: char)
    ensures ('.' in s + [c]) == ('.' in s || c == '.')
  {
    assert (s + [c])[|s|] == c;
  }
}
