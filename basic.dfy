/**
 * The older standalone scanner (src/basic.rs): arithmetic operators,
 * parentheses and numbers only, with its own position and error types and
 * no `EOF` token.
 */
module Basic {
  import opened Wrappers
  import opened Decimal
  import Lexing

  datatype ErrorKind = SyntaxError

  /** A position without a span length. */
  datatype Position = Position(index: int, line: nat, column: int, fileName: string) {

    /** `advance`: step over `c`; a newline starts the next line at column 0. */
    function Advance(c: Option<char>): (p: Position)
      ensures p.index == index + 1 && p.fileName == fileName
      ensures c == Some('\n') ==> p.line == line + 1 && p.column == 0
      ensures c != Some('\n') ==> p.line == line && p.column == column + 1
    {
      if c == Some('\n') then
        this.(index := index + 1, line := line + 1, column := 0)
      else
        this.(index := index + 1, column := column + 1)
    }
  }

  datatype Error = Error(kind: ErrorKind, message: string, position: Position)

  /** `Display for Error`: line and column both printed 1-based. */
  function ErrorText(e: Error): string {
    "File " + e.position.fileName + ", line " + NatToString(e.position.line + 1)
      + ", position " + IntToString(e.position.column + 1) + ":\n " + "SyntaxError" + ": " + e.message
  }

  datatype Value = Integer(ival: int) | Float(fval: real)

  datatype Token = Plus | Minus | Star | Slash | LeftParenthesis | RightParenthesis | Type(value: Value)

  /** The position once the cursor is at index `k`. */
  function PosAt(f: string, text: string, k: nat): (p: Position)
    ensures p.index == k && p.fileName == f
  {
    if k == 0 then Position(-1, 0, -1, f).Advance(None)
    else PosAt(f, text, k - 1).Advance(Lexing.CharAt(text, k - 1))
  }

  /** The single-character tokens. */
  function OperatorToken(c: char): Option<Token> {
    if c == '+' then Some(Plus) else if c == '-' then Some(Minus)
    else if c == '*' then Some(Star) else if c == '/' then Some(Slash)
    else if c == '(' then Some(LeftParenthesis) else if c == ')' then Some(RightParenthesis)
    else None
  }

  /** `make_number` from index `k`: the value of the digits and at most one '.' that follow. */
  function NumberValueAt(text: string, k: nat): Value
    requires k < |text| && IsDigit(text[k])
  {
    var e := Lexing.NumberEnd(text, k, false);
    var s := text[k..e];
    Lexing.NumberEndShape(text, k, false);
    if Lexing.DotIndex(s) == |s| then Integer(DecimalValue(s)) else Float(Lexing.FloatValue(s))
  }

  function IllegalCharacter(c: char, p: Position): Error {
    Error(SyntaxError, "Illegal character: " + [c], p)
  }

  /** `make_tokens` from index `k`; the list ends with the last real token. */
  function Lex(f: string, text: string, k: nat): Result<seq<Token>, Error>
    decreases |text| - k
  {
    if k >= |text| then Ok([])
    else
      var c := text[k];
      if Lexing.IsBlank(c) then Lex(f, text, k + 1)
      else if OperatorToken(c).Some? then Prepend([OperatorToken(c).value], Lex(f, text, k + 1))
      else if IsDigit(c) then Prepend([Type(NumberValueAt(text, k))], Lex(f, text, Lexing.NumberEnd(text, k, false)))
      else Err(IllegalCharacter(c, PosAt(f, text, k)))
  }

  class Lexer {
    var text: string
    var pos: Position
    var currentChar: Option<char>

    predicate Valid()
      reads this
    {
      0 <= pos.index <= |text| &&
      pos == PosAt(pos.fileName, text, pos.index) &&
      currentChar == Lexing.CharAt(text, pos.index)
    }

    /** `Lexer::new`: start one before the text and advance onto its first character. */
    constructor (text: string, fileName: string)
      ensures Valid() && this.text == text && pos == Position(0, 0, 0, fileName)
    {
      this.text := text;
      this.pos := Position(-1, 0, -1, fileName);
      this.currentChar := None;
      new;
      Advance();
    }

    /** `advance`. */
    method Advance()
      modifies this
      ensures text == old(text)
      ensures pos == old(pos).Advance(old(currentChar))
      ensures currentChar == Lexing.CharAt(text, pos.index)
      ensures old(Valid()) && old(currentChar).Some? ==> Valid() && pos.index == old(pos.index) + 1
    {
      pos := pos.Advance(currentChar);
      if 0 <= pos.index < |text| {
        currentChar := Some(text[pos.index]);
      } else {
        currentChar := None;
      }
    }

    /** `make_tokens`: the result `Lex` gives from the cursor's index. */
    method MakeTokens() returns (r: Result<seq<Token>, Error>)
      requires Valid()
      modifies this
      ensures text == old(text)
      ensures r == Lex(old(pos.fileName), text, old(pos.index))
    {
      ghost var f, k0 := pos.fileName, pos.index;
      var tokens: seq<Token> := [];
      ghost var rest := Lex(f, text, k0);
      if rest.Ok? {
        assert [] + rest.value == rest.value;
      }
      while currentChar.Some?
        invariant Valid() && text == old(text) && pos.fileName == f
        invariant Lex(f, text, k0) == Prepend(tokens, Lex(f, text, pos.index))
        decreases |text| - pos.index
      {
        var s := ScanOne();
        if s.Err? {
          return Err(s.error);
        }
        PrependTwice(tokens, s.value, Lex(f, text, pos.index));
        tokens := tokens + s.value;
      }
      assert tokens + [] == tokens;
      r := Ok(tokens);
    }

    /** One turn of the loop of `make_tokens`: the tokens of the character under the cursor, if any. */
    method ScanOne() returns (s: Result<seq<Token>, Error>)
      requires Valid() && currentChar.Some?
      modifies this
      ensures Valid() && text == old(text) && pos.fileName == old(pos.fileName)
      ensures s.Ok? ==> old(pos.index) < pos.index
      ensures s.Ok? ==> Lex(pos.fileName, text, old(pos.index)) == Prepend(s.value, Lex(pos.fileName, text, pos.index))
      ensures s.Err? ==> Lex(pos.fileName, text, old(pos.index)) == Err(s.error)
    {
      ghost var f, k := pos.fileName, pos.index;
      var c := currentChar.value;
      if Lexing.IsBlank(c) {
        Advance();
        s := Ok([]);
        if Lex(f, text, k + 1).Ok? {
          assert [] + Lex(f, text, k + 1).value == Lex(f, text, k + 1).value;
        }
      } else if OperatorToken(c).Some? {
        s := Ok([OperatorToken(c).value]);
        Advance();
      } else if IsDigit(c) {
        var value := MakeNumber();
        s := Ok([Type(value)]);
      } else {
        s := Err(IllegalCharacter(c, pos));
      }
    }

    /** `make_number`: digits and at most one '.', parsed as an Integer without a dot, else a Float. */
    method MakeNumber() returns (value: Value)
      requires Valid() && currentChar.Some? && IsDigit(currentChar.value)
      modifies this
      ensures Valid() && text == old(text) && pos.fileName == old(pos.fileName)
      ensures value == NumberValueAt(text, old(pos.index))
      ensures pos.index == Lexing.NumberEnd(text, old(pos.index), false)
    {
      ghost var k := pos.index;
      var number, dots := GatherNumber();
      Lexing.NumberEndShape(text, k, false);
      if dots == 0 {
        value := Integer(DecimalValue(number));
      } else {
        value := Float(Lexing.FloatValue(number));
      }
    }

    /** The loop of `make_number`: the text of the number and its count of dots. */
    method GatherNumber() returns (number: string, dots: int)
      requires Valid() && currentChar.Some? && IsDigit(currentChar.value)
      modifies this
      ensures Valid() && text == old(text) && pos.fileName == old(pos.fileName)
      ensures pos.index == Lexing.NumberEnd(text, old(pos.index), false)
      ensures number == text[old(pos.index)..pos.index]
      ensures dots == (if '.' in number then 1 else 0)
    {
      ghost var f, k := pos.fileName, pos.index;
      number := "";
      dots := 0;
      while currentChar.Some?
        invariant Valid() && text == old(text) && pos.fileName == f
        invariant k <= pos.index && number == text[k..pos.index]
        invariant dots == (if '.' in number then 1 else 0)
        invariant Lexing.NumberEnd(text, pos.index, dots == 1) == Lexing.NumberEnd(text, k, false)
        decreases |text| - pos.index
      {
        var c := currentChar.value;
        ghost var i := pos.index;
        assert text[k..i + 1] == text[k..i] + [c];
        if !(IsDigit(c) || c == '.') {
          break;
        }
        if c == '.' {
          if dots == 1 {
            break;
          }
          dots := dots + 1;
          number := number + ".";
        } else {
          number := number + [c];
        }
        Advance();
      }
    }
  }

  /** `run`: a fresh lexer over the text, then `make_tokens`. */
  method Run(text: string, fileName: string) returns (r: Result<seq<Token>, Error>)
    ensures r == Lex(fileName, text, 0)
  {
    var lexer := new Lexer(text, fileName);
    r := lexer.MakeTokens();
  }

  // ---- properties ----

  /** No `EOF` is appended: the empty text and a text of blanks give no tokens at all. */
  lemma {:induction false} BlankTextHasNoTokens(f: string, text: string, k: nat)
    requires forall i :: k <= i < |text| ==> Lexing.IsBlank(text[i])
    ensures Lex(f, text, k) == Ok([])
    decreases |text| - k
  {
    if k < |text| {
      BlankTextHasNoTokens(f, text, k + 1);
    }
  }

  /** Every successful token list has one token per operator character and per number of the text. */
  lemma {:induction false} OperatorsGiveOneTokenEach(f: string, text: string, k: nat)
    requires forall i :: k <= i < |text| ==> OperatorToken(text[i]).Some?
    ensures Lex(f, text, k).Ok?
    ensures |Lex(f, text, k).value| == if k <= |text| then |text| - k else 0
    ensures forall i :: k <= i < |text| ==> Lex(f, text, k).value[i - k] == OperatorToken(text[i]).value
    decreases |text| - k
  {
    if k < |text| {
      OperatorsGiveOneTokenEach(f, text, k + 1);
    }
  }

  /** Any character other than a blank, an operator or a digit is reported at its own position. */
  lemma IllegalCharacterAt(f: string, text: string, k: nat)
    requires k < |text|
    requires !Lexing.IsBlank(text[k]) && OperatorToken(text[k]).None? && !IsDigit(text[k])
    ensures Lex(f, text, k) == Err(IllegalCharacter(text[k], PosAt(f, text, k)))
    ensures Lex(f, text, k).error.position.index == k
  {
  }

  /** The error text prints the line and the column, both 1-based. */
  lemma ErrorTextAtStart(f: string, message: string)
    ensures ErrorText(Error(SyntaxError, message, Position(0, 0, 0, f))) ==
              "File " + f + ", line " + "1" + ", position " + "1" + ":\n " + "SyntaxError" + ": " + message
  {
    assert NatToString(1) == "1";
    assert IntToString(1) == "1";
  }
}
