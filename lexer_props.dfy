/** Properties of the scanner of src/interpreter/lexer.rs, stated on `Lex` and its scanners. */
module LexingProperties {
  import opened Wrappers
  import opened Decimal
  import opened Positions
  import opened Errors
  import opened Idents
  import opened Keywords
  import opened Types
  import opened Tokens
  import opened Lexing

  /** The lexer's position at index `k` is the start position advanced over the first `k` characters. */
  lemma {:induction false} PosAtIsAdvanceOver(f: string, text: string, k: nat)
    requires k <= |text|
    ensures PosAt(f, text, k) == AdvanceOver(Position(0, f, 0, 0, 1), text[..k])
  {
    if k > 0 {
      PosAtIsAdvanceOver(f, text, k - 1);
      assert text[..k][..k - 1] == text[..k - 1];
    }
  }

  /** Index, line and column of the lexer's position count the characters and newlines before it. */
  lemma PosAtCounts(f: string, text: string, k: nat)
    requires k <= |text|
    ensures PosAt(f, text, k).line == Newlines(text[..k])
    ensures Newlines(text[..k]) == 0 ==> PosAt(f, text, k).column == k
    ensures Newlines(text[..k]) > 0 ==> PosAt(f, text, k).column == LastLineLength(text[..k])
  {
    PosAtIsAdvanceOver(f, text, k);
    AdvanceOverCounts(Position(0, f, 0, 0, 1), text[..k]);
  }

  /** A token the scanner produces at `k` is put in front of the tokens lexed after it. */
  lemma LexStep(f: string, text: string, k: nat)
    requires k < |text| && !IsBlank(text[k]) && ScanToken(f, text, k).Ok?
    ensures var s := ScanToken(f, text, k).value;
      Lex(f, text, k) == Prepend([(s.token, s.pos)], Lex(f, text, s.next))
  {
  }

  /** The scanner never produces `EOF`: that token only ends the list. */
  lemma ScanIsNotEnd(f: string, text: string, k: nat)
    requires k < |text| && !IsBlank(text[k]) && ScanToken(f, text, k).Ok?
    ensures ScanToken(f, text, k).value.token != EOF
  {
    if IsDigit(text[k]) {
    } else if IsAsciiAlpha(text[k]) {
    }
  }

  /** A letter starts a word, scanned as one identifier or keyword. */
  lemma ScanWord(f: string, text: string, k: nat)
    requires k < |text| && IsAsciiAlpha(text[k])
    ensures !IsBlank(text[k]) && ScanToken(f, text, k) == Ok(IdentAt(f, text, k))
  {
  }

  /** A successful lex ends with exactly one `EOF`, placed last at the position after the text. */
  lemma {:induction false} LexEndsWithOneEOF(f: string, text: string, k: nat)
    requires k <= |text|
    ensures Lex(f, text, k).Ok? ==>
              var ts := Lex(f, text, k).value;
              |ts| > 0 && ts[|ts| - 1] == (EOF, PosAt(f, text, |text|)) &&
              forall i :: 0 <= i < |ts| - 1 ==> ts[i].0 != EOF
    decreases |text| - k
  {
    if k < |text| {
      if IsBlank(text[k]) {
        LexEndsWithOneEOF(f, text, k + 1);
      } else if ScanToken(f, text, k).Ok? {
        var s := ScanToken(f, text, k).value;
        LexEndsWithOneEOF(f, text, s.next);
        ScanIsNotEnd(f, text, k);
        LexStep(f, text, k);
        PrependKeepsOneEnd((s.token, s.pos), Lex(f, text, s.next), PosAt(f, text, |text|));
      }
    }
  }

  /** `ts` ends with `(EOF, p)` and holds no other `EOF`. */
  predicate EndsOnce(ts: seq<(Token, Position)>, p: Position) {
    |ts| > 0 && ts[|ts| - 1] == (EOF, p) && forall i :: 0 <= i < |ts| - 1 ==> ts[i].0 != EOF
  }

  lemma PrependKeepsOneEnd(t: (Token, Position), rest: Result<seq<(Token, Position)>, Error>, p: Position)
    requires t.0 != EOF && (rest.Ok? ==> EndsOnce(rest.value, p))
    ensures Prepend([t], rest).Ok? ==> EndsOnce(Prepend([t], rest).value, p)
  {
    if rest.Ok? {
      var ts := [t] + rest.value;
      assert forall i :: 1 <= i < |ts| ==> ts[i] == rest.value[i - 1];
    }
  }

  /** Spaces and tabs produce no tokens: lexing resumes after a run of them as if it were not there. */
  lemma {:induction false} BlanksProduceNoTokens(f: string, text: string, k: nat, j: nat)
    requires k <= j <= |text|
    requires forall i :: k <= i < j ==> IsBlank(text[i])
    ensures Lex(f, text, k) == Lex(f, text, j)
    decreases j - k
  {
    if k < j {
      BlanksProduceNoTokens(f, text, k + 1, j);
    }
  }

  /**
   * A character no scanner consumes makes the whole lex fail: no token list
   * is returned for a text holding one anywhere after the start.
   */
  lemma {:induction false} ForeignCharacterFails(f: string, text: string, k: nat, i: nat)
    requires k <= i < |text| && IsForeign(text[i])
    ensures Lex(f, text, k).Err?
    decreases |text| - k
  {
    if IsBlank(text[k]) {
      ForeignCharacterFails(f, text, k + 1, i);
    } else if ScanToken(f, text, k).Ok? {
      var s := ScanToken(f, text, k).value;
      assert s.next <= i;
      ForeignCharacterFails(f, text, s.next, i);
    }
  }

  /** A foreign first character is reported at the start position, line 1 and column 0 of the traceback. */
  lemma IllegalFirstCharacter(f: string, text: string)
    requires |text| > 0 && IsForeign(text[0])
    ensures Lex(f, text, 0) == Err(IllegalCharacter(text[0], Position(0, f, 0, 0, 1)))
    ensures ErrorText(Lex(f, text, 0).error) ==
              "ERROR - Traceback:\n" + FrameLine(Position(0, f, 0, 0, 1)) + "SyntaxError: " + ("Illegal character: " + [text[0]])
    ensures FrameLine(Position(0, f, 0, 0, 1)) == "  File " + f + ", line " + "1" + ", column " + "0" + ":\n"
  {
    assert ScanToken(f, text, 0).Err?;
    assert NatToString(1) == "1";
    assert IntToString(0) == "0";
  }

  /** A newline is an illegal character, so every successfully lexed text is a single line. */
  lemma LexedTextIsOneLine(f: string, text: string)
    requires Lex(f, text, 0).Ok?
    ensures forall i :: 0 <= i < |text| ==> text[i] != '\n'
    ensures forall k :: 0 <= k <= |text| ==> PosAt(f, text, k).line == 0 && PosAt(f, text, k).column == k
  {
    forall i | 0 <= i < |text|
      ensures text[i] != '\n'
    {
      if text[i] == '\n' {
        ForeignCharacterFails(f, text, 0, i);
      }
    }
    forall k | 0 <= k <= |text|
      ensures PosAt(f, text, k).line == 0 && PosAt(f, text, k).column == k
    {
      NoNewlinesCount(text[..k]);
      PosAtCounts(f, text, k);
    }
  }

  lemma {:induction false} NoNewlinesCount(s: string)
    requires forall i :: 0 <= i < |s| ==> s[i] != '\n'
    ensures Newlines(s) == 0
  {
    if s != [] {
      NoNewlinesCount(s[..|s| - 1]);
    }
  }

  /**
   * A number stops at the first character that is neither a digit nor the
   * first '.', so a second '.' is never part of it.
   */
  lemma {:induction false} NumberIsMaximal(text: string, j: nat, dotSeen: bool)
    requires j <= |text|
    ensures var e := NumberEnd(text, j, dotSeen);
            e < |text| ==> !IsDigit(text[e]) && (text[e] == '.' ==> dotSeen || '.' in text[j..e])
    decreases |text| - j
  {
    var e := NumberEnd(text, j, dotSeen);
    if j < |text| && (IsDigit(text[j]) || (text[j] == '.' && !dotSeen)) {
      NumberIsMaximal(text, j + 1, dotSeen || text[j] == '.');
      if e < |text| && text[e] == '.' && !dotSeen && text[j] != '.' {
        assert text[j + 1..e] == text[j..e][1..];
      }
    }
  }

  /** A run of digits scans to its end. */
  lemma {:induction false} DigitsScanToEnd(text: string, j: nat, dotSeen: bool)
    requires j <= |text|
    requires forall i :: j <= i < |text| ==> IsDigit(text[i])
    ensures NumberEnd(text, j, dotSeen) == |text|
    decreases |text| - j
  {
    if j < |text| {
      DigitsScanToEnd(text, j + 1, dotSeen);
    }
  }

  /**
   * Printing a natural number and lexing the text gives back one Integer
   * token of that value, spanning its digits, followed by `EOF`.
   */
  lemma LexPrintedNumber(f: string, n: nat)
    ensures var s := NatToString(n);
            Lex(f, s, 0) == Ok([(Token.Type(Integer(n)), Position(0, f, 0, 0, |s|)), (EOF, PosAt(f, s, |s|))])
  {
    var s := NatToString(n);
    ScanPrintedNumber(f, n);
    assert Lex(f, s, |s|) == Ok([(EOF, PosAt(f, s, |s|))]);
    var x := (Token.Type(Integer(n)), Position(0, f, 0, 0, |s|));
    assert Lex(f, s, 0) == Prepend([x], Lex(f, s, |s|));
    assert [x] + [(EOF, PosAt(f, s, |s|))] == [x, (EOF, PosAt(f, s, |s|))];
  }

  lemma ScanPrintedNumber(f: string, n: nat)
    ensures var s := NatToString(n);
            !IsBlank(s[0]) && ScanToken(f, s, 0) == Ok(Scanned(Token.Type(Integer(n)), Position(0, f, 0, 0, |s|), |s|))
  {
    var s := NatToString(n);
    DigitsScanToEnd(s, 0, false);
    assert s[0..|s|] == s;
    DecimalValueOfNatToString(n);
    assert forall i :: 0 <= i < |s| ==> s[i] != '.';
    assert DotIndex(s) == |s|;
    assert IsDigit(s[0]);
  }

  /** Digits before index `e` do not change where a number ends. */
  lemma {:induction false} DigitsSkipped(text: string, j: nat, e: nat, dotSeen: bool)
    requires j <= e <= |text|
    requires forall i :: j <= i < e ==> IsDigit(text[i])
    ensures NumberEnd(text, j, dotSeen) == NumberEnd(text, e, dotSeen)
    decreases e - j
  {
    if j < e {
      DigitsSkipped(text, j + 1, e, dotSeen);
    }
  }

  /**
   * A decimal fraction `a.b` scans to one Float token of value `a + b / 10^|b|`
   * covering the whole text, whose span counts the digits and not the dot.
   */
  lemma ScanFraction(f: string, a: string, b: string)
    requires |a| > 0 && (forall i :: 0 <= i < |a| ==> IsDigit(a[i])) && (forall i :: 0 <= i < |b| ==> IsDigit(b[i]))
    ensures var text := a + "." + b;
      NumberAt(f, text, 0) ==
        Scanned(Token.Type(Float(DecimalValue(a) as real + DecimalValue(b) as real / Pow10(|b|) as real)),
                PosAt(f, text, 0).(len := |a| + |b|), |text|)
  {
    var text := a + "." + b;
    assert text[|a|] == '.';
    assert forall i :: 0 <= i < |a| ==> text[i] == a[i];
    assert forall i :: |a| < i < |text| ==> text[i] == b[i - |a| - 1];
    DigitsSkipped(text, 0, |a|, false);
    DigitsScanToEnd(text, |a| + 1, true);
    assert NumberEnd(text, 0, false) == |text|;
    assert text[0..|text|] == text;
    var d := DotIndex(text);
    assert d == |a|;
    assert text[..d] == a && text[d + 1..] == b;
  }

  /** An identifier scans to the first character that cannot continue it. */
  lemma {:induction false} WordScansToEnd(text: string, j: nat)
    requires j <= |text|
    requires forall i :: j <= i < |text| ==> IsIdentChar(text[i])
    ensures IdentEnd(text, j) == |text|
    decreases |text| - j
  {
    if j < |text| {
      WordScansToEnd(text, j + 1);
    }
  }

  /**
   * A word lexes to a keyword token exactly when it is a keyword, else to an
   * identifier of that name; its span runs one character past the word.
   */
  lemma LexWord(f: string, w: string)
    requires |w| > 0 && IsAsciiAlpha(w[0])
    requires forall i :: 0 <= i < |w| ==> IsIdentChar(w[i])
    requires |w| + 1 < U64_MODULUS
    ensures Lex(f, w, 0).Ok? && |Lex(f, w, 0).value| == 2
    ensures IsKeyword(w) ==> FromStr(w).Some? && Lex(f, w, 0).value[0].0 == Token.Keyword(FromStr(w).value)
    ensures !IsKeyword(w) ==> Lex(f, w, 0).value[0].0 == Token.Ident(Ident.Ident(w))
    ensures Lex(f, w, 0).value[0].1 == Position(0, f, 0, 0, |w| + 1)
  {
    WordScansToEnd(w, 0);
    assert w[0..|w|] == w;
    FromStrIffIsKeyword(w);
    ScanWord(f, w, 0);
    LexStep(f, w, 0);
    assert PosAt(f, w, 0) == Position(0, f, 0, 0, 1);
    assert IdentAt(f, w, 0).pos == Position(0, f, 0, 0, |w| + 1);
    assert Lex(f, w, |w|) == Ok([(EOF, PosAt(f, w, |w|))]);
  }

  /** Lexing the printed form of a keyword gives back that keyword. */
  lemma LexKeywordText(f: string, k: Keyword)
    ensures Lex(f, KeywordText(k), 0).Ok?
    ensures Lex(f, KeywordText(k), 0).value[0].0 == Token.Keyword(k)
  {
    var w := KeywordText(k);
    assert forall i :: 0 <= i < |w| ==> IsAsciiAlpha(w[i]);
    LexWord(f, w);
    FromStrOfText(k);
  }

  /**
   * "=", "<", ">" and "!" take a following '=' into one token, whose span
   * then runs from the first character to one past the second; alone they
   * are one-character tokens.
   */
  lemma TwoCharacterOperators(f: string, text: string, k: nat)
    requires k < |text| && text[k] in "=<>!"
    ensures var s := ScanToken(f, text, k);
            s.Ok? && s.value.pos.index == k &&
            if CharAt(text, k + 1) == Some('=') then
              s.value.next == k + 2 && s.value.pos.len == 3 &&
              s.value.token == (if text[k] == '=' then DoubleEqual else if text[k] == '<' then LessThanEq
                                else if text[k] == '>' then GreaterThanEq else NonEqual)
            else
              s.value.next == k + 1 && s.value.pos.len == 1 &&
              s.value.token == (if text[k] == '=' then Token.Equal else if text[k] == '<' then LessThan
                                else if text[k] == '>' then GreaterThan else Bang)
  {
  }

  /** '&' and '|' must be doubled; otherwise the error points at the character after the first. */
  lemma SingleAndOrFails(f: string, text: string, k: nat)
    requires k < |text| && text[k] in "&|"
    requires CharAt(text, k + 1) != Some(text[k])
    ensures ScanToken(f, text, k) ==
              Err(New(SyntaxError, if text[k] == '&' then "expected &" else "expected |", Some(PosAt(f, text, k + 1))))
    ensures Lex(f, text, k).Err?
  {
    if text[k] == '&' {
      assert "expected " + [text[k]] == "expected &";
    } else {
      assert "expected " + [text[k]] == "expected |";
    }
  }

  /** "1.2.3": the number stops at the second '.', which is then an illegal character. */
  lemma SecondDotIsIllegal(f: string)
    ensures Lex(f, "1.2.3", 0) == Err(IllegalCharacter('.', Position(3, f, 0, 3, 1)))
  {
    var t := "1.2.3";
    assert t[0] == '1' && t[3] == '.' && |t| == 5;
    assert ScanToken(f, t, 3) == Err(IllegalCharacter('.', PosAt(f, t, 3)));
    assert NumberEnd(t, 0, false) == 3;
    assert ScanToken(f, t, 0) == Ok(NumberAt(f, t, 0)) && NumberAt(f, t, 0).next == 3;
    PosAtCounts(f, t, 3);
    assert Newlines(t[..3]) == 0 by {
      NoNewlinesCount(t[..3]);
    }
  }
}
