/** The nine keywords of the language (src/interpreter/token/keyword.rs). */
module Keywords {
  import opened Wrappers

  datatype Keyword = Let | If | Else | Then | Elif | For | While | In | To

  /** `keywords`: the keyword spellings, in declaration order. */
  function KeywordList(): seq<string> {
    ["let", "if", "else", "then", "elif", "for", "while", "in", "to"]
  }

  /** `is_keyword`: membership in the keyword list. */
  predicate IsKeyword(word: string) {
    word in KeywordList()
  }

  /** `Display`. */
  function KeywordText(k: Keyword): string {
    match k
    case Let => "let"
    case If => "if"
    case Else => "else"
    case Then => "then"
    case Elif => "elif"
    case For => "for"
    case While => "while"
    case In => "in"
    case To => "to"
  }

  /** `from_str`: exact, case-sensitive match on the spelling. */
  function FromStr(v: string): Option<Keyword> {
    match v
    case "let" => Some(Let)
    case "if" => Some(If)
    case "else" => Some(Else)
    case "then" => Some(Then)
    case "elif" => Some(Elif)
    case "for" => Some(For)
    case "while" => Some(While)
    case "in" => Some(In)
    case "to" => Some(To)
    case _ => None
  }

  /** `from_str` succeeds exactly on the words `is_keyword` accepts, and then prints back the same word. */
  lemma FromStrIffIsKeyword(w: string)
    ensures FromStr(w).Some? <==> IsKeyword(w)
    ensures FromStr(w).Some? ==> KeywordText(FromStr(w).value) == w
  {
  }

  /** Parsing the printed form of a keyword gives the keyword back. */
  lemma FromStrOfText(k: Keyword)
    ensures FromStr(KeywordText(k)) == Some(k)
    ensures IsKeyword(KeywordText(k))
  {
  }

  /** Distinct keywords print distinct words. */
  lemma TextInjective(k1: Keyword, k2: Keyword)
    requires KeywordText(k1) == KeywordText(k2)
    ensures k1 == k2
  {
    FromStrOfText(k1);
    FromStrOfText(k2);
  }

  /** Matching is case-sensitive: a capitalised keyword is not a keyword. */
  lemma CaseVariantIsNotKeyword()
    ensures FromStr("Let") == None && !IsKeyword("Let")
  {
  }
}
