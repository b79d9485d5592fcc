/** Source positions and spans (`Position` in src/interpreter/mod.rs). */
module Positions {
  import opened Wrappers

  /** 2^64: `len` is a `u64` in the source. */
  const U64_MODULUS: int := 0x1_0000_0000_0000_0000

  /** Rust's `as u64` cast of an `i64` and a wrapping `u64` addition both reduce modulo 2^64. */
  function AsU64(x: int): (r: nat)
    ensures r < U64_MODULUS
    ensures 0 <= x < U64_MODULUS ==> r == x
  {
    x % U64_MODULUS
  }

  /** A cursor into the source text: index, file name, 0-based line and column, and span length. */
  datatype Position = Position(index: int, filename: string, line: nat, column: int, len: nat) {

    /** `advance`: step over the current character `c` (absent past the end of the text). */
    function Advance(c: Option<char>): Position {
      if c == Some('\n') then
        this.(index := index + 1, line := line + 1, column := 0)
      else
        this.(index := index + 1, column := column + 1)
    }

    /**
     * `combine`: the span that starts at this position and ends where `other` ends.
     * The subtraction is cast to `u64`, so a span that ends before this one starts wraps around.
     */
    function Combine(other: Position): (p: Position)
      ensures p.index == index && p.filename == filename && p.line == line && p.column == column
      ensures index <= other.index && other.index - index + other.len < U64_MODULUS ==>
                p.len == other.index - index + other.len && p.index + p.len == other.index + other.len
    {
      Position(index, filename, line, column, AsU64(AsU64(other.index - index) + other.len))
    }
  }

  /** The number of newline characters in `s`. */
  function Newlines(s: string): nat {
    if s == [] then 0 else Newlines(s[..|s| - 1]) + (if s[|s| - 1] == '\n' then 1 else 0)
  }

  /** The number of characters after the last newline of `s` (all of `s` when it has none). */
  function LastLineLength(s: string): nat {
    if s == [] then 0 else if s[|s| - 1] == '\n' then 0 else LastLineLength(s[..|s| - 1]) + 1
  }

  /** The position reached by advancing over each character of `s` in turn. */
  function AdvanceOver(p: Position, s: string): Position {
    if s == [] then p else AdvanceOver(p, s[..|s| - 1]).Advance(Some(s[|s| - 1]))
  }

  /**
   * Advancing over a text moves the index by its length, the line by its number of
   * newlines, and leaves the column counting the characters after the last newline.
   */
  lemma {:induction false} AdvanceOverCounts(p: Position, s: string)
    ensures AdvanceOver(p, s).index == p.index + |s|
    ensures AdvanceOver(p, s).line == p.line + Newlines(s)
    ensures AdvanceOver(p, s).column ==
              if Newlines(s) == 0 then p.column + |s| else LastLineLength(s)
    ensures AdvanceOver(p, s).filename == p.filename && AdvanceOver(p, s).len == p.len
  {
    if s != [] {
      AdvanceOverCounts(p, s[..|s| - 1]);
    }
  }

  /**
   * A span that ends before its start wraps: the contexts of `1 + -2` (the unary
   * context starts one index earlier and is one long) combine to a span of length 0.
   */
  lemma CombineReversedWraps(p: Position, q: Position)
    requires q.index == p.index - 1 && q.len == 1
    ensures p.Combine(q).len == 0
  {
  }
}
