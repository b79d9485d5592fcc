/** Identifiers (src/interpreter/token/ident.rs). */
module Idents {

  /** `Ident`: a name; `Ident::new` is the constructor and `get` the destructor `name`. */
  datatype Ident = Ident(name: string)

  /** `Display` prints the name itself. */
  function IdentText(i: Ident): string {
    i.name
  }

  /** Two identifiers are equal exactly when their names are (derived `PartialEq`). */
  lemma EqualIffNamesEqual(a: Ident, b: Ident)
    ensures a == b <==> a.name == b.name
  {
  }

  /** Lexicographic order on strings, as `String`'s `PartialOrd` compares characters. */
  predicate StringLess(a: string, b: string) {
    if a == [] then b != []
    else if b == [] then false
    else a[0] < b[0] || (a[0] == b[0] && StringLess(a[1..], b[1..]))
  }

  /** Derived `PartialOrd`: identifiers compare as their names. */
  predicate Less(a: Ident, b: Ident) {
    StringLess(a.name, b.name)
  }

  lemma {:induction false} StringLessIrreflexive(a: string)
    ensures !StringLess(a, a)
  {
    if a != [] {
      StringLessIrreflexive(a[1..]);
    }
  }

  lemma {:induction false} StringLessTransitive(a: string, b: string, c: string)
    requires StringLess(a, b) && StringLess(b, c)
    ensures StringLess(a, c)
  {
    if a != [] && b != [] && c != [] && a[0] == b[0] && b[0] == c[0] {
      StringLessTransitive(a[1..], b[1..], c[1..]);
    }
  }

  lemma {:induction false} StringLessTotal(a: string, b: string)
    requires a != b
    ensures StringLess(a, b) || StringLess(b, a)
  {
    if a != [] && b != [] && a[0] == b[0] {
      assert a == [a[0]] + a[1..] && b == [b[0]] + b[1..];
      StringLessTotal(a[1..], b[1..]);
    }
  }

  /** The identifier order is a strict total order, fixed by the names alone. */
  lemma IdentOrderIsStrictTotal(a: Ident, b: Ident, c: Ident)
    ensures !Less(a, a)
    ensures Less(a, b) && Less(b, c) ==> Less(a, c)
    ensures a != b ==> Less(a, b) || Less(b, a)
  {
    StringLessIrreflexive(a.name);
    if Less(a, b) && Less(b, c) {
      StringLessTransitive(a.name, b.name, c.name);
    }
    if a != b {
      StringLessTotal(a.name, b.name);
    }
  }
}
