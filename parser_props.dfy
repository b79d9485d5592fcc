/** Properties of the grammar functions of src/interpreter/ast/mod.rs. */
module GrammarProperties {
  import opened Wrappers
  import opened Positions
  import opened Errors
  import opened Idents
  import opened Keywords
  import opened Types
  import opened Tokens
  import opened Nodes
  import opened Grammar

  /** The token lists the lexer produces: one `EOF`, at the end. */
  predicate EndsWithOneEOF(ts: TokenList) {
    |ts| > 0 && ts[|ts| - 1].0 == EOF && forall k :: 0 <= k < |ts| - 1 ==> ts[k].0 != EOF
  }

  /**
   * On such a list, `parse` succeeds only when the expression runs up to the
   * final `EOF`; an expression that stops earlier is reported at the first
   * token it left over.
   */
  lemma ParseConsumesAllButEOF(ts: TokenList)
    requires EndsWithOneEOF(ts)
    ensures Parse(ts, 0).Ok? ==> Expr(ts, 0).value.next == |ts| - 1
    ensures Expr(ts, 0).Ok? && Expr(ts, 0).value.next < |ts| - 1 ==>
      Parse(ts, 0) == Err(New(SyntaxError, "Expected one of the following: '+' '-' '*' or '/'", Some(ts[Expr(ts, 0).value.next].1)))
  {
    var e := Expr(ts, 0);
    if e.Ok? {
      assert NoEOF(ts, 0, e.value.next);
      if e.value.next == |ts| {
        assert false;
      }
    }
  }

  /** An operand at the end of file: every expression level passes on the error of `atom`. */
  lemma ExprAtEndOfFile(ts: TokenList, i: nat)
    requires i < |ts| && ts[i].0 == EOF
    ensures Expr(ts, i) == Err(New(EndOfFile, "expected something but reached the end of file", Some(ts[i].1)))
  {
    AtomErrorPassesUp(ts, i);
  }

  /** With no token under the cursor, parsing fails with the empty-token error and no position. */
  lemma ExprPastTheEnd(ts: TokenList)
    ensures Expr(ts, |ts|) == Err(New(SyntaxError, "can't parse empty token", None))
  {
    AtomErrorPassesUp(ts, |ts|);
  }

  /** The three syntax errors of `let`, each at the position the source gives it. */
  lemma LetErrors(ts: TokenList, i: nat)
    requires i < |ts| && ts[i].0 == Token.Keyword(Let)
    ensures i + 1 == |ts| ==> Expr(ts, i) == Err(New(SyntaxError, "expected expression", None))
    ensures i + 1 < |ts| && !ts[i + 1].0.Ident? ==>
      Expr(ts, i) == Err(New(SyntaxError, "expected identifier", Some(ts[i + 1].1)))
    ensures i + 1 < |ts| && ts[i + 1].0.Ident? && !(i + 2 < |ts| && ts[i + 2].0 == Token.Equal) ==>
      Expr(ts, i) == Err(New(SyntaxError, "expected =", Some(ts[i + 1].1)))
  {
  }

  /** A successful `let` binds the identifier to the expression after `=` and is placed at the identifier. */
  lemma LetAssigns(ts: TokenList, i: nat)
    requires i < |ts| && ts[i].0 == Token.Keyword(Let) && Expr(ts, i).Ok?
    ensures i + 3 <= |ts| && ts[i + 1].0.Ident? && ts[i + 2].0 == Token.Equal && Expr(ts, i + 3).Ok?
    ensures Expr(ts, i).value.node == Node(Assign(ts[i + 1].0.ident, Expr(ts, i + 3).value.node), ts[i + 1].1)
    ensures Expr(ts, i).value.next == Expr(ts, i + 3).value.next
  {
  }

  /** A level passes its operand through when no operator of its own follows. */
  lemma NoOperatorFollows(ts: TokenList, i: nat, f: Func)
    requires i <= |ts| && Call(ts, i, f).Ok?
    requires var j := Call(ts, i, f).value.next; !(j < |ts| && ts[j].0 in Operations(f))
    ensures BinaryOperation(ts, i, f) == Call(ts, i, f)
  {
    var left := Call(ts, i, f).value;
    assert BinaryLoop(ts, f, left) == Ok(left);
  }

  /** A level passes on the error of its first operand. */
  lemma ErrorPasses(ts: TokenList, i: nat, f: Func)
    requires i <= |ts| && Call(ts, i, f).Err?
    ensures BinaryOperation(ts, i, f) == Call(ts, i, f)
  {
  }

  /** Outside a `let` and a `!`, an error of `atom` is the error of the whole expression. */
  lemma AtomErrorPassesUp(ts: TokenList, i: nat)
    requires i <= |ts| && Atom(ts, i).Err?
    requires i < |ts| ==> ts[i].0 != Bang && ts[i].0 != Token.Keyword(Let)
    ensures Expr(ts, i) == Atom(ts, i)
  {
    assert Call(ts, i, AtomF) == Atom(ts, i);
    ErrorPasses(ts, i, AtomF);
    assert Call(ts, i, TermF) == Atom(ts, i);
    ErrorPasses(ts, i, TermF);
    assert Call(ts, i, ArithExprF) == Atom(ts, i);
    ErrorPasses(ts, i, ArithExprF);
    assert Call(ts, i, CompExprF) == Atom(ts, i);
    ErrorPasses(ts, i, CompExprF);
  }

  /** How the levels call one another. */
  lemma Levels(ts: TokenList, i: nat)
    requires i <= |ts|
    ensures Call(ts, i, AtomF) == Atom(ts, i) && Call(ts, i, TermF) == Term(ts, i)
    ensures Call(ts, i, ArithExprF) == ArithExpr(ts, i) && Call(ts, i, CompExprF) == CompExpr(ts, i)
    ensures Term(ts, i) == BinaryOperation(ts, i, AtomF) && ArithExpr(ts, i) == BinaryOperation(ts, i, TermF)
    ensures !(i < |ts| && ts[i].0 == Bang) ==> CompExpr(ts, i) == BinaryOperation(ts, i, ArithExprF)
    ensures !(i < |ts| && ts[i].0 == Token.Keyword(Let)) ==> Expr(ts, i) == BinaryOperation(ts, i, CompExprF)
  {
  }

  /** `binary_operation` is its loop started from the first operand. */
  lemma Fold(ts: TokenList, i: nat, f: Func, p: Parsed)
    requires i <= |ts| && Call(ts, i, f) == Ok(p)
    ensures p.next <= |ts| && WellBuilt(p.node)
    ensures BinaryOperation(ts, i, f) == BinaryLoop(ts, f, p)
  {
  }

  /** A literal token is an atom by itself. */
  lemma LiteralAtom(ts: TokenList, i: nat)
    requires i < |ts| && ts[i].0.Type?
    ensures Atom(ts, i) == Ok(Parsed(Node(Literal(ts[i].0.ty), ts[i].1), i + 1))
  {
  }

  /** `binary_operation`'s loop at an operator: parse the right operand, join and go on. */
  lemma LoopUnfold(ts: TokenList, f: Func, left: Parsed)
    requires left.next < |ts| && WellBuilt(left.node)
    requires ts[left.next].0 in Operations(f) && IsBinaryOperator(ts[left.next].0)
    ensures BinaryLoop(ts, f, left) ==
      (var right :- Call(ts, left.next + 1, f);
       BinaryLoop(ts, f, Parsed(Node(Operation(BinaryOperationNode(left.node, ts[left.next].0, right.node)), left.node.pos.Combine(right.node.pos)), right.next)))
  {
  }

  /** One turn of the `binary_operation` loop. */
  lemma LoopStep(ts: TokenList, f: Func, left: Parsed, right: Parsed)
    requires left.next < |ts| && WellBuilt(left.node)
    requires ts[left.next].0 in Operations(f) && Call(ts, left.next + 1, f) == Ok(right)
    ensures BinaryLoop(ts, f, left) ==
      BinaryLoop(ts, f, Parsed(Node(Operation(BinaryOperationNode(left.node, ts[left.next].0, right.node)), left.node.pos.Combine(right.node.pos)), right.next))
  {
    var j := left.next;
    OperationsAreBinary(f, ts[j].0);
    JoinWellBuilt(left.node, ts[j].0, right.node);
    LoopUnfold(ts, f, left);
  }

  lemma JoinWellBuilt(l: Node, t: Token, r: Node)
    requires WellBuilt(l) && WellBuilt(r) && IsBinaryOperator(t)
    ensures WellBuilt(Node(Operation(BinaryOperationNode(l, t, r)), l.pos.Combine(r.pos)))
  {
  }

  lemma OperationsAreBinary(f: Func, t: Token)
    requires t in Operations(f)
    ensures IsBinaryOperator(t)
  {
  }

  /** The `binary_operation` loop stops at a token that is not one of its operators. */
  lemma LoopStop(ts: TokenList, f: Func, left: Parsed)
    requires left.next <= |ts| && WellBuilt(left.node)
    requires !(left.next < |ts| && ts[left.next].0 in Operations(f))
    ensures BinaryLoop(ts, f, left) == Ok(left)
  {
  }

  function Lit(v: Type, p: Position): Node {
    Node(Literal(v), p)
  }

  function Bin(l: Node, t: Token, r: Node): Node {
    Node(Operation(BinaryOperationNode(l, t, r)), l.pos.Combine(r.pos))
  }

  /** A literal followed by a `+`, `-` or `EOF` is a term by itself. */
  lemma OperandAlone(ts: TokenList, i: nat)
    requires i + 1 < |ts| && ts[i].0.Type? && ts[i + 1].0 in [Token.Plus, Token.Minus, EOF]
    ensures Term(ts, i) == Ok(Parsed(Lit(ts[i].0.ty, ts[i].1), i + 1))
  {
    LiteralAtom(ts, i);
    assert Call(ts, i, AtomF) == Ok(Parsed(Lit(ts[i].0.ty, ts[i].1), i + 1));
    NoOperatorFollows(ts, i, AtomF);
  }

  /** An arithmetic expression followed by `EOF` is the whole expression. */
  lemma TopLevels(ts: TokenList, i: nat, p: Parsed)
    requires i < p.next < |ts| && ts[p.next].0 == EOF && ts[i].0 != Bang && ts[i].0 != Token.Keyword(Let)
    requires ArithExpr(ts, i) == Ok(p)
    ensures Expr(ts, i) == Ok(p)
    ensures i == 0 ==> Parse(ts, i) == Ok(p.node)
  {
    assert Call(ts, i, ArithExprF) == Ok(p);
    NoOperatorFollows(ts, i, ArithExprF);
    assert Call(ts, i, CompExprF) == Ok(p);
    NoOperatorFollows(ts, i, CompExprF);
  }

  /** A literal followed by `+`, `-` or `EOF` is the operand of a term level by itself. */
  lemma TermOperand(ts: TokenList, i: nat)
    requires i + 1 < |ts| && ts[i].0.Type? && ts[i + 1].0 in [Token.Plus, Token.Minus, EOF]
    ensures Call(ts, i, TermF) == Ok(Parsed(Lit(ts[i].0.ty, ts[i].1), i + 1))
  {
    OperandAlone(ts, i);
    Levels(ts, i);
  }

  /** Literals `a - b - c` followed by `EOF` form one expression that groups to the left. */
  lemma DifferenceOfThree(ts: TokenList, i: nat)
    requires i + 5 < |ts| && ts[i].0.Type? && ts[i + 1].0 == Token.Minus && ts[i + 2].0.Type?
    requires ts[i + 3].0 == Token.Minus && ts[i + 4].0.Type? && ts[i + 5].0 == EOF
    ensures Expr(ts, i) == Ok(Parsed(Bin(Bin(Lit(ts[i].0.ty, ts[i].1), Token.Minus, Lit(ts[i + 2].0.ty, ts[i + 2].1)),
                                         Token.Minus, Lit(ts[i + 4].0.ty, ts[i + 4].1)), i + 5))
  {
    var a, b, c := Lit(ts[i].0.ty, ts[i].1), Lit(ts[i + 2].0.ty, ts[i + 2].1), Lit(ts[i + 4].0.ty, ts[i + 4].1);
    var first := Bin(a, Token.Minus, b);
    var whole := Bin(first, Token.Minus, c);
    TermOperand(ts, i);
    TermOperand(ts, i + 2);
    TermOperand(ts, i + 4);
    Fold(ts, i, TermF, Parsed(a, i + 1));
    LoopStep(ts, TermF, Parsed(a, i + 1), Parsed(b, i + 3));
    LoopStep(ts, TermF, Parsed(first, i + 3), Parsed(c, i + 5));
    LoopStop(ts, TermF, Parsed(whole, i + 5));
    Levels(ts, i);
    TopLevels(ts, i, Parsed(whole, i + 5));
  }

  /** `a - b - c` groups to the left: `(a - b) - c`. */
  lemma SubtractionIsLeftAssociative(a: Type, b: Type, c: Type, ps: seq<Position>)
    requires |ps| == 6
    ensures var ts := [(Type(a), ps[0]), (Token.Minus, ps[1]), (Type(b), ps[2]),
                       (Token.Minus, ps[3]), (Type(c), ps[4]), (EOF, ps[5])];
      Parse(ts, 0) == Ok(Bin(Bin(Lit(a, ps[0]), Token.Minus, Lit(b, ps[2])), Token.Minus, Lit(c, ps[4])))
  {
    var ts := [(Type(a), ps[0]), (Token.Minus, ps[1]), (Type(b), ps[2]),
               (Token.Minus, ps[3]), (Type(c), ps[4]), (EOF, ps[5])];
    DifferenceOfThree(ts, 0);
  }

  /** `a + b` is one addition node spanning both operands. */
  lemma SumOfTwo(a: Type, b: Type, ps: seq<Position>)
    requires |ps| == 4
    ensures var ts := [(Type(a), ps[0]), (Token.Plus, ps[1]), (Type(b), ps[2]), (EOF, ps[3])];
      Parse(ts, 0) == Ok(Bin(Lit(a, ps[0]), Token.Plus, Lit(b, ps[2])))
  {
    var ts := [(Type(a), ps[0]), (Token.Plus, ps[1]), (Type(b), ps[2]), (EOF, ps[3])];
    var whole := Bin(Lit(a, ps[0]), Token.Plus, Lit(b, ps[2]));
    OperandAlone(ts, 0);
    OperandAlone(ts, 2);
    Levels(ts, 0);
    Levels(ts, 2);
    Fold(ts, 0, TermF, Parsed(Lit(a, ps[0]), 1));
    LoopStep(ts, TermF, Parsed(Lit(a, ps[0]), 1), Parsed(Lit(b, ps[2]), 3));
    LoopStop(ts, TermF, Parsed(whole, 3));
    TopLevels(ts, 0, Parsed(whole, 3));
  }

  /** Literals `a + b * c` followed by `EOF` form one expression, the product being the right operand. */
  lemma SumOfProduct(ts: TokenList, i: nat)
    requires i + 5 < |ts| && ts[i].0.Type? && ts[i + 1].0 == Token.Plus && ts[i + 2].0.Type?
    requires ts[i + 3].0 == Star && ts[i + 4].0.Type? && ts[i + 5].0 == EOF
    ensures Expr(ts, i) == Ok(Parsed(Bin(Lit(ts[i].0.ty, ts[i].1), Token.Plus,
                                         Bin(Lit(ts[i + 2].0.ty, ts[i + 2].1), Star, Lit(ts[i + 4].0.ty, ts[i + 4].1))), i + 5))
  {
    var a, b, c := Lit(ts[i].0.ty, ts[i].1), Lit(ts[i + 2].0.ty, ts[i + 2].1), Lit(ts[i + 4].0.ty, ts[i + 4].1);
    var product := Bin(b, Star, c);
    var whole := Bin(a, Token.Plus, product);
    OperandAlone(ts, i);
    LiteralAtom(ts, i + 2);
    LiteralAtom(ts, i + 4);
    Levels(ts, i);
    Levels(ts, i + 2);
    Levels(ts, i + 4);
    EndIsNoOperator(AtomF);
    FoldOne(ts, i + 2, AtomF, Parsed(b, i + 3), Parsed(c, i + 5));
    EndIsNoOperator(TermF);
    FoldOne(ts, i, TermF, Parsed(a, i + 1), Parsed(product, i + 5));
    TopLevels(ts, i, Parsed(whole, i + 5));
  }

  /** `a + b * c` is `a + (b * c)`: `*` binds tighter than `+`. */
  lemma ProductBindsTighter(a: Type, b: Type, c: Type, ps: seq<Position>)
    requires |ps| == 6
    ensures var ts := [(Type(a), ps[0]), (Token.Plus, ps[1]), (Type(b), ps[2]),
                       (Star, ps[3]), (Type(c), ps[4]), (EOF, ps[5])];
      Parse(ts, 0) == Ok(Bin(Lit(a, ps[0]), Token.Plus, Bin(Lit(b, ps[2]), Star, Lit(c, ps[4]))))
  {
    var ts := [(Type(a), ps[0]), (Token.Plus, ps[1]), (Type(b), ps[2]),
               (Star, ps[3]), (Type(c), ps[4]), (EOF, ps[5])];
    SumOfProduct(ts, 0);
  }

  /** `a == b` between two literals, followed by `EOF`, is one comparison node. */
  lemma EqualityOfLiterals(ts: TokenList, i: nat)
    requires i + 3 < |ts| && ts[i].0.Type? && ts[i + 1].0 == DoubleEqual && ts[i + 2].0.Type? && ts[i + 3].0 == EOF
    ensures CompExpr(ts, i) == Ok(Parsed(Bin(Lit(ts[i].0.ty, ts[i].1), DoubleEqual, Lit(ts[i + 2].0.ty, ts[i + 2].1)), i + 3))
  {
    var left, right := Lit(ts[i].0.ty, ts[i].1), Lit(ts[i + 2].0.ty, ts[i + 2].1);
    var cmp := Bin(left, DoubleEqual, right);
    LiteralAtom(ts, i);
    LiteralAtom(ts, i + 2);
    Levels(ts, i);
    Levels(ts, i + 2);
    Fold(ts, i, AtomF, Parsed(left, i + 1));
    Fold(ts, i + 2, AtomF, Parsed(right, i + 3));
    LoopStop(ts, AtomF, Parsed(left, i + 1));
    LoopStop(ts, AtomF, Parsed(right, i + 3));
    Fold(ts, i, TermF, Parsed(left, i + 1));
    Fold(ts, i + 2, TermF, Parsed(right, i + 3));
    LoopStop(ts, TermF, Parsed(left, i + 1));
    LoopStop(ts, TermF, Parsed(right, i + 3));
    Fold(ts, i, ArithExprF, Parsed(left, i + 1));
    LoopStep(ts, ArithExprF, Parsed(left, i + 1), Parsed(right, i + 3));
    LoopStop(ts, ArithExprF, Parsed(cmp, i + 3));
    assert ts[i].0 != Bang;
  }

  /** `! a == b` negates the whole comparison: `!(a == b)`, placed at the `!`. */
  lemma BangCoversComparison(a: Type, b: Type, ps: seq<Position>)
    requires |ps| == 5
    ensures var ts := [(Bang, ps[0]), (Type(a), ps[1]), (DoubleEqual, ps[2]), (Type(b), ps[3]), (EOF, ps[4])];
      Parse(ts, 0) == Ok(Node(Operation(UnaryOperationNode(Not, Bin(Lit(a, ps[1]), DoubleEqual, Lit(b, ps[3])))), ps[0]))
  {
    var ts := [(Bang, ps[0]), (Type(a), ps[1]), (DoubleEqual, ps[2]), (Type(b), ps[3]), (EOF, ps[4])];
    var cmp := Bin(Lit(a, ps[1]), DoubleEqual, Lit(b, ps[3]));
    var whole := Node(Operation(UnaryOperationNode(Not, cmp)), ps[0]);
    EqualityOfLiterals(ts, 1);
    Levels(ts, 0);
    assert CompExpr(ts, 0) == Ok(Parsed(whole, 4));
    assert Call(ts, 0, CompExprF) == Ok(Parsed(whole, 4));
    NoOperatorFollows(ts, 0, CompExprF);
  }

  /** A parenthesis that is never closed is reported at the opening parenthesis. */
  lemma UnclosedParenthesis(a: Type, ps: seq<Position>)
    requires |ps| == 3
    ensures var ts := [(LeftParenthesis, ps[0]), (Type(a), ps[1]), (EOF, ps[2])];
      Parse(ts, 0) == Err(New(SyntaxError, "expected )", Some(ps[0])))
  {
    var ts := [(LeftParenthesis, ps[0]), (Type(a), ps[1]), (EOF, ps[2])];
    OperandAlone(ts, 1);
    Levels(ts, 1);
    Fold(ts, 1, TermF, Parsed(Lit(a, ps[1]), 2));
    LoopStop(ts, TermF, Parsed(Lit(a, ps[1]), 2));
    TopLevels(ts, 1, Parsed(Lit(a, ps[1]), 2));
    assert Atom(ts, 0) == Err(New(SyntaxError, "expected )", Some(ps[0])));
    AtomErrorPassesUp(ts, 0);
  }
  /**
   * An `if` whose condition is not followed by `then` is reported at the token
   * after the condition, or without a position when the tokens run out.
   */
  lemma IfMissingThen(ts: TokenList, i: nat)
    requires i < |ts| && ts[i].0 == Token.Keyword(If)
    requires Expr(ts, i + 1).Ok? && !IsKeywordAt(ts, Expr(ts, i + 1).value.next, Then)
    ensures var j := Expr(ts, i + 1).value.next;
      var e := New(SyntaxError, "expected then", if j < |ts| then Some(ts[j].1) else None);
      Atom(ts, i) == Err(e) && Expr(ts, i) == Err(e)
  {
    var j := Expr(ts, i + 1).value.next;
    assert IfCase(ts, i + 1) == Err(ExpectedThen(ts, j));
    assert IfExpr(ts, i, ts[i].1) == Err(ExpectedThen(ts, j));
    AtomErrorPassesUp(ts, i);
  }

  /** The operators of level `f` and of every level below it. */
  function OperatorsUpTo(f: Func): seq<Token>
    decreases FuncRank(f)
  {
    match f
    case AtomF => Operations(AtomF)
    case TermF => OperatorsUpTo(AtomF) + Operations(TermF)
    case ArithExprF => OperatorsUpTo(TermF) + Operations(ArithExprF)
    case CompExprF => OperatorsUpTo(ArithExprF) + Operations(CompExprF)
  }

  /** A literal followed by no operator of level `f` or below is that level's operand by itself. */
  lemma {:induction false} LoneLiteral(ts: TokenList, i: nat, f: Func)
    requires i < |ts| && ts[i].0.Type?
    requires !(i + 1 < |ts| && ts[i + 1].0 in OperatorsUpTo(f))
    ensures Call(ts, i, f) == Ok(Parsed(Lit(ts[i].0.ty, ts[i].1), i + 1))
    decreases FuncRank(f)
  {
    LiteralAtom(ts, i);
    Levels(ts, i);
    match f
    case AtomF =>
    case TermF =>
      LoneLiteral(ts, i, AtomF);
      NoOperatorFollows(ts, i, AtomF);
    case ArithExprF =>
      LoneLiteral(ts, i, TermF);
      NoOperatorFollows(ts, i, TermF);
    case CompExprF =>
      LoneLiteral(ts, i, ArithExprF);
      NoOperatorFollows(ts, i, ArithExprF);
  }

  /** `binary_operation` over exactly one `operator operand` pair. */
  lemma FoldOne(ts: TokenList, i: nat, f: Func, left: Parsed, right: Parsed)
    requires i <= |ts| && Call(ts, i, f) == Ok(left)
    requires left.next < |ts| && ts[left.next].0 in Operations(f) && Call(ts, left.next + 1, f) == Ok(right)
    requires !(right.next < |ts| && ts[right.next].0 in Operations(f))
    ensures BinaryOperation(ts, i, f) == Ok(Parsed(Bin(left.node, ts[left.next].0, right.node), right.next))
  {
    var whole := Bin(left.node, ts[left.next].0, right.node);
    Fold(ts, i, f, left);
    LoopStep(ts, f, left, right);
    OperationsAreBinary(f, ts[left.next].0);
    JoinWellBuilt(left.node, ts[left.next].0, right.node);
    LoopStop(ts, f, Parsed(whole, right.next));
  }

  /** `EOF` is the operator of no level. */
  lemma EndIsNoOperator(f: Func)
    ensures EOF !in Operations(f) && EOF !in OperatorsUpTo(f)
  {
  }

  /** Literals `a + b` followed by `EOF` form one arithmetic expression. */
  lemma SumOfLiterals(ts: TokenList, i: nat)
    requires i + 3 < |ts| && ts[i].0.Type? && ts[i + 1].0 == Token.Plus && ts[i + 2].0.Type? && ts[i + 3].0 == EOF
    ensures Call(ts, i, ArithExprF) == Ok(Parsed(Bin(Lit(ts[i].0.ty, ts[i].1), Token.Plus, Lit(ts[i + 2].0.ty, ts[i + 2].1)), i + 3))
  {
    var left, right := Lit(ts[i].0.ty, ts[i].1), Lit(ts[i + 2].0.ty, ts[i + 2].1);
    EndIsNoOperator(AtomF);
    EndIsNoOperator(TermF);
    Levels(ts, i);
    LoneLiteral(ts, i, AtomF);
    NoOperatorFollows(ts, i, AtomF);
    LoneLiteral(ts, i + 2, TermF);
    FoldOne(ts, i, TermF, Parsed(left, i + 1), Parsed(right, i + 3));
  }

  /** Literals `a == b` followed by `EOF` form one comparison expression. */
  lemma ComparisonOfLiterals(ts: TokenList, i: nat)
    requires i + 3 < |ts| && ts[i].0.Type? && ts[i + 1].0 == DoubleEqual && ts[i + 2].0.Type? && ts[i + 3].0 == EOF
    ensures Call(ts, i, CompExprF) == Ok(Parsed(Bin(Lit(ts[i].0.ty, ts[i].1), DoubleEqual, Lit(ts[i + 2].0.ty, ts[i + 2].1)), i + 3))
  {
    var left, right := Lit(ts[i].0.ty, ts[i].1), Lit(ts[i + 2].0.ty, ts[i + 2].1);
    EndIsNoOperator(TermF);
    EndIsNoOperator(ArithExprF);
    Levels(ts, i);
    LoneLiteral(ts, i, TermF);
    NoOperatorFollows(ts, i, TermF);
    LoneLiteral(ts, i + 2, ArithExprF);
    FoldOne(ts, i, ArithExprF, Parsed(left, i + 1), Parsed(right, i + 3));
  }

  /** Literals `a == b + c` followed by `EOF` form one expression, the sum being the right operand. */
  lemma ComparisonOfSum(ts: TokenList, i: nat)
    requires i + 5 < |ts| && ts[i].0.Type? && ts[i + 1].0 == DoubleEqual && ts[i + 2].0.Type?
    requires ts[i + 3].0 == Token.Plus && ts[i + 4].0.Type? && ts[i + 5].0 == EOF
    ensures Expr(ts, i) == Ok(Parsed(Bin(Lit(ts[i].0.ty, ts[i].1), DoubleEqual,
                                         Bin(Lit(ts[i + 2].0.ty, ts[i + 2].1), Token.Plus, Lit(ts[i + 4].0.ty, ts[i + 4].1))), i + 5))
  {
    var left := Lit(ts[i].0.ty, ts[i].1);
    var sum := Bin(Lit(ts[i + 2].0.ty, ts[i + 2].1), Token.Plus, Lit(ts[i + 4].0.ty, ts[i + 4].1));
    Levels(ts, i);
    LoneLiteral(ts, i, TermF);
    NoOperatorFollows(ts, i, TermF);
    SumOfLiterals(ts, i + 2);
    FoldOne(ts, i, ArithExprF, Parsed(left, i + 1), Parsed(sum, i + 5));
    NoOperatorFollows(ts, i, CompExprF);
  }

  /** Literals `a && b == c` followed by `EOF` form one expression, the comparison being the right operand. */
  lemma ConjunctionOfComparison(ts: TokenList, i: nat)
    requires i + 5 < |ts| && ts[i].0.Type? && ts[i + 1].0 == DoubleAnd && ts[i + 2].0.Type?
    requires ts[i + 3].0 == DoubleEqual && ts[i + 4].0.Type? && ts[i + 5].0 == EOF
    ensures Expr(ts, i) == Ok(Parsed(Bin(Lit(ts[i].0.ty, ts[i].1), DoubleAnd,
                                         Bin(Lit(ts[i + 2].0.ty, ts[i + 2].1), DoubleEqual, Lit(ts[i + 4].0.ty, ts[i + 4].1))), i + 5))
  {
    var left := Lit(ts[i].0.ty, ts[i].1);
    var cmp := Bin(Lit(ts[i + 2].0.ty, ts[i + 2].1), DoubleEqual, Lit(ts[i + 4].0.ty, ts[i + 4].1));
    Levels(ts, i);
    LoneLiteral(ts, i, ArithExprF);
    NoOperatorFollows(ts, i, ArithExprF);
    ComparisonOfLiterals(ts, i + 2);
    FoldOne(ts, i, CompExprF, Parsed(left, i + 1), Parsed(cmp, i + 5));
  }

  /** `a == b + c` is `a == (b + c)`: comparisons bind looser than `+`. */
  lemma SumBindsTighterThanComparison(a: Type, b: Type, c: Type, ps: seq<Position>)
    requires |ps| == 6
    ensures var ts := [(Type(a), ps[0]), (DoubleEqual, ps[1]), (Type(b), ps[2]),
                       (Token.Plus, ps[3]), (Type(c), ps[4]), (EOF, ps[5])];
      Parse(ts, 0) == Ok(Bin(Lit(a, ps[0]), DoubleEqual, Bin(Lit(b, ps[2]), Token.Plus, Lit(c, ps[4]))))
  {
    var ts := [(Type(a), ps[0]), (DoubleEqual, ps[1]), (Type(b), ps[2]),
               (Token.Plus, ps[3]), (Type(c), ps[4]), (EOF, ps[5])];
    ComparisonOfSum(ts, 0);
  }

  /** `a && b == c` is `a && (b == c)`: `&&` binds looser than comparisons. */
  lemma ComparisonBindsTighterThanAnd(a: Type, b: Type, c: Type, ps: seq<Position>)
    requires |ps| == 6
    ensures var ts := [(Type(a), ps[0]), (DoubleAnd, ps[1]), (Type(b), ps[2]),
                       (DoubleEqual, ps[3]), (Type(c), ps[4]), (EOF, ps[5])];
      Parse(ts, 0) == Ok(Bin(Lit(a, ps[0]), DoubleAnd, Bin(Lit(b, ps[2]), DoubleEqual, Lit(c, ps[4]))))
  {
    var ts := [(Type(a), ps[0]), (DoubleAnd, ps[1]), (Type(b), ps[2]),
               (DoubleEqual, ps[3]), (Type(c), ps[4]), (EOF, ps[5])];
    ConjunctionOfComparison(ts, 0);
  }
}
