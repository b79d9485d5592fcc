/**
 * The recursive-descent parser (src/interpreter/ast/mod.rs).
 *
 * The functions say what each parsing function of the source returns when
 * the cursor is at index `i` of the token list: the node and the index after
 * it, or the error. The `Parser` class is the cursor object of the source;
 * each of its methods is proved to return what the function for its index says.
 */
module Grammar {
  import opened Wrappers
  import opened Positions
  import opened Errors
  import opened Idents
  import opened Keywords
  import opened Types
  import opened Tokens
  import opened Nodes

  type TokenList = seq<(Token, Position)>

  /** A successful parse: the node and the index of the first token after it. */
  datatype Parsed = Parsed(node: Node, next: nat)

  /** The parsing functions `binary_operation` is handed; each comes with its own operator list. */
  datatype Func = AtomF | TermF | ArithExprF | CompExprF

  /** The operators `binary_operation` folds over for each function it is handed. */
  function Operations(f: Func): seq<Token> {
    match f
    case AtomF => [Star, Slash]
    case TermF => [Token.Plus, Token.Minus]
    case ArithExprF => [DoubleEqual, NonEqual, LessThan, GreaterThan, LessThanEq, GreaterThanEq]
    case CompExprF => [DoubleAnd, DoubleOr]
  }

  /** `current_token`: the token under the cursor, if the cursor is inside the list. */
  function TokenAt(ts: TokenList, i: int): Option<(Token, Position)> {
    if 0 <= i < |ts| then Some(ts[i]) else None
  }

  /**
   * What the parser builds: binary nodes carry an operator token and span from
   * the start of their left operand to the end of their right one; no loop nodes.
   */
  predicate WellBuilt(n: Node)
    decreases n
  {
    match n.ty
    case Literal(_) => true
    case Var(_) => true
    case Assign(_, e) => WellBuilt(e)
    case Operation(BinaryOperationNode(l, t, r)) =>
      IsBinaryOperator(t) && n.pos == l.pos.Combine(r.pos) && WellBuilt(l) && WellBuilt(r)
    case Operation(UnaryOperationNode(_, m)) => WellBuilt(m)
    case IfNode(cases, e) =>
      (forall k :: 0 <= k < |cases| ==> WellBuilt(cases[k].condition) && WellBuilt(cases[k].expr)) &&
      (e.Some? ==> WellBuilt(e.value))
    case ForNode(_, _, _, _) => false
    case WhileNode(_, _) => false
  }

  /** No token from index `i` up to `j` is the end-of-file token. */
  predicate NoEOF(ts: TokenList, i: int, j: int)
    requires 0 <= i && j <= |ts|
  {
    forall k :: i <= k < j ==> ts[k].0 != EOF
  }

  /**
   * What every parsing function promises of a success at index `i`: it consumed
   * at least one token, never the end-of-file token, and built a well-built node.
   */
  predicate Progress(ts: TokenList, i: int, r: Result<Parsed, Error>)
    requires 0 <= i
  {
    r.Ok? ==> i < r.value.next <= |ts| && NoEOF(ts, i, r.value.next) && WellBuilt(r.value.node)
  }

  function SyntaxErr(message: string, pos: Option<Position>): Error {
    New(SyntaxError, message, pos)
  }

  /** `expr`: a `let` assignment, or `&&`/`||` folded over comparison expressions. */
  function Expr(ts: TokenList, i: nat): (r: Result<Parsed, Error>)
    requires i <= |ts|
    ensures Progress(ts, i, r)
    decreases |ts| - i, 20
  {
    if TokenAt(ts, i).Some? && TokenAt(ts, i).value.0 == Token.Keyword(Let) then
      if i + 1 < |ts| then
        var pos := ts[i + 1].1;
        if ts[i + 1].0.Ident? then
          var name := ts[i + 1].0.ident;
          if i + 2 < |ts| && ts[i + 2].0 == Token.Equal then
            var e :- Expr(ts, i + 3);
            Ok(Parsed(Node(Assign(name, e.node), pos), e.next))
          else Err(SyntaxErr("expected =", Some(pos)))
        else Err(SyntaxErr("expected identifier", Some(pos)))
      else Err(SyntaxErr("expected expression", None))
    else BinaryOperation(ts, i, CompExprF)
  }

  /** `binary_operation`: one operand, then a left fold over `operator operand` pairs. */
  function BinaryOperation(ts: TokenList, i: nat, f: Func): (r: Result<Parsed, Error>)
    requires i <= |ts|
    ensures Progress(ts, i, r)
    decreases |ts| - i, FuncRank(f) + 1
  {
    var left :- Call(ts, i, f);
    BinaryLoop(ts, f, left)
  }

  /** The loop of `binary_operation`, from the operand parsed so far. */
  function BinaryLoop(ts: TokenList, f: Func, left: Parsed): (r: Result<Parsed, Error>)
    requires left.next <= |ts| && WellBuilt(left.node)
    ensures r.Ok? ==> left.next <= r.value.next <= |ts| && NoEOF(ts, left.next, r.value.next) && WellBuilt(r.value.node)
    decreases |ts| - left.next, 0
  {
    var j := left.next;
    if j < |ts| && ts[j].0 in Operations(f) then
      var right :- Call(ts, j + 1, f);
      var node := Node(Operation(BinaryOperationNode(left.node, ts[j].0, right.node)), left.node.pos.Combine(right.node.pos));
      BinaryLoop(ts, f, Parsed(node, right.next))
    else Ok(left)
  }

  function FuncRank(f: Func): nat {
    match f
    case AtomF => 7
    case TermF => 10
    case ArithExprF => 13
    case CompExprF => 16
  }

  /** Calling the function `binary_operation` was handed. */
  function Call(ts: TokenList, i: nat, f: Func): (r: Result<Parsed, Error>)
    requires i <= |ts|
    ensures Progress(ts, i, r)
    decreases |ts| - i, FuncRank(f)
  {
    match f
    case AtomF => Atom(ts, i)
    case TermF => Term(ts, i)
    case ArithExprF => ArithExpr(ts, i)
    case CompExprF => CompExpr(ts, i)
  }

  /** `comp_expr`: a `!` prefix applies to a whole comparison expression; otherwise comparisons folded over arithmetic. */
  function CompExpr(ts: TokenList, i: nat): (r: Result<Parsed, Error>)
    requires i <= |ts|
    ensures Progress(ts, i, r)
    decreases |ts| - i, 15
  {
    if i < |ts| && ts[i].0 == Bang then
      var inner :- CompExpr(ts, i + 1);
      Ok(Parsed(Node(Operation(UnaryOperationNode(Not, inner.node)), ts[i].1), inner.next))
    else BinaryOperation(ts, i, ArithExprF)
  }

  /** `arith_expr`: `+`/`-` folded over terms. */
  function ArithExpr(ts: TokenList, i: nat): (r: Result<Parsed, Error>)
    requires i <= |ts|
    ensures Progress(ts, i, r)
    decreases |ts| - i, 12
  {
    BinaryOperation(ts, i, TermF)
  }

  /** `term`: `*`/`/` folded over atoms. */
  function Term(ts: TokenList, i: nat): (r: Result<Parsed, Error>)
    requires i <= |ts|
    ensures Progress(ts, i, r)
    decreases |ts| - i, 9
  {
    BinaryOperation(ts, i, AtomF)
  }

  /** `atom`: a literal, a variable, a signed atom, a parenthesised expression or an `if`. */
  function Atom(ts: TokenList, i: nat): (r: Result<Parsed, Error>)
    requires i <= |ts|
    ensures Progress(ts, i, r)
    decreases |ts| - i, 6
  {
    if i >= |ts| then Err(SyntaxErr("can't parse empty token", None))
    else
      var (token, pos) := ts[i];
      match token
      case Type(v) => Ok(Parsed(Node(Literal(v), pos), i + 1))
      case Ident(name) => Ok(Parsed(Node(Var(name), pos), i + 1))
      case Minus =>
        var inner :- Atom(ts, i + 1);
        Ok(Parsed(Node(Operation(UnaryOperationNode(UnaryOperation.Minus, inner.node)), pos), inner.next))
      case Plus =>
        var inner :- Atom(ts, i + 1);
        Ok(Parsed(Node(Operation(UnaryOperationNode(UnaryOperation.Plus, inner.node)), pos), inner.next))
      case EOF => Err(New(EndOfFile, "expected something but reached the end of file", Some(pos)))
      case LeftParenthesis =>
        var e :- Expr(ts, i + 1);
        if e.next < |ts| && ts[e.next].0 == RightParenthesis then Ok(Parsed(e.node, e.next + 1))
        else Err(SyntaxErr("expected )", Some(pos)))
      case Keyword(If) => IfExpr(ts, i, pos)
      case _ => Err(SyntaxErr(TokenText(token) + " is not valid in this context", Some(pos)))
  }

  /** The error `if_expr` reports where a `then` is missing: at the current token, if there is one. */
  function ExpectedThen(ts: TokenList, j: nat): Error {
    SyntaxErr("expected then", if j < |ts| then Some(ts[j].1) else None)
  }

  predicate IsKeywordAt(ts: TokenList, j: int, k: Keyword) {
    0 <= j < |ts| && ts[j].0 == Token.Keyword(k)
  }

  /** One `condition then expr` pair of `if_expr`, starting after the `if` or `elif`. */
  function IfCase(ts: TokenList, i: nat): (r: Result<(Case, nat), Error>)
    requires i <= |ts|
    ensures r.Ok? ==> i < r.value.1 <= |ts| && NoEOF(ts, i, r.value.1)
    ensures r.Ok? ==> WellBuilt(r.value.0.condition) && WellBuilt(r.value.0.expr)
    decreases |ts| - i, 21
  {
    var condition :- Expr(ts, i);
    if IsKeywordAt(ts, condition.next, Then) then
      var e :- Expr(ts, condition.next + 1);
      Ok((Case(condition.node, e.node), e.next))
    else Err(ExpectedThen(ts, condition.next))
  }

  /** The `elif` loop of `if_expr`: cases are appended in source order. */
  function ElifLoop(ts: TokenList, j: nat, cases: seq<Case>): (r: Result<(seq<Case>, nat), Error>)
    requires j <= |ts|
    requires forall k :: 0 <= k < |cases| ==> WellBuilt(cases[k].condition) && WellBuilt(cases[k].expr)
    ensures r.Ok? ==> j <= r.value.1 <= |ts| && NoEOF(ts, j, r.value.1)
    ensures r.Ok? ==> |r.value.0| >= |cases| && r.value.0[..|cases|] == cases
    ensures r.Ok? ==> forall k :: 0 <= k < |r.value.0| ==> WellBuilt(r.value.0[k].condition) && WellBuilt(r.value.0[k].expr)
    ensures r.Ok? ==> !IsKeywordAt(ts, r.value.1, Elif)
    decreases |ts| - j, 0
  {
    if IsKeywordAt(ts, j, Elif) then
      var c :- IfCase(ts, j + 1);
      ElifLoop(ts, c.1, cases + [c.0])
    else Ok((cases, j))
  }

  /** `if_expr` with the cursor on the `if` at index `i`. */
  function IfExpr(ts: TokenList, i: nat, position: Position): (r: Result<Parsed, Error>)
    requires i < |ts|
    ensures r.Ok? ==> i < r.value.next <= |ts| && NoEOF(ts, i + 1, r.value.next) && WellBuilt(r.value.node)
    ensures r.Ok? ==> r.value.node.ty.IfNode? && r.value.node.pos.index == position.index
    ensures r.Ok? ==> IfCase(ts, i + 1).Ok? && |r.value.node.ty.cases| > 0 &&
                      r.value.node.ty.cases[0] == IfCase(ts, i + 1).value.0
    decreases |ts| - i, 5
  {
    var first :- IfCase(ts, i + 1);
    IfFrom(ts, first.1, [first.0], position)
  }

  /** The rest of `if_expr` once the cases before index `j` are parsed. */
  function IfFrom(ts: TokenList, j: nat, cases: seq<Case>, position: Position): (r: Result<Parsed, Error>)
    requires j <= |ts|
    requires forall k :: 0 <= k < |cases| ==> WellBuilt(cases[k].condition) && WellBuilt(cases[k].expr)
    ensures r.Ok? ==> j <= r.value.next <= |ts| && NoEOF(ts, j, r.value.next) && WellBuilt(r.value.node)
    ensures r.Ok? ==> r.value.node.ty.IfNode? && r.value.node.pos.index == position.index
    ensures r.Ok? ==> |r.value.node.ty.cases| >= |cases| && r.value.node.ty.cases[..|cases|] == cases
    decreases |ts| - j, 2
  {
    var (all, k) :- ElifLoop(ts, j, cases);
    IfTail(ts, k, all, position)
  }

  /** The optional `else` of `if_expr` at index `j`, and the span of the whole `if`. */
  function IfTail(ts: TokenList, j: nat, cases: seq<Case>, position: Position): (r: Result<Parsed, Error>)
    requires j <= |ts|
    requires forall k :: 0 <= k < |cases| ==> WellBuilt(cases[k].condition) && WellBuilt(cases[k].expr)
    ensures r.Ok? ==> j <= r.value.next <= |ts| && NoEOF(ts, j, r.value.next) && WellBuilt(r.value.node)
    ensures r.Ok? ==> r.value.node.ty.IfNode? && r.value.node.ty.cases == cases && r.value.node.pos.index == position.index
    ensures r.Ok? ==> (r.value.node.ty.elseCase.Some? <==> IsKeywordAt(ts, j, Else))
    decreases |ts| - j, 1
  {
    var (elseCase, k) :-
      if IsKeywordAt(ts, j, Else) then
        var e :- Expr(ts, j + 1);
        Ok((Some(e.node), e.next))
      else Ok((None, j));
    var pos := if k < |ts| then position.Combine(ts[k].1) else position;
    Ok(Parsed(Node(IfNode(cases, elseCase), pos), k))
  }

  /** `parse` with the cursor at `i`: an expression followed by `EOF` or by nothing. */
  function Parse(ts: TokenList, i: nat): (r: Result<Node, Error>)
    requires i <= |ts|
    ensures r.Ok? ==> Expr(ts, i).Ok? && r.value == Expr(ts, i).value.node
    ensures r.Ok? ==> WellBuilt(r.value)
  {
    var e :- Expr(ts, i);
    if e.next < |ts| && ts[e.next].0 != EOF then
      Err(SyntaxErr("Expected one of the following: '+' '-' '*' or '/'", Some(ts[e.next].1)))
    else Ok(e.node)
  }

  /** The method result `r` and cursor `index` agree with what the function for the parse says. */
  predicate Agrees(spec: Result<Parsed, Error>, r: Result<Node, Error>, index: int) {
    match spec
    case Ok(p) => r == Ok(p.node) && index == p.next
    case Err(e) => r == Err(e)
  }
}

/** The `Parser` object of src/interpreter/ast/mod.rs, proved against the grammar functions. */
module Parsing {
  import opened Wrappers
  import opened Positions
  import opened Errors
  import opened Idents
  import opened Keywords
  import opened Types
  import opened Tokens
  import opened Nodes
  import opened Grammar

  /** The parser of the source: a token list and a cursor into it. */
  class Parser {
    var tokens: TokenList
    var index: int

    /** `Parser::new` starts before the first token and advances onto it. */
    constructor (tokens: TokenList)
      ensures this.tokens == tokens && index == 0
    {
      this.tokens := tokens;
      index := -1;
      new;
      var _ := Advance();
    }

    function CurrentToken(): (t: Option<(Token, Position)>)
      reads this
      ensures t.Some? <==> 0 <= index < |tokens|
      ensures t.Some? ==> t.value == tokens[index]
    {
      TokenAt(tokens, index)
    }

    method Advance() returns (t: Option<(Token, Position)>)
      modifies this
      ensures tokens == old(tokens) && index == old(index) + 1
      ensures t == CurrentToken()
    {
      index := index + 1;
      t := CurrentToken();
    }

    method Parse() returns (r: Result<Node, Error>)
      requires 0 <= index <= |tokens|
      modifies this
      ensures r == Grammar.Parse(old(tokens), old(index))
    {
      var e := Expr();
      if e.Err? {
        return Err(e.error);
      }
      var cur := CurrentToken();
      if cur.Some? && cur.value.0 != EOF {
        return Err(SyntaxErr("Expected one of the following: '+' '-' '*' or '/'", Some(cur.value.1)));
      }
      r := Ok(e.value);
    }

    method Expr() returns (r: Result<Node, Error>)
      requires 0 <= index <= |tokens|
      modifies this
      ensures tokens == old(tokens)
      ensures Agrees(Grammar.Expr(tokens, old(index)), r, index)
      decreases |tokens| - index, 20
    {
      var cur := CurrentToken();
      if cur.Some? && cur.value.0 == Token.Keyword(Let) {
        var c := Advance();
        if c.Some? {
          var pos := c.value.1;
          if c.value.0.Ident? {
            var name := c.value.0.ident;
            var c2 := Advance();
            if c2.Some? && c2.value.0 == Token.Equal {
              var _ := Advance();
              var e := Expr();
              if e.Err? {
                return Err(e.error);
              }
              return Ok(Node(Assign(name, e.value), pos));
            }
            return Err(SyntaxErr("expected =", Some(pos)));
          } else {
            return Err(SyntaxErr("expected identifier", Some(pos)));
          }
        } else {
          return Err(SyntaxErr("expected expression", None));
        }
      } else {
        r := BinaryOperation(CompExprF);
      }
    }

    /** `binary_operation`: the fold is a loop whose remaining work is `BinaryLoop` from `left`. */
    method BinaryOperation(f: Func) returns (r: Result<Node, Error>)
      requires 0 <= index <= |tokens|
      modifies this
      ensures tokens == old(tokens)
      ensures Agrees(Grammar.BinaryOperation(tokens, old(index), f), r, index)
      decreases |tokens| - index, FuncRank(f) + 1
    {
      ghost var i0 := index;
      var first := CallFunc(f);
      if first.Err? {
        return Err(first.error);
      }
      var left := first.value;
      while CurrentToken().Some? && CurrentToken().value.0 in Operations(f)
        invariant tokens == old(tokens)
        invariant i0 < index <= |tokens| && WellBuilt(left)
        invariant Grammar.BinaryOperation(tokens, i0, f) == BinaryLoop(tokens, f, Parsed(left, index))
        decreases |tokens| - index
      {
        var next := FoldStep(f, left);
        if next.Err? {
          return Err(next.error);
        }
        left := next.value;
      }
      r := Ok(left);
    }

    /** One turn of the `binary_operation` loop: the operator at the cursor and its right operand. */
    method FoldStep(f: Func, left: Node) returns (r: Result<Node, Error>)
      requires 0 <= index < |tokens| && tokens[index].0 in Operations(f) && WellBuilt(left)
      modifies this
      ensures tokens == old(tokens)
      ensures r.Ok? ==> old(index) < index <= |tokens| && WellBuilt(r.value)
      ensures r.Ok? ==> BinaryLoop(tokens, f, Parsed(left, old(index))) == BinaryLoop(tokens, f, Parsed(r.value, index))
      ensures r.Err? ==> BinaryLoop(tokens, f, Parsed(left, old(index))) == Err(r.error)
      decreases |tokens| - index, FuncRank(f) + 1
    {
      ghost var j := index;
      var operation := CurrentToken().value;
      var _ := Advance();
      var right := CallFunc(f);
      if right.Err? {
        assert Call(tokens, j + 1, f) == Err(right.error);
        return Err(right.error);
      }
      assert Call(tokens, j + 1, f) == Ok(Parsed(right.value, index));
      var node := Node(Operation(BinaryOperationNode(left, operation.0, right.value)), left.pos.Combine(right.value.pos));
      assert BinaryLoop(tokens, f, Parsed(left, j)) == BinaryLoop(tokens, f, Parsed(node, index));
      r := Ok(node);
    }

    /** Calling the function `binary_operation` was handed. */
    method CallFunc(f: Func) returns (r: Result<Node, Error>)
      requires 0 <= index <= |tokens|
      modifies this
      ensures tokens == old(tokens)
      ensures Agrees(Call(tokens, old(index), f), r, index)
      decreases |tokens| - index, FuncRank(f)
    {
      match f
      case AtomF => r := Atom();
      case TermF => r := Term();
      case ArithExprF => r := ArithExpr();
      case CompExprF => r := CompExpr();
    }

    method CompExpr() returns (r: Result<Node, Error>)
      requires 0 <= index <= |tokens|
      modifies this
      ensures tokens == old(tokens)
      ensures Agrees(Grammar.CompExpr(tokens, old(index)), r, index)
      decreases |tokens| - index, 15
    {
      var cur := CurrentToken();
      if cur.Some? && cur.value.0 == Bang {
        var pos := cur.value.1;
        var _ := Advance();
        var node := CompExpr();
        if node.Err? {
          return Err(node.error);
        }
        r := Ok(Node(Operation(UnaryOperationNode(Not, node.value)), pos));
      } else {
        r := BinaryOperation(ArithExprF);
      }
    }

    method ArithExpr() returns (r: Result<Node, Error>)
      requires 0 <= index <= |tokens|
      modifies this
      ensures tokens == old(tokens)
      ensures Agrees(Grammar.ArithExpr(tokens, old(index)), r, index)
      decreases |tokens| - index, 12
    {
      r := BinaryOperation(TermF);
    }

    method Term() returns (r: Result<Node, Error>)
      requires 0 <= index <= |tokens|
      modifies this
      ensures tokens == old(tokens)
      ensures Agrees(Grammar.Term(tokens, old(index)), r, index)
      decreases |tokens| - index, 9
    {
      r := BinaryOperation(AtomF);
    }

    method Atom() returns (r: Result<Node, Error>)
      requires 0 <= index <= |tokens|
      modifies this
      ensures tokens == old(tokens)
      ensures Agrees(Grammar.Atom(tokens, old(index)), r, index)
      decreases |tokens| - index, 6
    {
      var cur := CurrentToken();
      if cur.None? {
        return Err(SyntaxErr("can't parse empty token", None));
      }
      var (token, pos) := cur.value;
      match token
      case Type(v) =>
        var _ := Advance();
        r := Ok(Node(Literal(v), pos));
      case Ident(name) =>
        var _ := Advance();
        r := Ok(Node(Var(name), pos));
      case Minus =>
        r := SignedAtom(UnaryOperation.Minus, pos);
      case Plus =>
        r := SignedAtom(UnaryOperation.Plus, pos);
      case EOF =>
        r := Err(New(EndOfFile, "expected something but reached the end of file", Some(pos)));
      case LeftParenthesis =>
        r := Parenthesised(pos);
      case Keyword(If) =>
        r := IfExpr(pos);
      case _ =>
        r := Err(SyntaxErr(TokenText(token) + " is not valid in this context", Some(pos)));
    }

    /** The sign branch of `atom`: the sign at the cursor applies to the atom after it. */
    method SignedAtom(sign: UnaryOperation, pos: Position) returns (r: Result<Node, Error>)
      requires 0 <= index < |tokens|
      requires sign != Not && tokens[index] == (if sign == UnaryOperation.Minus then Token.Minus else Token.Plus, pos)
      modifies this
      ensures tokens == old(tokens)
      ensures Agrees(Grammar.Atom(tokens, old(index)), r, index)
      decreases |tokens| - index, 5
    {
      var _ := Advance();
      var inner := Atom();
      if inner.Err? {
        return Err(inner.error);
      }
      r := Ok(Node(Operation(UnaryOperationNode(sign, inner.value)), pos));
    }

    /** The parenthesis branch of `atom`: an expression, then a closing parenthesis. */
    method Parenthesised(pos: Position) returns (r: Result<Node, Error>)
      requires 0 <= index < |tokens| && tokens[index] == (LeftParenthesis, pos)
      modifies this
      ensures tokens == old(tokens)
      ensures Agrees(Grammar.Atom(tokens, old(index)), r, index)
      decreases |tokens| - index, 5
    {
      var _ := Advance();
      var e := Expr();
      if e.Err? {
        return Err(e.error);
      }
      var c := CurrentToken();
      if c.Some? && c.value.0 == RightParenthesis {
        var _ := Advance();
        r := Ok(e.value);
      } else {
        r := Err(SyntaxErr("expected )", Some(pos)));
      }
    }

    /** `if_expr`, entered with the cursor on the `if`. */
    method IfExpr(position: Position) returns (r: Result<Node, Error>)
      requires 0 <= index < |tokens|
      modifies this
      ensures tokens == old(tokens)
      ensures Agrees(Grammar.IfExpr(tokens, old(index), position), r, index)
      decreases |tokens| - index, 5
    {
      ghost var i0 := index;
      var first := IfCase();
      if first.Err? {
        return Err(first.error);
      }
      var cases := [first.value];
      while IsKeywordAt(tokens, index, Elif)
        invariant tokens == old(tokens)
        invariant i0 < index <= |tokens|
        invariant forall k :: 0 <= k < |cases| ==> WellBuilt(cases[k].condition) && WellBuilt(cases[k].expr)
        invariant Grammar.IfExpr(tokens, i0, position) == IfFrom(tokens, index, cases, position)
        decreases |tokens| - index
      {
        var c := IfCase();
        if c.Err? {
          return Err(c.error);
        }
        cases := cases + [c.value];
      }
      r := IfTail(cases, position);
    }

    /** The `else` branch and the span at the end of `if_expr`. */
    method IfTail(cases: seq<Case>, position: Position) returns (r: Result<Node, Error>)
      requires 0 <= index <= |tokens|
      requires forall k :: 0 <= k < |cases| ==> WellBuilt(cases[k].condition) && WellBuilt(cases[k].expr)
      modifies this
      ensures tokens == old(tokens)
      ensures Agrees(Grammar.IfTail(tokens, old(index), cases, position), r, index)
      decreases |tokens| - index, 3
    {
      var elseCase: Option<Node> := None;
      if IsKeywordAt(tokens, index, Else) {
        var _ := Advance();
        var e := Expr();
        if e.Err? {
          return Err(e.error);
        }
        elseCase := Some(e.value);
      }
      var cur := CurrentToken();
      var pos := if cur.Some? then position.Combine(cur.value.1) else position;
      r := Ok(Node(IfNode(cases, elseCase), pos));
    }

    /** Skips the `if` or `elif` under the cursor and parses `condition then expr`. */
    method IfCase() returns (r: Result<Case, Error>)
      requires 0 <= index < |tokens|
      modifies this
      ensures tokens == old(tokens)
      ensures var spec := Grammar.IfCase(tokens, old(index) + 1);
        match spec
        case Ok((c, next)) => r == Ok(c) && index == next
        case Err(e) => r == Err(e)
      decreases |tokens| - index, 4
    {
      var _ := Advance();
      var condition := Expr();
      if condition.Err? {
        return Err(condition.error);
      }
      var cur := CurrentToken();
      if !(cur.Some? && cur.value.0 == Token.Keyword(Then)) {
        var pos := if cur.Some? then Some(cur.value.1) else None;
        return Err(SyntaxErr("expected then", pos));
      }
      var _ := Advance();
      var e := Expr();
      if e.Err? {
        return Err(e.error);
      }
      r := Ok(Case(condition.value, e.value));
    }
  }
}
