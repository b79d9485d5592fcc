/**
 * The second set of parsing functions (src/interpreter/ast/exprs.rs): `while`,
 * `for`, and an `if` that takes no `then`. They drive the same `Parser` cursor;
 * their `expr`, `comp_expr` and `arith_expr` are those of the `Parser` and are
 * not repeated here.
 */
module ExprsGrammar {
  import opened Wrappers
  import opened Positions
  import opened Errors
  import opened Idents
  import opened Keywords
  import opened Tokens
  import opened Nodes
  import opened Grammar

  /** `while_expr` with the cursor on the `while` at index `i`. */
  function WhileExpr(ts: TokenList, i: nat, position: Position): (r: Result<Parsed, Error>)
    requires i < |ts|
    ensures r.Ok? ==> i < r.value.next <= |ts|
  {
    var cond :- Expr(ts, i + 1);
    if IsKeywordAt(ts, cond.next, Then) then
      var body :- Expr(ts, cond.next + 1);
      Ok(Parsed(Node(WhileNode(cond.node, body.node), position.Combine(body.node.pos)), body.next))
    else Err(SyntaxErr("expected 'then'", Some(position)))
  }

  /** `for_expr` with the cursor on the `for` at index `i`; every error is reported at `position`. */
  function ForExpr(ts: TokenList, i: nat, position: Position): (r: Result<Parsed, Error>)
    requires i < |ts|
    ensures r.Ok? ==> i < r.value.next <= |ts|
  {
    if i + 1 < |ts| && ts[i + 1].0.Ident? then
      if IsKeywordAt(ts, i + 2, In) then ForBounds(ts, i + 3, ts[i + 1].0.ident, position)
      else Err(SyntaxErr("expected 'in'", Some(position)))
    else Err(SyntaxErr("expected ident", Some(position)))
  }

  /** The part of `for_expr` after `in`: start, `to`, and the rest. */
  function ForBounds(ts: TokenList, j: nat, name: Ident, position: Position): (r: Result<Parsed, Error>)
    requires j <= |ts|
    ensures r.Ok? ==> j < r.value.next <= |ts|
  {
    var start :- Expr(ts, j);
    if IsKeywordAt(ts, start.next, To) then ForEnd(ts, start.next + 1, name, start.node, position)
    else Err(SyntaxErr("expected 'to'", Some(position)))
  }

  /** The part of `for_expr` after `to`: end, `then` and body. */
  function ForEnd(ts: TokenList, j: nat, name: Ident, start: Node, position: Position): (r: Result<Parsed, Error>)
    requires j <= |ts|
    ensures r.Ok? ==> j < r.value.next <= |ts|
  {
    var end :- Expr(ts, j);
    if IsKeywordAt(ts, end.next, Then) then
      var body :- Expr(ts, end.next + 1);
      Ok(Parsed(Node(ForNode(name, start, end.node, body.node), position.Combine(end.node.pos)), body.next))
    else Err(SyntaxErr("expected 'then'", Some(position)))
  }

  /** One case of this `if_expr`: a condition followed directly by its expression. */
  function IfCase(ts: TokenList, j: nat): (r: Result<(Case, nat), Error>)
    requires j <= |ts|
    ensures r.Ok? ==> j < r.value.1 <= |ts|
    ensures r.Ok? ==> WellBuilt(r.value.0.condition) && WellBuilt(r.value.0.expr)
  {
    var condition :- Expr(ts, j);
    var e :- Expr(ts, condition.next);
    Ok((Case(condition.node, e.node), e.next))
  }

  /** The `elif` loop of this `if_expr`: cases are appended in source order. */
  function ElifLoop(ts: TokenList, j: nat, cases: seq<Case>): (r: Result<(seq<Case>, nat), Error>)
    requires j <= |ts|
    requires forall k :: 0 <= k < |cases| ==> WellBuilt(cases[k].condition) && WellBuilt(cases[k].expr)
    ensures r.Ok? ==> j <= r.value.1 <= |ts| && |r.value.0| >= |cases| && r.value.0[..|cases|] == cases
    ensures r.Ok? ==> forall k :: 0 <= k < |r.value.0| ==> WellBuilt(r.value.0[k].condition) && WellBuilt(r.value.0[k].expr)
    ensures r.Ok? ==> !IsKeywordAt(ts, r.value.1, Elif)
    decreases |ts| - j
  {
    if IsKeywordAt(ts, j, Elif) then
      var c :- IfCase(ts, j + 1);
      ElifLoop(ts, c.1, cases + [c.0])
    else Ok((cases, j))
  }

  /** The rest of this `if_expr` once the cases before index `j` are parsed; the tail is that of the `Parser`. */
  function IfFrom(ts: TokenList, j: nat, cases: seq<Case>, position: Position): (r: Result<Parsed, Error>)
    requires j <= |ts|
    requires forall k :: 0 <= k < |cases| ==> WellBuilt(cases[k].condition) && WellBuilt(cases[k].expr)
    ensures r.Ok? ==> j <= r.value.next <= |ts|
  {
    var (all, k) :- ElifLoop(ts, j, cases);
    IfTail(ts, k, all, position)
  }

  /** `if_expr` of this file with the cursor on the `if` at index `i`: no `then` between condition and expression. */
  function IfExpr(ts: TokenList, i: nat, position: Position): (r: Result<Parsed, Error>)
    requires i < |ts|
    ensures r.Ok? ==> i < r.value.next <= |ts|
  {
    var first :- IfCase(ts, i + 1);
    IfFrom(ts, first.1, [first.0], position)
  }

  /** A `while` node spans from the keyword to the end of its body. */
  lemma WhileShape(ts: TokenList, i: nat, position: Position)
    requires i < |ts| && WhileExpr(ts, i, position).Ok?
    ensures var n := WhileExpr(ts, i, position).value.node;
      n.ty.WhileNode? && n.pos == position.Combine(n.ty.body.pos) &&
      n.pos.index == position.index && n.pos.line == position.line && n.pos.column == position.column
  {
  }

  /** A condition not followed by `then` is reported at the `while` keyword. */
  lemma WhileMissingThen(ts: TokenList, i: nat, position: Position)
    requires i < |ts|
    requires Expr(ts, i + 1).Ok? && !IsKeywordAt(ts, Expr(ts, i + 1).value.next, Then)
    ensures WhileExpr(ts, i, position) == Err(New(SyntaxError, "expected 'then'", Some(position)))
  {
  }

  /**
   * The errors of `for_expr` are all reported at the `for` keyword: a missing
   * variable, `in`, `to` or `then` gives its own message.
   */
  lemma ForErrors(ts: TokenList, i: nat, position: Position)
    requires i < |ts|
    ensures !(i + 1 < |ts| && ts[i + 1].0.Ident?) ==>
      ForExpr(ts, i, position) == Err(New(SyntaxError, "expected ident", Some(position)))
    ensures i + 1 < |ts| && ts[i + 1].0.Ident? && !IsKeywordAt(ts, i + 2, In) ==>
      ForExpr(ts, i, position) == Err(New(SyntaxError, "expected 'in'", Some(position)))
    ensures (i + 1 < |ts| && ts[i + 1].0.Ident? && IsKeywordAt(ts, i + 2, In) &&
             Expr(ts, i + 3).Ok? && !IsKeywordAt(ts, Expr(ts, i + 3).value.next, To)) ==>
      ForExpr(ts, i, position) == Err(New(SyntaxError, "expected 'to'", Some(position)))
  {
  }

  /** A `for` node keeps variable, start, end and body in source order, spans from the keyword to the end bound and ends where the body ends. */
  lemma ForShape(ts: TokenList, i: nat, position: Position)
    requires i < |ts| && ForExpr(ts, i, position).Ok?
    ensures var n := ForExpr(ts, i, position).value.node;
      var start := Expr(ts, i + 3);
      n.ty.ForNode? && i + 3 <= |ts| && start.Ok? &&
      n.ty.varName == ts[i + 1].0.ident && n.ty.start == start.value.node &&
      IsKeywordAt(ts, start.value.next, To) && start.value.next + 1 <= |ts| &&
      Expr(ts, start.value.next + 1).Ok? && n.ty.end == Expr(ts, start.value.next + 1).value.node &&
      n.pos == position.Combine(n.ty.end.pos)
    ensures var start := Expr(ts, i + 3).value;
      var end := Expr(ts, start.next + 1).value;
      IsKeywordAt(ts, end.next, Then) && end.next + 1 <= |ts| && Expr(ts, end.next + 1).Ok? &&
      ForExpr(ts, i, position).value.node.ty.body == Expr(ts, end.next + 1).value.node &&
      ForExpr(ts, i, position).value.next == Expr(ts, end.next + 1).value.next
  {
  }

  /** Elif cases are kept in source order: the first case stays first, later ones follow it. */
  lemma IfCasesInOrder(ts: TokenList, i: nat, position: Position)
    requires i < |ts| && IfExpr(ts, i, position).Ok?
    ensures var n := IfExpr(ts, i, position).value.node;
      var first := IfCase(ts, i + 1);
      first.Ok? && n.ty.IfNode? && |n.ty.cases| >= 1 && n.ty.cases[0] == first.value.0
  {
    var first := IfCase(ts, i + 1).value;
    var (all, k) := ElifLoop(ts, first.1, [first.0]).value;
    assert all[..1] == [first.0];
    assert all[0] == all[..1][0];
  }
}

/** The functions of src/interpreter/ast/exprs.rs over the shared `Parser`. */
module Exprs {
  import opened Wrappers
  import opened Positions
  import opened Errors
  import opened Idents
  import opened Keywords
  import opened Tokens
  import opened Nodes
  import opened Grammar
  import ExprsGrammar
  import opened Parsing

  method WhileExpr(p: Parser, position: Position) returns (r: Result<Node, Error>)
    requires 0 <= p.index < |p.tokens|
    modifies p
    ensures p.tokens == old(p.tokens)
    ensures Agrees(ExprsGrammar.WhileExpr(p.tokens, old(p.index), position), r, p.index)
  {
    ghost var ts, i := p.tokens, p.index;
    var _ := p.Advance();
    var cond := p.Expr();
    ghost var c := Grammar.Expr(ts, i + 1);
    if cond.Err? {
      assert c.Err? && ExprsGrammar.WhileExpr(ts, i, position) == Err(c.error);
      return Err(cond.error);
    }
    assert c.Ok? && p.index == c.value.next && cond.value == c.value.node;
    var cur := p.CurrentToken();
    if cur.Some? && cur.value.0 == Token.Keyword(Then) {
      assert IsKeywordAt(ts, c.value.next, Then);
      var _ := p.Advance();
      var body := p.Expr();
      ghost var b := Grammar.Expr(ts, c.value.next + 1);
      if body.Err? {
        assert b.Err? && ExprsGrammar.WhileExpr(ts, i, position) == Err(b.error);
        return Err(body.error);
      }
      assert b.Ok? && p.index == b.value.next && body.value == b.value.node;
      assert ExprsGrammar.WhileExpr(ts, i, position) ==
        Ok(Parsed(Node(WhileNode(c.value.node, b.value.node), position.Combine(b.value.node.pos)), b.value.next));
      r := Ok(Node(WhileNode(cond.value, body.value), position.Combine(body.value.pos)));
    } else {
      assert !IsKeywordAt(ts, c.value.next, Then);
      r := Err(SyntaxErr("expected 'then'", Some(position)));
    }
  }

  method ForExpr(p: Parser, position: Position) returns (r: Result<Node, Error>)
    requires 0 <= p.index < |p.tokens|
    modifies p
    ensures p.tokens == old(p.tokens)
    ensures Agrees(ExprsGrammar.ForExpr(p.tokens, old(p.index), position), r, p.index)
  {
    var cur := p.Advance();
    if !(cur.Some? && cur.value.0.Ident?) {
      return Err(SyntaxErr("expected ident", Some(position)));
    }
    var varName := cur.value.0.ident;
    cur := p.Advance();
    if !(cur.Some? && cur.value.0 == Token.Keyword(In)) {
      return Err(SyntaxErr("expected 'in'", Some(position)));
    }
    var _ := p.Advance();
    r := ForBounds(p, varName, position);
  }

  /** The part of `for_expr` after `in`. */
  method ForBounds(p: Parser, varName: Ident, position: Position) returns (r: Result<Node, Error>)
    requires 0 <= p.index <= |p.tokens|
    modifies p
    ensures p.tokens == old(p.tokens)
    ensures Agrees(ExprsGrammar.ForBounds(p.tokens, old(p.index), varName, position), r, p.index)
  {
    var start := p.Expr();
    if start.Err? {
      return Err(start.error);
    }
    var cur := p.CurrentToken();
    if !(cur.Some? && cur.value.0 == Token.Keyword(To)) {
      return Err(SyntaxErr("expected 'to'", Some(position)));
    }
    var _ := p.Advance();
    r := ForEnd(p, varName, start.value, position);
  }

  /** The part of `for_expr` after `to`. */
  method ForEnd(p: Parser, varName: Ident, start: Node, position: Position) returns (r: Result<Node, Error>)
    requires 0 <= p.index <= |p.tokens|
    modifies p
    ensures p.tokens == old(p.tokens)
    ensures Agrees(ExprsGrammar.ForEnd(p.tokens, old(p.index), varName, start, position), r, p.index)
  {
    var end := p.Expr();
    if end.Err? {
      return Err(end.error);
    }
    var cur := p.CurrentToken();
    if !(cur.Some? && cur.value.0 == Token.Keyword(Then)) {
      return Err(SyntaxErr("expected 'then'", Some(position)));
    }
    var _ := p.Advance();
    var body := p.Expr();
    if body.Err? {
      return Err(body.error);
    }
    r := Ok(Node(ForNode(varName, start, end.value, body.value), position.Combine(end.value.pos)));
  }

  /** The `if_expr` of this file: each condition is followed directly by its expression. */
  method IfExpr(p: Parser, position: Position) returns (r: Result<Node, Error>)
    requires 0 <= p.index < |p.tokens|
    modifies p
    ensures p.tokens == old(p.tokens)
    ensures Agrees(ExprsGrammar.IfExpr(p.tokens, old(p.index), position), r, p.index)
  {
    ghost var i0 := p.index;
    var first := IfCase(p);
    if first.Err? {
      return Err(first.error);
    }
    var cases := [first.value];
    while IsKeywordAt(p.tokens, p.index, Elif)
      invariant p.tokens == old(p.tokens)
      invariant i0 < p.index <= |p.tokens|
      invariant forall k :: 0 <= k < |cases| ==> WellBuilt(cases[k].condition) && WellBuilt(cases[k].expr)
      invariant ExprsGrammar.IfExpr(p.tokens, i0, position) == ExprsGrammar.IfFrom(p.tokens, p.index, cases, position)
      decreases |p.tokens| - p.index
    {
      var c := IfCase(p);
      if c.Err? {
        return Err(c.error);
      }
      cases := cases + [c.value];
    }
    r := p.IfTail(cases, position);
  }

  /** Skips the `if` or `elif` under the cursor and parses a condition and its expression. */
  method IfCase(p: Parser) returns (r: Result<Case, Error>)
    requires 0 <= p.index < |p.tokens|
    modifies p
    ensures p.tokens == old(p.tokens)
    ensures match ExprsGrammar.IfCase(p.tokens, old(p.index) + 1)
      case Ok((c, next)) => r == Ok(c) && p.index == next
      case Err(e) => r == Err(e)
  {
    var _ := p.Advance();
    var condition := p.Expr();
    if condition.Err? {
      return Err(condition.error);
    }
    var expression := p.Expr();
    if expression.Err? {
      return Err(expression.error);
    }
    r := Ok(Case(condition.value, expression.value));
  }
}
