/** Properties of the evaluator (src/interpreter/visit.rs). */
module EvalProperties {
  import opened Wrappers
  import opened Positions
  import opened Errors
  import opened Idents
  import opened Types
  import opened Tokens
  import opened Stacks
  import opened Nodes
  import opened Eval

  // ---- fuel is only a bound ----

  /**
   * A visit that finishes with some fuel finishes the same way with more:
   * the fuel bound never changes a result, it only cuts off runs that go on.
   */
  lemma {:induction false} VisitMonotone(n: Node, ctx: Context, f: nat, g: nat)
    requires f <= g && !Visit(n, ctx, f).OutOfFuel?
    ensures Visit(n, ctx, g) == Visit(n, ctx, f)
    decreases f, n, 2
  {
    match n.ty
    case Literal(_) =>
    case Operation(BinaryOperationNode(_, _, _)) => BinaryMonotone(n, ctx, f, g);
    case Operation(UnaryOperationNode(_, _)) => UnaryMonotone(n, ctx, f, g);
    case Var(_) =>
    case Assign(_, _) => AssignmentMonotone(n, ctx, f, g);
    case IfNode(_, _) => IfCasesMonotone(n, 0, ctx, f, g);
    case ForNode(_, _, _, _) => ForNodeMonotone(n, ctx, f, g);
    case WhileNode(_, _) => WhileMonotone(n, ctx, NoneType, f, g);
  }

  lemma {:induction false} AssignmentMonotone(parent: Node, ctx: Context, f: nat, g: nat)
    requires parent.ty.Assign? && f <= g && !VisitAssignment(parent, ctx, f).OutOfFuel?
    ensures VisitAssignment(parent, ctx, g) == VisitAssignment(parent, ctx, f)
    decreases f, parent, 1
  {
    VisitMonotone(parent.ty.expr, ctx, f, g);
  }

  lemma {:induction false} IfCasesMonotone(parent: Node, k: nat, ctx: Context, f: nat, g: nat)
    requires parent.ty.IfNode? && k <= |parent.ty.cases|
    requires f <= g && !IfCases(parent, k, ctx, f).OutOfFuel?
    ensures IfCases(parent, k, ctx, g) == IfCases(parent, k, ctx, f)
    decreases f, parent, 0, |parent.ty.cases| - k
  {
    var cases := parent.ty.cases;
    if k == |cases| {
      if parent.ty.elseCase.Some? {
        VisitMonotone(parent.ty.elseCase.value, ctx, f, g);
      }
    } else {
      assert cases[k] in cases;
      var cond := Visit(cases[k].condition, ctx, f);
      VisitMonotone(cases[k].condition, ctx, f, g);
      if cond.Done? && Bool(cond.value) == Ok(true) {
        VisitMonotone(cases[k].expr, ctx, f, g);
      } else if cond.Done? && Bool(cond.value) == Ok(false) {
        IfCasesMonotone(parent, k + 1, ctx, f, g);
      }
    }
  }

  lemma {:induction false} ForNodeMonotone(parent: Node, ctx: Context, f: nat, g: nat)
    requires parent.ty.ForNode? && f <= g && !VisitForNode(parent, ctx, f).OutOfFuel?
    ensures VisitForNode(parent, ctx, g) == VisitForNode(parent, ctx, f)
    decreases f, parent, 1
  {
    var ForNode(name, start, end, _) := parent.ty;
    var s := Visit(start, ctx, f);
    VisitMonotone(start, ctx, f, g);
    if s.Done? {
      var e := Visit(end, s.ctx, f);
      VisitMonotone(end, s.ctx, f, g);
      if e.Done? && Sub(s.value, Integer(1)).Ok? {
        var init := Sub(s.value, Integer(1)).value;
        SetGets(e.ctx.stack, name, init);
        ForLoopMonotone(parent, e.value, e.ctx.Bind(name, init), NoneType, f, g);
      }
    }
  }

  lemma {:induction false} ForLoopMonotone(parent: Node, end: Type, ctx: Context, ty: Type, f: nat, g: nat)
    requires parent.ty.ForNode? && parent.ty.varName in ctx.stack.symbols
    requires f <= g && !ForLoop(parent, end, ctx, ty, f).OutOfFuel?
    ensures ForLoop(parent, end, ctx, ty, g) == ForLoop(parent, end, ctx, ty, f)
    decreases f, parent, 0
  {
    var name := parent.ty.varName;
    var next := Add(ctx.stack.Get(name).value, Integer(1));
    if next.Ok? && Cmp(end, next.value) == Ok(Greater) {
      SetGets(ctx.stack, name, next.value);
      var c := ctx.Bind(name, next.value);
      var res := Visit(parent.ty.body, c, f - 1);
      VisitMonotone(parent.ty.body, c, f - 1, g - 1);
      if res.Done? {
        ForLoopMonotone(parent, end, res.ctx, res.value, f - 1, g - 1);
      }
    }
  }

  lemma {:induction false} WhileMonotone(parent: Node, ctx: Context, ty: Type, f: nat, g: nat)
    requires parent.ty.WhileNode? && f <= g && !WhileLoop(parent, ctx, ty, f).OutOfFuel?
    ensures WhileLoop(parent, ctx, ty, g) == WhileLoop(parent, ctx, ty, f)
    decreases f, parent, 0
  {
    var cond := Visit(parent.ty.cond, ctx, f - 1);
    VisitMonotone(parent.ty.cond, ctx, f - 1, g - 1);
    if cond.Done? && Bool(cond.value) == Ok(true) {
      var body := Visit(parent.ty.body, cond.ctx, f - 1);
      VisitMonotone(parent.ty.body, cond.ctx, f - 1, g - 1);
      if body.Done? {
        WhileMonotone(parent, body.ctx, body.value, f - 1, g - 1);
      }
    }
  }

  lemma {:induction false} BinaryMonotone(parent: Node, ctx: Context, f: nat, g: nat)
    requires parent.ty.Operation? && parent.ty.op.BinaryOperationNode?
    requires f <= g && !VisitBinaryOperation(parent, ctx, f).OutOfFuel?
    ensures VisitBinaryOperation(parent, ctx, g) == VisitBinaryOperation(parent, ctx, f)
    decreases f, parent, 1
  {
    var BinaryOperationNode(left, _, right) := parent.ty.op;
    VisitMonotone(left, ctx, f, g);
    if Visit(left, ctx, f).Done? {
      VisitMonotone(right, ctx, f, g);
    }
  }

  lemma {:induction false} UnaryMonotone(parent: Node, ctx: Context, f: nat, g: nat)
    requires parent.ty.Operation? && parent.ty.op.UnaryOperationNode?
    requires f <= g && !VisitUnaryOperation(parent, ctx, f).OutOfFuel?
    ensures VisitUnaryOperation(parent, ctx, g) == VisitUnaryOperation(parent, ctx, f)
    decreases f, parent, 1
  {
    VisitMonotone(parent.ty.op.node, ctx, f, g);
  }

  // ---- for ----

  /** The body of a loop leaves the loop variable's local value as it found it. */
  ghost predicate KeepsVar(body: Node, name: Ident) {
    forall c: Context, f: nat ::
      name in c.stack.symbols && Visit(body, c, f).Done? ==>
        Visit(body, c, f).ctx.stack.symbols[name] == c.stack.symbols[name]
  }

  /**
   * From a variable holding `x` and an integer bound `b`, the loop steps the
   * variable up to `b - 1` (or leaves it at `x` when `x + 1 >= b`, returning
   * the value it was given without running the body).
   */
  lemma {:induction false} ForLoopCounts(parent: Node, b: int, ctx: Context, ty: Type, fuel: nat, x: int)
    requires parent.ty.ForNode? && parent.ty.varName in ctx.stack.symbols
    requires ctx.stack.symbols[parent.ty.varName] == Integer(x)
    requires KeepsVar(parent.ty.body, parent.ty.varName)
    ensures var o := ForLoop(parent, Integer(b), ctx, ty, fuel);
      o.Done? ==> parent.ty.varName in o.ctx.stack.symbols &&
                  o.ctx.stack.symbols[parent.ty.varName] == Integer(if x + 1 < b then b - 1 else x)
    ensures b <= x + 1 ==> ForLoop(parent, Integer(b), ctx, ty, fuel) == Done(ty, ctx)
    decreases fuel
  {
    var name := parent.ty.varName;
    assert ctx.stack.Get(name) == Some(Integer(x));
    if x + 1 < b && fuel > 0 {
      SetGets(ctx.stack, name, Integer(x + 1));
      var c := ctx.Bind(name, Integer(x + 1));
      var res := Visit(parent.ty.body, c, fuel - 1);
      if res.Done? {
        assert res.ctx.stack.symbols[name] == Integer(x + 1);
        ForLoopCounts(parent, b, res.ctx, res.value, fuel - 1, x + 1);
      }
    }
  }

  /**
   * While `x + 1 < b`, one turn binds the variable to `x + 1`, runs the body in
   * that context and goes on from the body's context, carrying the body's value.
   */
  lemma ForContinues(parent: Node, b: int, ctx: Context, ty: Type, fuel: nat, x: int)
    requires parent.ty.ForNode? && parent.ty.varName in ctx.stack.symbols
    requires ctx.stack.symbols[parent.ty.varName] == Integer(x) && x + 1 < b && fuel > 0
    ensures var body := Visit(parent.ty.body, ctx.Bind(parent.ty.varName, Integer(x + 1)), fuel - 1);
      body.Done? ==> parent.ty.varName in body.ctx.stack.symbols
    ensures var body := Visit(parent.ty.body, ctx.Bind(parent.ty.varName, Integer(x + 1)), fuel - 1);
      ForLoop(parent, Integer(b), ctx, ty, fuel) ==
        if body.Done? then ForLoop(parent, Integer(b), body.ctx, body.value, fuel - 1) else body
  {
    var name := parent.ty.varName;
    assert ctx.stack.Get(name) == Some(Integer(x));
    SetGets(ctx.stack, name, Integer(x + 1));
  }

  /**
   * `for v in a to b`: the bound is exclusive. After the loop the variable is
   * `a - 1 + max(0, b - a)`, so the body ran for `a, ..., b - 1`; when
   * `b <= a` the body never runs and the result is `None`.
   */
  lemma ForOverIntegers(parent: Node, ctx: Context, fuel: nat, a: int, b: int)
    requires parent.ty.ForNode? && KeepsVar(parent.ty.body, parent.ty.varName)
    requires Visit(parent.ty.start, ctx, fuel).Done? && Visit(parent.ty.start, ctx, fuel).value == Integer(a)
    requires var c1 := Visit(parent.ty.start, ctx, fuel).ctx;
      Visit(parent.ty.end, c1, fuel).Done? && Visit(parent.ty.end, c1, fuel).value == Integer(b)
    ensures var o := Visit(parent, ctx, fuel);
      o.Done? ==> parent.ty.varName in o.ctx.stack.symbols &&
                  o.ctx.stack.symbols[parent.ty.varName] == Integer(a - 1 + (if b > a then b - a else 0))
    ensures b <= a ==>
      var c2 := Visit(parent.ty.end, Visit(parent.ty.start, ctx, fuel).ctx, fuel).ctx;
      Visit(parent, ctx, fuel) == Done(NoneType, c2.Bind(parent.ty.varName, Integer(a - 1)))
  {
    var name := parent.ty.varName;
    var c2 := Visit(parent.ty.end, Visit(parent.ty.start, ctx, fuel).ctx, fuel).ctx;
    SetGets(c2.stack, name, Integer(a - 1));
    ForLoopCounts(parent, b, c2.Bind(name, Integer(a - 1)), NoneType, fuel, a - 1);
  }

  /** A start that is not an integer cannot be stepped down: a float is a type error, `None` has no `sub`. */
  lemma ForNeedsIntegerStart(parent: Node, ctx: Context, fuel: nat)
    requires parent.ty.ForNode?
    requires Visit(parent.ty.start, ctx, fuel).Done? && !Visit(parent.ty.start, ctx, fuel).value.Integer?
    requires Visit(parent.ty.end, Visit(parent.ty.start, ctx, fuel).ctx, fuel).Done?
    ensures var s := Visit(parent.ty.start, ctx, fuel).value;
      Visit(parent, ctx, fuel) == Failed(if s.Float? then NoValidType() else NotImplemented("sub"))
    ensures Visit(parent.ty.start, ctx, fuel).value.Float? ==> Visit(parent, ctx, fuel).error.kind == TypeError
  {
  }

  // ---- binary and unary operations ----

  /**
   * Both operands are evaluated from the same incoming context before the
   * operator is applied, so an error on the right is reported whatever the left is.
   */
  lemma BothOperandsEvaluated(parent: Node, ctx: Context, fuel: nat)
    requires parent.ty.Operation? && parent.ty.op.BinaryOperationNode?
    requires Visit(parent.ty.op.left, ctx, fuel).Done?
    ensures !Visit(parent.ty.op.right, ctx, fuel).Done? ==> Visit(parent, ctx, fuel) == Visit(parent.ty.op.right, ctx, fuel)
    ensures var l := Visit(parent.ty.op.left, ctx, fuel);
      var r := Visit(parent.ty.op.right, ctx, fuel);
      r.Done? ==>
        var c := l.ctx.Combine(r.ctx);
        match Apply(parent.ty.op.operation, l.value, r.value, c)
        case Ok(v) => Visit(parent, ctx, fuel) == Done(v, c)
        case Err(e) => Visit(parent, ctx, fuel) == Failed(WithContext(e, c)) &&
                       Visit(parent, ctx, fuel).error.position.value.pos == l.ctx.pos.Combine(r.ctx.pos)
  {
  }

  /** `0 && (1 / 0)` fails with the division error: `&&` does not short-circuit. */
  lemma AndDoesNotShortCircuit(ctx: Context, fuel: nat, p: seq<Position>)
    requires |p| == 5
    ensures var division := Node(Operation(BinaryOperationNode(Node(Literal(Integer(1)), p[0]), Slash, Node(Literal(Integer(0)), p[1]))), p[2]);
      var n := Node(Operation(BinaryOperationNode(Node(Literal(Integer(0)), p[3]), DoubleAnd, division)), p[4]);
      Visit(n, ctx, fuel).Failed? && Visit(n, ctx, fuel).error.kind == ZeroDivision &&
      Visit(n, ctx, fuel).error.message == "can't divide by 0"
  {
    var one, zero := Node(Literal(Integer(1)), p[0]), Node(Literal(Integer(0)), p[1]);
    var division := Node(Operation(BinaryOperationNode(one, Slash, zero)), p[2]);
    assert Visit(one, ctx, fuel) == Done(Integer(1), ctx);
    assert Visit(zero, ctx, fuel) == Done(Integer(0), ctx);
    var c := ctx.Combine(ctx);
    assert Apply(Slash, Integer(1), Integer(0), c) == Err(DivisionByZero());
    assert VisitBinaryOperation(division, ctx, fuel) == Failed(WithContext(DivisionByZero(), c));
    var n := Node(Operation(BinaryOperationNode(Node(Literal(Integer(0)), p[3]), DoubleAnd, division)), p[4]);
    assert Visit(Node(Literal(Integer(0)), p[3]), ctx, fuel).Done?;
    assert VisitBinaryOperation(n, ctx, fuel) == Visit(division, ctx, fuel);
  }

  /**
   * The context of a unary operation is the incoming one entered anew: its
   * stack is the incoming stack, so bindings made by the operand are dropped.
   */
  lemma UnaryResult(parent: Node, ctx: Context, fuel: nat)
    requires parent.ty.Operation? && parent.ty.op.UnaryOperationNode?
    requires Visit(parent.ty.op.node, ctx, fuel).Done?
    ensures var inner := Visit(parent.ty.op.node, ctx, fuel);
      var o := Visit(parent, ctx, fuel);
      (o.Done? ==> o.ctx == UnaryContext(inner.ctx, ctx)) &&
      match parent.ty.op.sign
      case Plus => o == Done(inner.value, UnaryContext(inner.ctx, ctx))
      case Minus => (o.Done? <==> Neg(inner.value).Ok?) && (o.Done? ==> Neg(inner.value) == Ok(o.value))
      case Not => (o.Done? <==> Types.Not(inner.value).Ok?) && (o.Done? ==> Types.Not(inner.value) == Ok(o.value))
  {
  }

  /** `-(let x = 1)` evaluates to -1 but leaves `x` unbound. */
  lemma NegatedAssignmentForgetsBinding(x: Ident, fuel: nat, pos: Position, p: seq<Position>)
    requires |p| == 3
    ensures var ctx := Context(pos, NewEnv(None), None);
      var n := Node(Operation(UnaryOperationNode(UnaryOperation.Minus, Node(Assign(x, Node(Literal(Integer(1)), p[0])), p[1]))), p[2]);
      Visit(n, ctx, fuel).Done? && Visit(n, ctx, fuel).value == Integer(-1) &&
      Visit(n, ctx, fuel).ctx.stack.Get(x) == None
  {
    var ctx := Context(pos, NewEnv(None), None);
    var lit := Node(Literal(Integer(1)), p[0]);
    var assign := Node(Assign(x, lit), p[1]);
    var n := Node(Operation(UnaryOperationNode(UnaryOperation.Minus, assign)), p[2]);
    assert Visit(lit, ctx, fuel) == Done(Integer(1), ctx);
    assert Visit(assign, ctx, fuel) == Done(Integer(1), ctx.Bind(x, Integer(1)));
    assert Neg(Integer(1)) == Ok(Integer(-1));
    assert VisitUnaryOperation(n, ctx, fuel) == Done(Integer(-1), UnaryContext(ctx.Bind(x, Integer(1)), ctx));
  }

  // ---- if and while ----

  ghost predicate Falsy(n: Node, ctx: Context, fuel: nat) {
    Visit(n, ctx, fuel).Done? && Bool(Visit(n, ctx, fuel).value) == Ok(false)
  }

  ghost predicate Truthy(n: Node, ctx: Context, fuel: nat) {
    Visit(n, ctx, fuel).Done? && Bool(Visit(n, ctx, fuel).value) == Ok(true)
  }

  /** From case `j`, the first case whose condition is truthy selects its expression, evaluated in the original context. */
  lemma {:induction false} IfFirstTruthyFrom(parent: Node, j: nat, k: nat, ctx: Context, fuel: nat)
    requires parent.ty.IfNode? && j <= k < |parent.ty.cases|
    requires forall i :: j <= i < k ==> Falsy(parent.ty.cases[i].condition, ctx, fuel)
    requires Truthy(parent.ty.cases[k].condition, ctx, fuel)
    ensures IfCases(parent, j, ctx, fuel) == Visit(parent.ty.cases[k].expr, ctx, fuel)
    decreases k - j
  {
    if j < k {
      assert Falsy(parent.ty.cases[j].condition, ctx, fuel);
      IfFirstTruthyFrom(parent, j + 1, k, ctx, fuel);
    }
  }

  /** `if`: the first truthy case wins, and its expression sees the original context. */
  lemma IfFirstTruthy(parent: Node, k: nat, ctx: Context, fuel: nat)
    requires parent.ty.IfNode? && k < |parent.ty.cases|
    requires forall i :: 0 <= i < k ==> Falsy(parent.ty.cases[i].condition, ctx, fuel)
    requires Truthy(parent.ty.cases[k].condition, ctx, fuel)
    ensures Visit(parent, ctx, fuel) == Visit(parent.ty.cases[k].expr, ctx, fuel)
  {
    IfFirstTruthyFrom(parent, 0, k, ctx, fuel);
  }

  lemma {:induction false} IfNoMatchFrom(parent: Node, j: nat, ctx: Context, fuel: nat)
    requires parent.ty.IfNode? && j <= |parent.ty.cases|
    requires forall i :: j <= i < |parent.ty.cases| ==> Falsy(parent.ty.cases[i].condition, ctx, fuel)
    ensures IfCases(parent, j, ctx, fuel) ==
      if parent.ty.elseCase.Some? then Visit(parent.ty.elseCase.value, ctx, fuel) else Done(NoneType, ctx)
    decreases |parent.ty.cases| - j
  {
    if j < |parent.ty.cases| {
      assert Falsy(parent.ty.cases[j].condition, ctx, fuel);
      IfNoMatchFrom(parent, j + 1, ctx, fuel);
    }
  }

  /** `if` with no truthy case: the `else` expression, or `None` and the context unchanged. */
  lemma IfNoMatch(parent: Node, ctx: Context, fuel: nat)
    requires parent.ty.IfNode?
    requires forall i :: 0 <= i < |parent.ty.cases| ==> Falsy(parent.ty.cases[i].condition, ctx, fuel)
    ensures Visit(parent, ctx, fuel) ==
      if parent.ty.elseCase.Some? then Visit(parent.ty.elseCase.value, ctx, fuel) else Done(NoneType, ctx)
  {
    IfNoMatchFrom(parent, 0, ctx, fuel);
  }

  /**
   * `while` stops at the first falsy condition, in the condition's context,
   * with the last body value; a loop whose condition is falsy at once gives `None`.
   */
  lemma WhileStops(parent: Node, ctx: Context, ty: Type, fuel: nat)
    requires parent.ty.WhileNode? && fuel > 0
    requires Falsy(parent.ty.cond, ctx, fuel - 1)
    ensures WhileLoop(parent, ctx, ty, fuel) == Done(ty, Visit(parent.ty.cond, ctx, fuel - 1).ctx)
    ensures Visit(parent, ctx, fuel) == Done(NoneType, Visit(parent.ty.cond, ctx, fuel - 1).ctx)
  {
  }

  /** While the condition is truthy, one turn runs the body in the condition's context and goes on from the body's. */
  lemma WhileContinues(parent: Node, ctx: Context, ty: Type, fuel: nat)
    requires parent.ty.WhileNode? && fuel > 0
    requires Truthy(parent.ty.cond, ctx, fuel - 1)
    ensures var c1 := Visit(parent.ty.cond, ctx, fuel - 1).ctx;
      var body := Visit(parent.ty.body, c1, fuel - 1);
      WhileLoop(parent, ctx, ty, fuel) ==
        if body.Done? then WhileLoop(parent, body.ctx, body.value, fuel - 1) else body
  {
  }

  // ---- variables and assignment ----

  /** An assignment binds the name, in the resulting context, to exactly the value it returns. */
  lemma AssignmentBinds(parent: Node, ctx: Context, fuel: nat)
    requires parent.ty.Assign? && Visit(parent, ctx, fuel).Done?
    ensures Visit(parent, ctx, fuel).ctx.stack.Get(parent.ty.name) == Some(Visit(parent, ctx, fuel).value)
    ensures Visit(parent.ty.expr, ctx, fuel).Done? && Visit(parent, ctx, fuel).value == Visit(parent.ty.expr, ctx, fuel).value
  {
  }

  /** A name is found when some environment along the chain binds it, else a `NameError` at the context's position. */
  lemma VarLookup(name: Ident, pos: Position, ctx: Context, fuel: nat)
    ensures var o := Visit(Node(Var(name), pos), ctx, fuel);
      (o.Done? <==> name in BoundNames(ctx.stack)) &&
      (o.Failed? ==> o.error == New(NameError, name.name + " is not defined", Some(ctx.pos)))
  {
    GetSomeIffBound(ctx.stack, name);
  }
}
