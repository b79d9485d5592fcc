/**
 * The evaluator (src/interpreter/visit.rs, and the older `visit` functions of
 * src/interpreter/mod.rs, which are the same minus the two loops).
 *
 * Evaluation threads a `Context`: a position, an environment and the context
 * it was entered from. `while` and `for` need not terminate, so every
 * function takes a `fuel` bound that only loop iterations consume; running
 * out of it is the outcome `OutOfFuel`, which the source does not have.
 */
module Eval {
  import opened Wrappers
  import opened Positions
  import opened Errors
  import opened Idents
  import opened Types
  import opened Tokens
  import opened Stacks
  import opened Nodes

  datatype Context = Context(pos: Position, stack: Env, context: Option<Context>) {

    /**
     * `Context::combine`: the span runs from this position to the end of the
     * other, the environments are merged, and the enclosing context is this
     * one's if it has one, else the other's.
     */
    function Combine(other: Context): (c: Context)
      ensures c.pos == pos.Combine(other.pos)
      ensures c.stack == stack.Combine(other.stack)
      ensures c.context == if context.Some? then context else other.context
    {
      Context(pos.Combine(other.pos), stack.Combine(other.stack), if context.Some? then context else other.context)
    }

    /** The same context with `name` bound to `value` in its local environment. */
    function Bind(name: Ident, value: Type): (c: Context)
      ensures c.pos == pos && c.context == context && c.stack == stack.Set(name, value)
    {
      Context(pos, stack.Set(name, value), context)
    }
  }

  /** The chain of context positions, outermost last, as a traceback. */
  function ContextTrace(c: Context): (t: Trace)
    ensures t.pos == c.pos
    ensures t.context.Some? <==> c.context.Some?
    decreases c
  {
    Trace(c.pos, if c.context.Some? then Some(ContextTrace(c.context.value)) else None)
  }

  /** `with_context`: keep kind and message, locate the error at the context and its chain. */
  function WithContext(e: Error, c: Context): (r: Error)
    ensures r.kind == e.kind && r.message == e.message
    ensures r.position == Some(ContextTrace(c))
  {
    Error(e.kind, e.message, Some(ContextTrace(c)))
  }

  /** The result of a visit: a value and the new context, an error, or no fuel left. */
  datatype Outcome = Done(value: Type, ctx: Context) | Failed(error: Error) | OutOfFuel {
    predicate IsFailure() {
      !Done?
    }

    function PropagateFailure(): Outcome
      requires IsFailure()
    {
      this
    }

    function Extract(): (Type, Context)
      requires Done?
    {
      (value, ctx)
    }
  }

  /** A visit never removes a local binding: the names bound before are bound after. */
  predicate KeepsNames(before: Context, o: Outcome) {
    o.Done? ==> before.stack.symbols.Keys <= o.ctx.stack.symbols.Keys
  }

  /** The operator a binary-operation token applies; any other token is an error at `c`. */
  function Apply(t: Token, a: Type, b: Type, c: Context): (r: Result<Type, Error>)
    ensures !IsBinaryOperator(t) ==>
      r == Err(New(Undefined, "can't operate on token " + TokenText(t), Some(c.pos)))
  {
    match t
    case Plus => Add(a, b)
    case Minus => Sub(a, b)
    case Star => Mul(a, b)
    case Slash => Div(a, b)
    case DoubleEqual => Compare(Eq, a, b)
    case NonEqual => Compare(Neq, a, b)
    case LessThan => Compare(Lt, a, b)
    case GreaterThan => Compare(Gt, a, b)
    case LessThanEq => Compare(Lte, a, b)
    case GreaterThanEq => Compare(Gte, a, b)
    case DoubleAnd => And(a, b)
    case DoubleOr => Or(a, b)
    case _ => Err(New(Undefined, "can't operate on token " + TokenText(t), Some(c.pos)))
  }

  /** `visit`: dispatch on the node type. */
  function Visit(n: Node, ctx: Context, fuel: nat): (o: Outcome)
    ensures KeepsNames(ctx, o)
    decreases fuel, n, 2
  {
    match n.ty
    case Literal(v) => Done(v, ctx)
    case Operation(BinaryOperationNode(_, _, _)) => VisitBinaryOperation(n, ctx, fuel)
    case Operation(UnaryOperationNode(_, _)) => VisitUnaryOperation(n, ctx, fuel)
    case Var(name) => VisitVar(name, ctx)
    case Assign(_, _) => VisitAssignment(n, ctx, fuel)
    case IfNode(_, _) => IfCases(n, 0, ctx, fuel)
    case ForNode(_, _, _, _) => VisitForNode(n, ctx, fuel)
    case WhileNode(_, _) => WhileLoop(n, ctx, NoneType, fuel)
  }

  /** `visit_assignment`: evaluate the expression, then bind the name to its value in the resulting context. */
  function VisitAssignment(parent: Node, ctx: Context, fuel: nat): (o: Outcome)
    requires parent.ty.Assign?
    ensures KeepsNames(ctx, o)
    ensures o.Done? ==> o.ctx.stack.Get(parent.ty.name) == Some(o.value)
    decreases fuel, parent, 1
  {
    var (value, c) :- Visit(parent.ty.expr, ctx, fuel);
    SetGets(c.stack, parent.ty.name, value);
    Done(value, c.Bind(parent.ty.name, value))
  }

  lemma SetGets(e: Env, name: Ident, value: Type)
    ensures e.Set(name, value).Get(name) == Some(value)
    ensures e.Set(name, value).symbols.Keys == e.symbols.Keys + {name}
  {
  }

  /** `visit_var`: the value bound to the name, or a `NameError` at the context's position. */
  function VisitVar(name: Ident, ctx: Context): (o: Outcome)
    ensures o.Done? <==> ctx.stack.Get(name).Some?
    ensures o.Done? ==> o == Done(ctx.stack.Get(name).value, ctx)
    ensures o.Failed? ==> o.error == New(NameError, name.name + " is not defined", Some(ctx.pos))
  {
    match ctx.stack.Get(name)
    case Some(v) => Done(v, ctx)
    case None => Failed(New(NameError, IdentText(name) + " is not defined", Some(ctx.pos)))
  }

  /**
   * The loop of `visit_if_node` from case `k`: each condition is evaluated
   * against the original context; the first truthy one selects its
   * expression, again against the original context.
   */
  function IfCases(parent: Node, k: nat, ctx: Context, fuel: nat): (o: Outcome)
    requires parent.ty.IfNode? && k <= |parent.ty.cases|
    ensures KeepsNames(ctx, o)
    decreases fuel, parent, 0, |parent.ty.cases| - k
  {
    var cases := parent.ty.cases;
    if k == |cases| then
      match parent.ty.elseCase
      case Some(e) => Visit(e, ctx, fuel)
      case None => Done(NoneType, ctx)
    else
      assert cases[k] in cases;
      var (condition, _) :- Visit(cases[k].condition, ctx, fuel);
      match Bool(condition)
      case Err(e) => Failed(e)
      case Ok(true) => Visit(cases[k].expr, ctx, fuel)
      case Ok(false) => IfCases(parent, k + 1, ctx, fuel)
  }

  /**
   * `visit_for_node`: evaluate start, then end from the context start left;
   * set the variable to start - 1, then loop.
   */
  function VisitForNode(parent: Node, ctx: Context, fuel: nat): (o: Outcome)
    requires parent.ty.ForNode?
    ensures KeepsNames(ctx, o)
    decreases fuel, parent, 1
  {
    var ForNode(name, start, end, _) := parent.ty;
    var (s, c1) :- Visit(start, ctx, fuel);
    var (e, c2) :- Visit(end, c1, fuel);
    match Sub(s, Integer(1))
    case Err(err) => Failed(err)
    case Ok(init) =>
      SetGets(c2.stack, name, init);
      ForLoop(parent, e, c2.Bind(name, init), NoneType, fuel)
  }

  /**
   * The `while` loop of `visit_for_node`: while `end` compares greater than the
   * variable plus one, the variable steps by one and the body runs. The
   * variable is always bound locally, so the `unwrap` of the source never fails.
   */
  function ForLoop(parent: Node, end: Type, ctx: Context, ty: Type, fuel: nat): (o: Outcome)
    requires parent.ty.ForNode? && parent.ty.varName in ctx.stack.symbols
    ensures KeepsNames(ctx, o)
    decreases fuel, parent, 0
  {
    var name := parent.ty.varName;
    var current := ctx.stack.Get(name).value;
    match Add(current, Integer(1))
    case Err(err) => Failed(err)
    case Ok(next) =>
      match Cmp(end, next)
      case Err(err) => Failed(err)
      case Ok(Greater) =>
        if fuel == 0 then OutOfFuel
        else
          SetGets(ctx.stack, name, next);
          var (v, c) :- Visit(parent.ty.body, ctx.Bind(name, next), fuel - 1);
          ForLoop(parent, end, c, v, fuel - 1)
      case Ok(_) => Done(ty, ctx)
  }

  /**
   * `visit_while_node`: evaluate the condition; stop with the last body value
   * at the first falsy one, else run the body in the condition's context.
   * Every turn of the loop costs one unit of fuel.
   */
  function WhileLoop(parent: Node, ctx: Context, ty: Type, fuel: nat): (o: Outcome)
    requires parent.ty.WhileNode?
    ensures KeepsNames(ctx, o)
    decreases fuel, parent, 0
  {
    if fuel == 0 then OutOfFuel
    else
      var (condition, c1) :- Visit(parent.ty.cond, ctx, fuel - 1);
      match Bool(condition)
      case Err(err) => Failed(err)
      case Ok(false) => Done(ty, c1)
      case Ok(true) =>
        var (v, c2) :- Visit(parent.ty.body, c1, fuel - 1);
        WhileLoop(parent, c2, v, fuel - 1)
  }

  /**
   * `visit_binary_operation`: both operands are evaluated from the incoming
   * context, the two resulting contexts are combined, and an operator error
   * is located at the combined context.
   */
  function VisitBinaryOperation(parent: Node, ctx: Context, fuel: nat): (o: Outcome)
    requires parent.ty.Operation? && parent.ty.op.BinaryOperationNode?
    ensures KeepsNames(ctx, o)
    decreases fuel, parent, 1
  {
    var BinaryOperationNode(left, t, right) := parent.ty.op;
    var (l, lc) :- Visit(left, ctx, fuel);
    var (r, rc) :- Visit(right, ctx, fuel);
    var c := lc.Combine(rc);
    match Apply(t, l, r, c)
    case Ok(v) => Done(v, c)
    case Err(e) => Failed(WithContext(e, c))
  }

  /** The context `visit_unary_operation` returns: one character to the left, one longer, entered from `ctx`. */
  function UnaryContext(inner: Context, ctx: Context): (c: Context)
    ensures c.stack == ctx.stack && c.context == Some(ctx)
    ensures c.pos.index == inner.pos.index - 1 && c.pos.filename == inner.pos.filename
    ensures c.pos.line == inner.pos.line && c.pos.column == inner.pos.column
    ensures c.pos.len == (inner.pos.len + 1) % U64_MODULUS
  {
    var p := inner.pos;
    Context(Position(p.index - 1, p.filename, p.line, p.column, AsU64(p.len + 1)), ctx.stack, Some(ctx))
  }

  /** `visit_unary_operation`: `+` is the identity, `-` is `neg`, `!` is `not`. */
  function VisitUnaryOperation(parent: Node, ctx: Context, fuel: nat): (o: Outcome)
    requires parent.ty.Operation? && parent.ty.op.UnaryOperationNode?
    ensures KeepsNames(ctx, o)
    decreases fuel, parent, 1
  {
    var UnaryOperationNode(sign, node) := parent.ty.op;
    var (v, c) :- Visit(node, ctx, fuel);
    var result := match sign
      case Plus => Ok(v)
      case Minus => Neg(v)
      case Not => Types.Not(v);
    match result
    case Ok(r) => Done(r, UnaryContext(c, ctx))
    case Err(e) => Failed(e)
  }

  /** `visit_for_node` as the source runs it: a loop that reassigns the context and the last value. */
  method EvalForNode(parent: Node, ctx: Context, fuel: nat) returns (o: Outcome)
    requires parent.ty.ForNode?
    ensures o == VisitForNode(parent, ctx, fuel)
  {
    var ForNode(name, start, end, body) := parent.ty;
    var s := Visit(start, ctx, fuel);
    if !s.Done? {
      return s;
    }
    var e := Visit(end, s.ctx, fuel);
    if !e.Done? {
      return e;
    }
    var init := Sub(s.value, Integer(1));
    if init.Err? {
      return Failed(init.error);
    }
    SetGets(e.ctx.stack, name, init.value);
    var context := e.ctx.Bind(name, init.value);
    var ty := NoneType;
    var f := fuel;
    while true
      invariant name in context.stack.symbols
      invariant VisitForNode(parent, ctx, fuel) == ForLoop(parent, e.value, context, ty, f)
      decreases f
    {
      var next := Add(context.stack.Get(name).value, Integer(1));
      if next.Err? {
        return Failed(next.error);
      }
      var cmp := Cmp(e.value, next.value);
      if cmp.Err? {
        return Failed(cmp.error);
      }
      if cmp.value != Greater {
        return Done(ty, context);
      }
      if f == 0 {
        return OutOfFuel;
      }
      SetGets(context.stack, name, next.value);
      var res := Visit(body, context.Bind(name, next.value), f - 1);
      if !res.Done? {
        return res;
      }
      ty := res.value;
      context := res.ctx;
      f := f - 1;
    }
  }

  /** `visit_while_node` as the source runs it: a loop that reassigns the context and the last value. */
  method EvalWhileNode(parent: Node, ctx: Context, fuel: nat) returns (o: Outcome)
    requires parent.ty.WhileNode?
    ensures o == WhileLoop(parent, ctx, NoneType, fuel)
  {
    var context := ctx;
    var ty := NoneType;
    var f := fuel;
    while true
      invariant WhileLoop(parent, ctx, NoneType, fuel) == WhileLoop(parent, context, ty, f)
      decreases f
    {
      if f == 0 {
        return OutOfFuel;
      }
      var res := Visit(parent.ty.cond, context, f - 1);
      if !res.Done? {
        return res;
      }
      context := res.ctx;
      var truth := Bool(res.value);
      if truth.Err? {
        return Failed(truth.error);
      }
      if !truth.value {
        return Done(ty, context);
      }
      res := Visit(parent.ty.body, context, f - 1);
      if !res.Done? {
        return res;
      }
      ty := res.value;
      context := res.ctx;
      f := f - 1;
    }
  }
}
