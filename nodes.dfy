/**
 * Syntax tree nodes (src/interpreter/ast/nodes.rs). A node pairs a node type
 * with its span; the getters of the source are the destructors here. The
 * node types are the union of the ones the parser builds and the evaluator
 * visits.
 */
module Nodes {
  import opened Wrappers
  import opened Positions
  import opened Idents
  import opened Types
  import opened Tokens

  datatype Node = Node(ty: NodeType, pos: Position)

  /** One `if`/`elif` branch: a condition and the expression evaluated when it is truthy. */
  datatype Case = Case(condition: Node, expr: Node)

  datatype NodeType =
    | Literal(value: Type)
    | Operation(op: OperationType)
    | Var(name: Ident)
    | Assign(name: Ident, expr: Node)
    | IfNode(cases: seq<Case>, elseCase: Option<Node>)
    | ForNode(varName: Ident, start: Node, end: Node, body: Node)
    | WhileNode(cond: Node, body: Node)

  datatype UnaryOperation = Plus | Minus | Not

  datatype OperationType =
    | BinaryOperationNode(left: Node, operation: Token, right: Node)
    | UnaryOperationNode(sign: UnaryOperation, node: Node)

  /** The tokens that name a binary operator. */
  predicate IsBinaryOperator(t: Token) {
    t.Plus? || t.Minus? || t.Star? || t.Slash? || t.DoubleEqual? || t.NonEqual? ||
    t.LessThan? || t.GreaterThan? || t.LessThanEq? || t.GreaterThanEq? || t.DoubleAnd? || t.DoubleOr?
  }

  /** `Display for Sign`. A `!` node carries no `Sign`, so `Printable` leaves it out. */
  function UnaryText(u: UnaryOperation): string
    requires u != Not
  {
    if u == UnaryOperation.Plus then "+" else "-"
  }

  /** The trees `Display` covers: literals, operations on binary-operator tokens, and signed operands. */
  predicate Printable(n: Node)
    decreases n, 1
  {
    match n.ty
    case Literal(_) => true
    case Operation(op) => OperationPrintable(op, n)
    case _ => false
  }

  predicate OperationPrintable(op: OperationType, parent: Node)
    requires parent.ty == Operation(op)
    decreases parent, 0
  {
    match op
    case BinaryOperationNode(l, t, r) => IsBinaryOperator(t) && Printable(l) && Printable(r)
    case UnaryOperationNode(u, m) => u != Not && Printable(m)
  }

  /**
   * `Display for Node`: a literal prints its value, an operation is wrapped in
   * parentheses, a binary operation prints left, operator and right with no
   * spaces, and a unary one adds a second pair of parentheses around sign and operand.
   */
  function NodeText(n: Node): string
    requires Printable(n)
    decreases n, 1
  {
    match n.ty
    case Literal(v) => TypeText(v)
    case Operation(op) => "(" + OperationText(op, n) + ")"
  }

  function OperationText(op: OperationType, parent: Node): string
    requires parent.ty == Operation(op) && OperationPrintable(op, parent)
    decreases parent, 0
  {
    match op
    case BinaryOperationNode(l, t, r) => NodeText(l) + TokenText(t) + NodeText(r)
    case UnaryOperationNode(u, m) => "(" + UnaryText(u) + NodeText(m) + ")"
  }

  /** Occurrences of `c` in `s`. */
  function Count(c: char, s: string): nat {
    if s == [] then 0 else (if s[0] == c then 1 else 0) + Count(c, s[1..])
  }

  lemma {:induction false} CountAppend(c: char, a: string, b: string)
    ensures Count(c, a + b) == Count(c, a) + Count(c, b)
  {
    if a != [] {
      assert (a + b)[1..] == a[1..] + b;
      CountAppend(c, a[1..], b);
    } else {
      assert a + b == b;
    }
  }

  lemma {:induction false} CountAbsent(c: char, s: string)
    requires forall i :: 0 <= i < |s| ==> s[i] != c
    ensures Count(c, s) == 0
  {
    if s != [] {
      CountAbsent(c, s[1..]);
    }
  }

  /** The number of pairs of parentheses `Display` writes around a tree. */
  function Wrappings(n: Node): nat
    requires Printable(n)
    decreases n, 1
  {
    match n.ty
    case Literal(_) => 0
    case Operation(op) => 1 + OperationWrappings(op, n)
  }

  function OperationWrappings(op: OperationType, parent: Node): nat
    requires parent.ty == Operation(op) && OperationPrintable(op, parent)
    decreases parent, 0
  {
    match op
    case BinaryOperationNode(l, _, r) => Wrappings(l) + Wrappings(r)
    case UnaryOperationNode(_, m) => 1 + Wrappings(m)
  }

  lemma NoParenthesesInValues(v: Type, t: Token)
    requires IsBinaryOperator(t)
    ensures Count('(', TypeText(v)) == 0 && Count(')', TypeText(v)) == 0
    ensures Count('(', TokenText(t)) == 0 && Count(')', TokenText(t)) == 0
  {
    var s := TypeText(v);
    CountAbsent('(', s);
    CountAbsent(')', s);
    CountAbsent('(', TokenText(t));
    CountAbsent(')', TokenText(t));
  }

  /**
   * The printed tree is balanced: it holds as many '(' as ')', one of each for
   * every operation node and one more for every unary node.
   */
  lemma {:induction false} NodeTextBalanced(n: Node)
    requires Printable(n)
    ensures Count('(', NodeText(n)) == Wrappings(n)
    ensures Count(')', NodeText(n)) == Wrappings(n)
    decreases n, 1
  {
    match n.ty
    case Literal(v) =>
      NoParenthesesInValues(v, Token.Plus);
    case Operation(op) =>
      OperationTextBalanced(op, n);
      var inner := OperationText(op, n);
      CountAppend('(', "(" + inner, ")");
      CountAppend('(', "(", inner);
      CountAppend(')', "(" + inner, ")");
      CountAppend(')', "(", inner);
  }

  lemma {:induction false} OperationTextBalanced(op: OperationType, parent: Node)
    requires parent.ty == Operation(op) && OperationPrintable(op, parent)
    ensures Count('(', OperationText(op, parent)) == OperationWrappings(op, parent)
    ensures Count(')', OperationText(op, parent)) == OperationWrappings(op, parent)
    decreases parent, 0
  {
    match op
    case BinaryOperationNode(l, t, r) =>
      NodeTextBalanced(l);
      NodeTextBalanced(r);
      NoParenthesesInValues(NoneType, t);
      CountAppend('(', NodeText(l) + TokenText(t), NodeText(r));
      CountAppend('(', NodeText(l), TokenText(t));
      CountAppend(')', NodeText(l) + TokenText(t), NodeText(r));
      CountAppend(')', NodeText(l), TokenText(t));
    case UnaryOperationNode(u, m) =>
      NodeTextBalanced(m);
      var a := "(" + UnaryText(u);
      CountAppend('(', a + NodeText(m), ")");
      CountAppend('(', a, NodeText(m));
      CountAppend(')', a + NodeText(m), ")");
      CountAppend(')', a, NodeText(m));
      CountAbsent('(', UnaryText(u));
      CountAbsent(')', UnaryText(u));
      CountAppend('(', "(", UnaryText(u));
      CountAppend(')', "(", UnaryText(u));
  }

  /** Displaying `1+2` wrapped: "(1+2)"; the unary `-1` prints "((-1))". */
  lemma DisplayExamples(p: Position)
    ensures NodeText(Node(Operation(BinaryOperationNode(Node(Literal(Integer(1)), p), Token.Plus, Node(Literal(Integer(2)), p))), p)) == "(1+2)"
    ensures NodeText(Node(Operation(UnaryOperationNode(UnaryOperation.Minus, Node(Literal(Integer(1)), p))), p)) == "((-1))"
  {
    assert TypeText(Integer(1)) == "1" && TypeText(Integer(2)) == "2";
    var one := Node(Literal(Integer(1)), p);
    var sum := BinaryOperationNode(one, Token.Plus, Node(Literal(Integer(2)), p));
    assert OperationText(sum, Node(Operation(sum), p)) == "1+2";
    var neg := UnaryOperationNode(UnaryOperation.Minus, one);
    assert OperationText(neg, Node(Operation(neg), p)) == "(-1)";
  }
}
