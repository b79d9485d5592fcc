/**
 * Runtime values and their operations: the `Type` sum and the default
 * "not implemented" methods (src/interpreter/token/types/mod.rs), and the
 * `Integer` and `Float` implementations (src/interpreter/token/types/number.rs).
 */
module Types {
  import opened Wrappers
  import opened Errors
  import opened Decimal

  /**
   * A runtime value. Integers are unbounded (the source's `i64`), floats are
   * exact reals (the source's `f64`), and `NoneType` is the value of an `if`
   * or loop that produced nothing.
   */
  datatype Type = Integer(ival: int) | Float(fval: real) | NoneType

  datatype CmpResult = Less | Equal | Greater

  /** `Display`. Float formatting is not modelled: every float prints the same placeholder. */
  function TypeText(t: Type): string {
    match t
    case Integer(v) => IntToString(v)
    case Float(_) => "<float>"
    case NoneType => "None"
  }

  /** The error a default method returns: kind `Undefined`, naming the method. */
  function NotImplemented(method_name: string): (e: Error)
    ensures e.kind == Undefined && e.position.None?
    ensures e.message == "method '" + method_name + "' is not implemented"
  {
    New(Undefined, "method '" + method_name + "' is not implemented", None)
  }

  /** The error of an operand of the wrong variant. */
  function NoValidType(): (e: Error)
    ensures e.kind == TypeError && e.message == "No valid type" && e.position.None?
  {
    New(TypeError, "No valid type", None)
  }

  function DivisionByZero(): (e: Error)
    ensures e.kind == ZeroDivision && e.message == "can't divide by 0" && e.position.None?
  {
    New(ZeroDivision, "can't divide by 0", None)
  }

  function Abs(x: int): nat {
    if x < 0 then -x else x
  }

  /** Rust's `/` on integers: the quotient truncated toward zero. */
  function TruncDiv(a: int, b: int): int
    requires b != 0
  {
    var q := Abs(a) / Abs(b);
    if (a < 0) == (b < 0) then q else -q
  }

  /**
   * Truncating division: `a == b * q + r` with the remainder smaller than the
   * divisor and carrying the sign of the dividend, the contract of Rust's `/`.
   */
  lemma TruncDivIsTruncating(a: int, b: int)
    requires b != 0
    ensures var q, r := TruncDiv(a, b), a - b * TruncDiv(a, b);
            Abs(r) < Abs(b) && (r == 0 || (r < 0) == (a < 0))
  {
    var n: int, d: int := Abs(a), Abs(b);
    var qa: int, m: int := n / d, n % d;
    assert n == d * qa + m && 0 <= m < d;
    MulNegations(d, qa);
    var q := TruncDiv(a, b);
    var r := a - b * q;
    if a >= 0 && b > 0 {
      assert a == n && b == d && q == qa;
      assert r == m;
    } else if a >= 0 {
      assert a == n && b == -d && q == -qa;
      assert b * q == d * qa;
      assert r == m;
    } else if b > 0 {
      assert a == -n && b == d && q == -qa;
      assert b * q == -(d * qa);
      assert r == -m;
    } else {
      assert a == -n && b == -d && q == qa;
      assert b * q == -(d * qa);
      assert r == -m;
    }
  }

  lemma MulNegations(x: int, y: int)
    ensures (-x) * y == -(x * y) && x * (-y) == -(x * y) && (-x) * (-y) == x * y
  {
  }

  // ---- number.rs: Integer ----

  /** `Cmp for Integer`: the order of the two integers; any other variant is a type error. */
  function IntegerCmp(a: int, other: Type): Result<CmpResult, Error> {
    match other
    case Integer(b) => Ok(if a < b then Less else if a == b then Equal else Greater)
    case _ => Err(NoValidType())
  }

  function IntegerAdd(a: int, other: Type): Result<Type, Error> {
    match other
    case Integer(b) => Ok(Integer(a + b))
    case _ => Err(NoValidType())
  }

  function IntegerSub(a: int, other: Type): Result<Type, Error> {
    match other
    case Integer(b) => Ok(Integer(a - b))
    case _ => Err(NoValidType())
  }

  function IntegerMul(a: int, other: Type): Result<Type, Error> {
    match other
    case Integer(b) => Ok(Integer(a * b))
    case _ => Err(NoValidType())
  }

  /** The zero test comes first, so only `Integer(0)` is a division by zero. */
  function IntegerDiv(a: int, other: Type): Result<Type, Error> {
    if other == Integer(0) then Err(DivisionByZero())
    else match other
      case Integer(b) => Ok(Integer(TruncDiv(a, b)))
      case _ => Err(NoValidType())
  }

  function IntegerNeg(a: int): Result<Type, Error> {
    Ok(Integer(-a))
  }

  function IntegerAnd(a: int, other: Type): Result<Type, Error> {
    match other
    case Integer(b) => Ok(Integer(if a != 0 && b != 0 then 1 else 0))
    case _ => Err(NoValidType())
  }

  function IntegerOr(a: int, other: Type): Result<Type, Error> {
    match other
    case Integer(b) => Ok(Integer(if a != 0 || b != 0 then 1 else 0))
    case _ => Err(NoValidType())
  }

  function IntegerNot(a: int): Result<Type, Error> {
    Ok(Integer(if a == 0 then 1 else 0))
  }

  function IntegerBool(a: int): Result<bool, Error> {
    Ok(a != 0)
  }

  // ---- number.rs: Float ----

  /** `Cmp for Float`; `partial_cmp` never fails on the reals that stand for the floats here. */
  function FloatCmp(x: real, other: Type): Result<CmpResult, Error> {
    match other
    case Float(y) => Ok(if x < y then Less else if x == y then Equal else Greater)
    case _ => Err(NoValidType())
  }

  function FloatAdd(x: real, other: Type): Result<Type, Error> {
    match other
    case Float(y) => Ok(Float(x + y))
    case _ => Err(NoValidType())
  }

  function FloatSub(x: real, other: Type): Result<Type, Error> {
    match other
    case Float(y) => Ok(Float(x - y))
    case _ => Err(NoValidType())
  }

  function FloatMul(x: real, other: Type): Result<Type, Error> {
    match other
    case Float(y) => Ok(Float(x * y))
    case _ => Err(NoValidType())
  }

  function FloatDiv(x: real, other: Type): Result<Type, Error> {
    if other == Float(0.0) then Err(DivisionByZero())
    else match other
      case Float(y) => Ok(Float(x / y))
      case _ => Err(NoValidType())
  }

  function FloatNeg(x: real): Result<Type, Error> {
    Ok(Float(-x))
  }

  function FloatBool(x: real): Result<bool, Error> {
    Ok(x != 0.0)
  }

  // ---- types/mod.rs: dispatch to the payload's implementation, else the default ----

  function Cmp(self: Type, other: Type): Result<CmpResult, Error> {
    match self
    case Integer(a) => IntegerCmp(a, other)
    case Float(x) => FloatCmp(x, other)
    case NoneType => Err(NotImplemented("cmp"))
  }

  function Add(self: Type, other: Type): Result<Type, Error> {
    match self
    case Integer(a) => IntegerAdd(a, other)
    case Float(x) => FloatAdd(x, other)
    case NoneType => Err(NotImplemented("add"))
  }

  function Sub(self: Type, other: Type): Result<Type, Error> {
    match self
    case Integer(a) => IntegerSub(a, other)
    case Float(x) => FloatSub(x, other)
    case NoneType => Err(NotImplemented("sub"))
  }

  function Mul(self: Type, other: Type): Result<Type, Error> {
    match self
    case Integer(a) => IntegerMul(a, other)
    case Float(x) => FloatMul(x, other)
    case NoneType => Err(NotImplemented("mul"))
  }

  function Div(self: Type, other: Type): Result<Type, Error> {
    match self
    case Integer(a) => IntegerDiv(a, other)
    case Float(x) => FloatDiv(x, other)
    case NoneType => Err(NotImplemented("div"))
  }

  function Neg(self: Type): Result<Type, Error> {
    match self
    case Integer(a) => IntegerNeg(a)
    case Float(x) => FloatNeg(x)
    case NoneType => Err(NotImplemented("neg"))
  }

  function And(self: Type, other: Type): Result<Type, Error> {
    match self
    case Integer(a) => IntegerAnd(a, other)
    case _ => Err(NotImplemented("and"))
  }

  function Or(self: Type, other: Type): Result<Type, Error> {
    match self
    case Integer(a) => IntegerOr(a, other)
    case _ => Err(NotImplemented("or"))
  }

  function Not(self: Type): Result<Type, Error> {
    match self
    case Integer(a) => IntegerNot(a)
    case _ => Err(NotImplemented("not"))
  }

  /** `__bool__`, the truthiness `if` and `while` test. */
  function Bool(self: Type): Result<bool, Error> {
    match self
    case Integer(a) => IntegerBool(a)
    case Float(x) => FloatBool(x)
    case NoneType => Err(NotImplemented("__bool__"))
  }

  /** The six comparison operators of the language. */
  datatype Relation = Eq | Neq | Lt | Gt | Lte | Gte

  function Holds(rel: Relation, o: CmpResult): bool {
    match rel
    case Eq => o == Equal
    case Neq => o != Equal
    case Lt => o == Less
    case Gt => o == Greater
    case Lte => o != Greater
    case Gte => o != Less
  }

  /** A comparison operator, defined once through `cmp`: 1 when it holds, else 0. */
  function Compare(rel: Relation, self: Type, other: Type): Result<Type, Error> {
    match Cmp(self, other)
    case Ok(o) => Ok(Integer(if Holds(rel, o) then 1 else 0))
    case Err(e) => Err(e)
  }

  // ---- properties ----

  /** A value whose variant overrides no method fails on every operator with the default error. */
  lemma NoneTypeImplementsNothing(x: Type)
    ensures Add(NoneType, x) == Err(NotImplemented("add"))
    ensures Sub(NoneType, x) == Err(NotImplemented("sub"))
    ensures Mul(NoneType, x) == Err(NotImplemented("mul"))
    ensures Div(NoneType, x) == Err(NotImplemented("div"))
    ensures Neg(NoneType) == Err(NotImplemented("neg"))
    ensures And(NoneType, x).Err? && Or(NoneType, x).Err? && Not(NoneType).Err?
    ensures Cmp(NoneType, x).Err? && Bool(NoneType).Err?
  {
  }

  /** Integer arithmetic is exact on two integers and a type error on any other right operand. */
  lemma IntegerArithmetic(a: int, other: Type)
    ensures other.Integer? ==>
              Add(Integer(a), other) == Ok(Integer(a + other.ival)) &&
              Sub(Integer(a), other) == Ok(Integer(a - other.ival)) &&
              Mul(Integer(a), other) == Ok(Integer(a * other.ival))
    ensures !other.Integer? ==>
              Add(Integer(a), other) == Err(NoValidType()) &&
              Sub(Integer(a), other) == Err(NoValidType()) &&
              Mul(Integer(a), other) == Err(NoValidType())
  {
  }

  /**
   * Integer division: by `Integer(0)` a `ZeroDivision`; by any float, zero
   * included, a `TypeError`; otherwise the truncated quotient.
   */
  lemma IntegerDivision(a: int, other: Type)
    ensures other == Integer(0) ==> Div(Integer(a), other) == Err(DivisionByZero())
    ensures other.Float? ==> Div(Integer(a), other) == Err(NoValidType())
    ensures other.Integer? && other.ival != 0 ==>
              Div(Integer(a), other).Ok? && Div(Integer(a), other).value.Integer? &&
              var q := Div(Integer(a), other).value.ival;
              Abs(a - other.ival * q) < Abs(other.ival) &&
              (a - other.ival * q == 0 || (a - other.ival * q < 0) == (a < 0))
  {
    if other.Integer? && other.ival != 0 {
      TruncDivIsTruncating(a, other.ival);
    }
  }

  /** Float arithmetic rejects integer operands; float division by zero is a `ZeroDivision`. */
  lemma FloatArithmetic(x: real, other: Type)
    ensures other.Integer? ==>
              Add(Float(x), other) == Err(NoValidType()) && Sub(Float(x), other) == Err(NoValidType()) &&
              Mul(Float(x), other) == Err(NoValidType()) && Div(Float(x), other) == Err(NoValidType())
    ensures Div(Float(x), Float(0.0)) == Err(DivisionByZero())
  {
  }

  /**
   * The logical operators on integers return 0 or 1, and the truthiness of the
   * result is the conjunction, disjunction or negation of the operands' truthiness.
   */
  lemma LogicAgreesWithTruthiness(a: int, b: int)
    ensures And(Integer(a), Integer(b)).Ok? && Or(Integer(a), Integer(b)).Ok? && Not(Integer(a)).Ok?
    ensures And(Integer(a), Integer(b)).value.ival in {0, 1}
    ensures Or(Integer(a), Integer(b)).value.ival in {0, 1}
    ensures Not(Integer(a)).value.ival in {0, 1}
    ensures Bool(And(Integer(a), Integer(b)).value) == Ok(Bool(Integer(a)).value && Bool(Integer(b)).value)
    ensures Bool(Or(Integer(a), Integer(b)).value) == Ok(Bool(Integer(a)).value || Bool(Integer(b)).value)
    ensures Bool(Not(Integer(a)).value) == Ok(!Bool(Integer(a)).value)
  {
  }

  /** `cmp` on integers is the integer order, and each comparison operator yields 1 exactly when it holds. */
  lemma IntegerComparisons(a: int, b: int)
    ensures Cmp(Integer(a), Integer(b)) == Ok(Less) <==> a < b
    ensures Cmp(Integer(a), Integer(b)) == Ok(Equal) <==> a == b
    ensures Cmp(Integer(a), Integer(b)) == Ok(Greater) <==> a > b
    ensures Compare(Lt, Integer(a), Integer(b)) == Ok(Integer(if a < b then 1 else 0))
    ensures Compare(Lte, Integer(a), Integer(b)) == Ok(Integer(if a <= b then 1 else 0))
    ensures Compare(Gt, Integer(a), Integer(b)) == Ok(Integer(if a > b then 1 else 0))
    ensures Compare(Gte, Integer(a), Integer(b)) == Ok(Integer(if a >= b then 1 else 0))
    ensures Compare(Eq, Integer(a), Integer(b)) == Ok(Integer(if a == b then 1 else 0))
    ensures Compare(Neq, Integer(a), Integer(b)) == Ok(Integer(if a != b then 1 else 0))
  {
  }

  /** Values of different variants never compare: `cmp` is a type error, never an answer. */
  lemma CrossVariantCmpFails(a: int, x: real)
    ensures Integer(a) != Float(x)
    ensures Cmp(Integer(a), Float(x)) == Err(NoValidType())
    ensures Cmp(Float(x), Integer(a)) == Err(NoValidType())
  {
  }
}
