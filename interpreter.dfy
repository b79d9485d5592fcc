/**
 * The interpreter's entry point (src/interpreter/mod.rs, `run`): seed the
 * built-in names, scan, parse and evaluate one line of text, and hand back
 * the result together with the stack the next line should start from.
 */
module Interpreter {
  import opened Wrappers
  import opened Decimal
  import opened Positions
  import opened Errors
  import opened Idents
  import opened Types
  import opened Stacks
  import opened Nodes
  import opened Lexing
  import opened Grammar
  import opened Parsing
  import opened Eval
  import opened Tokens
  import opened GrammarProperties

  /**
   * `InterpretionResult`: the value or error of the line and the stack to keep.
   * `Exhausted` is the outcome of a `while` or `for` loop that did not finish
   * within the evaluation's fuel; the source has no such case.
   */
  datatype InterpretationResult =
    | Finished(res: Result<Type, Error>, stack: Env)
    | Exhausted(stack: Env)

  const NullName := Idents.Ident("null")
  const TrueName := Idents.Ident("true")
  const FalseName := Idents.Ident("false")

  /** The built-in variables `run` binds before each line: `null` and `false` are 0, `true` is 1; every other name keeps its binding. */
  function Seed(e: Env): (s: Env)
    ensures s.parent == e.parent
    ensures s.symbols.Keys == e.symbols.Keys + {NullName, TrueName, FalseName}
    ensures s.Get(NullName) == Some(Integer(0)) && s.Get(FalseName) == Some(Integer(0))
    ensures s.Get(TrueName) == Some(Integer(1))
    ensures forall n :: n != NullName && n != TrueName && n != FalseName ==> s.Get(n) == e.Get(n)
  {
    e.Set(NullName, Integer(0)).Set(TrueName, Integer(1)).Set(FalseName, Integer(0))
  }

  /** The stack a line starts from: the one handed in, or `new_stack()`, seeded. */
  function StartStack(stack: Option<Env>): Env {
    Seed(if stack.Some? then stack.value else NewEnv(None))
  }

  /** The position of the evaluation's root context: index 0 of the file, with no span. */
  function RootPosition(fileName: string): Position {
    Position(0, fileName, 0, 0, 0)
  }

  /** What `run` answers for a line, stage by stage. */
  function RunSpec(text: string, fileName: string, stack: Option<Env>, fuel: nat): (r: InterpretationResult)
  {
    var seeded := StartStack(stack);
    match Lex(fileName, text, 0)
    case Err(e) => Finished(Err(e), seeded)
    case Ok(ts) =>
      match Grammar.Parse(ts, 0)
      case Err(e) => Finished(Err(e), seeded)
      case Ok(ast) =>
        match Visit(ast, Context(RootPosition(fileName), seeded, None), fuel)
        case Done(v, c) => Finished(Ok(v), c.stack)
        case Failed(e) => Finished(Err(e), seeded)
        case OutOfFuel => Exhausted(seeded)
  }

  /** `run`: seeds a mutable stack in place, then drives the lexer, the parser and the evaluator. */
  method Run(text: string, fileName: string, stack: Option<Env>, fuel: nat) returns (r: InterpretationResult)
    ensures r == RunSpec(text, fileName, stack, fuel)
  {
    var s: Stack;
    if stack.Some? {
      s := new Stack.FromEnv(stack.value);
    } else {
      s := new Stack(None);
    }
    s.Set(NullName, Integer(0));
    s.Set(TrueName, Integer(1));
    s.Set(FalseName, Integer(0));
    var seeded := s.Model();

    var lexer := new Lexer(text, fileName);
    var tokens := lexer.MakeTokens();
    if tokens.Err? {
      return Finished(Err(tokens.error), seeded);
    }
    var parser := new Parser(tokens.value);
    var ast := parser.Parse();
    if ast.Err? {
      return Finished(Err(ast.error), seeded);
    }
    var context := Context(RootPosition(fileName), seeded, None);
    var o := Visit(ast.value, context, fuel);
    match o
    case Done(v, c) => r := Finished(Ok(v), c.stack);
    case Failed(e) => r := Finished(Err(e), seeded);
    case OutOfFuel => r := Exhausted(seeded);
  }

  /**
   * A line that fails at any stage, or runs out of fuel, leaves the seeded
   * stack: bindings it made before the error are discarded, and the built-ins
   * are bound to their initial values.
   */
  lemma FailureKeepsSeededStack(text: string, fileName: string, stack: Option<Env>, fuel: nat)
    ensures var r := RunSpec(text, fileName, stack, fuel);
      !(r.Finished? && r.res.Ok?) ==>
        r.stack == StartStack(stack) &&
        r.stack.Get(NullName) == Some(Integer(0)) && r.stack.Get(TrueName) == Some(Integer(1)) &&
        r.stack.Get(FalseName) == Some(Integer(0))
  {
  }

  /**
   * A line that evaluates keeps every local name of the seeded stack bound,
   * the built-ins among them; their values may have been reassigned by the line.
   */
  lemma SuccessKeepsNames(text: string, fileName: string, stack: Option<Env>, fuel: nat)
    ensures var r := RunSpec(text, fileName, stack, fuel);
      r.Finished? && r.res.Ok? ==>
        StartStack(stack).symbols.Keys <= r.stack.symbols.Keys &&
        {NullName, TrueName, FalseName} <= r.stack.symbols.Keys
  {
  }

  /** Errors from the scanner come first: text with an illegal character is never parsed or evaluated. */
  lemma ScannerErrorsFirst(text: string, fileName: string, stack: Option<Env>, fuel: nat)
    requires Lex(fileName, text, 0).Err?
    ensures RunSpec(text, fileName, stack, fuel) == Finished(Err(Lex(fileName, text, 0).error), StartStack(stack))
  {
  }

  /**
   * The built-ins are reset on every line: whatever a previous line bound to
   * `true`, the next line starts with `true` = 1; other names carry over.
   */
  lemma BuiltinsResetEachLine(text: string, fileName: string, previous: Env, fuel: nat, n: Ident)
    requires n != NullName && n != TrueName && n != FalseName
    ensures StartStack(Some(previous)).Get(TrueName) == Some(Integer(1))
    ensures StartStack(Some(previous)).Get(n) == previous.Get(n)
  {
  }

  /** A digit that no digit or '.' follows scans to an integer literal one character long. */
  lemma SingleDigit(fileName: string, t: string, k: nat)
    requires k < |t| && IsDigit(t[k]) && (k + 1 == |t| || (!IsDigit(t[k + 1]) && t[k + 1] != '.'))
    ensures ScanToken(fileName, t, k) == Ok(Scanned(Token.Type(Integer(DigitValue(t[k]))), PosAt(fileName, t, k).(len := 1), k + 1))
  {
    assert NumberEnd(t, k + 1, false) == k + 1;
    assert t[k..k + 1] == [t[k]];
    assert DecimalValue([t[k]]) == DecimalValue([]) * 10 + DigitValue(t[k]);
  }

  /** The tokens of `1+2`: each digit is a number one character long, then `+`. */
  lemma ScanOnePlusTwo(fileName: string)
    ensures var t := "1+2";
      |t| == 3 && !IsBlank(t[0]) && !IsBlank(t[1]) && !IsBlank(t[2]) &&
      ScanToken(fileName, t, 0) == Ok(Scanned(Token.Type(Integer(1)), PosAt(fileName, t, 0).(len := 1), 1)) &&
      ScanToken(fileName, t, 1) == Ok(Scanned(Token.Plus, PosAt(fileName, t, 1), 2)) &&
      ScanToken(fileName, t, 2) == Ok(Scanned(Token.Type(Integer(2)), PosAt(fileName, t, 2).(len := 1), 3))
  {
    var t := "1+2";
    assert t[0] == '1' && t[1] == '+' && t[2] == '2' && |t| == 3;
    SingleDigit(fileName, t, 0);
    SingleDigit(fileName, t, 2);
  }

  /** `1+2` scans to a literal, `+`, a literal and `EOF`. */
  lemma LexOnePlusTwo(fileName: string)
    ensures var t := "1+2";
      Lex(fileName, t, 0) == Ok([(Token.Type(Integer(1)), PosAt(fileName, t, 0).(len := 1)), (Token.Plus, PosAt(fileName, t, 1)),
                                 (Token.Type(Integer(2)), PosAt(fileName, t, 2).(len := 1)), (EOF, PosAt(fileName, t, 3))])
  {
    var t := "1+2";
    ScanOnePlusTwo(fileName);
    var one, plus := (Token.Type(Integer(1)), PosAt(fileName, t, 0).(len := 1)), (Token.Plus, PosAt(fileName, t, 1));
    var two, eof := (Token.Type(Integer(2)), PosAt(fileName, t, 2).(len := 1)), (EOF, PosAt(fileName, t, 3));
    assert Lex(fileName, t, 3) == Ok([eof]);
    assert Lex(fileName, t, 2) == Prepend([two], Ok([eof])) == Ok([two] + [eof]);
    assert [two] + [eof] == [two, eof];
    assert Lex(fileName, t, 1) == Prepend([plus], Ok([two, eof])) == Ok([plus] + [two, eof]);
    assert [plus] + [two, eof] == [plus, two, eof];
    assert Lex(fileName, t, 0) == Prepend([one], Ok([plus, two, eof])) == Ok([one] + [plus, two, eof]);
    assert [one] + [plus, two, eof] == [one, plus, two, eof];
  }

  /** The whole pipeline on one line: `1+2` evaluates to 3. */
  lemma OnePlusTwo(fileName: string, stack: Option<Env>, fuel: nat)
    ensures RunSpec("1+2", fileName, stack, fuel).Finished?
    ensures RunSpec("1+2", fileName, stack, fuel).res == Ok(Integer(3))
  {
    var t := "1+2";
    var ps := [PosAt(fileName, t, 0).(len := 1), PosAt(fileName, t, 1), PosAt(fileName, t, 2).(len := 1), PosAt(fileName, t, 3)];
    LexOnePlusTwo(fileName);
    SumOfTwo(Integer(1), Integer(2), ps);
    var sum := Bin(Lit(Integer(1), ps[0]), Token.Plus, Lit(Integer(2), ps[2]));
    var ctx := Context(RootPosition(fileName), StartStack(stack), None);
    assert Visit(Lit(Integer(1), ps[0]), ctx, fuel) == Done(Integer(1), ctx);
    assert Visit(Lit(Integer(2), ps[2]), ctx, fuel) == Done(Integer(2), ctx);
    assert Apply(Token.Plus, Integer(1), Integer(2), ctx.Combine(ctx)) == Ok(Integer(3));
    assert Visit(sum, ctx, fuel) == Done(Integer(3), ctx.Combine(ctx));
  }
}
