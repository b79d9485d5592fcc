# A verified model of the phoenix calculator language core

This project models, in Dafny, the core of `phoenix`: a small tree-walking interpreter for
an expression language with `let` bindings, `if`/`elif`/`else`, `while` and `for` loops,
integer and float values, and a variable stack with a parent chain. Each Rust file of the
core has its own Dafny module:

| Rust file | Dafny module (file) |
|---|---|
| `src/interpreter/token/keyword.rs` | `Keywords` (keyword.dfy) |
| `src/interpreter/token/ident.rs` | `Idents` (ident.dfy) |
| `src/interpreter/token/mod.rs` | `Tokens` (token.dfy) |
| `src/interpreter/token/types/mod.rs`, `number.rs` | `Types` (types.dfy) |
| `src/interpreter/stack.rs` | `Stacks` (stack.dfy) |
| `src/interpreter/mod.rs` | `Positions` (position.dfy), `Eval.Context` (eval.dfy), `Interpreter` (interpreter.dfy) |
| `src/interpreter/errors.rs` | `Errors` (errors.dfy) |
| `src/interpreter/lexer.rs` | `Lexing` (lexer.dfy), `LexingProperties` (lexer_props.dfy) |
| `src/interpreter/ast/nodes.rs` | `Nodes` (nodes.dfy) |
| `src/interpreter/ast/mod.rs` | `Grammar`, `Parsing` (parser.dfy), `GrammarProperties` (parser_props.dfy) |
| `src/interpreter/ast/exprs.rs` | `ExprsGrammar`, `Exprs` (exprs.dfy) |
| `src/interpreter/visit.rs` | `Eval` (eval.dfy), `EvalProperties` (eval_props.dfy) |
| `src/basic.rs` | `Basic` (basic.dfy) |

`Wrappers` (Option, Result) and `Decimal` (digit strings and their values) are helpers.

How the model is built:

- **Values** (`Types.Type`) are `Integer(int) | Float(real) | NoneType`. Integers are unbounded.
  Rust's truncating `/` is written out as `TruncDiv`, because Dafny's `/` is Euclidean.
  Every operator dispatches to the variant's own implementation. The `NoneType` variant
  implements nothing and returns the default "method '<op>' is not implemented" error.
- **The environment** is the value `Stacks.Env`, because the Rust `Stack` is cloned into every
  evaluation context. `Stacks.Stack` is the mutable object that `run` seeds in place. Its
  `Set` and `Combine` methods are specified by `Env.Set` and `Env.Combine`.
- **The scanner.** `Lexing.Lex(f, text, k)` says what the scanner produces from index `k` of
  the text. `Lexing.PosAt` is the cursor position at index `k`. The `Lexing.Lexer` class has
  the fields `text`, `pos` and `currentChar`, and its methods are proved to return what those
  functions say. The older scanner in `src/basic.rs` is modelled the same way in `Basic`.
- **The parser.** `Grammar` has one function per parsing function, each over
  `(tokens, index)`. `Parsing.Parser` holds the token list and the `index` cursor. Each of its
  methods is proved to agree with its grammar function: same result and same final cursor.
  `binary_operation` is a loop in both the source and the method. Its remaining work is the
  function `BinaryLoop`, and that is the left fold. `ExprsGrammar` and `Exprs` do the same
  for `src/interpreter/ast/exprs.rs`. The `expr`, `comp_expr` and `arith_expr` functions of
  that file are the same text as the `Parser` ones, so they are modelled once.
- **The evaluator.** `Eval.Visit` and its helpers are pure recursive functions that return
  an `Outcome` (`Done(value, context)`, `Failed(error)` or `OutOfFuel`). `while` and `for`
  need not terminate, so a `fuel` bound is spent by loop iterations only. `VisitMonotone`
  proves that more fuel never changes a finished result. `EvalForNode` and `EvalWhileNode`
  are the source's two loops as methods, each proved equal to the functional loop.
- The older `visit_*` functions in `src/interpreter/mod.rs` (lines 179-282) match the ones
  in `src/interpreter/visit.rs` line for line. The only difference is that the older
  `visit` has no loop node types. They are modelled once, by `Eval`.
- **Spans.** `Position.len` is a `u64`. The `as u64` cast in `combine` and the `u64`
  addition are written out as reduction modulo 2^64.

Observed behaviour that the model keeps as written:

- A multi-character token's span comes from `combine` with the position after the token,
  and that position has length 1. So `==`, `<=`, `>=`, `!=`, `&&` and `||` get span length
  3, and a word of n characters gets span length n + 1. Only numbers set their span length
  directly; it counts their digits and not the dot.
- A newline is not one of the characters `make_tokens` accepts. So every text that lexes
  successfully is a single line (`LexingProperties.LexedTextIsOneLine`).
- A unary operation's context starts one index before its operand's context. When it is
  the RIGHT operand of a binary operation and so starts before the left one, as in
  `1 + -2`, `other.index - self.index` is negative. The `as u64` cast and the addition then
  wrap as a release build computes them, and the span comes out with length 0
  (`Positions.CombineReversedWraps`).
- `run` returns the stack as it was just after seeding whenever lexing, parsing or
  evaluation fails. Bindings made earlier on a failing line are lost.

Other details of the code that the model keeps:

- `{` and `}` are illegal characters.
- The default "not implemented" message is `method '<op>' is not implemented`, naming only the method.
- The traceback prints the frame reached last along the chain first, because each line is
  prepended.
- The `if_expr` of `exprs.rs` takes no `then` between a condition and its expression.
- Logical negation is the token `!`.

## Model

| member | source | states |
|---|---|---|
| Keywords.FromStrIffIsKeyword | src/interpreter/token/keyword.rs:14-60 | `from_str(w)` is `Some` exactly when `is_keyword(w)`, and then the keyword prints as `w` |
| Keywords.FromStrOfText | src/interpreter/token/keyword.rs:27-60 | round trip: `from_str(display(k)) == Some(k)`, and `display(k)` is in the keyword list |
| Keywords.TextInjective | src/interpreter/token/keyword.rs:27-45 | two keywords that print the same word are the same keyword |
| Keywords.CaseVariantIsNotKeyword | src/interpreter/token/keyword.rs:47-60 | matching is case-sensitive: "Let" is not a keyword and `from_str` gives `None` |
| Idents.EqualIffNamesEqual | src/interpreter/token/ident.rs:1-4 | derived equality: two identifiers are equal exactly when their names are |
| Idents.IdentOrderIsStrictTotal | src/interpreter/token/ident.rs:1-4 | derived `PartialOrd` (the lexicographic order of the names) is irreflexive, transitive and total on distinct identifiers |
| Tokens.SignFromTokenSpec | src/interpreter/token/mod.rs:16-37 | `from_token` gives `Plus`/`Minus` exactly for the `+`/`-` tokens and `None` for every other token; a sign prints the same text as its token |
| Tokens.PayloadTokenText | src/interpreter/token/mod.rs:54-73 | `Ident` and `Keyword` tokens print their payload; `EOF` prints "EOF" and `Equal` prints "=" |
| Tokens.OperatorTextInjective | src/interpreter/token/mod.rs:54-73 | operator tokens that print the same text are the same token |
| Positions.AsU64 | src/interpreter/mod.rs:105-113 | the `as u64` reduction is below 2^64 and is the identity on values already in range |
| Positions.Position.Combine | src/interpreter/mod.rs:105-113 | `combine` keeps index, line, column and file name; for a later other span it covers up to the other's end (`len = other.index - index + other.len`) |
| Positions.AdvanceOverCounts | src/interpreter/mod.rs:88-95 | advancing over a text moves the index by its length and the line by its newlines; the column counts the characters after the last newline |
| Positions.CombineReversedWraps | src/interpreter/mod.rs:105-113 | a span that ends one index before its start wraps around to length 0 |
| Stacks.GetSomeIffBound | src/interpreter/stack.rs:21-27 | `get(n)` finds a value exactly when some stack along the parent chain binds `n` |
| Stacks.GetFindsNearest | src/interpreter/stack.rs:21-27 | a local binding answers first; a local miss falls through to the parent; a name bound nowhere gives `None` |
| Stacks.SetLaws | src/interpreter/stack.rs:21-30 | after `set(n, v)`, `get(n)` is `v`, every other name reads as before, and the parent is unchanged |
| Stacks.LocalShadowsParent | src/interpreter/stack.rs:12-27 | a local binding hides the parent's binding of the same name; without one the parent answers |
| Stacks.CombineLaws | src/interpreter/stack.rs:32-34 | after `combine(other)`, the other's names read the other's values, other names keep their values, the parent is unchanged and the local names are the union |
| Stacks.NewWithoutParentBindsNothing | src/interpreter/stack.rs:12-20 | `Stack::new(None)` binds no name |
| Stacks.Stack.constructor | src/interpreter/stack.rs:12-20 | a new stack holds no local bindings and the given parent |
| Stacks.Stack.FromEnv | src/interpreter/mod.rs:143-144 | `run` takes ownership of the stack it is handed, unchanged |
| Stacks.Stack.Set | src/interpreter/stack.rs:28-30 | in-place `set`: the new stack is the old one with the local binding inserted or replaced |
| Stacks.Stack.Combine | src/interpreter/stack.rs:32-34 | in-place `combine`: the local map is extended by the other's, whose values win |
| Types.NotImplemented | src/interpreter/token/types/mod.rs:12-51 | a default method fails with kind `Undefined`, no position, and the message "method '<op>' is not implemented" |
| Types.DivisionByZero | src/interpreter/token/types/number.rs:52-58 | a division by zero fails with kind `ZeroDivision` and the message "can't divide by 0" |
| Types.TruncDivIsTruncating | src/interpreter/token/types/number.rs:61 | the quotient is truncated toward zero: the remainder is smaller than the divisor and has the dividend's sign |
| Types.NoneTypeImplementsNothing | src/interpreter/token/types/mod.rs:8-52 | a variant that overrides nothing fails on every operator, the four arithmetic ones and `neg` with their default errors |
| Types.IntegerArithmetic | src/interpreter/token/types/number.rs:32-50 | `add`/`sub`/`mul` of two integers give the exact sum, difference and product; any other right operand is a `TypeError` |
| Types.IntegerDivision | src/interpreter/token/types/number.rs:52-65 | integer `div` by `Integer(0)` is a `ZeroDivision`, by any float (0.0 included) a `TypeError`, otherwise the quotient truncated toward zero |
| Types.FloatArithmetic | src/interpreter/token/types/number.rs:148-183 | float arithmetic with an integer operand is a `TypeError`; float division by `Float(0.0)` is a `ZeroDivision` |
| Types.LogicAgreesWithTruthiness | src/interpreter/token/types/number.rs:71-110 | integer `and`/`or`/`not` give 0 or 1, and the result is truthy exactly when the operands' truthiness makes the conjunction, disjunction or negation true |
| Types.IntegerComparisons | src/interpreter/token/types/number.rs:22-29 | integer `cmp` is the integer order (both directions), and each of the six comparisons gives 1 exactly when it holds |
| Types.CrossVariantCmpFails | src/interpreter/token/types/number.rs:22-29 | an integer never equals a float, and `cmp` across the two variants is a `TypeError` either way round |
| Errors.New | src/interpreter/errors.rs:17-24 | `Error::new` keeps kind and message; a position, when given, is the only frame |
| Errors.WithPosition | src/interpreter/errors.rs:26-32 | `with_position` keeps kind and message and sets the position |
| Errors.BuildTraceback | src/interpreter/errors.rs:38-51 | the `fmt` loop that prepends one line per frame builds exactly the traceback text of the chain |
| Errors.Display | src/interpreter/errors.rs:35-54 | `fmt` prints the header and traceback when there is a position, then "<Kind>: <message>" |
| Errors.TracebackIsReversedFrames | src/interpreter/errors.rs:41-50 | the traceback is one line per frame in reverse visiting order, so the frame reached last prints first |
| Errors.DisplayWithoutPosition | src/interpreter/errors.rs:37-53 | without a position only "<Kind>: <message>" is printed |
| Errors.DisplayWithPosition | src/interpreter/errors.rs:37-53 | with a position the text is "ERROR - Traceback:\n", then one "  File f, line L+1, column C:\n" per frame (last visited first), then kind and message |
| Nodes.NodeTextBalanced | src/interpreter/ast/nodes.rs:25-59 | the printed tree has as many '(' as ')': one pair per operation node and one more per signed node |
| Nodes.OperationTextBalanced | src/interpreter/ast/nodes.rs:90-126 | a binary node prints left, operator and right with no extra parentheses; a signed node adds one pair |
| Nodes.DisplayExamples | src/interpreter/ast/nodes.rs:37-126 | `1+2` prints "(1+2)" and the signed `-1` prints "((-1))" |
| Lexing.PosAt | src/interpreter/lexer.rs:12-30 | the cursor position at index `k` has index `k`, the lexer's file name and length 1 |
| Lexing.NumberEnd | src/interpreter/lexer.rs:182-196 | a number scan stops within the text and consumes only digits and dots |
| Lexing.NumberEndShape | src/interpreter/lexer.rs:177-196 | the scanned text of a number is digits with at most one '.' |
| Lexing.NumberAt | src/interpreter/lexer.rs:177-205 | `make_number` consumes at least one character, and only digits and dots |
| Lexing.IdentEnd | src/interpreter/lexer.rs:92-98 | an identifier scan consumes alphanumerics and '_' and stops at the first other character |
| Lexing.IdentAt | src/interpreter/lexer.rs:89-107 | `make_ident` consumes at least one character and stays inside the text |
| Lexing.ScanToken | src/interpreter/lexer.rs:35-83 | one scan consumes at least one accepted character; an unknown character fails with "Illegal character: <c>" at its own position |
| Lexing.Lexer.constructor | src/interpreter/lexer.rs:12-20 | `Lexer::new` starts at index 0, line 0, column 0 with the first character under the cursor |
| Lexing.Lexer.Advance | src/interpreter/lexer.rs:22-30 | `advance` steps the position over the current character and looks up the next one |
| Lexing.Lexer.MakeTokens | src/interpreter/lexer.rs:32-87 | `make_tokens` returns exactly what `Lex` gives from the cursor's index |
| Lexing.Lexer.ScanOne | src/interpreter/lexer.rs:35-83 | the `match` of `make_tokens` on a non-blank character returns `ScanToken` and leaves the cursor after the token |
| Lexing.Lexer.MakeIdent | src/interpreter/lexer.rs:89-107 | `make_ident` returns exactly `IdentAt` (keyword or identifier token, its span, the index after the word) and leaves the cursor there; `LexWord` states what that token is |
| Lexing.Lexer.CheckEq | src/interpreter/lexer.rs:109-116 | `check_eq` returns exactly `CheckEqAt` (the long token when '=' follows, else the short one) and leaves the cursor after what it took |
| Lexing.Lexer.MakeEqLike | src/interpreter/lexer.rs:118-164 | `make_eq`, `make_less_than` and `make_greater_than` never fail, return what `ScanToken` gives, and leave the cursor after the token |
| Lexing.Lexer.MakeNot | src/interpreter/lexer.rs:166-175 | `make_not` returns exactly `NotAt` (`!=` when '=' follows, otherwise `!`) and leaves the cursor after the token |
| Lexing.Lexer.MakeDoubled | src/interpreter/lexer.rs:124-152 | `make_and`/`make_or` return exactly `DoubledAt` and, on success, leave the cursor after the token; `SingleAndOrFails` states the error |
| Lexing.Lexer.MakeNumber | src/interpreter/lexer.rs:177-205 | `make_number` never fails, returns exactly `NumberAt` (the Integer or Float token, its span, the index after it) and leaves the cursor there |
| Lexing.Lexer.GatherNumber | src/interpreter/lexer.rs:178-196 | the `make_number` loop gathers the text up to `NumberEnd`, counts its dot, and sets the span length to the number of digits |
| Lexing.Lexer.GatherOne | src/interpreter/lexer.rs:182-195 | one turn of that loop keeps the gathering invariant (text so far, dot count, digit-count span) and either advances by one or stops at `NumberEnd` |
| LexingProperties.PosAtIsAdvanceOver | src/interpreter/lexer.rs:12-30 | the cursor position at index `k` is the start position advanced over the first `k` characters |
| LexingProperties.PosAtCounts | src/interpreter/lexer.rs:22-30 | the cursor's line counts the newlines before it, and its column counts the characters since the last one |
| LexingProperties.LexEndsWithOneEOF | src/interpreter/lexer.rs:32-87 | a successful token list ends with exactly one `EOF`, last, at the position after the text |
| LexingProperties.BlanksProduceNoTokens | src/interpreter/lexer.rs:36 | a run of spaces and tabs produces no tokens |
| LexingProperties.ForeignCharacterFails | src/interpreter/lexer.rs:75-82 | a character that no scanner accepts, anywhere in the text, makes the whole lex fail |
| LexingProperties.IllegalFirstCharacter | src/interpreter/lexer.rs:75-82 | an illegal first character is reported as line 1, column 0 with "SyntaxError: Illegal character: <c>" |
| LexingProperties.LexedTextIsOneLine | src/interpreter/lexer.rs:75-82 | a text that lexes holds no newline, so every token position is on line 0 with column equal to the index |
| LexingProperties.NumberIsMaximal | src/interpreter/lexer.rs:182-196 | a number scan stops only at a non-digit, and at a '.' only when a '.' was already seen |
| LexingProperties.LexPrintedNumber | src/interpreter/lexer.rs:177-205 | lexing the decimal text of n gives one Integer token of value n, spanning its digits, then `EOF` |
| LexingProperties.LexWord | src/interpreter/lexer.rs:89-107 | a word lexes to a keyword token exactly when it is a keyword, else to an identifier of that name, with span length one more than the word |
| LexingProperties.ScanFraction | src/interpreter/lexer.rs:177-205 | a decimal fraction `a.b` scans to one Float token of value `a + b / 10^len(b)` covering the whole text, its span counting the digits and not the dot |
| LexingProperties.LexStep | src/interpreter/lexer.rs:32-87 | a token scanned at the cursor is put in front of the tokens lexed after it |
| LexingProperties.ScanIsNotEnd | src/interpreter/lexer.rs:32-87 | the scanner never produces `EOF`; only the end of the text does |
| LexingProperties.ScanWord | src/interpreter/lexer.rs:71-75 | a letter at the cursor is scanned by `make_ident` |
| LexingProperties.LexKeywordText | src/interpreter/lexer.rs:99-104 | lexing a keyword's printed form gives back that keyword |
| LexingProperties.TwoCharacterOperators | src/interpreter/lexer.rs:109-175 | '=', '<', '>' and '!' followed by '=' give `==`, `<=`, `>=`, `!=`, consuming two characters with span length 3; alone they give `=`, `<`, `>`, `!` |
| LexingProperties.SingleAndOrFails | src/interpreter/lexer.rs:124-152 | '&' or '|' not doubled fails with "expected &" or "expected |" at the following position, and the lex fails |
| LexingProperties.SecondDotIsIllegal | src/interpreter/lexer.rs:182-196 | "1.2.3": the number stops at the second '.', which is then reported as an illegal character at index 3 |
| Basic.Position.Advance | src/basic.rs:90-97 | the index increases by 1; a newline increments the line and resets the column to 0, any other character increments the column |
| Basic.Lexer.constructor | src/basic.rs:107-120 | the older lexer starts at index 0, line 0, column 0 |
| Basic.Lexer.Advance | src/basic.rs:122-130 | `advance` steps the position over the current character and looks up the next one |
| Basic.Lexer.MakeTokens | src/basic.rs:132-175 | `make_tokens` returns exactly what `Basic.Lex` gives from the cursor's index |
| Basic.Lexer.ScanOne | src/basic.rs:134-172 | one turn of the `make_tokens` loop consumes at least one character, produces the tokens `Lex` gives for it, or the error `Lex` gives |
| Basic.Lexer.MakeNumber | src/basic.rs:177-200 | `make_number` gives exactly the value of the number text at the cursor (Integer without a '.', Float with one) and leaves the cursor at `NumberEnd` |
| Basic.Lexer.GatherNumber | src/basic.rs:178-194 | the `make_number` loop gathers the text up to `NumberEnd` and counts its dot |
| Basic.Run | src/basic.rs:203-206 | `run` lexes the whole text from index 0 |
| Basic.BlankTextHasNoTokens | src/basic.rs:132-175 | no `EOF` is appended: an empty or all-blank text gives an empty token list |
| Basic.OperatorsGiveOneTokenEach | src/basic.rs:137-160 | each of `+ - * / ( )` gives exactly one token, in order |
| Basic.IllegalCharacterAt | src/basic.rs:164-171 | any other character fails with "Illegal character: <c>" at its own index |
| Basic.ErrorTextAtStart | src/basic.rs:24-39 | the error text is "File f, line L+1, position C+1:\n SyntaxError: <msg>" |
| Grammar.Expr | src/interpreter/ast/mod.rs:84-122 | a successful `expr` consumes at least one token, never `EOF`, and builds a well-formed node (every binary node carries an operator token and spans `left.combine(right)`) |
| Grammar.BinaryOperation | src/interpreter/ast/mod.rs:55-82 | a successful `binary_operation` consumes at least one token, never `EOF`, and builds a well-formed tree: each binary node carries an operator token and spans `left.combine(right)` |
| Grammar.BinaryLoop | src/interpreter/ast/mod.rs:64-80 | the fold loop never moves the cursor back, never consumes `EOF`, and keeps the tree well-formed |
| Grammar.CompExpr | src/interpreter/ast/mod.rs:173-196 | a successful `comp_expr` makes progress and builds a well-formed node |
| Grammar.ArithExpr | src/interpreter/ast/mod.rs:198-200 | a successful `arith_expr` makes progress and builds a well-formed node |
| Grammar.Term | src/interpreter/ast/mod.rs:259-261 | a successful `term` makes progress and builds a well-formed node |
| Grammar.Atom | src/interpreter/ast/mod.rs:202-257 | a successful `atom` makes progress and builds a well-formed node |
| Grammar.IfCase | src/interpreter/ast/mod.rs:124-137 | one `condition then expr` case consumes at least one token, never `EOF`, and both its nodes are well-formed |
| Grammar.ElifLoop | src/interpreter/ast/mod.rs:139-154 | the `elif` loop keeps earlier cases as a prefix, in source order, and stops at a token that is not `elif` |
| Grammar.IfExpr | src/interpreter/ast/mod.rs:124-170 | a successful `if_expr` consumes past the `if` and builds a well-formed `IfNode` placed at the `if`, whose first case is the first `condition then expr` pair parsed |
| Grammar.IfFrom | src/interpreter/ast/mod.rs:139-170 | the rest of `if_expr` after the first case makes no backward step and builds a well-formed node |
| Grammar.IfTail | src/interpreter/ast/mod.rs:155-170 | the optional `else` and the closing span make no backward step and build a well-formed node |
| Grammar.Parse | src/interpreter/ast/mod.rs:24-40 | `parse` succeeds only with the node `expr` built |
| Parsing.Parser.constructor | src/interpreter/ast/mod.rs:18-22 | `Parser::new` keeps the tokens and starts the cursor at index 0 |
| Parsing.Parser.CurrentToken | src/interpreter/ast/mod.rs:42-48 | `current_token` is `Some` exactly when the cursor is inside the list, and is then the token there |
| Parsing.Parser.Advance | src/interpreter/ast/mod.rs:50-53 | `advance` increases the index by exactly 1 and returns the new current token |
| Parsing.Parser.Parse | src/interpreter/ast/mod.rs:24-40 | the `parse` method returns `Grammar.Parse` at its cursor |
| Parsing.Parser.Expr | src/interpreter/ast/mod.rs:84-122 | the `expr` method returns what `Grammar.Expr` gives and leaves the cursor where it says |
| Parsing.Parser.BinaryOperation | src/interpreter/ast/mod.rs:55-82 | the `binary_operation` loop returns what `Grammar.BinaryOperation` gives, with the same final cursor |
| Parsing.Parser.FoldStep | src/interpreter/ast/mod.rs:64-80 | one turn of that loop moves the cursor forward and leaves the same remaining fold, or the error it would give |
| Parsing.Parser.CompExpr | src/interpreter/ast/mod.rs:173-196 | `comp_expr` agrees with `Grammar.CompExpr` |
| Parsing.Parser.ArithExpr | src/interpreter/ast/mod.rs:198-200 | `arith_expr` agrees with `Grammar.ArithExpr` |
| Parsing.Parser.Term | src/interpreter/ast/mod.rs:259-261 | `term` agrees with `Grammar.Term` |
| Parsing.Parser.Atom | src/interpreter/ast/mod.rs:202-257 | `atom` agrees with `Grammar.Atom` |
| Parsing.Parser.SignedAtom | src/interpreter/ast/mod.rs:212-224 | the sign branch of `atom` agrees with `Grammar.Atom` |
| Parsing.Parser.Parenthesised | src/interpreter/ast/mod.rs:230-248 | the parenthesis branch of `atom` agrees with `Grammar.Atom` |
| Parsing.Parser.IfExpr | src/interpreter/ast/mod.rs:124-170 | the `if_expr` loop that pushes cases agrees with `Grammar.IfExpr` |
| Parsing.Parser.IfTail | src/interpreter/ast/mod.rs:155-170 | the `else` part of `if_expr` agrees with `Grammar.IfTail` |
| Parsing.Parser.IfCase | src/interpreter/ast/mod.rs:124-137 | one case of `if_expr` agrees with `Grammar.IfCase` |
| GrammarProperties.ParseConsumesAllButEOF | src/interpreter/ast/mod.rs:24-40 | on a lexer token list, `parse` succeeds only when the expression reaches the final `EOF`; otherwise it fails with "Expected one of the following: '+' '-' '*' or '/'" at the first leftover token |
| GrammarProperties.ExprAtEndOfFile | src/interpreter/ast/mod.rs:225-229 | an expression starting at `EOF` fails with `EndOfFile` at the `EOF` position |
| GrammarProperties.ExprPastTheEnd | src/interpreter/ast/mod.rs:255 | with no token left, parsing fails with "can't parse empty token" and no position |
| GrammarProperties.LetErrors | src/interpreter/ast/mod.rs:84-117 | after `let`: no token gives "expected expression", a non-identifier gives "expected identifier", and a missing `=` gives "expected =" |
| GrammarProperties.LetAssigns | src/interpreter/ast/mod.rs:84-101 | a successful `let x = e` is an `Assign(x, e)` placed at the identifier |
| GrammarProperties.NoOperatorFollows | src/interpreter/ast/mod.rs:55-82 | a level with no operator after its first operand returns that operand |
| GrammarProperties.AtomErrorPassesUp | src/interpreter/ast/mod.rs:55-63 | outside `let` and `!`, an error of `atom` is the error of the whole expression |
| GrammarProperties.Levels | src/interpreter/ast/mod.rs:84-261 | the precedence ladder: `term` folds over atoms, `arith_expr` over terms, `comp_expr` (without a leading `!`) over arithmetic expressions and `expr` (without a leading `let`) over comparison expressions |
| GrammarProperties.SubtractionIsLeftAssociative | src/interpreter/ast/mod.rs:55-82 | `a - b - c` parses as `(a - b) - c` |
| GrammarProperties.SumOfTwo | src/interpreter/ast/mod.rs:55-82 | `a + b` parses to one addition node spanning both operands |
| GrammarProperties.ProductBindsTighter | src/interpreter/ast/mod.rs:198-261 | `a + b * c` parses as `a + (b * c)` |
| GrammarProperties.EqualityOfLiterals | src/interpreter/ast/mod.rs:184-194 | `a == b` between literals is one comparison node |
| GrammarProperties.BangCoversComparison | src/interpreter/ast/mod.rs:173-182 | `! a == b` parses as `!(a == b)`, placed at the `!` |
| GrammarProperties.UnclosedParenthesis | src/interpreter/ast/mod.rs:230-248 | `( a` with no `)` fails with "expected )" at the opening parenthesis |
| GrammarProperties.IfMissingThen | src/interpreter/ast/mod.rs:124-150 | an `if` whose condition is not followed by `then` fails with "expected then" at the token after the condition, or with no position at the end of the list, and `expr` passes that error up |
| GrammarProperties.LoneLiteral | src/interpreter/ast/mod.rs:55-82 | a literal followed by no operator of a level or of any level below it is that level's whole result |
| GrammarProperties.FoldOne | src/interpreter/ast/mod.rs:55-82 | `left op right` with no further operator of the level is one binary node spanning both operands |
| GrammarProperties.DifferenceOfThree | src/interpreter/ast/mod.rs:55-82 | `a - b - c` at any index, before `EOF`, groups to the left |
| GrammarProperties.SumOfProduct | src/interpreter/ast/mod.rs:198-261 | `a + b * c` at any index, before `EOF`: the product is the right operand of `+` |
| GrammarProperties.SumOfLiterals | src/interpreter/ast/mod.rs:198-258 | `a + b` before `EOF` is one arithmetic expression |
| GrammarProperties.ComparisonOfLiterals | src/interpreter/ast/mod.rs:173-196 | `a == b` before `EOF` is one comparison expression |
| GrammarProperties.ComparisonOfSum | src/interpreter/ast/mod.rs:173-258 | `a == b + c` at any index, before `EOF`: the sum is the right operand of `==` |
| GrammarProperties.ConjunctionOfComparison | src/interpreter/ast/mod.rs:84-196 | `a && b == c` at any index, before `EOF`: the comparison is the right operand of `&&` |
| GrammarProperties.SumBindsTighterThanComparison | src/interpreter/ast/mod.rs:173-258 | `a == b + c` parses as `a == (b + c)` |
| GrammarProperties.ComparisonBindsTighterThanAnd | src/interpreter/ast/mod.rs:84-196 | `a && b == c` parses as `a && (b == c)` |
| ExprsGrammar.WhileExpr | src/interpreter/ast/exprs.rs:76-94 | a successful `while_expr` consumes past the keyword |
| ExprsGrammar.ForExpr | src/interpreter/ast/exprs.rs:96-143 | a successful `for_expr` consumes past the keyword |
| ExprsGrammar.ForBounds | src/interpreter/ast/exprs.rs:103-135 | the part after `in` makes progress |
| ExprsGrammar.ForEnd | src/interpreter/ast/exprs.rs:106-128 | the part after `to` makes progress |
| ExprsGrammar.IfCase | src/interpreter/ast/exprs.rs:49-51 | one case (condition then expression, no `then`) makes progress and builds well-formed nodes |
| ExprsGrammar.ElifLoop | src/interpreter/ast/exprs.rs:53-58 | the `elif` loop keeps earlier cases as a prefix and stops at a non-`elif` token |
| ExprsGrammar.IfFrom | src/interpreter/ast/exprs.rs:53-73 | the rest of this `if_expr` never moves the cursor back |
| ExprsGrammar.IfExpr | src/interpreter/ast/exprs.rs:48-74 | a successful `if_expr` of this file consumes past the `if` |
| ExprsGrammar.WhileShape | src/interpreter/ast/exprs.rs:76-94 | a `while` node spans from the keyword to the end of its body: `position.combine(body.pos)` |
| ExprsGrammar.WhileMissingThen | src/interpreter/ast/exprs.rs:79-93 | a condition not followed by `then` fails with "expected 'then'" at the `while` position |
| ExprsGrammar.ForErrors | src/interpreter/ast/exprs.rs:96-143 | a missing variable, `in` or `to` fails with "expected ident", "expected 'in'" or "expected 'to'" at the `for` position |
| ExprsGrammar.ForShape | src/interpreter/ast/exprs.rs:78-116 | a `for` node keeps variable, start, end and body in source order, spans `position.combine(end.pos)` and ends where the body ends |
| ExprsGrammar.IfCasesInOrder | src/interpreter/ast/exprs.rs:48-64 | the first case parsed is the first case of the node; `elif` cases follow |
| Exprs.WhileExpr | src/interpreter/ast/exprs.rs:76-94 | `while_expr` on the shared parser agrees with `ExprsGrammar.WhileExpr` |
| Exprs.ForExpr | src/interpreter/ast/exprs.rs:96-143 | `for_expr` agrees with `ExprsGrammar.ForExpr` |
| Exprs.ForBounds | src/interpreter/ast/exprs.rs:103-135 | the part after `in` agrees with `ExprsGrammar.ForBounds` |
| Exprs.ForEnd | src/interpreter/ast/exprs.rs:106-128 | the part after `to` agrees with `ExprsGrammar.ForEnd` |
| Exprs.IfExpr | src/interpreter/ast/exprs.rs:48-74 | the case-pushing loop of this `if_expr` agrees with `ExprsGrammar.IfExpr` |
| Exprs.IfCase | src/interpreter/ast/exprs.rs:49-57 | one case agrees with `ExprsGrammar.IfCase` |
| Eval.Context.Combine | src/interpreter/mod.rs:45-65 | the combined span starts here and ends where the other ends; the stack is this one extended by the other's; the parent is this one's if present, else the other's |
| Eval.Context.Bind | src/interpreter/visit.rs:26-31 | binding changes only the local stack, which then maps the name to the value |
| Eval.ContextTrace | src/interpreter/visit.rs:139-142 | the traceback of a context starts at its position and continues exactly when it has a parent |
| Eval.WithContext | src/interpreter/visit.rs:139-142 | `with_context` keeps kind and message and locates the error at the context chain |
| Eval.Apply | src/interpreter/visit.rs:119-137 | a token that is not a binary operator fails with `Undefined` "can't operate on token <t>" at the context |
| Eval.Visit | src/interpreter/visit.rs:10-24 | evaluation never removes a local binding |
| Eval.VisitAssignment | src/interpreter/visit.rs:26-31 | the returned context binds the name to exactly the returned value |
| Eval.VisitVar | src/interpreter/visit.rs:33-43 | a variable evaluates exactly when bound, to its value with the context unchanged; otherwise `NameError` "<name> is not defined" at the context's position |
| Eval.IfCases | src/interpreter/visit.rs:45-57 | evaluating the cases never removes a local binding |
| Eval.VisitForNode | src/interpreter/visit.rs:59-93 | evaluating a `for` never removes a local binding |
| Eval.ForLoop | src/interpreter/visit.rs:70-91 | the loop never removes a local binding |
| Eval.WhileLoop | src/interpreter/visit.rs:95-109 | the loop never removes a local binding |
| Eval.VisitBinaryOperation | src/interpreter/visit.rs:112-143 | a binary operation never removes a local binding |
| Eval.UnaryContext | src/interpreter/visit.rs:151-158 | the unary context has the incoming stack, the incoming context as parent, index one less and length one more than the operand's |
| Eval.VisitUnaryOperation | src/interpreter/visit.rs:145-167 | a unary operation never removes a local binding |
| Eval.EvalForNode | src/interpreter/visit.rs:59-93 | the `for` loop that reassigns `ty` and the context gives exactly `VisitForNode` |
| Eval.EvalWhileNode | src/interpreter/visit.rs:95-109 | the `while` loop gives exactly `WhileLoop` from `None` |
| EvalProperties.VisitMonotone | src/interpreter/visit.rs:10-24 | a visit that finishes with some fuel gives the same outcome with any more fuel |
| EvalProperties.ForLoopCounts | src/interpreter/visit.rs:70-91 | from variable x and integer end b, the loop leaves the variable at b - 1 if x + 1 < b, else at x with no body run |
| EvalProperties.ForOverIntegers | src/interpreter/visit.rs:59-93 | `for v in a to b`: the end is exclusive and the variable finishes at a - 1 + max(0, b - a); with b <= a the result is `None` |
| EvalProperties.ForNeedsIntegerStart | src/interpreter/visit.rs:65-68 | a non-integer start makes the loop fail with the error of `start - 1`: "No valid type" (`TypeError`) for a float, the default `sub` error for `None` |
| EvalProperties.BothOperandsEvaluated | src/interpreter/visit.rs:116-142 | both operands are evaluated from the same incoming context; the result context is `left.combine(right)`, and an operator error is attached to it |
| EvalProperties.AndDoesNotShortCircuit | src/interpreter/visit.rs:116-131 | `0 && (1/0)` fails with `ZeroDivision` "can't divide by 0" |
| EvalProperties.UnaryResult | src/interpreter/visit.rs:150-166 | `+` is the identity, `-` is `neg` and `!` is `not`; the result context is `UnaryContext` |
| EvalProperties.NegatedAssignmentForgetsBinding | src/interpreter/visit.rs:150-158 | `-(let x = 1)` gives -1 but leaves `x` unbound, since the unary context keeps the incoming stack |
| EvalProperties.IfFirstTruthy | src/interpreter/visit.rs:45-51 | when earlier conditions are falsy and case k's is truthy, the `if` is case k's body evaluated against the original context |
| EvalProperties.IfNoMatch | src/interpreter/visit.rs:52-56 | with every condition falsy, the `if` is the `else` body, or `None` with the context unchanged |
| EvalProperties.WhileStops | src/interpreter/visit.rs:99-104 | at a falsy condition the loop stops with the last body value in the condition's context; immediately falsy gives `None` |
| EvalProperties.WhileContinues | src/interpreter/visit.rs:99-108 | at a truthy condition one turn runs the body in the condition's context and continues from the body's |
| EvalProperties.ForContinues | src/interpreter/visit.rs:70-91 | while `x + 1 < b`, one turn binds the variable to `x + 1`, runs the body in that context and continues from the body's context with the body's value |
| EvalProperties.AssignmentBinds | src/interpreter/visit.rs:26-31 | an assignment returns the expression's value and binds the name to it |
| EvalProperties.VarLookup | src/interpreter/visit.rs:33-43 | a variable node evaluates exactly when some stack on the chain binds the name, else `NameError` |
| Interpreter.Seed | src/interpreter/mod.rs:146-158 | seeding binds `null` = 0, `true` = 1, `false` = 0, keeps the parent, and leaves every other name as it was |
| Interpreter.Run | src/interpreter/mod.rs:143-177 | `run` seeds the stack in place, then lexes, parses and evaluates, giving exactly `RunSpec` |
| Interpreter.FailureKeepsSeededStack | src/interpreter/mod.rs:160-175 | on a lex, parse or evaluation error `run` returns the stack as it was right after seeding |
| Interpreter.SuccessKeepsNames | src/interpreter/mod.rs:170-176 | on success the returned stack still binds every seeded local name, the built-ins among them |
| Interpreter.ScannerErrorsFirst | src/interpreter/mod.rs:160-164 | a lexing error is the result of the run, with the seeded stack |
| Interpreter.BuiltinsResetEachLine | src/interpreter/mod.rs:143-158 | each line starts with `true` = 1 whatever the previous line bound, and other names carry over |
| Interpreter.SingleDigit | src/interpreter/lexer.rs:177-205 | a digit not followed by another digit or a '.' scans to the Integer token of its value, with span length 1 |
| Interpreter.LexOnePlusTwo | src/interpreter/lexer.rs:32-87 | `1+2` lexes to a literal, `+`, a literal and `EOF` |
| Interpreter.OnePlusTwo | src/interpreter/mod.rs:143-177 | the whole pipeline on `1+2` gives `Integer(3)` |

## Left out

- The REPL in `src/main.rs`: reading lines, printing results and the version banner. It is I/O around `run`.
- Integer width: values are unbounded `int`. The model has no `i64` overflow, so `i64::MIN / -1` and overflowing `+ - * neg` do not panic. Rust would panic on these, and the source does not handle them.
- Float numerics: a `Float` holds an exact `real`. IEEE rounding, NaN (the `partial_cmp` failure branch in `number.rs`) and float printing are left out. Every float prints the placeholder `<float>`.
- Literal parsing: an Integer literal is the decimal value of its digits. A Float literal is the exact value of its decimal text. The `unwrap` of `str::parse` on an overflowing literal is left out.
- The lexer indexes characters, not bytes. The source compares a char index with the byte length (`text.len()`), which differs only on non-ASCII text.
- `while`/`for` non-termination: evaluation carries fuel. Running out is the extra outcome `OutOfFuel`, which `run` reports as `Exhausted`. The source has no such case.
- `Eval.Visit`: its contract states only that no local binding is removed. What each node kind evaluates to is stated by the lemmas in `EvalProperties`.
- `Grammar.Expr`, `Grammar.Atom`, `Grammar.CompExpr`, `Grammar.ArithExpr`, `Grammar.Term`: their contracts state progress and well-formedness only. The error messages, associativity and precedence are the lemmas in `GrammarProperties`.
- `ExprsGrammar.WhileExpr`, `ExprsGrammar.ForExpr`: their contracts state progress only. Shapes and errors are `WhileShape`, `WhileMissingThen`, `ForErrors` and `ForShape`.
- `ExprsGrammar.ForErrors`: does not state the "expected 'then'" error after the end bound. That is written in `ForEnd` and reached only after two full expressions.
- This revision's `atom` never calls `while_expr` or `for_expr`. They are modelled as the functions `exprs.rs` writes, entered with the cursor on the keyword.
- The getters of `nodes.rs` (`get_type`, `get_pos`, `get_left`, `get_operation`, `get_right`, `get_node`) and `Ident::new`/`get`: these are datatype constructors and destructors here. They return exactly what was passed by construction, so they have no separate members.
- `as_ref` dispatch in `types/mod.rs`: each operator in `Types` matches on the variant and calls that variant's function. `Type` is a closed datatype, so equality is structural.
- The `Cmp`/`Conversion` traits and the `eq`/`neq`/`lt`/`gt`/`lte`/`gte`/`and`/`or`/`not` methods are defined outside `types/mod.rs` and `number.rs`. They are modelled from their use: the comparisons are defined once through `cmp`, in `Types.Compare`, and the `None` value fails on all of them with the default "not implemented" error. Its printed form "None" is likewise modelled from its use.
- `Display` of nodes covers literal, binary and signed nodes, the node types of the `nodes.rs` revision. Variable, assignment, `if`, loop and `!` nodes are not printable there.
- `errors.rs` at this revision has no `with_context`. The model follows `visit.rs`'s use of it: the error is located at the chain of context positions (`Eval.WithContext`). The `errors.rs` traceback walks a parent link that its own `Position` does not have, so `Errors.Trace` provides that chain.
- `Position.index` and `column` are `i64` in the source. Their overflow is not modelled. `len` is a `u64`; its cast and addition are modelled wrapping.
- Positions.Position.Combine: the `u64` cast and addition are modelled with release-build wrapping; a debug build panics on the overflow instead (so `1 + -2` aborts a debug build).
- Positions.CombineReversedWraps: states the release-build result; in a debug build the same input panics.
