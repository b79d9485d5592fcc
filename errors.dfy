/** Interpreter errors and their traceback text (src/interpreter/errors.rs). */
module Errors {
  import opened Wrappers
  import opened Positions
  import opened Decimal

  datatype ErrorKind = SyntaxError | EndOfFile | Undefined | ZeroDivision | NameError | TypeError

  /** The `Debug` name of a kind, as the traceback prints it. */
  function KindName(k: ErrorKind): string {
    match k
    case SyntaxError => "SyntaxError"
    case EndOfFile => "EndOfFile"
    case Undefined => "Undefined"
    case ZeroDivision => "ZeroDivision"
    case NameError => "NameError"
    case TypeError => "TypeError"
  }

  /** A position together with the chain of enclosing positions the traceback walks. */
  datatype Trace = Trace(pos: Position, context: Option<Trace>)

  datatype Error = Error(kind: ErrorKind, message: string, position: Option<Trace>)

  /** `Error::new`: a position, when given, starts a traceback of one frame. */
  function New(kind: ErrorKind, message: string, position: Option<Position>): (e: Error)
    ensures e.kind == kind && e.message == message
    ensures position.None? <==> e.position.None?
    ensures position.Some? ==> e.position == Some(Trace(position.value, None))
  {
    Error(kind, message, if position.Some? then Some(Trace(position.value, None)) else None)
  }

  /** `with_position`: keep kind and message, replace the position. */
  function WithPosition(e: Error, position: Position): (r: Error)
    ensures r.kind == e.kind && r.message == e.message
    ensures r.position == Some(Trace(position, None))
  {
    Error(e.kind, e.message, Some(Trace(position, None)))
  }

  /** One traceback line; lines are printed 1-based, columns as stored. */
  function FrameLine(p: Position): string {
    "  File " + p.filename + ", line " + NatToString(p.line + 1) + ", column " + IntToString(p.column) + ":\n"
  }

  /**
   * The traceback text the loop of `fmt` builds from `t`: every frame is
   * prepended, so the frames reached later along the chain come first.
   */
  function TracebackText(t: Trace): string
    decreases t
  {
    (if t.context.Some? then TracebackText(t.context.value) else "") + FrameLine(t.pos)
  }

  /** The text `Display` gives an error. */
  function ErrorText(e: Error): string {
    (if e.position.Some? then "ERROR - Traceback:\n" + TracebackText(e.position.value) else "")
      + KindName(e.kind) + ": " + e.message
  }

  /** The text still to be prepended for the frames from `c` on. */
  function Pending(c: Option<Trace>): string {
    if c.Some? then TracebackText(c.value) else ""
  }

  lemma ConcatAssociates(a: string, b: string, c: string)
    ensures (a + b) + c == a + (b + c)
  {
  }

  /** The loop of `fmt`: walk the chain, prepending one line per frame. */
  method BuildTraceback(position: Trace) returns (traceback: string)
    ensures traceback == TracebackText(position)
  {
    traceback := "";
    var context := Some(position);
    while context.Some?
      invariant TracebackText(position) == Pending(context) + traceback
      decreases context
    {
      var ctx := context.value;
      var line := FrameLine(ctx.pos);
      assert TracebackText(ctx) == Pending(ctx.context) + line;
      ConcatAssociates(Pending(ctx.context), line, traceback);
      traceback := line + traceback;
      context := ctx.context;
    }
  }

  /** `fmt`: the header and traceback when the error has a position, then kind and message. */
  method Display(e: Error) returns (s: string)
    ensures s == ErrorText(e)
  {
    var positionHint := "";
    if e.position.Some? {
      var traceback := BuildTraceback(e.position.value);
      positionHint := "ERROR - Traceback:\n" + traceback;
    }
    s := positionHint + KindName(e.kind) + ": " + e.message;
  }

  /** The frames of a trace in the order the loop visits them. */
  function Frames(t: Trace): (fs: seq<Position>)
    ensures |fs| > 0 && fs[0] == t.pos
    decreases t
  {
    [t.pos] + (if t.context.Some? then Frames(t.context.value) else [])
  }

  function Reverse<T>(s: seq<T>): (r: seq<T>)
    ensures |r| == |s|
  {
    if s == [] then [] else Reverse(s[1..]) + [s[0]]
  }

  function Lines(ps: seq<Position>): string {
    if ps == [] then "" else FrameLine(ps[0]) + Lines(ps[1..])
  }

  lemma {:induction false} LinesAppend(ps: seq<Position>, p: Position)
    ensures Lines(ps + [p]) == Lines(ps) + FrameLine(p)
  {
    if ps != [] {
      assert (ps + [p])[1..] == ps[1..] + [p];
      LinesAppend(ps[1..], p);
    }
  }

  /** The traceback prints one line per frame, the frame visited last first. */
  lemma {:induction false} TracebackIsReversedFrames(t: Trace)
    ensures TracebackText(t) == Lines(Reverse(Frames(t)))
    decreases t
  {
    var rest := if t.context.Some? then Frames(t.context.value) else [];
    assert Frames(t)[1..] == rest;
    if t.context.Some? {
      TracebackIsReversedFrames(t.context.value);
    }
    LinesAppend(Reverse(rest), t.pos);
  }

  /** Without a position only "<Kind>: <message>" is printed. */
  lemma DisplayWithoutPosition(e: Error)
    requires e.position.None?
    ensures ErrorText(e) == KindName(e.kind) + ": " + e.message
  {
  }

  /** With a position the text is the header, one line per frame (last visited first), then the kind and message. */
  lemma DisplayWithPosition(e: Error)
    requires e.position.Some?
    ensures ErrorText(e) ==
              "ERROR - Traceback:\n" + Lines(Reverse(Frames(e.position.value)))
              + KindName(e.kind) + ": " + e.message
  {
    TracebackIsReversedFrames(e.position.value);
  }
}
