/** The nodes a Painless for loop owns, reduced to the facts the loop reads from them and
    the fields it writes into them.  Expression type checking, the declaration block and
    the block's own statements are not part of this model: what their analysis concludes
    is given to the loop as an outcome. */
module Tree {
  import opened Wrappers

  /** A static type.  The loop only ever asks for boolean (its condition). */
  datatype Type = BooleanType | ClassType(name: string)

  /** The reserved local variable `#loop` that holds the loop budget counter. */
  datatype Variable = Variable(slot: nat)

  /** An expression node (AExpression) as a statement that owns it sees it: the intent
      flag `read`, the `statement` flag, the `expected` and `actual` types and the folded
      boolean `constant`.  The two types are absent (null) until analysis. */
  datatype Expr = Expr(read: bool, statement: bool, expected: Option<Type>, actual: Option<Type>,
                       constant: Option<bool>)

  /** An expression as the parser builds it: read intent on, nothing inferred yet. */
  const Unanalyzed: Expr := Expr(true, false, None, None, None)

  /** What the analysis of an expression concludes: may it stand alone as a statement,
      does it fold to a constant, and of which type is its value. */
  datatype ExprFacts = ExprFacts(statement: bool, constant: Option<bool>, actual: Type)

  /** The initializer of a for loop: absent, a declaration block (SDeclBlock), an
      expression (AExpression), or any other node, which the parser never builds. */
  datatype Initializer = NoInit | DeclInit | ExprInit(expr: Expr) | OtherInit

  /** The control-flow summary a block computes about its statements. */
  datatype Summary = Summary(loopEscape: bool, anyContinue: bool, anyBreak: bool, allEscape: bool,
                             statementCount: int)

  /** The compiler errors analysis can raise.  ChildError is an error raised inside a child,
      which the loop lets through unchanged. */
  datatype Error = NotAStatement | ExtraneousLoop | NoEscape | IllegalTreeStructure | ChildError(message: string)

  /** The text of the exception each error is reported with. */
  function Message(e: Error): (m: string)
    ensures e.ChildError? ==> m == e.message
    ensures !e.ChildError? ==> |m| > 0 && m[|m| - 1] == '.'
  {
    match e
    case NotAStatement => "Not a statement."
    case ExtraneousLoop => "Extraneous for loop."
    case NoEscape => "For loop has no escape."
    case IllegalTreeStructure => "Illegal tree structure."
    case ChildError(m) => m
  }

  /** The four errors of the loop itself are told apart by their messages. */
  lemma LoopMessagesDistinct(e: Error, e': Error)
    requires !e.ChildError? && !e'.ChildError? && e != e'
    ensures Message(e) != Message(e')
  {
  }

  /** Of the loop's own errors, only IllegalTreeStructure is an IllegalStateException (a
      compiler fault); the other three are IllegalArgumentExceptions (script errors).  A
      child's error keeps only its message, so its exception class is not known here. */
  predicate IsInternal(e: Error): (internal: bool)
    ensures internal ==> Message(e) == "Illegal tree structure."
    ensures e.ChildError? ==> !internal
    ensures e == NotAStatement || e == ExtraneousLoop || e == NoEscape ==> !internal
  {
    e == IllegalTreeStructure
  }

  /** The effect of AExpression.analyze on the node: on success it records what the
      analysis concluded; a failure is the exception it throws. */
  function AnalyzeExpr(e: Expr, outcome: Result<ExprFacts, string>): (r: Result<Expr, Error>)
    ensures r.Failure? <==> outcome.Failure?
    ensures outcome.Failure? ==> r.error == ChildError(outcome.error)
    // what the owner set before the analysis is kept
    ensures r.Success? ==> r.value.read == e.read && r.value.expected == e.expected
    // what the analysis concluded is recorded
    ensures r.Success? ==> r.value.statement == outcome.value.statement && r.value.constant == outcome.value.constant
    ensures r.Success? ==> r.value.actual == Some(outcome.value.actual)
  {
    match outcome
    case Failure(m) => Failure(ChildError(m))
    case Success(f) => Success(e.(statement := f.statement, constant := f.constant, actual := Some(f.actual)))
  }

  /** AExpression.cast: the implicit conversion to the expected type, modelled as the identity.
      A conversion the condition may need (from `def` or `Boolean`) is part of its code, which
      this model does not look into. */
  function Cast(e: Expr): Expr { e }

  /** A child's failure, as an error of the loop. */
  function Lift<T>(outcome: Result<T, string>): Result<T, Error> {
    match outcome
    case Failure(m) => Failure(ChildError(m))
    case Success(v) => Success(v)
  }

  function Max(a: int, b: int): int { if a < b then b else a }
}
