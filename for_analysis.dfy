/** Semantic analysis of a for loop (SFor.analyze) as a function of the loop's children, what
    their own analyses conclude and whether the enclosing scope holds the loop counter.
    The checks run in the source's order, initializer, condition, afterthought, body, and the
    first one that fails decides the error. */
module ForAnalysis {
  import opened Wrappers
  import opened Tree

  /** The loop as the parser builds it. */
  datatype Syntax = Syntax(initializer: Initializer, condition: Option<Expr>, afterthought: Option<Expr>,
                           hasBlock: bool)

  /** What the analyses of the children conclude (or the error they raise).  Only the entries
      for children the loop has are consulted. */
  datatype ChildOutcomes = ChildOutcomes(declBlock: Outcome<string>,
                                         initializer: Result<ExprFacts, string>,
                                         condition: Result<ExprFacts, string>,
                                         afterthought: Result<ExprFacts, string>,
                                         block: Result<Summary, string>)

  /** The state a successful analysis leaves: the analyzed children, whether the condition
      folds away (`continuous`), whether the loop never falls through (`escapes`, which sets
      methodEscape and allEscape), the normalized body summary, the loop's own statement
      count and the loop counter it claims. */
  datatype Annotation = Annotation(initializer: Initializer, condition: Option<Expr>, afterthought: Option<Expr>,
                                   continuous: bool, escapes: bool, body: Option<Summary>,
                                   statementCount: int, loopCounter: Option<Variable>)

  datatype Guard = Guard(condition: Option<Expr>, continuous: bool)

  datatype BodyFacts = BodyFacts(escapes: bool, body: Option<Summary>)

  /** An expression used as a statement (initializer or afterthought): analyzed without read
      intent, it must be statement-shaped, and it is expected to have its own type. */
  function AnalyzeStatementExpr(e: Expr, outcome: Result<ExprFacts, string>): (r: Result<Expr, Error>)
    ensures r.Success? <==> outcome.Success? && outcome.value.statement
    ensures outcome.Failure? ==> r == Failure(ChildError(outcome.error))
    ensures outcome.Success? && !outcome.value.statement ==> r == Failure(NotAStatement)
    ensures r.Success? ==> !r.value.read && r.value.statement
    ensures r.Success? ==> r.value.expected == r.value.actual == Some(outcome.value.actual)
    ensures r.Success? ==> r.value.constant == outcome.value.constant
  {
    var x :- AnalyzeExpr(e.(read := false), outcome);
    if !x.statement then Failure(NotAStatement) else Success(Cast(x.(expected := x.actual)))
  }

  function AnalyzeInitializer(init: Initializer, c: ChildOutcomes): (r: Result<Initializer, Error>)
    ensures r == Failure(IllegalTreeStructure) <==> init.OtherInit?
    ensures init.NoInit? ==> r == Success(NoInit)
    ensures init.DeclInit? ==> r == if c.declBlock.Pass? then Success(DeclInit) else Failure(ChildError(c.declBlock.error))
    ensures init.ExprInit? ==> r.Success? == AnalyzeStatementExpr(init.expr, c.initializer).Success?
    ensures r.Success? && init.ExprInit? ==> r.value == ExprInit(AnalyzeStatementExpr(init.expr, c.initializer).value)
    ensures init.ExprInit? && AnalyzeStatementExpr(init.expr, c.initializer).Failure? ==>
      r == Failure(AnalyzeStatementExpr(init.expr, c.initializer).error)
  {
    match init
    case NoInit => Success(NoInit)
    case DeclInit => if c.declBlock.Fail? then Failure(ChildError(c.declBlock.error)) else Success(DeclInit)
    case ExprInit(e) =>
      var x :- AnalyzeStatementExpr(e, c.initializer);
      Success(ExprInit(x))
    case OtherInit => Failure(IllegalTreeStructure)
  }

  /** The condition is expected to be boolean.  A constant false one makes the loop dead; a
      constant true one makes it continuous and then needs a body; an absent one makes the
      loop continuous with neither check. */
  function AnalyzeCondition(cond: Option<Expr>, hasBlock: bool, outcome: Result<ExprFacts, string>): (r: Result<Guard, Error>)
    ensures cond.None? ==> r == Success(Guard(None, true))
    ensures cond.Some? && outcome.Failure? ==> r == Failure(ChildError(outcome.error))
    ensures cond.Some? && outcome.Success? && outcome.value.constant == Some(false) ==> r == Failure(ExtraneousLoop)
    ensures cond.Some? && outcome.Success? && outcome.value.constant == Some(true) && !hasBlock ==> r == Failure(NoEscape)
    ensures r.Success? <==> cond.None? || (outcome.Success? && outcome.value.constant != Some(false)
                                           && (outcome.value.constant == Some(true) ==> hasBlock))
    ensures r.Success? ==> (r.value.continuous <==> cond.None? || outcome.value.constant == Some(true))
    ensures r.Success? && cond.Some? ==>
      r.value.condition == Some(cond.value.(expected := Some(BooleanType), statement := outcome.value.statement,
                                            constant := outcome.value.constant, actual := Some(outcome.value.actual)))
  {
    match cond
    case None => Success(Guard(None, true))
    case Some(e) =>
      var x :- AnalyzeExpr(e.(expected := Some(BooleanType)), outcome);
      var x := Cast(x);
      match x.constant
      case None => Success(Guard(Some(x), false))
      case Some(b) =>
        if !b then Failure(ExtraneousLoop)
        else if !hasBlock then Failure(NoEscape)
        else Success(Guard(Some(x), true))
  }

  function AnalyzeAfterthought(after: Option<Expr>, outcome: Result<ExprFacts, string>): (r: Result<Option<Expr>, Error>)
    ensures after.None? ==> r == Success(None)
    ensures after.Some? ==> r.Success? == AnalyzeStatementExpr(after.value, outcome).Success?
    ensures r.Success? && after.Some? ==> r.value == Some(AnalyzeStatementExpr(after.value, outcome).value)
    ensures after.Some? && AnalyzeStatementExpr(after.value, outcome).Failure? ==>
      r == Failure(AnalyzeStatementExpr(after.value, outcome).error)
  {
    match after
    case None => Success(None)
    case Some(e) =>
      var x :- AnalyzeStatementExpr(e, outcome);
      Success(Some(x))
  }

  /** The body runs as the innermost loop's block.  One that always leaves the loop without
      ever continuing makes the loop extraneous; a continuous loop whose body never breaks
      never falls through; the body costs at least one statement. */
  function AnalyzeBody(hasBlock: bool, continuous: bool, outcome: Result<Summary, string>): (r: Result<BodyFacts, Error>)
    ensures !hasBlock ==> r == Success(BodyFacts(false, None))
    ensures hasBlock && outcome.Failure? ==> r == Failure(ChildError(outcome.error))
    ensures hasBlock && outcome.Success? && outcome.value.loopEscape && !outcome.value.anyContinue ==>
      r == Failure(ExtraneousLoop)
    ensures r.Success? <==> !hasBlock || (outcome.Success? && !(outcome.value.loopEscape && !outcome.value.anyContinue))
    ensures r.Success? ==> (r.value.escapes <==> hasBlock && continuous && !outcome.value.anyBreak)
    ensures r.Success? ==> (r.value.body.Some? <==> hasBlock)
    ensures r.Success? && hasBlock ==>
      r.value.body.value.statementCount >= 1 &&
      r.value.body.value.statementCount >= outcome.value.statementCount &&
      (outcome.value.statementCount >= 1 ==> r.value.body.value.statementCount == outcome.value.statementCount) &&
      (outcome.value.statementCount < 1 ==> r.value.body.value.statementCount == 1) &&
      r.value.body.value.(statementCount := outcome.value.statementCount) == outcome.value
  {
    if !hasBlock then Success(BodyFacts(false, None))
    else
      var s :- Lift(outcome);
      if s.loopEscape && !s.anyContinue then Failure(ExtraneousLoop)
      else Success(BodyFacts(continuous && !s.anyBreak, Some(s.(statementCount := Max(1, s.statementCount)))))
  }

  /** SFor.analyze.  `loop` is the reserved loop-counter variable visible from the enclosing
      scope, if budget checking is on. */
  function Analysis(s: Syntax, c: ChildOutcomes, loop: Option<Variable>): (r: Result<Annotation, Error>)
    // each stage's error is reported when the stages before it pass
    ensures AnalyzeInitializer(s.initializer, c).Failure? ==> r == Failure(AnalyzeInitializer(s.initializer, c).error)
    ensures AnalyzeInitializer(s.initializer, c).Success? && AnalyzeCondition(s.condition, s.hasBlock, c.condition).Failure? ==>
      r == Failure(AnalyzeCondition(s.condition, s.hasBlock, c.condition).error)
    ensures AnalyzeInitializer(s.initializer, c).Success? && AnalyzeCondition(s.condition, s.hasBlock, c.condition).Success? &&
            AnalyzeAfterthought(s.afterthought, c.afterthought).Failure? ==>
      r == Failure(AnalyzeAfterthought(s.afterthought, c.afterthought).error)
    ensures AnalyzeInitializer(s.initializer, c).Success? && AnalyzeCondition(s.condition, s.hasBlock, c.condition).Success? &&
            AnalyzeAfterthought(s.afterthought, c.afterthought).Success? &&
            AnalyzeBody(s.hasBlock, AnalyzeCondition(s.condition, s.hasBlock, c.condition).value.continuous, c.block).Failure? ==>
      r == Failure(AnalyzeBody(s.hasBlock, AnalyzeCondition(s.condition, s.hasBlock, c.condition).value.continuous, c.block).error)
    // only a malformed tree is a compiler fault; every other failure is the script's
    ensures r.Failure? && IsInternal(r.error) <==> s.initializer.OtherInit?
    // the initializer's checks come first
    ensures s.initializer.OtherInit? ==> r == Failure(IllegalTreeStructure)
    ensures s.initializer.ExprInit? && c.initializer.Success? && !c.initializer.value.statement ==>
      r == Failure(NotAStatement)
    // then the condition's
    ensures AnalyzeInitializer(s.initializer, c).Success? && s.condition.Some? && c.condition.Success? ==>
      (c.condition.value.constant == Some(false) ==> r == Failure(ExtraneousLoop)) &&
      (c.condition.value.constant == Some(true) && !s.hasBlock ==> r == Failure(NoEscape))
    // an absent condition is never reported as dead or inescapable
    ensures s.condition.None? ==> r != Failure(NoEscape)
    ensures s.condition.None? && r == Failure(ExtraneousLoop) ==> s.hasBlock
    // then the afterthought's
    ensures AnalyzeInitializer(s.initializer, c).Success? && AnalyzeCondition(s.condition, s.hasBlock, c.condition).Success? &&
            s.afterthought.Some? && c.afterthought.Success? && !c.afterthought.value.statement ==>
      r == Failure(NotAStatement)
    // and last the body's
    ensures AnalyzeInitializer(s.initializer, c).Success? && AnalyzeCondition(s.condition, s.hasBlock, c.condition).Success? &&
            AnalyzeAfterthought(s.afterthought, c.afterthought).Success? &&
            s.hasBlock && c.block.Success? && c.block.value.loopEscape && !c.block.value.anyContinue ==>
      r == Failure(ExtraneousLoop)
    ensures r.Success? <==>
      AnalyzeInitializer(s.initializer, c).Success? && AnalyzeCondition(s.condition, s.hasBlock, c.condition).Success? &&
      AnalyzeAfterthought(s.afterthought, c.afterthought).Success? &&
      AnalyzeBody(s.hasBlock, true, c.block).Success?
    // what a successful analysis leaves
    ensures r.Success? ==> (r.value.continuous <==> s.condition.None? || c.condition.value.constant == Some(true))
    ensures r.Success? ==> (r.value.escapes <==> s.hasBlock && r.value.continuous && !c.block.value.anyBreak)
    ensures r.Success? ==> r.value.statementCount == 1 && r.value.loopCounter == loop
    ensures r.Success? ==> (r.value.body.Some? <==> s.hasBlock)
    ensures r.Success? && s.hasBlock ==> r.value.body.value.statementCount >= 1
    ensures r.Success? && r.value.initializer.ExprInit? ==>
      var e := r.value.initializer.expr; !e.read && e.statement && e.expected.Some? && e.expected == e.actual
    ensures r.Success? && r.value.afterthought.Some? ==>
      var e := r.value.afterthought.value; !e.read && e.statement && e.expected.Some? && e.expected == e.actual
    ensures r.Success? ==> (r.value.initializer.ExprInit? <==> s.initializer.ExprInit?)
    ensures r.Success? ==> (r.value.initializer.DeclInit? <==> s.initializer.DeclInit?)
    ensures r.Success? ==> r.value.condition.Some? == s.condition.Some? && r.value.afterthought.Some? == s.afterthought.Some?
    ensures r.Success? && r.value.condition.Some? ==> r.value.condition.value.expected == Some(BooleanType)
    // the analyzed children and the body summary are the stages' results
    ensures r.Success? ==>
      && r.value.initializer == AnalyzeInitializer(s.initializer, c).value
      && r.value.condition == AnalyzeCondition(s.condition, s.hasBlock, c.condition).value.condition
      && r.value.afterthought == AnalyzeAfterthought(s.afterthought, c.afterthought).value
      && r.value.body == AnalyzeBody(s.hasBlock, r.value.continuous, c.block).value.body
  {
    var init :- AnalyzeInitializer(s.initializer, c);
    var guard :- AnalyzeCondition(s.condition, s.hasBlock, c.condition);
    var after :- AnalyzeAfterthought(s.afterthought, c.afterthought);
    var body :- AnalyzeBody(s.hasBlock, guard.continuous, c.block);
    Success(Annotation(init, guard.condition, after, guard.continuous, body.escapes, body.body, 1, loop))
  }
}
