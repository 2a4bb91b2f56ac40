/** Whole compilations of particular loops.  The children's analyses are written out as
    the type checker and the block would conclude them. */
module ForScenarios {
  import opened Wrappers
  import opened Tree
  import opened Writer
  import opened ForAnalysis
  import opened ForProperties

  const VoidType := ClassType("void")

  /** Only the entries for children a loop has are consulted. */
  const NoOutcomes := ChildOutcomes(Pass, Failure("absent"), Failure("absent"), Failure("absent"), Failure("absent"))

  /** `for (int i = 0; i < 5; i = i + 1) { sum = sum + i; }` with the loop counter in slot 1:
      tested on every iteration, charged two statements (body and afterthought), continued
      at the afterthought.  The assignment, analyzed without read intent, has type void, so
      its pop discards a value of size zero. */
  method CountingLoop() returns (r: Outcome<Error>, code: seq<Instr>)
    ensures r == Pass
    ensures code == [ChildCode(InitializerPart), Mark(0), ChildCode(ConditionPart), IfFalse(2),
                     LoopCounter(1, 2), Body(1, 2), Mark(1), ChildCode(AfterthoughtPart), Pop(VoidType),
                     Goto(0), Mark(2)]
  {
    var c := NoOutcomes.(condition := Success(ExprFacts(false, None, BooleanType)),
                         afterthought := Success(ExprFacts(true, None, VoidType)),
                         block := Success(Summary(false, false, false, false, 1)));
    r, code := CompileFor(DeclInit, Some(Unanalyzed), Some(Unanalyzed), true, c, Some(Variable(1)));
  }

  /** `for (;;);`: no condition and no body is accepted, charged one statement per
      iteration and jumps back forever. */
  method EmptyInfiniteLoop() returns (r: Outcome<Error>, code: seq<Instr>)
    ensures r == Pass
    ensures code == [Mark(0), LoopCounter(1, 1), Goto(0), Mark(1)]
  {
    r, code := CompileFor(NoInit, None, None, false, NoOutcomes, Some(Variable(1)));
  }

  /** `for (; false; ) { x = 1; }` is extraneous. */
  method DeadLoop() returns (r: Outcome<Error>, code: seq<Instr>)
    ensures r == Fail(ExtraneousLoop) && code == []
  {
    var c := NoOutcomes.(condition := Success(ExprFacts(false, Some(false), BooleanType)),
                         block := Success(Summary(false, false, false, false, 1)));
    r, code := CompileFor(NoInit, Some(Unanalyzed), None, true, c, None);
  }

  /** `for (; true; );` has no escape. */
  method BodilessTrueLoop() returns (r: Outcome<Error>, code: seq<Instr>)
    ensures r == Fail(NoEscape) && code == []
  {
    var c := NoOutcomes.(condition := Success(ExprFacts(false, Some(true), BooleanType)));
    r, code := CompileFor(NoInit, Some(Unanalyzed), None, false, c, None);
  }

  /** `for (x == 1; ; ) { ... }`: a comparison is not a statement. */
  method ComparisonInitializer() returns (r: Outcome<Error>, code: seq<Instr>)
    ensures r == Fail(NotAStatement) && code == []
  {
    var c := NoOutcomes.(initializer := Success(ExprFacts(false, None, BooleanType)),
                         block := Success(Summary(false, false, false, false, 1)));
    r, code := CompileFor(ExprInit(Unanalyzed), None, None, true, c, None);
  }

  /** `for (;;) { return x; }`: the body always leaves without continuing, so the loop is
      extraneous. */
  method ReturningBody() returns (r: Outcome<Error>, code: seq<Instr>)
    ensures r == Fail(ExtraneousLoop) && code == []
  {
    var c := NoOutcomes.(block := Success(Summary(true, false, false, true, 1)));
    r, code := CompileFor(NoInit, None, None, true, c, None);
  }

  /** `for (;;) { if (c) continue; return x; }`: continuous and never breaking, so nothing
      after it is reachable; the body escapes on every path, so no jump back is written. */
  method NonTerminatingLoop() returns (r: Outcome<Error>, code: seq<Instr>)
    ensures r == Pass
    ensures code == [Mark(0), Body(0, 1), Mark(1)]
  {
    var c := NoOutcomes.(block := Success(Summary(true, true, false, true, 2)));
    r, code := CompileFor(NoInit, None, None, true, c, None);
  }
}
