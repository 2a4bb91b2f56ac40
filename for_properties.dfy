/** What analysis implies for the code that is then written, and a whole compilation of
    one loop: build the node, analyze it, write it. */
module ForProperties {
  import opened Wrappers
  import opened Tree
  import opened Writer
  import opened Blocks
  import opened ForAnalysis
  import opened ForCodegen
  import opened ForLoop

  /** What code generation reads after a successful analysis. */
  function AnalyzedView(a: Annotation): WriteView
    requires Typed(a.initializer, a.afterthought)
  {
    ViewOf(a.initializer, a.condition, a.continuous, a.afterthought,
           if a.body.None? then None else Some(BodyView(a.body.value.allEscape, a.body.value.statementCount)),
           a.loopCounter)
  }

  /** After a successful analysis the node reads, for code generation, what the analysis derived. */
  lemma ViewAfterAnalysis(n: SFor, a: Annotation)
    requires n.Holds(a) && Typed(a.initializer, a.afterthought)
    ensures n.Emittable() && n.View() == AnalyzedView(a)
  {
  }

  /** After analysis the condition is evaluated, and the loop left when it is false, exactly
      when there is a condition and it does not fold to a constant. */
  lemma TestedIffNotConstant(s: Syntax, c: ChildOutcomes, loop: Option<Variable>, lb: Labels)
    requires Analysis(s, c, loop).Success?
    ensures var a := Analysis(s, c, loop).value;
      && Typed(a.initializer, a.afterthought)
      && (IfFalse(lb.end) in LoopCode(AnalyzedView(a), lb) <==> s.condition.Some? && c.condition.value.constant.None?)
      && (ChildCode(ConditionPart) in LoopCode(AnalyzedView(a), lb) <==> s.condition.Some? && c.condition.value.constant.None?)
  {
    ConditionTestedIff(AnalyzedView(Analysis(s, c, loop).value), lb);
  }

  /** A loop that analysis marks as never falling through (continuous, a body that never
      breaks) has no exit: nothing tests a condition and only the body's break target, which
      it never uses, names the end label. */
  lemma EscapingLoopHasNoExit(s: Syntax, c: ChildOutcomes, loop: Option<Variable>, lb: Labels)
    requires lb == LabelsFrom(lb.start, s.afterthought.Some?)
    requires Analysis(s, c, loop).Success? && Analysis(s, c, loop).value.escapes
    ensures var a := Analysis(s, c, loop).value;
      && Typed(a.initializer, a.afterthought)
      && s.hasBlock && !c.block.value.anyBreak
      && forall x | x in LoopCode(AnalyzedView(a), lb) && JumpsTo(x, lb.end) :: x == Body(lb.begin, lb.end)
  {
    var v := AnalyzedView(Analysis(s, c, loop).value);
    ConditionTestedIff(v, lb);
    ExitOnlyByTestOrBreak(v, lb);
  }

  /** After analysis the budget is charged exactly when the enclosing scope holds the loop
      counter, and by the body's statement count (at least one) plus one for an afterthought,
      or by one when there is no body. */
  lemma ChargeAfterAnalysis(s: Syntax, c: ChildOutcomes, loop: Option<Variable>, lb: Labels)
    requires lb == LabelsFrom(lb.start, s.afterthought.Some?)
    requires Analysis(s, c, loop).Success?
    ensures var a := Analysis(s, c, loop).value;
      var cost := if s.hasBlock then Max(1, c.block.value.statementCount) + (if s.afterthought.Some? then 1 else 0) else 1;
      && Typed(a.initializer, a.afterthought)
      && (loop.Some? ==> LoopCounter(loop.value.slot, cost) in LoopCode(AnalyzedView(a), lb))
      && forall x | x in LoopCode(AnalyzedView(a), lb) && x.LoopCounter? :: loop == Some(Variable(x.slot)) && x.cost == cost
  {
    CounterBeforeBody(AnalyzedView(Analysis(s, c, loop).value), lb);
  }

  /** Compiles one loop: builds the node (and its body when it has one), analyzes it in a
      scope that holds `loop`, and writes it into a fresh method writer. */
  method CompileFor(init: Initializer, cond: Option<Expr>, after: Option<Expr>, hasBlock: bool,
                    c: ChildOutcomes, loop: Option<Variable>) returns (r: Outcome<Error>, code: seq<Instr>)
    ensures var a := Analysis(Syntax(init, cond, after, hasBlock), c, loop);
      && (r.Pass? <==> a.Success?)
      && (a.Failure? ==> r == Fail(a.error) && code == [])
      && (a.Success? ==> Typed(a.value.initializer, a.value.afterthought) &&
                         code == LoopCode(AnalyzedView(a.value), LabelsFrom(0, after.Some?)))
  {
    var block: SBlock? := null;
    if hasBlock {
      block := new SBlock();
    }
    var n := new SFor(init, cond, after, block);
    r := n.Analyze(loop, c);
    if r.Fail? {
      code := [];
      return;
    }
    ghost var a := Analysis(Syntax(init, cond, after, hasBlock), c, loop).value;
    ViewAfterAnalysis(n, a);
    var w := new MethodWriter();
    n.Write(w);
    code := w.code;
  }
}
