/** The for-loop statement node (SFor): analysis updates the node and its body in place,
    code generation appends to the method writer. */
module ForLoop {
  import opened Wrappers
  import opened Tree
  import opened Writer
  import opened Blocks
  import opened ForAnalysis
  import opened ForCodegen

  class SFor {
    var initializer: Initializer
    var condition: Option<Expr>
    var afterthought: Option<Expr>
    const block: SBlock?
    var continuous: bool
    // the statement fields (AStatement) the loop sets
    var methodEscape: bool
    var allEscape: bool
    var statementCount: int
    var loopCounter: Option<Variable>

    constructor (initializer: Initializer, condition: Option<Expr>, afterthought: Option<Expr>, block: SBlock?)
      ensures Parsed() == Syntax(initializer, condition, afterthought, block != null) && this.block == block
      ensures Fresh()
    {
      this.initializer := initializer;
      this.condition := condition;
      this.afterthought := afterthought;
      this.block := block;
      continuous := false;
      methodEscape, allEscape, statementCount, loopCounter := false, false, 0, None;
    }

    /** The loop's children. */
    function Parsed(): Syntax
      reads this
    {
      Syntax(initializer, condition, afterthought, block != null)
    }

    /** Nothing has been derived yet: a node is analyzed once, right after it is built. */
    predicate Fresh()
      reads this
    {
      !continuous && !methodEscape && !allEscape && statementCount == 0 && loopCounter.None?
    }

    /** The node and its body hold what a successful analysis derived. */
    ghost predicate Holds(a: Annotation)
      reads this, block
    {
      && initializer == a.initializer && condition == a.condition && afterthought == a.afterthought
      && continuous == a.continuous && methodEscape == a.escapes && allEscape == a.escapes
      && statementCount == a.statementCount && loopCounter == a.loopCounter
      && (block == null <==> a.body.None?)
      && (block != null ==> block.beginLoop && block.inLoop && block.Facts() == a.body.value)
    }

    /** SFor.analyze.  `loop` is the reserved loop-counter variable the enclosing scope holds
        (and so the loop's own new scope sees), `c` what the children's analyses conclude.
        The four checks run in order and the first failure ends the analysis. */
    method Analyze(loop: Option<Variable>, c: ChildOutcomes) returns (r: Outcome<Error>)
      requires Fresh()
      modifies this, block
      ensures var a := Analysis(old(Parsed()), c, loop);
        && (r.Pass? <==> a.Success?)
        && (a.Failure? ==> r == Fail(a.error))
        && (a.Success? ==> Holds(a.value))
      ensures block != null ==> block.continu == old(block.continu) && block.brake == old(block.brake)
    {
      r := AnalyzeInitializerStep(c);
      if r.Fail? {
        return;
      }
      r := AnalyzeConditionStep(c);
      if r.Fail? {
        return;
      }
      r := AnalyzeAfterthoughtStep(c);
      if r.Fail? {
        return;
      }
      r := AnalyzeBodyStep(c);
      if r.Fail? {
        return;
      }
      statementCount := 1;
      if loop.Some? {
        loopCounter := loop;
      }
    }

    /** A declaration block is analyzed as it is; an expression must be a statement. */
    method AnalyzeInitializerStep(c: ChildOutcomes) returns (r: Outcome<Error>)
      modifies this`initializer
      ensures var a := AnalyzeInitializer(old(initializer), c);
        && (r.Pass? <==> a.Success?)
        && (a.Failure? ==> r == Fail(a.error))
        && (a.Success? ==> initializer == a.value)
    {
      match initializer {
        case NoInit =>
          r := Pass;
        case DeclInit =>
          r := if c.declBlock.Fail? then Fail(ChildError(c.declBlock.error)) else Pass;
        case ExprInit(e) =>
          var analyzed := AnalyzeExpr(e.(read := false), c.initializer);
          if analyzed.Failure? {
            return Fail(analyzed.error);
          }
          var x := analyzed.value;
          if !x.statement {
            return Fail(NotAStatement);
          }
          x := x.(expected := x.actual);
          initializer := ExprInit(Cast(x));
          r := Pass;
        case OtherInit =>
          r := Fail(IllegalTreeStructure);
      }
    }

    method AnalyzeConditionStep(c: ChildOutcomes) returns (r: Outcome<Error>)
      requires !continuous
      modifies this`condition, this`continuous
      ensures var a := AnalyzeCondition(old(condition), block != null, c.condition);
        && (r.Pass? <==> a.Success?)
        && (a.Failure? ==> r == Fail(a.error))
        && (a.Success? ==> condition == a.value.condition && continuous == a.value.continuous)
    {
      if condition.Some? {
        var analyzed := AnalyzeExpr(condition.value.(expected := Some(BooleanType)), c.condition);
        if analyzed.Failure? {
          return Fail(analyzed.error);
        }
        condition := Some(Cast(analyzed.value));
        if condition.value.constant.Some? {
          continuous := condition.value.constant.value;
          if !continuous {
            return Fail(ExtraneousLoop);
          }
          if block == null {
            return Fail(NoEscape);
          }
        }
      } else {
        continuous := true;
      }
      r := Pass;
    }

    method AnalyzeAfterthoughtStep(c: ChildOutcomes) returns (r: Outcome<Error>)
      modifies this`afterthought
      ensures var a := AnalyzeAfterthought(old(afterthought), c.afterthought);
        && (r.Pass? <==> a.Success?)
        && (a.Failure? ==> r == Fail(a.error))
        && (a.Success? ==> afterthought == a.value)
    {
      r := Pass;
      if afterthought.Some? {
        var analyzed := AnalyzeExpr(afterthought.value.(read := false), c.afterthought);
        if analyzed.Failure? {
          return Fail(analyzed.error);
        }
        var x := analyzed.value;
        if !x.statement {
          return Fail(NotAStatement);
        }
        x := x.(expected := x.actual);
        afterthought := Some(Cast(x));
      }
    }

    /** The body is analyzed as the innermost loop's block. */
    method AnalyzeBodyStep(c: ChildOutcomes) returns (r: Outcome<Error>)
      requires !methodEscape && !allEscape
      modifies this`methodEscape, this`allEscape, block
      ensures var a := AnalyzeBody(block != null, continuous, c.block);
        && (r.Pass? <==> a.Success?)
        && (a.Failure? ==> r == Fail(a.error))
        && (a.Success? ==> methodEscape == a.value.escapes && allEscape == a.value.escapes)
        && (a.Success? && block != null ==> block.beginLoop && block.inLoop && block.Facts() == a.value.body.value)
      ensures block != null ==> block.continu == old(block.continu) && block.brake == old(block.brake)
    {
      r := Pass;
      if block != null {
        block.beginLoop := true;
        block.inLoop := true;
        var b := block.Analyze(c.block);
        if b.Fail? {
          return Fail(ChildError(b.error));
        }
        if block.loopEscape && !block.anyContinue {
          return Fail(ExtraneousLoop);
        }
        if continuous && !block.anyBreak {
          methodEscape := true;
          allEscape := true;
        }
        block.statementCount := Max(1, block.statementCount);
      }
    }

    predicate Emittable()
      reads this
    {
      Typed(initializer, afterthought)
    }

    /** What SFor.write reads from the node and its body. */
    function View(): WriteView
      requires Emittable()
      reads this, block
    {
      ViewOf(initializer, condition, continuous, afterthought,
             if block == null then None else Some(BodyView(block.allEscape, block.statementCount)),
             loopCounter)
    }

    /** SFor.write. */
    method Write(w: MethodWriter)
      requires Emittable()
      modifies w, block
      ensures var lb := LabelsFrom(old(w.labels), afterthought.Some?);
        && w.labels == old(w.labels) + LabelCount(afterthought.Some?)
        && w.code == old(w.code) + LoopCode(old(View()), lb)
        && (block != null ==> block.continu == Some(lb.begin) && block.brake == Some(lb.end))
      ensures block != null ==> block.Facts() == old(block.Facts()) &&
                                block.beginLoop == old(block.beginLoop) && block.inLoop == old(block.inLoop)
    {
      ghost var v := View();
      var start := w.NewLabel();
      var begin := start;
      if afterthought.Some? {
        begin := w.NewLabel();
      }
      var end := w.NewLabel();
      var lb := Labels(start, begin, end);
      ghost var code0 := w.code;

      WriteInitializer(w);
      w.Emit(Mark(start));
      WriteTest(w, v, lb);
      var allEscape := WriteBody(w, v, lb);
      WriteAfterthought(w, v, lb);
      if afterthought.Some? || !allEscape {
        w.Emit(Goto(start));
      }
      w.Emit(Mark(end));
      assert w.code == code0 + InitCode(v.init) + [Mark(start)] + TestCode(v, lb) + CounterCode(v) + BodyCode(v, lb)
                       + AfterCode(v, lb) + JumpCode(v, lb) + [Mark(end)];
      AppendLoopCode(code0, v, lb);
    }

    /** Unless the loop is continuous, the condition and the exit when it is false. */
    method WriteTest(w: MethodWriter, ghost v: WriteView, lb: Labels)
      requires Emittable() && v == View()
      modifies w
      ensures w.code == old(w.code) + TestCode(v, lb) && w.labels == old(w.labels)
    {
      if condition.Some? && !continuous {
        w.Emit(ChildCode(ConditionPart));
        w.Emit(IfFalse(lb.end));
      }
    }

    /** The afterthought, where a continue lands, and its value discarded. */
    method WriteAfterthought(w: MethodWriter, ghost v: WriteView, lb: Labels)
      requires Emittable() && v == View()
      modifies w
      ensures w.code == old(w.code) + AfterCode(v, lb) && w.labels == old(w.labels)
    {
      if afterthought.Some? {
        w.Emit(Mark(lb.begin));
        w.Emit(ChildCode(AfterthoughtPart));
        w.Emit(Pop(afterthought.value.expected.value));
      }
    }

    method WriteInitializer(w: MethodWriter)
      requires Emittable()
      modifies w
      ensures w.code == old(w.code) + InitCode(View().init) && w.labels == old(w.labels)
    {
      if initializer.DeclInit? {
        w.Emit(ChildCode(InitializerPart));
      } else if initializer.ExprInit? {
        w.Emit(ChildCode(InitializerPart));
        w.Emit(Pop(initializer.expr.expected.value));
      }
    }

    /** The budget check and the body, which continues at `begin` and breaks to `end`.
        Returns whether the body never falls through. */
    method WriteBody(w: MethodWriter, ghost v: WriteView, lb: Labels) returns (allEscape: bool)
      requires Emittable() && v == View()
      modifies w, block
      ensures w.code == old(w.code) + CounterCode(v) + BodyCode(v, lb) && w.labels == old(w.labels)
      ensures allEscape == (v.body.Some? && v.body.value.allEscape)
      ensures block != null ==> block.continu == Some(lb.begin) && block.brake == Some(lb.end)
      ensures block != null ==> block.Facts() == old(block.Facts()) &&
                                block.beginLoop == old(block.beginLoop) && block.inLoop == old(block.inLoop)
    {
      allEscape := false;
      if block != null {
        allEscape := block.allEscape;
        var count := Max(1, block.statementCount);
        if afterthought.Some? {
          count := count + 1;
        }
        if loopCounter.Some? {
          w.Emit(LoopCounter(loopCounter.value.slot, count));
        }
        block.continu := Some(lb.begin);
        block.brake := Some(lb.end);
        block.Write(w);
      } else {
        if loopCounter.Some? {
          w.Emit(LoopCounter(loopCounter.value.slot, 1));
        }
      }
    }
  }

  lemma AppendLoopCode(code0: seq<Instr>, v: WriteView, lb: Labels)
    ensures code0 + InitCode(v.init) + [Mark(lb.start)] + TestCode(v, lb) + CounterCode(v) + BodyCode(v, lb)
            + AfterCode(v, lb) + JumpCode(v, lb) + [Mark(lb.end)] == code0 + LoopCode(v, lb)
  {
    var p1 := InitCode(v.init);
    var p2 := p1 + [Mark(lb.start)];
    var p3 := p2 + TestCode(v, lb);
    var p4 := p3 + CounterCode(v);
    var p5 := p4 + BodyCode(v, lb);
    var p6 := p5 + AfterCode(v, lb);
    var p7 := p6 + JumpCode(v, lb);
    assert code0 + (p7 + [Mark(lb.end)]) == code0 + p7 + [Mark(lb.end)];
    assert code0 + (p6 + JumpCode(v, lb)) == code0 + p6 + JumpCode(v, lb);
    assert code0 + (p5 + AfterCode(v, lb)) == code0 + p5 + AfterCode(v, lb);
    assert code0 + (p4 + BodyCode(v, lb)) == code0 + p4 + BodyCode(v, lb);
    assert code0 + (p3 + CounterCode(v)) == code0 + p3 + CounterCode(v);
    assert code0 + (p2 + TestCode(v, lb)) == code0 + p2 + TestCode(v, lb);
    assert code0 + (p1 + [Mark(lb.start)]) == code0 + p1 + [Mark(lb.start)];
  }
}
