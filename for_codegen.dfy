/** Code generation of a for loop (SFor.write) as a function of what the loop knows after
    analysis and of the labels it is given, and what that code promises. */
module ForCodegen {
  import opened Wrappers
  import opened Tree
  import opened Writer

  /** The labels of one loop: `start` is where the condition is tested, `begin` is where a
      continue goes (the afterthought, or `start` when there is none), `end` is the exit. */
  datatype Labels = Labels(start: Label, begin: Label, end: Label)

  /** The labels the loop takes from a writer that has handed out `next` labels so far:
      start, then begin only when there is an afterthought, then end. */
  function LabelsFrom(next: nat, hasAfterthought: bool): (lb: Labels)
    ensures lb.start == next
    ensures lb.start != lb.end && lb.begin != lb.end
    ensures lb.begin == lb.start <==> !hasAfterthought
    ensures next <= lb.begin < lb.end < next + LabelCount(hasAfterthought)
  {
    if hasAfterthought then Labels(next, next + 1, next + 2) else Labels(next, next, next + 1)
  }

  function LabelCount(hasAfterthought: bool): nat {
    if hasAfterthought then 3 else 2
  }

  /** What the code of the initializer needs: none, a declaration block, or an expression
      whose value (of the given type) is discarded. */
  datatype InitView = NoCode | DeclCode | ExprCode(valueType: Type)

  /** What the body's code needs. */
  datatype BodyView = BodyView(allEscape: bool, statementCount: int)

  /** Everything SFor.write reads. */
  datatype WriteView = WriteView(init: InitView, hasCondition: bool, continuous: bool,
                                 afterthought: Option<Type>, body: Option<BodyView>,
                                 loopCounter: Option<Variable>)

  /** Code can be written for these children: the expression ones have their types, as a
      successful analysis leaves them. */
  predicate Typed(init: Initializer, after: Option<Expr>) {
    && (init.ExprInit? ==> init.expr.expected.Some?)
    && (after.Some? ==> after.value.expected.Some?)
  }

  /** What SFor.write reads from the loop's fields and its body's. */
  function ViewOf(init: Initializer, condition: Option<Expr>, continuous: bool, after: Option<Expr>,
                  body: Option<BodyView>, loopCounter: Option<Variable>): WriteView
    requires Typed(init, after)
  {
    WriteView(
      match init
      case DeclInit => DeclCode
      case ExprInit(e) => ExprCode(e.expected.value)
      case _ => NoCode,
      condition.Some?, continuous,
      if after.Some? then Some(after.value.expected.value) else None,
      body, loopCounter)
  }

  /** The cost one iteration charges against the budget: the body's statement count (at
      least one) plus one for the afterthought; without a body, exactly one. */
  function LoopCost(v: WriteView): (cost: int)
    ensures cost >= 1
    ensures v.body.None? ==> cost == 1
    ensures v.body.Some? ==> cost >= v.body.value.statementCount
    ensures v.body.Some? && v.afterthought.Some? ==> cost >= 2 && cost > v.body.value.statementCount
    ensures v.body.Some? && v.body.value.statementCount >= 1 ==>
      cost == v.body.value.statementCount + (if v.afterthought.Some? then 1 else 0)
    ensures v.body.Some? && v.body.value.statementCount < 1 ==> cost == 1 + (if v.afterthought.Some? then 1 else 0)
  {
    match v.body
    case None => 1
    case Some(b) => Max(1, b.statementCount) + (if v.afterthought.Some? then 1 else 0)
  }

  function InitCode(init: InitView): seq<Instr> {
    match init
    case NoCode => []
    case DeclCode => [ChildCode(InitializerPart)]
    case ExprCode(t) => [ChildCode(InitializerPart), Pop(t)]
  }

  function TestCode(v: WriteView, lb: Labels): seq<Instr> {
    if v.hasCondition && !v.continuous then [ChildCode(ConditionPart), IfFalse(lb.end)] else []
  }

  function CounterCode(v: WriteView): seq<Instr> {
    if v.loopCounter.Some? then [LoopCounter(v.loopCounter.value.slot, LoopCost(v))] else []
  }

  function BodyCode(v: WriteView, lb: Labels): seq<Instr> {
    if v.body.Some? then [Body(lb.begin, lb.end)] else []
  }

  function AfterCode(v: WriteView, lb: Labels): seq<Instr> {
    if v.afterthought.Some? then [Mark(lb.begin), ChildCode(AfterthoughtPart), Pop(v.afterthought.value)] else []
  }

  /** The backward jump is needed unless the body never falls through and no afterthought
      follows it. */
  predicate JumpsBack(v: WriteView): (back: bool)
    ensures v.afterthought.Some? ==> back
    ensures v.body.None? ==> back
    ensures !back ==> v.body.value.allEscape
  {
    v.afterthought.Some? || v.body.None? || !v.body.value.allEscape
  }

  function JumpCode(v: WriteView, lb: Labels): seq<Instr> {
    if JumpsBack(v) then [Goto(lb.start)] else []
  }

  /** The loop's code, in the order SFor.write emits it. */
  function LoopCode(v: WriteView, lb: Labels): (code: seq<Instr>)
    ensures 2 <= |code| <= 12
  {
    InitCode(v.init) + [Mark(lb.start)] + TestCode(v, lb) + CounterCode(v) + BodyCode(v, lb)
      + AfterCode(v, lb) + JumpCode(v, lb) + [Mark(lb.end)]
  }

  /** Does `i` transfer control to `l`? */
  predicate JumpsTo(i: Instr, l: Label) {
    match i
    case IfFalse(t) => t == l
    case Goto(t) => t == l
    case Body(c, b) => c == l || b == l
    case _ => false
  }

  /** Every occurrence of `x` in `code` comes before every occurrence of `y`. */
  predicate Before(code: seq<Instr>, x: Instr, y: Instr) {
    forall i, j :: 0 <= i < |code| && 0 <= j < |code| && code[i] == x && code[j] == y ==> i < j
  }

  lemma BeforeConcat(a: seq<Instr>, b: seq<Instr>, x: Instr, y: Instr)
    requires y !in a && x !in b
    ensures Before(a + b, x, y)
  {
    forall i, j | 0 <= i < |a + b| && 0 <= j < |a + b| && (a + b)[i] == x && (a + b)[j] == y
      ensures i < j
    {
      if j < |a| {
        assert false;
      }
      if i >= |a| {
        assert false;
      }
    }
  }

  lemma BeforeExtend(a: seq<Instr>, b: seq<Instr>, x: Instr, y: Instr)
    requires Before(a, x, y) && x !in b
    ensures Before(a + b, x, y)
  {
    forall i, j | 0 <= i < |a + b| && 0 <= j < |a + b| && (a + b)[i] == x && (a + b)[j] == y
      ensures i < j
    {
      if i >= |a| {
        assert false;
      }
      if j < |a| {
        assert a[i] == x && a[j] == y;
      }
    }
  }

  /** What occurs in the loop's code occurs in one of its parts. */
  lemma InLoopCode(v: WriteView, lb: Labels, x: Instr)
    ensures x in LoopCode(v, lb) <==>
      x in InitCode(v.init) || x == Mark(lb.start) || x in TestCode(v, lb) || x in CounterCode(v) ||
      x in BodyCode(v, lb) || x in AfterCode(v, lb) || x in JumpCode(v, lb) || x == Mark(lb.end)
  {
  }

  /** The initializer's code comes first, an expression initializer's followed by a pop,
      and then the start label is marked. */
  lemma InitializerFirst(v: WriteView, lb: Labels)
    ensures var code := LoopCode(v, lb);
      match v.init
      case NoCode => code[0] == Mark(lb.start)
      case DeclCode => code[0] == ChildCode(InitializerPart) && code[1] == Mark(lb.start)
      case ExprCode(t) => code[0] == ChildCode(InitializerPart) && code[1] == Pop(t) && code[2] == Mark(lb.start)
  {
  }

  /** The end label is marked last, and only there. */
  lemma EndMarkedLast(v: WriteView, lb: Labels)
    requires lb == LabelsFrom(lb.start, v.afterthought.Some?)
    ensures var code := LoopCode(v, lb); code[|code| - 1] == Mark(lb.end) && Count(code, Mark(lb.end)) == 1
  {
    var pre := InitCode(v.init) + [Mark(lb.start)] + TestCode(v, lb) + CounterCode(v) + BodyCode(v, lb)
               + AfterCode(v, lb) + JumpCode(v, lb);
    assert LoopCode(v, lb) == pre + [Mark(lb.end)];
    CountConcat(pre, [Mark(lb.end)], Mark(lb.end));
    assert Mark(lb.end) !in pre;
    assert Count([Mark(lb.end)], Mark(lb.end)) == 1;
  }

  /** Every label the loop's code jumps to is marked exactly once in it: start, begin and
      end (begin being start when there is no afterthought). */
  lemma LabelsMarkedOnce(v: WriteView, lb: Labels)
    requires lb == LabelsFrom(lb.start, v.afterthought.Some?)
    ensures var code := LoopCode(v, lb);
      Count(code, Mark(lb.start)) == 1 && Count(code, Mark(lb.begin)) == 1 && Count(code, Mark(lb.end)) == 1
  {
    EndMarkedLast(v, lb);
    StartMarkedOnce(v, lb, lb.start);
    StartMarkedOnce(v, lb, lb.begin);
  }

  lemma StartMarkedOnce(v: WriteView, lb: Labels, l: Label)
    requires lb == LabelsFrom(lb.start, v.afterthought.Some?)
    requires l == lb.start || l == lb.begin
    ensures Count(LoopCode(v, lb), Mark(l)) == 1
  {
    CountParts(v, lb, Mark(l));
    assert Mark(l) !in TestCode(v, lb) && Mark(l) !in CounterCode(v) && Mark(l) !in BodyCode(v, lb);
    assert Mark(l) !in JumpCode(v, lb) && Mark(l) !in [Mark(lb.end)];
    HeadMarks(v, lb, l);
    AfterMarks(v, lb, l);
  }

  /** How often an instruction occurs in the loop's code is the sum over its parts. */
  lemma CountParts(v: WriteView, lb: Labels, x: Instr)
    ensures Count(LoopCode(v, lb), x) ==
      Count(InitCode(v.init) + [Mark(lb.start)], x) + Count(TestCode(v, lb), x) + Count(CounterCode(v), x) +
      Count(BodyCode(v, lb), x) + Count(AfterCode(v, lb), x) + Count(JumpCode(v, lb), x) + Count([Mark(lb.end)], x)
  {
    var p2 := InitCode(v.init) + [Mark(lb.start)];
    var p3 := p2 + TestCode(v, lb);
    var p4 := p3 + CounterCode(v);
    var p5 := p4 + BodyCode(v, lb);
    var p6 := p5 + AfterCode(v, lb);
    var p7 := p6 + JumpCode(v, lb);
    CountConcat(p7, [Mark(lb.end)], x);
    CountConcat(p6, JumpCode(v, lb), x);
    CountConcat(p5, AfterCode(v, lb), x);
    CountConcat(p4, BodyCode(v, lb), x);
    CountConcat(p3, CounterCode(v), x);
    CountConcat(p2, TestCode(v, lb), x);
  }

  lemma HeadMarks(v: WriteView, lb: Labels, l: Label)
    ensures Count(InitCode(v.init) + [Mark(lb.start)], Mark(l)) == if l == lb.start then 1 else 0
  {
    CountConcat(InitCode(v.init), [Mark(lb.start)], Mark(l));
    assert Count([Mark(lb.start)], Mark(l)) == (if l == lb.start then 1 else 0);
  }

  lemma AfterMarks(v: WriteView, lb: Labels, l: Label)
    requires lb == LabelsFrom(lb.start, v.afterthought.Some?)
    ensures Count(AfterCode(v, lb), Mark(l)) == if v.afterthought.Some? && l == lb.begin then 1 else 0
  {
    if v.afterthought.Some? {
      var rest := [ChildCode(AfterthoughtPart), Pop(v.afterthought.value)];
      assert AfterCode(v, lb) == [Mark(lb.begin)] + rest;
      CountConcat([Mark(lb.begin)], rest, Mark(l));
      assert Count([Mark(lb.begin)], Mark(l)) == (if l == lb.begin then 1 else 0);
    }
  }

  /** The condition is evaluated, and the loop left when it is false, exactly when there is
      a condition that did not fold to true; no other conditional jump is emitted. */
  lemma ConditionTestedIff(v: WriteView, lb: Labels)
    ensures IfFalse(lb.end) in LoopCode(v, lb) <==> v.hasCondition && !v.continuous
    ensures ChildCode(ConditionPart) in LoopCode(v, lb) <==> v.hasCondition && !v.continuous
    ensures forall x | x in LoopCode(v, lb) :: x.IfFalse? ==> x == IfFalse(lb.end)
  {
    InLoopCode(v, lb, IfFalse(lb.end));
    InLoopCode(v, lb, ChildCode(ConditionPart));
    forall x | x in LoopCode(v, lb) ensures x.IfFalse? ==> x == IfFalse(lb.end) {
      InLoopCode(v, lb, x);
    }
  }

  /** The jump back to the start label is emitted exactly when an afterthought exists or the
      body may fall through (or is absent); it is the only unconditional jump. */
  lemma BackJumpIff(v: WriteView, lb: Labels)
    ensures Goto(lb.start) in LoopCode(v, lb) <==> v.afterthought.Some? || v.body.None? || !v.body.value.allEscape
    ensures forall x | x in LoopCode(v, lb) :: x.Goto? ==> x == Goto(lb.start)
  {
    InLoopCode(v, lb, Goto(lb.start));
    forall x | x in LoopCode(v, lb) ensures x.Goto? ==> x == Goto(lb.start) {
      InLoopCode(v, lb, x);
    }
  }

  /** The body continues at begin and breaks to end; no other body is emitted. */
  lemma BodyTargets(v: WriteView, lb: Labels)
    ensures Body(lb.begin, lb.end) in LoopCode(v, lb) <==> v.body.Some?
    ensures forall x | x in LoopCode(v, lb) :: x.Body? ==> x == Body(lb.begin, lb.end)
  {
    InLoopCode(v, lb, Body(lb.begin, lb.end));
    forall x | x in LoopCode(v, lb) ensures x.Body? ==> x == Body(lb.begin, lb.end) {
      InLoopCode(v, lb, x);
    }
  }

  /** The exit label is reached only from the condition test and from a break in the body. */
  lemma ExitOnlyByTestOrBreak(v: WriteView, lb: Labels)
    requires lb == LabelsFrom(lb.start, v.afterthought.Some?)
    ensures forall x | x in LoopCode(v, lb) && JumpsTo(x, lb.end) :: x == IfFalse(lb.end) || x == Body(lb.begin, lb.end)
  {
    forall x | x in LoopCode(v, lb) && JumpsTo(x, lb.end) ensures x == IfFalse(lb.end) || x == Body(lb.begin, lb.end) {
      InLoopCode(v, lb, x);
    }
  }

  /** A loop counter check is emitted exactly when the loop holds a counter, with the
      loop's cost; it follows the condition test and precedes the body. */
  lemma CounterBeforeBody(v: WriteView, lb: Labels)
    requires lb == LabelsFrom(lb.start, v.afterthought.Some?)
    ensures forall x | x in LoopCode(v, lb) && x.LoopCounter? ::
      v.loopCounter == Some(Variable(x.slot)) && x.cost == LoopCost(v)
    ensures v.loopCounter.Some? ==> LoopCounter(v.loopCounter.value.slot, LoopCost(v)) in LoopCode(v, lb)
    ensures v.loopCounter.Some? ==>
      var counter := LoopCounter(v.loopCounter.value.slot, LoopCost(v));
      Before(LoopCode(v, lb), counter, Body(lb.begin, lb.end)) && Before(LoopCode(v, lb), IfFalse(lb.end), counter)
  {
    forall x | x in LoopCode(v, lb) && x.LoopCounter? ensures v.loopCounter == Some(Variable(x.slot)) && x.cost == LoopCost(v) {
      InLoopCode(v, lb, x);
    }
    if v.loopCounter.Some? {
      var counter := LoopCounter(v.loopCounter.value.slot, LoopCost(v));
      InLoopCode(v, lb, counter);
      var p3 := InitCode(v.init) + [Mark(lb.start)] + TestCode(v, lb);
      var p4 := p3 + CounterCode(v);
      var p5 := p4 + BodyCode(v, lb);
      var p6 := p5 + AfterCode(v, lb);
      var p7 := p6 + JumpCode(v, lb);
      assert LoopCode(v, lb) == p7 + [Mark(lb.end)];
      // the counter check precedes the body
      BeforeConcat(p4, BodyCode(v, lb), counter, Body(lb.begin, lb.end));
      BeforeExtend(p5, AfterCode(v, lb), counter, Body(lb.begin, lb.end));
      BeforeExtend(p6, JumpCode(v, lb), counter, Body(lb.begin, lb.end));
      BeforeExtend(p7, [Mark(lb.end)], counter, Body(lb.begin, lb.end));
      // and follows the condition test
      BeforeConcat(p3, CounterCode(v), IfFalse(lb.end), counter);
      BeforeExtend(p4, BodyCode(v, lb), IfFalse(lb.end), counter);
      BeforeExtend(p5, AfterCode(v, lb), IfFalse(lb.end), counter);
      BeforeExtend(p6, JumpCode(v, lb), IfFalse(lb.end), counter);
      BeforeExtend(p7, [Mark(lb.end)], IfFalse(lb.end), counter);
    }
  }

  /** The start label is marked before the condition is evaluated. */
  lemma StartBeforeCondition(v: WriteView, lb: Labels)
    requires lb == LabelsFrom(lb.start, v.afterthought.Some?)
    ensures Before(LoopCode(v, lb), Mark(lb.start), ChildCode(ConditionPart))
  {
    var x, y := Mark(lb.start), ChildCode(ConditionPart);
    var p2 := InitCode(v.init) + [Mark(lb.start)];
    var p3 := p2 + TestCode(v, lb);
    var p4 := p3 + CounterCode(v);
    var p5 := p4 + BodyCode(v, lb);
    var p6 := p5 + AfterCode(v, lb);
    var p7 := p6 + JumpCode(v, lb);
    assert LoopCode(v, lb) == p7 + [Mark(lb.end)];
    BeforeConcat(p2, TestCode(v, lb), x, y);
    BeforeExtend(p3, CounterCode(v), x, y);
    BeforeExtend(p4, BodyCode(v, lb), x, y);
    BeforeExtend(p5, AfterCode(v, lb), x, y);
    BeforeExtend(p6, JumpCode(v, lb), x, y);
    BeforeExtend(p7, [Mark(lb.end)], x, y);
  }
}
