/** The code a statement emits, as a sequence of abstract instructions, and the writer
    (MethodWriter) that statements append them to. */
module Writer {
  import opened Tree

  /** A jump target; the writer numbers the labels it hands out. */
  type Label = nat

  /** The children that write their own code into the loop's. */
  datatype Part = InitializerPart | ConditionPart | AfterthoughtPart

  datatype Instr =
    | Mark(marked: Label)                            // bind a label to the current position
    | IfFalse(target: Label)                         // pop a boolean, jump when it is false (IFEQ)
    | Goto(target: Label)                            // unconditional jump
    | Pop(valueType: Type)                           // discard a value of this type
    | LoopCounter(slot: nat, cost: int)              // charge `cost` to the budget in `slot`
    | ChildCode(part: Part)                          // the code a child expression or declaration writes
    | Body(continueTarget: Label, breakTarget: Label) // the body block, with its continue and break targets

  /** How often `x` occurs in `code`. */
  function Count(code: seq<Instr>, x: Instr): (n: nat)
    ensures n <= |code|
    ensures n == 0 <==> x !in code
  {
    if code == [] then 0 else (if code[0] == x then 1 else 0) + Count(code[1..], x)
  }

  lemma {:induction false} CountConcat(a: seq<Instr>, b: seq<Instr>, x: Instr)
    ensures Count(a + b, x) == Count(a, x) + Count(b, x)
  {
    if a == [] {
      assert a + b == b;
    } else {
      assert (a + b)[1..] == a[1..] + b;
      CountConcat(a[1..], b, x);
    }
  }

  class MethodWriter {
    var code: seq<Instr>
    var labels: nat    // how many labels have been handed out

    constructor ()
      ensures code == [] && labels == 0
    {
      code := [];
      labels := 0;
    }

    /** new Label(): a label no earlier call handed out. */
    method NewLabel() returns (l: Label)
      modifies this
      ensures l == old(labels) && labels == old(labels) + 1 && code == old(code)
    {
      l := labels;
      labels := labels + 1;
    }

    method Emit(i: Instr)
      modifies this
      ensures code == old(code) + [i] && labels == old(labels)
    {
      code := code + [i];
    }
  }
}
