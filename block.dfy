/** The body of a loop (SBlock): the fields a for loop sets on it and reads from it. */
module Blocks {
  import opened Wrappers
  import opened Tree
  import opened Writer

  class SBlock {
    var beginLoop: bool     // this block is the body of the innermost loop
    var inLoop: bool        // this block is inside some loop
    var loopEscape: bool
    var anyContinue: bool
    var anyBreak: bool
    var allEscape: bool
    var statementCount: int
    var continu: Option<Label>
    var brake: Option<Label>

    constructor ()
      ensures !beginLoop && !inLoop && Facts() == Summary(false, false, false, false, 0)
      ensures continu.None? && brake.None?
    {
      beginLoop, inLoop := false, false;
      loopEscape, anyContinue, anyBreak, allEscape := false, false, false, false;
      statementCount := 0;
      continu, brake := None, None;
    }

    /** The control-flow summary the block's fields hold. */
    function Facts(): Summary
      reads this
    {
      Summary(loopEscape, anyContinue, anyBreak, allEscape, statementCount)
    }

    /** SBlock.analyze.  Its statements are not part of this model: `outcome` is the summary
        their analysis computes, or the error it raises. */
    method Analyze(outcome: Result<Summary, string>) returns (r: Outcome<string>)
      modifies this
      ensures r.Fail? <==> outcome.Failure?
      ensures outcome.Failure? ==> r.error == outcome.error
      ensures outcome.Success? ==> Facts() == outcome.value
      ensures beginLoop == old(beginLoop) && inLoop == old(inLoop)
      ensures continu == old(continu) && brake == old(brake)
    {
      match outcome
      case Failure(m) =>
        return Fail(m);
      case Success(s) =>
        loopEscape, anyContinue, anyBreak, allEscape := s.loopEscape, s.anyContinue, s.anyBreak, s.allEscape;
        statementCount := s.statementCount;
        return Pass;
    }

    /** SBlock.write: its statements' code, which jumps to `continu` on continue and to
        `brake` on break.  Both must have been set by the enclosing loop. */
    method Write(w: MethodWriter)
      requires continu.Some? && brake.Some?
      modifies w
      ensures w.code == old(w.code) + [Body(continu.value, brake.value)]
      ensures w.labels == old(w.labels)
    {
      w.Emit(Body(continu.value, brake.value));
    }
  }
}
