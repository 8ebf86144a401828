/** From the source of a function to its promoted form. */
module Compilation {
  import opened FlowGraphs
  import opened Statements
  import opened BlockBuilder
  import opened LoweredCode
  import opened LoweredCodeRuns
  import opened Ir
  import opened Semantics
  import opened AllocaRemoval
  import opened ForwardingResult
  import opened PhiOperands
  import opened PhiPresence
  import opened Promotion
  import opened Lists

  /** The function does what its source does: it returns, with the same value and the same
      effects, exactly when its source does, and it never gets stuck. */
  ghost predicate MeansSource(gen: Gen, f: FuncDef, code: Code) {
    && (forall inputs, w, events :: SourceReturns(inputs, gen, f, w, events) <==> CodeReturns(code, inputs, w, events))
    && (forall inputs, n :: !Run(code, inputs, n).Stuck?)
  }

  /** What keeps the behaviour of the lowered function keeps the meaning of its source. */
  lemma SameAsSource(gen: Gen, number: Numbering, f: FuncDef, q: Code)
    requires Compilable(gen, f) && Distinct(number) && SameBehaviour(ToCode(gen, number, f.isVoid, LowerFunction(f)), q)
    ensures MeansSource(gen, f, q)
  {
    hide Compilable, Distinct, ToCode, LowerFunction, SourceReturns, CodeReturns, Run, SameBehaviour;
    var p := ToCode(gen, number, f.isVoid, LowerFunction(f));
    forall inputs, w, events
      ensures SourceReturns(inputs, gen, f, w, events) <==> CodeReturns(q, inputs, w, events)
      ensures forall n :: !Run(q, inputs, n).Stuck?
    {
      InstructionsKeepMeaning(gen, number, f, inputs, w, events);
      SameReturns(p, q, inputs, w, events);
    }
    forall inputs, n
      ensures !Run(q, inputs, n).Stuck?
    {
      InstructionsKeepMeaning(gen, number, f, inputs, Undef, []);
      SameReturns(p, q, inputs, Undef, []);
    }
  }

  lemma SameReturns(p: Code, q: Code, inputs: Inputs, w: Word, events: seq<Event>)
    requires SameBehaviour(p, q)
    ensures CodeReturns(p, inputs, w, events) <==> CodeReturns(q, inputs, w, events)
    ensures forall n :: Run(p, inputs, n).Stuck? <==> Run(q, inputs, n).Stuck?
  {
    hide Run;
    forall n: nat
      ensures Run(p, inputs, n).Stuck? <==> Run(q, inputs, n).Stuck?
      ensures Run(p, inputs, n) == Done(w, events) <==> Run(q, inputs, n) == Done(w, events)
    {
      assert Observe(Run(p, inputs, n)) == Observe(Run(q, inputs, n));
    }
  }

  /** Dominators, frontiers and promotion of a lowered function: what the result returns
      and does is what its source returns and does. */
  method CompileFunction(fn: Function, blocks: seq<Block>, ghost gen: Gen, ghost number: Numbering, ghost f: FuncDef)
    requires Compilable(gen, f) && Distinct(number)
    requires fn.GetCode() == ToCode(gen, number, f.isVoid, LowerFunction(f)) && fn.Exact({}) && fn.HasSupply()
    requires NoDuplicates(blocks) && forall b :: b in blocks <==> b in fn.instrs
    modifies fn
    ensures MeansSource(gen, f, fn.GetCode()) && Promoted(fn.GetCode())
    ensures PhisFed(old(fn.GetCode()), fn.GetCode()) && PhisAsNeeded(old(fn.GetCode()), fn.GetCode())
  {
    hide Compilable, Distinct, ToCode, LowerFunction, MeansSource, SameBehaviour, Promoted, PhisFed, PhisAsNeeded,
         Promotable, Function.Exact, Function.HasSupply, Holds, ListedExactly;
    LoweredIsPromotable(gen, number, f);
    PromoteFunction(fn, blocks);
    SameAsSource(gen, number, f, fn.GetCode());
  }
}
