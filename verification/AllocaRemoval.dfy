/** Deleting the scalar `alloca`s once nothing loads or stores through them. */
module AllocaRemoval {
  import opened FlowGraphs
  import opened Ir
  import opened Semantics
  import opened Substitutions
  import opened Keeping
  import opened Trimming
  import opened RenamingState
  import opened RenamingResult
  import opened Lists

  predicate IsScalarAlloca(code: Code, i: Inst) {
    i in code.kind && code.kind[i] == Alloca(true)
  }

  function ScalarAllocas(code: Code, list: seq<Inst>): set<Inst> {
    set i | i in list && IsScalarAlloca(code, i)
  }

  /** `q` is `p` without the scalar `alloca`s of the blocks in `done`. */
  ghost predicate AllocasRemoved(p: Code, q: Code, done: set<Block>) {
    && q.cfg == p.cfg && q.kind == p.kind && q.operands == p.operands && q.instrs.Keys == p.instrs.Keys
    && forall b :: b in p.instrs ==>
         q.instrs[b] == if b in done then Keep(p.instrs[b], ScalarAllocas(p, p.instrs[b])) else p.instrs[b]
  }

  lemma SameOps(p: Code, q: Code, i: Inst)
    requires q.kind == p.kind && q.operands == p.operands
    ensures OpOf(q, i) == OpOf(p, i)
  {
  }

  lemma AllocaIsSilent(p: Code, i: Inst)
    requires IsScalarAlloca(p, i)
    ensures OpOf(p, i).Silent?
  {
  }

  lemma {:induction false} ExecWithout(p: Code, q: Code, inputs: Inputs, list: seq<Inst>, drop: set<Inst>, s: State)
    requires q.kind == p.kind && q.operands == p.operands && forall i :: i in drop ==> IsScalarAlloca(p, i)
    ensures Exec(q, inputs, Keep(list, drop), s) == Exec(p, inputs, list, s)
    decreases list
  {
    hide OpOf;
    if list != [] {
      var i := list[0];
      SameOps(p, q, i);
      if i in drop {
        AllocaIsSilent(p, i);
        assert Keep(list, drop) == Keep(list[1..], drop);
        ExecWithout(p, q, inputs, list[1..], drop, s);
      } else {
        ExecWithout(p, q, inputs, list[1..], drop, Step(inputs, i, OpOf(p, i), s));
        assert Keep(list, drop)[1..] == Keep(list[1..], drop);
      }
    }
  }

  lemma EnterWithout(p: Code, q: Code, inputs: Inputs, list: seq<Inst>, drop: set<Inst>, prev: Option<Block>, s: State)
    requires q.kind == p.kind && q.operands == p.operands && forall i :: i in drop ==> IsScalarAlloca(p, i)
    ensures Enter(q, inputs, Keep(list, drop), prev, s) == Enter(p, inputs, list, prev, s)
  {
    hide OpOf, PhiWord;
    KeepContents(list, drop);
    forall i
      ensures OpOf(q, i) == OpOf(p, i)
      ensures i in drop ==> !OpOf(p, i).PhiOp?
    {
      SameOps(p, q, i);
      if i in drop { AllocaIsSilent(p, i); }
    }
    assert (map i | i in Keep(list, drop) && OpOf(q, i).PhiOp? :: PhiWord(inputs, s.env, OpOf(q, i), prev))
        == (map i | i in list && OpOf(p, i).PhiOp? :: PhiWord(inputs, s.env, OpOf(p, i), prev));
  }

  lemma RunBlockWithout(p: Code, q: Code, inputs: Inputs, b: Block, prev: Option<Block>, s: State)
    requires AllocasRemoved(p, q, p.instrs.Keys)
    ensures RunBlock(q, inputs, b, prev, s) == RunBlock(p, inputs, b, prev, s)
  {
    hide Enter, Exec, OpOf;
    if b in p.instrs {
      var drop := ScalarAllocas(p, p.instrs[b]);
      EnterWithout(p, q, inputs, p.instrs[b], drop, prev, s);
      ExecWithout(p, q, inputs, p.instrs[b], drop, Enter(p, inputs, p.instrs[b], prev, s));
    } else {
      assert Keep([], {}) == [];
      EnterWithout(p, q, inputs, [], {}, prev, s);
      ExecWithout(p, q, inputs, [], {}, Enter(p, inputs, [], prev, s));
    }
  }

  lemma RemovedIsTrimmed(p: Code, q: Code)
    requires AllocasRemoved(p, q, p.instrs.Keys) && WellFormed(p)
    ensures LocalsAreScalars(p) && ReplacesLoads(p, map[]) && ReplacementsReady(p, map[])
    ensures Trimmed(p, q, map[], AllAllocas(p)) && DropsLocals(p, map[], AllAllocas(p))
  {
    hide OpOf, UsesDefined, BlocksTerminated, CfgReady, IsScalarAlloca, Keep, SubstAll;
    forall b | b in p.instrs
      ensures q.instrs[b] == Keep(p.instrs[b], AllAllocas(p))
    {
      AllocasOfBlock(p, p.instrs[b]);
      KeepSame(p.instrs[b], ScalarAllocas(p, p.instrs[b]), AllAllocas(p));
    }
    forall i | Live(p.instrs, i)
      ensures TrimmedOperands(p, q, map[], i)
    {
      var b, k := LivePlace(p.instrs, p, i);
      SubstAllNothing(p.operands[i]);
    }
    forall i | i in AllAllocas(p)
      ensures OpOf(p, i).Silent?
    {
      AllocaIsSilent(p, i);
    }
  }

  lemma SubstAllNothing(vs: seq<Value>)
    ensures SubstAll(map[], vs) == vs
  {
  }

  lemma AllocasOfBlock(p: Code, list: seq<Inst>)
    ensures forall i :: i in list ==> (i in ScalarAllocas(p, list) <==> i in AllAllocas(p))
  {
  }

  function AllAllocas(p: Code): set<Inst> {
    set i | i in p.kind && IsScalarAlloca(p, i)
  }

  lemma LastOpRemoved(p: Code, q: Code, b: Block)
    requires AllocasRemoved(p, q, p.instrs.Keys) && WellFormed(p)
    ensures LastOp(q, b) == LastOp(p, b)
  {
    hide OpOf, WellFormed, LocalsAreScalars, Trimmed, DropsLocals;
    CfgOf(p, b);
    if b in p.instrs {
      RemovedIsTrimmed(p, q);
      TerminatedOf(p, b);
      LastOpTrimmed(p, q, map[], AllAllocas(p), b);
      SubstNothing(LastOp(p, b));
    }
  }

  lemma SubstNothing(op: Op)
    ensures SubstOp(map[], op) == op
  {
    match op
    case Act(_, args) => assert SubstAll(map[], args) == args;
    case Term(_, args) => assert SubstAll(map[], args) == args;
    case PhiOp(_, pairs) => assert SubstAll(map[], pairs) == pairs;
    case _ =>
  }

  lemma {:induction false} RunsEqual(p: Code, q: Code, inputs: Inputs, n: nat)
    requires AllocasRemoved(p, q, p.instrs.Keys) && WellFormed(p)
    ensures Run(q, inputs, n) == Run(p, inputs, n)
    decreases n
  {
    hide OpOf, WellFormed, RunBlock, LastOp, AllocasRemoved, Terminate;
    if n == 0 {
      SameEntry(p, q);
    } else {
      RunsEqual(p, q, inputs, n - 1);
      var c := Run(p, inputs, n - 1);
      if c.At? {
        RunBlockWithout(p, q, inputs, c.b, c.prev, c.s);
        LastOpRemoved(p, q, c.b);
      }
    }
  }

  lemma SameEntry(p: Code, q: Code)
    requires AllocasRemoved(p, q, p.instrs.Keys)
    ensures q.cfg == p.cfg
  {
  }

  lemma RemovalSameBehaviour(p: Code, q: Code)
    requires AllocasRemoved(p, q, p.instrs.Keys) && WellFormed(p)
    ensures SameBehaviour(p, q)
  {
    hide AllocasRemoved, WellFormed, Run;
    forall inputs: Inputs, n: nat
      ensures Observe(Run(p, inputs, n)) == Observe(Run(q, inputs, n))
    {
      RunsEqual(p, q, inputs, n);
    }
  }

  // ----- what holds at the end of the pass -----

  ghost predicate NoScalarAllocas(code: Code) {
    forall b, k, i :: IsAt(code, b, k, i) && i in code.kind ==> code.kind[i] != Alloca(true)
  }

  /** Every instruction an operand slot refers to stands in some block. */
  ghost predicate NothingDangling(code: Code) {
    forall b, k, i, v :: IsAt(code, b, k, i) && i in code.operands && v in code.operands[i] && v.Res? ==>
      Live(code.instrs, v.i)
  }

  /** The result of the pass: static single assignment form without scalar locals. */
  ghost predicate Promoted(code: Code) {
    WellFormed(code) && NoVarOps(code) && NoScalarAllocas(code) && PhisDefined(code) && NothingDangling(code)
  }

  lemma RemovedPlace(p: Code, q: Code, b: Block, r: int, i: Inst) returns (k: int)
    requires AllocasRemoved(p, q, p.instrs.Keys) && IsAt(q, b, r, i)
    ensures IsAt(p, b, k, i) && !IsScalarAlloca(p, i)
  {
    k := KeptFrom(p.instrs[b], ScalarAllocas(p, p.instrs[b]), r);
  }

  lemma LiveRemoved(p: Code, q: Code, i: Inst)
    requires AllocasRemoved(p, q, p.instrs.Keys) && Live(p.instrs, i) && !IsScalarAlloca(p, i)
    ensures Live(q.instrs, i)
  {
    var b :| b in p.instrs && i in p.instrs[b];
    KeepContents(p.instrs[b], ScalarAllocas(p, p.instrs[b]));
    assert b in q.instrs && i in q.instrs[b];
  }

  lemma RemovedNoVarOps(p: Code, q: Code)
    requires AllocasRemoved(p, q, p.instrs.Keys) && NoVarOps(p)
    ensures NoVarOps(q) && NoScalarAllocas(q)
  {
    hide OpOf;
    forall b, r, i | IsAt(q, b, r, i)
      ensures !IsVarOp(OpOf(q, i)) && !IsScalarAlloca(q, i)
    {
      var k := RemovedPlace(p, q, b, r, i);
      SameOps(p, q, i);
    }
  }

  lemma RemovedPhisDefined(p: Code, q: Code)
    requires AllocasRemoved(p, q, p.instrs.Keys) && WellFormed(p) && PhisDefined(p)
    ensures PhisDefined(q)
  {
    hide OpOf, WellFormed, LocalsAreScalars, Trimmed, DropsLocals, Incoming, ReplacementsReady, ReplacesLoads;
    RemovedIsTrimmed(p, q);
    forall d, r, i, b | IsAt(q, d, r, i) && OpOf(q, i).PhiOp? && b in q.cfg.succs && d in q.cfg.succs[b]
      ensures PairReady(q, Incoming(OpOf(q, i).pairs, b), b)
    {
      var k := RemovedPlace(p, q, d, r, i);
      SameOps(p, q, i);
      assert PairReady(p, Incoming(OpOf(p, i).pairs, b), b);
      CfgOf(p, b);
      TerminatedOf(p, b);
      var v := Incoming(OpOf(p, i).pairs, b);
      if v.Some? && v.value.Res? {
        AvailableAtEnd(p, q, map[], AllAllocas(p), b, v.value.i);
      }
    }
  }

  /** All slots of what neither loads nor stores a local are used. */
  lemma SlotIsUsed(p: Code, b: Block, k: int, i: Inst, v: Value)
    requires LocalsAreScalars(p) && NoVarOps(p) && IsAt(p, b, k, i) && !IsScalarAlloca(p, i) && !OpOf(p, i).PhiOp?
    requires i in p.operands && v in p.operands[i]
    ensures v in Used(OpOf(p, i))
  {
    assert !IsVarOp(OpOf(p, i));
  }

  lemma SlotLiveBefore(p: Code, b: Block, k: int, i: Inst, v: Value)
    requires WellFormed(p) && NoVarOps(p) && PhisLive(p) && IsAt(p, b, k, i) && !IsScalarAlloca(p, i)
    requires i in p.operands && v in p.operands[i] && v.Res?
    ensures Live(p.instrs, v.i) && HasResult(OpOf(p, v.i))
  {
    hide LocalsAreScalars, BlocksTerminated, CfgReady, NoVarOps, Live, OpOf, Used, HasResult, PlacedOnce;
    if OpOf(p, i).PhiOp? {
      PairsAreOperands(p, i);
    } else {
      SlotIsUsed(p, b, k, i, v);
      AvailableIsLive(p, v.i, b, k);
    }
  }

  lemma PairsAreOperands(p: Code, i: Inst)
    requires OpOf(p, i).PhiOp?
    ensures i in p.operands && OpOf(p, i).pairs == p.operands[i]
  {
  }

  /** Whatever an instruction that stays refers to stays. */
  lemma SlotsLive(p: Code, q: Code, b: Block, r: int, i: Inst, v: Value)
    requires AllocasRemoved(p, q, p.instrs.Keys) && WellFormed(p) && NoVarOps(p) && PhisLive(p)
    requires IsAt(q, b, r, i) && i in q.operands && v in q.operands[i] && v.Res?
    ensures Live(q.instrs, v.i)
  {
    hide AllocasRemoved, WellFormed, NoVarOps, PhisLive, OpOf, Live, IsAt;
    var k := RemovedPlace(p, q, b, r, i);
    SlotsKept(p, q);
    SlotLiveBefore(p, b, k, i, v);
    if IsScalarAlloca(p, v.i) {
      AllocaIsSilent(p, v.i);
    }
    LiveRemoved(p, q, v.i);
  }

  lemma SlotsKept(p: Code, q: Code)
    requires AllocasRemoved(p, q, p.instrs.Keys)
    ensures q.operands == p.operands
  {
  }

  lemma AvailableIsLive(p: Code, i: Inst, b: Block, k: int)
    requires Available(p, i, b, k)
    ensures Live(p.instrs, i)
  {
    var c, m :| IsAt(p, c, m, i) && Passed(p, c, m, i, b, k);
    assert i in p.instrs[c];
  }

  lemma RemovalPromotes(p: Code, q: Code)
    requires AllocasRemoved(p, q, p.instrs.Keys) && WellFormed(p) && NoVarOps(p) && PhisDefined(p) && PhisLive(p)
    ensures Promoted(q) && SameBehaviour(p, q)
  {
    hide AllocasRemoved, WellFormed, NoVarOps, PhisDefined, PhisLive, SameBehaviour, OpOf, Trimmed, DropsLocals,
         LocalsAreScalars, ReplacesLoads, ReplacementsReady, NoScalarAllocas;
    RemovedIsTrimmed(p, q);
    WellFormedTrimmed(p, q, map[], AllAllocas(p));
    RemovedNoVarOps(p, q);
    RemovedPhisDefined(p, q);
    RemovalSameBehaviour(p, q);
    forall b, r, i, v | IsAt(q, b, r, i) && i in q.operands && v in q.operands[i] && v.Res?
      ensures Live(q.instrs, v.i)
    {
      SlotsLive(p, q, b, r, i, v);
    }
  }

  // ----- the loop over the blocks -----

  ghost function FirstBlocks(blocks: seq<Block>, n: nat): set<Block>
    requires n <= |blocks|
  {
    set b | b in blocks[..n]
  }

  lemma FirstBlocksNext(blocks: seq<Block>, n: nat)
    requires n < |blocks| && NoDuplicates(blocks)
    ensures FirstBlocks(blocks, n + 1) == FirstBlocks(blocks, n) + {blocks[n]} && blocks[n] !in FirstBlocks(blocks, n)
  {
    assert blocks[..n + 1] == blocks[..n] + [blocks[n]];
    assert forall j :: 0 <= j < n ==> blocks[j] != blocks[n];
  }

  lemma FirstBlocksEnds(blocks: seq<Block>, all: set<Block>)
    requires forall b :: b in blocks <==> b in all
    ensures FirstBlocks(blocks, |blocks|) == all && FirstBlocks(blocks, 0) == {}
  {
    assert blocks[..|blocks|] == blocks;
  }

  lemma NothingRemoved(p: Code)
    ensures AllocasRemoved(p, p, {})
  {
  }

  function WithoutAllocas(q: Code, b: Block): Code
    requires b in q.instrs
  {
    Code(q.cfg, q.instrs[b := Keep(q.instrs[b], ScalarAllocas(q, q.instrs[b]))], q.kind, q.operands)
  }

  lemma RemovedStep(p: Code, q: Code, done: set<Block>, b: Block, q': Code)
    requires AllocasRemoved(p, q, done) && b in p.instrs && b !in done && b in q.instrs && q' == WithoutAllocas(q, b)
    ensures AllocasRemoved(p, q', done + {b})
  {
    assert ScalarAllocas(q, q.instrs[b]) == ScalarAllocas(p, p.instrs[b]);
  }

  lemma RemovedBlocks(p: Code, q: Code, done: set<Block>)
    requires AllocasRemoved(p, q, done)
    ensures q.instrs.Keys == p.instrs.Keys
  {
  }

  lemma RemovedPlacedOnce(p: Code, q: Code, done: set<Block>)
    requires AllocasRemoved(p, q, done) && PlacedOnce(p.instrs)
    ensures PlacedOnce(q.instrs)
  {
    forall c, d, r, s | c in q.instrs && d in q.instrs && 0 <= r < |q.instrs[c]| && 0 <= s < |q.instrs[d]|
                        && q.instrs[c][r] == q.instrs[d][s]
      ensures c == d && r == s
    {
      var m, k := r, s;
      if c in done { m := KeptFrom(p.instrs[c], ScalarAllocas(p, p.instrs[c]), r); }
      if d in done { k := KeptFrom(p.instrs[d], ScalarAllocas(p, p.instrs[d]), s); }
      assert p.instrs[c][m] == p.instrs[d][k];
    }
  }

  lemma AllocasNext(code: Code, list: seq<Inst>, k: nat)
    requires k < |list|
    ensures ScalarAllocas(code, list[..k + 1])
            == ScalarAllocas(code, list[..k]) + if IsScalarAlloca(code, list[k]) then {list[k]} else {}
  {
    assert list[..k + 1] == list[..k] + [list[k]];
  }

  lemma AllocasInList(code: Code, list: seq<Inst>)
    ensures forall i :: i in ScalarAllocas(code, list) ==> i in list
  {
  }
}
