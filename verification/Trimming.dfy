/** A function after some of its instructions were deleted and some loads were
    replaced in the operands of the others. */
module Trimming {
  import opened FlowGraphs
  import opened Ir
  import opened Semantics
  import opened Substitutions
  import opened Keeping

  /** `q` is `p` without the instructions in `drop`, and with `sub` applied to the
      operands of all others but phis. */
  ghost predicate Trimmed(p: Code, q: Code, sub: map<Inst, Value>, drop: set<Inst>) {
    && q.cfg == p.cfg && q.kind == p.kind && q.instrs.Keys == p.instrs.Keys
    && (forall b :: b in p.instrs ==> q.instrs[b] == Keep(p.instrs[b], drop))
    && (forall i :: Live(p.instrs, i) && i !in drop ==> TrimmedOperands(p, q, sub, i))
  }

  ghost predicate TrimmedOperands(p: Code, q: Code, sub: map<Inst, Value>, i: Inst) {
    && i in p.operands && i in q.operands
    && (!OpOf(p, i).PhiOp? ==> q.operands[i] == SubstAll(sub, p.operands[i]))
  }

  /** Only replaced loads, stores to locals and scalar `alloca`s are deleted. */
  ghost predicate DropsLocals(p: Code, sub: map<Inst, Value>, drop: set<Inst>) {
    forall i :: i in drop ==> i in sub || OpOf(p, i).WriteVar? || OpOf(p, i).Silent?
  }

  lemma SubstAddress(p: Code, sub: map<Inst, Value>, v: Value)
    requires ReplacesLoads(p, sub) && AddressKnown(p, v)
    ensures ScalarAddress(p.kind, Subst(sub, v)) == ScalarAddress(p.kind, v)
    ensures ScalarAddress(p.kind, v) ==> Subst(sub, v) == v
    ensures AddressKnown(p, Subst(sub, v))
  {
  }

  /** An instruction that stays does what it did, on the replaced operands. */
  lemma OpOfTrimmed(p: Code, q: Code, sub: map<Inst, Value>, drop: set<Inst>, b: Block, k: int, i: Inst)
    requires LocalsAreScalars(p) && ReplacesLoads(p, sub) && Trimmed(p, q, sub, drop)
    requires IsAt(p, b, k, i) && i !in drop
    ensures OpOf(p, i).PhiOp? ==> OpOf(q, i).PhiOp? && OpOf(q, i).v == OpOf(p, i).v
    ensures !OpOf(p, i).PhiOp? ==> OpOf(q, i) == SubstOp(sub, OpOf(p, i))
  {
    assert Live(p.instrs, i);
    assert TrimmedOperands(p, q, sub, i);
    if p.kind[i] == Load {
      SubstAddress(p, sub, p.operands[i][0]);
    } else if p.kind[i] == Store {
      SubstAddress(p, sub, p.operands[i][1]);
    }
  }

  lemma IsAtTrimmed(p: Code, q: Code, sub: map<Inst, Value>, drop: set<Inst>, b: Block, k: int, i: Inst)
    requires Trimmed(p, q, sub, drop) && IsAt(p, b, k, i) && i !in drop
    ensures IsAt(q, b, Moved(p.instrs[b], drop, k), i)
  {
    MovedAt(p.instrs[b], drop, k);
  }

  lemma IsAtUntrimmed(p: Code, q: Code, sub: map<Inst, Value>, drop: set<Inst>, b: Block, r: int, i: Inst)
    returns (k: int)
    requires Trimmed(p, q, sub, drop) && IsAt(q, b, r, i)
    ensures IsAt(p, b, k, i) && i !in drop && Moved(p.instrs[b], drop, k) == r
  {
    k := KeptFrom(p.instrs[b], drop, r);
  }

  lemma AvailableTrimmed(p: Code, q: Code, sub: map<Inst, Value>, drop: set<Inst>, j: Inst, b: Block, k: int, i: Inst)
    requires LocalsAreScalars(p) && ReplacesLoads(p, sub) && Trimmed(p, q, sub, drop)
    requires IsAt(p, b, k, i) && j !in drop && Available(p, j, b, k)
    ensures Available(q, j, b, Moved(p.instrs[b], drop, k))
  {
    var c, m :| IsAt(p, c, m, j) && Passed(p, c, m, j, b, k);
    IsAtTrimmed(p, q, sub, drop, c, m, j);
    OpOfTrimmed(p, q, sub, drop, c, m, j);
    if c == b && m < k {
      MovedMonotone(p.instrs[b], drop, m, k);
    }
    assert Passed(q, c, Moved(p.instrs[c], drop, m), j, b, Moved(p.instrs[b], drop, k));
  }

  lemma PlacedOnceTrimmed(p: Code, q: Code, sub: map<Inst, Value>, drop: set<Inst>)
    requires PlacedOnce(p.instrs) && Trimmed(p, q, sub, drop)
    ensures PlacedOnce(q.instrs)
  {
    forall b, c, r, s | b in q.instrs && c in q.instrs && 0 <= r < |q.instrs[b]| && 0 <= s < |q.instrs[c]|
                        && q.instrs[b][r] == q.instrs[c][s]
      ensures b == c && r == s
    {
      var i := q.instrs[b][r];
      var k := IsAtUntrimmed(p, q, sub, drop, b, r, i);
      var m := IsAtUntrimmed(p, q, sub, drop, c, s, i);
      PositionUnique(p, b, k, c, m, i);
    }
  }

  lemma LocalsAreScalarsTrimmed(p: Code, q: Code, sub: map<Inst, Value>, drop: set<Inst>)
    requires LocalsAreScalars(p) && ReplacesLoads(p, sub) && Trimmed(p, q, sub, drop)
    ensures LocalsAreScalars(q)
  {
    forall b, r, i | IsAt(q, b, r, i)
      ensures i in q.kind && i in q.operands
      ensures q.kind[i] == Load ==> |q.operands[i]| == 1 && AddressKnown(q, q.operands[i][0])
      ensures q.kind[i] == Store ==> |q.operands[i]| == 2 && AddressKnown(q, q.operands[i][1])
    {
      var k := IsAtUntrimmed(p, q, sub, drop, b, r, i);
      assert Live(p.instrs, i);
      assert TrimmedOperands(p, q, sub, i);
      if p.kind[i] == Load {
        SubstAddress(p, sub, p.operands[i][0]);
      } else if p.kind[i] == Store {
        SubstAddress(p, sub, p.operands[i][1]);
      }
    }
  }

  /** The terminator of a block stays last. */
  lemma LastOpTrimmed(p: Code, q: Code, sub: map<Inst, Value>, drop: set<Inst>, b: Block)
    requires LocalsAreScalars(p) && ReplacesLoads(p, sub) && Trimmed(p, q, sub, drop) && DropsLocals(p, sub, drop)
    requires b in p.instrs && b in p.cfg.succs && TerminatedBlock(p, b)
    ensures q.instrs[b] != [] && LastOp(q, b) == SubstOp(sub, LastOp(p, b))
  {
    var list := p.instrs[b];
    var k := |list| - 1;
    assert IsAt(p, b, k, list[k]);
    assert LastOp(p, b) == OpOf(p, list[k]);
    assert list[k] !in drop;
    OpOfTrimmed(p, q, sub, drop, b, k, list[k]);
    KeepSplit(list, drop, k);
    assert list[k + 1..] == [];
  }

  lemma BlocksTerminatedTrimmed(p: Code, q: Code, sub: map<Inst, Value>, drop: set<Inst>)
    requires LocalsAreScalars(p) && ReplacesLoads(p, sub) && Trimmed(p, q, sub, drop) && DropsLocals(p, sub, drop)
    requires BlocksTerminated(p)
    ensures BlocksTerminated(q)
  {
    forall b | b in q.instrs && b in q.cfg.succs
      ensures TerminatedBlock(q, b)
    {
      assert TerminatedBlock(p, b);
      LastOpTrimmed(p, q, sub, drop, b);
      TermOkSubst(sub, LastOp(p, b), p.cfg.succs[b]);
      forall r | 0 <= r < |q.instrs[b]| - 1
        ensures !OpOf(q, q.instrs[b][r]).Term?
      {
        var i := q.instrs[b][r];
        var k := IsAtUntrimmed(p, q, sub, drop, b, r, i);
        OpOfTrimmed(p, q, sub, drop, b, k, i);
        if k == |p.instrs[b]| - 1 {
          assert p.instrs[b][k + 1..] == [];
          KeepSplit(p.instrs[b], drop, k);
        }
      }
    }
  }

  lemma TermOkSubst(sub: map<Inst, Value>, op: Op, succs: seq<Block>)
    requires TermOk(op, succs)
    ensures TermOk(SubstOp(sub, op), succs)
  {
  }

  lemma UsesDefinedTrimmed(p: Code, q: Code, sub: map<Inst, Value>, drop: set<Inst>)
    requires LocalsAreScalars(p) && UsesDefined(p)
    requires ReplacesLoads(p, sub) && ReplacementsReady(p, sub) && Trimmed(p, q, sub, drop) && DropsLocals(p, sub, drop)
    requires forall b, k, i :: IsAt(p, b, k, i) ==>
               forall x :: x in sub && Available(p, x, b, k) ==> ReadyAt(p, sub, sub[x], b, k)
    ensures UsesDefined(q)
  {
    forall b, r, i, v | IsAt(q, b, r, i) && v in Used(OpOf(q, i)) && v.Res?
      ensures Available(q, v.i, b, r) && HasResult(OpOf(q, v.i))
    {
      var k := IsAtUntrimmed(p, q, sub, drop, b, r, i);
      OpOfTrimmed(p, q, sub, drop, b, k, i);
      var u := UsedSubst(sub, OpOf(p, i), v);
      assert ReadyAt(p, sub, v, b, k);
      assert v.i !in drop;
      AvailableTrimmed(p, q, sub, drop, v.i, b, k, i);
      var c, m :| IsAt(p, c, m, v.i) && Passed(p, c, m, v.i, b, k);
      OpOfTrimmed(p, q, sub, drop, c, m, v.i);
    }
  }

  lemma UsedSubst(sub: map<Inst, Value>, op: Op, v: Value) returns (u: Value)
    requires !op.PhiOp? && v in Used(SubstOp(sub, op))
    ensures u in Used(op) && v == Subst(sub, u)
  {
    var k :| 0 <= k < |Used(SubstOp(sub, op))| && Used(SubstOp(sub, op))[k] == v;
    u := Used(op)[k];
  }

  lemma WellFormedTrimmed(p: Code, q: Code, sub: map<Inst, Value>, drop: set<Inst>)
    requires WellFormed(p) && ReplacesLoads(p, sub) && ReplacementsReady(p, sub)
    requires Trimmed(p, q, sub, drop) && DropsLocals(p, sub, drop)
    ensures WellFormed(q)
  {
    forall b, k, i | IsAt(p, b, k, i)
      ensures forall x :: x in sub && Available(p, x, b, k) ==> ReadyAt(p, sub, sub[x], b, k)
    {
      forall x | x in sub && Available(p, x, b, k)
        ensures ReadyAt(p, sub, sub[x], b, k)
      {
        ReplacementReadyHere(p, sub, x, b, k);
      }
    }
    PlacedOnceTrimmed(p, q, sub, drop);
    LocalsAreScalarsTrimmed(p, q, sub, drop);
    BlocksTerminatedTrimmed(p, q, sub, drop);
    UsesDefinedTrimmed(p, q, sub, drop);
  }

  /** The terminators of the two runs agree when their environments do. */
  lemma TerminateAgree(p: Code, sub: map<Inst, Value>, inputs: Inputs, env: map<Inst, Word>, env': map<Inst, Word>,
                       b: Block, op: Op, succs: seq<Block>, k: int)
    requires TermOk(op, succs) && Agree(p, sub, inputs, env, env', b, k)
    requires forall v :: v in op.args ==> Usable(p, v, b, k)
    ensures Terminate(inputs, SubstOp(sub, op), env') == Terminate(inputs, op, env)
    ensures Terminate(inputs, op, env).Goto? ==> Terminate(inputs, op, env).b in succs
    ensures Terminate(inputs, op, env) != Halt
  {
    if |op.args| > 0 {
      EvalAgree(p, sub, inputs, env, env', b, k, op.args[0]);
    }
  }

  lemma UsableLater(p: Code, v: Value, c: Block, k: int, k': int)
    requires Usable(p, v, c, k) && k <= k'
    ensures Usable(p, v, c, k')
  {
    if v.Res? {
      AvailableLater(p, v.i, c, k, k');
    }
  }

  lemma TerminatedOf(p: Code, c: Block)
    requires WellFormed(p) && c in p.instrs && c in p.cfg.succs
    ensures TerminatedBlock(p, c) && LastOp(p, c).Term?
  {
  }

  lemma NothingAvailableAtEntry(p: Code, x: Inst)
    requires WellFormed(p) && !OpOf(p, x).PhiOp?
    ensures !Available(p, x, p.cfg.entry, 0)
  {
    CfgOf(p, p.cfg.entry);
    hide WellFormed, OpOf;
    forall c, k | IsAt(p, c, k, x)
      ensures !Passed(p, c, k, x, p.cfg.entry, 0)
    {
      if c != p.cfg.entry && p.cfg.Dominates(c, p.cfg.entry) {
        OnlyEntryDominatesEntry(p.cfg, c);
      }
    }
  }

  /** What could be used at the end of a block still can. */
  lemma AvailableAtEnd(p: Code, q: Code, sub: map<Inst, Value>, drop: set<Inst>, b: Block, x: Inst)
    requires LocalsAreScalars(p) && ReplacesLoads(p, sub) && Trimmed(p, q, sub, drop) && DropsLocals(p, sub, drop)
    requires b in p.instrs && b in p.cfg.succs && TerminatedBlock(p, b)
    requires Available(p, x, b, |ListOf(p, b)|) && HasResult(OpOf(p, x)) && x !in sub
    ensures Available(q, x, b, |ListOf(q, b)|) && HasResult(OpOf(q, x))
  {
    hide LocalsAreScalars, OpOf;
    var list := p.instrs[b];
    var k := |list| - 1;
    assert IsAt(p, b, k, list[k]);
    assert OpOf(p, list[k]).Term?;
    AvailableStep(p, b, k, list[k], x);
    AvailableTrimmed(p, q, sub, drop, x, b, k, list[k]);
    MovedMonotone(list, drop, k, |list|);
    assert list[..|list|] == list;
    AvailableLater(q, x, b, Moved(list, drop, k), |ListOf(q, b)|);
    var c, m :| IsAt(p, c, m, x) && Passed(p, c, m, x, b, k);
    OpOfTrimmed(p, q, sub, drop, c, m, x);
  }

  // ----- running the kept instructions -----

  /** What the run of `q` does where the run of `p` executes `i`. */
  function StepTrimmed(inputs: Inputs, sub: map<Inst, Value>, drop: set<Inst>, i: Inst, op: Op, s: State): State {
    if i in drop then s else Step(inputs, i, SubstOp(sub, op), s)
  }

  lemma ExecNothing(p: Code, q: Code, inputs: Inputs, list: seq<Inst>, drop: set<Inst>, s: State, s': State)
    ensures Exec(p, inputs, list[|list|..], s) == s
    ensures Exec(q, inputs, Keep(list[|list|..], drop), s') == s'
  {
  }

  lemma ExecStep(code: Code, inputs: Inputs, list: seq<Inst>, k: nat, s: State)
    requires k < |list|
    ensures Exec(code, inputs, list[k..], s)
            == Exec(code, inputs, list[k + 1..], Step(inputs, list[k], OpOf(code, list[k]), s))
  {
    assert list[k..][1..] == list[k + 1..];
  }

  lemma ExecTrimmedStep(p: Code, q: Code, sub: map<Inst, Value>, drop: set<Inst>, inputs: Inputs, list: seq<Inst>,
                        k: nat, s: State)
    requires k < |list|
             && (list[k] !in drop ==>
                   Step(inputs, list[k], OpOf(q, list[k]), s)
                   == Step(inputs, list[k], SubstOp(sub, OpOf(p, list[k])), s))
    ensures Exec(q, inputs, Keep(list[k..], drop), s)
         == Exec(q, inputs, Keep(list[k + 1..], drop), StepTrimmed(inputs, sub, drop, list[k], OpOf(p, list[k]), s))
  {
    var rest := Keep(list[k + 1..], drop);
    assert list[k..][1..] == list[k + 1..];
    assert Keep(list[k..], drop) == (if list[k] in drop then [] else [list[k]]) + rest;
    if list[k] in drop {
      assert Keep(list[k..], drop) == rest;
    } else {
      assert ([list[k]] + rest)[1..] == rest;
    }
  }
}
