/** A function with phis added at the front of its blocks, none of which is used yet. */
module PhiInsertion {
  import opened FlowGraphs
  import opened Ir
  import opened Semantics
  import opened Substitutions
  import opened Trimming

  /** `q` is `p` with the new phis `front[b]`, still without operands, ahead of the instructions of every block. */
  ghost predicate AddedPhis(p: Code, q: Code, front: map<Block, seq<Inst>>) {
    && q.cfg == p.cfg && q.instrs.Keys == p.instrs.Keys == front.Keys
    && (forall b :: b in p.instrs ==> q.instrs[b] == front[b] + p.instrs[b])
    && (forall b, i :: b in front && i in front[b] ==> IsNewPhi(p, q, i))
    && (forall i :: i in p.kind ==> i in q.kind && q.kind[i] == p.kind[i])
    && (forall i :: i in q.kind && i !in p.kind ==> q.kind[i].Phi?)
    && (forall i :: i in p.operands ==> i in q.operands && q.operands[i] == p.operands[i])
    && PlacedOnce(q.instrs)
  }

  ghost predicate IsNewPhi(p: Code, q: Code, i: Inst) {
    i !in p.kind && i !in p.operands && i in q.kind && q.kind[i].Phi? && i in q.operands && q.operands[i] == []
  }

  lemma OldOp(p: Code, q: Code, front: map<Block, seq<Inst>>, b: Block, k: int, i: Inst)
    requires AddedPhis(p, q, front) && LocalsAreScalars(p) && IsAt(p, b, k, i)
    ensures OpOf(q, i) == OpOf(p, i)
    ensures i !in front[b] && IsAt(q, b, |front[b]| + k, i)
  {
    forall v: Value
      ensures ScalarAddress(q.kind, v) == ScalarAddress(p.kind, v)
    {
    }
    assert i in p.kind && i in p.operands;
    assert i in front[b] ==> IsNewPhi(p, q, i);
  }

  lemma NewOp(p: Code, q: Code, front: map<Block, seq<Inst>>, b: Block, i: Inst)
    requires AddedPhis(p, q, front) && b in front && i in front[b]
    ensures OpOf(q, i).PhiOp? && OpOf(q, i).pairs == [] && OpOf(q, i) == PhiOp(q.kind[i].lval, [])
  {
    assert IsNewPhi(p, q, i);
  }

  lemma AvailableShifted(p: Code, q: Code, front: map<Block, seq<Inst>>, j: Inst, b: Block, k: int, i: Inst)
    requires AddedPhis(p, q, front) && LocalsAreScalars(p) && IsAt(p, b, k, i) && Available(p, j, b, k)
    ensures b in front && Available(q, j, b, |front[b]| + k)
  {
    var c, m :| IsAt(p, c, m, j) && Passed(p, c, m, j, b, k);
    OldOp(p, q, front, c, m, j);
    assert Passed(q, c, |front[c]| + m, j, b, |front[b]| + k);
  }

  lemma PositionIn(p: Code, q: Code, front: map<Block, seq<Inst>>, b: Block, r: int, i: Inst)
    requires AddedPhis(p, q, front) && IsAt(q, b, r, i)
    ensures b in front && (if r < |front[b]| then i in front[b] && front[b][r] == i else IsAt(p, b, r - |front[b]|, i))
  {
  }

  lemma LocalsAreScalarsAdded(p: Code, q: Code, front: map<Block, seq<Inst>>)
    requires AddedPhis(p, q, front) && LocalsAreScalars(p)
    ensures LocalsAreScalars(q)
  {
    forall b, r, i | IsAt(q, b, r, i)
      ensures i in q.kind && i in q.operands
      ensures q.kind[i] == Load ==> |q.operands[i]| == 1 && AddressKnown(q, q.operands[i][0])
      ensures q.kind[i] == Store ==> |q.operands[i]| == 2 && AddressKnown(q, q.operands[i][1])
    {
      PositionIn(p, q, front, b, r, i);
      if r < |front[b]| {
        assert IsNewPhi(p, q, i);
      } else {
        assert IsAt(p, b, r - |front[b]|, i);
        if p.kind[i] == Load { ScalarAdded(p, q, front, p.operands[i][0]); }
        if p.kind[i] == Store { ScalarAdded(p, q, front, p.operands[i][1]); }
      }
    }
  }

  lemma ScalarAdded(p: Code, q: Code, front: map<Block, seq<Inst>>, v: Value)
    requires AddedPhis(p, q, front) && AddressKnown(p, v)
    ensures AddressKnown(q, v)
  {
  }

  /** No instruction uses a phi. */
  ghost predicate PhisUnused(code: Code) {
    forall b, p, i, v :: IsAt(code, b, p, i) && v in Used(OpOf(code, i)) && v.Res? ==> !OpOf(code, v.i).PhiOp?
  }

  lemma UsesAdded(p: Code, q: Code, front: map<Block, seq<Inst>>)
    requires AddedPhis(p, q, front) && LocalsAreScalars(p) && UsesDefined(p) && NoPhis(p)
    ensures UsesDefined(q) && PhisUnused(q)
  {
    forall b, r, i, v | IsAt(q, b, r, i) && v in Used(OpOf(q, i)) && v.Res?
      ensures Available(q, v.i, b, r) && HasResult(OpOf(q, v.i)) && !OpOf(q, v.i).PhiOp?
    {
      PositionIn(p, q, front, b, r, i);
      if r < |front[b]| {
        NewOp(p, q, front, b, i);
      } else {
        var k := r - |front[b]|;
        OldOp(p, q, front, b, k, i);
        AvailableShifted(p, q, front, v.i, b, k, i);
        var c, m :| IsAt(p, c, m, v.i) && Passed(p, c, m, v.i, b, k);
        OldOp(p, q, front, c, m, v.i);
      }
    }
  }

  lemma TerminatedAdded(p: Code, q: Code, front: map<Block, seq<Inst>>)
    requires AddedPhis(p, q, front) && LocalsAreScalars(p) && BlocksTerminated(p)
    ensures BlocksTerminated(q)
  {
    forall b | b in q.instrs && b in q.cfg.succs
      ensures TerminatedBlock(q, b)
    {
      assert TerminatedBlock(p, b);
      LastOpAdded(p, q, front, b);
      forall r | 0 <= r < |q.instrs[b]| - 1
        ensures !OpOf(q, q.instrs[b][r]).Term?
      {
        var i := q.instrs[b][r];
        PositionIn(p, q, front, b, r, i);
        if r < |front[b]| {
          NewOp(p, q, front, b, i);
        } else {
          OldOp(p, q, front, b, r - |front[b]|, i);
        }
      }
    }
  }

  lemma LastOpAdded(p: Code, q: Code, front: map<Block, seq<Inst>>, b: Block)
    requires AddedPhis(p, q, front) && LocalsAreScalars(p) && b in p.instrs && p.instrs[b] != []
    ensures b in q.instrs && q.instrs[b] != [] && LastOp(q, b) == LastOp(p, b)
  {
    var k := |p.instrs[b]| - 1;
    assert IsAt(p, b, k, p.instrs[b][k]);
    OldOp(p, q, front, b, k, p.instrs[b][k]);
  }

  lemma WellFormedAdded(p: Code, q: Code, front: map<Block, seq<Inst>>)
    requires AddedPhis(p, q, front) && WellFormed(p) && NoPhis(p)
    ensures WellFormed(q) && PhisUnused(q)
  {
    LocalsAreScalarsAdded(p, q, front);
    UsesAdded(p, q, front);
    TerminatedAdded(p, q, front);
  }

  lemma StoresAdded(p: Code, q: Code, front: map<Block, seq<Inst>>, b: Block, v: Inst)
    requires AddedPhis(p, q, front) && LocalsAreScalars(p)
    ensures Stores(q, b, v) <==> Stores(p, b, v)
  {
    if Stores(p, b, v) {
      var k :| 0 <= k < |ListOf(p, b)| && WritesTo(p, ListOf(p, b)[k], v);
      OldOp(p, q, front, b, k, ListOf(p, b)[k]);
      assert WritesTo(q, ListOf(q, b)[|front[b]| + k], v);
    }
    if Stores(q, b, v) {
      var r :| 0 <= r < |ListOf(q, b)| && WritesTo(q, ListOf(q, b)[r], v);
      var i := ListOf(q, b)[r];
      assert IsAt(q, b, r, i);
      PositionIn(p, q, front, b, r, i);
      if r < |front[b]| {
        NewOp(p, q, front, b, i);
      } else {
        OldOp(p, q, front, b, r - |front[b]|, i);
        assert WritesTo(p, ListOf(p, b)[r - |front[b]|], v);
      }
    }
  }

  lemma StoreBeforeLoadAdded(p: Code, q: Code, front: map<Block, seq<Inst>>)
    requires AddedPhis(p, q, front) && LocalsAreScalars(p) && StoreBeforeLoad(p)
    ensures StoreBeforeLoad(q)
  {
    hide FlowGraph.PathFromTo, Stores, LocalsAreScalars;
    forall b, r, i | IsAt(q, b, r, i) && OpOf(q, i).ReadVar?
      ensures StoredEarlier(q, b, r, OpOf(q, i).v)
              || forall path :: q.cfg.PathFromTo(path, q.cfg.entry, b) ==> StoredOn(q, path, OpOf(q, i).v)
    {
      PositionIn(p, q, front, b, r, i);
      if r < |front[b]| {
        NewOp(p, q, front, b, i);
        assert false;
      } else {
        var k := r - |front[b]|;
        OldOp(p, q, front, b, k, i);
        var v := OpOf(p, i).v;
        if StoredEarlier(p, b, k, v) {
          var m :| 0 <= m < k && m < |ListOf(p, b)| && WritesTo(p, ListOf(p, b)[m], v);
          OldOp(p, q, front, b, m, ListOf(p, b)[m]);
          assert WritesTo(q, ListOf(q, b)[|front[b]| + m], v);
        } else {
          forall path | q.cfg.PathFromTo(path, q.cfg.entry, b)
            ensures StoredOn(q, path, v)
          {
            var j :| 0 <= j < |path| - 1 && Stores(p, path[j], v);
            StoresAdded(p, q, front, path[j], v);
          }
        }
      }
    }
  }

  // ----- the same behaviour -----

  /** The runs before and after the insertion. */
  ghost predicate AlikeButPhis(q: Code, s: State, s': State) {
    && s.trace == s'.trace && s.mem == s'.mem
    && forall x :: !OpOf(q, x).PhiOp? ==> Get(s.env, x) == Get(s'.env, x)
  }

  lemma EvalAlike(q: Code, inputs: Inputs, s: State, s': State, v: Value)
    requires AlikeButPhis(q, s, s') && (v.Res? ==> !OpOf(q, v.i).PhiOp?)
    ensures Eval(inputs, s'.env, v) == Eval(inputs, s.env, v)
  {
  }

  lemma EvalAllAlike(q: Code, inputs: Inputs, s: State, s': State, vs: seq<Value>)
    requires AlikeButPhis(q, s, s') && forall v :: v in vs && v.Res? ==> !OpOf(q, v.i).PhiOp?
    ensures EvalAll(inputs, s'.env, vs) == EvalAll(inputs, s.env, vs)
  {
    forall k | 0 <= k < |vs|
      ensures Eval(inputs, s'.env, vs[k]) == Eval(inputs, s.env, vs[k])
    {
      EvalAlike(q, inputs, s, s', vs[k]);
    }
  }

  lemma StepAlike(q: Code, inputs: Inputs, i: Inst, op: Op, s: State, s': State)
    requires AlikeButPhis(q, s, s') && op == OpOf(q, i)
    requires forall v :: v in Used(op) && v.Res? ==> !OpOf(q, v.i).PhiOp?
    ensures AlikeButPhis(q, Step(inputs, i, op, s), Step(inputs, i, op, s'))
  {
    hide OpOf;
    match op
    case Act(_, args) => EvalAllAlike(q, inputs, s, s', args);
    case WriteVar(_, rval) =>
      assert rval in Used(op);
      EvalAlike(q, inputs, s, s', rval);
    case _ =>
  }

  lemma {:induction false} ExecAlike(p: Code, q: Code, front: map<Block, seq<Inst>>, inputs: Inputs, b: Block, k: nat,
                                     s: State, s': State)
    requires AddedPhis(p, q, front) && LocalsAreScalars(p) && PhisUnused(q) && b in p.instrs && k <= |p.instrs[b]|
    requires AlikeButPhis(q, s, s')
    ensures AlikeButPhis(q, Exec(p, inputs, p.instrs[b][k..], s), Exec(q, inputs, p.instrs[b][k..], s'))
    decreases |p.instrs[b]| - k
  {
    hide AlikeButPhis, OpOf, Step;
    var list := p.instrs[b];
    if k < |list| {
      var i := list[k];
      assert IsAt(p, b, k, i);
      OldOp(p, q, front, b, k, i);
      StepAlike(q, inputs, i, OpOf(p, i), s, s');
      ExecStep(p, inputs, list, k, s);
      ExecStep(q, inputs, list, k, s');
      ExecAlike(p, q, front, inputs, b, k + 1, Step(inputs, i, OpOf(p, i), s), Step(inputs, i, OpOf(p, i), s'));
    }
  }

  lemma {:induction false} ExecConcat(code: Code, inputs: Inputs, a: seq<Inst>, b: seq<Inst>, s: State)
    ensures Exec(code, inputs, a + b, s) == Exec(code, inputs, b, Exec(code, inputs, a, s))
    decreases a
  {
    if a == [] {
      assert a + b == b;
    } else {
      assert (a + b)[1..] == a[1..] + b;
      ExecConcat(code, inputs, a[1..], b, Step(inputs, a[0], OpOf(code, a[0]), s));
    }
  }

  /** Phis do nothing once their block has been entered. */
  lemma {:induction false} ExecPhis(code: Code, inputs: Inputs, phis: seq<Inst>, s: State)
    requires forall i :: i in phis ==> OpOf(code, i).PhiOp?
    ensures Exec(code, inputs, phis, s) == s
    decreases phis
  {
    if phis != [] {
      ExecPhis(code, inputs, phis[1..], s);
    }
  }

  lemma EnterAlike(p: Code, q: Code, inputs: Inputs, b: Block, prev: Option<Block>, s: State, s': State)
    requires AlikeButPhis(q, s, s') && forall i :: i in ListOf(p, b) ==> !OpOf(p, i).PhiOp?
    ensures AlikeButPhis(q, Enter(p, inputs, ListOf(p, b), prev, s), Enter(q, inputs, ListOf(q, b), prev, s'))
  {
  }

  lemma BlockAlike(p: Code, q: Code, front: map<Block, seq<Inst>>, inputs: Inputs, b: Block, prev: Option<Block>,
                   s: State, s': State)
    requires AddedPhis(p, q, front) && LocalsAreScalars(p) && NoPhis(p) && PhisUnused(q) && AlikeButPhis(q, s, s')
             && b in p.instrs
    ensures AlikeButPhis(q, RunBlock(p, inputs, b, prev, s), RunBlock(q, inputs, b, prev, s'))
  {
    forall i | i in p.instrs[b]
      ensures !OpOf(p, i).PhiOp?
    {
      var k :| 0 <= k < |p.instrs[b]| && p.instrs[b][k] == i;
      assert IsAt(p, b, k, i);
    }
    forall i | i in front[b]
      ensures OpOf(q, i).PhiOp?
    {
      NewOp(p, q, front, b, i);
    }
    assert ListOf(q, b) == front[b] + p.instrs[b];
    hide AddedPhis, LocalsAreScalars, NoPhis, OpOf, AlikeButPhis, Enter, PhisUnused, Exec;
    EnterAlike(p, q, inputs, b, prev, s, s');
    var t := Enter(p, inputs, ListOf(p, b), prev, s);
    var t' := Enter(q, inputs, ListOf(q, b), prev, s');
    ExecConcat(q, inputs, front[b], p.instrs[b], t');
    ExecPhis(q, inputs, front[b], t');
    assert p.instrs[b][0..] == p.instrs[b];
    ExecAlike(p, q, front, inputs, b, 0, t, t');
  }

  ghost predicate AlikeRuns(p: Code, q: Code, x: Config, y: Config) {
    if x.At? then y.At? && x.b == y.b && x.prev == y.prev && x.b in p.instrs && AlikeButPhis(q, x.s, y.s) else x == y
  }

  lemma TerminateAlike(p: Code, q: Code, front: map<Block, seq<Inst>>, inputs: Inputs, b: Block, s: State, s': State)
    requires AddedPhis(p, q, front) && WellFormed(p) && PhisUnused(q) && AlikeButPhis(q, s, s') && b in p.instrs
    ensures b in p.cfg.succs && LastOp(q, b) == LastOp(p, b)
    ensures Terminate(inputs, LastOp(q, b), s'.env) == Terminate(inputs, LastOp(p, b), s.env)
    ensures Terminate(inputs, LastOp(p, b), s.env).Goto? ==> Terminate(inputs, LastOp(p, b), s.env).b in p.cfg.succs[b]
  {
    hide WellFormed, AddedPhis, OpOf, AlikeButPhis, PhisUnused, LocalsAreScalars, LastOp, TermOk;
    WellFormedParts(p);
    LastWellFormed(p, b);
    LastOpAdded(p, q, front, b);
    LastUsesNoPhi(q, b);
    TerminateSame(q, inputs, LastOp(q, b), p.cfg.succs[b], s, s');
  }

  lemma LastWellFormed(p: Code, b: Block)
    requires WellFormed(p) && b in p.instrs
    ensures p.instrs[b] != [] && b in p.cfg.succs && TermOk(LastOp(p, b), p.cfg.succs[b])
  {
    assert TerminatedBlock(p, b);
  }

  lemma LastUsesNoPhi(q: Code, b: Block)
    requires PhisUnused(q) && b in q.instrs && q.instrs[b] != []
    ensures forall v :: v in Used(LastOp(q, b)) && v.Res? ==> !OpOf(q, v.i).PhiOp?
  {
    var r := |q.instrs[b]| - 1;
    assert IsAt(q, b, r, q.instrs[b][r]);
  }

  lemma TerminateSame(q: Code, inputs: Inputs, op: Op, succs: seq<Block>, s: State, s': State)
    requires TermOk(op, succs) && AlikeButPhis(q, s, s')
    requires forall v :: v in Used(op) && v.Res? ==> !OpOf(q, v.i).PhiOp?
    ensures Terminate(inputs, op, s'.env) == Terminate(inputs, op, s.env)
    ensures Terminate(inputs, op, s.env).Goto? ==> Terminate(inputs, op, s.env).b in succs
  {
    hide OpOf, AlikeButPhis;
    if |op.args| > 0 {
      assert op.args[0] in Used(op);
      EvalAlike(q, inputs, s, s', op.args[0]);
    }
  }

  lemma {:induction false} RunsAlike(p: Code, q: Code, front: map<Block, seq<Inst>>, inputs: Inputs, n: nat)
    requires AddedPhis(p, q, front) && WellFormed(p) && NoPhis(p) && PhisUnused(q)
    ensures AlikeRuns(p, q, Run(p, inputs, n), Run(q, inputs, n))
    decreases n
  {
    hide AlikeRuns, AddedPhis, WellFormed, StepConfig;
    if n == 0 {
      StartAlike(p, q, front, inputs);
    } else {
      RunsAlike(p, q, front, inputs, n - 1);
      StepAlikeRuns(p, q, front, inputs, Run(p, inputs, n - 1), Run(q, inputs, n - 1));
    }
  }

  lemma StartAlike(p: Code, q: Code, front: map<Block, seq<Inst>>, inputs: Inputs)
    requires AddedPhis(p, q, front) && WellFormed(p)
    ensures AlikeRuns(p, q, Run(p, inputs, 0), Run(q, inputs, 0))
  {
    WellFormedParts(p);
  }

  lemma StepAlikeRuns(p: Code, q: Code, front: map<Block, seq<Inst>>, inputs: Inputs, x: Config, y: Config)
    requires AddedPhis(p, q, front) && WellFormed(p) && NoPhis(p) && PhisUnused(q)
    requires AlikeRuns(p, q, x, y)
    ensures AlikeRuns(p, q, StepConfig(p, inputs, x), StepConfig(q, inputs, y))
  {
    hide WellFormed, AddedPhis, RunBlock, Terminate, AlikeButPhis, LastOp, NoPhis, PhisUnused;
    if x.At? {
      var s, s' := RunBlock(p, inputs, x.b, x.prev, x.s), RunBlock(q, inputs, y.b, y.prev, y.s);
      WellFormedParts(p);
      BlockAlike(p, q, front, inputs, x.b, x.prev, x.s, y.s);
      AlikeTrace(q, s, s');
      TerminateAlike(p, q, front, inputs, x.b, s, s');
      var next := Terminate(inputs, LastOp(p, x.b), s.env);
      if next.Goto? {
        SuccIsBlock(p, x.b, next.b);
      }
    }
  }

  lemma WellFormedParts(p: Code)
    requires WellFormed(p)
    ensures LocalsAreScalars(p) && p.cfg.succs.Keys == p.instrs.Keys && p.cfg.entry in p.instrs
  {
  }

  lemma AlikeTrace(q: Code, s: State, s': State)
    requires AlikeButPhis(q, s, s')
    ensures s.trace == s'.trace
  {
  }

  lemma AddedSameBehaviour(p: Code, q: Code, front: map<Block, seq<Inst>>)
    requires AddedPhis(p, q, front) && WellFormed(p) && NoPhis(p) && PhisUnused(q)
    ensures SameBehaviour(p, q)
  {
    hide AddedPhis, WellFormed, NoPhis, PhisUnused, Run;
    forall inputs: Inputs, n: nat
      ensures Observe(Run(p, inputs, n)) == Observe(Run(q, inputs, n))
    {
      RunsAlike(p, q, front, inputs, n);
    }
  }
}
