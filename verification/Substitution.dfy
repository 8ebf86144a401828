/** Replacing the results of loads by other values, and why a run does not notice:
    at every point the loads that can be used there have the value of what
    replaces them. */
module Substitutions {
  import opened FlowGraphs
  import opened Ir
  import opened Semantics

  function Subst(sub: map<Inst, Value>, v: Value): Value {
    if v.Res? && v.i in sub then sub[v.i] else v
  }

  function SubstAll(sub: map<Inst, Value>, vs: seq<Value>): (r: seq<Value>)
    ensures |r| == |vs|
  {
    seq(|vs|, k requires 0 <= k < |vs| => Subst(sub, vs[k]))
  }

  function SubstOp(sub: map<Inst, Value>, op: Op): Op {
    match op
    case WriteVar(v, rval) => WriteVar(v, Subst(sub, rval))
    case Act(kind, args) => Act(kind, SubstAll(sub, args))
    case Term(kind, args) => Term(kind, SubstAll(sub, args))
    case PhiOp(v, pairs) => PhiOp(v, SubstAll(sub, pairs))
    case _ => op
  }

  /** `sub` replaces loads of locals only. */
  ghost predicate ReplacesLoads(code: Code, sub: map<Inst, Value>) {
    forall i :: i in sub ==> OpOf(code, i).ReadVar?
  }

  /** What replaces a load can be used wherever the load stands, and is not
      replaced itself. */
  ghost predicate ReplacementsReady(code: Code, sub: map<Inst, Value>) {
    forall i, b, p :: i in sub && IsAt(code, b, p, i) ==> ReadyAt(code, sub, sub[i], b, p)
  }

  ghost predicate ReadyAt(code: Code, sub: map<Inst, Value>, v: Value, b: Block, p: int) {
    v.Res? ==> v.i !in sub && HasResult(OpOf(code, v.i)) && Available(code, v.i, b, p)
  }

  // ----- positions -----

  lemma PositionUnique(code: Code, b: Block, p: int, c: Block, q: int, i: Inst)
    requires PlacedOnce(code.instrs) && IsAt(code, b, p, i) && IsAt(code, c, q, i)
    ensures b == c && p == q
  {
  }

  /** An instruction that is being executed is not available yet. */
  lemma NotAvailableYet(code: Code, b: Block, p: int, i: Inst)
    requires PlacedOnce(code.instrs) && IsAt(code, b, p, i) && !OpOf(code, i).PhiOp?
    ensures !Available(code, i, b, p)
  {
    forall c, q | IsAt(code, c, q, i)
      ensures !Passed(code, c, q, i, b, p)
    {
      PositionUnique(code, b, p, c, q, i);
    }
  }

  lemma AvailableLater(code: Code, i: Inst, b: Block, p: int, p': int)
    requires Available(code, i, b, p) && p <= p'
    ensures Available(code, i, b, p')
  {
    var c, q :| IsAt(code, c, q, i) && Passed(code, c, q, i, b, p);
    assert Passed(code, c, q, i, b, p');
  }

  /** What is ready stays so further down its block. */
  lemma ReadyLater(code: Code, sub: map<Inst, Value>, v: Value, b: Block, p: int, p': int)
    requires ReadyAt(code, sub, v, b, p) && p <= p'
    ensures ReadyAt(code, sub, v, b, p')
  {
    if v.Res? {
      AvailableLater(code, v.i, b, p, p');
    }
  }

  /** After the step at `p` only the instruction at `p` has become available. */
  lemma AvailableStep(code: Code, b: Block, p: int, i: Inst, j: Inst)
    requires IsAt(code, b, p, i) && Available(code, j, b, p + 1) && j != i
    ensures Available(code, j, b, p)
  {
    var c, q :| IsAt(code, c, q, j) && Passed(code, c, q, j, b, p + 1);
    assert Passed(code, c, q, j, b, p);
  }

  lemma AvailableTransitive(code: Code, i: Inst, c: Block, q: int, j: Inst, b: Block, p: int)
    requires WellFormed(code) && IsAt(code, c, q, j) && !OpOf(code, j).PhiOp?
    requires Available(code, i, c, q) && Available(code, j, b, p)
    ensures Available(code, i, b, p)
  {
    hide WellFormed;
    PlacedOnceOf(code);
    var d, r :| IsAt(code, d, r, i) && Passed(code, d, r, i, c, q);
    var c', q' :| IsAt(code, c', q', j) && Passed(code, c', q', j, b, p);
    PositionUnique(code, c, q, c', q', j);
    if d != b {
      if c != b && d != c {
        DominatesTransitive(code.cfg, d, c, b);
      }
    } else if c != b {
      // `b` dominates `c` and is dominated by it
      CfgOf(code, b);
      DominatesAntisymmetric(code.cfg, c, b);
    }
    assert Passed(code, d, r, i, b, p);
  }

  lemma PlacedOnceOf(code: Code)
    requires WellFormed(code)
    ensures PlacedOnce(code.instrs)
  {
  }

  lemma CfgOf(code: Code, b: Block)
    requires WellFormed(code)
    ensures code.cfg.Valid() && code.instrs.Keys == code.cfg.succs.Keys
    ensures b in code.cfg.succs ==> code.cfg.Reachable(b)
  {
  }

  lemma SuccIsBlock(code: Code, b: Block, d: Block)
    requires WellFormed(code) && b in code.cfg.succs && d in code.cfg.succs[b]
    ensures d in code.cfg.succs && d in code.cfg.preds && b in code.cfg.preds[d]
  {
  }

  // ----- agreement of two environments -----

  /** `env` is the environment of the run before the replacement, `env'` of the run after. */
  ghost predicate Agree(code: Code, sub: map<Inst, Value>, inputs: Inputs, env: map<Inst, Word>, env': map<Inst, Word>,
                        b: Block, p: int)
  {
    && (forall x :: x !in sub && !OpOf(code, x).PhiOp? ==> Get(env, x) == Get(env', x))
    && (forall x :: x in sub && Available(code, x, b, p) ==> Get(env, x) == Eval(inputs, env', sub[x]))
  }

  /** A value that can be used here and that no phi defines. */
  ghost predicate Usable(code: Code, v: Value, b: Block, p: int) {
    v.Res? ==> Available(code, v.i, b, p) && !OpOf(code, v.i).PhiOp?
  }

  lemma EvalAgree(code: Code, sub: map<Inst, Value>, inputs: Inputs, env: map<Inst, Word>, env': map<Inst, Word>,
                  b: Block, p: int, v: Value)
    requires Agree(code, sub, inputs, env, env', b, p) && Usable(code, v, b, p)
    ensures Eval(inputs, env, v) == Eval(inputs, env', Subst(sub, v))
  {
  }

  lemma EvalAllAgree(code: Code, sub: map<Inst, Value>, inputs: Inputs, env: map<Inst, Word>, env': map<Inst, Word>,
                     b: Block, p: int, vs: seq<Value>)
    requires Agree(code, sub, inputs, env, env', b, p)
    requires forall v :: v in vs ==> Usable(code, v, b, p)
    ensures EvalAll(inputs, env, vs) == EvalAll(inputs, env', SubstAll(sub, vs))
  {
    forall k | 0 <= k < |vs|
      ensures Eval(inputs, env, vs[k]) == Eval(inputs, env', SubstAll(sub, vs)[k])
    {
      EvalAgree(code, sub, inputs, env, env', b, p, vs[k]);
    }
  }

  /** Writing the result of the instruction at `p` does not change a value that was ready before. */
  lemma EvalUnchanged(code: Code, sub: map<Inst, Value>, inputs: Inputs, env: map<Inst, Word>, b: Block, p: int,
                      i: Inst, w: Word, v: Value)
    requires PlacedOnce(code.instrs) && IsAt(code, b, p, i) && !OpOf(code, i).PhiOp?
    requires ReadyAt(code, sub, v, b, p)
    ensures Eval(inputs, env[i := w], v) == Eval(inputs, env, v)
  {
    NotAvailableYet(code, b, p, i);
  }

  lemma ReplacementReadyHere(code: Code, sub: map<Inst, Value>, x: Inst, b: Block, p: int)
    requires WellFormed(code) && ReplacesLoads(code, sub) && ReplacementsReady(code, sub)
    requires x in sub && Available(code, x, b, p)
    ensures ReadyAt(code, sub, sub[x], b, p)
  {
    hide WellFormed;
    var c, q :| IsAt(code, c, q, x) && Passed(code, c, q, x, b, p);
    if sub[x].Res? {
      assert ReadyAt(code, sub, sub[x], c, q);
      AvailableTransitive(code, sub[x].i, c, q, x, b, p);
    }
  }

  /** Both runs execute the same effect. */
  lemma AgreeAct(code: Code, sub: map<Inst, Value>, inputs: Inputs, env: map<Inst, Word>, env': map<Inst, Word>,
                 b: Block, p: int, i: Inst, w: Word)
    requires WellFormed(code) && ReplacesLoads(code, sub) && ReplacementsReady(code, sub)
    requires IsAt(code, b, p, i) && OpOf(code, i).Act?
    requires Agree(code, sub, inputs, env, env', b, p)
    ensures Agree(code, sub, inputs, env[i := w], env'[i := w], b, p + 1)
  {
    hide WellFormed, ReplacementsReady, Available;
    PlacedOnceOf(code);
    forall x | x in sub && Available(code, x, b, p + 1)
      ensures Get(env[i := w], x) == Eval(inputs, env'[i := w], sub[x])
    {
      AvailableStep(code, b, p, i, x);
      ReplacementReadyHere(code, sub, x, b, p);
      EvalUnchanged(code, sub, inputs, env', b, p, i, w, sub[x]);
    }
  }

  /** Neither run changes its environment. */
  lemma AgreeSkip(code: Code, sub: map<Inst, Value>, inputs: Inputs, env: map<Inst, Word>, env': map<Inst, Word>,
                  b: Block, p: int, i: Inst)
    requires IsAt(code, b, p, i) && i !in sub
    requires Agree(code, sub, inputs, env, env', b, p)
    ensures Agree(code, sub, inputs, env, env', b, p + 1)
  {
    forall x | x in sub && Available(code, x, b, p + 1)
      ensures Get(env, x) == Eval(inputs, env', sub[x])
    {
      AvailableStep(code, b, p, i, x);
    }
  }

  /** Only the run before the replacement executes the load. */
  lemma AgreeLoad(code: Code, sub: map<Inst, Value>, inputs: Inputs, env: map<Inst, Word>, env': map<Inst, Word>,
                  b: Block, p: int, i: Inst, w: Word)
    requires IsAt(code, b, p, i) && i in sub && w == Eval(inputs, env', sub[i])
    requires Agree(code, sub, inputs, env, env', b, p)
    ensures Agree(code, sub, inputs, env[i := w], env', b, p + 1)
  {
    forall x | x in sub && Available(code, x, b, p + 1)
      ensures Get(env[i := w], x) == Eval(inputs, env', sub[x])
    {
      if x != i {
        AvailableStep(code, b, p, i, x);
      }
    }
  }

  /** A load that is kept reads the same word in both runs. */
  lemma AgreeKeptLoad(code: Code, sub: map<Inst, Value>, inputs: Inputs, env: map<Inst, Word>, env': map<Inst, Word>,
                      b: Block, p: int, i: Inst, w: Word)
    requires WellFormed(code) && ReplacesLoads(code, sub) && ReplacementsReady(code, sub)
    requires IsAt(code, b, p, i) && OpOf(code, i).ReadVar? && i !in sub
    requires Agree(code, sub, inputs, env, env', b, p)
    ensures Agree(code, sub, inputs, env[i := w], env'[i := w], b, p + 1)
  {
    hide WellFormed, ReplacementsReady, Available;
    PlacedOnceOf(code);
    forall x | x in sub && Available(code, x, b, p + 1)
      ensures Get(env[i := w], x) == Eval(inputs, env'[i := w], sub[x])
    {
      AvailableStep(code, b, p, i, x);
      ReplacementReadyHere(code, sub, x, b, p);
      EvalUnchanged(code, sub, inputs, env', b, p, i, w, sub[x]);
    }
  }

  /** What is available on entry to a block was so at the end of each predecessor. */
  lemma AvailableOverEdge(code: Code, b: Block, d: Block, x: Inst)
    requires WellFormed(code) && b in code.cfg.succs && d in code.cfg.succs[b]
    requires Available(code, x, d, 0) && !OpOf(code, x).PhiOp?
    ensures Available(code, x, b, |ListOf(code, b)|)
  {
    CfgOf(code, b);
    hide WellFormed;
    var c, q :| IsAt(code, c, q, x) && Passed(code, c, q, x, d, 0);
    DominatesPred(code.cfg, c, b, d);
    assert Passed(code, c, q, x, b, |ListOf(code, b)|);
  }

  /** Following an edge keeps the agreement; so do the phis at its end, whatever they get. */
  lemma AgreeEdge(code: Code, sub: map<Inst, Value>, inputs: Inputs, env: map<Inst, Word>, env': map<Inst, Word>,
                  b: Block, d: Block, e: map<Inst, Word>, e': map<Inst, Word>)
    requires WellFormed(code) && ReplacesLoads(code, sub) && ReplacementsReady(code, sub)
    requires b in code.cfg.succs && d in code.cfg.succs[b]
    requires Agree(code, sub, inputs, env, env', b, |ListOf(code, b)|)
    requires OnlyPhisOf(code, d, env, e) && OnlyPhisOf(code, d, env', e')
    ensures Agree(code, sub, inputs, e, e', d, 0)
  {
    hide WellFormed, ReplacementsReady, Available;
    SuccIsBlock(code, b, d);
    forall x | x in sub && Available(code, x, d, 0)
      ensures Get(e, x) == Eval(inputs, e', sub[x])
    {
      AvailableOverEdge(code, b, d, x);
      NotPhiOfTarget(code, sub, d, x);
    }
  }

  /** `e` is `env` but for phis of block `d`. */
  ghost predicate OnlyPhisOf(code: Code, d: Block, env: map<Inst, Word>, e: map<Inst, Word>) {
    forall x :: !(x in ListOf(code, d) && OpOf(code, x).PhiOp?) ==> Get(e, x) == Get(env, x)
  }

  /** What replaces a load available on entry to `d` is not one of the phis of `d`. */
  lemma NotPhiOfTarget(code: Code, sub: map<Inst, Value>, d: Block, x: Inst)
    requires WellFormed(code) && ReplacesLoads(code, sub) && ReplacementsReady(code, sub)
    requires x in sub && Available(code, x, d, 0) && d in code.cfg.succs
    ensures sub[x].Res? ==> sub[x].i !in ListOf(code, d)
  {
    PlacedOnceOf(code);
    CfgOf(code, d);
    hide WellFormed;
    if sub[x].Res? && sub[x].i in ListOf(code, d) {
      var y := sub[x].i;
      var r :| 0 <= r < |ListOf(code, d)| && ListOf(code, d)[r] == y;
      assert IsAt(code, d, r, y);
      var c, q :| IsAt(code, c, q, x) && Passed(code, c, q, x, d, 0);
      assert ReadyAt(code, sub, sub[x], c, q);
      var d', r' :| IsAt(code, d', r', y) && Passed(code, d', r', y, c, q);
      PositionUnique(code, d, r, d', r', y);
      DominatesAntisymmetric(code.cfg, c, d);
    }
  }
}
