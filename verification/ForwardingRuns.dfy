/** Forwarding inside one block does not change what a function does. */
module ForwardingRuns {
  import opened FlowGraphs
  import opened Ir
  import opened Semantics
  import opened Substitutions
  import opened Keeping
  import opened Trimming
  import opened Forwarding

  /** `q` is `p` after the pass has worked on block `b`. */
  ghost predicate ForwardedIn(p: Code, q: Code, b: Block, fin: Scan) {
    ScanOf(p, b, fin) && Trimmed(p, q, fin.forward, fin.forward.Keys + fin.deleted)
  }

  lemma ForwardedParts(p: Code, q: Code, b: Block, fin: Scan)
    requires ForwardedIn(p, q, b, fin)
    ensures WellFormed(p) && NoPhis(p) && b in p.instrs && q.cfg == p.cfg && q.instrs.Keys == p.instrs.Keys
    ensures fin == ScanAll(p, p.instrs[b])
    ensures LocalsAreScalars(p) && PlacedOnce(p.instrs) && UsesDefined(p) && p.cfg.succs.Keys == p.instrs.Keys
    ensures ReplacesLoads(p, fin.forward) && ReplacementsReady(p, fin.forward)
    ensures DropsLocals(p, fin.forward, fin.forward.Keys + fin.deleted)
    ensures forall c :: c in p.instrs ==> q.instrs[c] == Keep(p.instrs[c], fin.forward.Keys + fin.deleted)
  {
    ScanOfParts(p, b, fin);
    ForwardedAreReady(p, b, fin);
  }

  // ----- one instruction -----

  /** The two runs at position `k` of the block the pass worked on. */
  ghost predicate InsideBlock(p: Code, b: Block, fin: Scan, inputs: Inputs, k: nat, scan: Scan, s: State, s': State) {
    && s.trace == s'.trace
    && Agree(p, fin.forward, inputs, s.env, s'.env, b, k)
    && NewValuesCurrent(inputs, scan, s, s')
    && SurvivingStored(fin, scan, s, s')
  }

  ghost predicate NewValuesCurrent(inputs: Inputs, scan: Scan, s: State, s': State) {
    forall v :: v in scan.newValue ==> Get(s.mem, v) == Eval(inputs, s'.env, scan.newValue[v])
  }

  ghost predicate SurvivingStored(fin: Scan, scan: Scan, s: State, s': State) {
    forall v :: v !in scan.defined || scan.defined[v] !in fin.deleted ==> Get(s.mem, v) == Get(s'.mem, v)
  }

  /** The two runs at position `k` of any other block. */
  ghost predicate OutsideBlock(p: Code, c: Block, fin: Scan, inputs: Inputs, k: int, s: State, s': State) {
    && s.trace == s'.trace
    && Agree(p, fin.forward, inputs, s.env, s'.env, c, k)
    && forall v :: Get(s.mem, v) == Get(s'.mem, v)
  }

  /** Operands of the instruction at `k` can be used there. */
  lemma UsedAreUsable(p: Code, b: Block, k: int, i: Inst)
    requires UsesDefined(p) && NoPhis(p) && IsAt(p, b, k, i)
    ensures forall v :: v in Used(OpOf(p, i)) ==> Usable(p, v, b, k)
  {
    forall v | v in Used(OpOf(p, i))
      ensures Usable(p, v, b, k)
    {
      if v.Res? {
        var c, q :| IsAt(p, c, q, v.i) && Passed(p, c, q, v.i, b, k);
      }
    }
  }

  lemma NewValuesSurvive(p: Code, sub: map<Inst, Value>, newValue: map<Inst, Value>, inputs: Inputs,
                         env: map<Inst, Word>, b: Block, k: int, i: Inst, w: Word)
    requires PlacedOnce(p.instrs) && IsAt(p, b, k, i) && !OpOf(p, i).PhiOp?
    requires NewValuesReady(p, sub, newValue, b, k)
    ensures forall v :: v in newValue ==> Eval(inputs, env[i := w], newValue[v]) == Eval(inputs, env, newValue[v])
  {
    hide ReadyAt, IsAt, PlacedOnce;
    forall v | v in newValue
      ensures Eval(inputs, env[i := w], newValue[v]) == Eval(inputs, env, newValue[v])
    {
      EvalUnchanged(p, sub, inputs, env, b, k, i, w, newValue[v]);
    }
  }

  lemma InsideAct(p: Code, q: Code, b: Block, fin: Scan, inputs: Inputs, k: nat, scan: Scan, s: State, s': State)
    requires ForwardedIn(p, q, b, fin) && b in p.instrs && k < |p.instrs[b]| && scan == ScanUpTo(p, p.instrs[b], k)
    requires OpOf(p, p.instrs[b][k]).Act? && InsideBlock(p, b, fin, inputs, k, scan, s, s')
    ensures InsideBlock(p, b, fin, inputs, k + 1, scan,
              Step(inputs, p.instrs[b][k], OpOf(p, p.instrs[b][k]), s),
              Step(inputs, p.instrs[b][k], SubstOp(fin.forward, OpOf(p, p.instrs[b][k])), s'))
  {
    hide ForwardedIn, WellFormed, ScanUpTo, ScanAll, UsesDefined, ReplacementsReady, Agree, NoPhis, LocalsAreScalars,
         OpOf, Usable;
    var i := p.instrs[b][k];
    var kind, args := OpOf(p, i).kind, OpOf(p, i).args;
    ForwardedParts(p, q, b, fin);
    assert IsAt(p, b, k, i);
    UsedAreUsable(p, b, k, i);
    ScanReady(p, b, fin, k);
    EvalAllAgree(p, fin.forward, inputs, s.env, s'.env, b, k, args);
    var trace := s.trace + [Event(kind, EvalAll(inputs, s.env, args))];
    var w := inputs.oracle(trace);
    AgreeAct(p, fin.forward, inputs, s.env, s'.env, b, k, i, w);
    NewValuesSurvive(p, fin.forward, scan.newValue, inputs, s'.env, b, k, i, w);
  }

  lemma NotForwarded(p: Code, b: Block, fin: Scan, k: nat)
    requires ScanOf(p, b, fin) && k < |p.instrs[b]| && !ReadsAfterStore(p, p.instrs[b], k)
    ensures p.instrs[b][k] !in fin.forward
  {
    ScanOfParts(p, b, fin);
    var list := p.instrs[b];
    var i := list[k];
    forall m | 0 <= m < |list| && ReadsAfterStore(p, list, m)
      ensures list[m] != i
    {
      if list[m] == i {
        PositionUnique(p, b, m, b, k, i);
      }
    }
  }

  /** A load is replaced exactly when its local has been stored to before, and
      by the value stored last. */
  lemma LoadReplacedBy(p: Code, b: Block, fin: Scan, k: nat, scan: Scan)
    requires ScanOf(p, b, fin) && b in p.instrs && k < |p.instrs[b]| && scan == ScanUpTo(p, p.instrs[b], k)
    requires OpOf(p, p.instrs[b][k]).ReadVar? && OpOf(p, p.instrs[b][k]).v in scan.defined
    ensures scan.defined.Keys == scan.newValue.Keys
    ensures p.instrs[b][k] in fin.forward && fin.forward[p.instrs[b][k]] == scan.newValue[OpOf(p, p.instrs[b][k]).v]
  {
    hide ScanUpTo, ScanOf, OpOf;
    ScanOfParts(p, b, fin);
    ScanOfAll(p, b, fin);
    ScanHoldsUpTo(p, p.instrs[b], k);
    ScanUpToStep(p, p.instrs[b], k);
    hide DefinedHolds, ForwardHolds, DeletedHolds;
    ForwardGrows(p, b, fin, k + 1);
  }

  lemma LoadKept(p: Code, b: Block, fin: Scan, k: nat, scan: Scan)
    requires ScanOf(p, b, fin) && b in p.instrs && k < |p.instrs[b]| && scan == ScanUpTo(p, p.instrs[b], k)
    requires OpOf(p, p.instrs[b][k]).ReadVar? && OpOf(p, p.instrs[b][k]).v !in scan.defined
    ensures p.instrs[b][k] !in fin.forward
  {
    hide ScanUpTo, ScanOf, OpOf;
    ScanHoldsUpTo(p, p.instrs[b], k);
    StoredIffDefined(p, p.instrs[b], k, scan.defined, OpOf(p, p.instrs[b][k]).v);
    NotForwarded(p, b, fin, k);
  }

  lemma ScanOfAll(p: Code, b: Block, fin: Scan)
    requires ScanOf(p, b, fin)
    ensures b in p.instrs && fin == ScanAll(p, p.instrs[b])
  {
  }

  lemma InsideForwardedLoad(p: Code, b: Block, fin: Scan, inputs: Inputs, k: nat, scan: Scan, s: State, s': State,
                            i: Inst, v: Inst)
    requires IsAt(p, b, k, i) && v in scan.defined && v in scan.newValue
    requires i in fin.forward && fin.forward[i] == scan.newValue[v]
    requires InsideBlock(p, b, fin, inputs, k, scan, s, s')
    ensures InsideBlock(p, b, fin, inputs, k + 1, ScanLoad(scan, i, v), Step(inputs, i, ReadVar(v), s), s')
  {
    AgreeLoad(p, fin.forward, inputs, s.env, s'.env, b, k, i, Get(s.mem, v));
    hide Agree;
  }

  lemma InsideKeptLoad(p: Code, q: Code, b: Block, fin: Scan, inputs: Inputs, k: nat, scan: Scan, s: State, s': State,
                       i: Inst, v: Inst)
    requires ForwardedIn(p, q, b, fin) && IsAt(p, b, k, i) && scan == ScanUpTo(p, p.instrs[b], k)
    requires OpOf(p, i) == ReadVar(v) && v !in scan.defined && i !in fin.forward
    requires InsideBlock(p, b, fin, inputs, k, scan, s, s')
    ensures InsideBlock(p, b, fin, inputs, k + 1, scan, Step(inputs, i, ReadVar(v), s), Step(inputs, i, ReadVar(v), s'))
  {
    hide ForwardedIn, WellFormed, ScanUpTo, ScanAll, UsesDefined, ReplacementsReady, Agree, NoPhis, LocalsAreScalars,
         OpOf;
    ForwardedParts(p, q, b, fin);
    ScanReadyParts(p, q, b, fin, k);
    var w := Get(s.mem, v);
    AgreeKeptLoad(p, fin.forward, inputs, s.env, s'.env, b, k, i, w);
    NewValuesSurvive(p, fin.forward, scan.newValue, inputs, s'.env, b, k, i, w);
  }

  lemma ScanReadyParts(p: Code, q: Code, b: Block, fin: Scan, k: nat)
    requires ForwardedIn(p, q, b, fin) && b in p.instrs && k <= |p.instrs[b]|
    ensures NewValuesReady(p, fin.forward, ScanUpTo(p, p.instrs[b], k).newValue, b, k)
  {
    ScanReady(p, b, fin, k);
  }

  lemma StoreMemories(inputs: Inputs, fin: Scan, scan: Scan, s: State, s': State, i: Inst, v: Inst, rval: Value,
                      w: Word, w': Word)
    requires NewValuesCurrent(inputs, scan, s, s') && SurvivingStored(fin, scan, s, s')
    requires w == Eval(inputs, s'.env, Subst(scan.forward, rval)) && (i !in fin.deleted ==> w' == w)
    ensures NewValuesCurrent(inputs, ScanStore(scan, i, v, rval), s.(mem := s.mem[v := w]), s')
    ensures NewValuesCurrent(inputs, ScanStore(scan, i, v, rval), s.(mem := s.mem[v := w]), s'.(mem := s'.mem[v := w']))
    ensures i in fin.deleted ==> SurvivingStored(fin, ScanStore(scan, i, v, rval), s.(mem := s.mem[v := w]), s')
    ensures i !in fin.deleted ==>
              SurvivingStored(fin, ScanStore(scan, i, v, rval), s.(mem := s.mem[v := w]), s'.(mem := s'.mem[v := w']))
  {
  }

  lemma InsideStore(p: Code, q: Code, b: Block, fin: Scan, inputs: Inputs, k: nat, scan: Scan, s: State, s': State,
                    i: Inst, v: Inst, rval: Value)
    requires ForwardedIn(p, q, b, fin) && IsAt(p, b, k, i) && scan == ScanUpTo(p, p.instrs[b], k)
    requires OpOf(p, i) == WriteVar(v, rval)
    requires InsideBlock(p, b, fin, inputs, k, scan, s, s')
    ensures InsideBlock(p, b, fin, inputs, k + 1, ScanStore(scan, i, v, rval), Step(inputs, i, WriteVar(v, rval), s),
              StepTrimmed(inputs, fin.forward, fin.forward.Keys + fin.deleted, i, WriteVar(v, rval), s'))
  {
    hide ForwardedIn, WellFormed, ScanUpTo, ScanAll, UsesDefined, ReplacementsReady, Agree, NoPhis, LocalsAreScalars,
         OpOf, NewValuesCurrent, SurvivingStored, ScanStore;
    ForwardedParts(p, q, b, fin);
    UsedAreUsable(p, b, k, i);
    assert rval in Used(OpOf(p, i));
    StoreSubst(p, q, b, fin, k, rval);
    assert i !in fin.forward;
    EvalAgree(p, fin.forward, inputs, s.env, s'.env, b, k, rval);
    AgreeSkip(p, fin.forward, inputs, s.env, s'.env, b, k, i);
    StoreMemories(inputs, fin, scan, s, s', i, v, rval, Eval(inputs, s.env, rval),
                  Eval(inputs, s'.env, Subst(fin.forward, rval)));
  }

  lemma StoreSubst(p: Code, q: Code, b: Block, fin: Scan, k: nat, rval: Value)
    requires ForwardedIn(p, q, b, fin) && b in p.instrs && k <= |p.instrs[b]| && Usable(p, rval, b, k)
    ensures Subst(ScanUpTo(p, p.instrs[b], k).forward, rval) == Subst(fin.forward, rval)
  {
    SubstStable(p, b, fin, k, rval);
  }

  lemma InsideOther(p: Code, q: Code, b: Block, fin: Scan, inputs: Inputs, k: nat, scan: Scan, s: State, s': State,
                    i: Inst)
    requires ForwardedIn(p, q, b, fin) && IsAt(p, b, k, i)
    requires OpOf(p, i).Silent? || OpOf(p, i).Term?
    requires InsideBlock(p, b, fin, inputs, k, scan, s, s')
    ensures InsideBlock(p, b, fin, inputs, k + 1, scan, s, s')
  {
    hide ForwardedIn, Agree;
    ForwardedParts(p, q, b, fin);
    AgreeSkip(p, fin.forward, inputs, s.env, s'.env, b, k, i);
  }

  lemma DroppedAreLocal(p: Code, q: Code, b: Block, fin: Scan, i: Inst)
    requires ForwardedIn(p, q, b, fin) && (OpOf(p, i).Act? || OpOf(p, i).Term? || OpOf(p, i).Silent?)
    ensures i !in fin.forward.Keys + fin.deleted
  {
    ScanOfParts(p, b, fin);
  }

  /** One step of both runs inside the block. */
  lemma InsideStep(p: Code, q: Code, b: Block, fin: Scan, inputs: Inputs, k: nat, scan: Scan, s: State, s': State,
                   i: Inst)
    requires ForwardedIn(p, q, b, fin) && IsAt(p, b, k, i) && scan == ScanUpTo(p, p.instrs[b], k)
    requires InsideBlock(p, b, fin, inputs, k, scan, s, s')
    ensures InsideBlock(p, b, fin, inputs, k + 1, ScanStep(p, scan, i), Step(inputs, i, OpOf(p, i), s),
              StepTrimmed(inputs, fin.forward, fin.forward.Keys + fin.deleted, i, OpOf(p, i), s'))
  {
    hide ForwardedIn, WellFormed, ScanUpTo, ScanAll, UsesDefined, ReplacementsReady, LocalsAreScalars, InsideBlock,
         OpOf;
    ForwardedParts(p, q, b, fin);
    match OpOf(p, i)
    case Act(_, _) =>
      DroppedAreLocal(p, q, b, fin, i);
      InsideAct(p, q, b, fin, inputs, k, scan, s, s');
    case WriteVar(v, rval) =>
      InsideStore(p, q, b, fin, inputs, k, scan, s, s', i, v, rval);
    case ReadVar(v) =>
      ForwardedScan(p, q, b, fin);
      if v in scan.defined {
        LoadReplacedBy(p, b, fin, k, scan);
        InsideForwardedLoad(p, b, fin, inputs, k, scan, s, s', i, v);
      } else {
        LoadKept(p, b, fin, k, scan);
        KeptLoadNotDropped(p, q, b, fin, i);
        InsideKeptLoad(p, q, b, fin, inputs, k, scan, s, s', i, v);
      }
    case PhiOp(_, _) =>
      assert false;
    case _ =>
      DroppedAreLocal(p, q, b, fin, i);
      InsideOther(p, q, b, fin, inputs, k, scan, s, s', i);
  }

  lemma ForwardedScan(p: Code, q: Code, b: Block, fin: Scan)
    requires ForwardedIn(p, q, b, fin)
    ensures ScanOf(p, b, fin)
  {
  }

  lemma KeptLoadNotDropped(p: Code, q: Code, b: Block, fin: Scan, i: Inst)
    requires ForwardedIn(p, q, b, fin) && OpOf(p, i).ReadVar? && i !in fin.forward
    ensures i !in fin.forward.Keys + fin.deleted
  {
    ScanOfParts(p, b, fin);
  }

  // ----- the whole block -----

  lemma StepsAgree(p: Code, q: Code, b: Block, fin: Scan, inputs: Inputs, c: Block, k: nat, s': State)
    requires ForwardedIn(p, q, b, fin) && c in p.instrs && k < |p.instrs[c]|
    ensures p.instrs[c][k] !in fin.forward.Keys + fin.deleted ==>
      OpOf(q, p.instrs[c][k]) == SubstOp(fin.forward, OpOf(p, p.instrs[c][k]))
  {
    ForwardedParts(p, q, b, fin);
    var i := p.instrs[c][k];
    assert IsAt(p, c, k, i);
    if i !in fin.forward.Keys + fin.deleted {
      OpOfTrimmed(p, q, fin.forward, fin.forward.Keys + fin.deleted, c, k, i);
    }
  }

  lemma {:induction false} InsideExec(p: Code, q: Code, b: Block, fin: Scan, inputs: Inputs, k: nat, s: State,
                                      s': State)
    requires ForwardedIn(p, q, b, fin) && b in p.instrs && k <= |p.instrs[b]|
    requires InsideBlock(p, b, fin, inputs, k, ScanUpTo(p, p.instrs[b], k), s, s')
    ensures InsideBlock(p, b, fin, inputs, |p.instrs[b]|, ScanUpTo(p, p.instrs[b], |p.instrs[b]|),
              Exec(p, inputs, p.instrs[b][k..], s),
              Exec(q, inputs, Keep(p.instrs[b][k..], fin.forward.Keys + fin.deleted), s'))
    decreases |p.instrs[b]| - k
  {
    hide ForwardedIn, InsideBlock, ScanUpTo, OpOf, Exec, Keep, ScanStep, StepTrimmed, Step;
    var list := p.instrs[b];
    if k < |list| {
      var i := list[k];
      StepsAgree(p, q, b, fin, inputs, b, k, s');
      InsideStep(p, q, b, fin, inputs, k, ScanUpTo(p, list, k), s, s', i);
      ScanUpToStep(p, list, k);
      ExecStep(p, inputs, list, k, s);
      ExecTrimmedStep(p, q, fin.forward, fin.forward.Keys + fin.deleted, inputs, list, k, s');
      InsideExec(p, q, b, fin, inputs, k + 1, Step(inputs, i, OpOf(p, i), s),
                 StepTrimmed(inputs, fin.forward, fin.forward.Keys + fin.deleted, i, OpOf(p, i), s'));
    } else {
      ExecNothing(p, q, inputs, list, fin.forward.Keys + fin.deleted, s, s');
    }
  }

  lemma InsideStarts(p: Code, b: Block, fin: Scan, inputs: Inputs, s: State, s': State)
    requires b in p.instrs && OutsideBlock(p, b, fin, inputs, 0, s, s')
    ensures InsideBlock(p, b, fin, inputs, 0, ScanUpTo(p, p.instrs[b], 0), s, s')
  {
    hide Agree;
  }

  /** The last store to a local is never deleted, so both memories end equal. */
  lemma InsideEnds(p: Code, q: Code, b: Block, fin: Scan, inputs: Inputs, s: State, s': State)
    requires ForwardedIn(p, q, b, fin) && b in p.instrs
    requires InsideBlock(p, b, fin, inputs, |p.instrs[b]|, ScanUpTo(p, p.instrs[b], |p.instrs[b]|), s, s')
    ensures OutsideBlock(p, b, fin, inputs, |p.instrs[b]|, s, s')
  {
    ForwardedParts(p, q, b, fin);
    ScanOfParts(p, b, fin);
    hide ForwardedIn, WellFormed, ScanUpTo, Agree;
    assert fin == ScanUpTo(p, p.instrs[b], |p.instrs[b]|);
    forall v | v in fin.defined
      ensures fin.defined[v] !in fin.deleted
    {
      LastStoreSurvives(p, b, fin, v);
    }
  }

  lemma LastStoreSurvives(p: Code, b: Block, fin: Scan, v: Inst)
    requires b in p.instrs && PlacedOnce(p.instrs) && ScanHolds(p, p.instrs[b], |p.instrs[b]|, fin) && v in fin.defined
    ensures fin.defined[v] !in fin.deleted && fin.defined[v] in p.instrs[b] && WritesTo(p, fin.defined[v], v)
  {
    var list := p.instrs[b];
    var q :| LastStore(p, list, |list|, v, q);
    forall m | Overwritten(p, list, |list|, m)
      ensures list[m] != list[q]
    {
      assert m != q;
    }
  }

  lemma OutsideNotDropped(p: Code, q: Code, b: Block, fin: Scan, c: Block, k: nat)
    requires ForwardedIn(p, q, b, fin) && c != b && c in p.instrs && k < |p.instrs[c]|
    ensures p.instrs[c][k] !in fin.forward.Keys + fin.deleted
  {
    hide ForwardedIn;
    ForwardedScan(p, q, b, fin);
    ScanOfParts(p, b, fin);
    forall m | 0 <= m < |p.instrs[b]|
      ensures p.instrs[b][m] != p.instrs[c][k]
    {
    }
  }

  lemma SameMemoriesStored(m: map<Inst, Word>, m': map<Inst, Word>, v: Inst, w: Word, m1: map<Inst, Word>,
                           m1': map<Inst, Word>)
    requires forall u :: Get(m, u) == Get(m', u)
    requires m1 == m[v := w] && m1' == m'[v := w]
    ensures forall u :: Get(m1, u) == Get(m1', u)
  {
    forall u
      ensures Get(m1, u) == Get(m1', u)
    {
      assert Get(m, u) == Get(m', u);
    }
  }

  lemma OutsideStep(p: Code, q: Code, b: Block, fin: Scan, inputs: Inputs, c: Block, k: nat, s: State, s': State,
                    i: Inst)
    requires ForwardedIn(p, q, b, fin) && IsAt(p, c, k, i) && i !in fin.forward
    requires OutsideBlock(p, c, fin, inputs, k, s, s')
    ensures OutsideBlock(p, c, fin, inputs, k + 1, Step(inputs, i, OpOf(p, i), s),
                         Step(inputs, i, SubstOp(fin.forward, OpOf(p, i)), s'))
  {
    hide ForwardedIn, WellFormed, ScanAll, UsesDefined, ReplacementsReady, Agree, NoPhis, LocalsAreScalars, OpOf,
         Usable;
    ForwardedParts(p, q, b, fin);
    UsedAreUsable(p, c, k, i);
    match OpOf(p, i)
    case Act(kind, args) =>
      EvalAllAgree(p, fin.forward, inputs, s.env, s'.env, c, k, args);
      var w := inputs.oracle(s.trace + [Event(kind, EvalAll(inputs, s.env, args))]);
      AgreeAct(p, fin.forward, inputs, s.env, s'.env, c, k, i, w);
    case WriteVar(v, rval) =>
      assert rval in Used(OpOf(p, i));
      EvalAgree(p, fin.forward, inputs, s.env, s'.env, c, k, rval);
      AgreeSkip(p, fin.forward, inputs, s.env, s'.env, c, k, i);
      var w := Eval(inputs, s.env, rval);
      SameMemoriesStored(s.mem, s'.mem, v, w, s.mem[v := w], s'.mem[v := w]);
    case ReadVar(v) =>
      AgreeKeptLoad(p, fin.forward, inputs, s.env, s'.env, c, k, i, Get(s.mem, v));
    case _ =>
      AgreeSkip(p, fin.forward, inputs, s.env, s'.env, c, k, i);
  }

  lemma {:induction false} OutsideExec(p: Code, q: Code, b: Block, fin: Scan, inputs: Inputs, c: Block, k: nat,
                                       s: State, s': State)
    requires ForwardedIn(p, q, b, fin) && c != b && c in p.instrs && k <= |p.instrs[c]|
    requires OutsideBlock(p, c, fin, inputs, k, s, s')
    ensures OutsideBlock(p, c, fin, inputs, |p.instrs[c]|,
              Exec(p, inputs, p.instrs[c][k..], s),
              Exec(q, inputs, Keep(p.instrs[c][k..], fin.forward.Keys + fin.deleted), s'))
    decreases |p.instrs[c]| - k
  {
    hide ForwardedIn, OutsideBlock, OpOf, Exec, Keep, Step, SubstOp;
    var list := p.instrs[c];
    if k < |list| {
      var i := list[k];
      StepsAgree(p, q, b, fin, inputs, c, k, s');
      OutsideNotDropped(p, q, b, fin, c, k);
      OutsideStep(p, q, b, fin, inputs, c, k, s, s', i);
      ExecStep(p, inputs, list, k, s);
      ExecTrimmedStep(p, q, fin.forward, fin.forward.Keys + fin.deleted, inputs, list, k, s');
      OutsideExec(p, q, b, fin, inputs, c, k + 1, Step(inputs, i, OpOf(p, i), s),
                  StepTrimmed(inputs, fin.forward, fin.forward.Keys + fin.deleted, i, OpOf(p, i), s'));
    } else {
      ExecNothing(p, q, inputs, list, fin.forward.Keys + fin.deleted, s, s');
    }
  }

  // ----- the whole run -----

  lemma EnterNoPhis(code: Code, inputs: Inputs, c: Block, prev: Option<Block>, s: State)
    requires forall i :: i in ListOf(code, c) ==> !OpOf(code, i).PhiOp?
    ensures Enter(code, inputs, ListOf(code, c), prev, s) == s
  {
    assert s.env + (map i | i in ListOf(code, c)
                    && OpOf(code, i).PhiOp? :: PhiWord(inputs, s.env, OpOf(code, i), prev)) == s.env;
  }

  lemma NoPhisIn(p: Code, c: Block)
    requires NoPhis(p) && c in p.instrs
    ensures forall i :: i in p.instrs[c] ==> !OpOf(p, i).PhiOp?
  {
    hide OpOf;
    forall i | i in p.instrs[c]
      ensures !OpOf(p, i).PhiOp?
    {
      var k :| 0 <= k < |p.instrs[c]| && p.instrs[c][k] == i;
      assert IsAt(p, c, k, i);
    }
  }

  lemma NoPhisAfter(p: Code, q: Code, b: Block, fin: Scan)
    requires ForwardedIn(p, q, b, fin)
    ensures NoPhis(q)
  {
    hide ForwardedIn, OpOf, LocalsAreScalars, WellFormed;
    ForwardedParts(p, q, b, fin);
    ForwardedTrimmed(p, q, b, fin);
    forall c, r, i | IsAt(q, c, r, i)
      ensures !OpOf(q, i).PhiOp?
    {
      var k := IsAtUntrimmed(p, q, fin.forward, fin.forward.Keys + fin.deleted, c, r, i);
      OpOfTrimmed(p, q, fin.forward, fin.forward.Keys + fin.deleted, c, k, i);
    }
  }

  lemma ForwardedTrimmed(p: Code, q: Code, b: Block, fin: Scan)
    requires ForwardedIn(p, q, b, fin)
    ensures Trimmed(p, q, fin.forward, fin.forward.Keys + fin.deleted)
  {
  }

  /** Running a block keeps the two runs together. */
  lemma BlockAgrees(p: Code, q: Code, b: Block, fin: Scan, inputs: Inputs, c: Block, prev: Option<Block>, s: State,
                    s': State)
    requires ForwardedIn(p, q, b, fin) && c in p.instrs && OutsideBlock(p, c, fin, inputs, 0, s, s')
    ensures OutsideBlock(p, c, fin, inputs, |p.instrs[c]|, RunBlock(p, inputs, c, prev, s),
                         RunBlock(q, inputs, c, prev, s'))
  {
    hide ForwardedIn, WellFormed, OutsideBlock, InsideBlock, Exec, Keep, NoPhis, OpOf, Enter, ScanUpTo,
         ReplacementsReady, ReplacesLoads, DropsLocals, UsesDefined, LocalsAreScalars;
    var list := p.instrs[c];
    ForwardedParts(p, q, b, fin);
    NoPhisIn(p, c);
    NoPhisAfter(p, q, b, fin);
    NoPhisIn(q, c);
    EnterNoPhis(p, inputs, c, prev, s);
    EnterNoPhis(q, inputs, c, prev, s');
    assert list[0..] == list;
    if c == b {
      InsideStarts(p, b, fin, inputs, s, s');
      InsideExec(p, q, b, fin, inputs, 0, s, s');
      InsideEnds(p, q, b, fin, inputs, RunBlock(p, inputs, c, prev, s), RunBlock(q, inputs, c, prev, s'));
    } else {
      OutsideExec(p, q, b, fin, inputs, c, 0, s, s');
    }
  }

  ghost predicate Together(p: Code, fin: Scan, inputs: Inputs, x: Config, y: Config) {
    if x.At? then y.At? && x.b == y.b && x.prev == y.prev && x.b in p.instrs
      && OutsideBlock(p, x.b, fin, inputs, 0, x.s, y.s)
    else x == y
  }

  lemma StepTogether(p: Code, q: Code, b: Block, fin: Scan, inputs: Inputs, x: Config, y: Config)
    requires ForwardedIn(p, q, b, fin) && Together(p, fin, inputs, x, y)
    ensures Together(p, fin, inputs, StepConfig(p, inputs, x), StepConfig(q, inputs, y))
  {
    hide ForwardedIn, WellFormed, RunBlock, Terminate, Agree, LastOp, ReplacementsReady, ReplacesLoads, DropsLocals,
         UsesDefined, LocalsAreScalars, NoPhis, ScanAll;
    if x.At? {
      var c := x.b;
      var s, s' := RunBlock(p, inputs, c, x.prev, x.s), RunBlock(q, inputs, c, y.prev, y.s);
      ForwardedParts(p, q, b, fin);
      BlockAgrees(p, q, b, fin, inputs, c, x.prev, x.s, y.s);
      TerminatorAgrees(p, q, b, fin, inputs, c, s, s');
      var next := Terminate(inputs, LastOp(p, c), s.env);
      if next.Goto? {
        SuccIsBlock(p, c, next.b);
        EdgeAgrees(p, q, b, fin, inputs, c, next.b, s, s');
      }
    }
  }

  lemma TerminatorAgrees(p: Code, q: Code, b: Block, fin: Scan, inputs: Inputs, c: Block, s: State, s': State)
    requires ForwardedIn(p, q, b, fin) && c in p.instrs && c in p.cfg.succs
    requires OutsideBlock(p, c, fin, inputs, |p.instrs[c]|, s, s')
    ensures Terminate(inputs, LastOp(q, c), s'.env) == Terminate(inputs, LastOp(p, c), s.env)
    ensures Terminate(inputs, LastOp(p, c), s.env).Goto? ==> Terminate(inputs, LastOp(p, c), s.env).b in p.cfg.succs[c]
  {
    hide ForwardedIn, WellFormed, Agree, Terminate, ReplacementsReady, ReplacesLoads, DropsLocals, UsesDefined,
         LocalsAreScalars, NoPhis, ScanAll, OpOf, Usable, TermOk;
    var sub, drop := fin.forward, fin.forward.Keys + fin.deleted;
    var list := p.instrs[c];
    var k := |list| - 1;
    ForwardedParts(p, q, b, fin);
    ForwardedTrimmed(p, q, b, fin);
    TerminatedOf(p, c);
    LastOpTrimmed(p, q, sub, drop, c);
    UsedAreUsable(p, c, k, list[k]);
    forall v | v in LastOp(p, c).args
      ensures Usable(p, v, c, |list|)
    {
      assert Usable(p, v, c, k);
      UsableLater(p, v, c, k, |list|);
    }
    TerminateAgree(p, sub, inputs, s.env, s'.env, c, LastOp(p, c), p.cfg.succs[c], |list|);
  }

  lemma EdgeAgrees(p: Code, q: Code, b: Block, fin: Scan, inputs: Inputs, c: Block, d: Block, s: State, s': State)
    requires ForwardedIn(p, q, b, fin) && c in p.instrs && c in p.cfg.succs && d in p.cfg.succs[c]
    requires OutsideBlock(p, c, fin, inputs, |p.instrs[c]|, s, s')
    ensures OutsideBlock(p, d, fin, inputs, 0, s, s')
  {
    ForwardedParts(p, q, b, fin);
    hide ForwardedIn, WellFormed, Agree;
    AgreeEdge(p, fin.forward, inputs, s.env, s'.env, c, d, s.env, s'.env);
  }

  lemma StartTogether(p: Code, q: Code, b: Block, fin: Scan, inputs: Inputs)
    requires ForwardedIn(p, q, b, fin)
    ensures Together(p, fin, inputs, Run(p, inputs, 0), Run(q, inputs, 0))
  {
    hide ForwardedIn, WellFormed, OpOf, Available, ReplacementsReady, DropsLocals, UsesDefined, LocalsAreScalars,
         NoPhis, ScanAll;
    ForwardedParts(p, q, b, fin);
    CfgOf(p, p.cfg.entry);
    forall x | x in fin.forward
      ensures !Available(p, x, p.cfg.entry, 0)
    {
      NothingAvailableAtEntry(p, x);
    }
  }

  lemma {:induction false} RunsTogether(p: Code, q: Code, b: Block, fin: Scan, inputs: Inputs, n: nat)
    requires ForwardedIn(p, q, b, fin)
    ensures Together(p, fin, inputs, Run(p, inputs, n), Run(q, inputs, n))
    decreases n
  {
    hide Together, ForwardedIn, StepConfig;
    if n == 0 {
      StartTogether(p, q, b, fin, inputs);
    } else {
      RunsTogether(p, q, b, fin, inputs, n - 1);
      StepTogether(p, q, b, fin, inputs, Run(p, inputs, n - 1), Run(q, inputs, n - 1));
    }
  }

  /** Forwarding inside a block preserves behaviour. */
  lemma ForwardingSameBehaviour(p: Code, q: Code, b: Block, fin: Scan)
    requires ForwardedIn(p, q, b, fin)
    ensures SameBehaviour(p, q)
  {
    hide ForwardedIn, Run;
    forall inputs: Inputs, n: nat
      ensures Observe(Run(p, inputs, n)) == Observe(Run(q, inputs, n))
    {
      RunsTogether(p, q, b, fin, inputs, n);
    }
  }
}
