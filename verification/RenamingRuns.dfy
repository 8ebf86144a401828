/** Renaming does not change what a function does. */
module RenamingRuns {
  import opened FlowGraphs
  import opened DominatorTheory
  import opened Ir
  import opened Semantics
  import opened Substitutions
  import opened Keeping
  import opened Trimming
  import opened PhiInsertion
  import opened PhiPlacement
  import opened ReachingDefinitions
  import opened Renaming

  // ----- phi operands -----

  /** The values a phi has for predecessor `q`, one for each pair. */
  function PairsFor(pairs: seq<Value>, q: Block): seq<Value> {
    if |pairs| < 2 then [] else (if pairs[1] == Label(q) then [pairs[0]] else []) + PairsFor(pairs[2..], q)
  }

  lemma {:induction false} IncomingIsFirst(pairs: seq<Value>, q: Block)
    ensures Incoming(pairs, q) == if PairsFor(pairs, q) == [] then None else Some(PairsFor(pairs, q)[0])
    decreases |pairs|
  {
    if |pairs| >= 2 && pairs[1] != Label(q) {
      IncomingIsFirst(pairs[2..], q);
    }
  }

  /** `n` copies of a value. */
  function Copies(v: Option<Value>, n: nat): seq<Value> {
    if v.None? then [] else seq(n, _ => v.value)
  }

  /** A phi for `v` in `d` has one pair for each edge in `sent` that carries a value of `v`. */
  ghost predicate PhiPairsAt(code: Code, n: Names, sent: map<Block, seq<Block>>, d: Block, v: Inst, pairs: seq<Value>) {
    PairForm(pairs) && forall q :: PairsSent(code, n, sent, d, v, pairs, q)
  }

  /** Values and blocks take turns. */
  predicate PairForm(pairs: seq<Value>) {
    |pairs| % 2 == 0 && forall j :: 0 <= j < |pairs| && j % 2 == 1 ==> pairs[j].Label?
  }

  lemma PairFormAdded(pairs: seq<Value>, w: Value, b: Block)
    requires PairForm(pairs)
    ensures PairForm(pairs + [w, Label(b)])
  {
  }

  ghost predicate PairsSent(code: Code, n: Names, sent: map<Block, seq<Block>>, d: Block, v: Inst, pairs: seq<Value>,
                            q: Block)
  {
    PairsFor(pairs, q) == if q in sent then Copies(ValueIn(Out(code, n, q), v), multiset(sent[q])[d]) else []
  }

  ghost predicate PhiPairs(code: Code, n: Names, sent: map<Block, seq<Block>>, operands: map<Inst, seq<Value>>) {
    forall d, k, i :: IsAt(code, d, k, i) && OpOf(code, i).PhiOp? ==>
      i in operands && PhiPairsAt(code, n, sent, d, OpOf(code, i).v, operands[i])
  }

  /** `q` is `p` renamed: loads replaced, loads and stores of locals deleted, and
      every phi given one pair for each edge that carries a value. */
  ghost predicate RenamedCode(p: Code, q: Code, t: Tree, n: Names) {
    && PhiReady(p) && Exact(p.cfg, t) && AllNamed(p, t, n)
    && ReplacesLoads(p, n.rho) && PushedAreStores(p, n.pushed)
    && Trimmed(p, q, n.rho, n.rho.Keys + n.pushed.Keys)
    && PhiPairs(p, n, p.cfg.succs, q.operands)
  }

  ghost predicate PushedAreStores(code: Code, pushed: map<Inst, Value>) {
    forall i :: i in pushed ==> OpOf(code, i).WriteVar?
  }

  lemma RenamedParts(p: Code, q: Code, t: Tree, n: Names)
    requires RenamedCode(p, q, t, n)
    ensures WellFormed(p) && PhisUnused(p) && PhisComplete(p) && PhisInOrder(p) && UsesDefined(p) && LocalsAreScalars(p)
            && PlacedOnce(p.instrs)
    ensures p.cfg.succs.Keys == p.instrs.Keys
    ensures Exact(p.cfg, t) && t.Valid() && AllNamed(p, t, n)
    ensures ReplacesLoads(p, n.rho) && ReplacementsReady(p, n.rho) && PushedAreStores(p, n.pushed)
    ensures DropsLocals(p, n.rho, n.rho.Keys + n.pushed.Keys)
    ensures Trimmed(p, q, n.rho, n.rho.Keys + n.pushed.Keys)
  {
    RenamingReady(p, t, n);
  }

  // ----- the two runs inside a block -----

  function ValueOf(inputs: Inputs, env: map<Inst, Word>, cur: map<Inst, Value>, v: Inst): Word {
    EvalOption(inputs, env, ValueIn(cur, v))
  }

  /** Every loaded local holds the value of its name. */
  ghost predicate MemoryNamed(code: Code, inputs: Inputs, mem: map<Inst, Word>, env: map<Inst, Word>,
                              cur: map<Inst, Value>)
  {
    forall v :: Loaded(code, v) ==> Get(mem, v) == ValueOf(inputs, env, cur, v)
  }

  ghost predicate Matched(p: Code, n: Names, inputs: Inputs, b: Block, k: nat, s: State, s': State)
    requires k <= |ListOf(p, b)|
  {
    && s.trace == s'.trace
    && Agree(p, n.rho, inputs, s.env, s'.env, b, k)
    && MemoryNamed(p, inputs, s.mem, s'.env, Cur(p, n, b, k))
  }

  lemma UsedUsable(p: Code, b: Block, k: int, i: Inst)
    requires UsesDefined(p) && PhisUnused(p) && IsAt(p, b, k, i)
    ensures forall v :: v in Used(OpOf(p, i)) ==> Usable(p, v, b, k)
  {
    hide Available, OpOf, HasResult;
  }

  lemma NamesSurvive(p: Code, n: Names, inputs: Inputs, mem: map<Inst, Word>, env: map<Inst, Word>, b: Block, k: nat,
                     i: Inst, w: Word)
    requires PlacedOnce(p.instrs) && IsAt(p, b, k, i) && !OpOf(p, i).PhiOp? && CurReady(p, n, b, k)
    requires MemoryNamed(p, inputs, mem, env, Cur(p, n, b, k))
    ensures MemoryNamed(p, inputs, mem, env[i := w], Cur(p, n, b, k))
  {
    hide ReadyAt, PlacedOnce, Loaded, Cur, OpOf;
    forall v | Loaded(p, v)
      ensures Get(mem, v) == ValueOf(inputs, env[i := w], Cur(p, n, b, k), v)
    {
      if v in Cur(p, n, b, k) {
        EvalUnchanged(p, n.rho, inputs, env, b, k, i, w, Cur(p, n, b, k)[v]);
      }
    }
  }

  lemma CurSame(p: Code, n: Names, b: Block, k: nat)
    requires k < |ListOf(p, b)| && !OpOf(p, ListOf(p, b)[k]).WriteVar?
    ensures Cur(p, n, b, k + 1) == Cur(p, n, b, k)
  {
    CurNext(p, n, b, k);
  }

  lemma MatchedAct(p: Code, q: Code, t: Tree, n: Names, inputs: Inputs, b: Block, k: nat, s: State, s': State, i: Inst)
    requires RenamedCode(p, q, t, n) && IsAt(p, b, k, i) && OpOf(p, i).Act? && Matched(p, n, inputs, b, k, s, s')
    requires CurReady(p, n, b, k)
    ensures Matched(p, n, inputs, b, k + 1, Step(inputs, i, OpOf(p, i), s),
                    Step(inputs, i, SubstOp(n.rho, OpOf(p, i)), s'))
  {
    hide RenamedCode, WellFormed, UsesDefined, ReplacementsReady, Agree, LocalsAreScalars, OpOf, Usable, Exact,
         AllNamed, CurReady, Cur, MemoryNamed, Trimmed, PhisUnused, PhisComplete, PhisInOrder, DropsLocals;
    var kind, args := OpOf(p, i).kind, OpOf(p, i).args;
    RenamedParts(p, q, t, n);
    UsedUsable(p, b, k, i);
    EvalAllAgree(p, n.rho, inputs, s.env, s'.env, b, k, args);
    var w := inputs.oracle(s.trace + [Event(kind, EvalAll(inputs, s.env, args))]);
    AgreeAct(p, n.rho, inputs, s.env, s'.env, b, k, i, w);
    NamesSurvive(p, n, inputs, s.mem, s'.env, b, k, i, w);
    CurSame(p, n, b, k);
  }

  lemma NamedLoad(p: Code, t: Tree, n: Names, b: Block, k: nat, i: Inst)
    requires t.Valid() && AllNamed(p, t, n) && IsAt(p, b, k, i) && OpOf(p, i).ReadVar?
    ensures i in n.rho && ValueIn(Cur(p, n, b, k), OpOf(p, i).v) == Some(n.rho[i]) && Loaded(p, OpOf(p, i).v)
  {
    hide OpOf;
    NamedOne(p, t, n, b);
    NamedHere(p, t, n, b, k);
    assert Loads(p, b, OpOf(p, i).v);
  }

  lemma MatchedLoad(p: Code, q: Code, t: Tree, n: Names, inputs: Inputs, b: Block, k: nat, s: State, s': State, i: Inst)
    requires RenamedCode(p, q, t, n) && IsAt(p, b, k, i) && OpOf(p, i).ReadVar? && Matched(p, n, inputs, b, k, s, s')
    ensures i in n.rho && Matched(p, n, inputs, b, k + 1, Step(inputs, i, OpOf(p, i), s), s')
  {
    hide RenamedCode, WellFormed, UsesDefined, ReplacementsReady, Agree, LocalsAreScalars, OpOf, Exact, AllNamed, Cur,
         Trimmed, PhisUnused, PhisComplete, PhisInOrder, DropsLocals, Loaded;
    RenamedParts(p, q, t, n);
    NamedLoad(p, t, n, b, k, i);
    AgreeLoad(p, n.rho, inputs, s.env, s'.env, b, k, i, Get(s.mem, OpOf(p, i).v));
    CurSame(p, n, b, k);
  }

  lemma StoreNamed(p: Code, n: Names, inputs: Inputs, mem: map<Inst, Word>, env: map<Inst, Word>, b: Block, k: nat,
                   i: Inst, v: Inst, w: Word)
    requires k < |ListOf(p, b)| && ListOf(p, b)[k] == i && OpOf(p, i).WriteVar? && OpOf(p, i).v == v && i in n.pushed
    requires w == Eval(inputs, env, n.pushed[i]) && MemoryNamed(p, inputs, mem, env, Cur(p, n, b, k))
    ensures MemoryNamed(p, inputs, mem[v := w], env, Cur(p, n, b, k + 1))
  {
    hide Loaded, Cur, OpOf;
    CurNext(p, n, b, k);
  }

  lemma MatchedStore(p: Code, q: Code, t: Tree, n: Names, inputs: Inputs, b: Block, k: nat, s: State, s': State,
                     i: Inst)
    requires RenamedCode(p, q, t, n) && IsAt(p, b, k, i) && OpOf(p, i).WriteVar? && Matched(p, n, inputs, b, k, s, s')
    ensures i in n.pushed && Matched(p, n, inputs, b, k + 1, Step(inputs, i, OpOf(p, i), s), s')
  {
    hide RenamedCode, WellFormed, UsesDefined, ReplacementsReady, Agree, LocalsAreScalars, OpOf, Exact, AllNamed, Cur,
         Trimmed, PhisUnused, PhisComplete, PhisInOrder, DropsLocals, Loaded, MemoryNamed, Usable;
    RenamedParts(p, q, t, n);
    NamedOne(p, t, n, b);
    NamedStore(p, t, n, b, k);
    var v, rval := OpOf(p, i).v, OpOf(p, i).rval;
    UsedUsable(p, b, k, i);
    EvalAgree(p, n.rho, inputs, s.env, s'.env, b, k, rval);
    AgreeSkip(p, n.rho, inputs, s.env, s'.env, b, k, i);
    StoreNamed(p, n, inputs, s.mem, s'.env, b, k, i, v, Eval(inputs, s.env, rval));
  }

  lemma MatchedOther(p: Code, q: Code, t: Tree, n: Names, inputs: Inputs, b: Block, k: nat, s: State, s': State,
                     i: Inst)
    requires RenamedCode(p, q, t, n) && IsAt(p, b, k, i)
             && (OpOf(p, i).Silent? || OpOf(p, i).Term? || OpOf(p, i).PhiOp?)
    requires Matched(p, n, inputs, b, k, s, s')
    ensures i !in n.rho && i !in n.pushed && Matched(p, n, inputs, b, k + 1, s, s')
  {
    hide RenamedCode, Agree, OpOf, Cur, WellFormed, Exact, AllNamed, Trimmed, PhisUnused, PhisComplete, PhisInOrder,
         UsesDefined, MemoryNamed;
    RenamedParts(p, q, t, n);
    AgreeSkip(p, n.rho, inputs, s.env, s'.env, b, k, i);
    CurSame(p, n, b, k);
  }

  lemma MatchedStep(p: Code, q: Code, t: Tree, n: Names, inputs: Inputs, b: Block, k: nat, s: State, s': State, i: Inst)
    requires RenamedCode(p, q, t, n) && IsAt(p, b, k, i) && Matched(p, n, inputs, b, k, s, s')
    ensures Matched(p, n, inputs, b, k + 1, Step(inputs, i, OpOf(p, i), s),
              StepTrimmed(inputs, n.rho, n.rho.Keys + n.pushed.Keys, i, OpOf(p, i), s'))
  {
    hide RenamedCode, Matched, OpOf, CurReady, WellFormed, Exact, AllNamed, Trimmed, PhisUnused, PhisComplete,
         PhisInOrder, UsesDefined, ReplacementsReady, LocalsAreScalars;
    RenamedParts(p, q, t, n);
    match OpOf(p, i)
    case Act(_, _) =>
      TreeCovers(p, t, b);
      CurIsReady(p, t, n, b, k);
      MatchedAct(p, q, t, n, inputs, b, k, s, s', i);
    case ReadVar(_) => MatchedLoad(p, q, t, n, inputs, b, k, s, s', i);
    case WriteVar(_, _) => MatchedStore(p, q, t, n, inputs, b, k, s, s', i);
    case _ => MatchedOther(p, q, t, n, inputs, b, k, s, s', i);
  }

  lemma KeptStepSame(p: Code, q: Code, t: Tree, n: Names, inputs: Inputs, b: Block, k: nat, s: State)
    requires RenamedCode(p, q, t, n) && b in p.instrs && k < |p.instrs[b]|
    ensures p.instrs[b][k] !in n.rho.Keys + n.pushed.Keys ==>
      Step(inputs, p.instrs[b][k], OpOf(q, p.instrs[b][k]), s)
      == Step(inputs, p.instrs[b][k], SubstOp(n.rho, OpOf(p, p.instrs[b][k])), s)
  {
    hide RenamedCode, OpOf, WellFormed, Exact, AllNamed, PhisUnused, PhisComplete, PhisInOrder, UsesDefined,
         ReplacementsReady, LocalsAreScalars, Trimmed, DropsLocals, ReplacesLoads, PushedAreStores;
    RenamedParts(p, q, t, n);
    var i := p.instrs[b][k];
    assert IsAt(p, b, k, i);
    if i !in n.rho.Keys + n.pushed.Keys {
      OpOfTrimmed(p, q, n.rho, n.rho.Keys + n.pushed.Keys, b, k, i);
    }
  }

  lemma {:induction false} MatchedExec(p: Code, q: Code, t: Tree, n: Names, inputs: Inputs, b: Block, k: nat, s: State,
                                       s': State)
    requires RenamedCode(p, q, t, n) && b in p.instrs && k <= |p.instrs[b]| && Matched(p, n, inputs, b, k, s, s')
    ensures Matched(p, n, inputs, b, |p.instrs[b]|, Exec(p, inputs, p.instrs[b][k..], s),
              Exec(q, inputs, Keep(p.instrs[b][k..], n.rho.Keys + n.pushed.Keys), s'))
    decreases |p.instrs[b]| - k
  {
    hide RenamedCode, Matched, OpOf, Exec, Keep, StepTrimmed, Step, SubstOp;
    var list, drop := p.instrs[b], n.rho.Keys + n.pushed.Keys;
    if k < |list| {
      var i := list[k];
      MatchedStep(p, q, t, n, inputs, b, k, s, s', i);
      KeptStepSame(p, q, t, n, inputs, b, k, s');
      ExecStep(p, inputs, list, k, s);
      ExecTrimmedStep(p, q, n.rho, drop, inputs, list, k, s');
      MatchedExec(p, q, t, n, inputs, b, k + 1, Step(inputs, i, OpOf(p, i), s),
                  StepTrimmed(inputs, n.rho, drop, i, OpOf(p, i), s'));
    } else {
      ExecNothing(p, q, inputs, list, drop, s, s');
    }
  }

  // ----- along an edge -----

  /** The states in which the block at the end of an edge starts. */
  ghost predicate Entered(p: Code, q: Code, n: Names, inputs: Inputs, d: Block, prev: Option<Block>, s: State,
                          s': State)
  {
    Matched(p, n, inputs, d, 0, Enter(p, inputs, ListOf(p, d), prev, s), Enter(q, inputs, ListOf(q, d), prev, s'))
  }

  /** Entering a block changes the environment at its phis only. */
  lemma EnterChanges(code: Code, inputs: Inputs, list: seq<Inst>, prev: Option<Block>, s: State)
    ensures forall x :: Get(Enter(code, inputs, list, prev, s).env, x) ==
              if x in list && OpOf(code, x).PhiOp? then PhiWord(inputs, s.env, OpOf(code, x), prev) else Get(s.env, x)
  {
    hide OpOf, PhiWord;
  }

  /** The same phis stand in a block before and after. */
  lemma PhisKept(p: Code, q: Code, t: Tree, n: Names, d: Block)
    requires RenamedCode(p, q, t, n) && d in p.instrs
    ensures forall i :: i in ListOf(p, d) && OpOf(p, i).PhiOp? <==> i in ListOf(q, d) && OpOf(q, i).PhiOp?
  {
    hide OpOf, WellFormed, Exact, AllNamed, PhisUnused, PhisComplete, PhisInOrder, UsesDefined, ReplacementsReady,
         LocalsAreScalars;
    RenamedParts(p, q, t, n);
    var drop := n.rho.Keys + n.pushed.Keys;
    KeepContents(p.instrs[d], drop);
    forall i | i in p.instrs[d]
      ensures i in drop ==> !OpOf(p, i).PhiOp?
      ensures i !in drop ==> (OpOf(q, i).PhiOp? <==> OpOf(p, i).PhiOp?)
    {
      var k :| 0 <= k < |p.instrs[d]| && p.instrs[d][k] == i;
      if i !in drop {
        OpOfTrimmed(p, q, n.rho, drop, d, k, i);
      }
    }
  }

  lemma EnterOnlyPhis(p: Code, q: Code, t: Tree, n: Names, inputs: Inputs, d: Block, prev: Option<Block>, s: State,
                      s': State)
    requires RenamedCode(p, q, t, n) && d in p.instrs
    ensures OnlyPhisOf(p, d, s.env, Enter(p, inputs, ListOf(p, d), prev, s).env)
    ensures OnlyPhisOf(p, d, s'.env, Enter(q, inputs, ListOf(q, d), prev, s').env)
    ensures forall i :: i in ListOf(p, d) && OpOf(p, i).PhiOp? ==>
      OpOf(q, i).PhiOp?
      && Get(Enter(q, inputs, ListOf(q, d), prev, s').env, i) == PhiWord(inputs, s'.env, OpOf(q, i), prev)
  {
    hide RenamedCode, OpOf, PhiWord, Enter, ListOf;
    PhisKept(p, q, t, n, d);
    EnterChanges(p, inputs, ListOf(p, d), prev, s);
    EnterChanges(q, inputs, ListOf(q, d), prev, s');
  }

  /** A phi gets the value its local has at the end of the edge. */
  lemma PhiGetsOut(p: Code, q: Code, t: Tree, n: Names, inputs: Inputs, b: Block, d: Block, k: int, i: Inst,
                   env: map<Inst, Word>)
    requires RenamedCode(p, q, t, n) && b in p.cfg.succs && d in p.cfg.succs[b] && IsAt(p, d, k, i) && OpOf(p, i).PhiOp?
    requires OpOf(q, i).PhiOp?
    ensures PhiWord(inputs, env, OpOf(q, i), Some(b)) == ValueOf(inputs, env, Out(p, n, b), OpOf(p, i).v)
  {
    hide Out, Exact, AllNamed, PhiReady, Trimmed, PhiPairsAt, Incoming, PairsFor;
    var v := OpOf(p, i).v;
    assert PhiPairsAt(p, n, p.cfg.succs, d, v, q.operands[i]);
    assert OpOf(q, i).pairs == q.operands[i];
    PairsOfEdge(p, n, b, d, v, q.operands[i]);
    IncomingIsFirst(q.operands[i], b);
  }

  lemma PairsOfEdge(p: Code, n: Names, b: Block, d: Block, v: Inst, pairs: seq<Value>)
    requires PhiPairsAt(p, n, p.cfg.succs, d, v, pairs) && b in p.cfg.succs && d in p.cfg.succs[b]
    ensures if ValueIn(Out(p, n, b), v).None? then PairsFor(pairs, b) == []
            else PairsFor(pairs, b) != [] && PairsFor(pairs, b)[0] == ValueIn(Out(p, n, b), v).value
  {
    hide Out, PairsFor;
    assert PairsSent(p, n, p.cfg.succs, d, v, pairs, b);
    assert multiset(p.cfg.succs[b])[d] > 0;
  }

  lemma PhiOnTop(p: Code, q: Code, t: Tree, n: Names, d: Block, k: int, i: Inst)
    requires RenamedCode(p, q, t, n) && IsAt(p, d, k, i) && OpOf(p, i).PhiOp?
    ensures ValueIn(TopsAt(n, d), OpOf(p, i).v) == Some(Res(i))
  {
    hide RenamedCode, OpOf, NamedUpTo, WellFormed, Exact, PhisUnused, PhisComplete, PhisInOrder, UsesDefined, AllNamed,
         Inherits, ReplacementsReady, LocalsAreScalars, Trimmed;
    RenamedParts(p, q, t, n);
    NamedOne(p, t, n, d);
  }

  lemma MemoryAcrossPhi(p: Code, q: Code, t: Tree, n: Names, inputs: Inputs, b: Block, d: Block, s: State, s': State,
                        v: Inst)
    requires RenamedCode(p, q, t, n) && b in p.cfg.succs && d in p.cfg.succs[b] && d in p.instrs && HasPhi(p, d, v)
    requires Get(s.mem, v) == ValueOf(inputs, s'.env, Out(p, n, b), v)
    ensures Get(s.mem, v) == ValueOf(inputs, Enter(q, inputs, ListOf(q, d), Some(b), s').env, TopsAt(n, d), v)
  {
    hide Out, OpOf, RenamedCode, Enter, PhiWord, TopsAt, OnlyPhisOf;
    var k :| 0 <= k < |ListOf(p, d)| && IsPhiFor(OpOf(p, ListOf(p, d)[k]), v);
    var i := ListOf(p, d)[k];
    assert IsAt(p, d, k, i);
    EnterOnlyPhis(p, q, t, n, inputs, d, Some(b), s, s');
    PhiGetsOut(p, q, t, n, inputs, b, d, k, i, s'.env);
    PhiOnTop(p, q, t, n, d, k, i);
  }

  lemma MemoryAcrossOther(p: Code, q: Code, t: Tree, n: Names, inputs: Inputs, b: Block, d: Block, s: State, s': State,
                          v: Inst)
    requires RenamedCode(p, q, t, n) && b in p.cfg.succs && d in p.cfg.succs[b] && d in p.instrs && d in p.cfg.preds
             && b in p.cfg.preds[d]
    requires !HasPhi(p, d, v) && Loaded(p, v)
    requires Get(s.mem, v) == ValueOf(inputs, s'.env, Out(p, n, b), v)
    ensures Get(s.mem, v) == ValueOf(inputs, Enter(q, inputs, ListOf(q, d), Some(b), s').env, TopsAt(n, d), v)
  {
    hide Out, Exact, PhiReady, Trimmed, PhiPairs, OpOf, RenamedCode, Enter, PhiWord, WellFormed, PhisUnused,
         PhisComplete, PhisInOrder, UsesDefined, ReplacementsReady, LocalsAreScalars, HasPhi, Loaded, AllNamed;
    RenamedParts(p, q, t, n);
    EdgeKeepsValue(p, t, n, b, d, v);
    EnterOnlyPhis(p, q, t, n, inputs, d, Some(b), s, s');
    if v in TopsAt(n, d) {
      InheritedNotOwnPhi(p, t, n, d, v);
    }
  }

  lemma MatchedEdge(p: Code, q: Code, t: Tree, n: Names, inputs: Inputs, b: Block, d: Block, s: State, s': State)
    requires RenamedCode(p, q, t, n) && b in p.cfg.succs && d in p.cfg.succs[b]
             && Matched(p, n, inputs, b, |ListOf(p, b)|, s, s')
    ensures d in p.instrs && Entered(p, q, n, inputs, d, Some(b), s, s')
  {
    hide Out, Exact, PhiReady, Trimmed, PhiPairs, OpOf, RenamedCode, PhiWord, WellFormed, PhisUnused, PhisComplete,
         PhisInOrder, UsesDefined, ReplacementsReady, LocalsAreScalars, HasPhi, Loaded, AllNamed, Agree;
    RenamedParts(p, q, t, n);
    SuccIsBlock(p, b, d);
    EnterOnlyPhis(p, q, t, n, inputs, d, Some(b), s, s');
    var e, e' := Enter(p, inputs, ListOf(p, d), Some(b), s), Enter(q, inputs, ListOf(q, d), Some(b), s');
    AgreeEdge(p, n.rho, inputs, s.env, s'.env, b, d, e.env, e'.env);
    OutIsLast(p, n, b);
    CurStart(p, n, d);
    hide Cur;
    forall v | Loaded(p, v)
      ensures Get(s.mem, v) == ValueOf(inputs, e'.env, TopsAt(n, d), v)
    {
      if HasPhi(p, d, v) {
        MemoryAcrossPhi(p, q, t, n, inputs, b, d, s, s', v);
      } else {
        MemoryAcrossOther(p, q, t, n, inputs, b, d, s, s', v);
      }
    }
  }

  lemma OutIsLast(p: Code, n: Names, b: Block)
    ensures Cur(p, n, b, |ListOf(p, b)|) == Out(p, n, b)
  {
  }

  // ----- the whole run -----

  ghost predicate MatchedRuns(p: Code, q: Code, n: Names, inputs: Inputs, x: Config, y: Config) {
    if x.At? then y.At? && x.b == y.b && x.prev == y.prev && x.b in p.instrs
      && Entered(p, q, n, inputs, x.b, x.prev, x.s, y.s)
    else x == y
  }

  lemma MatchedBlock(p: Code, q: Code, t: Tree, n: Names, inputs: Inputs, b: Block, prev: Option<Block>, s: State,
                     s': State)
    requires RenamedCode(p, q, t, n) && b in p.instrs && Entered(p, q, n, inputs, b, prev, s, s')
    ensures Matched(p, n, inputs, b, |ListOf(p, b)|, RunBlock(p, inputs, b, prev, s), RunBlock(q, inputs, b, prev, s'))
  {
    hide RenamedCode, Matched, Exec, Enter, Keep, WellFormed, Exact, PhisUnused, PhisComplete, PhisInOrder, UsesDefined,
         AllNamed, ReplacementsReady, LocalsAreScalars;
    RenamedParts(p, q, t, n);
    var list := p.instrs[b];
    assert list[0..] == list;
    MatchedExec(p, q, t, n, inputs, b, 0, Enter(p, inputs, ListOf(p, b), prev, s),
                Enter(q, inputs, ListOf(q, b), prev, s'));
  }

  lemma TerminatorMatches(p: Code, q: Code, t: Tree, n: Names, inputs: Inputs, b: Block, s: State, s': State)
    requires RenamedCode(p, q, t, n) && b in p.instrs && b in p.cfg.succs
             && Matched(p, n, inputs, b, |ListOf(p, b)|, s, s')
    ensures s.trace == s'.trace
    ensures Terminate(inputs, LastOp(q, b), s'.env) == Terminate(inputs, LastOp(p, b), s.env)
    ensures Terminate(inputs, LastOp(p, b), s.env).Goto? ==> Terminate(inputs, LastOp(p, b), s.env).b in p.cfg.succs[b]
  {
    hide RenamedCode, WellFormed, Agree, Terminate, UsesDefined, LocalsAreScalars, OpOf, Usable, TermOk, Exact,
         AllNamed, PhisUnused, PhisComplete, PhisInOrder, ReplacementsReady, Trimmed, MemoryNamed, Cur, DropsLocals,
         ReplacesLoads;
    var list := p.instrs[b];
    var k := |list| - 1;
    RenamedParts(p, q, t, n);
    TerminatedOf(p, b);
    LastOpTrimmed(p, q, n.rho, n.rho.Keys + n.pushed.Keys, b);
    assert IsAt(p, b, k, list[k]);
    UsedUsable(p, b, k, list[k]);
    forall v | v in LastOp(p, b).args
      ensures Usable(p, v, b, |list|)
    {
      assert v in Used(OpOf(p, list[k]));
      UsableLater(p, v, b, k, |list|);
    }
    TerminateAgree(p, n.rho, inputs, s.env, s'.env, b, LastOp(p, b), p.cfg.succs[b], |list|);
  }

  lemma StepMatched(p: Code, q: Code, t: Tree, n: Names, inputs: Inputs, x: Config, y: Config)
    requires RenamedCode(p, q, t, n) && MatchedRuns(p, q, n, inputs, x, y)
    ensures MatchedRuns(p, q, n, inputs, StepConfig(p, inputs, x), StepConfig(q, inputs, y))
  {
    hide RenamedCode, Matched, RunBlock, Terminate, LastOp, WellFormed, Exact, PhisUnused, PhisComplete, PhisInOrder,
         UsesDefined, AllNamed, ReplacementsReady, LocalsAreScalars, Entered, Trimmed, DropsLocals, ReplacesLoads;
    if x.At? {
      var b := x.b;
      var s, s' := RunBlock(p, inputs, b, x.prev, x.s), RunBlock(q, inputs, b, y.prev, y.s);
      RenamedParts(p, q, t, n);
      MatchedBlock(p, q, t, n, inputs, b, x.prev, x.s, y.s);
      TerminatorMatches(p, q, t, n, inputs, b, s, s');
      var next := Terminate(inputs, LastOp(p, b), s.env);
      if next.Goto? {
        MatchedEdge(p, q, t, n, inputs, b, next.b, s, s');
      }
    }
  }

  lemma EntryIsBlock(p: Code)
    requires WellFormed(p)
    ensures p.cfg.entry in p.instrs
  {
  }

  /** Nothing has been loaded or stored yet, and the entry has no phis. */
  lemma StartMatched(p: Code, q: Code, t: Tree, n: Names, inputs: Inputs)
    requires RenamedCode(p, q, t, n)
    ensures MatchedRuns(p, q, n, inputs, Run(p, inputs, 0), Run(q, inputs, 0))
  {
    hide RenamedCode, WellFormed, OpOf, Available, ReplacementsReady, DropsLocals, UsesDefined, LocalsAreScalars, Exact,
         AllNamed, PhisUnused, PhisComplete, PhisInOrder, Trimmed, Loaded;
    RenamedParts(p, q, t, n);
    EntryIsBlock(p);
    ExactIsValid(p.cfg, t);
    NamedOne(p, t, n, p.cfg.entry);
    var e := p.cfg.entry;
    var s := State(map[], map[], []);
    EnterOnlyPhis(p, q, t, n, inputs, e, None, s, s);
    EntryEnvironments(p, q, t, n, inputs, e, s);
    forall x | x in n.rho
      ensures !Available(p, x, e, 0)
    {
      NothingAvailableAtEntry(p, x);
    }
  }

  lemma EntryEnvironments(p: Code, q: Code, t: Tree, n: Names, inputs: Inputs, e: Block, s: State)
    requires RenamedCode(p, q, t, n) && e == p.cfg.entry && e in p.instrs && s == State(map[], map[], [])
    ensures forall x :: !OpOf(p, x).PhiOp? ==>
      Get(Enter(p, inputs, ListOf(p, e), None, s).env, x) == Get(Enter(q, inputs, ListOf(q, e), None, s).env, x)
  {
    hide RenamedCode, OpOf, Enter, PhiWord;
    EnterOnlyPhis(p, q, t, n, inputs, e, None, s, s);
  }

  lemma {:induction false} RunsMatched(p: Code, q: Code, t: Tree, n: Names, inputs: Inputs, m: nat)
    requires RenamedCode(p, q, t, n)
    ensures MatchedRuns(p, q, n, inputs, Run(p, inputs, m), Run(q, inputs, m))
    decreases m
  {
    hide MatchedRuns, RenamedCode, StepConfig;
    if m == 0 {
      StartMatched(p, q, t, n, inputs);
    } else {
      RunsMatched(p, q, t, n, inputs, m - 1);
      StepMatched(p, q, t, n, inputs, Run(p, inputs, m - 1), Run(q, inputs, m - 1));
    }
  }

  /** Renaming preserves behaviour: the same blocks, the same effects with the same
      arguments, the same result. */
  lemma RenamingSameBehaviour(p: Code, q: Code, t: Tree, n: Names)
    requires RenamedCode(p, q, t, n)
    ensures SameBehaviour(p, q)
  {
    hide RenamedCode, Run;
    forall inputs: Inputs, m: nat
      ensures Observe(Run(p, inputs, m)) == Observe(Run(q, inputs, m))
    {
      RunsMatched(p, q, t, n, inputs, m);
    }
  }
}
