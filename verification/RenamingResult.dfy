/** What the renaming leaves when the walk from the entry is over. */
module RenamingResult {
  import opened FlowGraphs
  import opened DominatorTheory
  import opened Ir
  import opened Semantics
  import opened Substitutions
  import opened Keeping
  import opened Trimming
  import opened PhiInsertion
  import opened PhiPlacement
  import opened ReachingDefinitions
  import opened Renaming
  import opened RenamingRuns
  import opened Stacks
  import opened ForwardingApply
  import opened RenamingSteps
  import opened RenamingState
  import opened RenamingVisits
  import opened PhiResult

  // ----- the start of the walk -----

  lemma NothingRenamed(p: Code)
    requires LocalsAreScalars(p) && PhisEmpty(p)
    ensures CodeState(p, Names(map[], map[], map[]), {}, SentAll(p, {}), p.instrs, p.operands)
  {
    hide OpOf;
    forall i | Live(p.instrs, i)
      ensures i in p.operands && p.operands[i] == SubstAll(map[], p.operands[i])
    {
      var b, k := LivePlace(p.instrs, p, i);
    }
  }

  lemma WalkStarts(p: Code, t: Tree, stale: set<Value>)
    requires PhiReady(p) && PhisEmpty(p) && Exact(p.cfg, t) && StaleAreDead(p.instrs, stale)
             && StaleAreKnown(p.operands, stale)
    ensures WalkState(p, t, Names(map[], map[], map[]), {}, {}, SentAll(p, {}), p, stale)
    ensures VisitReady(p, t, {}, p.cfg.entry, [p.cfg.entry]) && p.cfg.entry in p.instrs
  {
    hide OpOf, LocalsAreScalars, PhisEmpty, CodeState, StaleAreKnown, Exact, UsesDefined, BlocksTerminated, PhisUnused,
         PhisInOrder, PhisComplete, StoreBeforeLoad, FlowGraph.Dominates, DominatorTheory.Tree.Valid;
    NothingRenamed(p);
    ExactIsValid(p.cfg, t);
    SinglePath(p.cfg, p.cfg.entry);
  }

  lemma NothingArrives(p: Code, n: Names, e: Block)
    ensures Arriving(p, n, [e]) == map[] && StoredArrives(p, [e], map[])
  {
  }

  // ----- the end of the walk -----

  lemma {:induction false} WalkReaches(g: FlowGraph, visited: set<Block>, path: seq<Block>, b: Block)
    requires g.entry in visited && SuccsIn(g, {}, visited) && g.PathFromTo(path, g.entry, b)
    ensures b in visited
    decreases |path|
  {
    if |path| > 1 {
      PathPrefix(g, path, |path| - 2);
      assert path[|path| - 1] in g.succs[path[|path| - 2]];
      WalkReaches(g, visited, path[..|path| - 1], path[|path| - 2]);
    }
  }

  /** The walk visits every block. */
  lemma AllVisited(p: Code, visited: set<Block>)
    requires WellFormed(p) && p.cfg.entry in visited && SuccsIn(p.cfg, {}, visited) && visited <= p.instrs.Keys
    ensures visited == p.instrs.Keys
  {
    forall b | b in p.instrs
      ensures b in visited
    {
      CfgOf(p, b);
      var path :| p.cfg.PathFromTo(path, p.cfg.entry, b);
      WalkReaches(p.cfg, visited, path, b);
    }
  }

  lemma DropIsVarOps(p: Code, t: Tree, n: Names, b: Block)
    requires t.Valid() && NamedBlock(p, t, n, b) && ReplacesLoads(p, n.rho) && PushedAreStores(p, n.pushed)
             && b in p.instrs
    ensures forall i :: i in p.instrs[b] ==> (i in VarOps(p, b) <==> i in n.rho.Keys + n.pushed.Keys)
  {
    hide PhisOnTop, Inherits, OpOf;
    forall i | i in p.instrs[b]
      ensures i in VarOps(p, b) <==> i in n.rho.Keys + n.pushed.Keys
    {
      var k :| 0 <= k < |p.instrs[b]| && p.instrs[b][k] == i;
      assert NamedAt(p, n, b, k);
    }
  }

  lemma WalkTrimmed(p: Code, t: Tree, n: Names, q: Code, stale: set<Value>)
    requires WalkState(p, t, n, p.instrs.Keys, p.instrs.Keys, SentAll(p, p.instrs.Keys), q, stale)
    ensures Trimmed(p, q, n.rho, n.rho.Keys + n.pushed.Keys)
  {
    hide OpOf, PhiPairs, PhiOperandsKnown, StaleReplaced, StaleAreKnown, Located, DominatorsIn,
         DominatorTheory.Tree.Valid, NamedBlock, VarOps, Live, AllKnown;
    var drop := n.rho.Keys + n.pushed.Keys;
    forall b | b in p.instrs
      ensures q.instrs[b] == Keep(p.instrs[b], drop)
    {
      DropIsVarOps(p, t, n, b);
      KeepSame(p.instrs[b], VarOps(p, b), drop);
    }
    forall i | Live(p.instrs, i) && i !in drop
      ensures TrimmedOperands(p, q, n.rho, i)
    {
      WalkOperands(p, t, n, q, stale, i);
    }
  }

  lemma WalkOperands(p: Code, t: Tree, n: Names, q: Code, stale: set<Value>, i: Inst)
    requires WalkState(p, t, n, p.instrs.Keys, p.instrs.Keys, SentAll(p, p.instrs.Keys), q, stale)
    requires Live(p.instrs, i) && i !in n.rho.Keys + n.pushed.Keys
    ensures i in q.operands && Live(q.instrs, i)
    ensures OpOf(p, i).PhiOp? ==> i in p.operands
    ensures !OpOf(p, i).PhiOp? ==> i in p.operands && q.operands[i] == SubstAll(n.rho, p.operands[i])
  {
    hide PhiPairs, StaleReplaced, StaleAreKnown, Located, DominatorsIn, DominatorTheory.Tree.Valid, NamedBlock, VarOps,
         AllKnown, SubstAll, Known;
    var b, k := LivePlace(p.instrs, p, i);
    DropIsVarOps(p, t, n, b);
    KeepContents(p.instrs[b], VarOps(p, b));
    assert i in p.instrs[b];
    assert i in q.instrs[b];
  }

  /** The finished walk has made the function a renaming of what it was. */
  lemma WalkIsRenamed(p: Code, t: Tree, n: Names, q: Code, stale: set<Value>)
    requires PhiReady(p) && Exact(p.cfg, t)
    requires WalkState(p, t, n, p.instrs.Keys, p.instrs.Keys, SentAll(p, p.instrs.Keys), q, stale)
    ensures RenamedCode(p, q, t, n)
  {
    hide OpOf, PhiPairs, PhiOperandsKnown, StaleReplaced, StaleAreKnown, Located, DominatorsIn,
         DominatorTheory.Tree.Valid, NamedBlock, VarOps, Live, AllKnown, Exact, WellFormed, PhisUnused, StoreBeforeLoad,
         PhisInOrder, PhisComplete, Trimmed, InstrsRenamed, OperandsRenamed;
    WalkTrimmed(p, t, n, q, stale);
    CodeParts(p);
    assert SentAll(p, p.instrs.Keys) == p.cfg.succs;
  }

  /** The replaced loads, whose use lists are out of date, are gone. */
  lemma WalkStale(p: Code, t: Tree, n: Names, q: Code, stale: set<Value>)
    requires WalkState(p, t, n, p.instrs.Keys, p.instrs.Keys, SentAll(p, p.instrs.Keys), q, stale)
    ensures StaleAreDead(q.instrs, stale)
  {
    hide OpOf, PhiPairs, PhiOperandsKnown, StaleAreKnown, Located, DominatorsIn, DominatorTheory.Tree.Valid, NamedBlock,
         OperandsRenamed, VarOps, AllKnown;
    forall v | v in stale
      ensures v.Res? && !Live(q.instrs, v.i)
    {
      if Live(q.instrs, v.i) {
        LiveBefore(p, p.instrs.Keys, q.instrs, v.i);
        var b :| b in q.instrs && v.i in q.instrs[b];
        DropIsVarOps(p, t, n, b);
        KeepContents(p.instrs[b], VarOps(p, b));
        assert false;
      }
    }
  }

  /** No phi refers to a deleted instruction. */
  ghost predicate PhisLive(code: Code) {
    forall b, k, i, v :: IsAt(code, b, k, i) && OpOf(code, i).PhiOp? && v in OpOf(code, i).pairs && v.Res? ==>
      Live(code.instrs, v.i) && HasResult(OpOf(code, v.i))
  }

  lemma WalkPhisLive(p: Code, t: Tree, n: Names, q: Code, stale: set<Value>)
    requires WalkState(p, t, n, p.instrs.Keys, p.instrs.Keys, SentAll(p, p.instrs.Keys), q, stale)
             && RenamedCode(p, q, t, n)
    ensures PhisLive(q)
  {
    hide RenamedCode, WalkState, OpOf, Live, Known;
    forall b, r, i, v | IsAt(q, b, r, i) && OpOf(q, i).PhiOp? && v in OpOf(q, i).pairs && v.Res?
      ensures Live(q.instrs, v.i) && HasResult(OpOf(q, v.i))
    {
      var k := PhiOfRenamed(p, q, t, n, b, r, i);
      WalkPhiKnown(p, t, n, q, stale, b, k, i, v);
      KnownStays(p, t, n, q, stale, v);
    }
  }

  lemma WalkPhiKnown(p: Code, t: Tree, n: Names, q: Code, stale: set<Value>, b: Block, k: int, i: Inst, v: Value)
    requires WalkState(p, t, n, p.instrs.Keys, p.instrs.Keys, SentAll(p, p.instrs.Keys), q, stale)
    requires IsAt(p, b, k, i) && OpOf(p, i).PhiOp? && i in q.operands && v in q.operands[i]
    ensures Known(p, v)
  {
    hide OpOf, PhiPairs, StaleReplaced, StaleAreKnown, Settled, DominatorsIn, DominatorTheory.Tree.Valid, InstrsRenamed,
         OperandsRenamed, Known;
  }

  lemma KnownStays(p: Code, t: Tree, n: Names, q: Code, stale: set<Value>, v: Value)
    requires WalkState(p, t, n, p.instrs.Keys, p.instrs.Keys, SentAll(p, p.instrs.Keys), q, stale)
             && RenamedCode(p, q, t, n)
    requires Known(p, v) && v.Res?
    ensures Live(q.instrs, v.i) && HasResult(OpOf(q, v.i))
  {
    hide OpOf, RenamedCode, WalkState, WellFormed, PhisUnused, PhisComplete, PhisInOrder, UsesDefined, Exact, AllNamed,
         ReplacementsReady, LocalsAreScalars, Trimmed, DropsLocals;
    RenamedParts(p, q, t, n);
    var b, k := LivePlace(p.instrs, p, v.i);
    WalkOperands(p, t, n, q, stale, v.i);
    OpOfTrimmed(p, q, n.rho, n.rho.Keys + n.pushed.Keys, b, k, v.i);
  }

  // ----- properties of the renamed function -----

  /** No load or store of a local is left. */
  ghost predicate NoVarOps(code: Code) {
    forall b, k, i :: IsAt(code, b, k, i) ==> !IsVarOp(OpOf(code, i))
  }

  lemma RenamedNoVarOps(p: Code, q: Code, t: Tree, n: Names)
    requires RenamedCode(p, q, t, n)
    ensures NoVarOps(q)
  {
    hide OpOf, RenamedCode, WellFormed, PhisUnused, PhisComplete, PhisInOrder, UsesDefined, Exact, AllNamed,
         ReplacementsReady, LocalsAreScalars;
    RenamedParts(p, q, t, n);
    var drop := n.rho.Keys + n.pushed.Keys;
    forall b, r, i | IsAt(q, b, r, i)
      ensures !IsVarOp(OpOf(q, i))
    {
      var k := IsAtUntrimmed(p, q, n.rho, drop, b, r, i);
      OpOfTrimmed(p, q, n.rho, drop, b, k, i);
      NamedOne(p, t, n, b);
      DropIsVarOps(p, t, n, b);
      assert i in p.instrs[b];
    }
  }

  lemma RenamedWellFormed(p: Code, q: Code, t: Tree, n: Names)
    requires RenamedCode(p, q, t, n)
    ensures WellFormed(q)
  {
    hide OpOf, RenamedCode, WellFormed, PhisUnused, PhisComplete, PhisInOrder, UsesDefined, Exact, AllNamed,
         ReplacementsReady, LocalsAreScalars;
    RenamedParts(p, q, t, n);
    WellFormedTrimmed(p, q, n.rho, n.rho.Keys + n.pushed.Keys);
  }

  /** What a phi takes for an edge can be used at the end of the edge's source. */
  ghost predicate PhisDefined(code: Code) {
    forall d, k, i, b ::
      IsAt(code, d, k, i) && OpOf(code, i).PhiOp? && b in code.cfg.succs && d in code.cfg.succs[b] ==>
      PairReady(code, Incoming(OpOf(code, i).pairs, b), b)
  }

  ghost predicate PairReady(code: Code, v: Option<Value>, b: Block) {
    v.Some? && v.value.Res? ==> Available(code, v.value.i, b, |ListOf(code, b)|) && HasResult(OpOf(code, v.value.i))
  }

  lemma RenamedPhisDefined(p: Code, q: Code, t: Tree, n: Names)
    requires RenamedCode(p, q, t, n)
    ensures PhisDefined(q)
  {
    hide OpOf, RenamedCode, WellFormed, PhisUnused, PhisComplete, PhisInOrder, UsesDefined, Exact, AllNamed,
         ReplacementsReady, LocalsAreScalars, Trimmed, PairReady;
    RenamedParts(p, q, t, n);
    forall d, r, i, b | IsAt(q, d, r, i) && OpOf(q, i).PhiOp? && b in q.cfg.succs && d in q.cfg.succs[b]
      ensures PairReady(q, Incoming(OpOf(q, i).pairs, b), b)
    {
      PhiPairReady(p, q, t, n, d, r, i, b);
    }
  }

  lemma PhiOfRenamed(p: Code, q: Code, t: Tree, n: Names, d: Block, r: int, i: Inst) returns (k: int)
    requires RenamedCode(p, q, t, n) && IsAt(q, d, r, i) && OpOf(q, i).PhiOp?
    ensures IsAt(p, d, k, i) && OpOf(p, i).PhiOp? && OpOf(p, i).v == OpOf(q, i).v && Loaded(p, OpOf(p, i).v)
    ensures i in q.operands && OpOf(q, i).pairs == q.operands[i] && q.cfg == p.cfg
  {
    hide RenamedCode, WellFormed, PhisUnused, PhisComplete, UsesDefined, Exact, AllNamed, ReplacementsReady,
         LocalsAreScalars, Loaded;
    RenamedParts(p, q, t, n);
    var drop := n.rho.Keys + n.pushed.Keys;
    k := IsAtUntrimmed(p, q, n.rho, drop, d, r, i);
    OpOfTrimmed(p, q, n.rho, drop, d, k, i);
  }

  /** The value sent over the edge, and that it can be used where it is sent. */
  lemma PhiPairReady(p: Code, q: Code, t: Tree, n: Names, d: Block, r: int, i: Inst, b: Block)
    requires RenamedCode(p, q, t, n) && IsAt(q, d, r, i) && OpOf(q, i).PhiOp? && b in q.cfg.succs && d in q.cfg.succs[b]
    ensures PairReady(q, Incoming(OpOf(q, i).pairs, b), b)
  {
    hide OpOf, RenamedCode, WellFormed, PhisUnused, PhisComplete, PhisInOrder, UsesDefined, Exact, AllNamed,
         ReplacementsReady, LocalsAreScalars, Trimmed, Incoming, PairsFor, Out, PairReady, CurReady,
         DominatorTheory.Tree.Valid;
    var k := PhiOfRenamed(p, q, t, n, d, r, i);
    var v := OpOf(p, i).v;
    RenamedParts(p, q, t, n);
    RenamedPairs(p, q, t, n, d, k, i);
    PairsOfEdge(p, n, b, d, v, q.operands[i]);
    IncomingIsFirst(q.operands[i], b);
    TreeCovers(p, t, b);
    CurIsReady(p, t, n, b, |ListOf(p, b)|);
    OutSentReady(p, q, t, n, b, v);
  }

  lemma RenamedPairs(p: Code, q: Code, t: Tree, n: Names, d: Block, k: int, i: Inst)
    requires RenamedCode(p, q, t, n) && IsAt(p, d, k, i) && OpOf(p, i).PhiOp?
    ensures i in q.operands && PhiPairsAt(p, n, p.cfg.succs, d, OpOf(p, i).v, q.operands[i])
  {
    hide PhiReady, Exact, AllNamed, Trimmed, OpOf, PhiPairsAt;
  }

  lemma OutSentReady(p: Code, q: Code, t: Tree, n: Names, b: Block, v: Inst)
    requires RenamedCode(p, q, t, n) && b in p.instrs && b in p.cfg.succs && CurReady(p, n, b, |ListOf(p, b)|)
             && Loaded(p, v)
    ensures PairReady(q, ValueIn(Out(p, n, b), v), b)
  {
    hide OpOf, RenamedCode, WellFormed, PhisUnused, PhisComplete, PhisInOrder, UsesDefined, Exact, AllNamed,
         ReplacementsReady, LocalsAreScalars, Trimmed, Out, CurReady, Loaded, DominatorTheory.Tree.Valid, TermOk,
         LastOp;
    if v in Out(p, n, b) && Out(p, n, b)[v].Res? {
      var x := Out(p, n, b)[v].i;
      var drop := n.rho.Keys + n.pushed.Keys;
      RenamedParts(p, q, t, n);
      OutReady(p, n, b, v);
      TerminatedOf(p, b);
      AvailableAtEnd(p, q, n.rho, drop, b, x);
    }
  }

  // ----- names and reaching definitions -----

  /** On top of the stacks at the end of a block is what the nearest dominator that
      defines the local gave it: the stack the search of the flow graph sees is the
      one a walk of the dominator tree would see. */
  lemma {:induction false} NameIsNearest(p: Code, t: Tree, n: Names, b: Block, v: Inst)
    requires t.Valid() && AllNamed(p, t, n) && Loaded(p, v) && b in t.parent
             && (forall c :: c in t.parent ==> c in p.instrs)
    ensures match NearestDef(p, t, b, v)
            case None => v !in Out(p, n, b)
            case Some(c) => v in Out(p, n, c) && ValueIn(Out(p, n, b), v) == ValueIn(Out(p, n, c), v)
    decreases t.rank[t.root] - t.rank[b]
  {
    hide OpOf, Loaded, AllNamed, Stores, HasPhi, Out, PhisOnTop, NamedUpTo;
    NamedOne(p, t, n, b);
    if Defines(p, b, v) {
      DefinedHasName(p, t, n, b, v);
    } else {
      NoDefName(p, n, b, v);
      if b != t.root {
        NameIsNearest(p, t, n, t.parent[b], v);
      }
    }
  }

  lemma NoDefName(p: Code, n: Names, b: Block, v: Inst)
    requires !Stores(p, b, v)
    ensures ValueIn(Out(p, n, b), v) == ValueIn(TopsAt(n, b), v)
  {
    CurWithoutStore(p, n, b, |ListOf(p, b)|, v);
  }

  lemma DefinedHasName(p: Code, t: Tree, n: Names, b: Block, v: Inst)
    requires t.Valid() && NamedBlock(p, t, n, b) && Defines(p, b, v)
    ensures v in Out(p, n, b)
  {
    hide OpOf, Stores, Inherits, NamedUpTo;
    if Stores(p, b, v) {
      StoresHasValue(p, n, b, v);
    } else {
      var k :| 0 <= k < |ListOf(p, b)| && IsPhiFor(OpOf(p, ListOf(p, b)[k]), v);
      assert IsAt(p, b, k, ListOf(p, b)[k]);
      assert ValueIn(n.tops[b], v) == Some(Res(ListOf(p, b)[k]));
      CurGrows(p, n, b, |ListOf(p, b)|, v);
    }
  }

  /** A walk from the entry ends with every block visited and finished. */
  lemma WalkEnds(p: Code, t: Tree, n: Names, visited: set<Block>, finished: set<Block>, q: Code, stale: set<Value>,
                 n0: Names, status0: Status, status: Status)
    requires PhiReady(p) && Exact(p.cfg, t) && WalkState(p, t, n, visited, finished, SentAll(p, visited), q, stale)
    requires WalkedFrom(p, {}, {}, n0, status0, visited, finished, n, status) && p.cfg.entry in visited
    ensures visited == p.instrs.Keys && SameStacks(status0, status)
    ensures RenamedCode(p, q, t, n) && PhisLive(q) && StaleAreDead(q.instrs, stale) && StaleAreKnown(q.operands, stale)
  {
    hide OpOf, LocalsAreScalars, CodeState, StaleAreKnown, Exact, WellFormed, PhisUnused, PhisInOrder, PhisComplete,
         StaleReplaced, Settled, StoreBeforeLoad, FlowGraph.Dominates, DominatorTheory.Tree.Valid, PhisLive,
         RenamedCode, StaleAreDead, SameStacks, Extends, DominatorsIn, SentAll;
    AllVisited(p, visited);
    assert finished == visited;
    WalkIsRenamed(p, t, n, q, stale);
    WalkPhisLive(p, t, n, q, stale);
    WalkStale(p, t, n, q, stale);
  }
}
