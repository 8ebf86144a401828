/** The operands of the finished phis, in terms of the function before the pass: one
    pair for each edge to which some store of the local leads, and no others. */
module PhiOperands {
  import opened FlowGraphs
  import opened DominatorTheory
  import opened Ir
  import opened Semantics
  import opened Substitutions
  import opened PhiInsertion
  import opened PhiPlacement
  import opened ReachingDefinitions
  import opened Renaming
  import opened RenamingRuns
  import opened RenamingResult
  import opened PhiResult
  import opened Keeping
  import opened Trimming
  import opened AllocaRemoval
  import opened Forwarding
  import opened ForwardingRuns
  import opened ForwardingResult

  // ----- blocks a store leads to -----

  ghost predicate StoresOn(code: Code, path: seq<Block>, v: Inst) {
    exists k :: 0 <= k < |path| && Stores(code, path[k], v)
  }

  /** Some path from the entry to the end of `b` stores to `v`. */
  ghost predicate Fed(code: Code, b: Block, v: Inst) {
    exists path :: code.cfg.PathFromTo(path, code.cfg.entry, b) && StoresOn(code, path, v)
  }

  ghost function FedBlocks(code: Code, v: Inst): set<Block> {
    set b | b in code.cfg.succs && Fed(code, b, v)
  }

  lemma StoreIsFed(code: Code, b: Block, v: Inst)
    requires code.cfg.Reachable(b) && Stores(code, b, v)
    ensures Fed(code, b, v)
  {
    var path :| code.cfg.PathFromTo(path, code.cfg.entry, b);
    assert path[|path| - 1] == b;
    assert StoresOn(code, path, v);
  }

  /** What dominates a reachable block leads to it. */
  lemma DominatorLeads(g: FlowGraph, x: Block, b: Block) returns (path: seq<Block>)
    requires g.Dominates(x, b) && g.Reachable(b)
    ensures g.PathFromTo(path, x, b)
  {
    var p :| g.PathFromTo(p, g.entry, b);
    var i :| 0 <= i < |p| && p[i] == x;
    PathSuffix(g, p, i);
    path := p[i..];
  }

  lemma FedFurther(code: Code, x: Block, b: Block, v: Inst, tail: seq<Block>)
    requires Fed(code, x, v) && code.cfg.PathFromTo(tail, x, b)
    ensures Fed(code, b, v)
  {
    var path :| code.cfg.PathFromTo(path, code.cfg.entry, x) && StoresOn(code, path, v);
    PathConcat(code.cfg, path, tail, code.cfg.entry, x, b);
    var k :| 0 <= k < |path| && Stores(code, path[k], v);
    assert (path + tail[1..])[k] == path[k];
    assert StoresOn(code, path + tail[1..], v);
  }

  /** The blocks a store leads to contain the frontiers of the stores and of themselves. */
  lemma FedIsClosed(code: Code, v: Inst)
    requires CfgReady(code.cfg) && code.instrs.Keys == code.cfg.succs.Keys
    ensures ClosedUnderFrontier(code.cfg, Defs(code, v), FedBlocks(code, v))
  {
    hide Fed, Stores, FlowGraph.Dominates, FlowGraph.Reachable;
    forall x, b | (x in Defs(code, v) || x in FedBlocks(code, v)) && code.cfg.InFrontier(x, b)
      ensures b in FedBlocks(code, v)
    {
      var q :| q in code.cfg.preds[b] && code.cfg.Dominates(x, q);
      assert q in code.cfg.succs && b in code.cfg.succs[q];
      assert code.cfg.Reachable(q);
      var tail := DominatorLeads(code.cfg, x, q);
      if x in Defs(code, v) {
        assert code.cfg.Reachable(x);
        StoreIsFed(code, x, v);
      }
      FedFurther(code, x, q, v, tail);
      assert code.cfg.PathFromTo([q, b], q, b);
      FedFurther(code, q, b, v, [q, b]);
    }
  }

  // ----- the phis are on the least such set -----

  /** Phis stand on exactly the iterated frontiers. */
  ghost predicate PhisLeast(code: Code) {
    forall v :: Loaded(code, v) ==> IsIteratedFrontier(code.cfg, Defs(code, v), PhisOf(code, v))
  }

  lemma InsertedLeast(p: Code, q: Code, front: map<Block, seq<Inst>>, phis: map<Block, set<Inst>>)
    requires PhisInserted(p, q, front, phis) && WellFormed(p) && NoPhis(p)
    ensures PhisLeast(q)
  {
    hide WellFormed, NoPhis, Loaded, IsIteratedFrontier, Defs, PhiBlocks, PhisOf, PhisGenerated, AddedPhis,
         LocalsAreScalars;
    WellFormedParts(p);
    InsertedParts(p, q, front, phis);
    forall v | Loaded(q, v)
      ensures IsIteratedFrontier(q.cfg, Defs(q, v), PhisOf(q, v))
    {
      SameLoads(p, q, front, v);
      SamePhiBlocks(p, q, front, phis, v);
      SameDefs(p, q, front, v);
    }
  }

  lemma DefinedIsFed(code: Code, c: Block, v: Inst)
    requires WellFormed(code) && PhisLeast(code) && Loaded(code, v) && c in code.instrs && Defines(code, c, v)
    ensures Fed(code, c, v)
  {
    CfgIsReady(code);
    hide WellFormed, Loaded, Stores, HasPhi, Fed, FlowGraph.Reachable;
    if Stores(code, c, v) {
      StoreIsFed(code, c, v);
    } else {
      FedIsClosed(code, v);
      assert c in PhisOf(code, v);
      assert PhisOf(code, v) <= FedBlocks(code, v);
    }
  }

  lemma CfgIsReady(code: Code)
    requires WellFormed(code)
    ensures CfgReady(code.cfg) && code.instrs.Keys == code.cfg.succs.Keys
    ensures forall b :: b in code.instrs ==> code.cfg.Reachable(b)
  {
  }

  // ----- a local has a name where a store leads -----

  lemma {:induction false} LastDefExists(code: Code, path: seq<Block>, v: Inst, k: int)
    requires 0 <= k < |path| && Defines(code, path[k], v)
    ensures LastDefOn(code, path, v).Some?
    decreases |path|
  {
    hide Defines;
    if k < |path| - 1 && !Defines(code, path[|path| - 1], v) {
      assert path[..|path| - 1][k] == path[k];
      LastDefExists(code, path[..|path| - 1], v, k);
    }
  }

  lemma {:induction false} NearestDominates(code: Code, t: Tree, b: Block, v: Inst)
    requires Exact(code.cfg, t) && b in t.parent && NearestDef(code, t, b, v).Some?
    ensures var c := NearestDef(code, t, b, v).value; Defines(code, c, v) && c in t.parent && code.cfg.Dominates(c, b)
    decreases t.rank[t.root] - t.rank[b]
  {
    hide Defines, FlowGraph.Dominates, FlowGraph.Reachable;
    ExactAt(code.cfg, t, b, b, b);
    if Defines(code, b, v) {
      assert t.OnChain(b, b);
    } else {
      var d := t.parent[b];
      NearestDominates(code, t, d, v);
      StrictDominatorsOnParentChain(code.cfg, t, b, d);
      assert t.OnChain(d, d);
      DominatesTransitive(code.cfg, NearestDef(code, t, d, v).value, d, b);
    }
  }

  /** At the end of a block a local has a name exactly if some store leads there. */
  lemma NamedIffFed(p: Code, t: Tree, n: Names, b: Block, v: Inst)
    requires WellFormed(p) && PhisComplete(p) && PhisLeast(p) && Exact(p.cfg, t) && AllNamed(p, t, n) && Loaded(p, v)
             && b in p.instrs
    ensures v in Out(p, n, b) <==> Fed(p, b, v)
  {
    hide WellFormed, PhisComplete, PhisLeast, Loaded, Defines, AllNamed, Out, Exact, Stores, FlowGraph.Dominates,
         FlowGraph.Reachable;
    CfgIsReady(p);
    TreeCovers(p, t, b);
    forall c | c in t.parent
      ensures c in p.instrs
    {
      TreeCovers(p, t, c);
    }
    NameIsNearest(p, t, n, b, v);
    if Fed(p, b, v) {
      var path :| p.cfg.PathFromTo(path, p.cfg.entry, b) && StoresOn(p, path, v);
      var k :| 0 <= k < |path| && Stores(p, path[k], v);
      StoreDefines(p, path[k], v);
      LastDefExists(p, path, v, k);
      LastDefIsNearest(p, t, path, b, v);
    }
    if v in Out(p, n, b) {
      NearestDominates(p, t, b, v);
      var c := NearestDef(p, t, b, v).value;
      DefinedIsFed(p, c, v);
      var tail := DominatorLeads(p.cfg, c, b);
      FedFurther(p, c, b, v, tail);
    }
  }

  lemma StoreDefines(code: Code, b: Block, v: Inst)
    requires Stores(code, b, v)
    ensures Defines(code, b, v)
  {
  }

  // ----- the operands -----

  /** How many edges lead from `b` to `d`. */
  function Edges(g: FlowGraph, b: Block, d: Block): nat {
    if b in g.succs then multiset(g.succs[b])[d] else 0
  }

  /** A phi for `v` in `d` has as many pairs for `b` as there are edges, all with one
      value, if a store leads to the end of `b`, and none otherwise. */
  ghost predicate PairsRight(code: Code, d: Block, v: Inst, pairs: seq<Value>, b: Block) {
    var vs := PairsFor(pairs, b);
    && |vs| == (if Fed(code, b, v) then Edges(code.cfg, b, d) else 0)
    && forall j, k :: 0 <= j < k < |vs| ==> vs[j] == vs[k]
  }

  /** The phis of `q` have the pairs the stores of `p` call for, and nothing else. */
  ghost predicate PhisFed(p: Code, q: Code) {
    forall d, k, i :: IsAt(q, d, k, i) && OpOf(q, i).PhiOp? ==>
      PairForm(OpOf(q, i).pairs) && forall b :: PairsRight(p, d, OpOf(q, i).v, OpOf(q, i).pairs, b)
  }

  lemma PairsAreRight(p: Code, t: Tree, n: Names, d: Block, v: Inst, pairs: seq<Value>, b: Block)
    requires WellFormed(p) && PhisComplete(p) && PhisLeast(p) && Exact(p.cfg, t) && AllNamed(p, t, n) && Loaded(p, v)
    requires PairsSent(p, n, p.cfg.succs, d, v, pairs, b)
    ensures PairsRight(p, d, v, pairs, b)
  {
    hide WellFormed, PhisComplete, PhisLeast, Loaded, AllNamed, Out, Exact, Fed, PairsFor;
    CfgIsReady(p);
    if b in p.cfg.succs {
      NamedIffFed(p, t, n, b, v);
    } else {
      assert Edges(p.cfg, b, d) == 0;
    }
  }

  lemma RenamedFed(p: Code, q: Code, t: Tree, n: Names)
    requires RenamedCode(p, q, t, n) && PhisLeast(p)
    ensures PhisFed(p, q)
  {
    hide WellFormed, OpOf, PhisLeast, Exact, AllNamed, PhisUnused, PhisComplete, PhisInOrder, UsesDefined,
         ReplacementsReady, LocalsAreScalars, Trimmed, ReplacesLoads, PairsFor, PairsRight, PairForm, PairsSent, Loaded;
    RenamedParts(p, q, t, n);
    forall d, r, i | IsAt(q, d, r, i) && OpOf(q, i).PhiOp?
      ensures PairForm(OpOf(q, i).pairs) && forall b :: PairsRight(p, d, OpOf(q, i).v, OpOf(q, i).pairs, b)
    {
      var k := PhiBefore(p, q, t, n, d, r, i);
      assert PhiPairsAt(p, n, p.cfg.succs, d, OpOf(p, i).v, q.operands[i]);
      forall b
        ensures PairsRight(p, d, OpOf(q, i).v, OpOf(q, i).pairs, b)
      {
        PairsAreRight(p, t, n, d, OpOf(p, i).v, q.operands[i], b);
      }
    }
  }

  /** A phi of the renamed function was there before, for the same local. */
  lemma PhiBefore(p: Code, q: Code, t: Tree, n: Names, d: Block, r: int, i: Inst) returns (k: int)
    requires RenamedCode(p, q, t, n) && IsAt(q, d, r, i) && OpOf(q, i).PhiOp?
    ensures IsAt(p, d, k, i) && OpOf(p, i).PhiOp? && OpOf(q, i).v == OpOf(p, i).v && Loaded(p, OpOf(p, i).v)
    ensures i in q.operands && OpOf(q, i).pairs == q.operands[i]
  {
    hide WellFormed, Exact, AllNamed, PhisUnused, PhisComplete, UsesDefined, ReplacementsReady, LocalsAreScalars,
         ReplacesLoads, Loaded;
    RenamedParts(p, q, t, n);
    var drop := n.rho.Keys + n.pushed.Keys;
    k := IsAtUntrimmed(p, q, n.rho, drop, d, r, i);
    KeepContents(p.instrs[d], drop);
    OpOfTrimmed(p, q, n.rho, drop, d, k, i);
  }

  // ----- the steps around the renaming -----

  ghost predicate SameStores(p: Code, q: Code) {
    q.cfg == p.cfg && forall b, v :: Stores(q, b, v) <==> Stores(p, b, v)
  }

  lemma SameFed(p: Code, q: Code, b: Block, v: Inst)
    requires SameStores(p, q)
    ensures Fed(q, b, v) <==> Fed(p, b, v)
  {
    hide Stores;
    forall path
      ensures StoresOn(q, path, v) <==> StoresOn(p, path, v)
    {
    }
  }

  lemma SameStoresFed(p: Code, p': Code, q: Code)
    requires SameStores(p, p') && PhisFed(p', q)
    ensures PhisFed(p, q)
  {
    hide Fed, OpOf, PairForm, PairsFor, SameStores;
    forall d, k, i | IsAt(q, d, k, i) && OpOf(q, i).PhiOp?
      ensures PairForm(OpOf(q, i).pairs) && forall b :: PairsRight(p, d, OpOf(q, i).v, OpOf(q, i).pairs, b)
    {
      forall b
        ensures PairsRight(p, d, OpOf(q, i).v, OpOf(q, i).pairs, b)
      {
        SameFed(p, p', b, OpOf(q, i).v);
        SameGraph(p, p');
        assert PairsRight(p', d, OpOf(q, i).v, OpOf(q, i).pairs, b);
      }
    }
  }

  lemma SameGraph(p: Code, q: Code)
    requires SameStores(p, q)
    ensures q.cfg == p.cfg
  {
  }

  lemma SameStoresRefl(p: Code)
    ensures SameStores(p, p)
  {
  }

  lemma SameStoresTrans(p: Code, q: Code, r: Code)
    requires SameStores(p, q) && SameStores(q, r)
    ensures SameStores(p, r)
  {
    hide Stores;
  }

  lemma ForwardedSameStores(p: Code, q: Code, b: Block, fin: Scan)
    requires ForwardedIn(p, q, b, fin) && q.cfg == p.cfg
    ensures SameStores(p, q)
  {
    hide ForwardedIn, OpOf;
    forall c, v
      ensures Stores(q, c, v) <==> Stores(p, c, v)
    {
      if Stores(p, c, v) {
        StoresKept(p, q, b, fin, c, v);
      }
      if Stores(q, c, v) {
        var r :| 0 <= r < |ListOf(q, c)| && WritesTo(q, ListOf(q, c)[r], v);
        var k := KeptOp(p, q, b, fin, c, r);
        assert WritesTo(p, ListOf(p, c)[k], v);
      }
    }
  }

  lemma InsertedSameStores(p: Code, q: Code, front: map<Block, seq<Inst>>, phis: map<Block, set<Inst>>)
    requires PhisInserted(p, q, front, phis) && LocalsAreScalars(p)
    ensures SameStores(p, q)
  {
    hide LocalsAreScalars, AddedPhis, Stores;
    InsertedParts(p, q, front, phis);
    forall b, v
      ensures Stores(q, b, v) <==> Stores(p, b, v)
    {
      StoresAdded(p, q, front, b, v);
    }
  }

  lemma RemovedFed(p: Code, q: Code, r: Code)
    requires PhisFed(p, q) && AllocasRemoved(q, r, q.instrs.Keys)
    ensures PhisFed(p, r)
  {
    hide OpOf, PairForm, PairsRight;
    forall d, k, i | IsAt(r, d, k, i) && OpOf(r, i).PhiOp?
      ensures PairForm(OpOf(r, i).pairs) && forall b :: PairsRight(p, d, OpOf(r, i).v, OpOf(r, i).pairs, b)
    {
      var m := RemovedPlace(q, r, d, k, i);
      SameOps(q, r, i);
    }
  }
}
