/** Which blocks end up with a phi for a local, in terms of the function before the pass:
    those on the iterated frontier of its stores, if some load of it is not answered by a
    store of its own block. */
module PhiPresence {
  import opened FlowGraphs
  import opened DominatorTheory
  import opened Ir
  import opened Semantics
  import opened Substitutions
  import opened Keeping
  import opened Trimming
  import opened Forwarding
  import opened ForwardingRuns
  import opened ForwardingResult
  import opened PhiInsertion
  import opened PhiPlacement
  import opened ReachingDefinitions
  import opened Renaming
  import opened RenamingRuns
  import opened PhiOperands
  import opened PhiResult
  import opened AllocaRemoval

  /** Position `k` of the block loads `v`, and nothing before it stores to `v`. */
  ghost predicate ExposedAt(code: Code, b: Block, k: nat, v: Inst) {
    && k < |ListOf(code, b)| && OpOf(code, ListOf(code, b)[k]) == ReadVar(v)
    && forall j :: 0 <= j < k ==> !WritesTo(code, ListOf(code, b)[j], v)
  }

  ghost predicate Exposed(code: Code, b: Block, v: Inst) {
    exists k :: ExposedAt(code, b, k, v)
  }

  ghost predicate Needed(code: Code, v: Inst) {
    exists b :: b in code.instrs && Exposed(code, b, v)
  }

  /** Each block of the chain after the first is on the frontier of the one before. */
  ghost predicate FrontierChain(g: FlowGraph, chain: seq<Block>) {
    |chain| >= 2 && forall i :: 0 <= i < |chain| - 1 ==> g.InFrontier(chain[i], chain[i + 1])
  }

  /** `d` is on the frontier of a block that stores to `v`, or on the frontier of such a
      block, and so on. */
  ghost predicate OnFrontier(code: Code, v: Inst, d: Block) {
    exists chain :: FrontierChain(code.cfg, chain) && Stores(code, chain[0], v) && chain[|chain| - 1] == d
  }

  /** In `q` each local has a phi in exactly the blocks where `p` calls for one, and one
      only. */
  ghost predicate PhisAsNeeded(p: Code, q: Code) {
    && (forall d, v :: HasPhi(q, d, v) <==> Needed(p, v) && OnFrontier(p, v, d))
    && OnePhiEach(q)
  }

  ghost predicate OnePhiEach(code: Code) {
    forall d, j, k :: 0 <= j < k < |ListOf(code, d)| && OpOf(code, ListOf(code, d)[j]).PhiOp?
                      && OpOf(code, ListOf(code, d)[k]).PhiOp? ==>
      OpOf(code, ListOf(code, d)[j]).v != OpOf(code, ListOf(code, d)[k]).v
  }

  // ----- chains and closed sets -----

  lemma {:induction false} ChainStaysInside(g: FlowGraph, defs: set<Block>, s: set<Block>, chain: seq<Block>)
    requires ClosedUnderFrontier(g, defs, s) && FrontierChain(g, chain) && chain[0] in defs
    ensures chain[|chain| - 1] in s
    decreases |chain|
  {
    hide FlowGraph.InFrontier;
    if |chain| == 2 {
      assert g.InFrontier(chain[0], chain[1]);
    } else {
      var front := chain[..|chain| - 1];
      ChainStaysInside(g, defs, s, front);
      assert front[|front| - 1] == chain[|chain| - 2];
      assert g.InFrontier(chain[|chain| - 2], chain[|chain| - 1]);
    }
  }

  ghost function ChainBlocks(code: Code, v: Inst): set<Block> {
    set d | d in code.cfg.succs && OnFrontier(code, v, d)
  }

  lemma FrontierIsBlock(g: FlowGraph, x: Block, d: Block)
    requires g.Valid() && g.InFrontier(x, d)
    ensures d in g.succs
  {
  }

  lemma OneMore(code: Code, v: Inst, x: Block, d: Block)
    requires code.cfg.InFrontier(x, d) && (Stores(code, x, v) || OnFrontier(code, v, x))
    ensures OnFrontier(code, v, d)
  {
    hide FlowGraph.InFrontier, Stores;
    if Stores(code, x, v) {
      assert FrontierChain(code.cfg, [x, d]);
    } else {
      var chain :| FrontierChain(code.cfg, chain) && Stores(code, chain[0], v) && chain[|chain| - 1] == x;
      assert FrontierChain(code.cfg, chain + [d]);
      assert (chain + [d])[0] == chain[0];
    }
  }

  lemma ChainsAreClosed(code: Code, v: Inst)
    requires code.cfg.Valid()
    ensures ClosedUnderFrontier(code.cfg, Defs(code, v), ChainBlocks(code, v))
  {
    hide FlowGraph.InFrontier, FlowGraph.Valid, OnFrontier, Stores;
    forall x, d | (x in Defs(code, v) || x in ChainBlocks(code, v)) && code.cfg.InFrontier(x, d)
      ensures d in ChainBlocks(code, v)
    {
      FrontierIsBlock(code.cfg, x, d);
      OneMore(code, v, x, d);
    }
  }

  lemma ListedStores(code: Code, b: Block, v: Inst)
    requires Stores(code, b, v)
    ensures b in Defs(code, v)
  {
  }

  /** The iterated frontier is what the chains lead to. */
  lemma ChainsAreFrontier(code: Code, v: Inst, s: set<Block>, d: Block)
    requires code.cfg.Valid() && IsIteratedFrontier(code.cfg, Defs(code, v), s)
    ensures d in s <==> OnFrontier(code, v, d)
  {
    hide FlowGraph.InFrontier, FlowGraph.Valid, Stores;
    ChainsAreClosed(code, v);
    if OnFrontier(code, v, d) {
      var chain :| FrontierChain(code.cfg, chain) && Stores(code, chain[0], v) && chain[|chain| - 1] == d;
      ListedStores(code, chain[0], v);
      ChainStaysInside(code.cfg, Defs(code, v), s, chain);
    }
  }

  // ----- forwarding -----

  ghost predicate SameExposed(p: Code, q: Code) {
    q.instrs.Keys == p.instrs.Keys && forall b, v :: Exposed(q, b, v) <==> Exposed(p, b, v)
  }

  lemma SameExposedRefl(p: Code)
    ensures SameExposed(p, p)
  {
  }

  lemma SameExposedTrans(p: Code, q: Code, r: Code)
    requires SameExposed(p, q) && SameExposed(q, r)
    ensures SameExposed(p, r)
  {
    hide Exposed;
  }

  /** What stays does to locals what it did. */
  lemma SubstKeepsLocals(sub: map<Inst, Value>, op: Op, v: Inst)
    ensures SubstOp(sub, op) == ReadVar(v) <==> op == ReadVar(v)
    ensures SubstOp(sub, op).WriteVar? && SubstOp(sub, op).v == v <==> op.WriteVar? && op.v == v
  {
  }

  /** A load that no store of its block answers is not forwarded. */
  lemma ExposedStays(p: Code, q: Code, b: Block, fin: Scan, c: Block, k: nat, v: Inst)
    requires ForwardedIn(p, q, b, fin) && ExposedAt(p, c, k, v)
    ensures c in p.instrs && p.instrs[c][k] !in fin.forward && p.instrs[c][k] !in fin.deleted
  {
    hide ForwardedIn, OpOf, LocalsAreScalars, WellFormed, NoPhis, UsesDefined, ReplacementsReady, ReplacesLoads,
         DropsLocals, ScanAll;
    ForwardedParts(p, q, b, fin);
    if c != b {
      OutsideNotDropped(p, q, b, fin, c, k);
    } else {
      ForwardedScan(p, q, b, fin);
      ScanOfParts(p, b, fin);
      PlaceOfForwarded(p, b, fin, k);
    }
  }

  /** A forwarded load has a store before it in its block. */
  lemma PlaceOfForwarded(p: Code, b: Block, fin: Scan, k: nat)
    requires b in p.instrs && k < |p.instrs[b]| && ScanHolds(p, p.instrs[b], |p.instrs[b]|, fin) && PlacedOnce(p.instrs)
    ensures p.instrs[b][k] in fin.forward ==> ReadsAfterStore(p, p.instrs[b], k)
    ensures p.instrs[b][k] in fin.deleted ==> OpOf(p, p.instrs[b][k]).WriteVar?
  {
    hide OpOf;
    var list := p.instrs[b];
    if list[k] in fin.forward {
      var m :| 0 <= m < |list| && ReadsAfterStore(p, list, m) && list[m] == list[k];
      assert IsAt(p, b, m, list[k]) && IsAt(p, b, k, list[k]);
      PositionUnique(p, b, m, b, k, list[k]);
    }
  }

  lemma ExposedKept(p: Code, q: Code, b: Block, fin: Scan, c: Block, v: Inst)
    requires ForwardedIn(p, q, b, fin) && Exposed(p, c, v)
    ensures Exposed(q, c, v)
  {
    hide ForwardedIn, OpOf, SubstOp;
    var k: nat :| ExposedAt(p, c, k, v);
    ExposedStays(p, q, b, fin, c, k, v);
    KeysKept(p, q, b, fin);
    var list, drop := p.instrs[c], fin.forward.Keys + fin.deleted;
    ForwardedLists(p, q, b, fin, c);
    MovedAt(list, drop, k);
    var r := Moved(list, drop, k);
    forall j | 0 <= j <= r
      ensures j < r ==> !WritesTo(q, ListOf(q, c)[j], v)
      ensures j == r ==> OpOf(q, ListOf(q, c)[j]) == ReadVar(v)
    {
      var m := KeptOp(p, q, b, fin, c, j);
      SubstKeepsLocals(fin.forward, OpOf(p, list[m]), v);
      if j < r && k <= m {
        MovedMonotone(list, drop, k, m);
        assert false;
      }
    }
    assert ExposedAt(q, c, r, v);
  }

  lemma ForwardedLists(p: Code, q: Code, b: Block, fin: Scan, c: Block)
    requires ForwardedIn(p, q, b, fin) && c in p.instrs
    ensures c in q.instrs && q.instrs[c] == Keep(p.instrs[c], fin.forward.Keys + fin.deleted)
  {
  }

  lemma ExposedBefore(p: Code, q: Code, b: Block, fin: Scan, c: Block, v: Inst)
    requires ForwardedIn(p, q, b, fin) && Exposed(q, c, v)
    ensures Exposed(p, c, v)
  {
    hide ForwardedIn, OpOf, SubstOp;
    var r: nat :| ExposedAt(q, c, r, v);
    KeysKept(p, q, b, fin);
    var k := KeptOp(p, q, b, fin, c, r);
    SubstKeepsLocals(fin.forward, OpOf(p, p.instrs[c][k]), v);
    forall j | 0 <= j < k
      ensures !WritesTo(p, p.instrs[c][j], v)
    {
      if WritesTo(p, p.instrs[c][j], v) {
        StoreStaysBefore(p, q, b, fin, c, j, k, v);
      }
    }
    assert ExposedAt(p, c, k, v);
  }

  /** A store before a load that stays: the block is another one, and the store stays too. */
  lemma StoreStaysBefore(p: Code, q: Code, b: Block, fin: Scan, c: Block, j: nat, k: nat, v: Inst)
    requires ForwardedIn(p, q, b, fin) && c in p.instrs && j < k < |p.instrs[c]| && WritesTo(p, p.instrs[c][j], v)
    requires OpOf(p, p.instrs[c][k]) == ReadVar(v) && p.instrs[c][k] !in fin.forward
    ensures c in q.instrs && Moved(p.instrs[c], fin.forward.Keys + fin.deleted, k) <= |q.instrs[c]|
    ensures exists m :: 0 <= m < Moved(p.instrs[c], fin.forward.Keys + fin.deleted, k)
                        && WritesTo(q, q.instrs[c][m], v)
  {
    hide ForwardedIn, OpOf, SubstOp;
    var list, drop := p.instrs[c], fin.forward.Keys + fin.deleted;
    if c == b {
      ScanCatches(p, q, b, fin, j, k, v);
    }
    OutsideNotDropped(p, q, b, fin, c, j);
    ForwardedLists(p, q, b, fin, c);
    KeysKept(p, q, b, fin);
    MovedAt(list, drop, j);
    MovedMonotone(list, drop, j, k);
    MovedBound(list, drop, k);
    var m := Moved(list, drop, j);
    var n := KeptOp(p, q, b, fin, c, m);
    if n != j {
      MovedMonotone(list, drop, if n < j then n else j, if n < j then j else n);
      assert false;
    }
    SubstKeepsLocals(fin.forward, OpOf(p, list[j]), v);
    assert WritesTo(q, q.instrs[c][m], v);
  }

  lemma MovedBound(list: seq<Inst>, drop: set<Inst>, k: nat)
    requires k <= |list|
    ensures Moved(list, drop, k) <= |Keep(list, drop)|
  {
    assert list == list[..k] + list[k..];
    KeepConcat(list[..k], list[k..], drop);
  }

  /** Forwarding in one block neither answers nor uncovers a load that no store answers. */
  lemma ForwardedSameExposed(p: Code, q: Code, b: Block, fin: Scan)
    requires ForwardedIn(p, q, b, fin)
    ensures SameExposed(p, q)
  {
    hide ForwardedIn, Exposed;
    KeysKept(p, q, b, fin);
    forall c, v
      ensures Exposed(q, c, v) <==> Exposed(p, c, v)
    {
      if Exposed(p, c, v) {
        ExposedKept(p, q, b, fin, c, v);
      }
      if Exposed(q, c, v) {
        ExposedBefore(p, q, b, fin, c, v);
      }
    }
  }

  /** In clean blocks every load is one that no store answers. */
  lemma LoadedIsNeeded(p: Code, q: Code, v: Inst)
    requires SameExposed(p, q) && forall b :: b in q.instrs ==> Clean(q, b)
    ensures Loaded(q, v) <==> Needed(p, v)
  {
    hide OpOf;
    if Loaded(q, v) {
      var b :| b in q.instrs && Loads(q, b, v);
      var k :| 0 <= k < |ListOf(q, b)| && OpOf(q, ListOf(q, b)[k]) == ReadVar(v);
      forall j | 0 <= j < k
        ensures !WritesTo(q, ListOf(q, b)[j], v)
      {
        assert !Clash(q, b, j, k, v);
      }
      assert ExposedAt(q, b, k, v);
      assert Exposed(q, b, v);
    }
    if Needed(p, v) {
      var b :| b in p.instrs && Exposed(p, b, v);
      assert Exposed(q, b, v);
      var k: nat :| ExposedAt(q, b, k, v);
      assert Loads(q, b, v);
    }
  }

  // ----- insertion -----

  lemma SameOnFrontier(p: Code, q: Code, v: Inst, d: Block)
    requires SameStores(p, q)
    ensures OnFrontier(q, v, d) <==> OnFrontier(p, v, d)
  {
    hide Stores, FlowGraph.InFrontier;
    if chain :| FrontierChain(q.cfg, chain) && Stores(q, chain[0], v) && chain[|chain| - 1] == d {
      assert FrontierChain(p.cfg, chain) && Stores(p, chain[0], v);
    }
    if chain :| FrontierChain(p.cfg, chain) && Stores(p, chain[0], v) && chain[|chain| - 1] == d {
      assert FrontierChain(q.cfg, chain) && Stores(q, chain[0], v);
    }
  }

  lemma {:induction false} NeverThere(q: Code, d: Block, v: Inst)
    requires d !in q.instrs
    ensures !HasPhi(q, d, v)
  {
  }

  lemma InsertedAsNeeded(p0: Code, p: Code, q: Code, front: map<Block, seq<Inst>>, phis: map<Block, set<Inst>>)
    requires PhisInserted(p, q, front, phis) && WellFormed(p) && NoPhis(p)
    requires SameExposed(p0, p) && SameStores(p0, p) && forall b :: b in p.instrs ==> Clean(p, b)
    ensures PhisAsNeeded(p0, q)
  {
    hide WellFormed, NoPhis, Loaded, IsIteratedFrontier, Defs, PhiBlocks, PhisOf, PhisGenerated, AddedPhis, HasPhi,
         Needed, OnFrontier, SameExposed, SameStores, Clean, LocalsAreScalars, OnePhiEach, FlowGraph.Valid;
    WellFormedParts(p);
    GraphParts(p);
    InsertedParts(p, q, front, phis);
    forall d, v
      ensures HasPhi(q, d, v) <==> Needed(p0, v) && OnFrontier(p0, v, d)
    {
      LoadedIsNeeded(p0, p, v);
      SameOnFrontier(p0, p, v, d);
      if d in q.instrs {
        HasPhiIff(p, q, front, phis, d, v);
      } else {
        NeverThere(q, d, v);
      }
      NotedIff(p, q, front, phis, d, v);
    }
    InsertedOnce(p, q, front, phis);
  }

  lemma GraphParts(p: Code)
    requires WellFormed(p)
    ensures p.cfg.Valid() && p.cfg.succs.Keys == p.instrs.Keys
  {
  }

  /** The pass notes a phi for the blocks of the iterated frontier of a loaded local. */
  lemma NotedIff(p: Code, q: Code, front: map<Block, seq<Inst>>, phis: map<Block, set<Inst>>, d: Block, v: Inst)
    requires PhisInserted(p, q, front, phis) && WellFormed(p)
    ensures v in PhisAt(phis, d) <==> Loaded(p, v) && OnFrontier(p, v, d)
    ensures v in PhisAt(phis, d) ==> d in p.instrs
  {
    hide WellFormed, Loaded, IsIteratedFrontier, Defs, PhisGenerated, OnFrontier, FlowGraph.Valid;
    GraphParts(p);
    assert v in PhisAt(phis, d) <==> d in PhiBlocks(phis, v);
    if Loaded(p, v) {
      ChainsAreFrontier(p, v, PhiBlocks(phis, v), d);
      PlacedInBlocks(p, PhiBlocks(phis, v), v);
    }
  }

  lemma InsertedOnce(p: Code, q: Code, front: map<Block, seq<Inst>>, phis: map<Block, set<Inst>>)
    requires PhisInserted(p, q, front, phis) && LocalsAreScalars(p) && NoPhis(p)
    ensures OnePhiEach(q)
  {
    hide PhisInserted, OpOf, LocalsAreScalars, AddedPhis, NoPhis;
    InsertedParts(p, q, front, phis);
    forall d, j, k | 0 <= j < k < |ListOf(q, d)| && OpOf(q, ListOf(q, d)[j]).PhiOp? && OpOf(q, ListOf(q, d)[k]).PhiOp?
      ensures OpOf(q, ListOf(q, d)[j]).v != OpOf(q, ListOf(q, d)[k]).v
    {
      PhiInFront(p, q, front, d, j);
      PhiInFront(p, q, front, d, k);
      assert FrontHolds(q, PhisAt(phis, d), front[d]);
    }
  }

  // ----- renaming and removal -----

  /** Each phi of `q` is one of `p`, in the same order, and the other way round. */
  ghost predicate SamePhis(p: Code, q: Code) {
    && (forall d, v :: HasPhi(q, d, v) <==> HasPhi(p, d, v))
    && (OnePhiEach(p) ==> OnePhiEach(q))
  }

  lemma StillAsNeeded(p0: Code, p: Code, q: Code)
    requires PhisAsNeeded(p0, p) && SamePhis(p, q)
    ensures PhisAsNeeded(p0, q)
  {
    hide HasPhi, Needed, OnFrontier, OnePhiEach;
  }

  /** Deleting instructions that are not phis, and rewriting operands. */
  lemma KeptPhis(p: Code, q: Code, drop: set<Inst>)
    requires q.instrs.Keys == p.instrs.Keys && forall d :: d in p.instrs ==> q.instrs[d] == Keep(p.instrs[d], drop)
    requires forall d, k, i :: IsAt(p, d, k, i) && OpOf(p, i).PhiOp? ==>
               i !in drop && OpOf(q, i).PhiOp? && OpOf(q, i).v == OpOf(p, i).v
    requires forall d, k, i :: IsAt(p, d, k, i) && !OpOf(p, i).PhiOp? && i !in drop ==> !OpOf(q, i).PhiOp?
    ensures SamePhis(p, q)
  {
    hide OpOf;
    forall d, v
      ensures HasPhi(q, d, v) <==> HasPhi(p, d, v)
    {
      if HasPhi(p, d, v) {
        var k :| 0 <= k < |ListOf(p, d)| && IsPhiFor(OpOf(p, ListOf(p, d)[k]), v);
        assert IsAt(p, d, k, p.instrs[d][k]);
        MovedAt(p.instrs[d], drop, k);
        assert IsPhiFor(OpOf(q, ListOf(q, d)[Moved(p.instrs[d], drop, k)]), v);
      }
      if HasPhi(q, d, v) {
        var r :| 0 <= r < |ListOf(q, d)| && IsPhiFor(OpOf(q, ListOf(q, d)[r]), v);
        var k := KeptFrom(p.instrs[d], drop, r);
        assert IsAt(p, d, k, p.instrs[d][k]);
        assert IsPhiFor(OpOf(p, ListOf(p, d)[k]), v);
      }
    }
    if OnePhiEach(p) {
      KeptOnce(p, q, drop);
    }
  }

  lemma KeptOnce(p: Code, q: Code, drop: set<Inst>)
    requires q.instrs.Keys == p.instrs.Keys && forall d :: d in p.instrs ==> q.instrs[d] == Keep(p.instrs[d], drop)
    requires forall d, k, i :: IsAt(p, d, k, i) && OpOf(p, i).PhiOp? ==>
               i !in drop && OpOf(q, i).PhiOp? && OpOf(q, i).v == OpOf(p, i).v
    requires forall d, k, i :: IsAt(p, d, k, i) && !OpOf(p, i).PhiOp? && i !in drop ==> !OpOf(q, i).PhiOp?
    requires OnePhiEach(p)
    ensures OnePhiEach(q)
  {
    hide OpOf;
    forall d, r, s | 0 <= r < s < |ListOf(q, d)| && OpOf(q, ListOf(q, d)[r]).PhiOp? && OpOf(q, ListOf(q, d)[s]).PhiOp?
      ensures OpOf(q, ListOf(q, d)[r]).v != OpOf(q, ListOf(q, d)[s]).v
    {
      var j := KeptFrom(p.instrs[d], drop, r);
      var k := KeptFrom(p.instrs[d], drop, s);
      assert IsAt(p, d, j, p.instrs[d][j]) && IsAt(p, d, k, p.instrs[d][k]);
      if k <= j {
        MovedMonotone(p.instrs[d], drop, k, j);
        assert false;
      }
      assert ListOf(p, d)[j] == ListOf(q, d)[r] && ListOf(p, d)[k] == ListOf(q, d)[s];
    }
  }

  lemma RenamedSamePhis(p: Code, q: Code, t: Tree, n: Names)
    requires RenamedCode(p, q, t, n)
    ensures SamePhis(p, q)
  {
    hide OpOf, WellFormed, Exact, AllNamed, PhisUnused, PhisComplete, UsesDefined, ReplacementsReady, LocalsAreScalars,
         PhisInOrder, SamePhis, PlacedOnce, Tree.Valid;
    RenamedParts(p, q, t, n);
    var drop := n.rho.Keys + n.pushed.Keys;
    forall d, k, i | IsAt(p, d, k, i) && OpOf(p, i).PhiOp?
      ensures i !in drop && OpOf(q, i).PhiOp? && OpOf(q, i).v == OpOf(p, i).v
    {
      OpOfTrimmed(p, q, n.rho, drop, d, k, i);
    }
    forall d, k, i | IsAt(p, d, k, i) && !OpOf(p, i).PhiOp? && i !in drop
      ensures !OpOf(q, i).PhiOp?
    {
      OpOfTrimmed(p, q, n.rho, drop, d, k, i);
      SubstNoPhi(n.rho, OpOf(p, i));
    }
    TrimmedKeeps(p, q, n.rho, drop);
    KeptPhis(p, q, drop);
  }

  lemma SubstNoPhi(sub: map<Inst, Value>, op: Op)
    ensures SubstOp(sub, op).PhiOp? <==> op.PhiOp?
  {
  }

  lemma TrimmedKeeps(p: Code, q: Code, sub: map<Inst, Value>, drop: set<Inst>)
    requires Trimmed(p, q, sub, drop)
    ensures q.instrs.Keys == p.instrs.Keys && forall d :: d in p.instrs ==> q.instrs[d] == Keep(p.instrs[d], drop)
  {
  }

  lemma RemovedSamePhis(p: Code, q: Code)
    requires AllocasRemoved(p, q, p.instrs.Keys)
    ensures SamePhis(p, q)
  {
    hide OpOf, SamePhis;
    var drop := AllAllocas(p);
    forall d | d in p.instrs
      ensures q.instrs[d] == Keep(p.instrs[d], drop)
    {
      AllocasOfBlock(p, p.instrs[d]);
      KeepSame(p.instrs[d], ScalarAllocas(p, p.instrs[d]), drop);
    }
    forall d, k, i | IsAt(p, d, k, i)
      ensures OpOf(q, i) == OpOf(p, i) && (OpOf(p, i).PhiOp? ==> i !in drop)
    {
      SameOps(p, q, i);
      if OpOf(p, i).PhiOp? {
        PhiIsNoAlloca(p, i);
      }
    }
    KeptPhis(p, q, drop);
  }

  lemma PhiIsNoAlloca(p: Code, i: Inst)
    requires OpOf(p, i).PhiOp?
    ensures i !in AllAllocas(p)
  {
  }
}
