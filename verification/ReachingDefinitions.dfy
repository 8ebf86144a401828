/** What the phis on the iterated dominance frontier buy: at every block without a
    phi for a local, all paths arrive with the same last definition of it. */
module ReachingDefinitions {
  import opened FlowGraphs
  import opened DominatorTheory
  import opened Ir
  import opened Semantics
  import opened Substitutions
  import opened PhiInsertion
  import opened PhiPlacement

  ghost predicate IsPhiFor(op: Op, v: Inst) {
    op.PhiOp? && op.v == v
  }

  ghost predicate HasPhi(code: Code, b: Block, v: Inst) {
    exists k :: 0 <= k < |ListOf(code, b)| && IsPhiFor(OpOf(code, ListOf(code, b)[k]), v)
  }

  ghost function PhisOf(code: Code, v: Inst): set<Block> {
    set b | b in code.instrs && HasPhi(code, b, v)
  }

  /** A store or a phi of the block gives the local a new value. */
  ghost predicate Defines(code: Code, b: Block, v: Inst) {
    Stores(code, b, v) || HasPhi(code, b, v)
  }

  /** The phis stand ahead of all other instructions of their block, no two for
      the same local, only for locals that are loaded, and never in the entry. */
  ghost predicate PhisInOrder(code: Code) {
    && (forall b, j, k, i, x :: IsAt(code, b, j, i) && IsAt(code, b, k, x) && j < k && OpOf(code, x).PhiOp? ==>
          OpOf(code, i).PhiOp? && OpOf(code, i).v != OpOf(code, x).v)
    && (forall b, j, i :: IsAt(code, b, j, i) && OpOf(code, i).PhiOp? ==>
          Loaded(code, OpOf(code, i).v) && b != code.cfg.entry)
  }

  ghost predicate PhisComplete(code: Code) {
    forall v :: Loaded(code, v) ==> ClosedUnderFrontier(code.cfg, Defs(code, v), PhisOf(code, v))
  }

  /** What `genPhi` leaves to the renaming. */
  ghost predicate PhiReady(code: Code) {
    && WellFormed(code) && PhisUnused(code) && StoreBeforeLoad(code)
    && PhisInOrder(code) && PhisComplete(code)
  }

  // ----- between a predecessor of a block and its immediate dominator -----

  /** No block on the way up from a predecessor of `b` to the immediate dominator
      of `b` defines `v`, when `b` has no phi for it. */
  lemma NoDefBetween(code: Code, t: Tree, q: Block, b: Block, c: Block, v: Inst)
    requires WellFormed(code) && PhisComplete(code) && Exact(code.cfg, t) && Loaded(code, v)
    requires b in t.parent && b != t.root && q in code.cfg.preds[b] && !HasPhi(code, b, v)
    requires q in t.parent && t.parent[b] in t.parent && t.OnChain(c, q) && !t.OnChain(c, t.parent[b])
    ensures !Defines(code, c, v)
  {
    CfgOf(code, b);
    hide WellFormed, HasPhi, Stores, Loaded;
    ExactAt(code.cfg, t, b, q, c);
    StrictDominatorsOnParentChain(code.cfg, t, b, c);
    hide Exact;
    ChainRanks(t, q, c);
    DominatorIsBlock(code, t, c);
    assert Defines(code, c, v) ==> c in Defs(code, v) || c in PhisOf(code, v);
    assert code.cfg.InFrontier(c, b);
    assert b !in PhisOf(code, v);
  }

  lemma DominatorIsBlock(code: Code, t: Tree, c: Block)
    requires WellFormed(code) && Exact(code.cfg, t) && c in t.parent
    ensures c in code.instrs && c in code.cfg.succs && c in code.cfg.preds
  {
    CfgOf(code, c);
    hide WellFormed;
    assert c in t.rank;
  }

  // ----- the last definition on a path -----

  /** The nearest dominator of `b`, itself included, that defines `v`. */
  ghost function NearestDef(code: Code, t: Tree, b: Block, v: Inst): Option<Block>
    requires t.Valid() && b in t.parent
    decreases t.rank[t.root] - t.rank[b]
  {
    if Defines(code, b, v) then Some(b)
    else if b == t.root then None
    else NearestDef(code, t, t.parent[b], v)
  }

  /** The last block of the path that defines `v`. */
  ghost function LastDefOn(code: Code, path: seq<Block>, v: Inst): Option<Block> {
    if path == [] then None
    else if Defines(code, path[|path| - 1], v) then Some(path[|path| - 1])
    else LastDefOn(code, path[..|path| - 1], v)
  }

  lemma {:induction false} ClimbNearest(code: Code, t: Tree, q: Block, d: Block, v: Inst)
    requires t.Valid() && q in t.parent && d in t.parent && t.OnChain(d, q)
    requires forall c :: t.OnChain(c, q) && !t.OnChain(c, d) ==> !Defines(code, c, v)
    ensures NearestDef(code, t, q, v) == NearestDef(code, t, d, v)
    decreases t.rank[t.root] - t.rank[q]
  {
    hide Defines;
    if q != d {
      ChainRanks(t, q, d);
      if t.OnChain(q, d) { ChainRanks(t, d, q); }
      ClimbNearest(code, t, t.parent[q], d, v);
    }
  }

  lemma EdgeNearest(code: Code, t: Tree, q: Block, b: Block, v: Inst)
    requires WellFormed(code) && PhisComplete(code) && Exact(code.cfg, t) && Loaded(code, v)
    requires b in t.parent && b in code.cfg.preds && q in code.cfg.preds[b] && !Defines(code, b, v)
    ensures t.Valid() && q in t.parent && NearestDef(code, t, q, v) == NearestDef(code, t, b, v)
  {
    CfgOf(code, b);
    EntryHasNoPreds(code);
    hide WellFormed, PhisComplete, Loaded, Stores, HasPhi;
    ParentOnPredChain(code.cfg, t, b, q);
    ExactAt(code.cfg, t, b, q, q);
    hide Exact;
    forall c | t.OnChain(c, q) && !t.OnChain(c, t.parent[b])
      ensures !Defines(code, c, v)
    {
      NoDefBetween(code, t, q, b, c, v);
    }
    ClimbNearest(code, t, q, t.parent[b], v);
  }

  lemma EntryHasNoPreds(code: Code)
    requires WellFormed(code)
    ensures code.cfg.entry in code.cfg.preds && code.cfg.preds[code.cfg.entry] == []
  {
  }

  lemma PathStepBack(g: FlowGraph, path: seq<Block>, b: Block)
    requires g.Valid() && g.PathFromTo(path, g.entry, b) && |path| > 1
    ensures g.PathFromTo(path[..|path| - 1], g.entry, path[|path| - 2])
    ensures b in g.preds && path[|path| - 2] in g.preds[b]
  {
    PathPrefix(g, path, |path| - 2);
    assert path[|path| - 1] in g.succs[path[|path| - 2]];
  }

  /** On every path the last definition is the one a walk up the dominator tree finds. */
  lemma {:induction false} LastDefIsNearest(code: Code, t: Tree, path: seq<Block>, b: Block, v: Inst)
    requires WellFormed(code) && PhisComplete(code) && Exact(code.cfg, t) && Loaded(code, v)
    requires code.cfg.PathFromTo(path, code.cfg.entry, b)
    ensures t.Valid() && b in t.parent && LastDefOn(code, path, v) == NearestDef(code, t, b, v)
    decreases |path|
  {
    CfgOf(code, b);
    hide WellFormed, PhisComplete, Loaded, Defines;
    TreeCovers(code, t, b);
    if |path| > 1 {
      if !Defines(code, b, v) {
        PathStepBack(code.cfg, path, b);
        var q := path[|path| - 2];
        EdgeNearest(code, t, q, b, v);
        LastDefIsNearest(code, t, path[..|path| - 1], q, v);
        EntryHasNoPreds(code);
      }
    }
  }

  lemma TreeCovers(code: Code, t: Tree, b: Block)
    requires WellFormed(code) && Exact(code.cfg, t)
    ensures t.Valid() && t.root == code.cfg.entry && t.root in t.parent && (b in t.parent <==> b in code.instrs)
  {
    CfgOf(code, b);
    hide WellFormed;
    assert b in t.rank <==> b in code.cfg.succs && code.cfg.Reachable(b);
  }

  /** All paths to a block without a phi for `v` arrive with the same last definition. */
  lemma UniqueReachingDefinition(code: Code, t: Tree, p: seq<Block>, p': seq<Block>, b: Block, v: Inst)
    requires WellFormed(code) && PhisComplete(code) && Exact(code.cfg, t) && Loaded(code, v)
    requires code.cfg.PathFromTo(p, code.cfg.entry, b) && code.cfg.PathFromTo(p', code.cfg.entry, b)
             && !HasPhi(code, b, v)
    ensures LastDefOn(code, p[..|p| - 1], v) == LastDefOn(code, p'[..|p'| - 1], v)
  {
    if b == code.cfg.entry {
      OnlyEntryPath(code, p);
      OnlyEntryPath(code, p');
    } else {
      ArrivesFromDominator(code, t, p, b, v);
      ArrivesFromDominator(code, t, p', b, v);
    }
  }

  lemma OnlyEntryPath(code: Code, p: seq<Block>)
    requires WellFormed(code) && code.cfg.PathFromTo(p, code.cfg.entry, code.cfg.entry)
    ensures |p| == 1
  {
    CfgOf(code, code.cfg.entry);
    EntryHasNoPreds(code);
    hide WellFormed;
    if |p| > 1 {
      PathStepBack(code.cfg, p, code.cfg.entry);
    }
  }

  lemma ArrivesFromDominator(code: Code, t: Tree, p: seq<Block>, b: Block, v: Inst)
    requires WellFormed(code) && PhisComplete(code) && Exact(code.cfg, t) && Loaded(code, v)
    requires code.cfg.PathFromTo(p, code.cfg.entry, b) && b != code.cfg.entry && !HasPhi(code, b, v)
    ensures t.Valid() && b in t.parent && t.parent[b] in t.parent
    ensures LastDefOn(code, p[..|p| - 1], v) == NearestDef(code, t, t.parent[b], v)
  {
    CfgOf(code, b);
    hide WellFormed, PhisComplete, Loaded, HasPhi, Stores;
    TreeCovers(code, t, b);
    assert b in code.cfg.succs;
    PathStepBack(code.cfg, p, b);
    var q := p[|p| - 2];
    LastDefIsNearest(code, t, p[..|p| - 1], q, v);
    ParentOnPredChain(code.cfg, t, b, q);
    hide Exact;
    forall c | t.OnChain(c, q) && !t.OnChain(c, t.parent[b])
      ensures !Defines(code, c, v)
    {
      NoDefBetween(code, t, q, b, c, v);
    }
    ClimbNearest(code, t, q, t.parent[b], v);
  }
}
