/** The dominator pass: immediate dominators and dominance frontiers. */
module DominateTrees {
  import opened FlowGraphs
  import opened DominatorTheory
  import opened DominatorSolvers

  /** What the walk of the frontiers finds at block `x` for block `b`. */
  ghost predicate FrontierFound(g: FlowGraph, x: Block, b: Block) {
    if b != g.entry then g.InFrontier(x, b) else EntryFound(g, x)
  }

  /** The entry is found only with two edges back to it, and never by itself. */
  ghost predicate EntryFound(g: FlowGraph, x: Block) {
    && g.entry in g.preds && |g.preds[g.entry]| >= 2 && x != g.entry
    && exists p :: p in g.preds[g.entry] && g.Dominates(x, p)
  }

  lemma RunnersFind(g: FlowGraph, t: Tree, b: Block, x: Block)
    requires Exact(g, t) && b in t.parent
    ensures t.Valid() && (RunnerMeets(g, t, b, x) <==> FrontierFound(g, x, b))
  {
    if b != g.entry {
      RunnersFindFrontier(g, t, b, x);
    } else {
      hide Exact;
      ExactAt(g, t, b, b, x);
      assert t.parent[b] == b by { RootIsOwnParent(g, t); }
      assert t.OnChain(x, b) <==> x == b;
      forall p | p in g.preds[b]
        ensures p in t.parent && (t.OnChain(x, p) <==> g.Dominates(x, p))
      {
        ExactAt(g, t, b, p, x);
      }
      if EntryFound(g, x) {
        var p :| p in g.preds[b] && g.Dominates(x, p);
        assert MeetsFrom(t, p, b, x);
      }
      if RunnerMeets(g, t, b, x) {
        var p :| p in g.preds[b] && MeetsFrom(t, p, b, x);
      }
    }
  }

  lemma RootIsOwnParent(g: FlowGraph, t: Tree)
    requires Exact(g, t)
    ensures t.root in t.parent && t.parent[t.root] == t.root
  {
  }

  /** The walk computes the dominance frontier of every block exactly when
      nothing branches back to the entry. */
  lemma FrontierExactIff(g: FlowGraph)
    requires g.Valid() && g.AllReachable()
    ensures (forall x, b :: b in g.succs ==> (FrontierFound(g, x, b) <==> g.InFrontier(x, b)))
            <==> g.preds[g.entry] == []
  {
    var e := g.entry;
    if g.preds[e] != [] {
      var p := g.preds[e][0];
      EntryDominates(g, p);
      assert p in g.preds[e] && g.Dominates(e, p);
      assert g.InFrontier(e, e) && !FrontierFound(g, e, e);
    }
  }

  /** What an exact table says about every reachable block. */
  ghost predicate HoldsIdoms(g: FlowGraph, idom: map<Block, Block>) {
    && g.entry in idom && idom[g.entry] == g.entry
    && forall b :: b in g.succs && g.Reachable(b) ==>
         b in idom && (b != g.entry ==> g.IsImmediateDominator(idom[b], b))
  }

  lemma ExactHoldsIdoms(g: FlowGraph, t: Tree)
    requires Exact(g, t)
    ensures t.Valid() && HoldsIdoms(g, t.parent) && t.parent.Keys == t.rank.Keys
    ensures forall b :: b in t.rank <==> b in g.succs && g.Reachable(b)
  {
    RootIsOwnParent(g, t);
    forall b | b in t.parent && b != g.entry
      ensures g.IsImmediateDominator(t.parent[b], b)
    {
      ParentIsImmediateDominator(g, t, b);
    }
  }

  lemma HoldsIdomsOf(g: FlowGraph, t: Tree, idom: map<Block, Block>)
    requires HoldsIdoms(g, t.parent)
    requires forall b :: b in t.parent ==> b in idom && idom[b] == t.parent[b]
    ensures HoldsIdoms(g, idom)
  {
  }

  /** What the walk adds to the frontiers of all blocks. */
  ghost predicate FrontiersAdded(g: FlowGraph, before: map<Block, set<Block>>, after: map<Block, set<Block>>) {
    && after.Keys == before.Keys
    && forall x, b {:trigger b in after[x]} :: x in before && x in g.succs ==>
         (b in after[x] <==> (b in before[x] || (b in g.succs && FrontierFound(g, x, b))))
  }

  lemma WalkedAt(g: FlowGraph, t: Tree, blocks: seq<Block>, before: map<Block, set<Block>>,
                 after: map<Block, set<Block>>, x: Block, b: Block)
    requires Walked(g, t, blocks, before, after) && x in before
    ensures t.Valid() && after.Keys == before.Keys
            && (b in after[x] <==> (b in before[x] || (b in blocks && RunnerMeets(g, t, b, x))))
  {
    hide RunnerMeets, DominatorTheory.Tree.Valid;
  }

  lemma WalkedIsAdded(g: FlowGraph, t: Tree, blocks: seq<Block>, before: map<Block, set<Block>>,
                      after: map<Block, set<Block>>)
    requires Exact(g, t) && g.AllReachable()
    requires forall b :: b in blocks <==> b in g.succs
    requires Walked(g, t, blocks, before, after)
    ensures FrontiersAdded(g, before, after)
  {
    hide Exact, RunnerMeets, FrontierFound, DominatorTheory.Tree.Valid, FlowGraph.AllReachable, Walked;
    WalkedKeys(g, t, blocks, before, after);
    forall x, b {:trigger b in after[x]} | x in before && x in g.succs
      ensures b in after[x] <==> (b in before[x] || (b in g.succs && FrontierFound(g, x, b)))
    {
      WalkedAt(g, t, blocks, before, after, x, b);
      if b in g.succs {
        InTree(g, t, b);
        RunnersFind(g, t, b, x);
      }
    }
  }

  lemma InTree(g: FlowGraph, t: Tree, b: Block)
    requires Exact(g, t) && g.AllReachable() && b in g.succs
    ensures b in t.parent
  {
    assert g.Reachable(b);
  }

  class DominateTree {
    const solver: DominatorSolver
    /** `idom_` and `dom_frontier_` of every block of the function. */
    var idom: map<Block, Block>
    var domFrontier: map<Block, set<Block>>

    /** For a function whose blocks have not been analysed yet. */
    constructor (blocks: seq<Block>)
      ensures fresh(solver) && idom == map[]
      ensures forall b :: b in domFrontier <==> b in blocks
      ensures forall b :: b in domFrontier ==> domFrontier[b] == {}
    {
      solver := new DominatorSolver();
      idom, domFrontier := map[], map b | b in blocks :: {};
    }

    method GetBbIdom(g: FlowGraph)
      requires g.Valid() && PredsReachable(g)
      modifies this`idom, solver
      ensures solver.Ready(g) && Exact(g, solver.Table(g))
      ensures HoldsIdoms(g, idom)
      ensures forall b :: b in old(idom) && !(b in g.succs && g.Reachable(b)) ==> b in idom && idom[b] == old(idom)[b]
    {
      hide Exact, HoldsIdoms, DominatorSolver.Ready, PredsReachable;
      solver.Solve(g);
      ghost var t := solver.Table(g);
      ExactHoldsIdoms(g, t);
      idom := SetIdoms(g, idom);
      HoldsIdomsOf(g, t, idom);
    }

    /** The `set_idom` loop. */
    method SetIdoms(g: FlowGraph, before: map<Block, Block>) returns (after: map<Block, Block>)
      requires EntryFirst(g, solver.reversePostOrder, solver.bb2int)
      requires solver.Ready(g) && solver.Table(g).parent.Keys == solver.bb2int.Keys
      ensures forall b :: b in solver.bb2int ==> b in after && after[b] == solver.Table(g).parent[b]
      ensures forall b :: b in before && b !in solver.bb2int ==> b in after && after[b] == before[b]
    {
      hide DominatorTheory.Tree.Valid;
      var order := solver.reversePostOrder;
      ghost var t := solver.Table(g);
      after := before;
      for i := 0 to |order|
        invariant forall j :: 0 <= j < i ==> order[j] in after && after[order[j]] == t.parent[order[j]]
        invariant forall b :: b in before && b !in t.rank ==> b in after && after[b] == before[b]
      {
        assert order[i] in t.parent;
        after := after[order[i] := solver.doms[solver.bb2int[order[i]]].value];
      }
      AllVisited(g, order, t.rank);
    }

    method GetBbDomFront(g: FlowGraph, blocks: seq<Block>)
      requires solver.Ready(g) && Exact(g, solver.Table(g))
      requires forall b :: b in blocks <==> b in g.succs
      requires g.AllReachable() && g.succs.Keys <= domFrontier.Keys
      modifies this`domFrontier
      ensures FrontiersAdded(g, old(domFrontier), domFrontier)
    {
      hide Exact, Walked, FrontiersAdded, DominatorTheory.Tree.Valid, DominatorSolver.Ready;
      ghost var t := solver.Table(g);
      ExactHoldsIdoms(g, t);
      var after := solver.WalkFrontiers(g, blocks, domFrontier);
      assert solver.Table(g) == t;
      WalkedIsAdded(g, t, blocks, domFrontier, after);
      domFrontier := after;
    }

    /** The pass on one function. */
    method Execute(g: FlowGraph, blocks: seq<Block>)
      requires g.Valid() && g.AllReachable()
      requires forall b :: b in blocks <==> b in g.succs
      requires g.succs.Keys <= domFrontier.Keys
      modifies this`idom, this`domFrontier, solver
      ensures HoldsIdoms(g, idom) && solver.Ready(g) && Exact(g, solver.Table(g))
      ensures FrontiersAdded(g, old(domFrontier), domFrontier)
    {
      hide Exact, HoldsIdoms, FrontiersAdded, DominatorSolver.Ready;
      GetBbIdom(g);
      GetBbDomFront(g, blocks);
    }
  }
}
