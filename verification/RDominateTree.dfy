/** The post-dominator pass: the shared solver run on the reversed graph. */
module RDominateTrees {
  import opened FlowGraphs
  import opened DominatorTheory
  import opened DominatorSolvers

  /** Every path from `b` to the exit goes through `a`. */
  ghost predicate PostDominates(g: FlowGraph, exit: Block, a: Block, b: Block) {
    forall p :: g.PathFromTo(p, b, exit) ==> a in p
  }

  ghost predicate ReachesExit(g: FlowGraph, exit: Block, b: Block) {
    exists p :: g.PathFromTo(p, b, exit)
  }

  /** `b` is where the post-dominance of `x` begins. */
  ghost predicate InReverseFrontier(g: FlowGraph, exit: Block, x: Block, b: Block) {
    && b in g.succs
    && (exists s :: s in g.succs[b] && PostDominates(g, exit, x, s))
    && !(x != b && PostDominates(g, exit, x, b))
  }

  /** What the pass needs of a block that ends in `ret`. */
  ghost predicate IsExit(g: FlowGraph, exit: Block) {
    && exit in g.succs && g.succs[exit] == []
    && forall b :: b in g.succs ==> ReachesExit(g, exit, b)
  }

  /** Dominance in the reversed graph is post-dominance. */
  lemma ReverseDominates(g: FlowGraph, exit: Block, a: Block, b: Block)
    requires g.Valid()
    ensures g.Reverse(exit).Dominates(a, b) <==> PostDominates(g, exit, a, b)
  {
    var h := g.Reverse(exit);
    if h.Dominates(a, b) {
      forall p | g.PathFromTo(p, b, exit)
        ensures a in p
      {
        ReversedPath(g, exit, p, b, exit);
        assert a in Reversed(p);
      }
    }
    if PostDominates(g, exit, a, b) {
      forall p | h.PathFromTo(p, exit, b)
        ensures a in p
      {
        assert Reversed(Reversed(p)) == p;
        ReversedPath(g, exit, Reversed(p), b, exit);
        assert a in Reversed(p);
      }
    }
  }

  lemma ReverseReachable(g: FlowGraph, exit: Block, b: Block)
    requires g.Valid()
    ensures g.Reverse(exit).Reachable(b) <==> ReachesExit(g, exit, b)
  {
    var h := g.Reverse(exit);
    if ReachesExit(g, exit, b) {
      var p :| g.PathFromTo(p, b, exit);
      ReversedPath(g, exit, p, b, exit);
    }
    if h.Reachable(b) {
      var p :| h.PathFromTo(p, exit, b);
      assert Reversed(Reversed(p)) == p;
      ReversedPath(g, exit, Reversed(p), b, exit);
    }
  }

  lemma ReverseFrontier(g: FlowGraph, exit: Block, x: Block, b: Block)
    requires g.Valid()
    ensures g.Reverse(exit).InFrontier(x, b) <==> InReverseFrontier(g, exit, x, b)
  {
    forall a, c
      ensures g.Reverse(exit).Dominates(a, c) <==> PostDominates(g, exit, a, c)
    {
      ReverseDominates(g, exit, a, c);
    }
    hide FlowGraph.Dominates, PostDominates;
  }

  /** `doms` is the set of post-dominators of `b` other than the exit; the exit has none. */
  ghost predicate IsRdoms(g: FlowGraph, exit: Block, b: Block, doms: set<Block>) {
    forall a :: a in doms <==> (b != exit && a != exit && PostDominates(g, exit, a, b))
  }

  lemma NothingDominatesExit(g: FlowGraph, exit: Block)
    ensures IsRdoms(g, exit, exit, {})
  {
  }

  lemma RdomsJoined(g: FlowGraph, exit: Block, b: Block, before: set<Block>, chain: set<Block>)
    requires IsRdoms(g, exit, b, chain) && (before == {} || IsRdoms(g, exit, b, before))
    ensures IsRdoms(g, exit, b, before + chain)
  {
    hide PostDominates;
  }

  ghost predicate HoldsRdoms(g: FlowGraph, exit: Block, rdoms: map<Block, set<Block>>) {
    forall b :: b in g.succs ==> b in rdoms && IsRdoms(g, exit, b, rdoms[b])
  }

  /** The blocks in `done` have their post-dominators, the others nothing. */
  ghost predicate RdomsSoFar(g: FlowGraph, exit: Block, done: seq<Block>, rdoms: map<Block, set<Block>>) {
    forall b :: b in g.succs ==> b in rdoms && if b in done then IsRdoms(g, exit, b, rdoms[b]) else rdoms[b] == {}
  }

  lemma NoRdomsYet(g: FlowGraph, exit: Block, rdoms: map<Block, set<Block>>)
    requires forall b :: b in g.succs ==> b in rdoms && rdoms[b] == {}
    ensures RdomsSoFar(g, exit, [], rdoms)
  {
    hide IsRdoms;
  }

  lemma RdomsHere(g: FlowGraph, exit: Block, done: seq<Block>, rdoms: map<Block, set<Block>>, bb: Block)
    requires RdomsSoFar(g, exit, done, rdoms) && bb in g.succs
    ensures bb in rdoms && (rdoms[bb] == {} || IsRdoms(g, exit, bb, rdoms[bb]))
    ensures bb == exit ==> IsRdoms(g, exit, bb, rdoms[bb])
  {
    hide IsRdoms;
    NothingDominatesExit(g, exit);
  }

  lemma RdomsNext(g: FlowGraph, exit: Block, done: seq<Block>, rdoms: map<Block, set<Block>>, bb: Block,
                  after: set<Block>)
    requires RdomsSoFar(g, exit, done, rdoms) && IsRdoms(g, exit, bb, after)
    ensures RdomsSoFar(g, exit, done + [bb], rdoms[bb := after])
  {
    hide IsRdoms;
  }

  lemma RdomsDone(g: FlowGraph, exit: Block, done: seq<Block>, rdoms: map<Block, set<Block>>)
    requires RdomsSoFar(g, exit, done, rdoms) && forall b :: b in g.succs ==> b in done
    ensures HoldsRdoms(g, exit, rdoms)
  {
    hide IsRdoms;
  }

  ghost predicate HoldsReverseFrontiers(g: FlowGraph, exit: Block, frontier: map<Block, set<Block>>) {
    && g.succs.Keys <= frontier.Keys
    && forall x, b :: x in g.succs && b in g.succs ==>
         (b in frontier[x] <==> InReverseFrontier(g, exit, x, b))
  }

  lemma ChainIsRdoms(g: FlowGraph, exit: Block, t: Tree, bb: Block, chain: set<Block>)
    requires g.Valid() && Exact(g.Reverse(exit), t) && bb in t.parent && bb != exit && exit in t.parent
    requires ChainSoFar(t, bb, exit, chain)
    ensures IsRdoms(g, exit, bb, chain)
  {
    var h := g.Reverse(exit);
    forall a
      ensures MeetsFrom(t, bb, exit, a) <==> a != exit && PostDominates(g, exit, a, bb)
    {
      ReverseDominates(g, exit, a, bb);
      assert t.OnChain(a, bb) <==> h.Dominates(a, bb);
      assert t.OnChain(a, exit) <==> a == exit;
    }
  }

  lemma WalkedIsReverseFrontier(g: FlowGraph, exit: Block, t: Tree, blocks: seq<Block>,
                                before: map<Block, set<Block>>, after: map<Block, set<Block>>)
    requires g.Valid() && IsExit(g, exit)
    requires Exact(g.Reverse(exit), t) && t.rank.Keys == g.succs.Keys
    requires forall b :: b in blocks <==> b in g.succs
    requires forall b :: b in g.succs ==> b in before && before[b] == {}
    requires Walked(g.Reverse(exit), t, blocks, before, after)
    ensures HoldsReverseFrontiers(g, exit, after)
  {
    hide DominatorTheory.Tree.Valid, RunnerMeets, InReverseFrontier, Exact;
    forall x, b | x in g.succs && b in g.succs
      ensures RunnerMeets(g.Reverse(exit), t, b, x) <==> InReverseFrontier(g, exit, x, b)
    {
      RunnersFindReverse(g, exit, t, b, x);
    }
  }

  lemma RunnersFindReverse(g: FlowGraph, exit: Block, t: Tree, b: Block, x: Block)
    requires g.Valid() && exit in g.succs && g.succs[exit] == [] && b in g.succs
    requires Exact(g.Reverse(exit), t) && b in t.rank
    ensures t.Valid() && (RunnerMeets(g.Reverse(exit), t, b, x) <==> InReverseFrontier(g, exit, x, b))
  {
    ExactAt(g.Reverse(exit), t, b, b, b);
    ReverseFrontier(g, exit, x, b);
    if b != exit {
      RunnersFindFrontier(g.Reverse(exit), t, b, x);
    }
  }

  lemma NothingMetYet(t: Tree, b: Block)
    requires t.Valid() && b in t.parent
    ensures ChainSoFar(t, b, b, {}) && t.root in t.rank && b in t.rank && t.OnChain(b, b)
  {
  }

  /** The blocks passed on the way from `b` up to `current`. */
  ghost predicate ChainSoFar(t: Tree, b: Block, current: Block, chain: set<Block>)
    requires t.Valid()
  {
    forall a :: a in chain <==> MeetsFrom(t, b, current, a)
  }

  lemma ChainGrows(t: Tree, b: Block, current: Block, chain: set<Block>)
    requires t.Valid() && current in t.parent && ChainSoFar(t, b, current, chain)
    requires forall x :: MeetsFrom(t, b, t.parent[current], x) <==> MeetsFrom(t, b, current, x) || x == current
    ensures ChainSoFar(t, b, t.parent[current], chain + {current})
  {
    hide MeetsFrom, DominatorTheory.Tree.Valid;
  }

  lemma ReversedElements(blocks: seq<Block>)
    ensures forall b :: b in Reversed(blocks) <==> b in blocks
  {
    forall b | b in blocks
      ensures b in Reversed(blocks)
    {
      var i :| 0 <= i < |blocks| && blocks[i] == b;
      assert Reversed(blocks)[|blocks| - 1 - i] == b;
    }
  }

  /** The reversed graph meets the solver's demands when every block reaches the exit. */
  lemma ReverseReady(g: FlowGraph, exit: Block)
    requires g.Valid() && IsExit(g, exit)
    ensures g.Reverse(exit).Valid() && PredsReachable(g.Reverse(exit))
  {
    hide ReachesExit, FlowGraph.Reachable;
    forall b | b in g.succs
      ensures g.Reverse(exit).Reachable(b)
    {
      ReverseReachable(g, exit, b);
    }
  }

  lemma ExactCovers(g: FlowGraph, exit: Block, t: Tree)
    requires g.Valid() && IsExit(g, exit) && Exact(g.Reverse(exit), t)
    ensures t.rank.Keys == g.succs.Keys
  {
    hide ReachesExit, FlowGraph.Reachable, DominatorTheory.Tree.Valid;
    forall b | b in g.succs
      ensures b in t.rank
    {
      ReverseReachable(g, exit, b);
    }
  }

  datatype Outcome = Analysed | NoExit | StaleExit

  class RDominateTree {
    const solver: DominatorSolver
    var exitBlock: Option<Block>
    /** `rdoms_` and `rdom_frontier_` of every block of the function. */
    var rdoms: map<Block, set<Block>>
    var rdomFrontier: map<Block, set<Block>>

    constructor ()
      ensures fresh(solver) && exitBlock == None && rdoms == map[] && rdomFrontier == map[]
    {
      solver := new DominatorSolver();
      exitBlock, rdoms, rdomFrontier := None, map[], map[];
    }

    /** The first block that ends in a `ret`; an earlier answer stays if there is none. */
    method FindExit(blocks: seq<Block>, rets: set<Block>) returns (found: bool)
      modifies this`exitBlock
      ensures found <==> exists b :: b in blocks && b in rets
      ensures (forall b :: b in blocks ==> b !in rets) ==> exitBlock == old(exitBlock)
      ensures (exists b :: b in blocks && b in rets) ==>
        exists i :: 0 <= i < |blocks| && exitBlock == Some(blocks[i]) && blocks[i] in rets
                    && forall j :: 0 <= j < i ==> blocks[j] !in rets
    {
      var i := 0;
      while i < |blocks|
        invariant 0 <= i <= |blocks|
        invariant forall j :: 0 <= j < i ==> blocks[j] !in rets
      {
        if blocks[i] in rets {
          exitBlock := Some(blocks[i]);
          return true;
        }
        i := i + 1;
      }
      found := false;
    }

    /** Post-dominators, read off the parents. */
    method GetBbRdoms(g: FlowGraph, exit: Block, blocks: seq<Block>)
      requires g.Valid() && exit in g.succs
      requires solver.Ready(g.Reverse(exit)) && Exact(g.Reverse(exit), solver.Table(g.Reverse(exit)))
      requires solver.bb2int.Keys == g.succs.Keys
      requires forall b :: b in blocks <==> b in g.succs
      requires forall b :: b in g.succs ==> b in rdoms && rdoms[b] == {}
      modifies this`rdoms
      ensures HoldsRdoms(g, exit, rdoms)
    {
      hide Exact, DominatorTheory.Tree.Valid, IsRdoms, RdomsSoFar, HoldsRdoms, DominatorSolver.Ready;
      NoRdomsYet(g, exit, rdoms);
      for i := 0 to |blocks|
        invariant RdomsSoFar(g, exit, blocks[..i], rdoms)
      {
        var bb := blocks[i];
        RdomsHere(g, exit, blocks[..i], rdoms, bb);
        assert blocks[..i + 1] == blocks[..i] + [bb];
        var after := rdoms[bb];
        if bb != exit {
          var chain := RdomsOf(g, exit, bb);
          RdomsJoined(g, exit, bb, rdoms[bb], chain);
          after := after + chain;
        }
        RdomsNext(g, exit, blocks[..i], rdoms, bb, after);
        rdoms := rdoms[bb := after];
      }
      assert blocks[..|blocks|] == blocks;
      RdomsDone(g, exit, blocks, rdoms);
    }

    /** The inner walk, from `bb` up to the exit. */
    method RdomsOf(g: FlowGraph, exit: Block, bb: Block) returns (chain: set<Block>)
      requires g.Valid() && exit in g.succs && bb in g.succs && bb != exit
      requires solver.Ready(g.Reverse(exit)) && Exact(g.Reverse(exit), solver.Table(g.Reverse(exit)))
      requires solver.bb2int.Keys == g.succs.Keys
      ensures IsRdoms(g, exit, bb, chain)
    {
      hide Exact, PostDominates, MeetsFrom, ChainSoFar, DominatorTheory.Tree.Valid, IsRdoms;
      ghost var t := solver.Table(g.Reverse(exit));
      ExactAt(g.Reverse(exit), t, bb, bb, bb);
      var current := bb;
      chain := {};
      NothingMetYet(t, bb);
      while current != exit
        invariant current in t.parent && t.root in t.rank && current in t.rank && t.OnChain(current, bb)
        invariant ChainSoFar(t, bb, current, chain)
        decreases t.rank[t.root] - t.rank[current]
      {
        RunnerStep(t, bb, current);
        ChainGrows(t, bb, current, chain);
        chain := chain + {current};
        current := solver.doms[solver.bb2int[current]].value;
      }
      ChainIsRdoms(g, exit, t, bb, chain);
    }

    /** `clear_rdom` or `clear_rdom_frontier` on every block. */
    method Cleared(blocks: seq<Block>, before: map<Block, set<Block>>) returns (after: map<Block, set<Block>>)
      ensures forall b :: b in blocks ==> b in after && after[b] == {}
    {
      after := before;
      for i := 0 to |blocks|
        invariant forall j :: 0 <= j < i ==> blocks[j] in after && after[blocks[j]] == {}
      {
        after := after[blocks[i] := {}];
      }
    }

    /** The pass on one function. If no block of it ends in `ret`, the pass ends the
        program when it has not seen an exit block before; when it has, it takes that
        block of another function for this one's, and what follows is not modelled. */
    method Execute(g: FlowGraph, blocks: seq<Block>, rets: set<Block>) returns (outcome: Outcome)
      requires g.Valid()
      requires forall b :: b in blocks <==> b in g.succs
      requires forall r :: r in rets && r in g.succs ==> IsExit(g, r)
      modifies this`exitBlock, this`rdoms, this`rdomFrontier, solver
      ensures outcome == Analysed <==> exists b :: b in blocks && b in rets
      ensures outcome == Analysed ==> exitBlock.Some? && exitBlock.value in rets && exitBlock.value in g.succs
      ensures outcome == Analysed ==> HoldsRdoms(g, exitBlock.value, rdoms)
      ensures outcome == Analysed ==> HoldsReverseFrontiers(g, exitBlock.value, rdomFrontier)
      ensures outcome != Analysed ==> exitBlock == old(exitBlock) && (outcome == NoExit <==> exitBlock == None)
    {
      hide HoldsRdoms, HoldsReverseFrontiers, Exact, Walked, DominatorSolver.Ready, PredsReachable, ReachesExit,
           FlowGraph.Valid, EntryFirst;
      rdoms := Cleared(blocks, rdoms);
      rdomFrontier := Cleared(blocks, rdomFrontier);
      var found := FindExit(blocks, rets);
      if exitBlock == None {
        return NoExit;
      }
      if !found {
        return StaleExit;
      }
      var exit := exitBlock.value;
      assert IsExit(g, exit);
      ghost var h := g.Reverse(exit);
      ReverseReady(g, exit);
      solver.Solve(g.Reverse(exit));
      ghost var t := solver.Table(h);
      ExactCovers(g, exit, t);
      var after := solver.WalkFrontiers(g.Reverse(exit), Reversed(blocks), rdomFrontier);
      ReversedElements(blocks);
      WalkedIsReverseFrontier(g, exit, t, Reversed(blocks), rdomFrontier, after);
      rdomFrontier := after;
      GetBbRdoms(g, exit, blocks);
      outcome := Analysed;
    }
  }
}
