/** The two passes in the order the optimizer runs them: what the dominator pass
    leaves is what the promotion relies on. */
module Promotion {
  import opened FlowGraphs
  import opened DominatorTheory
  import opened DominateTrees
  import opened Ir
  import opened Semantics
  import opened PhiPlacement
  import opened ForwardingResult
  import opened AllocaRemoval
  import opened PhiOperands
  import opened PhiPresence
  import opened Mem2RegPass
  import opened Lists

  /** Started from empty sets, the dominator pass fills in exactly the frontiers. */
  lemma FrontiersAreTable(g: FlowGraph, before: map<Block, set<Block>>, after: map<Block, set<Block>>)
    requires CfgReady(g) && before.Keys == g.succs.Keys && (forall x :: x in before ==> before[x] == {})
    requires FrontiersAdded(g, before, after)
    ensures FrontierTable(g, after)
  {
    hide FlowGraph.InFrontier, FrontierFound, FlowGraph.Valid;
    FrontierExactIff(g);
    forall x, b | x in after && b in after[x]
      ensures b in g.succs
    {
    }
    forall x, b | x in g.succs
      ensures b in after[x] <==> g.InFrontier(x, b)
    {
      FrontierInGraph(g, x, b);
    }
  }

  lemma FrontierInGraph(g: FlowGraph, x: Block, b: Block)
    requires g.Valid()
    ensures g.InFrontier(x, b) ==> b in g.succs
  {
  }

  lemma FreshIsTidy(fn: Function)
    requires fn.Exact({}) && fn.HasSupply()
    ensures Tidy(fn, {})
  {
  }

  lemma PromotableCfg(code: Code)
    requires Promotable(code)
    ensures CfgReady(code.cfg) && code.instrs.Keys == code.cfg.succs.Keys
  {
  }

  lemma ReadyCfg(g: FlowGraph)
    requires CfgReady(g)
    ensures g.Valid() && g.AllReachable()
  {
  }

  /** Dominators, frontiers and promotion of one function. */
  method PromoteFunction(fn: Function, blocks: seq<Block>)
    requires Promotable(fn.GetCode()) && fn.Exact({}) && fn.HasSupply()
    requires NoDuplicates(blocks) && forall b :: b in blocks <==> b in fn.instrs
    modifies fn
    ensures SameBehaviour(old(fn.GetCode()), fn.GetCode()) && Promoted(fn.GetCode())
            && PhisFed(old(fn.GetCode()), fn.GetCode()) && PhisAsNeeded(old(fn.GetCode()), fn.GetCode())
    ensures forall u, k, v :: Holds(fn.instrs, fn.operands, u, k, v) ==>
              ListedExactly(fn.instrs, fn.operands, UsesOf(fn.uses, v), v)
  {
    hide Promotable, SameBehaviour, Promoted, PhisFed, PhisAsNeeded, Exact, HoldsIdoms, FrontiersAdded, FrontierTable,
         DefUse, Holds, ListedExactly, CfgReady, FlowGraph.Valid, FlowGraph.AllReachable;
    PromotableCfg(fn.GetCode());
    ReadyCfg(fn.cfg);
    FreshIsTidy(fn);
    var dominators := new DominateTree(blocks);
    ghost var before := dominators.domFrontier;
    dominators.Execute(fn.cfg, blocks);
    FrontiersAreTable(fn.cfg, before, dominators.domFrontier);
    var pass := new Mem2Reg(fn);
    pass.Execute(blocks, dominators.domFrontier, dominators.solver.Table(fn.cfg));
  }
}
