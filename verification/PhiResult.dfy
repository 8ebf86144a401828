/** The phis on the iterated dominance frontiers are what the renaming needs. */
module PhiResult {
  import opened FlowGraphs
  import opened Ir
  import opened Semantics
  import opened Substitutions
  import opened PhiInsertion
  import opened PhiPlacement
  import opened ReachingDefinitions

  /** What `genPhi` has done to `p`. */
  ghost predicate PhisInserted(p: Code, q: Code, front: map<Block, seq<Inst>>, phis: map<Block, set<Inst>>) {
    && PhisGenerated(p, q, front, phis)
    && (forall v :: Loaded(p, v) ==> IsIteratedFrontier(p.cfg, Defs(p, v), PhiBlocks(phis, v)))
    && (forall v :: !Loaded(p, v) ==> PhiBlocks(phis, v) == {})
  }

  lemma InsertedParts(p: Code, q: Code, front: map<Block, seq<Inst>>, phis: map<Block, set<Inst>>)
    requires PhisInserted(p, q, front, phis)
    ensures AddedPhis(p, q, front) && q.cfg == p.cfg && q.instrs.Keys == p.instrs.Keys == front.Keys
    ensures forall b :: b in p.instrs ==> FrontHolds(q, PhisAt(phis, b), front[b])
  {
  }

  /** A block has a phi for `v` exactly when `genPhi` noted one. */
  lemma HasPhiIff(p: Code, q: Code, front: map<Block, seq<Inst>>, phis: map<Block, set<Inst>>, b: Block, v: Inst)
    requires PhisInserted(p, q, front, phis) && LocalsAreScalars(p) && NoPhis(p) && b in p.instrs
    ensures HasPhi(q, b, v) <==> v in PhisAt(phis, b)
  {
    hide PhisInserted, OpOf, LocalsAreScalars, AddedPhis;
    InsertedParts(p, q, front, phis);
    if HasPhi(q, b, v) {
      var r :| 0 <= r < |ListOf(q, b)| && IsPhiFor(OpOf(q, ListOf(q, b)[r]), v);
      PhiInFront(p, q, front, b, r);
    }
    if v in PhisAt(phis, b) {
      assert HasPhiOf(q, front[b], v);
      var j :| 0 <= j < |front[b]| && IsPhiOf(q, front[b][j], v);
      assert front[b][j] in front[b];
      NewOp(p, q, front, b, front[b][j]);
      FrontFirst(p, q, front, b, j);
      assert IsPhiFor(OpOf(q, ListOf(q, b)[j]), v);
    }
  }

  lemma FrontFirst(p: Code, q: Code, front: map<Block, seq<Inst>>, b: Block, j: int)
    requires AddedPhis(p, q, front) && b in front && 0 <= j < |front[b]|
    ensures j < |ListOf(q, b)| && ListOf(q, b)[j] == front[b][j]
  {
  }

  /** A phi stands among the new instructions. */
  lemma PhiInFront(p: Code, q: Code, front: map<Block, seq<Inst>>, b: Block, r: int)
    requires AddedPhis(p, q, front) && LocalsAreScalars(p) && NoPhis(p) && b in p.instrs && 0 <= r < |ListOf(q, b)|
    requires OpOf(q, ListOf(q, b)[r]).PhiOp?
    ensures b in front && r < |front[b]| && front[b][r] == ListOf(q, b)[r]
    ensures front[b][r] in q.kind && q.kind[front[b][r]] == Phi(OpOf(q, ListOf(q, b)[r]).v)
  {
    hide OpOf, LocalsAreScalars, AddedPhis;
    var i := ListOf(q, b)[r];
    BlocksOf(p, q, front);
    assert IsAt(q, b, r, i);
    PositionIn(p, q, front, b, r, i);
    if r >= |front[b]| {
      OldOp(p, q, front, b, r - |front[b]|, i);
      assert false;
    } else {
      NewOp(p, q, front, b, i);
      PhiKindOf(q, i);
    }
  }

  lemma BlocksOf(p: Code, q: Code, front: map<Block, seq<Inst>>)
    requires AddedPhis(p, q, front)
    ensures q.instrs.Keys == p.instrs.Keys == front.Keys
  {
  }

  lemma PhiKindOf(q: Code, i: Inst)
    requires OpOf(q, i).PhiOp?
    ensures i in q.kind && q.kind[i] == Phi(OpOf(q, i).v)
  {
  }

  lemma SameLoads(p: Code, q: Code, front: map<Block, seq<Inst>>, v: Inst)
    requires AddedPhis(p, q, front) && LocalsAreScalars(p)
    ensures Loaded(q, v) <==> Loaded(p, v)
  {
    hide OpOf, LocalsAreScalars, AddedPhis;
    BlocksOf(p, q, front);
    if Loaded(p, v) {
      var b :| b in p.instrs && Loads(p, b, v);
      var k :| 0 <= k < |ListOf(p, b)| && OpOf(p, ListOf(p, b)[k]) == ReadVar(v);
      OldOp(p, q, front, b, k, ListOf(p, b)[k]);
      assert OpOf(q, ListOf(q, b)[|front[b]| + k]) == ReadVar(v);
      assert Loads(q, b, v);
    }
    if Loaded(q, v) {
      var b :| b in q.instrs && Loads(q, b, v);
      var r :| 0 <= r < |ListOf(q, b)| && OpOf(q, ListOf(q, b)[r]) == ReadVar(v);
      var i := ListOf(q, b)[r];
      PositionIn(p, q, front, b, r, i);
      if r < |front[b]| {
        NewOp(p, q, front, b, i);
      } else {
        OldOp(p, q, front, b, r - |front[b]|, i);
        assert OpOf(p, ListOf(p, b)[r - |front[b]|]) == ReadVar(v);
        assert Loads(p, b, v);
      }
    }
  }

  /** Phis stand only in blocks with predecessors. */
  lemma PlacedInBlocks(p: Code, s: set<Block>, v: Inst)
    requires WellFormed(p) && IsIteratedFrontier(p.cfg, Defs(p, v), s)
    ensures s <= p.instrs.Keys - {p.cfg.entry}
  {
    CfgOf(p, p.cfg.entry);
    EntryHasNoPreds(p);
    hide WellFormed, Defs;
    assert ClosedUnderFrontier(p.cfg, Defs(p, v), p.instrs.Keys - {p.cfg.entry});
  }

  lemma SamePhiBlocks(p: Code, q: Code, front: map<Block, seq<Inst>>, phis: map<Block, set<Inst>>, v: Inst)
    requires PhisInserted(p, q, front, phis) && WellFormed(p) && NoPhis(p)
    ensures PhisOf(q, v) == PhiBlocks(phis, v) <= p.instrs.Keys - {p.cfg.entry}
  {
    hide PhisGenerated, WellFormed, NoPhis, Loaded, HasPhi, IsIteratedFrontier, Defs;
    WellFormedParts(p);
    if Loaded(p, v) {
      PlacedInBlocks(p, PhiBlocks(phis, v), v);
    }
    hide PhisInserted;
    InsertedParts(p, q, front, phis);
    forall b | b in p.instrs
      ensures HasPhi(q, b, v) <==> v in PhisAt(phis, b)
    {
      HasPhiIff(p, q, front, phis, b, v);
    }
  }

  lemma InsertedInOrder(p: Code, q: Code, front: map<Block, seq<Inst>>, phis: map<Block, set<Inst>>)
    requires PhisInserted(p, q, front, phis) && WellFormed(p) && NoPhis(p)
    ensures PhisInOrder(q)
  {
    hide OpOf, WellFormed, AddedPhis, Loaded, NoPhis, PhisInserted, LocalsAreScalars;
    WellFormedParts(p);
    InsertedParts(p, q, front, phis);
    forall b, j, k, i, x | IsAt(q, b, j, i) && IsAt(q, b, k, x) && j < k && OpOf(q, x).PhiOp?
      ensures OpOf(q, i).PhiOp? && OpOf(q, i).v != OpOf(q, x).v
    {
      PhiInFront(p, q, front, b, k);
      FrontFirst(p, q, front, b, j);
      assert front[b][j] in front[b];
      NewOp(p, q, front, b, i);
      PhiKindOf(q, i);
      assert q.kind[front[b][j]] != q.kind[front[b][k]];
    }
    forall b, j, i | IsAt(q, b, j, i) && OpOf(q, i).PhiOp?
      ensures Loaded(q, OpOf(q, i).v) && b != q.cfg.entry
    {
      var v := OpOf(q, i).v;
      PhiForLoaded(p, q, front, phis, b, j, v);
      SameLoads(p, q, front, v);
    }
  }

  lemma PhiForLoaded(p: Code, q: Code, front: map<Block, seq<Inst>>, phis: map<Block, set<Inst>>, b: Block, j: int,
                     v: Inst)
    requires PhisInserted(p, q, front, phis) && WellFormed(p) && NoPhis(p) && b in q.instrs
    requires 0 <= j < |ListOf(q, b)| && IsPhiFor(OpOf(q, ListOf(q, b)[j]), v)
    ensures Loaded(p, v) && b != p.cfg.entry
  {
    hide OpOf, WellFormed, PhisGenerated, Loaded, NoPhis, IsIteratedFrontier, Defs, PhiBlocks;
    SamePhiBlocks(p, q, front, phis, v);
    assert HasPhi(q, b, v);
    assert b in PhisOf(q, v);
  }

  /** Insertion on the iterated frontiers gives the renaming all it relies on. */
  lemma InsertedIsReady(p: Code, q: Code, front: map<Block, seq<Inst>>, phis: map<Block, set<Inst>>)
    requires PhisInserted(p, q, front, phis) && WellFormed(p) && NoPhis(p) && StoreBeforeLoad(p)
    ensures PhiReady(q) && SameBehaviour(p, q)
  {
    hide OpOf, WellFormed, AddedPhis, Loaded, NoPhis, LocalsAreScalars, StoreBeforeLoad, PhisGenerated,
         IsIteratedFrontier, Defs, PhiBlocks, PhisOf, PhisUnused, PhisInOrder, SameBehaviour, Stores;
    WellFormedParts(p);
    InsertedParts(p, q, front, phis);
    WellFormedAdded(p, q, front);
    StoreBeforeLoadAdded(p, q, front);
    InsertedInOrder(p, q, front, phis);
    AddedSameBehaviour(p, q, front);
    forall v | Loaded(q, v)
      ensures ClosedUnderFrontier(q.cfg, Defs(q, v), PhisOf(q, v))
    {
      SameLoads(p, q, front, v);
      SamePhiBlocks(p, q, front, phis, v);
      SameDefs(p, q, front, v);
      ClosedOf(p.cfg, Defs(p, v), PhiBlocks(phis, v));
    }
  }

  lemma ClosedOf(g: FlowGraph, defs: set<Block>, s: set<Block>)
    requires IsIteratedFrontier(g, defs, s)
    ensures ClosedUnderFrontier(g, defs, s)
  {
  }

  lemma SameDefs(p: Code, q: Code, front: map<Block, seq<Inst>>, v: Inst)
    requires AddedPhis(p, q, front) && LocalsAreScalars(p)
    ensures Defs(q, v) == Defs(p, v)
  {
    hide AddedPhis, LocalsAreScalars, Stores;
    BlocksOf(p, q, front);
    forall b
      ensures Stores(q, b, v) <==> Stores(p, b, v)
    {
      StoresAdded(p, q, front, b, v);
    }
  }

  /** The new phis have no operands yet. */
  ghost predicate PhisEmpty(code: Code) {
    forall b, k, i :: IsAt(code, b, k, i) && OpOf(code, i).PhiOp? ==> i in code.operands && code.operands[i] == []
  }

  lemma InsertedEmpty(p: Code, q: Code, front: map<Block, seq<Inst>>, phis: map<Block, set<Inst>>)
    requires PhisInserted(p, q, front, phis) && LocalsAreScalars(p) && NoPhis(p)
    ensures PhisEmpty(q)
  {
    hide OpOf, AddedPhis, NoPhis, PhisInserted, LocalsAreScalars;
    InsertedParts(p, q, front, phis);
    forall b, r, i | IsAt(q, b, r, i) && OpOf(q, i).PhiOp?
      ensures i in q.operands && q.operands[i] == []
    {
      PhiInFront(p, q, front, b, r);
      assert front[b][r] in front[b];
      NewPhiEmpty(p, q, front, b, i);
    }
  }

  lemma NewPhiEmpty(p: Code, q: Code, front: map<Block, seq<Inst>>, b: Block, i: Inst)
    requires AddedPhis(p, q, front) && b in front && i in front[b]
    ensures i in q.operands && q.operands[i] == []
  {
    assert IsNewPhi(p, q, i);
  }
}
