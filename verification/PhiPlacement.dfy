/** Where `genPhi` puts its phis: the iterated dominance frontier. */
module PhiPlacement {
  import opened FlowGraphs
  import opened Ir
  import opened Semantics
  import opened Substitutions
  import opened PhiInsertion

  /** Some instruction of the block loads the local. */
  predicate Loads(code: Code, b: Block, v: Inst) {
    exists k :: 0 <= k < |ListOf(code, b)| && OpOf(code, ListOf(code, b)[k]) == ReadVar(v)
  }

  /** Contains the frontier of every block of `defs` and of its own blocks. */
  ghost predicate ClosedUnderFrontier(g: FlowGraph, defs: set<Block>, s: set<Block>) {
    forall x, b :: (x in defs || x in s) && g.InFrontier(x, b) ==> b in s
  }

  /** The iterated dominance frontier of `defs`: the least such set. */
  ghost predicate IsIteratedFrontier(g: FlowGraph, defs: set<Block>, s: set<Block>) {
    && ClosedUnderFrontier(g, defs, s)
    && forall t :: ClosedUnderFrontier(g, defs, t) ==> s <= t
  }

  /** Only blocks the frontier forces in have been put in. */
  ghost predicate NotTooBig(g: FlowGraph, defs: set<Block>, s: set<Block>) {
    forall t :: ClosedUnderFrontier(g, defs, t) ==> s <= t
  }

  lemma NotTooBigStep(g: FlowGraph, defs: set<Block>, s: set<Block>, x: Block, b: Block)
    requires NotTooBig(g, defs, s) && (x in defs || x in s) && g.InFrontier(x, b)
    ensures NotTooBig(g, defs, s + {b})
  {
    hide FlowGraph.InFrontier;
  }

  lemma IteratedFrontierUnique(g: FlowGraph, defs: set<Block>, s: set<Block>, t: set<Block>)
    requires IsIteratedFrontier(g, defs, s) && IsIteratedFrontier(g, defs, t)
    ensures s == t
  {
  }

  /** The frontier table of the dominator pass. */
  ghost predicate FrontierTable(g: FlowGraph, frontier: map<Block, set<Block>>) {
    && frontier.Keys == g.succs.Keys
    && forall x :: x in frontier ==> frontier[x] <= g.succs.Keys && forall b :: b in frontier[x] <==> g.InFrontier(x, b)
  }

  // ----- the phis of a function -----

  /** The locals the new phis of block `b` stand for. */
  ghost predicate FrontHolds(code: Code, phis: set<Inst>, front: seq<Inst>) {
    FrontAllowed(code, phis, front) && FrontCovers(code, phis, front) && FrontDistinct(code, front)
  }

  ghost predicate FrontAllowed(code: Code, phis: set<Inst>, front: seq<Inst>) {
    forall j :: 0 <= j < |front| ==>
      front[j] in code.kind && code.kind[front[j]].Phi? && code.kind[front[j]].lval in phis
  }

  ghost predicate FrontCovers(code: Code, phis: set<Inst>, front: seq<Inst>) {
    forall v :: v in phis ==> HasPhiOf(code, front, v)
  }

  ghost predicate HasPhiOf(code: Code, front: seq<Inst>, v: Inst) {
    exists j :: 0 <= j < |front| && IsPhiOf(code, front[j], v)
  }

  ghost predicate FrontDistinct(code: Code, front: seq<Inst>) {
    forall j, k :: 0 <= j < k < |front| && front[j] in code.kind && front[k] in code.kind ==>
      code.kind[front[j]] != code.kind[front[k]]
  }

  ghost predicate IsPhiOf(code: Code, i: Inst, v: Inst) {
    i in code.kind && code.kind[i] == Phi(v)
  }

  function PhisAt(phis: map<Block, set<Inst>>, b: Block): set<Inst> {
    if b in phis then phis[b] else {}
  }

  /** `q` is `p` with exactly one phi for each local in `phis[b]` ahead of block `b`. */
  ghost predicate PhisGenerated(p: Code, q: Code, front: map<Block, seq<Inst>>, phis: map<Block, set<Inst>>) {
    && AddedPhis(p, q, front)
    && forall b :: b in p.instrs ==> FrontHolds(q, PhisAt(phis, b), front[b])
  }

  ghost function PhiBlocks(phis: map<Block, set<Inst>>, v: Inst): set<Block> {
    set b | b in phis && v in phis[b]
  }

  lemma NothingGenerated(p: Code)
    requires PlacedOnce(p.instrs)
    ensures PhisGenerated(p, p, map b | b in p.instrs :: [], map[])
  {
  }

  lemma AddedPhisStep(p: Code, q: Code, front: map<Block, seq<Inst>>, b: Block, i: Inst, v: Inst, q': Code)
    requires AddedPhis(p, q, front) && LocalsAreScalars(p) && b in p.instrs && i !in q.kind && i !in q.operands
    requires q' == Code(q.cfg, q.instrs[b := [i] + q.instrs[b]], q.kind[i := Phi(v)], q.operands[i := []])
    ensures AddedPhis(p, q', front[b := [i] + front[b]])
  {
    var front' := front[b := [i] + front[b]];
    forall c | c in p.instrs
      ensures q'.instrs[c] == front'[c] + p.instrs[c]
    {
      if c == b {
        assert [i] + (front[b] + p.instrs[b]) == [i] + front[b] + p.instrs[b];
      }
    }
    forall c, j | c in front' && j in front'[c]
      ensures IsNewPhi(p, q', j)
    {
      if j != i {
        assert j in front[c];
        assert IsNewPhi(p, q, j);
      }
    }
    AddedPlacedOnce(p, q, front, b, i, q'.instrs);
  }

  lemma AddedPlacedOnce(p: Code, q: Code, front: map<Block, seq<Inst>>, b: Block, i: Inst,
                        instrs': map<Block, seq<Inst>>)
    requires AddedPhis(p, q, front) && LocalsAreScalars(p) && b in p.instrs && i !in q.operands
    requires instrs' == q.instrs[b := [i] + q.instrs[b]]
    ensures PlacedOnce(instrs')
  {
    forall c, r | c in q.instrs && 0 <= r < |q.instrs[c]|
      ensures q.instrs[c][r] != i
    {
      PositionIn(p, q, front, c, r, q.instrs[c][r]);
      if r < |front[c]| {
        assert IsNewPhi(p, q, q.instrs[c][r]);
      } else {
        assert IsAt(p, c, r - |front[c]|, q.instrs[c][r]);
      }
    }
    forall c, d, r, s | c in instrs' && d in instrs' && 0 <= r < |instrs'[c]| && 0 <= s < |instrs'[d]|
                        && instrs'[c][r] == instrs'[d][s]
      ensures c == d && r == s
    {
      var r' := if c == b then r - 1 else r;
      var s' := if d == b then s - 1 else s;
      if r' >= 0 {
        assert instrs'[c][r] == q.instrs[c][r'];
        if s' >= 0 {
          assert instrs'[d][s] == q.instrs[d][s'];
        }
      }
    }
  }

  lemma FrontHoldsStep(p: Code, q: Code, front: map<Block, seq<Inst>>, phis: map<Block, set<Inst>>, b: Block, i: Inst,
                       v: Inst, q': Code)
    requires PhisGenerated(p, q, front, phis) && b in p.instrs && i !in q.kind && v !in PhisAt(phis, b)
    requires q'.kind == q.kind[i := Phi(v)]
    ensures forall c :: c in p.instrs ==>
              FrontHolds(q', PhisAt(phis[b := PhisAt(phis, b) + {v}], c), front[b := [i] + front[b]][c])
  {
    forall c | c in p.instrs
      ensures FrontHolds(q', PhisAt(phis[b := PhisAt(phis, b) + {v}], c), front[b := [i] + front[b]][c])
    {
      assert FrontHolds(q, PhisAt(phis, c), front[c]);
      if c == b {
        FrontGrows(q, q', PhisAt(phis, b), front[b], i, v);
      } else {
        FrontStays(q, q', PhisAt(phis, c), front[c]);
      }
    }
  }

  lemma FrontStays(q: Code, q': Code, phis: set<Inst>, front: seq<Inst>)
    requires FrontHolds(q, phis, front) && forall i :: i in q.kind ==> i in q'.kind && q'.kind[i] == q.kind[i]
    ensures FrontHolds(q', phis, front)
  {
    forall v | v in phis
      ensures HasPhiOf(q', front, v)
    {
      PhiStays(q, q', front, v);
    }
    hide HasPhiOf;
  }

  lemma PhiStays(q: Code, q': Code, front: seq<Inst>, v: Inst)
    requires HasPhiOf(q, front, v) && forall i :: i in q.kind ==> i in q'.kind && q'.kind[i] == q.kind[i]
    ensures HasPhiOf(q', front, v)
  {
    var j :| 0 <= j < |front| && IsPhiOf(q, front[j], v);
    assert IsPhiOf(q', front[j], v);
  }

  lemma FrontGrowsCovers(q: Code, q': Code, phis: set<Inst>, front: seq<Inst>, i: Inst, v: Inst)
    requires FrontCovers(q, phis, front) && i !in q.kind && q'.kind == q.kind[i := Phi(v)]
    ensures FrontCovers(q', phis + {v}, [i] + front)
  {
    var front' := [i] + front;
    forall u | u in phis + {v}
      ensures HasPhiOf(q', front', u)
    {
      if u == v {
        assert IsPhiOf(q', front'[0], v);
      } else {
        assert HasPhiOf(q, front, u);
        var j :| 0 <= j < |front| && IsPhiOf(q, front[j], u);
        assert IsPhiOf(q', front'[j + 1], u);
      }
    }
  }

  lemma FrontGrowsDistinct(q: Code, q': Code, phis: set<Inst>, front: seq<Inst>, i: Inst, v: Inst)
    requires FrontAllowed(q, phis, front) && FrontDistinct(q, front) && i !in q.kind && v !in phis
             && q'.kind == q.kind[i := Phi(v)]
    ensures FrontAllowed(q', phis + {v}, [i] + front) && FrontDistinct(q', [i] + front)
  {
    var front' := [i] + front;
    assert forall j :: 0 < j < |front'| ==> front'[j] == front[j - 1];
    forall j, k | 0 <= j < k < |front'|
      ensures q'.kind[front'[j]] != q'.kind[front'[k]]
    {
      assert front'[k] == front[k - 1];
      if j > 0 {
        assert front'[j] == front[j - 1];
      }
    }
  }

  lemma FrontGrows(q: Code, q': Code, phis: set<Inst>, front: seq<Inst>, i: Inst, v: Inst)
    requires FrontHolds(q, phis, front) && i !in q.kind && v !in phis && q'.kind == q.kind[i := Phi(v)]
    ensures FrontHolds(q', phis + {v}, [i] + front)
  {
    hide FrontAllowed, FrontCovers, FrontDistinct;
    FrontGrowsCovers(q, q', phis, front, i, v);
    FrontGrowsDistinct(q, q', phis, front, i, v);
  }

  // ----- the work list -----

  ghost function Defs(code: Code, v: Inst): set<Block> {
    set b | b in code.instrs && Stores(code, b, v)
  }

  ghost predicate Loaded(code: Code, v: Inst) {
    exists b :: b in code.instrs && Loads(code, b, v)
  }

  /** A local that is loaded is stored to somewhere. */
  lemma LoadedIsStored(p: Code, v: Inst)
    requires WellFormed(p) && StoreBeforeLoad(p) && Loaded(p, v)
    ensures Defs(p, v) != {}
  {
    var b :| b in p.instrs && Loads(p, b, v);
    var k :| 0 <= k < |ListOf(p, b)| && OpOf(p, ListOf(p, b)[k]) == ReadVar(v);
    CfgOf(p, b);
    hide OpOf, WellFormed;
    assert IsAt(p, b, k, p.instrs[b][k]);
    if StoredEarlier(p, b, k, v) {
      assert b in Defs(p, v);
    } else {
      var path :| p.cfg.PathFromTo(path, p.cfg.entry, b);
      var j :| 0 <= j < |path| - 1 && Stores(p, path[j], v);
      assert path[j] in Defs(p, v);
    }
  }

  ghost predicate FrontierInside(frontier: map<Block, set<Block>>, x: Block, s: set<Block>) {
    x in frontier && frontier[x] <= s
  }

  /** The frontiers of the first `done` blocks of the queue have been given phis. */
  ghost predicate Placing(g: FlowGraph, frontier: map<Block, set<Block>>, defs: set<Block>, s: set<Block>,
                          queue: seq<Block>, done: int)
  {
    && 0 <= done <= |queue|
    && (forall b :: b in queue <==> b in defs || b in s)
    && NotTooBig(g, defs, s)
    && forall j :: 0 <= j < done ==> FrontierInside(frontier, queue[j], s)
  }

  lemma PlacingStarts(g: FlowGraph, frontier: map<Block, set<Block>>, defs: set<Block>, queue: seq<Block>)
    requires forall b :: b in queue <==> b in defs
    ensures Placing(g, frontier, defs, {}, queue, 0)
  {
  }

  lemma PlacingGrows(g: FlowGraph, frontier: map<Block, set<Block>>, defs: set<Block>, s: set<Block>, queue: seq<Block>,
                     done: int, b: Block)
    requires Placing(g, frontier, defs, s, queue, done) && done < |queue| && FrontierTable(g, frontier)
    requires queue[done] in frontier && b in frontier[queue[done]]
    ensures Placing(g, frontier, defs, s + {b}, queue + [b], done)
  {
    hide FlowGraph.InFrontier, NotTooBig;
    NotTooBigStep(g, defs, s, queue[done], b);
    forall j | 0 <= j < done
      ensures FrontierInside(frontier, (queue + [b])[j], s + {b})
    {
      assert FrontierInside(frontier, queue[j], s);
    }
  }

  lemma PlacingEnds(g: FlowGraph, frontier: map<Block, set<Block>>, defs: set<Block>, s: set<Block>, queue: seq<Block>)
    requires Placing(g, frontier, defs, s, queue, |queue|) && FrontierTable(g, frontier)
    ensures IsIteratedFrontier(g, defs, s)
  {
    hide FlowGraph.InFrontier;
    forall x, b | (x in defs || x in s) && g.InFrontier(x, b)
      ensures b in s
    {
      var j :| 0 <= j < |queue| && queue[j] == x;
      assert FrontierInside(frontier, queue[j], s);
    }
  }

  /** Only the phis for `v` have changed. */
  ghost predicate OthersKept(phis: map<Block, set<Inst>>, phis': map<Block, set<Inst>>, v: Inst) {
    forall u :: u != v ==> PhiBlocks(phis', u) == PhiBlocks(phis, u)
  }

  lemma PhisGrow(phis: map<Block, set<Inst>>, b: Block, v: Inst, phis': map<Block, set<Inst>>)
    requires phis' == phis[b := PhisAt(phis, b) + {v}]
    ensures PhiBlocks(phis', v) == PhiBlocks(phis, v) + {b} && OthersKept(phis, phis', v)
  {
    forall u | u != v
      ensures PhiBlocks(phis', u) == PhiBlocks(phis, u)
    {
    }
  }

  lemma GeneratedStep(p: Code, q: Code, front: map<Block, seq<Inst>>, phis: map<Block, set<Inst>>, b: Block, i: Inst,
                      v: Inst, q': Code)
    requires PhisGenerated(p, q, front, phis) && LocalsAreScalars(p) && b in p.instrs && v !in PhisAt(phis, b)
    requires i !in q.kind && i !in q.operands && b in q.instrs
    requires q' == Code(q.cfg, q.instrs[b := [i] + q.instrs[b]], q.kind[i := Phi(v)], q.operands[i := []])
    ensures PhisGenerated(p, q', front[b := [i] + front[b]], phis[b := PhisAt(phis, b) + {v}])
  {
    hide AddedPhis, FrontHolds;
    AddedPhisStep(p, q, front, b, i, v, q');
    FrontHoldsStep(p, q, front, phis, b, i, v, q');
  }

  lemma GeneratedBlocks(p: Code, q: Code, front: map<Block, seq<Inst>>, phis: map<Block, set<Inst>>)
    requires PhisGenerated(p, q, front, phis)
    ensures q.instrs.Keys == p.instrs.Keys == front.Keys && q.cfg == p.cfg
  {
  }
}
