/** Control-flow graphs as the passes see them: the predecessor and successor
    lists of every block, paths, reachability, dominance and its frontier. */
module FlowGraphs {

  datatype Option<+T> = None | Some(value: T)

  /** A basic block is an identity that stays alive. */
  type Block = nat

  /** `succs` and `preds` are the `succ_bbs_` and `pre_bbs_` lists; a block may
      occur more than once in a list. */
  datatype FlowGraph = FlowGraph(
    entry: Block,
    succs: map<Block, seq<Block>>,
    preds: map<Block, seq<Block>>
  ) {

    ghost predicate Valid() {
      && entry in succs
      && succs.Keys == preds.Keys
      && (forall a, b :: a in succs && b in succs[a] ==> b in preds && a in preds[b])
      && (forall a, b :: b in preds && a in preds[b] ==> a in succs && b in succs[a])
    }

    ghost predicate IsPath(p: seq<Block>) {
      && p != []
      && (forall i :: 0 <= i < |p| ==> p[i] in succs)
      && (forall i :: 0 < i < |p| ==> p[i] in succs[p[i - 1]])
    }

    ghost predicate PathFromTo(p: seq<Block>, a: Block, b: Block) {
      IsPath(p) && p[0] == a && p[|p| - 1] == b
    }

    ghost predicate Reachable(b: Block) {
      exists p :: PathFromTo(p, entry, b)
    }

    ghost predicate AllReachable() {
      forall b :: b in succs ==> Reachable(b)
    }

    /** Every path from the entry to `b` goes through `a`. */
    ghost predicate Dominates(a: Block, b: Block) {
      forall p :: PathFromTo(p, entry, b) ==> a in p
    }

    ghost predicate StrictlyDominates(a: Block, b: Block) {
      a != b && Dominates(a, b)
    }

    /** The strict dominator of `b` that every other strict dominator dominates. */
    ghost predicate IsImmediateDominator(d: Block, b: Block) {
      && StrictlyDominates(d, b)
      && forall a :: StrictlyDominates(a, b) ==> Dominates(a, d)
    }

    /** `b` is where the dominance of `x` ends. */
    ghost predicate InFrontier(x: Block, b: Block) {
      && b in preds
      && (exists p :: p in preds[b] && Dominates(x, p))
      && !StrictlyDominates(x, b)
    }

    /** The same blocks with every edge turned round. */
    function Reverse(exit: Block): FlowGraph {
      FlowGraph(exit, preds, succs)
    }
  }

  // ----- paths -----

  lemma PathExtend(g: FlowGraph, p: seq<Block>, a: Block, b: Block, c: Block)
    requires g.PathFromTo(p, a, b) && b in g.succs && c in g.succs[b] && c in g.succs
    ensures g.PathFromTo(p + [c], a, c)
  {
  }

  lemma PathConcat(g: FlowGraph, p: seq<Block>, q: seq<Block>, a: Block, b: Block, c: Block)
    requires g.PathFromTo(p, a, b) && g.PathFromTo(q, b, c)
    ensures g.PathFromTo(p + q[1..], a, c)
    ensures forall x :: x in p + q[1..] <==> x in p || x in q
  {
    var r := p + q[1..];
    forall i | 0 < i < |r|
      ensures r[i] in g.succs[r[i - 1]]
    {
      if i >= |p| {
        assert r[i] == q[i - |p| + 1];
        if i > |p| {
          assert r[i - 1] == q[i - |p|];
        }
      }
    }
    assert q[0] == b && p[|p| - 1] == b;
    assert q == [b] + q[1..];
  }

  lemma PathPrefix(g: FlowGraph, p: seq<Block>, i: nat)
    requires g.IsPath(p) && i < |p|
    ensures g.PathFromTo(p[..i + 1], p[0], p[i])
  {
  }

  lemma PathSuffix(g: FlowGraph, p: seq<Block>, i: nat)
    requires g.IsPath(p) && i < |p|
    ensures g.PathFromTo(p[i..], p[i], p[|p| - 1])
  {
  }

  lemma SinglePath(g: FlowGraph, b: Block)
    requires b in g.succs
    ensures g.PathFromTo([b], b, b)
  {
  }

  lemma ReachableStep(g: FlowGraph, a: Block, b: Block)
    requires g.Valid() && g.Reachable(a) && a in g.succs && b in g.succs[a]
    ensures g.Reachable(b)
  {
    var p :| g.PathFromTo(p, g.entry, a);
    PathExtend(g, p, g.entry, a, b);
  }

  lemma EntryReachable(g: FlowGraph)
    requires g.Valid()
    ensures g.Reachable(g.entry)
  {
    SinglePath(g, g.entry);
  }

  // ----- dominance -----

  lemma DominatesPred(g: FlowGraph, a: Block, p: Block, b: Block)
    requires g.Valid() && p in g.succs && b in g.succs[p]
    requires g.StrictlyDominates(a, b)
    ensures g.Dominates(a, p)
  {
    forall q | g.PathFromTo(q, g.entry, p)
      ensures a in q
    {
      PathExtend(g, q, g.entry, p, b);
      assert a in q + [b];
    }
  }

  lemma DominatesTransitive(g: FlowGraph, a: Block, b: Block, c: Block)
    requires g.Dominates(a, b) && g.Dominates(b, c)
    ensures g.Dominates(a, c)
  {
    forall q | g.PathFromTo(q, g.entry, c)
      ensures a in q
    {
      var i :| 0 <= i < |q| && q[i] == b;
      PathPrefix(g, q, i);
      assert a in q[..i + 1];
    }
  }

  /** Some path to `b` meets `b` only at its end. */
  lemma FirstVisit(g: FlowGraph, p: seq<Block>, b: Block) returns (q: seq<Block>)
    requires g.PathFromTo(p, g.entry, b)
    ensures g.PathFromTo(q, g.entry, b)
    ensures forall i :: 0 <= i < |q| - 1 ==> q[i] != b
    ensures forall x :: x in q ==> x in p
    decreases |p|
  {
    if i :| 0 <= i < |p| - 1 && p[i] == b {
      PathPrefix(g, p, i);
      q := FirstVisit(g, p[..i + 1], b);
    } else {
      q := p;
    }
  }

  lemma DominatesAntisymmetric(g: FlowGraph, a: Block, b: Block)
    requires g.Dominates(a, b) && g.Dominates(b, a) && g.Reachable(b)
    ensures a == b
  {
    var p :| g.PathFromTo(p, g.entry, b);
    var q := FirstVisit(g, p, b);
    var i :| 0 <= i < |q| && q[i] == a;
    PathPrefix(g, q, i);
    assert b in q[..i + 1];
  }

  lemma OnlyEntryDominatesEntry(g: FlowGraph, a: Block)
    requires g.Valid() && g.Dominates(a, g.entry)
    ensures a == g.entry
  {
    SinglePath(g, g.entry);
    assert a in [g.entry];
  }

  lemma EntryDominates(g: FlowGraph, b: Block)
    ensures g.Dominates(g.entry, b)
  {
  }

  lemma DominatorReachable(g: FlowGraph, a: Block, b: Block)
    requires g.Dominates(a, b) && g.Reachable(b)
    ensures g.Reachable(a) && a in g.succs
  {
    var p :| g.PathFromTo(p, g.entry, b);
    var i :| 0 <= i < |p| && p[i] == a;
    PathPrefix(g, p, i);
  }

  lemma ImmediateDominatorUnique(g: FlowGraph, c: Block, d: Block, b: Block)
    requires g.IsImmediateDominator(c, b) && g.IsImmediateDominator(d, b) && g.Reachable(b)
    ensures c == d
  {
    DominatorReachable(g, d, b);
    DominatesAntisymmetric(g, c, d);
  }

  // ----- the reversed graph -----

  function Reversed(p: seq<Block>): (r: seq<Block>)
    ensures |r| == |p|
    ensures forall i :: 0 <= i < |p| ==> r[i] == p[|p| - 1 - i]
  {
    seq(|p|, i requires 0 <= i < |p| => p[|p| - 1 - i])
  }

  lemma ReversedPath(g: FlowGraph, exit: Block, p: seq<Block>, a: Block, b: Block)
    requires g.Valid()
    ensures g.PathFromTo(p, a, b) <==> g.Reverse(exit).PathFromTo(Reversed(p), b, a)
    ensures forall x :: x in p <==> x in Reversed(p)
  {
    var h, r := g.Reverse(exit), Reversed(p);
    if g.PathFromTo(p, a, b) {
      forall i | 0 < i < |r|
        ensures r[i] in h.succs[r[i - 1]]
      {
        assert p[|p| - i] in g.succs[p[|p| - i - 1]];
      }
    }
    if h.PathFromTo(r, b, a) {
      forall i | 0 <= i < |p|
        ensures p[i] in g.succs
      {
        assert p[i] == r[|p| - 1 - i];
      }
      forall i | 0 < i < |p|
        ensures p[i] in g.succs[p[i - 1]]
      {
        assert p[i - 1] == r[|p| - i] && p[i] == r[|p| - i - 1];
      }
    }
    forall x | x in p
      ensures x in r
    {
      var i :| 0 <= i < |p| && p[i] == x;
      assert r[|p| - 1 - i] == x;
    }
  }
}
