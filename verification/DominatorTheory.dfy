/** What the iterative dominator algorithm keeps true about its partial tree:
    chains of parents, the invariants of a sweep, and exactness at the fixpoint. */
module DominatorTheory {
  import opened FlowGraphs

  /** The `doms` table read as a map, with the post-order numbers. */
  datatype Tree = Tree(root: Block, rank: map<Block, int>, parent: map<Block, Block>) {

    ghost predicate Valid() {
      && root in parent && root in rank
      && parent.Keys <= rank.Keys
      && (forall b :: b in rank ==> 0 <= rank[b] <= rank[root])
      && (forall b {:trigger parent[b]} :: b in parent && b != root ==>
            parent[b] in parent && rank[b] < rank[parent[b]])
    }

    /** `z` is `b`, its parent, the parent of that, or so on up to the root. */
    ghost predicate OnChain(z: Block, b: Block)
      requires Valid() && b in parent
      decreases rank[root] - rank[b]
    {
      z == b || (b != root && OnChain(z, parent[b]))
    }

    /** Re-parenting (or first parenting) of `x`. */
    function Set(x: Block, n: Block): Tree {
      this.(parent := parent[x := n])
    }
  }

  lemma {:induction false} ChainRanks(t: Tree, b: Block, z: Block)
    requires t.Valid() && b in t.parent && t.OnChain(z, b)
    ensures z in t.parent && t.rank[b] <= t.rank[z]
    ensures z != b ==> t.rank[b] < t.rank[z]
    decreases t.rank[t.root] - t.rank[b]
  {
    if z != b {
      ChainRanks(t, t.parent[b], z);
    }
  }

  lemma {:induction false} ChainRoot(t: Tree, b: Block)
    requires t.Valid() && b in t.parent
    ensures t.OnChain(t.root, b)
    decreases t.rank[t.root] - t.rank[b]
  {
    if b != t.root {
      ChainRoot(t, t.parent[b]);
    }
  }

  /** A chain continues with the chain of each of its blocks. */
  lemma {:induction false} ChainTransitive(t: Tree, b: Block, y: Block, z: Block)
    requires t.Valid() && b in t.parent && t.OnChain(y, b) && y in t.parent && t.OnChain(z, y)
    ensures t.OnChain(z, b)
    decreases t.rank[t.root] - t.rank[b]
  {
    if y != b {
      ChainTransitive(t, t.parent[b], y, z);
    }
  }

  lemma SetValid(t: Tree, x: Block, n: Block)
    requires t.Valid() && x in t.rank && x != t.root && n in t.parent && t.rank[x] < t.rank[n]
    ensures t.Set(x, n).Valid()
  {
  }

  /** What re-parenting `x` does to the chain of `b`. */
  lemma {:induction false} ChainSet(t: Tree, u: Tree, x: Block, n: Block, b: Block, z: Block)
    requires t.Valid() && x in t.rank && x != t.root && n in t.parent && t.rank[x] < t.rank[n]
    requires u == t.Set(x, n) && u.Valid()
    requires b in t.parent && z in t.rank
    ensures u.OnChain(z, b) <==>
            if t.OnChain(x, b) then (t.OnChain(z, b) && t.rank[z] <= t.rank[x]) || t.OnChain(z, n)
            else t.OnChain(z, b)
    decreases t.rank[t.root] - t.rank[b]
  {
    if b == x {
      ChainSet(t, u, x, n, n, z);
      if t.OnChain(x, n) { ChainRanks(t, n, x); }
      if t.OnChain(z, x) { ChainRanks(t, x, z); }
    } else if b != t.root {
      ChainSet(t, u, x, n, t.parent[b], z);
      if t.OnChain(x, b) { ChainRanks(t, b, x); }
    }
  }

  lemma ChainSetSelf(t: Tree, u: Tree, x: Block, n: Block, z: Block)
    requires t.Valid() && x in t.rank && x != t.root && n in t.parent && t.rank[x] < t.rank[n]
    requires u == t.Set(x, n) && u.Valid() && z in t.rank
    ensures u.OnChain(z, x) <==> z == x || t.OnChain(z, n)
  {
    ChainSet(t, u, x, n, n, z);
    if t.OnChain(x, n) { ChainRanks(t, n, x); }
  }

  // ----- invariants of the sweeps -----

  /** A path from `a` to `b` along which the post-order number falls. */
  ghost predicate FallingPath(g: FlowGraph, rank: map<Block, int>, p: seq<Block>, a: Block, b: Block) {
    && g.PathFromTo(p, a, b)
    && (forall i :: 0 <= i < |p| ==> p[i] in rank)
    && (forall i :: 0 < i < |p| ==> rank[p[i]] < rank[p[i - 1]])
  }

  ghost predicate HasFallingPath(g: FlowGraph, rank: map<Block, int>, a: Block, b: Block) {
    exists p :: FallingPath(g, rank, p, a, b)
  }

  /** The numbering the depth-first search leaves: exactly the reachable blocks,
      each one but the entry having a predecessor numbered above it. */
  ghost predicate Numbering(g: FlowGraph, rank: map<Block, int>) {
    && g.Valid() && g.entry in rank
    && (forall b :: b in rank <==> b in g.succs && g.Reachable(b))
    && (forall b :: b in rank ==> 0 <= rank[b] <= rank[g.entry])
    && (forall a, b {:trigger rank[a], rank[b]} :: a in rank && b in rank && rank[a] == rank[b] ==> a == b)
    && (forall b :: b in rank && b != g.entry ==> HigherPred(g, rank, b))
    && (forall b, p :: b in rank && p in g.preds[b] ==> p in rank)
  }

  ghost predicate HigherPred(g: FlowGraph, rank: map<Block, int>, b: Block) {
    b in g.preds && b in rank && exists p :: p in g.preds[b] && p in rank && rank[b] < rank[p]
  }

  /** What holds of the table between two visits of a sweep. */
  ghost predicate Sound(g: FlowGraph, t: Tree) {
    && t.Valid() && t.root == g.entry && Numbering(g, t.rank)
    && UpwardClosed(t)
    && (forall b :: b in t.parent && b != t.root ==> HasFallingPath(g, t.rank, t.parent[b], b))
    && DominatorsOnChains(g, t)
  }

  ghost predicate UpwardClosed(t: Tree)
    requires t.Valid()
  {
    forall a, b :: a in t.rank && b in t.parent && t.rank[b] < t.rank[a] ==> a in t.parent
  }

  ghost predicate DominatorsOnChains(g: FlowGraph, t: Tree)
    requires t.Valid()
  {
    forall a, b :: b in t.parent && g.Dominates(a, b) ==> t.OnChain(a, b)
  }

  /** `z` is on the chain of every predecessor of `b` that has a parent. */
  ghost predicate OnAllPreds(g: FlowGraph, t: Tree, b: Block, z: Block)
    requires t.Valid() && b in g.preds
  {
    forall p :: p in g.preds[b] && p in t.parent ==> t.OnChain(z, p)
  }

  /** No refresh of a block could lower its parent. */
  ghost predicate NeverLowers(g: FlowGraph, t: Tree)
    requires t.Valid()
  {
    forall b, z :: NeverLowersAt(g, t, b, z) ==> t.OnChain(z, t.parent[b])
  }

  ghost predicate NeverLowersAt(g: FlowGraph, t: Tree, b: Block, z: Block)
    requires t.Valid()
  {
    b in t.parent && b != t.root && b in g.preds && z in t.rank && OnAllPreds(g, t, b, z)
  }

  /** Chains seen from the higher-numbered predecessors: complete for a block the
      sweep has visited, and up to the sweep's position `cur` for the others. */
  ghost predicate Fresh(g: FlowGraph, t: Tree, cur: int)
    requires t.Valid()
  {
    forall b, p, z :: FreshAt(g, t, cur, b, p, z) ==> t.OnChain(z, p)
  }

  ghost predicate FreshAt(g: FlowGraph, t: Tree, cur: int, b: Block, p: Block, z: Block)
    requires t.Valid()
  {
    && b in t.parent && b != t.root && b in g.preds
    && p in g.preds[b] && p in t.parent && t.rank[b] < t.rank[p]
    && z in t.rank && t.OnChain(z, t.parent[b])
    && (cur < t.rank[b] || t.rank[z] <= cur)
  }

  /** `b` already has the parent a refresh would give it. */
  ghost predicate Stable(g: FlowGraph, t: Tree, b: Block)
    requires t.Valid()
  {
    b in t.parent && b in g.preds && b != t.root ==>
      forall z :: z in t.rank && t.OnChain(z, t.parent[b]) ==> OnAllPreds(g, t, b, z)
  }

  /** The block whose chain is the meet of the chains of `x`'s predecessors. */
  ghost predicate IsMeet(g: FlowGraph, t: Tree, x: Block, n: Block)
    requires t.Valid() && x in g.preds
  {
    && n in t.parent
    && forall z :: z in t.rank ==> (t.OnChain(z, n) <==> OnAllPreds(g, t, x, z))
  }

  lemma FallingConcat(g: FlowGraph, rank: map<Block, int>, a: Block, b: Block, c: Block)
    requires HasFallingPath(g, rank, a, b) && HasFallingPath(g, rank, b, c)
    ensures HasFallingPath(g, rank, a, c)
  {
    var p :| FallingPath(g, rank, p, a, b);
    var q :| FallingPath(g, rank, q, b, c);
    PathConcat(g, p, q, a, b, c);
    var r := p + q[1..];
    forall i | 0 < i < |r|
      ensures rank[r[i]] < rank[r[i - 1]]
    {
      if i >= |p| {
        assert r[i] == q[i - |p| + 1] && r[i - 1] == q[i - |p|];
      }
    }
    assert FallingPath(g, rank, r, a, c);
  }

  lemma FallingEdge(g: FlowGraph, rank: map<Block, int>, a: Block, b: Block)
    requires a in g.succs && b in g.succs && b in g.succs[a]
    requires a in rank && b in rank && rank[b] < rank[a]
    ensures HasFallingPath(g, rank, a, b)
  {
    assert FallingPath(g, rank, [a, b], a, b);
  }

  lemma {:induction false} ChainFalls(g: FlowGraph, t: Tree, b: Block, z: Block)
    requires t.Valid() && t.rank.Keys <= g.succs.Keys && b in t.parent && t.OnChain(z, b)
    requires forall c :: c in t.parent && c != t.root ==> HasFallingPath(g, t.rank, t.parent[c], c)
    ensures HasFallingPath(g, t.rank, z, b)
    decreases t.rank[t.root] - t.rank[b]
  {
    if z == b {
      SinglePath(g, b);
      assert FallingPath(g, t.rank, [b], b, b);
    } else {
      ChainFalls(g, t, t.parent[b], z);
      FallingConcat(g, t.rank, z, t.parent[b], b);
    }
  }

  lemma {:induction false} FallingBound(g: FlowGraph, rank: map<Block, int>, p: seq<Block>, a: Block, b: Block)
    requires FallingPath(g, rank, p, a, b)
    ensures forall x :: x in p ==> x in rank && rank[x] <= rank[a]
    decreases |p|
  {
    if |p| > 1 {
      var q := p[1..];
      assert g.PathFromTo(q, p[1], b);
      FallingBound(g, rank, q, p[1], b);
      assert p == [a] + q;
    }
  }

  /** A dominator of `b` numbered above a chain member `x` dominates `x` too. */
  lemma DominatesUpChain(g: FlowGraph, t: Tree, b: Block, x: Block, a: Block)
    requires Sound(g, t) && b in t.parent && t.OnChain(x, b)
    requires g.Dominates(a, b) && a in t.rank && x in t.rank && t.rank[x] < t.rank[a]
    ensures g.Dominates(a, x)
  {
    ChainFalls(g, t, b, x);
    var f :| FallingPath(g, t.rank, f, x, b);
    FallingBound(g, t.rank, f, x, b);
    forall q | g.PathFromTo(q, g.entry, x)
      ensures a in q
    {
      PathConcat(g, q, f, g.entry, x, b);
      assert a in q + f[1..];
    }
  }

  /** The meet of a block's predecessors lies above the block. */
  lemma MeetAbove(g: FlowGraph, t: Tree, x: Block, n: Block)
    requires Sound(g, t) && x in t.rank && x != t.root && IsMeet(g, t, x, n)
    requires forall a :: a in t.rank && t.rank[x] < t.rank[a] ==> a in t.parent
    ensures t.rank[x] < t.rank[n]
    ensures HasFallingPath(g, t.rank, n, x)
    ensures OnAllPreds(g, t, x, n)
  {
    assert HigherPred(g, t.rank, x);
    var p :| p in g.preds[x] && p in t.rank && t.rank[x] < t.rank[p];
    assert t.OnChain(n, n);
    assert t.OnChain(n, p);
    ChainRanks(t, p, n);
    ChainFalls(g, t, p, n);
    FallingEdge(g, t.rank, p, x);
    FallingConcat(g, t.rank, n, p, x);
  }

  /** A dominator of `x` other than `x` is on the chain of the meet. */
  lemma DominatorOnMeet(g: FlowGraph, t: Tree, x: Block, n: Block, a: Block)
    requires Sound(g, t) && x in t.rank && IsMeet(g, t, x, n)
    requires g.StrictlyDominates(a, x)
    ensures t.OnChain(a, n)
  {
    DominatorReachable(g, a, x);
    forall p | p in g.preds[x] && p in t.parent
      ensures t.OnChain(a, p)
    {
      DominatesPred(g, a, p, x);
    }
    assert OnAllPreds(g, t, x, a);
  }

  /** One visit keeps every dominator on its chain. */
  lemma DominatorsOnChainsSet(g: FlowGraph, t: Tree, u: Tree, x: Block, n: Block, a: Block, b: Block)
    requires Sound(g, t) && x in t.rank && x != t.root && IsMeet(g, t, x, n) && t.rank[x] < t.rank[n]
    requires u == t.Set(x, n) && u.Valid()
    requires b in u.parent && g.Dominates(a, b)
    ensures u.OnChain(a, b)
  {
    DominatorReachable(g, a, b);
    if b == x {
      ChainSetSelf(t, u, x, n, a);
      if a != x {
        DominatorOnMeet(g, t, x, n, a);
      }
    } else {
      ChainSet(t, u, x, n, b, a);
      assert t.OnChain(a, b);
      if t.OnChain(x, b) && t.rank[x] < t.rank[a] {
        DominatesUpChain(g, t, b, x, a);
        DominatorOnMeet(g, t, x, n, a);
      }
    }
  }

  lemma ParentsFallSet(g: FlowGraph, t: Tree, u: Tree, x: Block, n: Block)
    requires t.Valid() && u.Valid() && u == t.Set(x, n)
    requires forall b :: b in t.parent && b != t.root ==> HasFallingPath(g, t.rank, t.parent[b], b)
    requires HasFallingPath(g, t.rank, n, x)
    ensures forall b :: b in u.parent && b != u.root ==> HasFallingPath(g, u.rank, u.parent[b], b)
  {
  }

  /** One visit keeps the table sound. */
  lemma SoundSet(g: FlowGraph, t: Tree, u: Tree, x: Block, n: Block)
    requires Sound(g, t) && x in t.rank && x != t.root && IsMeet(g, t, x, n)
    requires forall a :: a in t.rank && t.rank[x] < t.rank[a] ==> a in t.parent
    requires u == t.Set(x, n)
    ensures Sound(g, u) && t.rank[x] < t.rank[n]
  {
    MeetAbove(g, t, x, n);
    SetValid(t, x, n);
    ParentsFallSet(g, t, u, x, n);
    forall a, b | b in u.parent && g.Dominates(a, b)
      ensures u.OnChain(a, b)
    {
      DominatorsOnChainsSet(g, t, u, x, n, a, b);
    }
    assert UpwardClosed(u);
  }

  /** When a block gets a parent for the first time no other chain changes. */
  lemma FirstParentChain(t: Tree, u: Tree, x: Block, n: Block, b: Block, z: Block)
    requires t.Valid() && x in t.rank && x != t.root && x !in t.parent && n in t.parent && t.rank[x] < t.rank[n]
    requires u == t.Set(x, n) && u.Valid()
    requires b in t.parent && z in t.rank
    ensures u.OnChain(z, b) <==> t.OnChain(z, b)
  {
    ChainSet(t, u, x, n, b, z);
    if t.OnChain(x, b) { ChainRanks(t, b, x); }
  }

  lemma FirstParentNeverLowers(g: FlowGraph, t: Tree, u: Tree, x: Block, n: Block, b: Block, z: Block)
    requires t.Valid() && NeverLowers(g, t) && HigherPred(g, t.rank, x)
    requires x != t.root && x !in t.parent && IsMeet(g, t, x, n) && t.rank[x] < t.rank[n]
    requires u == t.Set(x, n) && u.Valid() && NeverLowersAt(g, u, b, z)
    ensures u.OnChain(z, u.parent[b])
  {
    forall p | p in g.preds[b] && p in t.parent
      ensures t.OnChain(z, p)
    {
      FirstParentChain(t, u, x, n, p, z);
      assert u.OnChain(z, p);
    }
    assert OnAllPreds(g, t, b, z);
    if b != x { assert NeverLowersAt(g, t, b, z); }
    FirstParentChain(t, u, x, n, u.parent[b], z);
  }

  lemma FirstParentFresh(g: FlowGraph, t: Tree, u: Tree, x: Block, n: Block, b: Block, p: Block, z: Block)
    requires t.Valid() && x in t.rank && x in g.preds && Fresh(g, t, t.rank[x])
    requires x != t.root && x !in t.parent && IsMeet(g, t, x, n) && t.rank[x] < t.rank[n]
    requires forall a :: a in t.rank ==> (t.rank[x] < t.rank[a] <==> a in t.parent)
    requires u == t.Set(x, n) && u.Valid() && FreshAt(g, u, t.rank[x] - 1, b, p, z)
    ensures u.OnChain(z, p)
  {
    assert p in t.parent;
    FirstParentChain(t, u, x, n, u.parent[b], z);
    FirstParentChain(t, u, x, n, p, z);
    if b == x {
      assert OnAllPreds(g, t, x, z);
    } else {
      assert FreshAt(g, t, t.rank[x], b, p, z);
    }
  }

  lemma FirstParentKeeps(g: FlowGraph, t: Tree, u: Tree, x: Block, n: Block)
    requires t.Valid() && NeverLowers(g, t) && HigherPred(g, t.rank, x) && Fresh(g, t, t.rank[x])
    requires x != t.root && x !in t.parent && IsMeet(g, t, x, n) && t.rank[x] < t.rank[n]
    requires forall a :: a in t.rank ==> (t.rank[x] < t.rank[a] <==> a in t.parent)
    requires u == t.Set(x, n) && u.Valid()
    ensures NeverLowers(g, u) && Fresh(g, u, t.rank[x] - 1)
  {
    forall b, z | NeverLowersAt(g, u, b, z)
      ensures u.OnChain(z, u.parent[b])
    {
      FirstParentNeverLowers(g, t, u, x, n, b, z);
    }
    var cur := t.rank[x] - 1;
    forall b, p, z | FreshAt(g, u, cur, b, p, z)
      ensures u.OnChain(z, p)
    {
      FirstParentFresh(g, t, u, x, n, b, p, z);
    }
  }

  lemma FirstParent(g: FlowGraph, t: Tree, u: Tree, x: Block, n: Block)
    requires Sound(g, t) && NeverLowers(g, t) && x in t.rank && Fresh(g, t, t.rank[x])
    requires x != t.root && x !in t.parent && IsMeet(g, t, x, n)
    requires forall a :: a in t.rank ==> (t.rank[x] < t.rank[a] <==> a in t.parent)
    requires u == t.Set(x, n)
    ensures Sound(g, u) && NeverLowers(g, u) && Fresh(g, u, t.rank[x] - 1)
    ensures t.rank[x] < t.rank[n]
  {
    SoundSet(g, t, u, x, n);
    FirstParentKeeps(g, t, u, x, n);
  }

  /** A later visit only moves a parent up its own chain. */
  lemma MoveUp(g: FlowGraph, t: Tree, x: Block, n: Block)
    requires t.Valid() && NeverLowers(g, t) && x in t.parent && x in g.preds && x != t.root && IsMeet(g, t, x, n)
    ensures t.OnChain(n, t.parent[x])
  {
    assert t.OnChain(n, n);
    assert OnAllPreds(g, t, x, n);
    assert NeverLowersAt(g, t, x, n);
  }

  /** Such a move only shortens chains, and takes only blocks above `x` off them. */
  lemma ChainShrinks(t: Tree, u: Tree, x: Block, n: Block, b: Block, z: Block)
    requires t.Valid() && x in t.parent && x != t.root && n in t.parent
    requires t.OnChain(n, t.parent[x]) && t.rank[x] < t.rank[n]
    requires u == t.Set(x, n) && u.Valid()
    requires b in t.parent && z in t.rank
    ensures u.OnChain(z, b) ==> t.OnChain(z, b)
    ensures t.OnChain(z, b) && (t.rank[z] <= t.rank[x] || !t.OnChain(x, b)) ==> u.OnChain(z, b)
    ensures t.OnChain(x, b) && t.rank[x] < t.rank[z] ==> (u.OnChain(z, b) <==> t.OnChain(z, n))
  {
    ChainSet(t, u, x, n, b, z);
    if t.OnChain(x, b) && t.OnChain(z, n) {
      ChainTransitive(t, t.parent[x], n, z);
      ChainTransitive(t, b, x, z);
    }
  }

  lemma LaterParentFreshSelf(g: FlowGraph, t: Tree, u: Tree, x: Block, n: Block, p: Block, z: Block)
    requires t.Valid() && x in t.parent && x in g.preds
    requires x != t.root && IsMeet(g, t, x, n) && t.OnChain(n, t.parent[x]) && t.rank[x] < t.rank[n]
    requires u == t.Set(x, n) && u.Valid() && z in t.rank && u.OnChain(z, n)
    requires p in g.preds[x] && p in t.parent && t.rank[x] < t.rank[p]
    ensures u.OnChain(z, p)
  {
    ChainShrinks(t, u, x, n, n, z);
    assert OnAllPreds(g, t, x, z);
    if t.OnChain(x, p) { ChainRanks(t, p, x); }
    ChainShrinks(t, u, x, n, p, z);
  }

  lemma LaterParentFresh(g: FlowGraph, t: Tree, u: Tree, x: Block, n: Block, b: Block, p: Block, z: Block)
    requires t.Valid() && x in t.parent && n in t.parent
    requires x != t.root && t.OnChain(n, t.parent[x]) && t.rank[x] < t.rank[n]
    requires u == t.Set(x, n) && u.Valid() && FreshAt(g, u, t.rank[x] - 1, b, p, z)
    requires t.rank[b] != t.rank[x]
    requires FreshAt(g, t, t.rank[x], b, p, z) ==> t.OnChain(z, p)
    ensures u.OnChain(z, p)
  {
    ChainShrinks(t, u, x, n, t.parent[b], z);
    assert FreshAt(g, t, t.rank[x], b, p, z);
    if t.OnChain(x, p) { ChainRanks(t, p, x); }
    ChainShrinks(t, u, x, n, p, z);
  }

  lemma LaterParentNeverLowers(g: FlowGraph, t: Tree, u: Tree, x: Block, n: Block, b: Block, z: Block)
    requires t.Valid() && x in t.parent && x in g.preds && NeverLowers(g, t) && Fresh(g, t, t.rank[x])
    requires UpwardClosed(t) && (b in t.rank && b != t.root ==> HigherPred(g, t.rank, b))
    requires x != t.root && IsMeet(g, t, x, n) && t.OnChain(n, t.parent[x]) && t.rank[x] < t.rank[n]
    requires u == t.Set(x, n) && u.Valid() && NeverLowersAt(g, u, b, z)
    ensures u.OnChain(z, u.parent[b])
  {
    forall p | p in g.preds[b] && p in t.parent
      ensures t.OnChain(z, p)
    {
      ChainShrinks(t, u, x, n, p, z);
      assert u.OnChain(z, p);
    }
    assert OnAllPreds(g, t, b, z);
    assert NeverLowersAt(g, t, b, z);
    ChainShrinks(t, u, x, n, u.parent[b], z);
    if b != x && t.OnChain(x, t.parent[b]) && t.rank[x] < t.rank[z] {
      // a predecessor numbered above `b` still has `x` on its chain
      ChainRanks(t, t.parent[b], x);
      var p :| p in g.preds[b] && p in t.rank && t.rank[b] < t.rank[p];
      assert FreshAt(g, t, t.rank[x], b, p, x);
      assert u.OnChain(z, p);
      ChainShrinks(t, u, x, n, p, z);
    }
  }

  lemma LaterParentKeeps(g: FlowGraph, t: Tree, u: Tree, x: Block, n: Block)
    requires t.Valid() && x in t.parent && x in g.preds && NeverLowers(g, t) && Fresh(g, t, t.rank[x])
    requires UpwardClosed(t) && (forall b :: b in t.rank && b != t.root ==> HigherPred(g, t.rank, b))
    requires forall b :: b in t.rank && t.rank[b] == t.rank[x] ==> b == x
    requires x != t.root && IsMeet(g, t, x, n) && t.OnChain(n, t.parent[x]) && t.rank[x] < t.rank[n]
    requires u == t.Set(x, n) && u.Valid()
    ensures NeverLowers(g, u) && Fresh(g, u, t.rank[x] - 1)
  {
    var cur := t.rank[x] - 1;
    forall b, p, z | FreshAt(g, u, cur, b, p, z)
      ensures u.OnChain(z, p)
    {
      if b == x {
        LaterParentFreshSelf(g, t, u, x, n, p, z);
      } else {
        LaterParentFresh(g, t, u, x, n, b, p, z);
      }
    }
    forall b, z | NeverLowersAt(g, u, b, z)
      ensures u.OnChain(z, u.parent[b])
    {
      LaterParentNeverLowers(g, t, u, x, n, b, z);
    }
  }

  /** When a block that has a parent is visited again. */
  lemma LaterParent(g: FlowGraph, t: Tree, u: Tree, x: Block, n: Block)
    requires Sound(g, t) && NeverLowers(g, t) && x in t.parent && Fresh(g, t, t.rank[x])
    requires x != t.root && IsMeet(g, t, x, n) && u == t.Set(x, n)
    ensures Sound(g, u) && NeverLowers(g, u) && Fresh(g, u, t.rank[x] - 1)
    ensures t.rank[x] < t.rank[n] && t.OnChain(n, t.parent[x])
  {
    SoundSet(g, t, u, x, n);
    MoveUp(g, t, x, n);
    LaterParentKeeps(g, t, u, x, n);
  }

  // ----- the fixpoint -----

  /** At a fixpoint every block on a chain is on every path. */
  lemma {:induction false} ChainOnPath(g: FlowGraph, t: Tree, p: seq<Block>, b: Block, a: Block)
    requires Sound(g, t) && t.parent.Keys == t.rank.Keys
    requires forall x :: x in t.parent ==> Stable(g, t, x)
    requires g.PathFromTo(p, g.entry, b) && b in t.parent && t.OnChain(a, b)
    ensures a in p
    decreases |p|
  {
    if a != b {
      var k := |p| - 2;
      PathPrefix(g, p, k);
      assert p[k + 1] in g.succs[p[k]];
      ChainRanks(t, b, a);
      assert Stable(g, t, b);
      assert OnAllPreds(g, t, b, a);
      ChainOnPath(g, t, p[..k + 1], p[k], a);
    }
  }

  /** The table holds exactly the dominators. */
  ghost predicate Exact(g: FlowGraph, t: Tree) {
    && t.Valid() && t.root == g.entry && Numbering(g, t.rank)
    && t.parent.Keys == t.rank.Keys
    && t.parent[t.root] == t.root
    && forall a, b :: b in t.parent ==> (t.OnChain(a, b) <==> g.Dominates(a, b))
  }

  /** At a fixpoint the chain of a block is exactly its set of dominators. */
  lemma FixpointIsExact(g: FlowGraph, t: Tree)
    requires Sound(g, t) && t.parent.Keys == t.rank.Keys && t.parent[t.root] == t.root
    requires forall x :: x in t.parent ==> Stable(g, t, x)
    ensures Exact(g, t)
  {
    forall a, b | b in t.parent && t.OnChain(a, b)
      ensures g.Dominates(a, b)
    {
      forall p | g.PathFromTo(p, g.entry, b)
        ensures a in p
      {
        ChainOnPath(g, t, p, b, a);
      }
    }
  }

  lemma ParentIsImmediateDominator(g: FlowGraph, t: Tree, b: Block)
    requires Exact(g, t) && b in t.parent && b != t.root
    ensures g.IsImmediateDominator(t.parent[b], b)
  {
    var d := t.parent[b];
    assert t.OnChain(d, d);
    assert t.OnChain(d, b);
    forall a | g.StrictlyDominates(a, b)
      ensures g.Dominates(a, d)
    {
      assert t.OnChain(a, b);
    }
  }

  lemma ParentAboveChild(t: Tree, b: Block)
    requires t.Valid() && b in t.parent && b != t.root
    ensures t.parent[b] in t.parent && t.OnChain(t.parent[b], b) && !t.OnChain(b, t.parent[b])
  {
    assert t.OnChain(t.parent[b], t.parent[b]);
    if t.OnChain(b, t.parent[b]) {
      ChainRanks(t, t.parent[b], b);
    }
  }

  // ----- dominance frontiers -----

  /** A runner started at a predecessor of `b` and stopped at `b`'s parent meets `x`. */
  ghost predicate RunnerMeets(g: FlowGraph, t: Tree, b: Block, x: Block)
    requires t.Valid()
  {
    && b in t.parent && t.parent[b] in t.parent && b in g.preds && |g.preds[b]| >= 2
    && exists p :: p in g.preds[b] && MeetsFrom(t, p, t.parent[b], x)
  }

  ghost predicate MeetsFrom(t: Tree, p: Block, stop: Block, x: Block)
    requires t.Valid()
  {
    p in t.parent && stop in t.parent && t.OnChain(x, p) && !t.OnChain(x, stop)
  }

  /** A runner from one of the first `j` predecessors meets `x`. */
  ghost predicate MetByPrefix(t: Tree, preds: seq<Block>, j: int, stop: Block, x: Block)
    requires t.Valid() && 0 <= j <= |preds|
  {
    exists p :: p in preds[..j] && MeetsFrom(t, p, stop, x)
  }

  lemma MetByPrefixStep(t: Tree, preds: seq<Block>, j: int, stop: Block, x: Block)
    requires t.Valid() && 0 <= j < |preds|
    ensures MetByPrefix(t, preds, j + 1, stop, x) <==>
              MetByPrefix(t, preds, j, stop, x) || MeetsFrom(t, preds[j], stop, x)
  {
    assert preds[..j + 1] == preds[..j] + [preds[j]];
  }

  /** Where the walk up from a predecessor ends is on that predecessor's chain. */
  lemma ParentOnPredChain(g: FlowGraph, t: Tree, b: Block, p: Block)
    requires Exact(g, t) && b in t.parent && p in g.preds[b]
    ensures p in t.parent && t.parent[b] in t.parent && t.OnChain(t.parent[b], p)
  {
    assert p in t.rank;
    if b == t.root {
      ChainRoot(t, p);
    } else {
      ParentAboveChild(t, b);
      DominatesPred(g, t.parent[b], p, b);
    }
  }

  lemma StrictDominatorsOnParentChain(g: FlowGraph, t: Tree, b: Block, x: Block)
    requires Exact(g, t) && b in t.parent && b != t.root
    ensures t.parent[b] in t.parent && (g.StrictlyDominates(x, b) <==> t.OnChain(x, t.parent[b]))
  {
    ParentAboveChild(t, b);
    assert t.OnChain(x, b) <==> g.Dominates(x, b);
  }

  lemma ExactAt(g: FlowGraph, t: Tree, b: Block, p: Block, x: Block)
    requires Exact(g, t) && (b in t.rank || b in t.parent)
    ensures t.Valid() && t.root == g.entry && b in g.preds && b in t.parent
    ensures p in g.preds[b] ==> p in t.parent && (t.OnChain(x, p) <==> g.Dominates(x, p))
  {
  }

  /** Off the entry, the runners find exactly the dominance frontier. */
  lemma RunnersFindFrontier(g: FlowGraph, t: Tree, b: Block, x: Block)
    requires Exact(g, t) && b in t.parent && b != t.root
    ensures t.Valid() && (RunnerMeets(g, t, b, x) <==> g.InFrontier(x, b))
  {
    hide Exact, Tree.Valid, Tree.OnChain, FlowGraph.Dominates, FlowGraph.StrictlyDominates;
    StrictDominatorsOnParentChain(g, t, b, x);
    ExactAt(g, t, b, b, x);
    if g.InFrontier(x, b) {
      var p :| p in g.preds[b] && g.Dominates(x, p);
      ExactAt(g, t, b, p, x);
      assert MeetsFrom(t, p, t.parent[b], x);
      if |g.preds[b]| < 2 {
        OnlyPredIsParent(g, t, b, p);
      }
    }
    if RunnerMeets(g, t, b, x) {
      var p :| p in g.preds[b] && MeetsFrom(t, p, t.parent[b], x);
      ExactAt(g, t, b, p, x);
    }
  }

  lemma OnlyPredIsParent(g: FlowGraph, t: Tree, b: Block, p: Block)
    requires Exact(g, t) && b in t.parent && b != t.root && g.preds[b] == [p]
    ensures t.parent[b] == p
  {
    assert p in t.rank;
    forall q | g.PathFromTo(q, g.entry, b)
      ensures p in q
    {
      assert q[|q| - 1] in g.succs[q[|q| - 2]];
      assert q[|q| - 2] in g.preds[b];
    }
    assert HigherPred(g, t.rank, b);
    assert g.StrictlyDominates(p, b);
    ParentIsImmediateDominator(g, t, b);
    var d := t.parent[b];
    DominatesPred(g, d, p, b);
    assert g.Reachable(p) && g.Dominates(p, d);
    DominatesAntisymmetric(g, d, p);
  }

  /** The runners find every block's frontier exactly when nothing branches back
      to the entry: a branch to the entry puts the entry in its own frontier,
      and there the walk stops one block short. */
  lemma FrontiersFoundIff(g: FlowGraph, t: Tree)
    requires Exact(g, t)
    ensures (forall b, x :: b in t.parent ==> (RunnerMeets(g, t, b, x) <==> g.InFrontier(x, b)))
            <==> g.preds[g.entry] == []
  {
    if g.preds[g.entry] == [] {
      forall b, x | b in t.parent
        ensures RunnerMeets(g, t, b, x) <==> g.InFrontier(x, b)
      {
        if b != t.root {
          RunnersFindFrontier(g, t, b, x);
        }
      }
    } else {
      var e, p := g.entry, g.preds[g.entry][0];
      EntryDominates(g, p);
      assert p in g.preds[e] && g.Dominates(e, p);
      assert g.InFrontier(e, e);
      assert !RunnerMeets(g, t, e, e);
    }
  }
}
