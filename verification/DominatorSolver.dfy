/** The numbering, the fixpoint loop and the two-finger walk that `DominateTree`
    and `RDominateTree` share; the first runs it on a flow graph, the second on
    the reversed one. */
module DominatorSolvers {
  import opened FlowGraphs
  import opened DominatorTheory

  /** `order` lists the numbered blocks by number. */
  ghost predicate Numbers(order: seq<Block>, bb2int: map<Block, int>) {
    && (forall i :: 0 <= i < |order| ==> order[i] in bb2int && bb2int[order[i]] == i)
    && (forall b :: b in bb2int ==> 0 <= bb2int[b] < |order| && order[bb2int[b]] == b)
  }

  /** `order` lists the numbered blocks by falling number, the entry first. */
  ghost predicate EntryFirst(g: FlowGraph, order: seq<Block>, num: map<Block, int>) {
    && order != [] && order[0] == g.entry
    && (forall i :: 0 <= i < |order| ==> order[i] in num && num[order[i]] == |order| - 1 - i)
    && (forall b :: b in num ==> 0 <= num[b] < |order| && order[|order| - 1 - num[b]] == b)
  }

  /** What one call of the depth-first search does: `visited - before` are its
      new blocks, `order` is extended by exactly those, and `bb` comes last. */
  ghost predicate Searched(g: FlowGraph, bb: Block, before: set<Block>, visited: set<Block>,
                           order: seq<Block>, order': seq<Block>, num': map<Block, int>)
  {
    && before <= visited <= g.succs.Keys && bb in visited
    && order <= order' && Numbers(order', num') && num'.Keys <= visited
    && bb in num' && num'[bb] == |order'| - 1
    && (forall w :: w in visited - before ==> NewBlock(g, visited, order, num', w))
    && (forall w :: w in visited - before && w != bb ==> HigherPred(g, num', w))
    && (forall w :: w in before ==> (w in num' <==> w in order))
  }

  ghost predicate NewBlock(g: FlowGraph, visited: set<Block>, order: seq<Block>, num': map<Block, int>, w: Block) {
    && w in g.succs && w in num' && |order| <= num'[w]
    && g.Reachable(w)
    && (forall s :: s in g.succs[w] ==> s in visited)
  }

  /** The same between two children of `bb`, which is visited but not numbered. */
  ghost predicate Searching(g: FlowGraph, bb: Block, before: set<Block>, visited: set<Block>,
                            order: seq<Block>, order': seq<Block>, num': map<Block, int>)
  {
    && before <= visited <= g.succs.Keys && bb in visited && bb !in before
    && order <= order' && Numbers(order', num') && num'.Keys <= visited && bb !in num'
    && (forall w :: w in visited - before && w != bb ==> NewBlock(g, visited, order, num', w))
    && (forall w :: w in visited - before && w != bb ==> ChildOrHigherPred(g, bb, num', w))
    && (forall w :: w in before ==> (w in num' <==> w in order))
  }

  ghost predicate ChildOrHigherPred(g: FlowGraph, bb: Block, num: map<Block, int>, w: Block) {
    (w in g.preds && bb in g.preds[w]) || HigherPred(g, num, w)
  }

  lemma NumbersGrow(order: seq<Block>, num: map<Block, int>, order': seq<Block>, num': map<Block, int>)
    requires Numbers(order, num) && Numbers(order', num') && order <= order'
    ensures forall w :: w in num ==> w in num' && num'[w] == num[w]
    ensures forall w :: w in num <==> w in order
  {
    forall w | w in num
      ensures w in num' && num'[w] == num[w]
    {
      assert order'[num[w]] == w;
    }
    forall w | w in order
      ensures w in num
    {
      var i :| 0 <= i < |order| && order[i] == w;
    }
  }

  lemma SearchStarts(g: FlowGraph, bb: Block, before: set<Block>, order: seq<Block>, num: map<Block, int>)
    requires g.Valid() && bb in g.succs && bb !in before && before <= g.succs.Keys
    requires Numbers(order, num) && num.Keys <= before
    ensures Searching(g, bb, before, before + {bb}, order, order, num)
    ensures forall s :: s in g.succs[bb] ==> s in g.succs
  {
    NumbersGrow(order, num, order, num);
  }

  lemma SearchingFacts(g: FlowGraph, bb: Block, before: set<Block>, visited: set<Block>, order: seq<Block>,
                       order': seq<Block>, num': map<Block, int>)
    requires Searching(g, bb, before, visited, order, order', num')
    ensures before + {bb} <= visited <= g.succs.Keys && Numbers(order', num') && num'.Keys <= visited && bb !in before
  {
  }

  lemma SearchingAfterChild(g: FlowGraph, bb: Block, child: Block, before: set<Block>,
                            order: seq<Block>,
                            visited: set<Block>, order1: seq<Block>, num1: map<Block, int>,
                            visited': set<Block>, order2: seq<Block>, num2: map<Block, int>)
    requires g.Valid() && bb in g.succs && child in g.succs[bb] && child !in visited
    requires Searching(g, bb, before, visited, order, order1, num1)
    requires Searched(g, child, visited, visited', order1, order2, num2)
    ensures Searching(g, bb, before, visited', order, order2, num2) && visited <= visited' && child in visited'
  {
    NumbersGrow(order1, num1, order2, num2);
    forall w | w in visited' - before && w != bb
      ensures NewBlock(g, visited', order, num2, w)
      ensures ChildOrHigherPred(g, bb, num2, w)
    {
      if w in visited {
        assert NewBlock(g, visited, order, num1, w);
        assert ChildOrHigherPred(g, bb, num1, w);
      } else {
        assert NewBlock(g, visited', order1, num2, w);
      }
    }
  }

  lemma SearchedAtEnd(g: FlowGraph, bb: Block, before: set<Block>, visited: set<Block>,
                      order: seq<Block>, order1: seq<Block>, num1: map<Block, int>)
    requires g.Valid() && bb in g.succs && g.Reachable(bb)
    requires Searching(g, bb, before, visited, order, order1, num1)
    requires forall s :: s in g.succs[bb] ==> s in visited
    ensures Searched(g, bb, before, visited, order, order1 + [bb], num1[bb := |order1|])
  {
    var order2, num2 := order1 + [bb], num1[bb := |order1|];
    assert Numbers(order2, num2);
    NumbersGrow(order1, num1, order2, num2);
    forall w | w in visited - before
      ensures NewBlock(g, visited, order, num2, w)
      ensures w != bb ==> HigherPred(g, num2, w)
    {
      if w != bb {
        assert NewBlock(g, visited, order, num1, w);
        assert ChildOrHigherPred(g, bb, num1, w);
      }
    }
  }

  /** What the code needs of its input: `bb2int` must know every predecessor it is asked for. */
  ghost predicate PredsReachable(g: FlowGraph) {
    forall b, p :: b in g.preds && g.Reachable(b) && p in g.preds[b] ==> g.Reachable(p)
  }

  /** A search from the entry reaches exactly the reachable blocks. */
  lemma {:induction false} SearchReaches(g: FlowGraph, visited: set<Block>, p: seq<Block>)
    requires forall w :: w in visited ==> w in g.succs && forall s :: s in g.succs[w] ==> s in visited
    requires g.IsPath(p) && p[0] in visited
    ensures p[|p| - 1] in visited
    decreases |p|
  {
    if |p| > 1 {
      assert p[1] in g.succs[p[0]];
      PathSuffix(g, p, 1);
      SearchReaches(g, visited, p[1..]);
    }
  }

  lemma SearchIsNumbering(g: FlowGraph, visited: set<Block>, order: seq<Block>, num: map<Block, int>)
    requires g.Valid() && PredsReachable(g)
    requires Searched(g, g.entry, {}, visited, [], order, num)
    ensures Numbering(g, num)
  {
    forall w | w in visited
      ensures w in g.succs && w in num && g.Reachable(w)
      ensures forall s :: s in g.succs[w] ==> s in visited
    {
      assert NewBlock(g, visited, [], num, w);
    }
    forall b | g.Reachable(b)
      ensures b in visited
    {
      var p :| g.PathFromTo(p, g.entry, b);
      SearchReaches(g, visited, p);
    }
  }

  lemma SearchEndsAtEntry(g: FlowGraph, visited: set<Block>, order: seq<Block>, num: map<Block, int>)
    requires Searched(g, g.entry, {}, visited, [], order, num)
    ensures EntryFirst(g, Reversed(order), num)
  {
  }

  // ----- how far the fixpoint loop still has to go -----

  ghost function Weight(t: Tree, b: Block): nat
    requires t.Valid()
  {
    if b in t.parent then t.rank[t.root] - t.rank[if b == t.root then b else t.parent[b]] else t.rank[t.root] + 1
  }

  ghost function Potential(t: Tree, order: seq<Block>): nat
    requires t.Valid()
  {
    if order == [] then 0 else Weight(t, order[0]) + Potential(t, order[1..])
  }

  lemma SameWeights(t: Tree, u: Tree, x: Block, n: Block)
    requires t.Valid() && u.Valid() && u == t.Set(x, n)
    ensures forall b :: b != x ==> Weight(u, b) == Weight(t, b)
  {
  }

  lemma {:induction false} PotentialFalls(t: Tree, u: Tree, x: Block, order: seq<Block>)
    requires t.Valid() && u.Valid() && u.rank == t.rank && u.root == t.root
    requires forall b :: b in order && b != x ==> Weight(u, b) == Weight(t, b)
    requires Weight(u, x) < Weight(t, x)
    ensures Potential(u, order) <= Potential(t, order)
    ensures x in order ==> Potential(u, order) < Potential(t, order)
  {
    if order != [] {
      PotentialFalls(t, u, x, order[1..]);
    }
  }

  lemma FreshNextSweep(g: FlowGraph, t: Tree, cur: int)
    requires t.Valid() && Fresh(g, t, -1)
    ensures Fresh(g, t, cur)
  {
    forall b, p, z | FreshAt(g, t, cur, b, p, z)
      ensures t.OnChain(z, p)
    {
      assert FreshAt(g, t, -1, b, p, z);
    }
  }

  lemma FreshSkipRoot(g: FlowGraph, t: Tree)
    requires t.Valid() && Fresh(g, t, t.rank[t.root])
    ensures Fresh(g, t, t.rank[t.root] - 1)
  {
    var cur := t.rank[t.root] - 1;
    forall b, p, z | FreshAt(g, t, cur, b, p, z)
      ensures t.OnChain(z, p)
    {
      assert FreshAt(g, t, t.rank[t.root], b, p, z);
    }
  }

  /** Every numbered block is in the list the sweeps go through. */
  lemma AllVisited(g: FlowGraph, order: seq<Block>, num: map<Block, int>)
    requires EntryFirst(g, order, num)
    ensures forall b :: b in num ==> 0 <= num[b] < |order| && order[|order| - 1 - num[b]] == b
  {
  }

  lemma SoundAtStart(g: FlowGraph, t: Tree)
    requires Numbering(g, t.rank) && t.root == g.entry && t.parent == map[g.entry := g.entry]
    ensures Sound(g, t)
  {
    assert t.Valid();
    forall a, b | b in t.parent && g.Dominates(a, b)
      ensures t.OnChain(a, b)
    {
      OnlyEntryDominatesEntry(g, a);
    }
    assert UpwardClosed(t);
  }

  lemma NothingToKeepAtStart(g: FlowGraph, t: Tree, cur: int)
    requires t.Valid() && t.parent.Keys == {t.root}
    ensures NeverLowers(g, t) && Fresh(g, t, cur)
  {
  }

  /** A sweep that has visited the blocks numbered above `cur`. Before the first
      sweep ends (`!full`) exactly those, and the entry, have a parent. */
  ghost predicate Swept(g: FlowGraph, t: Tree, cur: int, full: bool) {
    && t.Valid() && t.root == g.entry && t.parent[t.root] == t.root
    && Sound(g, t) && NeverLowers(g, t) && Fresh(g, t, cur)
    && (if full then t.parent.Keys == t.rank.Keys else ParentedSoFar(t, cur))
  }

  ghost predicate ParentedSoFar(t: Tree, cur: int) {
    forall a :: a in t.rank ==> (a in t.parent <==> cur < t.rank[a] || a == t.root)
  }

  lemma SweptAtStart(g: FlowGraph, t: Tree, cur: int)
    requires Numbering(g, t.rank) && t.root == g.entry && t.parent == map[g.entry := g.entry]
    requires cur == t.rank[t.root]
    ensures Swept(g, t, cur, false)
  {
    SoundAtStart(g, t);
    NothingToKeepAtStart(g, t, cur);
  }

  lemma SweptIsExact(g: FlowGraph, t: Tree, cur: int)
    requires Swept(g, t, cur, true)
    requires forall x :: x in t.rank ==> Stable(g, t, x)
    ensures Exact(g, t)
  {
    FixpointIsExact(g, t);
  }

  /** The meet can be taken: a predecessor of the block has a parent already. */
  lemma SomePredParented(g: FlowGraph, t: Tree, x: Block, cur: int, full: bool)
    requires x in t.rank && x != t.root && cur == t.rank[x] && Swept(g, t, cur, full)
    ensures x in g.preds
    ensures exists p :: p in g.preds[x] && p in t.parent
    ensures forall p :: p in g.preds[x] ==> p in t.rank
  {
    assert HigherPred(g, t.rank, x);
    var p :| p in g.preds[x] && p in t.rank && t.rank[x] < t.rank[p];
    assert p in t.parent;
  }

  lemma SweepRoot(g: FlowGraph, t: Tree, cur: int, full: bool)
    requires t.root in t.rank && cur == t.rank[t.root] && Swept(g, t, cur, full)
    requires forall a :: a in t.rank && t.rank[a] == cur ==> a == t.root
    ensures Swept(g, t, cur - 1, full) && Stable(g, t, t.root)
  {
    hide Sound;
    FreshSkipRoot(g, t);
  }

  lemma OnlyXAt(g: FlowGraph, t: Tree, x: Block)
    requires Sound(g, t) && x in t.rank
    ensures forall a :: a in t.rank && t.rank[a] == t.rank[x] ==> a == x
    ensures t.Valid() && t.rank[x] <= t.rank[t.root]
  {
  }

  /** Visiting the next block: the table stays as it must be, and unless it is
      unchanged the block has moved closer to the root. */
  lemma SweepStep(g: FlowGraph, t: Tree, u: Tree, x: Block, cur: int, full: bool, n: Block)
    requires x in t.rank && x != t.root && x in g.preds && cur == t.rank[x] && Swept(g, t, cur, full)
    requires IsMeet(g, t, x, n) && u == t.Set(x, n)
    ensures Swept(g, u, cur - 1, full) && u.Valid()
    ensures u == t || Weight(u, x) < Weight(t, x)
  {
    hide Sound, NeverLowers, Fresh, IsMeet;
    OnlyXAt(g, t, x);
    if full {
      LaterParent(g, t, u, x, n);
      SoundIsValid(g, u);
      ChainRanks(t, t.parent[x], n);
      if n == t.parent[x] { assert u.parent == t.parent; }
    } else {
      FirstParent(g, t, u, x, n);
      SoundIsValid(g, u);
    }
  }

  lemma SoundIsValid(g: FlowGraph, t: Tree)
    requires Sound(g, t)
    ensures t.Valid() && t.root == g.entry
  {
  }

  lemma SweepEnds(g: FlowGraph, t: Tree, cur: int, top: int, full: bool)
    requires cur == -1 && Swept(g, t, cur, full)
    ensures Swept(g, t, top, true)
  {
    FreshNextSweep(g, t, top);
  }

  lemma UnchangedIsStable(g: FlowGraph, t: Tree, x: Block, n: Block)
    requires t.Valid() && x in g.preds && x in t.parent && IsMeet(g, t, x, n) && t.parent[x] == n
    ensures Stable(g, t, x)
  {
  }

  /** One step of a finger: the lower of two chains loses only its first block. */
  lemma FingerStep(t: Tree, low: Block, high: Block)
    requires t.Valid() && low in t.parent && high in t.parent && t.rank[low] < t.rank[high]
    ensures low != t.root
    ensures forall z :: t.OnChain(z, low) && t.OnChain(z, high) <==> t.OnChain(z, t.parent[low]) && t.OnChain(z, high)
  {
    if t.OnChain(low, high) {
      ChainRanks(t, high, low);
    }
  }

  /** `r` is the nearest common ancestor of `a` and `b`. */
  ghost predicate Meets(t: Tree, a: Block, b: Block, r: Block)
    requires t.Valid() && a in t.parent && b in t.parent
  {
    && r in t.parent
    && forall z :: t.OnChain(z, r) <==> t.OnChain(z, a) && t.OnChain(z, b)
  }

  /** The meet of the first `k` predecessors that have a parent. */
  ghost predicate MeetsPrefix(t: Tree, preds: seq<Block>, k: int, first: Block, n: Block)
    requires t.Valid() && first in t.parent && 0 <= k <= |preds|
  {
    && n in t.parent
    && forall z :: t.OnChain(z, n) <==>
         t.OnChain(z, first) && forall j :: 0 <= j < k && preds[j] in t.parent ==> t.OnChain(z, preds[j])
  }

  lemma MeetsNone(t: Tree, preds: seq<Block>, first: Block)
    requires t.Valid() && first in t.parent
    ensures MeetsPrefix(t, preds, 0, first, first)
  {
  }

  lemma MeetsPrefixStep(t: Tree, preds: seq<Block>, k: int, first: Block, n: Block, n': Block)
    requires t.Valid() && first in t.parent && 0 <= k < |preds|
    requires MeetsPrefix(t, preds, k, first, n)
    requires if preds[k] in t.parent then Meets(t, preds[k], n, n') else n' == n
    ensures n' in t.parent && MeetsPrefix(t, preds, k + 1, first, n')
  {
    hide Tree.Valid;
  }

  lemma MeetsAll(g: FlowGraph, t: Tree, bb: Block, first: Block, n: Block)
    requires t.Valid() && bb in g.preds && first in t.parent && first in g.preds[bb]
    requires MeetsPrefix(t, g.preds[bb], |g.preds[bb]|, first, n)
    ensures IsMeet(g, t, bb, n)
  {
    var preds := g.preds[bb];
    forall z | z in t.rank
      ensures t.OnChain(z, n) <==> OnAllPreds(g, t, bb, z)
    {
      if t.OnChain(z, n) {
        forall p | p in preds && p in t.parent
          ensures t.OnChain(z, p)
        {
          var j :| 0 <= j < |preds| && preds[j] == p;
        }
      }
    }
  }

  ghost function Parents(num: map<Block, int>, doms: seq<Option<Block>>): map<Block, Block> {
    map b | b in num && 0 <= num[b] < |doms| && doms[num[b]].Some? :: doms[num[b]].value
  }

  lemma ParentsUpdate(num: map<Block, int>, doms: seq<Option<Block>>, x: Block, n: Block)
    requires x in num && 0 <= num[x] < |doms|
    requires forall b :: b in num && num[b] == num[x] ==> b == x
    ensures Parents(num, doms[num[x] := Some(n)]) == Parents(num, doms)[x := n]
    ensures Parents(num, doms[num[x] := Some(n)]) == Parents(num, doms) <==> doms[num[x]] == Some(n)
  {
    var p := Parents(num, doms);
    assert doms[num[x]] == Some(n) ==> p == p[x := n];
    assert p[x := n] == p ==> x in p && p[x] == n;
  }

  lemma RunnerStep(t: Tree, start: Block, runner: Block)
    requires t.Valid() && start in t.parent && runner in t.parent && runner != t.root
    requires t.OnChain(runner, start)
    ensures t.parent[runner] in t.parent && t.OnChain(t.parent[runner], start)
    ensures t.parent[runner] in t.rank && t.rank[runner] < t.rank[t.parent[runner]] <= t.rank[t.root]
    ensures forall x :: MeetsFrom(t, start, t.parent[runner], x) <==> MeetsFrom(t, start, runner, x) || x == runner
  {
    ParentAboveChild(t, runner);
    ChainTransitive(t, start, runner, t.parent[runner]);
  }

  /** A runner that has not reached its stop is not at the root. */
  lemma RunnerBelow(t: Tree, runner: Block, stop: Block)
    requires t.Valid() && runner in t.parent && stop in t.parent && t.OnChain(stop, runner) && runner != stop
    ensures runner != t.root && runner in t.rank
  {
  }

  /** What one runner has added on its way from `start` to `runner`. */
  ghost predicate RunAdded(t: Tree, start: Block, runner: Block, b: Block, before: map<Block, set<Block>>,
                           after: map<Block, set<Block>>)
    requires t.Valid()
  {
    && after.Keys == before.Keys
    && forall x :: x in before ==> after[x] == before[x] + if MeetsFrom(t, start, runner, x) then {b} else {}
  }

  lemma RunStarts(t: Tree, start: Block, b: Block, before: map<Block, set<Block>>)
    requires t.Valid() && start in t.parent
    ensures t.OnChain(start, start) && RunAdded(t, start, start, b, before, before)
    ensures t.root in t.rank && start in t.rank
  {
  }

  lemma RunAddedStep(t: Tree, start: Block, runner: Block, b: Block, before: map<Block, set<Block>>,
                     after: map<Block, set<Block>>, after': map<Block, set<Block>>)
    requires t.Valid() && runner in t.parent && runner in after && RunAdded(t, start, runner, b, before, after)
    requires forall x :: MeetsFrom(t, start, t.parent[runner], x) <==> MeetsFrom(t, start, runner, x) || x == runner
    requires after' == after[runner := after[runner] + {b}]
    ensures RunAdded(t, start, t.parent[runner], b, before, after')
  {
    hide Tree.Valid, MeetsFrom;
  }

  lemma RunAddedAll(t: Tree, start: Block, stop: Block, b: Block, before: map<Block, set<Block>>,
                    after: map<Block, set<Block>>)
    requires t.Valid() && RunAdded(t, start, stop, b, before, after)
    ensures forall x :: x in before ==> after[x] == before[x] + if MeetsFrom(t, start, stop, x) then {b} else {}
  {
    hide Tree.Valid, MeetsFrom;
  }

  /** What the runners of `blocks` have added to the frontiers. */
  ghost predicate Walked(g: FlowGraph, t: Tree, blocks: seq<Block>, before: map<Block, set<Block>>,
                         after: map<Block, set<Block>>)
  {
    && t.Valid() && after.Keys == before.Keys
    && forall x, b {:trigger b in after[x]} :: x in before ==>
         (b in after[x] <==> (b in before[x] || (b in blocks && RunnerMeets(g, t, b, x))))
  }

  lemma WalkedNone(g: FlowGraph, t: Tree, before: map<Block, set<Block>>)
    requires t.Valid()
    ensures Walked(g, t, [], before, before)
  {
  }

  lemma WalkedKeys(g: FlowGraph, t: Tree, blocks: seq<Block>, before: map<Block, set<Block>>,
                   after: map<Block, set<Block>>)
    requires Walked(g, t, blocks, before, after)
    ensures after.Keys == before.Keys
  {
  }

  lemma WalkedStep(g: FlowGraph, t: Tree, blocks: seq<Block>, b: Block,
                   before: map<Block, set<Block>>, after: map<Block, set<Block>>, after': map<Block, set<Block>>)
    requires Walked(g, t, blocks, before, after) && after'.Keys == after.Keys
    requires forall x, c :: x in after ==> (c in after'[x] <==> (c in after[x] || (c == b && RunnerMeets(g, t, b, x))))
    ensures Walked(g, t, blocks + [b], before, after')
  {
    hide RunnerMeets, Tree.Valid;
  }

  lemma MetByNone(t: Tree, preds: seq<Block>, stop: Block)
    requires t.Valid()
    ensures forall x :: !MetByPrefix(t, preds, 0, stop, x)
  {
  }

  /** What the runners from the first `j` predecessors of `b` have added. */
  ghost predicate PrefixAdded(t: Tree, preds: seq<Block>, j: int, stop: Block, b: Block,
                              before: map<Block, set<Block>>, after: map<Block, set<Block>>)
    requires t.Valid() && 0 <= j <= |preds|
  {
    && after.Keys == before.Keys
    && forall x :: x in before ==> after[x] == before[x] + if MetByPrefix(t, preds, j, stop, x) then {b} else {}
  }

  lemma PrefixAddedStep(t: Tree, preds: seq<Block>, j: int, stop: Block, b: Block,
                        before: map<Block, set<Block>>, after: map<Block, set<Block>>, after': map<Block, set<Block>>)
    requires t.Valid() && 0 <= j < |preds| && PrefixAdded(t, preds, j, stop, b, before, after)
             && after'.Keys == after.Keys
    requires forall x :: x in after ==> after'[x] == after[x] + if MeetsFrom(t, preds[j], stop, x) then {b} else {}
    ensures PrefixAdded(t, preds, j + 1, stop, b, before, after')
  {
    hide MeetsFrom, MetByPrefix, Tree.Valid;
    forall x | x in before
      ensures after'[x] == before[x] + if MetByPrefix(t, preds, j + 1, stop, x) then {b} else {}
    {
      MetByPrefixStep(t, preds, j, stop, x);
    }
  }

  lemma MetByAll(g: FlowGraph, t: Tree, b: Block)
    requires t.Valid() && b in t.parent && t.parent[b] in t.parent && b in g.preds && |g.preds[b]| >= 2
    ensures forall x :: MetByPrefix(t, g.preds[b], |g.preds[b]|, t.parent[b], x) <==> RunnerMeets(g, t, b, x)
  {
    assert g.preds[b][..|g.preds[b]|] == g.preds[b];
  }

  lemma PrefixAddedNone(t: Tree, preds: seq<Block>, stop: Block, b: Block, before: map<Block, set<Block>>)
    requires t.Valid()
    ensures PrefixAdded(t, preds, 0, stop, b, before, before)
  {
    hide MetByPrefix;
    MetByNone(t, preds, stop);
  }

  lemma PrefixAddedAll(g: FlowGraph, t: Tree, b: Block, before: map<Block, set<Block>>, after: map<Block, set<Block>>)
    requires t.Valid() && b in t.parent && t.parent[b] in t.parent && b in g.preds && |g.preds[b]| >= 2
    requires PrefixAdded(t, g.preds[b], |g.preds[b]|, t.parent[b], b, before, after)
    ensures forall x, c :: x in before ==> (c in after[x] <==> (c in before[x] || (c == b && RunnerMeets(g, t, b, x))))
  {
    hide MetByPrefix, RunnerMeets;
    MetByAll(g, t, b);
  }

  lemma NoRunners(g: FlowGraph, t: Tree, b: Block)
    requires t.Valid() && b in g.preds && |g.preds[b]| < 2
    ensures forall x :: !RunnerMeets(g, t, b, x)
  {
  }

  class DominatorSolver {
    var reversePostOrder: seq<Block>
    var bb2int: map<Block, int>
    var doms: seq<Option<Block>>

    constructor ()
      ensures reversePostOrder == [] && bb2int == map[] && doms == []
    {
      reversePostOrder, bb2int, doms := [], map[], [];
    }

    /** The `doms` table as a partial tree over blocks. */
    ghost function Table(g: FlowGraph): Tree
      reads this
    {
      Tree(g.entry, bb2int, Parents(bb2int, doms))
    }

    ghost predicate Numbered(g: FlowGraph)
      reads this
    {
      Numbering(g, bb2int) && EntryFirst(g, reversePostOrder, bb2int)
    }

    /** `doms` can be indexed by the number of every numbered block. */
    ghost predicate Ready(g: FlowGraph)
      reads this
    {
      && Table(g).Valid()
      && (forall b :: b in bb2int ==> 0 <= bb2int[b] < |doms|)
      && (forall a, b {:trigger bb2int[a], bb2int[b]} :: a in bb2int && b in bb2int && bb2int[a] == bb2int[b] ==>
            a == b)
    }

    /** Depth-first search from `bb`; `visited` is handed back enlarged. While it
        runs, `reversePostOrder` holds the post-order. */
    method GetPostOrder(g: FlowGraph, bb: Block, before: set<Block>) returns (visited: set<Block>)
      requires g.Valid() && bb in g.succs && bb !in before && before <= g.succs.Keys && g.Reachable(bb)
      requires Numbers(reversePostOrder, bb2int) && bb2int.Keys <= before
      modifies this
      ensures doms == old(doms)
      ensures Searched(g, bb, before, visited, old(reversePostOrder), reversePostOrder, bb2int)
      decreases g.succs.Keys - before
    {
      hide Searching, Searched, Numbers, FlowGraph.Valid, FlowGraph.Reachable;
      SearchStarts(g, bb, before, reversePostOrder, bb2int);
      visited := before + {bb};
      var children := g.succs[bb];
      ghost var order := reversePostOrder;
      for i := 0 to |children|
        invariant doms == old(doms)
        invariant Searching(g, bb, before, visited, order, reversePostOrder, bb2int)
        invariant forall j :: 0 <= j < i ==> children[j] in visited
      {
        var child := children[i];
        if child !in visited {
          ReachableStep(g, bb, child);
          SearchingFacts(g, bb, before, visited, order, reversePostOrder, bb2int);
          ghost var visited1, order1, num1 := visited, reversePostOrder, bb2int;
          visited := GetPostOrder(g, child, visited);
          SearchingAfterChild(g, bb, child, before, order, visited1, order1, num1, visited, reversePostOrder, bb2int);
        }
      }
      SearchedAtEnd(g, bb, before, visited, order, reversePostOrder, bb2int);
      bb2int := bb2int[bb := |reversePostOrder|];
      reversePostOrder := reversePostOrder + [bb];
    }

    /** Numbers every reachable block; the entry gets the highest number. */
    method GetReversePostOrder(g: FlowGraph)
      requires g.Valid()
      requires PredsReachable(g)
      modifies this
      ensures doms == [] && Numbered(g)
    {
      hide Searched, PredsReachable, Numbering, EntryFirst, FlowGraph.Valid, Reversed;
      doms, reversePostOrder, bb2int := [], [], map[];
      EntryReachable(g);
      var visited := GetPostOrder(g, g.entry, {});
      SearchIsNumbering(g, visited, reversePostOrder, bb2int);
      SearchEndsAtEntry(g, visited, reversePostOrder, bb2int);
      reversePostOrder := Reversed(reversePostOrder);
    }

    /** The two-finger walk. */
    method Intersect(g: FlowGraph, b1: Block, b2: Block) returns (r: Block)
      requires Ready(g) && b1 in Table(g).parent && b2 in Table(g).parent
      ensures Meets(Table(g), b1, b2, r)
      ensures bb2int[b1] <= bb2int[r] && bb2int[b2] <= bb2int[r]
    {
      ghost var t := Table(g);
      var finger1, finger2 := b1, b2;
      while finger1 != finger2
        invariant finger1 in t.parent && finger2 in t.parent
        invariant forall z :: t.OnChain(z, b1) && t.OnChain(z, b2) <==> t.OnChain(z, finger1) && t.OnChain(z, finger2)
        invariant bb2int[b1] <= bb2int[finger1] && bb2int[b2] <= bb2int[finger2]
        decreases t.rank[t.root] - t.rank[finger1] + t.rank[t.root] - t.rank[finger2]
      {
        ghost var start1, start2 := finger1, finger2;
        while bb2int[finger1] < bb2int[finger2]
          invariant finger1 in t.parent
          invariant forall z :: t.OnChain(z, b1) && t.OnChain(z, b2) <==> t.OnChain(z, finger1) && t.OnChain(z, finger2)
          invariant bb2int[start1] <= bb2int[finger1]
          invariant finger1 == start1 || bb2int[start1] < bb2int[finger1]
          decreases t.rank[t.root] - t.rank[finger1]
        {
          FingerStep(t, finger1, finger2);
          finger1 := doms[bb2int[finger1]].value;
        }
        while bb2int[finger2] < bb2int[finger1]
          invariant finger2 in t.parent
          invariant forall z :: t.OnChain(z, b1) && t.OnChain(z, b2) <==> t.OnChain(z, finger1) && t.OnChain(z, finger2)
          invariant bb2int[start2] <= bb2int[finger2]
          invariant finger2 == start2 || bb2int[start2] < bb2int[finger2]
          decreases t.rank[t.root] - t.rank[finger2]
        {
          FingerStep(t, finger2, finger1);
          finger2 := doms[bb2int[finger2]].value;
        }
      }
      r := finger1;
    }

    method FirstWithParent(preds: seq<Block>) returns (p: Block)
      requires forall q :: q in preds ==> q in bb2int && 0 <= bb2int[q] < |doms|
      requires exists q :: q in preds && doms[bb2int[q]].Some?
      ensures p in preds && doms[bb2int[p]].Some?
    {
      ghost var known :| 0 <= known < |preds| && doms[bb2int[preds[known]]].Some?;
      var i := 0;
      while doms[bb2int[preds[i]]].None?
        invariant 0 <= i <= known
        decreases known - i
      {
        i := i + 1;
      }
      p := preds[i];
    }

    /** The parent the predecessors of `bb` agree on: the first one that has a
        parent itself, intersected with every other such one in list order. */
    method NewIdom(g: FlowGraph, bb: Block) returns (newIdom: Block)
      requires Ready(g) && bb in g.preds
      requires forall p :: p in g.preds[bb] ==> p in bb2int
      requires exists p :: p in g.preds[bb] && p in Table(g).parent
      ensures IsMeet(g, Table(g), bb, newIdom)
    {
      hide Tree.Valid, Meets, MeetsPrefix, IsMeet;
      ghost var t := Table(g);
      var preds := g.preds[bb];
      newIdom := FirstWithParent(preds);
      ghost var first := newIdom;
      MeetsNone(t, preds, first);
      for k := 0 to |preds|
        invariant newIdom in t.parent
        invariant MeetsPrefix(t, preds, k, first, newIdom)
      {
        ghost var n := newIdom;
        if doms[bb2int[preds[k]]].Some? {
          newIdom := Intersect(g, preds[k], newIdom);
        }
        MeetsPrefixStep(t, preds, k, first, n, newIdom);
      }
      MeetsAll(g, t, bb, first, newIdom);
    }

    /** `doms[bb2int[bb]] = newIdom`, when that is a change. */
    method SetParent(g: FlowGraph, bb: Block, newIdom: Block) returns (changed: bool)
      requires Ready(g) && bb in bb2int && Table(g).Set(bb, newIdom).Valid()
      modifies this`doms
      ensures Ready(g) && Table(g) == old(Table(g)).Set(bb, newIdom)
      ensures changed <==> Table(g) != old(Table(g))
    {
      hide Tree.Valid, Parents;
      ParentsUpdate(bb2int, doms, bb, newIdom);
      changed := doms[bb2int[bb]] != Some(newIdom);
      if changed {
        doms := doms[bb2int[bb] := Some(newIdom)];
      } else {
        assert doms == doms[bb2int[bb] := Some(newIdom)];
      }
    }

    /** One visit of the sweep: `bb` gets the parent its predecessors agree on. */
    method Visit(g: FlowGraph, bb: Block, ghost cur: int, ghost full: bool) returns (changed: bool)
      requires Ready(g) && bb in bb2int && bb != g.entry && cur == bb2int[bb] && Swept(g, Table(g), cur, full)
      modifies this`doms
      ensures Ready(g) && Swept(g, Table(g), cur - 1, full)
      ensures !changed ==> Table(g) == old(Table(g)) && Stable(g, Table(g), bb)
      ensures changed && bb in reversePostOrder ==>
        Potential(Table(g), reversePostOrder) < Potential(old(Table(g)), reversePostOrder)
    {
      hide Swept, IsMeet, Stable, Tree.Valid, Potential, Weight, Parents;
      ghost var t := Table(g);
      SomePredParented(g, t, bb, cur, full);
      var newIdom := NewIdom(g, bb);
      SweepStep(g, t, t.Set(bb, newIdom), bb, cur, full, newIdom);
      changed := SetParent(g, bb, newIdom);
      if changed {
        ghost var u := Table(g);
        SameWeights(t, u, bb, newIdom);
        PotentialFalls(t, u, bb, reversePostOrder);
      } else {
        assert t.parent == t.parent[bb := newIdom];
        UnchangedIsStable(g, t, bb, newIdom);
      }
    }

    /** One sweep over the blocks in reverse post-order. */
    method Sweep(g: FlowGraph, ghost top: int, ghost full: bool) returns (changed: bool)
      requires Ready(g) && EntryFirst(g, reversePostOrder, bb2int)
      requires top == |reversePostOrder| - 1 && Swept(g, Table(g), top, full)
      modifies this`doms
      ensures Ready(g) && Swept(g, Table(g), top, true)
      ensures !changed ==> forall b :: b in bb2int ==> Stable(g, Table(g), b)
      ensures changed ==> Potential(Table(g), reversePostOrder) < Potential(old(Table(g)), reversePostOrder)
      ensures !changed ==> Table(g) == old(Table(g))
    {
      hide Swept, Stable, Potential, Parents, Tree.Valid;
      changed := false;
      ghost var start, cur := Table(g), top;
      for k := 0 to |reversePostOrder|
        invariant Ready(g) && cur == top - k && Swept(g, Table(g), cur, full)
        invariant !changed ==> Table(g) == start && forall j :: 0 <= j < k ==> Stable(g, start, reversePostOrder[j])
        invariant changed ==> Potential(Table(g), reversePostOrder) < Potential(start, reversePostOrder)
      {
        var bb := reversePostOrder[k];
        if bb == g.entry {
          SweepRoot(g, Table(g), cur, full);
        } else {
          var changedHere := Visit(g, bb, cur, full);
          changed := changed || changedHere;
        }
        cur := cur - 1;
      }
      SweepEnds(g, Table(g), cur, top, full);
      AllVisited(g, reversePostOrder, bb2int);
    }

    /** Only the root is its own parent. */
    method StartTable(g: FlowGraph)
      requires g.Valid() && PredsReachable(g)
      modifies this
      ensures Ready(g) && EntryFirst(g, reversePostOrder, bb2int) && g.entry in bb2int
              && bb2int[g.entry] == |reversePostOrder| - 1
      ensures Swept(g, Table(g), |reversePostOrder| - 1, false)
    {
      hide Swept, Numbering;
      GetReversePostOrder(g);
      var root := g.entry;
      var rootId := bb2int[root];
      doms := seq(rootId, i => None) + [Some(root)];
      assert Table(g).parent == map[root := root];
      SweptAtStart(g, Table(g), rootId);
    }

    /** The fixpoint: sweeps until one of them changes nothing. */
    method Solve(g: FlowGraph)
      requires g.Valid() && PredsReachable(g)
      modifies this
      ensures Ready(g) && Exact(g, Table(g)) && EntryFirst(g, reversePostOrder, bb2int)
    {
      hide Swept, Numbering, Stable, EntryFirst, Exact, Potential;
      StartTable(g);
      var top := |reversePostOrder| - 1;
      ghost var full := false;
      var changed := true;
      while changed
        invariant Ready(g) && EntryFirst(g, reversePostOrder, bb2int) && top == |reversePostOrder| - 1
        invariant Swept(g, Table(g), top, full)
        invariant !changed ==> full && forall b :: b in bb2int ==> Stable(g, Table(g), b)
        decreases Potential(Table(g), reversePostOrder), changed
      {
        changed := Sweep(g, top, full);
        full := true;
      }
      SweptIsExact(g, Table(g), top);
    }

    /** One runner: from `start` up to the parent of `b`, which joins the
        frontier of every block passed. */
    method Run(g: FlowGraph, b: Block, start: Block, before: map<Block, set<Block>>)
      returns (frontier: map<Block, set<Block>>)
      requires Ready(g) && b in bb2int && b in Table(g).parent && Table(g).parent[b] in Table(g).parent
      requires start in Table(g).parent && Table(g).OnChain(Table(g).parent[b], start)
      requires bb2int.Keys <= before.Keys
      ensures frontier.Keys == before.Keys
      ensures forall x :: x in before ==>
        frontier[x] == before[x] + if MeetsFrom(Table(g), start, Table(g).parent[b], x) then {b} else {}
    {
      hide Tree.Valid, RunAdded, MeetsFrom;
      ghost var t := Table(g);
      ghost var stop := t.parent[b];
      frontier := before;
      var runner := start;
      RunStarts(t, start, b, before);
      while runner != doms[bb2int[b]].value
        invariant runner in t.parent && t.root in t.rank && runner in t.rank
        invariant t.OnChain(stop, runner) && t.OnChain(runner, start)
        invariant frontier.Keys == before.Keys && RunAdded(t, start, runner, b, before, frontier)
        decreases t.rank[t.root] - t.rank[runner]
      {
        RunnerBelow(t, runner, stop);
        RunnerStep(t, start, runner);
        ghost var frontier0, runner0 := frontier, runner;
        frontier := frontier[runner := frontier[runner] + {b}];
        runner := doms[bb2int[runner]].value;
        RunAddedStep(t, start, runner0, b, before, frontier0, frontier);
      }
      RunAddedAll(t, start, stop, b, before, frontier);
    }

    /** All runners of one block; there are none if it has fewer than two incoming edges. */
    method RunAll(g: FlowGraph, b: Block, before: map<Block, set<Block>>) returns (frontier: map<Block, set<Block>>)
      requires Ready(g) && Exact(g, Table(g)) && b in bb2int && bb2int.Keys <= before.Keys
      ensures frontier.Keys == before.Keys
      ensures forall x, c :: x in before ==>
        (c in frontier[x] <==> (c in before[x] || (c == b && RunnerMeets(g, Table(g), b, x))))
    {
      hide Exact, Tree.Valid, MeetsFrom, MetByPrefix, PrefixAdded, RunnerMeets, Ready;
      ghost var t := Table(g);
      ExactAt(g, t, b, b, b);
      frontier := before;
      var preds := g.preds[b];
      if |preds| >= 2 {
        ParentOnPredChain(g, t, b, preds[0]);
        PrefixAddedNone(t, preds, t.parent[b], b, before);
        for j := 0 to |preds|
          invariant PrefixAdded(t, preds, j, t.parent[b], b, before, frontier) && frontier.Keys == before.Keys
        {
          ghost var frontier0 := frontier;
          ParentOnPredChain(g, t, b, preds[j]);
          frontier := Run(g, b, preds[j], frontier);
          PrefixAddedStep(t, preds, j, t.parent[b], b, before, frontier0, frontier);
        }
        PrefixAddedAll(g, t, b, before, frontier);
      } else {
        NoRunners(g, t, b);
      }
    }

    /** The frontiers of all blocks, each block of `blocks` being offered to the
        blocks its runners pass. */
    method WalkFrontiers(g: FlowGraph, blocks: seq<Block>, before: map<Block, set<Block>>)
      returns (frontier: map<Block, set<Block>>)
      requires Ready(g) && Exact(g, Table(g))
      requires forall b :: b in blocks ==> b in bb2int
      requires bb2int.Keys <= before.Keys
      ensures Walked(g, Table(g), blocks, before, frontier)
    {
      hide Exact, Walked, Tree.Valid;
      ghost var t := Table(g);
      frontier := before;
      WalkedNone(g, t, before);
      for i := 0 to |blocks|
        invariant Walked(g, t, blocks[..i], before, frontier)
      {
        ghost var frontier0 := frontier;
        WalkedKeys(g, t, blocks[..i], before, frontier);
        frontier := RunAll(g, blocks[i], frontier);
        WalkedStep(g, t, blocks[..i], blocks[i], before, frontier0, frontier);
        assert blocks[..i + 1] == blocks[..i] + [blocks[i]];
      }
      assert blocks[..|blocks|] == blocks;
    }
  }
}
