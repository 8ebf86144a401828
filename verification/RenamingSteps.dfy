/** One step of the renaming at a time: what the names given so far keep true. */
module RenamingSteps {
  import opened FlowGraphs
  import opened DominatorTheory
  import opened Ir
  import opened Semantics
  import opened Substitutions
  import opened PhiInsertion
  import opened PhiPlacement
  import opened ReachingDefinitions
  import opened Renaming
  import opened RenamingRuns

  /** A value the renaming may push: the result, if of an instruction, of one that stays. */
  ghost predicate Known(p: Code, v: Value) {
    v.Res? ==> Live(p.instrs, v.i) && (OpOf(p, v.i).Act? || OpOf(p, v.i).PhiOp?)
  }

  ghost predicate AllKnown(p: Code, n: Names) {
    && (forall i :: i in n.rho ==> Known(p, n.rho[i]))
    && (forall i :: i in n.pushed ==> Known(p, n.pushed[i]))
    && (forall b, v :: b in n.tops && v in n.tops[b] ==> Known(p, n.tops[b][v]))
  }

  /** Names belong to instructions of the blocks `done`, and of the first `k` of `b`. */
  ghost predicate Located(p: Code, n: Names, done: set<Block>, b: Block, k: int) {
    forall i :: i in n.rho || i in n.pushed ==> StandsIn(p, done, b, k, i)
  }

  ghost predicate StandsIn(p: Code, done: set<Block>, b: Block, k: int, i: Inst) {
    exists c, j :: IsAt(p, c, j, i) && (c in done || (c == b && j < k))
  }

  /** All blocks of `done` have been named. */
  ghost predicate DoneNamed(p: Code, t: Tree, n: Names, done: set<Block>)
    requires t.Valid()
  {
    done <= p.instrs.Keys && forall c :: c in done ==> NamedBlock(p, t, n, c)
  }

  ghost predicate NamesSound(p: Code, n: Names) {
    ReplacesLoads(p, n.rho) && PushedAreStores(p, n.pushed) && AllKnown(p, n)
  }

  /** Between two visits. */
  ghost predicate Settled(p: Code, t: Tree, n: Names, done: set<Block>)
    requires t.Valid()
  {
    n.tops.Keys == done && DoneNamed(p, t, n, done) && NamesSound(p, n) && Located(p, n, done, 0, 0)
  }

  /** In the visit of `b`, before its instruction `k`. */
  ghost predicate Progress(p: Code, t: Tree, n: Names, done: set<Block>, b: Block, k: nat)
    requires t.Valid()
  {
    && b in p.instrs && b !in done && n.tops.Keys == done + {b} && k <= |ListOf(p, b)|
    && DoneNamed(p, t, n, done) && NamesSound(p, n) && Located(p, n, done, b, k)
    && PhisOnTop(p, n, b) && Inherits(p, t, n, b) && NamedUpTo(p, n, b, k)
  }

  /** With a block come its dominators. */
  ghost predicate DominatorsIn(g: FlowGraph, done: set<Block>) {
    forall a, b :: b in done && g.Dominates(a, b) ==> a in done
  }

  ghost predicate DominatorsBefore(g: FlowGraph, done: set<Block>, b: Block) {
    forall a :: g.StrictlyDominates(a, b) ==> a in done
  }

  // ----- more names -----

  /** `m` has the names of `n`, and new ones only outside `done`. */
  ghost predicate Extends(p: Code, n: Names, m: Names, done: set<Block>) {
    && (forall i :: i in n.rho ==> i in m.rho && m.rho[i] == n.rho[i])
    && (forall i :: i in n.pushed ==> i in m.pushed && m.pushed[i] == n.pushed[i])
    && (forall b :: b in n.tops ==> b in m.tops && m.tops[b] == n.tops[b])
    && (forall c :: c in done ==> NothingPushedIn(p, n, m, c, |ListOf(p, c)|))
  }

  ghost predicate NothingPushedIn(p: Code, n: Names, m: Names, c: Block, k: int) {
    forall j :: 0 <= j < k && j < |ListOf(p, c)| && ListOf(p, c)[j] in m.pushed ==> ListOf(p, c)[j] in n.pushed
  }

  lemma ExtendsRefl(p: Code, n: Names, done: set<Block>)
    ensures Extends(p, n, n, done)
  {
  }

  lemma ExtendsTrans(p: Code, n: Names, m: Names, r: Names, done: set<Block>, done': set<Block>)
    requires Extends(p, n, m, done) && Extends(p, m, r, done') && done <= done'
    ensures Extends(p, n, r, done)
  {
    forall c | c in done
      ensures NothingPushedIn(p, n, r, c, |ListOf(p, c)|)
    {
      assert NothingPushedIn(p, n, m, c, |ListOf(p, c)|);
      assert NothingPushedIn(p, m, r, c, |ListOf(p, c)|);
    }
  }

  lemma {:induction false} CurKept(p: Code, n: Names, m: Names, b: Block, k: nat)
    requires k <= |ListOf(p, b)| && NothingPushedIn(p, n, m, b, k) && TopsAt(m, b) == TopsAt(n, b)
    requires forall i :: i in n.pushed ==> i in m.pushed && m.pushed[i] == n.pushed[i]
    ensures Cur(p, m, b, k) == Cur(p, n, b, k)
  {
    if k > 0 {
      CurKept(p, n, m, b, k - 1);
      CurNext(p, n, b, k - 1);
      CurNext(p, m, b, k - 1);
      assert ListOf(p, b)[k - 1] in m.pushed ==> ListOf(p, b)[k - 1] in n.pushed;
    }
  }

  lemma NamedUpToKept(p: Code, n: Names, m: Names, b: Block, k: nat)
    requires k <= |ListOf(p, b)| && NamedUpTo(p, n, b, k) && NothingPushedIn(p, n, m, b, k)
             && TopsAt(m, b) == TopsAt(n, b)
    requires forall i :: i in n.rho ==> i in m.rho && m.rho[i] == n.rho[i]
    requires forall i :: i in n.pushed ==> i in m.pushed && m.pushed[i] == n.pushed[i]
    requires ReplacesLoads(p, m.rho)
    ensures NamedUpTo(p, m, b, k)
  {
    hide Cur, OpOf;
    forall j: nat | j < k
      ensures NamedAt(p, m, b, j)
    {
      assert NamedAt(p, n, b, j);
      CurKept(p, n, m, b, j);
    }
  }

  lemma OutKept(p: Code, n: Names, m: Names, done: set<Block>, c: Block)
    requires Extends(p, n, m, done) && c in done && c in n.tops
    ensures Out(p, m, c) == Out(p, n, c)
  {
    CurKept(p, n, m, c, |ListOf(p, c)|);
  }

  lemma InheritsKept(p: Code, t: Tree, n: Names, m: Names, done: set<Block>, c: Block)
    requires t.Valid() && Extends(p, n, m, done) && done <= n.tops.Keys && Inherits(p, t, n, c)
    requires c != t.root ==> t.parent[c] in done
    ensures Inherits(p, t, m, c)
  {
    hide Loaded, HasPhi, Out;
    if c != t.root {
      OutKept(p, n, m, done, t.parent[c]);
    }
  }

  lemma ParentDone(p: Code, t: Tree, done: set<Block>, c: Block)
    requires Exact(p.cfg, t) && c in t.parent && c != t.root && DominatorsBefore(p.cfg, done, c)
    ensures t.Valid() && t.parent[c] in done
  {
    ParentIsImmediateDominator(p.cfg, t, c);
  }

  lemma NamedBlockKept(p: Code, t: Tree, n: Names, m: Names, done: set<Block>, c: Block)
    requires Exact(p.cfg, t) && DominatorsIn(p.cfg, done) && Extends(p, n, m, done) && done <= n.tops.Keys && c in done
    requires t.Valid() && NamedBlock(p, t, n, c) && ReplacesLoads(p, m.rho)
    ensures NamedBlock(p, t, m, c)
  {
    hide Exact, OpOf, Inherits, NamedUpTo;
    assert c in t.parent by { InheritsInTree(p, t, n, c); }
    if c != t.root {
      ParentDone(p, t, done, c);
    }
    InheritsKept(p, t, n, m, done, c);
    NamedUpToKept(p, n, m, c, |ListOf(p, c)|);
  }

  lemma InheritsInTree(p: Code, t: Tree, n: Names, c: Block)
    requires t.Valid() && Inherits(p, t, n, c)
    ensures c in t.parent
  {
  }

  lemma DoneKept(p: Code, t: Tree, n: Names, m: Names, done: set<Block>)
    requires Exact(p.cfg, t) && DominatorsIn(p.cfg, done) && Extends(p, n, m, done) && done <= n.tops.Keys
    requires t.Valid() && DoneNamed(p, t, n, done) && ReplacesLoads(p, m.rho)
    ensures DoneNamed(p, t, m, done)
  {
    hide Exact, NamedBlock, Extends;
    forall c | c in done
      ensures NamedBlock(p, t, m, c)
    {
      NamedBlockKept(p, t, n, m, done, c);
    }
  }

  // ----- entering a block -----

  /** The tops once the phis of `b` are pushed on those it is entered with. */
  ghost predicate PhisPushed(p: Code, b: Block, arriving: map<Inst, Value>, tops: map<Inst, Value>) {
    && (forall j, i :: IsAt(p, b, j, i) && OpOf(p, i).PhiOp? ==> ValueIn(tops, OpOf(p, i).v) == Some(Res(i)))
    && (forall v :: !HasPhi(p, b, v) ==> ValueIn(tops, v) == ValueIn(arriving, v))
  }

  /** The tops with which the search arrives at the end of `path`. */
  function Arriving(p: Code, n: Names, path: seq<Block>): map<Inst, Value> {
    if |path| < 2 then map[] else Out(p, n, path[|path| - 2])
  }

  /** `path` is the way the search came to `b`. */
  ghost predicate CameBy(p: Code, path: seq<Block>, done: set<Block>, b: Block) {
    && p.cfg.PathFromTo(path, p.cfg.entry, b)
    && forall j :: 0 <= j < |path| - 1 ==> path[j] in done
  }

  lemma CameByDominators(p: Code, path: seq<Block>, done: set<Block>, b: Block)
    requires CameBy(p, path, done, b)
    ensures DominatorsBefore(p.cfg, done, b)
  {
    forall a | p.cfg.StrictlyDominates(a, b)
      ensures a in done
    {
      var j :| 0 <= j < |path| && path[j] == a;
    }
  }

  lemma DominatorsInAdd(g: FlowGraph, done: set<Block>, b: Block)
    requires DominatorsIn(g, done) && DominatorsBefore(g, done, b)
    ensures DominatorsIn(g, done + {b})
  {
    hide FlowGraph.Dominates;
  }

  lemma TopsInheritEntry(p: Code, n: Names, path: seq<Block>, tops: map<Inst, Value>)
    requires WellFormed(p) && PhisInOrder(p) && p.cfg.PathFromTo(path, p.cfg.entry, p.cfg.entry)
    requires PhisPushed(p, p.cfg.entry, Arriving(p, n, path), tops)
    ensures tops == map[]
  {
    hide HasPhi, WellFormed, PhisInOrder, Out;
    OnlyEntryPath(p, path);
    EntryHasNoPhis(p);
    forall v
      ensures v !in tops
    {
      assert ValueIn(tops, v) == ValueIn(map[], v);
    }
  }

  lemma TopsInheritOther(p: Code, t: Tree, n: Names, done: set<Block>, path: seq<Block>, b: Block,
                         tops: map<Inst, Value>, v: Inst)
    requires PhiReady(p) && Exact(p.cfg, t) && t.Valid() && DoneNamed(p, t, n, done) && DominatorsIn(p.cfg, done)
    requires CameBy(p, path, done, b) && b in t.parent && b != t.root && Loaded(p, v) && !HasPhi(p, b, v)
    requires PhisPushed(p, b, Arriving(p, n, path), tops)
    ensures ValueIn(tops, v) == ValueIn(Out(p, n, t.parent[b]), v)
  {
    hide Loaded, HasPhi, UsesDefined, LocalsAreScalars, BlocksTerminated, Exact, PhisUnused, StoreBeforeLoad, Out,
         PhisComplete, DoneNamed, PhisInOrder, DominatorsIn;
    CfgOf(p, b);
    ExactIsValid(p.cfg, t);
    EntryNotLast(p, path, b);
    PathStepBack(p.cfg, path, b);
    hide FlowGraph.Valid, CfgReady, WellFormed;
    ArrivesInherited(p, t, n, done, path[|path| - 2], b, v);
  }

  lemma TopsInherit(p: Code, t: Tree, n: Names, done: set<Block>, path: seq<Block>, b: Block, tops: map<Inst, Value>,
                    m: Names)
    requires PhiReady(p) && Exact(p.cfg, t) && t.Valid() && DoneNamed(p, t, n, done) && n.tops.Keys == done
             && DominatorsIn(p.cfg, done)
    requires CameBy(p, path, done, b) && b in p.instrs && b !in done
    requires PhisPushed(p, b, Arriving(p, n, path), tops) && m == n.(tops := n.tops[b := tops])
    requires Extends(p, n, m, done)
    ensures Inherits(p, t, m, b)
  {
    hide Loaded, HasPhi, WellFormed, Exact, PhisUnused, StoreBeforeLoad, Out, PhisComplete, Extends, PhisInOrder,
         PhisPushed, DoneNamed, DominatorsIn, Arriving;
    TreeCovers(p, t, b);
    if b == t.root {
      TopsInheritEntry(p, n, path, tops);
    } else {
      CameByDominators(p, path, done, b);
      ParentDone(p, t, done, b);
      OutKept(p, n, m, done, t.parent[b]);
      forall v | Loaded(p, v) && !HasPhi(p, b, v)
        ensures ValueIn(tops, v) == ValueIn(Out(p, m, t.parent[b]), v)
      {
        TopsInheritOther(p, t, n, done, path, b, tops, v);
      }
    }
  }

  lemma EntryNotLast(p: Code, path: seq<Block>, b: Block)
    requires p.cfg.PathFromTo(path, p.cfg.entry, b) && b != p.cfg.entry
    ensures |path| > 1
  {
  }

  lemma EntryHasNoPhis(p: Code)
    requires PhisInOrder(p)
    ensures forall v :: !HasPhi(p, p.cfg.entry, v)
  {
    hide OpOf, Loaded;
    var e := p.cfg.entry;
    forall k | 0 <= k < |ListOf(p, e)|
      ensures !OpOf(p, ListOf(p, e)[k]).PhiOp?
    {
      assert IsAt(p, e, k, ListOf(p, e)[k]);
    }
  }

  lemma ArrivesInherited(p: Code, t: Tree, n: Names, done: set<Block>, q: Block, b: Block, v: Inst)
    requires PhiReady(p) && Exact(p.cfg, t) && t.Valid() && DoneNamed(p, t, n, done) && DominatorsIn(p.cfg, done)
    requires b in t.parent && b != t.root && b in p.cfg.preds && q in p.cfg.preds[b] && q in done && Loaded(p, v)
             && !HasPhi(p, b, v)
    ensures ValueIn(Out(p, n, q), v) == ValueIn(Out(p, n, t.parent[b]), v)
  {
    hide Loaded, HasPhi, WellFormed, Exact, PhisUnused, StoreBeforeLoad, Out, PhisComplete, Inherits, PhisInOrder;
    forall c | p.cfg.Dominates(c, q)
      ensures Inherits(p, t, n, c)
    {
      assert NamedBlock(p, t, n, c);
    }
    EdgeNames(p, t, n, q, b, v);
  }

  lemma EnterBlock(p: Code, t: Tree, n: Names, done: set<Block>, path: seq<Block>, b: Block, tops: map<Inst, Value>,
                   m: Names)
    requires PhiReady(p) && Exact(p.cfg, t) && t.Valid() && Settled(p, t, n, done) && DominatorsIn(p.cfg, done)
    requires CameBy(p, path, done, b) && b in p.instrs && b !in done
    requires PhisPushed(p, b, Arriving(p, n, path), tops) && m == n.(tops := n.tops[b := tops])
    requires forall v :: v in tops ==> Known(p, tops[v])
    ensures Progress(p, t, m, done, b, 0) && Extends(p, n, m, done)
  {
    hide PhiReady, Exact, OpOf, Arriving, Known, NamedBlock, Inherits, StandsIn;
    TopsInherit(p, t, n, done, path, b, tops, m);
    DoneKept(p, t, n, m, done);
    forall i | i in m.rho || i in m.pushed
      ensures StandsIn(p, done, b, 0, i)
    {
      assert StandsIn(p, done, 0, 0, i);
      StandsInSame(p, done, 0, b, i);
    }
  }

  lemma StandsInSame(p: Code, done: set<Block>, b: Block, b': Block, i: Inst)
    requires StandsIn(p, done, b, 0, i)
    ensures StandsIn(p, done, b', 0, i)
  {
    var c, j :| IsAt(p, c, j, i) && (c in done || (c == b && j < 0));
    assert c in done;
  }

  // ----- one instruction -----

  lemma NotNamedYet(p: Code, t: Tree, n: Names, done: set<Block>, b: Block, k: nat, i: Inst)
    requires t.Valid() && Progress(p, t, n, done, b, k) && PlacedOnce(p.instrs) && IsAt(p, b, k, i)
    ensures i !in n.rho && i !in n.pushed
  {
    hide DoneNamed, NamesSound, PhisOnTop, Inherits, NamedUpTo;
    if i in n.rho || i in n.pushed {
      assert StandsIn(p, done, b, k, i);
      var c, j :| IsAt(p, c, j, i) && (c in done || (c == b && j < k));
      PositionUnique(p, b, k, c, j, i);
    }
  }

  lemma StandsInNext(p: Code, done: set<Block>, b: Block, k: int, i: Inst)
    requires StandsIn(p, done, b, k, i)
    ensures StandsIn(p, done, b, k + 1, i)
  {
    var c, j :| IsAt(p, c, j, i) && (c in done || (c == b && j < k));
  }

  lemma LocatedNext(p: Code, n: Names, m: Names, done: set<Block>, b: Block, k: nat, i: Inst)
    requires Located(p, n, done, b, k) && IsAt(p, b, k, i)
    requires forall x :: x in m.rho || x in m.pushed ==> x == i || x in n.rho || x in n.pushed
    ensures Located(p, m, done, b, k + 1)
  {
    forall x | x in m.rho || x in m.pushed
      ensures StandsIn(p, done, b, k + 1, x)
    {
      if x == i {
        assert IsAt(p, b, k, x) && b == b && k < k + 1;
      } else {
        StandsInNext(p, done, b, k, x);
      }
    }
  }

  /** `m` is `n`, perhaps with a value for the new key `i`. */
  ghost predicate NewOnly(n: map<Inst, Value>, m: map<Inst, Value>, i: Inst) {
    && (forall x :: x in n ==> x in m && m[x] == n[x] && x != i)
    && (forall x :: x in m ==> x in n || x == i)
  }

  /** Giving the instruction at `k` a name leaves the names of the rest alone. */
  lemma ExtendsHere(p: Code, n: Names, m: Names, done: set<Block>, b: Block, k: nat, i: Inst)
    requires PlacedOnce(p.instrs) && IsAt(p, b, k, i) && b !in done
    requires m.tops == n.tops && NewOnly(n.rho, m.rho, i) && NewOnly(n.pushed, m.pushed, i)
    ensures Extends(p, n, m, done) && NothingPushedIn(p, n, m, b, k)
    ensures forall x :: x in m.rho || x in m.pushed ==> x == i || x in n.rho || x in n.pushed
  {
    forall c | c in done
      ensures NothingPushedIn(p, n, m, c, |ListOf(p, c)|)
    {
      forall j | 0 <= j < |ListOf(p, c)|
        ensures ListOf(p, c)[j] != i
      {
        if ListOf(p, c)[j] == i {
          PositionUnique(p, b, k, c, j, i);
        }
      }
    }
    forall j | 0 <= j < k && j < |ListOf(p, b)|
      ensures ListOf(p, b)[j] != i
    {
      if ListOf(p, b)[j] == i {
        PositionUnique(p, b, k, b, j, i);
      }
    }
  }

  /** The general step: `m` names the instruction at `k`, if it has to be named. */
  lemma StepProgress(p: Code, t: Tree, n: Names, m: Names, done: set<Block>, b: Block, k: nat, i: Inst)
    requires Exact(p.cfg, t) && t.Valid() && PlacedOnce(p.instrs) && DominatorsIn(p.cfg, done)
             && DominatorsBefore(p.cfg, done, b)
    requires Progress(p, t, n, done, b, k) && IsAt(p, b, k, i)
    requires m.tops == n.tops && NewOnly(n.rho, m.rho, i) && NewOnly(n.pushed, m.pushed, i)
    requires NamesSound(p, m) && NamedOp(p, m, i, OpOf(p, i), Cur(p, n, b, k))
    ensures Progress(p, t, m, done, b, k + 1) && Extends(p, n, m, done)
  {
    hide Exact, OpOf, NamedBlock, Inherits, PhisOnTop, NamesSound, Located, NamedUpTo, Extends, NamedOp, Cur,
         NothingPushedIn, DominatorsIn, DominatorsBefore;
    ExtendsHere(p, n, m, done, b, k, i);
    NamesReplaceLoads(p, m);
    DoneKept(p, t, n, m, done);
    InheritsInTree(p, t, n, b);
    if b != t.root {
      ParentDone(p, t, done, b);
    }
    InheritsKept(p, t, n, m, done, b);
    PhisOnTopKept(p, n, m, b);
    LocatedNext(p, n, m, done, b, k, i);
    NamedNext(p, n, m, b, k, i);
  }

  lemma NamesReplaceLoads(p: Code, m: Names)
    requires NamesSound(p, m)
    ensures ReplacesLoads(p, m.rho) && PushedAreStores(p, m.pushed)
  {
  }

  lemma PhisOnTopKept(p: Code, n: Names, m: Names, b: Block)
    requires PhisOnTop(p, n, b) && m.tops == n.tops
    ensures PhisOnTop(p, m, b)
  {
  }

  lemma NamedNext(p: Code, n: Names, m: Names, b: Block, k: nat, i: Inst)
    requires k < |ListOf(p, b)| && ListOf(p, b)[k] == i && NamedUpTo(p, n, b, k) && NothingPushedIn(p, n, m, b, k)
    requires m.tops == n.tops && ReplacesLoads(p, m.rho)
    requires NewOnly(n.rho, m.rho, i) && NewOnly(n.pushed, m.pushed, i)
    requires NamedOp(p, m, i, OpOf(p, i), Cur(p, n, b, k))
    ensures NamedUpTo(p, m, b, k + 1)
  {
    hide OpOf, Cur, NamedOp, NothingPushedIn;
    NamedUpToKept(p, n, m, b, k);
    CurKept(p, n, m, b, k);
    assert NamedAt(p, m, b, k);
    hide NamedAt;
    forall j: nat | j < k + 1
      ensures NamedAt(p, m, b, j)
    {
      if j < k { assert NamedAt(p, m, b, j); }
    }
  }

  // ----- which names -----

  /** Every load a used value refers to has been replaced by now. */
  lemma UsedResolved(p: Code, t: Tree, n: Names, done: set<Block>, b: Block, k: nat, i: Inst, v: Value)
    requires UsesDefined(p) && t.Valid() && DominatorsBefore(p.cfg, done, b) && Progress(p, t, n, done, b, k)
             && IsAt(p, b, k, i)
    requires v in Used(OpOf(p, i))
    ensures Resolved(p, n.rho, v)
    ensures v.Res? ==> HasResult(OpOf(p, v.i)) && Live(p.instrs, v.i)
  {
    hide NamesSound, Located, Inherits, PhisOnTop, OpOf, Used, HasResult;
    if v.Res? {
      var c, j :| IsAt(p, c, j, v.i) && Passed(p, c, j, v.i, b, k);
      if OpOf(p, v.i).ReadVar? {
        if c != b {
          assert NamedBlock(p, t, n, c);
        }
        assert NamedAt(p, n, c, j);
      }
    }
  }

  lemma SubstKnown(p: Code, n: Names, v: Value)
    requires AllKnown(p, n) && Resolved(p, n.rho, v) && (v.Res? ==> HasResult(OpOf(p, v.i)) && Live(p.instrs, v.i))
    ensures Known(p, Subst(n.rho, v))
  {
    hide OpOf, Live;
  }

  /** A name on top of the stacks is one the renaming may push. */
  lemma {:induction false} CurKnown(p: Code, n: Names, b: Block, k: nat, v: Inst)
    requires AllKnown(p, n) && k <= |ListOf(p, b)| && v in Cur(p, n, b, k)
    ensures Known(p, Cur(p, n, b, k)[v])
  {
    hide OpOf, Known;
    if k == 0 {
      CurStart(p, n, b);
    } else {
      CurNext(p, n, b, k - 1);
      var i := ListOf(p, b)[k - 1];
      if OpOf(p, i).WriteVar? && i in n.pushed && OpOf(p, i).v == v {
      } else {
        CurKnown(p, n, b, k - 1, v);
      }
    }
  }

  /** What has a value keeps having one. */
  lemma {:induction false} CurGrows(p: Code, n: Names, b: Block, k: nat, v: Inst)
    requires k <= |ListOf(p, b)| && v in TopsAt(n, b)
    ensures v in Cur(p, n, b, k)
  {
    if k > 0 {
      CurGrows(p, n, b, k - 1, v);
    }
  }

  lemma {:induction false} StoredHasValue(p: Code, n: Names, b: Block, k: nat, v: Inst)
    requires k <= |ListOf(p, b)| && NamedUpTo(p, n, b, k) && StoredEarlier(p, b, k, v)
    ensures v in Cur(p, n, b, k)
  {
    hide OpOf;
    var q :| 0 <= q < k && q < |ListOf(p, b)| && WritesTo(p, ListOf(p, b)[q], v);
    CurNext(p, n, b, k - 1);
    assert NamedAt(p, n, b, k - 1);
    if q < k - 1 {
      assert StoredEarlier(p, b, k - 1, v);
      forall j: nat | j < k - 1
        ensures NamedAt(p, n, b, j)
      {
      }
      StoredHasValue(p, n, b, k - 1, v);
    }
  }

  /** What a block stores to has a value at its end. */
  lemma StoresHasValue(p: Code, n: Names, b: Block, v: Inst)
    requires NamedUpTo(p, n, b, |ListOf(p, b)|) && Stores(p, b, v)
    ensures v in Out(p, n, b)
  {
    var q :| 0 <= q < |ListOf(p, b)| && WritesTo(p, ListOf(p, b)[q], v);
    assert StoredEarlier(p, b, |ListOf(p, b)|, v);
    StoredHasValue(p, n, b, |ListOf(p, b)|, v);
  }

  /** At a load the stack of its local is not empty. */
  lemma LoadHasValue(p: Code, t: Tree, n: Names, done: set<Block>, path: seq<Block>, b: Block, k: nat, i: Inst)
    requires StoreBeforeLoad(p) && t.Valid() && Progress(p, t, n, done, b, k) && IsAt(p, b, k, i) && OpOf(p, i).ReadVar?
    requires p.cfg.PathFromTo(path, p.cfg.entry, b)
    requires forall v :: StoredOn(p, path, v) ==> v in TopsAt(n, b)
    ensures OpOf(p, i).v in Cur(p, n, b, k)
  {
    hide OpOf, NamesSound, Located, Inherits, PhisOnTop, StoredOn, StoredEarlier, DoneNamed, Cur;
    var v := OpOf(p, i).v;
    if StoredEarlier(p, b, k, v) {
      StoredHasValue(p, n, b, k, v);
    } else {
      CurGrows(p, n, b, k, v);
    }
  }

  lemma KnownAll(p: Code, n: Names)
    requires NamesSound(p, n)
    ensures AllKnown(p, n)
  {
  }

  lemma SoundWithLoad(p: Code, n: Names, i: Inst, w: Value, m: Names)
    requires NamesSound(p, n) && OpOf(p, i).ReadVar? && Known(p, w) && m == n.(rho := n.rho[i := w])
    ensures NamesSound(p, m)
  {
    hide OpOf, Known;
  }

  lemma SoundWithStore(p: Code, n: Names, i: Inst, w: Value, m: Names)
    requires NamesSound(p, n) && OpOf(p, i).WriteVar? && Known(p, w) && m == n.(pushed := n.pushed[i := w])
    ensures NamesSound(p, m)
  {
    hide OpOf, Known;
  }

  lemma NameLoad(p: Code, t: Tree, n: Names, done: set<Block>, b: Block, k: nat, i: Inst, w: Value, m: Names)
    requires Exact(p.cfg, t) && t.Valid() && PlacedOnce(p.instrs) && DominatorsIn(p.cfg, done)
             && DominatorsBefore(p.cfg, done, b)
    requires Progress(p, t, n, done, b, k) && IsAt(p, b, k, i) && OpOf(p, i).ReadVar? && OpOf(p, i).v in Cur(p, n, b, k)
    requires w == Cur(p, n, b, k)[OpOf(p, i).v] && m == n.(rho := n.rho[i := w])
    ensures Progress(p, t, m, done, b, k + 1) && Extends(p, n, m, done) && Known(p, w)
    ensures Cur(p, m, b, k + 1) == Cur(p, n, b, k)
  {
    hide Exact, OpOf, Progress, Cur, DominatorsIn, DominatorsBefore, Extends, PlacedOnce, Known, AllKnown;
    ProgressSound(p, t, n, done, b, k);
    KnownAll(p, n);
    CurKnown(p, n, b, k, OpOf(p, i).v);
    SoundWithLoad(p, n, i, w, m);
    NotNamedYet(p, t, n, done, b, k, i);
    hide NamesSound;
    StepProgress(p, t, n, m, done, b, k, i);
    ExtendsHere(p, n, m, done, b, k, i);
    CurKept(p, n, m, b, k);
    CurSame(p, m, b, k);
  }

  lemma ProgressSound(p: Code, t: Tree, n: Names, done: set<Block>, b: Block, k: nat)
    requires t.Valid() && Progress(p, t, n, done, b, k)
    ensures NamesSound(p, n) && k <= |ListOf(p, b)| && b in p.instrs && b !in done && n.tops.Keys == done + {b}
    ensures NamedUpTo(p, n, b, k)
  {
  }

  lemma NameStore(p: Code, t: Tree, n: Names, done: set<Block>, b: Block, k: nat, i: Inst, m: Names)
    requires Exact(p.cfg, t) && t.Valid() && PlacedOnce(p.instrs) && UsesDefined(p) && DominatorsIn(p.cfg, done)
             && DominatorsBefore(p.cfg, done, b)
    requires Progress(p, t, n, done, b, k) && IsAt(p, b, k, i) && OpOf(p, i).WriteVar?
    requires m == n.(pushed := n.pushed[i := Subst(n.rho, OpOf(p, i).rval)])
    ensures Progress(p, t, m, done, b, k + 1) && Extends(p, n, m, done) && Known(p, m.pushed[i])
    ensures Cur(p, m, b, k + 1) == Cur(p, n, b, k)[OpOf(p, i).v := m.pushed[i]]
  {
    hide Exact, OpOf, Progress, Cur, DominatorsIn, DominatorsBefore, Extends, PlacedOnce, UsesDefined, Known, AllKnown,
         Live, HasResult;
    var rval := OpOf(p, i).rval;
    ProgressSound(p, t, n, done, b, k);
    NotNamedYet(p, t, n, done, b, k, i);
    assert rval in Used(OpOf(p, i));
    KnownAll(p, n);
    UsedResolved(p, t, n, done, b, k, i, rval);
    SubstKnown(p, n, rval);
    SoundWithStore(p, n, i, Subst(n.rho, rval), m);
    hide NamesSound, Subst;
    StepProgress(p, t, n, m, done, b, k, i);
    ExtendsHere(p, n, m, done, b, k, i);
    CurKept(p, n, m, b, k);
    CurNext(p, m, b, k);
  }

  lemma NameOther(p: Code, t: Tree, n: Names, done: set<Block>, b: Block, k: nat, i: Inst)
    requires Exact(p.cfg, t) && t.Valid() && PlacedOnce(p.instrs) && DominatorsIn(p.cfg, done)
             && DominatorsBefore(p.cfg, done, b)
    requires Progress(p, t, n, done, b, k) && IsAt(p, b, k, i) && !OpOf(p, i).ReadVar? && !OpOf(p, i).WriteVar?
    ensures Progress(p, t, n, done, b, k + 1) && Cur(p, n, b, k + 1) == Cur(p, n, b, k)
  {
    hide Exact, OpOf, Progress, Cur, DominatorsIn, DominatorsBefore, Extends, PlacedOnce, NamesSound;
    ProgressSound(p, t, n, done, b, k);
    NotNamedYet(p, t, n, done, b, k, i);
    StepProgress(p, t, n, n, done, b, k, i);
    CurSame(p, n, b, k);
  }

  lemma BlockDone(p: Code, t: Tree, n: Names, done: set<Block>, b: Block)
    requires t.Valid() && Progress(p, t, n, done, b, |ListOf(p, b)|)
    ensures Settled(p, t, n, done + {b})
  {
    hide NamesSound, NamedUpTo, Inherits, PhisOnTop;
    forall i | i in n.rho || i in n.pushed
      ensures StandsIn(p, done + {b}, 0, 0, i)
    {
      assert StandsIn(p, done, b, |ListOf(p, b)|, i);
      var c, j :| IsAt(p, c, j, i) && (c in done || (c == b && j < |ListOf(p, b)|));
      assert c in done + {b};
    }
  }
}
