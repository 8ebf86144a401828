/** The names the renaming gives: which value every load is replaced by, which
    value every store pushes, and what is on top of the stacks where. */
module Renaming {
  import opened FlowGraphs
  import opened DominatorTheory
  import opened Ir
  import opened Semantics
  import opened Substitutions
  import opened PhiPlacement
  import opened ReachingDefinitions

  /** `rho` replaces loads, `pushed` is the value pushed at each store, and `tops`
      holds, for every visited block, the stack tops once its phis are pushed. */
  datatype Names = Names(rho: map<Inst, Value>, pushed: map<Inst, Value>, tops: map<Block, map<Inst, Value>>)

  function CurStep(pushed: map<Inst, Value>, i: Inst, op: Op, cur: map<Inst, Value>): map<Inst, Value> {
    if op.WriteVar? && i in pushed then cur[op.v := pushed[i]] else cur
  }

  /** The stack tops after the first `k` instructions. */
  function CurUpTo(code: Code, pushed: map<Inst, Value>, list: seq<Inst>, k: nat,
                   cur: map<Inst, Value>): map<Inst, Value>
    requires k <= |list|
  {
    if k == 0 then cur
    else CurStep(pushed, list[k - 1], OpOf(code, list[k - 1]), CurUpTo(code, pushed, list, k - 1, cur))
  }

  function TopsAt(n: Names, b: Block): map<Inst, Value> {
    if b in n.tops then n.tops[b] else map[]
  }

  function Cur(code: Code, n: Names, b: Block, k: nat): map<Inst, Value>
    requires k <= |ListOf(code, b)|
  {
    CurUpTo(code, n.pushed, ListOf(code, b), k, TopsAt(n, b))
  }

  /** The stack tops at the end of a block. */
  function Out(code: Code, n: Names, b: Block): map<Inst, Value> {
    Cur(code, n, b, |ListOf(code, b)|)
  }

  function ValueIn(m: map<Inst, Value>, v: Inst): Option<Value> {
    if v in m then Some(m[v]) else None
  }

  lemma CurNext(code: Code, n: Names, b: Block, k: nat)
    requires k < |ListOf(code, b)|
    ensures Cur(code, n, b, k + 1)
            == CurStep(n.pushed, ListOf(code, b)[k], OpOf(code, ListOf(code, b)[k]), Cur(code, n, b, k))
  {
  }

  lemma CurStart(code: Code, n: Names, b: Block)
    ensures Cur(code, n, b, 0) == TopsAt(n, b)
  {
  }

  /** A load that a value refers to has been given its replacement. */
  predicate Resolved(code: Code, rho: map<Inst, Value>, v: Value) {
    v.Res? && OpOf(code, v.i).ReadVar? ==> v.i in rho
  }

  /** The load or store at `j` has been given its name. */
  ghost predicate NamedAt(code: Code, n: Names, b: Block, j: nat)
    requires j < |ListOf(code, b)|
  {
    NamedOp(code, n, ListOf(code, b)[j], OpOf(code, ListOf(code, b)[j]), Cur(code, n, b, j))
  }

  ghost predicate NamedOp(code: Code, n: Names, i: Inst, op: Op, cur: map<Inst, Value>) {
    && (op.ReadVar? ==> i in n.rho && op.v in cur && n.rho[i] == cur[op.v])
    && (op.WriteVar? ==> i in n.pushed && n.pushed[i] == Subst(n.rho, op.rval) && Resolved(code, n.rho, op.rval))
  }

  ghost predicate NamedUpTo(code: Code, n: Names, b: Block, k: nat)
    requires k <= |ListOf(code, b)|
  {
    forall j: nat :: j < k ==> NamedAt(code, n, b, j)
  }

  /** The phis of a block are on top when its instructions start. */
  ghost predicate PhisOnTop(code: Code, n: Names, b: Block) {
    b in n.tops && forall j, i :: IsAt(code, b, j, i) && OpOf(code, i).PhiOp? ==>
      ValueIn(n.tops[b], OpOf(code, i).v) == Some(Res(i))
  }

  /** A loaded local without a phi has the value it had at the end of the immediate dominator. */
  ghost predicate Inherits(code: Code, t: Tree, n: Names, b: Block)
    requires t.Valid()
  {
    && b in n.tops && b in t.parent
    && (b == t.root ==> n.tops[b] == map[])
    && (b != t.root ==> forall v :: Loaded(code, v) && !HasPhi(code, b, v) ==>
          ValueIn(n.tops[b], v) == ValueIn(Out(code, n, t.parent[b]), v))
  }

  ghost predicate NamedBlock(code: Code, t: Tree, n: Names, b: Block)
    requires t.Valid()
  {
    PhisOnTop(code, n, b) && Inherits(code, t, n, b) && NamedUpTo(code, n, b, |ListOf(code, b)|)
  }

  ghost predicate AllNamed(code: Code, t: Tree, n: Names)
    requires t.Valid()
  {
    forall b :: b in code.instrs ==> NamedBlock(code, t, n, b)
  }

  // ----- every edge carries the same names -----

  lemma {:induction false} CurWithoutStore(code: Code, n: Names, b: Block, k: nat, v: Inst)
    requires k <= |ListOf(code, b)| && !Stores(code, b, v)
    ensures ValueIn(Cur(code, n, b, k), v) == ValueIn(TopsAt(n, b), v)
  {
    if k > 0 {
      CurWithoutStore(code, n, b, k - 1, v);
      assert !WritesTo(code, ListOf(code, b)[k - 1], v);
    }
  }

  lemma {:induction false} ClimbOut(code: Code, t: Tree, n: Names, q: Block, d: Block, v: Inst)
    requires t.Valid() && q in t.parent && d in t.parent && t.OnChain(d, q) && Loaded(code, v)
    requires forall c :: t.OnChain(c, q) && !t.OnChain(c, d) ==> !Defines(code, c, v) && Inherits(code, t, n, c)
    ensures ValueIn(Out(code, n, q), v) == ValueIn(Out(code, n, d), v)
    decreases t.rank[t.root] - t.rank[q]
  {
    hide Stores, HasPhi, Loaded, Cur;
    if q != d {
      ChainRanks(t, q, d);
      if t.OnChain(q, d) { ChainRanks(t, d, q); }
      CurWithoutStore(code, n, q, |ListOf(code, q)|, v);
      ClimbOut(code, t, n, t.parent[q], d, v);
    }
  }

  /** At the end of every predecessor of a block without a phi for `v`, `v` has the
      value it has at the end of the block's immediate dominator. */
  lemma EdgeNames(code: Code, t: Tree, n: Names, q: Block, b: Block, v: Inst)
    requires WellFormed(code) && PhisComplete(code) && Exact(code.cfg, t) && Loaded(code, v)
    requires b in t.parent && b != t.root && q in code.cfg.preds[b] && !HasPhi(code, b, v)
    requires forall c :: code.cfg.Dominates(c, q) ==> Inherits(code, t, n, c)
    ensures t.parent[b] in t.parent && ValueIn(Out(code, n, q), v) == ValueIn(Out(code, n, t.parent[b]), v)
  {
    CfgOf(code, b);
    hide WellFormed, PhisComplete, Loaded, Stores, HasPhi, Inherits, Out;
    ParentOnPredChain(code.cfg, t, b, q);
    forall c
      ensures t.OnChain(c, q) <==> code.cfg.Dominates(c, q)
    {
      ExactAt(code.cfg, t, b, q, c);
    }
    hide Exact;
    forall c | t.OnChain(c, q) && !t.OnChain(c, t.parent[b])
      ensures !Defines(code, c, v) && Inherits(code, t, n, c)
    {
      NoDefBetween(code, t, q, b, c, v);
    }
    ClimbOut(code, t, n, q, t.parent[b], v);
  }

  /** Once all blocks are named, an edge to a block without a phi for `v` keeps its value. */
  lemma EdgeKeepsValue(code: Code, t: Tree, n: Names, q: Block, b: Block, v: Inst)
    requires WellFormed(code) && PhisComplete(code) && Exact(code.cfg, t) && AllNamed(code, t, n) && Loaded(code, v)
    requires b in code.cfg.preds && q in code.cfg.preds[b] && !HasPhi(code, b, v)
    ensures ValueIn(TopsAt(n, b), v) == ValueIn(Out(code, n, q), v)
  {
    CfgOf(code, b);
    EntryHasNoPreds(code);
    TreeCovers(code, t, b);
    TreeCovers(code, t, q);
    forall c | code.cfg.Dominates(c, q)
      ensures Inherits(code, t, n, c)
    {
      DominatorReachable(code.cfg, c, q);
      assert NamedBlock(code, t, n, c);
    }
    hide WellFormed, PhisComplete, Loaded, Stores, HasPhi, Out, AllNamed, Exact, PhisOnTop, NamedUpTo;
    EdgeNames(code, t, n, q, b, v);
    assert NamedBlock(code, t, n, b) by { NamedOne(code, t, n, b); }
  }

  lemma NamedOne(code: Code, t: Tree, n: Names, b: Block)
    requires t.Valid() && AllNamed(code, t, n) && b in code.instrs
    ensures NamedBlock(code, t, n, b)
  {
  }

  // ----- names can be used where they are on top -----

  ghost predicate CurReady(code: Code, n: Names, b: Block, k: nat)
    requires k <= |ListOf(code, b)|
  {
    forall v :: Loaded(code, v) && v in Cur(code, n, b, k) ==> ReadyAt(code, n.rho, Cur(code, n, b, k)[v], b, k)
  }

  /** What can be used at the end of a dominator can be used at the start of a block. */
  lemma ReadyBelow(code: Code, rho: map<Inst, Value>, v: Value, d: Block, b: Block)
    requires WellFormed(code) && code.cfg.StrictlyDominates(d, b) && b in code.cfg.succs
    requires ReadyAt(code, rho, v, d, |ListOf(code, d)|)
    ensures ReadyAt(code, rho, v, b, 0)
  {
    CfgOf(code, b);
    hide WellFormed;
    if v.Res? {
      var c, m :| IsAt(code, c, m, v.i) && Passed(code, c, m, v.i, d, |ListOf(code, d)|);
      if c != d {
        DominatesTransitive(code.cfg, c, d, b);
        if c == b {
          DominatesAntisymmetric(code.cfg, d, b);
        }
      }
      assert c != b;
      assert Passed(code, c, m, v.i, b, 0);
    }
  }

  lemma PhiReadyHere(code: Code, rho: map<Inst, Value>, b: Block, j: int, i: Inst, k: int)
    requires IsAt(code, b, j, i) && OpOf(code, i).PhiOp? && ReplacesLoads(code, rho)
    ensures ReadyAt(code, rho, Res(i), b, k)
  {
    assert Passed(code, b, j, i, b, k);
  }

  lemma StartReady(code: Code, t: Tree, n: Names, b: Block)
    requires WellFormed(code) && Exact(code.cfg, t) && ReplacesLoads(code, n.rho) && NamedBlock(code, t, n, b)
             && b in code.instrs
    requires b != t.root ==> CurReady(code, n, t.parent[b], |ListOf(code, t.parent[b])|)
    ensures CurReady(code, n, b, 0)
  {
    hide Loaded, ReadyAt, CurReady, NamedUpTo, ReplacesLoads, UsesDefined, LocalsAreScalars, BlocksTerminated, Exact,
         DominatorTheory.Tree.Valid;
    CfgOf(code, b);
    CurStart(code, n, b);
    forall v | Loaded(code, v) && v in TopsAt(n, b)
      ensures ReadyAt(code, n.rho, TopsAt(n, b)[v], b, 0)
    {
      if HasPhi(code, b, v) {
        var j :| 0 <= j < |ListOf(code, b)| && IsPhiFor(OpOf(code, ListOf(code, b)[j]), v);
        assert IsAt(code, b, j, ListOf(code, b)[j]);
        PhiReadyHere(code, n.rho, b, j, ListOf(code, b)[j], 0);
      } else {
        InheritedReady(code, t, n, b, v);
      }
    }
    StartReadyAll(code, n, b);
  }

  lemma StartReadyAll(code: Code, n: Names, b: Block)
    requires forall v :: Loaded(code, v) && v in TopsAt(n, b) ==> ReadyAt(code, n.rho, TopsAt(n, b)[v], b, 0)
    ensures CurReady(code, n, b, 0)
  {
    hide ReadyAt, Loaded;
  }

  lemma InheritedReady(code: Code, t: Tree, n: Names, b: Block, v: Inst)
    requires WellFormed(code) && Exact(code.cfg, t) && b in code.instrs
    requires Inherits(code, t, n, b) && Loaded(code, v) && !HasPhi(code, b, v) && v in TopsAt(n, b)
    requires b != t.root ==> CurReady(code, n, t.parent[b], |ListOf(code, t.parent[b])|)
    ensures ReadyAt(code, n.rho, TopsAt(n, b)[v], b, 0)
  {
    hide Loaded, ReadyAt, HasPhi;
    CfgOf(code, b);
    hide WellFormed;
    if b != t.root {
      ParentIsImmediateDominator(code.cfg, t, b);
      hide Exact;
      assert v in Out(code, n, t.parent[b]) && Out(code, n, t.parent[b])[v] == TopsAt(n, b)[v];
      ReadyBelow(code, n.rho, TopsAt(n, b)[v], t.parent[b], b);
    }
  }

  /** The value a store pushes can be used from there on. */
  lemma PushedReady(code: Code, t: Tree, n: Names, b: Block, k: nat, i: Inst, rval: Value)
    requires WellFormed(code) && ReplacesLoads(code, n.rho) && IsAt(code, b, k, i)
    requires rval in Used(OpOf(code, i)) && Resolved(code, n.rho, rval)
    requires forall x, d, m :: x in n.rho && IsAt(code, d, m, x) && Passed(code, d, m, x, b, k) ==>
               ReadyAt(code, n.rho, n.rho[x], d, m)
    ensures ReadyAt(code, n.rho, Subst(n.rho, rval), b, k)
  {
    hide LocalsAreScalars, BlocksTerminated, CfgReady, OpOf;
    if rval.Res? {
      var x := rval.i;
      assert Available(code, x, b, k) && HasResult(OpOf(code, x));
      if x in n.rho {
        var d, m :| IsAt(code, d, m, x) && Passed(code, d, m, x, b, k);
        assert ReadyAt(code, n.rho, n.rho[x], d, m);
        hide UsesDefined, WellFormed;
        if n.rho[x].Res? {
          AvailableTransitive(code, n.rho[x].i, d, m, x, b, k);
        }
      }
    }
  }

  lemma LoadReady(code: Code, n: Names, b: Block, k: nat, i: Inst)
    requires k < |ListOf(code, b)| && IsAt(code, b, k, i) && i in n.rho && ReplacesLoads(code, n.rho)
    requires NamedAt(code, n, b, k) && CurReady(code, n, b, k)
    ensures ReadyAt(code, n.rho, n.rho[i], b, k)
  {
    hide ReadyAt, Cur;
    assert Loads(code, b, OpOf(code, i).v);
    assert Loaded(code, OpOf(code, i).v);
  }

  /** By induction down the dominator tree, and along each block. */
  lemma {:induction false} CurIsReady(code: Code, t: Tree, n: Names, b: Block, k: nat)
    requires WellFormed(code) && Exact(code.cfg, t) && AllNamed(code, t, n) && ReplacesLoads(code, n.rho)
    requires b in code.instrs && b in t.parent && k <= |ListOf(code, b)|
    ensures CurReady(code, n, b, k)
    decreases t.rank[t.root] - t.rank[b], k
  {
    hide WellFormed, Exact, AllNamed, CurReady, ReadyAt, OpOf, Cur, NamedBlock, ReplacesLoads, Passed;
    ExactIsValid(code.cfg, t);
    NamedOne(code, t, n, b);
    if k == 0 {
      if b != t.root {
        TreeCovers(code, t, t.parent[b]);
        CurIsReady(code, t, n, t.parent[b], |ListOf(code, t.parent[b])|);
      }
      StartReady(code, t, n, b);
    } else {
      var i := ListOf(code, b)[k - 1];
      assert IsAt(code, b, k - 1, i);
      CurIsReady(code, t, n, b, k - 1);
      if OpOf(code, i).WriteVar? {
        var rval := OpOf(code, i).rval;
        NamedStore(code, t, n, b, k - 1);
        forall x, d, m | x in n.rho && IsAt(code, d, m, x) && Passed(code, d, m, x, b, k - 1)
          ensures ReadyAt(code, n.rho, n.rho[x], d, m)
        {
          EarlierPosition(code, t, n.rho, b, k - 1, d, m, x);
          CurIsReady(code, t, n, d, m);
          NamedOne(code, t, n, d);
          NamedHere(code, t, n, d, m);
          LoadReady(code, n, d, m, x);
        }
        PushedReady(code, t, n, b, k - 1, i, rval);
      }
      CurReadyNext(code, n, b, k - 1);
    }
  }

  lemma ExactIsValid(g: FlowGraph, t: Tree)
    requires Exact(g, t)
    ensures t.Valid() && t.root == g.entry
  {
  }

  lemma NamedHere(code: Code, t: Tree, n: Names, b: Block, k: nat)
    requires t.Valid() && NamedBlock(code, t, n, b) && k < |ListOf(code, b)|
    ensures NamedAt(code, n, b, k)
  {
    hide NamedAt;
  }

  lemma NamedStore(code: Code, t: Tree, n: Names, b: Block, k: nat)
    requires t.Valid() && NamedBlock(code, t, n, b) && k < |ListOf(code, b)| && OpOf(code, ListOf(code, b)[k]).WriteVar?
    ensures ListOf(code, b)[k] in n.pushed
            && OpOf(code, ListOf(code, b)[k]).rval in Used(OpOf(code, ListOf(code, b)[k]))
    ensures n.pushed[ListOf(code, b)[k]] == Subst(n.rho, OpOf(code, ListOf(code, b)[k]).rval)
    ensures Resolved(code, n.rho, OpOf(code, ListOf(code, b)[k]).rval)
  {
    NamedHere(code, t, n, b, k);
  }

  /** A passed position is earlier in its block, or in a block higher in the tree. */
  lemma EarlierPosition(code: Code, t: Tree, rho: map<Inst, Value>, b: Block, k: int, d: Block, m: int, x: Inst)
    requires WellFormed(code) && Exact(code.cfg, t) && b in t.parent && ReplacesLoads(code, rho) && x in rho
    requires IsAt(code, d, m, x) && Passed(code, d, m, x, b, k)
    ensures d in t.parent && d in code.instrs && 0 <= m < |ListOf(code, d)|
    ensures if d == b then m < k else t.rank[b] < t.rank[d]
  {
    TreeCovers(code, t, d);
    hide WellFormed;
    if d != b {
      assert t.OnChain(d, b);
      ChainRanks(t, b, d);
    }
  }

  lemma CurReadyNext(code: Code, n: Names, b: Block, k: nat)
    requires k < |ListOf(code, b)| && CurReady(code, n, b, k)
    requires OpOf(code, ListOf(code, b)[k]).WriteVar? && ListOf(code, b)[k] in n.pushed ==>
               ReadyAt(code, n.rho, n.pushed[ListOf(code, b)[k]], b, k)
    ensures CurReady(code, n, b, k + 1)
  {
    hide ReadyAt, OpOf, Cur, Loaded;
    var i := ListOf(code, b)[k];
    CurNext(code, n, b, k);
    forall v | Loaded(code, v) && v in Cur(code, n, b, k + 1)
      ensures ReadyAt(code, n.rho, Cur(code, n, b, k + 1)[v], b, k + 1)
    {
      ReadyLater(code, n.rho, Cur(code, n, b, k + 1)[v], b, k, k + 1);
    }
  }

  /** The replacement of every load can be used where the load stands. */
  lemma RenamingReady(code: Code, t: Tree, n: Names)
    requires WellFormed(code) && Exact(code.cfg, t) && AllNamed(code, t, n) && ReplacesLoads(code, n.rho)
    ensures ReplacementsReady(code, n.rho)
  {
    hide WellFormed, Exact, AllNamed, CurReady, ReadyAt, OpOf, Cur, NamedBlock, ReplacesLoads;
    forall i, b, p | i in n.rho && IsAt(code, b, p, i)
      ensures ReadyAt(code, n.rho, n.rho[i], b, p)
    {
      ExactIsValid(code.cfg, t);
      TreeCovers(code, t, b);
      CurIsReady(code, t, n, b, p);
      NamedOne(code, t, n, b);
      NamedHere(code, t, n, b, p);
      LoadReady(code, n, b, p, i);
    }
  }

  /** What a loaded local without a phi inherits is not one of the block's own phis. */
  lemma InheritedNotOwnPhi(code: Code, t: Tree, n: Names, b: Block, v: Inst)
    requires WellFormed(code) && Exact(code.cfg, t) && AllNamed(code, t, n) && ReplacesLoads(code, n.rho)
    requires b in code.instrs && Loaded(code, v) && !HasPhi(code, b, v) && v in TopsAt(n, b)
    ensures TopsAt(n, b)[v].Res? ==> TopsAt(n, b)[v].i !in ListOf(code, b)
  {
    hide AllNamed, Exact, UsesDefined, LocalsAreScalars, BlocksTerminated, HasPhi, OpOf, Out, PhisOnTop, NamedUpTo,
         ReplacesLoads, Loaded, CfgReady;
    ExactIsValid(code.cfg, t);
    TreeCovers(code, t, b);
    CfgOf(code, b);
    NamedOne(code, t, n, b);
    assert b != t.root;
    var d := t.parent[b];
    TreeCovers(code, t, d);
    assert d in code.instrs;
    CurIsReady(code, t, n, d, |ListOf(code, d)|);
    ParentIsImmediateDominator(code.cfg, t, b);
    var x := TopsAt(n, b)[v];
    OutReady(code, n, d, v);
    if x.Res? && x.i in ListOf(code, b) {
      var r :| 0 <= r < |ListOf(code, b)| && ListOf(code, b)[r] == x.i;
      assert IsAt(code, b, r, x.i);
      var c, m :| IsAt(code, c, m, x.i) && Passed(code, c, m, x.i, d, |ListOf(code, d)|);
      PositionUnique(code, b, r, c, m, x.i);
      DominatesAntisymmetric(code.cfg, d, b);
    }
  }

  lemma OutReady(code: Code, n: Names, b: Block, v: Inst)
    requires CurReady(code, n, b, |ListOf(code, b)|) && Loaded(code, v) && v in Out(code, n, b)
    ensures ReadyAt(code, n.rho, Out(code, n, b)[v], b, |ListOf(code, b)|)
  {
    hide ReadyAt, Loaded, Cur;
  }
}
