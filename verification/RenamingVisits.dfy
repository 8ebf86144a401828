/** One step of the visit of a block: names, code, stacks and use lists together. */
module RenamingVisits {
  import opened FlowGraphs
  import opened DominatorTheory
  import opened Ir
  import opened Semantics
  import opened Substitutions
  import opened Keeping
  import opened ReachingDefinitions
  import opened Renaming
  import opened RenamingRuns
  import opened Stacks
  import opened RenamingSteps
  import opened RenamingState

  ghost predicate StaleAreKnown(operands: map<Inst, seq<Value>>, stale: set<Value>) {
    forall v :: v in stale ==> v.Res? && v.i in operands
  }

  ghost predicate CountedAt(p: Code, defineVar: map<Block, seq<Inst>>, b: Block) {
    b in defineVar && defineVar[b] == DefsUpTo(p, ListOf(p, b), |ListOf(p, b)|)
  }

  ghost predicate DefinesCounted(p: Code, defineVar: map<Block, seq<Inst>>) {
    forall b :: b in p.instrs ==> CountedAt(p, defineVar, b)
  }

  lemma DefsNone(p: Code, list: seq<Inst>)
    ensures DefsUpTo(p, list, 0) == []
  {
  }

  lemma DefsNext(p: Code, list: seq<Inst>, k: nat)
    requires k < |list|
    ensures DefsUpTo(p, list, k + 1) == DefsUpTo(p, list, k) + DefOf(OpOf(p, list[k]))
    ensures DefOf(OpOf(p, list[k])) == [] ==> DefsUpTo(p, list, k + 1) == DefsUpTo(p, list, k)
  {
  }

  lemma StoreIsLocal(p: Code, b: Block, k: int, inst: Inst)
    requires LocalsAreScalars(p) && IsAt(p, b, k, inst) && inst in p.kind && p.kind[inst] == Store
    ensures IsLocalVarOp(p, inst) <==> OpOf(p, inst).WriteVar?
    ensures !OpOf(p, inst).PhiOp?
  {
  }

  lemma NotAStore(p: Code, b: Block, k: int, inst: Inst)
    requires LocalsAreScalars(p) && IsAt(p, b, k, inst) && inst in p.kind && p.kind[inst] != Store && !p.kind[inst].Phi?
    ensures DefOf(OpOf(p, inst)) == []
  {
  }

  /** What a visit relies on: the input of the renaming, and the way to the block. */
  ghost predicate VisitReady(p: Code, t: Tree, done: set<Block>, b: Block, path: seq<Block>) {
    && PhiReady(p) && Exact(p.cfg, t) && DominatorsIn(p.cfg, done) && CameBy(p, path, done, b)
  }

  lemma VisitParts(p: Code, t: Tree, done: set<Block>, b: Block, path: seq<Block>)
    requires VisitReady(p, t, done, b, path)
    ensures PhiReady(p) && WellFormed(p) && PhisInOrder(p) && StoreBeforeLoad(p) && Exact(p.cfg, t) && t.Valid()
            && DominatorsIn(p.cfg, done)
    ensures CameBy(p, path, done, b) && p.cfg.PathFromTo(path, p.cfg.entry, b) && DominatorsBefore(p.cfg, done, b)
    ensures PlacedOnce(p.instrs) && LocalsAreScalars(p) && UsesDefined(p) && p.instrs.Keys == p.cfg.succs.Keys
  {
    CameByDominators(p, path, done, b);
    ExactIsValid(p.cfg, t);
  }

  lemma LoadOnTop(p: Code, t: Tree, n: Names, done: set<Block>, path: seq<Block>, b: Block, k: nat, i: Inst)
    requires StoreBeforeLoad(p) && t.Valid() && Progress(p, t, n, done, b, k) && IsAt(p, b, k, i) && OpOf(p, i).ReadVar?
    requires p.cfg.PathFromTo(path, p.cfg.entry, b) && StoredArrives(p, path, TopsAt(n, b))
    ensures OpOf(p, i).v in Cur(p, n, b, k)
  {
    LoadHasValue(p, t, n, done, path, b, k, i);
  }

  lemma TopIsLast(status: Status, v: Inst)
    requires v in TopsOf(status)
    ensures v in status && |status[v]| > 0 && TopsOf(status)[v] == status[v][|status[v]| - 1]
  {
  }

  lemma LoadState(p: Code, t: Tree, n: Names, m: Names, done: set<Block>, b: Block, k: nat, finished: set<Block>,
                  sent: map<Block, seq<Block>>,
                  instrs: map<Block, seq<Inst>>, operands: map<Inst, seq<Value>>, i: Inst, w: Value, stale: set<Value>)
    requires t.Valid() && Progress(p, t, n, done, b, k) && CodeState(p, n, finished, sent, instrs, operands)
    requires OpOf(p, i).ReadVar? && i !in n.rho && m == n.(rho := n.rho[i := w]) && Known(p, w) && IsAt(p, b, k, i)
    requires StaleReplaced(p, n.rho, stale)
    ensures CodeState(p, m, finished, sent, instrs, ReplacedAll(instrs, operands, Res(i), w))
    ensures w != Res(i) && w !in stale && Res(i) !in stale && forall u :: Live(instrs, u) ==> u in operands
    ensures StaleReplaced(p, m.rho, stale + {Res(i)})
  {
    hide Progress, OpOf, CodeState, Known, ReplacedAll;
    ProgressSound(p, t, n, done, b, k);
    LoadReplaced(p, n, m, finished, sent, instrs, operands, i, w);
    LiveHasOperands(p, n, finished, sent, instrs, operands);
    NotStale(p, n, stale, w);
    assert Live(p.instrs, i);
  }

  function VarOpsUpTo(p: Code, list: seq<Inst>, k: nat): set<Inst>
    requires k <= |list|
  {
    set i | i in list[..k] && IsVarOp(OpOf(p, i))
  }

  lemma VarOpsNext(p: Code, list: seq<Inst>, k: nat)
    requires k < |list|
    ensures VarOpsUpTo(p, list, k + 1) == VarOpsUpTo(p, list, k) + if IsVarOp(OpOf(p, list[k])) then {list[k]} else {}
  {
    assert list[..k + 1] == list[..k] + [list[k]];
  }

  lemma VarOpsNone(p: Code, list: seq<Inst>)
    ensures VarOpsUpTo(p, list, 0) == {}
  {
  }

  lemma VarOpsAll(p: Code, b: Block)
    requires b in p.instrs
    ensures VarOpsUpTo(p, p.instrs[b], |p.instrs[b]|) == VarOps(p, b)
  {
    assert p.instrs[b][..|p.instrs[b]|] == p.instrs[b];
  }

  /** `q` is the function as it is, in the visit of `b` and before its instruction `k`. */
  ghost predicate VisitState(p: Code, t: Tree, n: Names, done: set<Block>, finished: set<Block>, b: Block, k: nat,
                             q: Code, status: Status, stale: set<Value>)
  {
    && t.Valid() && Progress(p, t, n, done, b, k) && b !in finished && finished <= done
    && CodeState(p, n, finished, SentAll(p, done), q.instrs, q.operands)
    && q.cfg == p.cfg && q.kind == p.kind
    && StaleAreKnown(q.operands, stale) && StaleReplaced(p, n.rho, stale)
    && TopsOf(status) == Cur(p, n, b, k)
  }

  lemma VisitList(p: Code, t: Tree, n: Names, done: set<Block>, finished: set<Block>, b: Block, k: nat,
                  q: Code, status: Status, stale: set<Value>, path: seq<Block>)
    requires VisitState(p, t, n, done, finished, b, k, q, status, stale) && VisitReady(p, t, done, b, path)
    ensures b in p.instrs && b in q.instrs && q.instrs[b] == p.instrs[b] && q.kind == p.kind && k <= |p.instrs[b]|
    ensures LocalsAreScalars(p)
  {
    hide OperandsRenamed, PhiPairs, PhiOperandsKnown, LocalsAreScalars, VisitReady, TopsOf, Cur;
    VisitParts(p, t, done, b, path);
  }

  lemma ReadsVisit(p: Code, t: Tree, n: Names, done: set<Block>, finished: set<Block>, b: Block, k: nat,
                   q: Code, status: Status, stale: set<Value>, i: Inst, path: seq<Block>)
    requires VisitState(p, t, n, done, finished, b, k, q, status, stale) && VisitReady(p, t, done, b, path)
    requires IsAt(p, b, k, i) && !OpOf(p, i).PhiOp?
    ensures i in q.kind && i in q.operands && (IsLocalVarOp(q, i) <==> IsVarOp(OpOf(p, i)))
    ensures IsVarOp(OpOf(p, i)) ==> (q.kind[i] == Load <==> OpOf(p, i).ReadVar?)
    ensures OpOf(p, i).ReadVar? ==> |q.operands[i]| == 1 && q.operands[i][0] == Res(OpOf(p, i).v)
    ensures OpOf(p, i).WriteVar? ==> |q.operands[i]| == 2 && q.operands[i][1] == Res(OpOf(p, i).v)
    ensures OpOf(p, i).WriteVar? ==> q.operands[i][0] == Subst(n.rho, OpOf(p, i).rval)
  {
    hide VisitReady, PhiReady, WellFormed, PhisInOrder, StoreBeforeLoad, UsesDefined, LocalsAreScalars, Exact,
         DominatorTheory.Tree.Valid, DominatorsIn, DominatorsBefore, CameBy, PlacedOnce, OpOf, Progress, CodeState,
         IsLocalVarOp, Subst, TopsOf, Cur, StaleAreKnown, StaleReplaced;
    VisitParts(p, t, done, b, path);
    ProgressSound(p, t, n, done, b, k);
    ReadsLocal(p, n, finished, SentAll(p, done), q, b, k, i);
  }

  lemma SkipVisit(p: Code, t: Tree, n: Names, done: set<Block>, finished: set<Block>, b: Block, k: nat,
                  q: Code, status: Status, stale: set<Value>, i: Inst, path: seq<Block>)
    requires VisitState(p, t, n, done, finished, b, k, q, status, stale) && VisitReady(p, t, done, b, path)
    requires IsAt(p, b, k, i) && !IsVarOp(OpOf(p, i))
    ensures VisitState(p, t, n, done, finished, b, k + 1, q, status, stale)
  {
    hide VisitReady, PhiReady, WellFormed, PhisInOrder, StoreBeforeLoad, UsesDefined, LocalsAreScalars, Exact,
         DominatorTheory.Tree.Valid, DominatorsIn, DominatorsBefore, CameBy, PlacedOnce, OpOf, Progress, CodeState,
         TopsOf, Cur, StaleAreKnown, StaleReplaced;
    VisitParts(p, t, done, b, path);
    NameOther(p, t, n, done, b, k, i);
  }

  lemma LoadVisit(p: Code, t: Tree, n: Names, done: set<Block>, finished: set<Block>, b: Block, k: nat,
                  q: Code, status: Status, stale: set<Value>, i: Inst, path: seq<Block>)
    requires VisitState(p, t, n, done, finished, b, k, q, status, stale) && VisitReady(p, t, done, b, path)
    requires IsAt(p, b, k, i) && OpOf(p, i).ReadVar? && StoredArrives(p, path, TopsAt(n, b))
    ensures OpOf(p, i).v in status && |status[OpOf(p, i).v]| > 0
    ensures LoadVisited(p, t, n, done, finished, b, k, q, status, stale, i,
                        status[OpOf(p, i).v][|status[OpOf(p, i).v]| - 1])
  {
    hide VisitReady, PhiReady, WellFormed, PhisInOrder, StoreBeforeLoad, UsesDefined, LocalsAreScalars, Exact,
         DominatorTheory.Tree.Valid, DominatorsIn, DominatorsBefore, CameBy, PlacedOnce, OpOf, Progress, CodeState,
         TopsOf, Cur, StaleReplaced, StoredArrives, TopsAt, Extends, ReplacedAll, Known, IsAt, Live;
    VisitParts(p, t, done, b, path);
    ProgressSound(p, t, n, done, b, k);
    LoadOnTop(p, t, n, done, path, b, k, i);
    TopIsLast(status, OpOf(p, i).v);
    var w := status[OpOf(p, i).v][|status[OpOf(p, i).v]| - 1];
    assert w == Cur(p, n, b, k)[OpOf(p, i).v];
    NameLoad(p, t, n, done, b, k, i, w, n.(rho := n.rho[i := w]));
    NotNamedYet(p, t, n, done, b, k, i);
    LoadState(p, t, n, n.(rho := n.rho[i := w]), done, b, k, finished, SentAll(p, done), q.instrs, q.operands, i,
              w, stale);
    StandsLive(p, finished, q.instrs, SentAll(p, done), n, q.operands, b, k, i);
  }

  lemma StandsLive(p: Code, finished: set<Block>, instrs: map<Block, seq<Inst>>, sent: map<Block, seq<Block>>, n: Names,
                   operands: map<Inst, seq<Value>>, b: Block, k: int, i: Inst)
    requires CodeState(p, n, finished, sent, instrs, operands) && b !in finished && IsAt(p, b, k, i)
    ensures i in operands
  {
    hide OpOf, PhiPairs, OperandsRenamed, PhiOperandsKnown;
    assert instrs[b][k] == i;
    assert Live(instrs, i);
    LiveHasOperands(p, n, finished, sent, instrs, operands);
  }

  /** After the load `i` has been replaced by `w`. */
  ghost predicate LoadVisited(p: Code, t: Tree, n: Names, done: set<Block>, finished: set<Block>, b: Block, k: nat,
                              q: Code, status: Status, stale: set<Value>, i: Inst, w: Value)
  {
    && Extends(p, n, n.(rho := n.rho[i := w]), done)
    && w != Res(i) && w !in stale && Res(i) !in stale && (forall u :: Live(q.instrs, u) ==> u in q.operands)
    && VisitState(p, t, n.(rho := n.rho[i := w]), done, finished, b, k + 1,
                  Code(q.cfg, q.instrs, q.kind, ReplacedAll(q.instrs, q.operands, Res(i), w)), status, stale + {Res(i)})
  }

  lemma StoreVisit(p: Code, t: Tree, n: Names, done: set<Block>, finished: set<Block>, b: Block, k: nat,
                   q: Code, status: Status, stale: set<Value>, i: Inst, path: seq<Block>)
    requires VisitState(p, t, n, done, finished, b, k, q, status, stale) && VisitReady(p, t, done, b, path)
    requires IsAt(p, b, k, i) && OpOf(p, i).WriteVar?
    ensures Extends(p, n, n.(pushed := n.pushed[i := Subst(n.rho, OpOf(p, i).rval)]), done)
    ensures VisitState(p, t, n.(pushed := n.pushed[i := Subst(n.rho, OpOf(p, i).rval)]), done, finished, b, k + 1, q,
              status[OpOf(p, i).v := StackOf(status, OpOf(p, i).v) + [Subst(n.rho, OpOf(p, i).rval)]], stale)
  {
    hide VisitReady, PhiReady, WellFormed, PhisInOrder, StoreBeforeLoad, UsesDefined, LocalsAreScalars, Exact,
         DominatorTheory.Tree.Valid, DominatorsIn, DominatorsBefore, CameBy, PlacedOnce, OpOf, Progress, CodeState,
         TopsOf, Cur, StaleReplaced, TopsAt, Extends, Known, IsAt, Live, Subst, StackOf, StaleAreKnown;
    VisitParts(p, t, done, b, path);
    var x := Subst(n.rho, OpOf(p, i).rval);
    var m := n.(pushed := n.pushed[i := x]);
    NameStore(p, t, n, done, b, k, i, m);
    ProgressSound(p, t, n, done, b, k);
    NamesExtended(p, n, m, done, finished, SentAll(p, done), q.instrs, q.operands);
    PushTops(status, OpOf(p, i).v, x);
  }

  // ----- between the visits -----

  /** `q` is the function as it is, between two visits or while values are sent. */
  ghost predicate WalkState(p: Code, t: Tree, n: Names, visited: set<Block>, finished: set<Block>,
                            sent: map<Block, seq<Block>>,
                            q: Code, stale: set<Value>)
  {
    && t.Valid() && Settled(p, t, n, visited) && DominatorsIn(p.cfg, visited) && finished <= visited
    && CodeState(p, n, finished, sent, q.instrs, q.operands)
    && q.cfg == p.cfg && q.kind == p.kind
    && StaleAreKnown(q.operands, stale) && StaleReplaced(p, n.rho, stale)
  }

  /** Once its phis are pushed the visit of `b` can start. */
  lemma VisitStarts(p: Code, t: Tree, n: Names, done: set<Block>, finished: set<Block>, b: Block, q: Code,
                    stale: set<Value>,
                    path: seq<Block>, arriving: map<Inst, Value>, status: Status)
    requires WalkState(p, t, n, done, finished, SentAll(p, done), q, stale) && VisitReady(p, t, done, b, path)
    requires b in p.instrs && b !in done && arriving == Arriving(p, n, path) && StoredArrives(p, path, arriving)
    requires PhisPushed(p, b, arriving, TopsOf(status))
    ensures VisitState(p, t, n.(tops := n.tops[b := TopsOf(status)]), done, finished, b, 0, q, status, stale)
    ensures Extends(p, n, n.(tops := n.tops[b := TopsOf(status)]), done)
    ensures StoredArrives(p, path, TopsOf(status))
  {
    hide VisitReady, PhiReady, WellFormed, PhisInOrder, StoreBeforeLoad, UsesDefined, LocalsAreScalars, Exact,
         DominatorTheory.Tree.Valid, DominatorsIn, DominatorsBefore, CameBy, PlacedOnce, OpOf, Progress, CodeState,
         TopsOf, StaleReplaced, Extends, Known, PhisPushed, Settled, Out, StaleAreKnown;
    var m := n.(tops := n.tops[b := TopsOf(status)]);
    VisitParts(p, t, done, b, path);
    ArrivingKnown(p, t, n, done, path, b);
    PushedKnown(p, b, arriving, TopsOf(status));
    PushedGrows(p, b, arriving, TopsOf(status));
    EnterBlock(p, t, n, done, path, b, TopsOf(status), m);
    SettledKeys(p, t, n, done);
    NamesExtended(p, n, m, done, finished, SentAll(p, done), q.instrs, q.operands);
    CurStart(p, m, b);
  }

  lemma SettledKeys(p: Code, t: Tree, n: Names, done: set<Block>)
    requires t.Valid() && Settled(p, t, n, done)
    ensures n.tops.Keys == done <= p.instrs.Keys && NamesSound(p, n)
  {
  }

  lemma ArrivingKnown(p: Code, t: Tree, n: Names, done: set<Block>, path: seq<Block>, b: Block)
    requires t.Valid() && Settled(p, t, n, done) && CameBy(p, path, done, b)
    ensures forall v :: v in Arriving(p, n, path) ==> Known(p, Arriving(p, n, path)[v])
  {
    hide Known, Cur, DoneNamed, Located, CameBy;
    forall v | v in Arriving(p, n, path)
      ensures Known(p, Arriving(p, n, path)[v])
    {
      OutKnown(p, n, path[|path| - 2], v);
    }
  }

  lemma OutKnown(p: Code, n: Names, b: Block, v: Inst)
    requires NamesSound(p, n) && v in Out(p, n, b)
    ensures Known(p, Out(p, n, b)[v])
  {
    hide Known, OpOf;
    CurKnown(p, n, b, |ListOf(p, b)|, v);
  }

  /** At the end of the block its values can be sent. */
  lemma VisitEnds(p: Code, t: Tree, n: Names, done: set<Block>, finished: set<Block>, b: Block, q: Code, status: Status,
                  stale: set<Value>, path: seq<Block>)
    requires b in p.instrs && VisitState(p, t, n, done, finished, b, |p.instrs[b]|, q, status, stale)
             && VisitReady(p, t, done, b, path)
    ensures WalkState(p, t, n, done + {b}, finished, SentAll(p, done)[b := []], q, stale)
    ensures TopsOf(status) == Out(p, n, b)
  {
    hide VisitReady, PhiReady, WellFormed, PhisInOrder, StoreBeforeLoad, UsesDefined, LocalsAreScalars, Exact,
         DominatorTheory.Tree.Valid, DominatorsIn, DominatorsBefore, CameBy, PlacedOnce, OpOf, Progress, CodeState,
         TopsOf, StaleReplaced, Settled, Cur, StaleAreKnown;
    VisitParts(p, t, done, b, path);
    ProgressSound(p, t, n, done, b, |ListOf(p, b)|);
    BlockDone(p, t, n, done, b);
    DominatorsInAdd(p.cfg, done, b);
    OutIsLast(p, n, b);
    SentNone(p, n, finished, SentAll(p, done), b, q.instrs, q.operands);
  }

  // ----- sending values over an edge -----

  function Served(list: seq<Inst>, j: nat): set<Inst>
    requires j <= |list|
  {
    set i | i in list[..j]
  }

  ghost predicate SendState(p: Code, t: Tree, n: Names, visited: set<Block>, finished: set<Block>,
                            sent: map<Block, seq<Block>>, b: Block, d: Block,
                            served: set<Inst>, q: Code, stale: set<Value>)
  {
    && t.Valid() && Settled(p, t, n, visited) && DominatorsIn(p.cfg, visited) && finished <= visited
    && Sending(p, n, finished, sent, b, d, served, q.instrs, q.operands)
    && q.cfg == p.cfg && q.kind == p.kind
    && StaleAreKnown(q.operands, stale) && StaleReplaced(p, n.rho, stale)
  }

  lemma SendStarts(p: Code, t: Tree, n: Names, visited: set<Block>, finished: set<Block>, sent: map<Block, seq<Block>>,
                   b: Block, d: Block,
                   q: Code, stale: set<Value>)
    requires WalkState(p, t, n, visited, finished, sent, q, stale) && d in p.instrs
    ensures d in q.instrs && SendState(p, t, n, visited, finished, sent, b, d, Served(q.instrs[d], 0), q, stale)
  {
    hide Settled, DominatorsIn, StaleAreKnown, StaleReplaced, DominatorTheory.Tree.Valid, PhiPairs, OperandsRenamed,
         PhiOperandsKnown, Sending;
    SendingStarts(p, n, finished, sent, b, d, q.instrs, q.operands);
    assert Served(q.instrs[d], 0) == {};
  }

  lemma SendEnds(p: Code, t: Tree, n: Names, visited: set<Block>, finished: set<Block>, sent: map<Block, seq<Block>>,
                 b: Block, d: Block,
                 q: Code, stale: set<Value>)
    requires d in p.instrs && d in q.instrs
             && SendState(p, t, n, visited, finished, sent, b, d, Served(q.instrs[d], |q.instrs[d]|), q, stale)
    ensures WalkState(p, t, n, visited, finished, SentOne(sent, b, d), q, stale)
  {
    hide Settled, DominatorsIn, StaleAreKnown, StaleReplaced, DominatorTheory.Tree.Valid, PhiPairsServed,
         OperandsRenamed, PhiOperandsKnown, CodeState, OpOf, InstrsRenamed;
    var list := q.instrs[d];
    assert list[..|list|] == list;
    forall k, i | IsAt(p, d, k, i) && OpOf(p, i).PhiOp?
      ensures i in Served(list, |list|)
    {
      PhisStand(p, finished, q.instrs, d, i);
    }
    SendingEnds(p, n, finished, sent, b, d, Served(list, |list|), q.instrs, q.operands);
  }

  lemma ServedNext(list: seq<Inst>, j: nat)
    requires j < |list|
    ensures Served(list, j + 1) == Served(list, j) + {list[j]}
  {
    assert list[..j + 1] == list[..j] + [list[j]];
  }

  /** The instruction the loop is at. */
  lemma SendReads(p: Code, t: Tree, n: Names, visited: set<Block>, finished: set<Block>, sent: map<Block, seq<Block>>,
                  b: Block, d: Block,
                  q: Code, stale: set<Value>, j: nat) returns (k: int)
    requires WellFormed(p) && d in p.instrs && d in q.instrs && j < |q.instrs[d]|
    requires SendState(p, t, n, visited, finished, sent, b, d, Served(q.instrs[d], j), q, stale)
    ensures IsAt(p, d, k, q.instrs[d][j]) && q.instrs[d][j] in q.kind && q.instrs[d][j] !in Served(q.instrs[d], j)
    ensures q.kind[q.instrs[d][j]].Phi? <==> OpOf(p, q.instrs[d][j]).PhiOp?
    ensures q.kind[q.instrs[d][j]].Phi? ==> OpOf(p, q.instrs[d][j]).v == q.kind[q.instrs[d][j]].lval
    ensures q.kind[q.instrs[d][j]].Phi? ==> q.instrs[d][j] in q.operands && Live(q.instrs, q.instrs[d][j])
  {
    hide Settled, DominatorsIn, StaleAreKnown, StaleReplaced, DominatorTheory.Tree.Valid, PhiPairsAt, OperandsRenamed,
         OpOf, WellFormed;
    var i := q.instrs[d][j];
    CodeParts(p);
    PhisStand(p, finished, q.instrs, d, i);
    k :| 0 <= k < |p.instrs[d]| && p.instrs[d][k] == i;
    PhiKind(p, d, k, i);
    PlacedOnceRenamed(p, finished, q.instrs);
    assert forall m :: 0 <= m < j ==> q.instrs[d][m] != i;
    assert i !in q.instrs[d][..j];
  }

  lemma CodeParts(p: Code)
    requires WellFormed(p)
    ensures PlacedOnce(p.instrs) && LocalsAreScalars(p) && p.instrs.Keys == p.cfg.succs.Keys
  {
  }

  lemma SendPhi(p: Code, t: Tree, n: Names, visited: set<Block>, finished: set<Block>, sent: map<Block, seq<Block>>,
                b: Block, d: Block, served: set<Inst>, q: Code, stale: set<Value>, status: Status, k: int, i: Inst)
    requires WellFormed(p) && SendState(p, t, n, visited, finished, sent, b, d, served, q, stale)
             && TopsOf(status) == Out(p, n, b)
    requires IsAt(p, d, k, i) && OpOf(p, i).PhiOp? && i !in served && i in q.operands
    ensures var v := OpOf(p, i).v;
            if v in status && |status[v]| > 0 then
              status[v][|status[v]| - 1] !in stale && Label(b) !in stale
              && SendState(p, t, n, visited, finished, sent, b, d, served + {i},
                           Code(q.cfg, q.instrs, q.kind,
                                q.operands[i := q.operands[i] + [status[v][|status[v]| - 1], Label(b)]]),
                           stale)
            else SendState(p, t, n, visited, finished, sent, b, d, served + {i}, q, stale)
  {
    hide Settled, DominatorsIn, StaleReplaced, DominatorTheory.Tree.Valid, OpOf, WellFormed, Sending, Known, Out;
    CodeParts(p);
    SettledKeys(p, t, n, visited);
    NamesReplaceLoads(p, n);
    forall v | v in Out(p, n, b)
      ensures Known(p, Out(p, n, b)[v])
    {
      OutKnown(p, n, b, v);
    }
    hide NamesSound;
    var v := OpOf(p, i).v;
    var operands' := q.operands[i := if ValueIn(Out(p, n, b), v).Some? then
                                       q.operands[i] + [ValueIn(Out(p, n, b), v).value, Label(b)]
                                     else q.operands[i]];
    assert v in TopsOf(status) <==> v in status && |status[v]| > 0;
    SendingPhi(p, n, finished, sent, b, d, served, q.instrs, q.operands, k, i, operands');
    LabelKnown(p, b);
    NotStale(p, n, stale, Label(b));
    if v in Out(p, n, b) {
      NotStale(p, n, stale, Out(p, n, b)[v]);
      TopIsLast(status, v);
    } else {
      assert operands' == q.operands;
    }
  }

  lemma SendOther(p: Code, t: Tree, n: Names, visited: set<Block>, finished: set<Block>, sent: map<Block, seq<Block>>,
                  b: Block, d: Block,
                  served: set<Inst>, q: Code, stale: set<Value>, i: Inst)
    requires SendState(p, t, n, visited, finished, sent, b, d, served, q, stale) && !OpOf(p, i).PhiOp?
    ensures SendState(p, t, n, visited, finished, sent, b, d, served + {i}, q, stale)
  {
    hide Settled, DominatorsIn, StaleAreKnown, StaleReplaced, DominatorTheory.Tree.Valid, OpOf, Sending;
    SendingOther(p, n, finished, sent, b, d, served, q.instrs, q.operands, i);
  }

  // ----- coming to a successor -----

  lemma SuccReady(p: Code, t: Tree, n: Names, visited: set<Block>, finished: set<Block>, q: Code, stale: set<Value>,
                  done: set<Block>, b: Block, path: seq<Block>, d: Block)
    requires VisitReady(p, t, done, b, path) && done + {b} <= visited
             && WalkState(p, t, n, visited, finished, SentAll(p, visited), q, stale)
    requires b in p.cfg.succs && d in p.cfg.succs[b] && StoredArrives(p, path, TopsAt(n, b))
    ensures d in p.instrs && VisitReady(p, t, visited, d, path + [d])
    ensures Arriving(p, n, path + [d]) == Out(p, n, b) && StoredArrives(p, path + [d], Out(p, n, b))
  {
    hide PhiReady, WellFormed, PhisInOrder, StoreBeforeLoad, UsesDefined, LocalsAreScalars, Exact,
         DominatorTheory.Tree.Valid, DominatorsIn, DominatorsBefore, CameBy, PlacedOnce, CodeState, StaleReplaced, Out,
         StaleAreKnown, NamesSound, Located, StoredArrives, PhisOnTop, Inherits, NamedUpTo, TopsAt, VisitReady;
    VisitParts(p, t, done, b, path);
    SuccIsBlock(p, b, d);
    CameByNext(p, path, visited, done, b, d);
    assert NamedBlock(p, t, n, b);
    PathEnds(p, path, b);
    StoredArrivesNext(p, n, path, b, d);
    VisitReadyOf(p, t, visited, d, path + [d]);
  }

  lemma PathEnds(p: Code, path: seq<Block>, b: Block)
    requires p.cfg.PathFromTo(path, p.cfg.entry, b)
    ensures path != [] && path[|path| - 1] == b && b in p.cfg.succs
  {
  }

  lemma VisitReadyOf(p: Code, t: Tree, done: set<Block>, b: Block, path: seq<Block>)
    requires PhiReady(p) && Exact(p.cfg, t) && DominatorsIn(p.cfg, done) && CameBy(p, path, done, b)
    ensures VisitReady(p, t, done, b, path)
  {
  }

  // ----- finishing a block -----

  lemma Finishes(p: Code, t: Tree, n: Names, visited: set<Block>, finished: set<Block>, q: Code, stale: set<Value>,
                 b: Block, q': Code)
    requires WalkState(p, t, n, visited, finished, SentAll(p, visited), q, stale) && b in visited && b in p.instrs
             && b !in finished
    requires q' == Code(q.cfg, q.instrs[b := Keep(p.instrs[b], VarOps(p, b))], q.kind, q.operands)
    ensures WalkState(p, t, n, visited, finished + {b}, SentAll(p, visited), q', stale)
  {
    hide Settled, DominatorsIn, StaleAreKnown, StaleReplaced, DominatorTheory.Tree.Valid, CodeState, VarOps;
    BlockFinished(p, n, finished, SentAll(p, visited), q.instrs, q.operands, b, q'.instrs);
  }

  // ----- from visit to visit -----

  /** What a stretch of the walk leaves: more visited blocks, all of them finished,
      more names, and the same stacks. */
  ghost predicate WalkedFrom(p: Code, visited: set<Block>, finished: set<Block>, n: Names, status: Status,
                             visited': set<Block>, finished': set<Block>, n': Names, status': Status)
  {
    && visited <= visited' <= p.instrs.Keys && finished' == finished + (visited' - visited)
    && Extends(p, n, n', visited) && SameStacks(status, status') && SuccsIn(p.cfg, visited, visited')
  }

  lemma WalkedOn(p: Code, visited0: set<Block>, finished0: set<Block>, n0: Names, status0: Status,
                 visited1: set<Block>, finished1: set<Block>, n1: Names, status1: Status,
                 visited2: set<Block>, finished2: set<Block>, n2: Names, status2: Status)
    requires WalkedFrom(p, visited0, finished0, n0, status0, visited1, finished1, n1, status1)
    requires WalkedFrom(p, visited1, finished1, n1, status1, visited2, finished2, n2, status2)
    ensures WalkedFrom(p, visited0, finished0, n0, status0, visited2, finished2, n2, status2)
  {
    hide Extends, StackOf;
    ExtendsTrans(p, n0, n1, n2, visited0, visited1);
    assert finished2 == finished0 + (visited2 - visited0);
  }

  lemma WalkedStacks(p: Code, visited': set<Block>, finished': set<Block>, n': Names, status': Status,
                     visited: set<Block>, finished: set<Block>, n: Names, status: Status)
    requires WalkedFrom(p, visited, finished, n, status, visited', finished', n', status')
    ensures SameStacks(status, status') && visited <= visited' <= p.instrs.Keys
            && finished' == finished + (visited' - visited)
  {
  }

  /** The visit of one block, around the stretch from its successors. */
  lemma WalkedBlock(p: Code, done: set<Block>, finished0: set<Block>, n0: Names, status0: Status, b: Block, n2: Names,
                    status2: Status, visited': set<Block>, finished3: set<Block>, n': Names, status3: Status,
                    finished': set<Block>, status': Status)
    requires done <= p.instrs.Keys && b in p.instrs && b !in done && b in p.cfg.succs && Extends(p, n0, n2, done)
    requires WalkedFrom(p, done + {b}, finished0, n2, status2, visited', finished3, n', status3)
    requires forall s :: s in p.cfg.succs[b] ==> s in visited'
    requires finished' == finished3 + {b} && SameStacks(status0, status')
    ensures WalkedFrom(p, done, finished0, n0, status0, visited', finished', n', status')
  {
    hide Extends, SameStacks;
    ExtendsTrans(p, n0, n2, n', done, done + {b});
    assert finished' == finished0 + (visited' - done);
  }

  lemma SuccStarts(p: Code, t: Tree, visited0: set<Block>, n0: Names, status0: Status, n: Names, visited: set<Block>,
                   finished: set<Block>,
                   status: Status, q: Code, stale: set<Value>, done: set<Block>, b: Block, path: seq<Block>, d: Block)
    requires VisitReady(p, t, done, b, path) && done + {b} <= visited0 <= visited && b in p.cfg.succs
             && d in p.cfg.succs[b]
    requires WalkState(p, t, n, visited, finished, SentAll(p, visited), q, stale)
    requires Extends(p, n0, n, visited0) && b in n0.tops && SameStacks(status0, status)
    requires TopsOf(status0) == Out(p, n0, b) && StoredArrives(p, path, TopsAt(n0, b))
    ensures d in p.instrs && VisitReady(p, t, visited, d, path + [d])
    ensures TopsOf(status) == Arriving(p, n, path + [d]) && StoredArrives(p, path + [d], TopsOf(status))
  {
    hide VisitReady, WalkState, SentAll, StoredArrives, Out, SameStacks, TopsOf;
    SameTops(status0, status);
    OutKept(p, n0, n, visited0, b);
    assert TopsAt(n, b) == TopsAt(n0, b);
    hide Extends, Arriving, TopsAt;
    SuccReady(p, t, n, visited, finished, q, stale, done, b, path, d);
  }

  lemma VisitFacts(p: Code, t: Tree, done: set<Block>, b: Block, path: seq<Block>, n: Names, finished: set<Block>,
                   q: Code, stale: set<Value>)
    requires VisitReady(p, t, done, b, path) && WalkState(p, t, n, done, finished, SentAll(p, done), q, stale)
             && b in p.instrs && b !in done
    ensures WellFormed(p) && PhisInOrder(p) && LocalsAreScalars(p) && b in p.cfg.succs
    ensures b in q.instrs && q.instrs[b] == p.instrs[b] && q.kind == p.kind && b !in finished && finished <= done
            && n.tops.Keys == done
  {
    hide WellFormed, PhisInOrder, LocalsAreScalars, VisitReady, OperandsRenamed, PhiPairs, PhiOperandsKnown,
         StaleReplaced, StaleAreKnown, DoneNamed, Located, NamesSound, DominatorsIn, DominatorTheory.Tree.Valid;
    VisitParts(p, t, done, b, path);
  }

  lemma WalkTops(p: Code, t: Tree, n: Names, visited: set<Block>, finished: set<Block>, sent: map<Block, seq<Block>>,
                 q: Code, stale: set<Value>)
    requires WalkState(p, t, n, visited, finished, sent, q, stale)
    ensures n.tops.Keys == visited
  {
  }

  lemma TopsAtNew(n: Names, b: Block, tops: map<Inst, Value>)
    ensures TopsAt(n.(tops := n.tops[b := tops]), b) == tops
  {
  }

  lemma TopsAtSame(n: Names, m: Names, b: Block)
    requires m.tops == n.tops
    ensures TopsAt(m, b) == TopsAt(n, b) && (b in n.tops <==> b in m.tops)
  {
  }

  lemma CountedHere(p: Code, defineVar: map<Block, seq<Inst>>, b: Block)
    requires DefinesCounted(p, defineVar) && b in p.instrs
    ensures b in defineVar && defineVar[b] == DefsUpTo(p, p.instrs[b], |p.instrs[b]|)
  {
    assert CountedAt(p, defineVar, b);
  }

  lemma DeletesStart(p: Code, t: Tree, n: Names, visited: set<Block>, finished: set<Block>, q: Code, stale: set<Value>,
                     b: Block)
    requires WellFormed(p) && WalkState(p, t, n, visited, finished, SentAll(p, visited), q, stale) && b in p.instrs
             && b !in finished
    ensures b in q.instrs && q.instrs[b] == p.instrs[b] && PlacedOnce(q.instrs)
    ensures forall i :: i in VarOps(p, b) ==> i in q.instrs[b] && i in q.operands
  {
    hide WellFormed, PlacedOnce, OpOf, OperandsRenamed, PhiPairs, PhiOperandsKnown, StaleReplaced, StaleAreKnown,
         Settled, DominatorsIn, DominatorTheory.Tree.Valid, Live;
    CodeParts(p);
    PlacedOnceRenamed(p, finished, q.instrs);
    forall i | i in VarOps(p, b)
      ensures i in q.instrs[b] && i in q.operands
    {
      var k :| 0 <= k < |p.instrs[b]| && p.instrs[b][k] == i;
      assert IsAt(p, b, k, i);
      StandsLive(p, finished, q.instrs, SentAll(p, visited), n, q.operands, b, k, i);
    }
  }
}
