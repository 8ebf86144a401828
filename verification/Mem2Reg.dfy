/** Promotion of scalar locals to SSA values. */
module Mem2RegPass {
  import opened FlowGraphs
  import opened Ir
  import opened Semantics
  import opened Substitutions
  import opened Keeping
  import opened Trimming
  import opened Forwarding
  import opened ForwardingRuns
  import opened ForwardingResult
  import opened ForwardingApply
  import opened PhiPlacement
  import opened DominatorTheory
  import opened ReachingDefinitions
  import opened Renaming
  import opened RenamingRuns
  import opened Stacks
  import opened RenamingSteps
  import opened RenamingState
  import opened RenamingVisits
  import opened RenamingResult
  import opened PhiResult
  import opened AllocaRemoval
  import opened PhiOperands
  import opened PhiPresence
  import opened Lists

  /** Use lists are exact but for values of deleted instructions. */
  ghost predicate Tidy(fn: Function, stale: set<Value>)
    reads fn
  {
    fn.Exact(stale) && fn.HasSupply() && StaleAreDead(fn.instrs, stale) && StaleAreKnown(fn.operands, stale)
  }

  lemma SameBehaviourRefl(p: Code)
    ensures SameBehaviour(p, p)
  {
  }

  lemma SameBehaviourTrans(p: Code, q: Code, r: Code)
    requires SameBehaviour(p, q) && SameBehaviour(q, r)
    ensures SameBehaviour(p, r)
  {
    hide Run, Observe;
  }

  // ----- what the loops of the forwarding need from step to step -----

  lemma AppliedFacts(p: Code, b: Block, instrs: map<Block, seq<Inst>>, operands: map<Inst, seq<Value>>,
                     sub: map<Inst, Value>, done: set<Inst>,
                     inst: Inst, value: Value, stale: set<Value>)
    requires PlacedOnce(p.instrs) && Applied(p, b, instrs, operands, sub, done) && StaleAreDead(instrs, stale)
    requires forall j :: j in sub ==> j in p.instrs[b]
    requires done <= sub.Keys && inst in sub && inst !in done
             && (value.Res? ==> value.i !in sub && Live(p.instrs, value.i))
    ensures PlacedOnce(instrs) && b in instrs && inst in operands
    ensures forall u :: Live(instrs, u) ==> u in operands
    ensures value !in stale && Res(inst) !in stale
  {
    KeepDistinct(p.instrs, b, done);
    LiveKept(p, b, done);
    assert Live(p.instrs, inst);
  }

  lemma StaleAfterDelete(instrs: map<Block, seq<Inst>>, b: Block, inst: Inst, stale: set<Value>,
                         instrs': map<Block, seq<Inst>>)
    requires PlacedOnce(instrs) && b in instrs && inst in instrs[b] && StaleAreDead(instrs, stale)
    requires instrs' == instrs[b := Without(instrs[b], inst)]
    ensures StaleAreDead(instrs', stale + {Res(inst)})
  {
    LiveWithout(instrs, b, inst);
    hide Live, PlacedOnce;
    forall v | v in stale + {Res(inst)}
      ensures v.Res? && !Live(instrs', v.i)
    {
      assert Live(instrs', v.i) <==> Live(instrs, v.i) && v.i != inst;
    }
  }

  lemma PromotableScan(p: Code, b: Block)
    requires Promotable(p) && b in p.instrs
    ensures ScanOf(p, b, ScanAll(p, p.instrs[b]))
  {
  }

  lemma AppliedOperands(p: Code, b: Block, instrs: map<Block, seq<Inst>>, operands: map<Inst, seq<Value>>,
                        sub: map<Inst, Value>, done: set<Inst>)
    requires Applied(p, b, instrs, operands, sub, done)
    ensures OperandsApplied(p, operands, sub, done)
  {
  }

  lemma DeletesReady(p: Code, b: Block, fin: Scan, instrs: map<Block, seq<Inst>>, operands: map<Inst, seq<Value>>)
    requires ScanOf(p, b, fin) && Applied(p, b, instrs, operands, fin.forward, fin.forward.Keys)
    ensures b in instrs && PlacedOnce(instrs)
    ensures forall i :: i in fin.deleted ==> i in instrs[b] && i in operands
  {
    ScanOfParts(p, b, fin);
    KeepDistinct(p.instrs, b, fin.forward.Keys);
    KeepContents(p.instrs[b], fin.forward.Keys);
    forall i | i in fin.deleted
      ensures i in instrs[b] && i in operands
    {
      ScanInBlock(p, b, fin, i);
      assert Live(p.instrs, i);
    }
  }

  // ----- what the loops of the phi insertion need -----

  ghost predicate DefinedAt(defined: map<Inst, set<Block>>, v: Inst, b: Block) {
    v in defined && b in defined[v]
  }

  /** The loads and stores of the first `k` instructions of `b` have been noted. */
  ghost predicate Noted(code: Code, b: Block, k: int, globals: set<Inst>, defined: map<Inst, set<Block>>,
                        globals': set<Inst>, defined': map<Inst, set<Block>>)
  {
    && (forall v :: v in globals' <==> v in globals || exists j :: 0 <= j < k && LoadAt(code, b, j, v))
    && (forall v, c :: DefinedAt(defined', v, c) <==>
          DefinedAt(defined, v, c) || (c == b && StoredEarlier(code, b, k, v)))
  }

  ghost predicate LoadAt(code: Code, b: Block, j: int, v: Inst) {
    0 <= j < |ListOf(code, b)| && OpOf(code, ListOf(code, b)[j]) == ReadVar(v)
  }

  /** The loads and stores of the first `n` blocks have been noted. */
  ghost predicate Collected(code: Code, blocks: seq<Block>, n: int, globals: set<Inst>, defined: map<Inst, set<Block>>)
    requires 0 <= n <= |blocks|
  {
    && (forall v :: v in globals <==> exists b :: b in blocks[..n] && Loads(code, b, v))
    && (forall v, b :: DefinedAt(defined, v, b) <==> b in blocks[..n] && Stores(code, b, v))
  }

  lemma LoadsFound(code: Code, b: Block, v: Inst)
    ensures Loads(code, b, v) <==> exists j :: 0 <= j < |ListOf(code, b)| && LoadAt(code, b, j, v)
    ensures Stores(code, b, v) <==> StoredEarlier(code, b, |ListOf(code, b)|, v)
  {
    hide OpOf;
    if Loads(code, b, v) {
      var j :| 0 <= j < |ListOf(code, b)| && OpOf(code, ListOf(code, b)[j]) == ReadVar(v);
      assert LoadAt(code, b, j, v);
    }
  }

  lemma CollectedStep(code: Code, blocks: seq<Block>, n: int, globals: set<Inst>, defined: map<Inst, set<Block>>,
                      globals': set<Inst>, defined': map<Inst, set<Block>>)
    requires 0 <= n < |blocks| && Collected(code, blocks, n, globals, defined)
    requires Noted(code, blocks[n], |ListOf(code, blocks[n])|, globals, defined, globals', defined')
    ensures Collected(code, blocks, n + 1, globals', defined')
  {
    hide Loads, Stores, StoredEarlier, LoadAt;
    assert blocks[..n + 1] == blocks[..n] + [blocks[n]];
    forall v
      ensures v in globals' <==> exists b :: b in blocks[..n + 1] && Loads(code, b, v)
    {
      LoadsFound(code, blocks[n], v);
    }
    forall v, b
      ensures DefinedAt(defined', v, b) <==> b in blocks[..n + 1] && Stores(code, b, v)
    {
      LoadsFound(code, blocks[n], v);
    }
  }

  lemma CollectedAll(p: Code, blocks: seq<Block>, globals: set<Inst>, defined: map<Inst, set<Block>>)
    requires WellFormed(p) && StoreBeforeLoad(p) && (forall b :: b in blocks <==> b in p.instrs)
    requires Collected(p, blocks, |blocks|, globals, defined)
    ensures forall v :: v in globals <==> Loaded(p, v)
    ensures forall v :: v in globals ==> v in defined && defined[v] == Defs(p, v)
  {
    hide WellFormed, StoreBeforeLoad, Loads, Stores;
    assert blocks[..|blocks|] == blocks;
    forall v | v in globals
      ensures v in defined && defined[v] == Defs(p, v)
    {
      LoadedIsStored(p, v);
      var b :| b in Defs(p, v);
      assert DefinedAt(defined, v, b);
      forall c
        ensures c in defined[v] <==> c in Defs(p, v)
      {
        assert DefinedAt(defined, v, c) <==> c in blocks && Stores(p, c, v);
      }
    }
  }

  /** Phis for the locals in `done`, and only those, stand where they must. */
  ghost predicate PhisPlaced(p: Code, phis: map<Block, set<Inst>>, done: set<Inst>) {
    && (forall v :: v in done ==> IsIteratedFrontier(p.cfg, Defs(p, v), PhiBlocks(phis, v)))
    && forall v :: v !in done ==> PhiBlocks(phis, v) == {}
  }

  lemma PhisPlacedStep(p: Code, phis: map<Block, set<Inst>>, done: set<Inst>, v: Inst, phis': map<Block, set<Inst>>)
    requires PhisPlaced(p, phis, done) && OthersKept(phis, phis', v)
    requires IsIteratedFrontier(p.cfg, Defs(p, v), PhiBlocks(phis', v))
    ensures PhisPlaced(p, phis', done + {v})
  {
    hide IsIteratedFrontier;
  }

  lemma PlacedParts(p: Code, phis: map<Block, set<Inst>>, done: set<Inst>, v: Inst)
    requires PhisPlaced(p, phis, done) && v !in done
    ensures PhiBlocks(phis, v) == {} && Defs(p, v) <= p.instrs.Keys
  {
  }

  lemma PlacedEnds(p: Code, phis: map<Block, set<Inst>>, globals: set<Inst>)
    requires PhisPlaced(p, phis, globals) && forall v :: v in globals <==> Loaded(p, v)
    ensures forall v :: Loaded(p, v) ==> IsIteratedFrontier(p.cfg, Defs(p, v), PhiBlocks(phis, v))
    ensures forall v :: !Loaded(p, v) ==> PhiBlocks(phis, v) == {}
  {
    hide Loaded, IsIteratedFrontier;
  }

  lemma NothingPlaced(p: Code)
    ensures PhisPlaced(p, map[], {})
  {
  }

  lemma QueueBlock(g: FlowGraph, frontier: map<Block, set<Block>>, defs: set<Block>, s: set<Block>, queue: seq<Block>,
                   iter: int)
    requires Placing(g, frontier, defs, s, queue, iter) && 0 <= iter < |queue| && FrontierTable(g, frontier)
    requires defs <= g.succs.Keys && s <= g.succs.Keys
    ensures queue[iter] in frontier && frontier[queue[iter]] <= g.succs.Keys
  {
    assert queue[iter] in queue;
  }

  lemma PhiBlocksAt(phis: map<Block, set<Inst>>, b: Block, v: Inst)
    ensures b in PhiBlocks(phis, v) <==> v in PhisAt(phis, b)
  {
  }

  lemma PlacingNext(g: FlowGraph, frontier: map<Block, set<Block>>, defs: set<Block>, s: set<Block>, queue: seq<Block>,
                    iter: int)
    requires Placing(g, frontier, defs, s, queue, iter) && iter < |queue| && FrontierInside(frontier, queue[iter], s)
    ensures Placing(g, frontier, defs, s, queue, iter + 1)
  {
    hide NotTooBig;
  }

  lemma PlacingBounds(g: FlowGraph, frontier: map<Block, set<Block>>, defs: set<Block>, s: set<Block>,
                      queue: seq<Block>, iter: int)
    requires Placing(g, frontier, defs, s, queue, iter)
    ensures 0 <= iter <= |queue|
  {
  }

  lemma NotedNone(code: Code, b: Block, globals: set<Inst>, defined: map<Inst, set<Block>>)
    ensures Noted(code, b, 0, globals, defined, globals, defined)
  {
  }

  lemma CollectedNone(code: Code, blocks: seq<Block>)
    ensures Collected(code, blocks, 0, {}, map[])
  {
  }

  /** What `isLocalVarOp` tells about an instruction of the function. */
  lemma LocalOp(code: Code, b: Block, k: int, inst: Inst)
    requires LocalsAreScalars(code) && IsAt(code, b, k, inst)
    ensures inst in code.kind && inst in code.operands
    ensures IsLocalVarOp(code, inst) && code.kind[inst] == Load ==>
              |code.operands[inst]| == 1 && code.operands[inst][0].Res?
              && OpOf(code, inst) == ReadVar(code.operands[inst][0].i)
    ensures IsLocalVarOp(code, inst) && code.kind[inst] != Load ==>
              |code.operands[inst]| == 2 && code.operands[inst][1].Res?
              && OpOf(code, inst) == WriteVar(code.operands[inst][1].i, code.operands[inst][0])
    ensures IsLocalVarOp(code, inst) <==> OpOf(code, inst).ReadVar? || OpOf(code, inst).WriteVar?
  {
  }

  lemma NotedStep(code: Code, b: Block, k: int, globals0: set<Inst>, defined0: map<Inst, set<Block>>,
                  globals1: set<Inst>, defined1: map<Inst, set<Block>>, globals: set<Inst>,
                  defined: map<Inst, set<Block>>)
    requires 0 <= k < |ListOf(code, b)| && Noted(code, b, k, globals0, defined0, globals1, defined1)
    requires NotedOne(OpOf(code, ListOf(code, b)[k]), b, globals1, defined1, globals, defined)
    ensures Noted(code, b, k + 1, globals0, defined0, globals, defined)
  {
    hide OpOf;
    var i := ListOf(code, b)[k];
    forall v
      ensures StoredEarlier(code, b, k + 1, v) <==> StoredEarlier(code, b, k, v) || WritesTo(code, i, v)
      ensures (exists j :: 0 <= j < k + 1 && LoadAt(code, b, j, v)) <==>
                (exists j :: 0 <= j < k && LoadAt(code, b, j, v)) || OpOf(code, i) == ReadVar(v)
    {
      assert LoadAt(code, b, k, v) <==> OpOf(code, i) == ReadVar(v);
      if WritesTo(code, i, v) {
        assert WritesTo(code, ListOf(code, b)[k], v);
      }
    }
  }

  ghost predicate NotedOne(op: Op, b: Block, globals: set<Inst>, defined: map<Inst, set<Block>>, globals': set<Inst>,
                           defined': map<Inst, set<Block>>)
  {
    && globals' == (if op.ReadVar? then globals + {op.v} else globals)
    && forall v, c :: DefinedAt(defined', v, c) <==> DefinedAt(defined, v, c) || (c == b && op.WriteVar? && op.v == v)
  }

  lemma StillDeadAdded(instrs: map<Block, seq<Inst>>, operands: map<Inst, seq<Value>>, b: Block, i: Inst,
                       stale: set<Value>)
    requires b in instrs && i !in operands && StaleAreDead(instrs, stale) && StaleAreKnown(operands, stale)
    ensures StaleAreDead(instrs[b := [i] + instrs[b]], stale) && StaleAreKnown(operands[i := []], stale)
  {
  }

  // ----- between the phases -----

  lemma PromotableParts(p: Code)
    requires Promotable(p)
    ensures WellFormed(p) && NoPhis(p) && StoreBeforeLoad(p) && LocalsAreScalars(p)
  {
  }

  lemma InsertedOf(p: Code, q: Code, front: map<Block, seq<Inst>>, phis: map<Block, set<Inst>>)
    requires PhisGenerated(p, q, front, phis)
    requires forall v :: Loaded(p, v) ==> IsIteratedFrontier(p.cfg, Defs(p, v), PhiBlocks(phis, v))
    requires forall v :: !Loaded(p, v) ==> PhiBlocks(phis, v) == {}
    ensures PhisInserted(p, q, front, phis)
  {
  }

  lemma ReadyParts(p: Code)
    requires PhiReady(p)
    ensures WellFormed(p) && LocalsAreScalars(p)
  {
  }

  lemma RenamedResult(p: Code, q: Code, t: Tree, n: Names)
    requires RenamedCode(p, q, t, n)
    ensures WellFormed(q) && NoVarOps(q) && PhisDefined(q) && SameBehaviour(p, q)
    ensures q.instrs.Keys == p.instrs.Keys && q.cfg == p.cfg
  {
    hide WellFormed, NoVarOps, PhisDefined, SameBehaviour, RenamedCode;
    RenamedWellFormed(p, q, t, n);
    RenamedNoVarOps(p, q, t, n);
    RenamedPhisDefined(p, q, t, n);
    RenamingSameBehaviour(p, q, t, n);
    RenamedBlocks(p, q, t, n);
  }

  lemma RenamedBlocks(p: Code, q: Code, t: Tree, n: Names)
    requires RenamedCode(p, q, t, n)
    ensures q.instrs.Keys == p.instrs.Keys && q.cfg == p.cfg
  {
    hide PhiReady, Exact, AllNamed, PhiPairs;
  }

  lemma KindTells(code: Code, i: Inst)
    requires i in code.kind
    ensures IsScalarAlloca(code, i) <==> code.kind[i] == Alloca(true)
  {
  }

  lemma RemovedKnown(p: Code, q: Code, done: set<Block>, b: Block)
    requires AllocasRemoved(p, q, done) && LocalsAreScalars(p) && b in p.instrs
    ensures forall i :: i in q.instrs[b] ==> i in q.kind && i in q.operands
  {
    forall i | i in q.instrs[b]
      ensures i in q.kind && i in q.operands
    {
      KeepContents(p.instrs[b], ScalarAllocas(p, p.instrs[b]));
      var k :| 0 <= k < |p.instrs[b]| && p.instrs[b][k] == i;
      assert IsAt(p, b, k, i);
    }
  }

  /** A value that some slot holds has an exact use list. */
  lemma HeldAreListed(fn: Function, stale: set<Value>)
    requires Tidy(fn, stale)
    ensures forall u, k, v :: Holds(fn.instrs, fn.operands, u, k, v) ==>
              ListedExactly(fn.instrs, fn.operands, UsesOf(fn.uses, v), v)
  {
    hide Holds, ListedExactly;
  }

  class Mem2Reg {
    const fn: Function
    /** What every block gives a new value, the stacks of values, and the blocks
        the renaming has come to. */
    var defineVar: map<Block, seq<Inst>>
    var valueStatus: Status
    var visited: set<Block>
    ghost var stale: set<Value>
    ghost var names: Names
    ghost var finished: set<Block>

    constructor (fn: Function)
      ensures this.fn == fn && stale == {}
      ensures valueStatus == map[] && visited == {} && finished == {} && names == Names(map[], map[], map[])
    {
      this.fn := fn;
      defineVar, valueStatus, visited := map[], map[], {};
      stale, names, finished := {}, Names(map[], map[], map[]), {};
    }

    /** The scan of one block: the loads to replace and the stores to delete. */
    method ScanBlock(b: Block) returns (forwardList: map<Inst, Value>, deleteList: set<Inst>)
      requires b in fn.instrs && LocalsAreScalars(fn.GetCode())
      ensures forwardList == ScanAll(fn.GetCode(), fn.instrs[b]).forward
      ensures deleteList == ScanAll(fn.GetCode(), fn.instrs[b]).deleted
    {
      var list := fn.instrs[b];
      ghost var code := fn.GetCode();
      var definedList: map<Inst, Inst>, newValue: map<Inst, Value> := map[], map[];
      forwardList, deleteList := map[], {};
      for k := 0 to |list|
        invariant Scan(definedList, newValue, forwardList, deleteList) == ScanUpTo(code, list, k)
        invariant definedList.Keys == newValue.Keys
      {
        var inst := list[k];
        assert IsAt(code, b, k, inst);
        if IsLocalVarOp(fn.GetCode(), inst) {
          if fn.kind[inst] == Store {
            var lvalue, rvalue := fn.operands[inst][1].i, fn.operands[inst][0];
            if rvalue.Res? && rvalue.i in forwardList {
              rvalue := forwardList[rvalue.i];
            }
            if lvalue in definedList {
              deleteList := deleteList + {definedList[lvalue]};
            }
            definedList := definedList[lvalue := inst];
            newValue := newValue[lvalue := rvalue];
          } else {
            var lvalue := fn.operands[inst][0].i;
            if lvalue in definedList {
              forwardList := forwardList[inst := newValue[lvalue]];
            }
          }
        }
      }
    }

    /** One round of the first loop: every use of the load becomes `value`, and the
        load is deleted. */
    method ReplaceAndDelete(b: Block, inst: Inst, value: Value, ghost p: Code, ghost sub: map<Inst, Value>,
                            ghost done: set<Inst>)
      requires PlacedOnce(p.instrs) && Applied(p, b, fn.instrs, fn.operands, sub, done) && Tidy(fn, stale)
      requires done <= sub.Keys && inst in sub && inst !in done && value == sub[inst]
      requires forall j :: j in sub ==> j in p.instrs[b] && sub[j] != Res(inst)
      requires value.Res? ==> value.i !in sub && Live(p.instrs, value.i)
      modifies fn`instrs, fn`operands, fn`uses, this`stale
      ensures Applied(p, b, fn.instrs, fn.operands, sub, done + {inst}) && Tidy(fn, stale)
    {
      hide Applied, DefUse, Live, PlacedOnce, ReplacedAll;
      AppliedStep(p, b, fn.instrs, fn.operands, sub, done, inst);
      AppliedFacts(p, b, fn.instrs, fn.operands, sub, done, inst, value, stale);
      fn.ReplaceAllUseWith(Res(inst), value, stale);
      stale := stale + {Res(inst)};
      fn.DeleteInstr(b, inst, stale);
      StaleAfterDelete(old(fn.instrs), b, inst, old(stale), fn.instrs);
    }

    /** The first rewriting loop, over the table in any order. */
    method ApplyForwards(b: Block, forwardList: map<Inst, Value>, ghost p: Code, ghost fin: Scan)
      requires p == fn.GetCode() && ScanOf(p, b, fin) && b in p.instrs && forwardList == fin.forward && Tidy(fn, stale)
      modifies fn`instrs, fn`operands, fn`uses, this`stale
      ensures Applied(p, b, fn.instrs, fn.operands, fin.forward, fin.forward.Keys)
      ensures fn.kind == old(fn.kind) && Tidy(fn, stale)
    {
      hide ScanOf, Applied, DefUse, Live, StaleAreDead, StaleAreKnown;
      ScanOfParts(p, b, fin);
      ForwardTable(p, b, fin);
      NothingApplied(p, b, fin.forward);
      var left := forwardList.Keys;
      ghost var done: set<Inst> := {};
      while left != {}
        invariant left <= forwardList.Keys && done == forwardList.Keys - left
        invariant Applied(p, b, fn.instrs, fn.operands, fin.forward, done)
        invariant Tidy(fn, stale)
        decreases left
      {
        var inst :| inst in left;
        ReplaceAndDelete(b, inst, forwardList[inst], p, fin.forward, done);
        TakenOne(forwardList.Keys, left, inst);
        left := left - {inst};
        done := done + {inst};
      }
      assert done == fin.forward.Keys;
    }

    /** `delete_instr` for every instruction of a list of `bb`, in any order. */
    method DeleteInstrs(b: Block, deleteList: set<Inst>)
      requires b in fn.instrs && PlacedOnce(fn.instrs) && fn.Exact(stale)
      requires forall i :: i in deleteList ==> i in fn.instrs[b] && i in fn.operands
      modifies fn`instrs, fn`uses
      ensures fn.instrs == old(fn.instrs)[b := Keep(old(fn.instrs)[b], deleteList)]
      ensures fn.Exact(stale)
    {
      hide DefUse, PlacedOnce, Keep, Without;
      ghost var instrs0 := fn.instrs;
      ghost var list := fn.instrs[b];
      var left := deleteList;
      ghost var done: set<Inst> := {};
      KeepNothing(list);
      assert fn.instrs == instrs0[b := list];
      while left != {}
        invariant left <= deleteList && done == deleteList - left
        invariant fn.instrs == instrs0[b := Keep(list, done)]
        invariant fn.Exact(stale)
        decreases left
      {
        var inst :| inst in left;
        DeleteNext(instrs0, b, done, inst);
        KeepWithout(list, done, inst);
        fn.DeleteInstr(b, inst, stale);
        TakenOne(deleteList, left, inst);
        left := left - {inst};
        done := done + {inst};
      }
      assert done == deleteList;
    }

    /** The second loop, over the overwritten stores in any order. */
    method ApplyDeletes(b: Block, deleteList: set<Inst>, ghost p: Code, ghost fin: Scan)
      requires ScanOf(p, b, fin) && b in p.instrs && deleteList == fin.deleted && Tidy(fn, stale)
      requires Applied(p, b, fn.instrs, fn.operands, fin.forward, fin.forward.Keys)
      modifies fn`instrs, fn`uses
      ensures fn.instrs == p.instrs[b := Keep(p.instrs[b], fin.forward.Keys + fin.deleted)]
      ensures Tidy(fn, stale)
    {
      hide ScanOf, Live, PlacedOnce, DefUse, OperandsApplied, Keep, StaleAreDead, StaleAreKnown;
      DeletesReady(p, b, fin, fn.instrs, fn.operands);
      KeepTwice(p.instrs[b], fin.forward.Keys, fin.deleted);
      ghost var instrs0 := fn.instrs;
      DeleteInstrs(b, deleteList);
      DeadStays(instrs0, b, deleteList, stale);
    }

    /** Scan and rewriting of one block. */
    method RewriteBlock(b: Block)
      requires Promotable(fn.GetCode()) && b in fn.instrs && Tidy(fn, stale)
      modifies fn`instrs, fn`operands, fn`uses, this`stale
      ensures ForwardedIn(old(fn.GetCode()), fn.GetCode(), b, ScanAll(old(fn.GetCode()), old(fn.instrs)[b]))
      ensures Tidy(fn, stale)
    {
      hide ScanOf, Promotable, Applied, DefUse, ScanAll, OperandsApplied, ForwardedIn, StaleAreDead, PlacedOnce,
           UsesDefined, ScanHolds, ReplacesLoads, DropsLocals;
      ghost var p := fn.GetCode();
      ghost var fin := ScanAll(p, fn.instrs[b]);
      PromotableScan(p, b);
      ScanOfParts(p, b, fin);
      var forwardList, deleteList := ScanBlock(b);
      ApplyForwards(b, forwardList, p, fin);
      AppliedOperands(p, b, fn.instrs, fn.operands, fin.forward, fin.forward.Keys);
      ApplyDeletes(b, deleteList, p, fin);
      AppliedAll(p, fn.GetCode(), b, fin);
    }

    /** What that means for the function. */
    method ForwardBlock(b: Block)
      requires Promotable(fn.GetCode()) && b in fn.instrs && Tidy(fn, stale)
      modifies fn`instrs, fn`operands, fn`uses, this`stale
      ensures Promotable(fn.GetCode()) && Tidy(fn, stale) && fn.instrs.Keys == old(fn.instrs).Keys
      ensures SameBehaviour(old(fn.GetCode()), fn.GetCode())
      ensures Clean(fn.GetCode(), b) && SameStores(old(fn.GetCode()), fn.GetCode())
      ensures SameExposed(old(fn.GetCode()), fn.GetCode())
      ensures forall c :: c in fn.instrs && Clean(old(fn.GetCode()), c) ==> Clean(fn.GetCode(), c)
    {
      hide Promotable, Clean, SameBehaviour, DefUse, ForwardedIn, ScanAll, StaleAreDead, SameStores, SameExposed;
      ghost var p := fn.GetCode();
      ghost var fin := ScanAll(p, p.instrs[b]);
      RewriteBlock(b);
      ForwardedBlock(p, fn.GetCode(), b, fin);
      ForwardedSameStores(p, fn.GetCode(), b, fin);
      ForwardedSameExposed(p, fn.GetCode(), b, fin);
      KeysKept(p, fn.GetCode(), b, fin);
    }

    method InsideBlockForwarding(blocks: seq<Block>)
      requires Promotable(fn.GetCode()) && Tidy(fn, stale)
      requires forall b :: b in blocks <==> b in fn.instrs
      modifies fn`instrs, fn`operands, fn`uses, this`stale
      ensures Promotable(fn.GetCode()) && Tidy(fn, stale) && fn.instrs.Keys == old(fn.instrs).Keys
      ensures SameBehaviour(old(fn.GetCode()), fn.GetCode()) && SameStores(old(fn.GetCode()), fn.GetCode())
      ensures SameExposed(old(fn.GetCode()), fn.GetCode())
      ensures forall b :: b in fn.instrs ==> Clean(fn.GetCode(), b)
    {
      hide Promotable, Clean, SameBehaviour, Tidy, SameStores, SameExposed;
      ghost var p := fn.GetCode();
      SameBehaviourRefl(p);
      SameStoresRefl(p);
      SameExposedRefl(p);
      for i := 0 to |blocks|
        invariant Promotable(fn.GetCode()) && Tidy(fn, stale) && fn.instrs.Keys == p.instrs.Keys
        invariant SameBehaviour(p, fn.GetCode()) && SameStores(p, fn.GetCode()) && SameExposed(p, fn.GetCode())
        invariant forall j :: 0 <= j < i ==> Clean(fn.GetCode(), blocks[j])
      {
        ghost var p1 := fn.GetCode();
        ForwardBlock(blocks[i]);
        SameBehaviourTrans(p, p1, fn.GetCode());
        SameStoresTrans(p, p1, fn.GetCode());
        SameExposedTrans(p, p1, fn.GetCode());
      }
    }

    // ----- genPhi -----

    method NoteBlock(b: Block, globals0: set<Inst>, definedInBlock0: map<Inst, set<Block>>)
      returns (globals: set<Inst>, definedInBlock: map<Inst, set<Block>>)
      requires b in fn.instrs && LocalsAreScalars(fn.GetCode())
      ensures Noted(fn.GetCode(), b, |fn.instrs[b]|, globals0, definedInBlock0, globals, definedInBlock)
    {
      hide Noted, OpOf, LocalsAreScalars, IsLocalVarOp;
      globals, definedInBlock := globals0, definedInBlock0;
      ghost var code := fn.GetCode();
      NotedNone(code, b, globals, definedInBlock);
      for k := 0 to |fn.instrs[b]|
        invariant Noted(code, b, k, globals0, definedInBlock0, globals, definedInBlock)
      {
        var inst := fn.instrs[b][k];
        ghost var globals1, defined1 := globals, definedInBlock;
        LocalOp(code, b, k, inst);
        if IsLocalVarOp(fn.GetCode(), inst) {
          if fn.kind[inst] == Load {
            var lvalue := fn.operands[inst][0].i;
            globals := globals + {lvalue};
          } else {
            var lvalue := fn.operands[inst][1].i;
            if lvalue in definedInBlock {
              definedInBlock := definedInBlock[lvalue := definedInBlock[lvalue] + {b}];
            } else {
              definedInBlock := definedInBlock[lvalue := {b}];
            }
          }
        }
        NotedStep(code, b, k, globals0, definedInBlock0, globals1, defined1, globals, definedInBlock);
      }
    }

    /** The first loop: what is loaded, and which blocks store to what. */
    method CollectVars(blocks: seq<Block>) returns (globals: set<Inst>, definedInBlock: map<Inst, set<Block>>)
      requires WellFormed(fn.GetCode()) && StoreBeforeLoad(fn.GetCode())
      requires forall b :: b in blocks <==> b in fn.instrs
      ensures forall v :: v in globals <==> Loaded(fn.GetCode(), v)
      ensures forall v :: v in globals ==> v in definedInBlock && definedInBlock[v] == Defs(fn.GetCode(), v)
    {
      hide Noted, Collected, UsesDefined, StoreBeforeLoad, BlocksTerminated, CfgReady, LocalsAreScalars;
      globals, definedInBlock := {}, map[];
      CollectedNone(fn.GetCode(), blocks);
      for n := 0 to |blocks|
        invariant Collected(fn.GetCode(), blocks, n, globals, definedInBlock)
      {
        ghost var globals1, defined1 := globals, definedInBlock;
        globals, definedInBlock := NoteBlock(blocks[n], globals, definedInBlock);
        CollectedStep(fn.GetCode(), blocks, n, globals1, defined1, globals, definedInBlock);
      }
      CollectedAll(fn.GetCode(), blocks, globals, definedInBlock);
    }

    /** One new phi. */
    method PlacePhi(b: Block, v: Inst, phis0: map<Block, set<Inst>>, ghost p: Code, ghost front0: map<Block, seq<Inst>>)
      returns (phis: map<Block, set<Inst>>, ghost front: map<Block, seq<Inst>>)
      requires LocalsAreScalars(p) && PhisGenerated(p, fn.GetCode(), front0, phis0) && Tidy(fn, stale)
      requires b in p.instrs && v !in PhisAt(phis0, b)
      modifies fn`instrs, fn`kind, fn`operands, fn`nextInst
      ensures PhisGenerated(p, fn.GetCode(), front, phis) && Tidy(fn, stale)
      ensures phis == phis0[b := PhisAt(phis0, b) + {v}]
    {
      hide PhisGenerated, LocalsAreScalars, DefUse, StaleAreDead, StaleAreKnown;
      ghost var q := fn.GetCode();
      GeneratedBlocks(p, q, front0, phis0);
      if b in phis0 {
        phis := phis0[b := phis0[b] + {v}];
      } else {
        phis := phis0[b := {v}];
        assert {} + {v} == {v};
      }
      var newPhi := fn.AddPhi(b, v, stale);
      StillDeadAdded(q.instrs, q.operands, b, newPhi, stale);
      GeneratedStep(p, q, front0, phis0, b, newPhi, v, fn.GetCode());
      front := front0[b := [newPhi] + front0[b]];
    }

    /** The phis for `v` in the frontier of one block of the queue. */
    method PlaceFrontier(v: Inst, frontier: map<Block, set<Block>>, queue0: seq<Block>, iter: nat,
                         phis0: map<Block, set<Inst>>,
                         ghost defs: set<Block>, ghost p: Code, ghost front0: map<Block, seq<Inst>>)
      returns (queue: seq<Block>, phis: map<Block, set<Inst>>, ghost front: map<Block, seq<Inst>>)
      requires LocalsAreScalars(p) && PhisGenerated(p, fn.GetCode(), front0, phis0) && Tidy(fn, stale)
      requires FrontierTable(p.cfg, frontier) && p.instrs.Keys == p.cfg.succs.Keys
      requires Placing(p.cfg, frontier, defs, PhiBlocks(phis0, v), queue0, iter) && iter < |queue0|
      requires defs <= p.instrs.Keys && PhiBlocks(phis0, v) <= p.instrs.Keys
      modifies fn`instrs, fn`kind, fn`operands, fn`nextInst
      ensures PhisGenerated(p, fn.GetCode(), front, phis) && Tidy(fn, stale)
      ensures Placing(p.cfg, frontier, defs, PhiBlocks(phis, v), queue, iter + 1)
      ensures PhiBlocks(phis0, v) <= PhiBlocks(phis, v) <= p.instrs.Keys && OthersKept(phis0, phis, v)
      ensures PhiBlocks(phis, v) == PhiBlocks(phis0, v) ==> queue == queue0
    {
      hide PhisGenerated, LocalsAreScalars, Tidy, FlowGraph.InFrontier, PhiBlocks, Placing;
      queue, phis, front := queue0, phis0, front0;
      QueueBlock(p.cfg, frontier, defs, PhiBlocks(phis, v), queue, iter);
      var left := frontier[queue[iter]];
      while left != {}
        invariant PhisGenerated(p, fn.GetCode(), front, phis) && Tidy(fn, stale)
        invariant Placing(p.cfg, frontier, defs, PhiBlocks(phis, v), queue, iter)
        invariant iter < |queue| && queue[iter] == queue0[iter] && left <= frontier[queue0[iter]]
        invariant frontier[queue0[iter]] - left <= PhiBlocks(phis, v)
        invariant PhiBlocks(phis0, v) <= PhiBlocks(phis, v) <= p.instrs.Keys && OthersKept(phis0, phis, v)
        invariant PhiBlocks(phis, v) == PhiBlocks(phis0, v) ==> queue == queue0
        decreases left
      {
        var b :| b in left;
        PhiBlocksAt(phis, b, v);
        if b !in phis || v !in phis[b] {
          ghost var phis1 := phis;
          phis, front := PlacePhi(b, v, phis, p, front);
          PhisGrow(phis1, b, v, phis);
          PlacingGrows(p.cfg, frontier, defs, PhiBlocks(phis1, v), queue, iter, b);
          queue := queue + [b];
        }
        left := left - {b};
      }
      PlacingNext(p.cfg, frontier, defs, PhiBlocks(phis, v), queue, iter);
    }

    /** The phis for one local: its iterated dominance frontier, by a work list. */
    method PlacePhis(v: Inst, defs: set<Block>, frontier: map<Block, set<Block>>, phis0: map<Block, set<Inst>>,
                     ghost p: Code, ghost front0: map<Block, seq<Inst>>)
      returns (phis: map<Block, set<Inst>>, ghost front: map<Block, seq<Inst>>)
      requires LocalsAreScalars(p) && PhisGenerated(p, fn.GetCode(), front0, phis0) && Tidy(fn, stale)
      requires FrontierTable(p.cfg, frontier) && p.instrs.Keys == p.cfg.succs.Keys
      requires PhiBlocks(phis0, v) == {} && defs <= p.instrs.Keys
      modifies fn`instrs, fn`kind, fn`operands, fn`nextInst
      ensures PhisGenerated(p, fn.GetCode(), front, phis) && Tidy(fn, stale)
      ensures IsIteratedFrontier(p.cfg, defs, PhiBlocks(phis, v)) && OthersKept(phis0, phis, v)
    {
      hide PhisGenerated, LocalsAreScalars, Tidy, FrontierTable, Placing, IsIteratedFrontier, PhiBlocks;
      phis, front := phis0, front0;
      var queue := ListSet(defs);
      PlacingStarts(p.cfg, frontier, defs, queue);
      var iter := 0;
      PlacingBounds(p.cfg, frontier, defs, PhiBlocks(phis, v), queue, iter);
      while iter < |queue|
        invariant PhisGenerated(p, fn.GetCode(), front, phis) && Tidy(fn, stale)
        invariant Placing(p.cfg, frontier, defs, PhiBlocks(phis, v), queue, iter) && iter <= |queue|
        invariant PhiBlocks(phis, v) <= p.instrs.Keys && OthersKept(phis0, phis, v)
        decreases p.instrs.Keys - PhiBlocks(phis, v), |queue| - iter
      {
        ghost var phis1 := phis;
        queue, phis, front := PlaceFrontier(v, frontier, queue, iter, phis, defs, p, front);
        iter := iter + 1;
        PlacingBounds(p.cfg, frontier, defs, PhiBlocks(phis, v), queue, iter);
      }
      PlacingEnds(p.cfg, frontier, defs, PhiBlocks(phis, v), queue);
    }

    /** Every loaded local gets a phi in exactly the blocks of the iterated
        dominance frontier of its stores, and no other local gets any. */
    method GenPhi(blocks: seq<Block>, frontier: map<Block, set<Block>>)
      returns (phis: map<Block, set<Inst>>, ghost front: map<Block, seq<Inst>>)
      requires WellFormed(fn.GetCode()) && StoreBeforeLoad(fn.GetCode()) && Tidy(fn, stale)
      requires forall b :: b in blocks <==> b in fn.instrs
      requires FrontierTable(fn.cfg, frontier)
      modifies fn`instrs, fn`kind, fn`operands, fn`nextInst
      ensures PhisGenerated(old(fn.GetCode()), fn.GetCode(), front, phis) && Tidy(fn, stale)
      ensures forall v :: Loaded(old(fn.GetCode()), v) ==>
                IsIteratedFrontier(fn.cfg, Defs(old(fn.GetCode()), v), PhiBlocks(phis, v))
      ensures forall v :: !Loaded(old(fn.GetCode()), v) ==> PhiBlocks(phis, v) == {}
    {
      hide PhisGenerated, WellFormed, StoreBeforeLoad, Tidy, FrontierTable, IsIteratedFrontier, PhiBlocks, Defs, Loaded,
           PhisPlaced;
      ghost var p := fn.GetCode();
      CodeParts(p);
      var globals, definedInBlock := CollectVars(blocks);
      phis := map[];
      front := map b | b in p.instrs :: [];
      NothingGenerated(p);
      NothingPlaced(p);
      var left := globals;
      ghost var done: set<Inst> := {};
      while left != {}
        invariant left <= globals && done == globals - left
        invariant PhisGenerated(p, fn.GetCode(), front, phis) && Tidy(fn, stale)
        invariant PhisPlaced(p, phis, done)
        decreases left
      {
        var v :| v in left;
        ghost var phis1 := phis;
        PlacedParts(p, phis, done, v);
        phis, front := PlacePhis(v, definedInBlock[v], frontier, phis, p, front);
        PhisPlacedStep(p, phis1, done, v, phis);
        left := left - {v};
        done := done + {v};
      }
      assert done == globals;
      PlacedEnds(p, phis, globals);
    }

    // ----- the renaming -----

    method CountBlock(b: Block) returns (defs: seq<Inst>)
      requires LocalsAreScalars(fn.GetCode()) && b in fn.instrs
      ensures defs == DefsUpTo(fn.GetCode(), fn.instrs[b], |fn.instrs[b]|)
    {
      hide LocalsAreScalars, OpOf, DefsUpTo, IsLocalVarOp;
      ghost var p := fn.GetCode();
      defs := [];
      DefsNone(p, fn.instrs[b]);
      for k := 0 to |fn.instrs[b]|
        invariant defs == DefsUpTo(p, fn.instrs[b], k)
      {
        var inst := fn.instrs[b][k];
        LocalOp(p, b, k, inst);
        PhiKind(p, b, k, inst);
        DefsNext(p, fn.instrs[b], k);
        if fn.kind[inst].Phi? {
          defs := defs + [fn.kind[inst].lval];
        } else if fn.kind[inst] == Store {
          StoreIsLocal(p, b, k, inst);
          if IsLocalVarOp(fn.GetCode(), inst) {
            defs := defs + [fn.operands[inst][1].i];
          }
        } else {
          NotAStore(p, b, k, inst);
        }
      }
    }

    /** What every block gives a new value. */
    method ValueDefineCounting(blocks: seq<Block>)
      requires LocalsAreScalars(fn.GetCode()) && forall b :: b in blocks <==> b in fn.instrs
      modifies this`defineVar
      ensures DefinesCounted(fn.GetCode(), defineVar)
    {
      hide LocalsAreScalars, DefsUpTo;
      defineVar := map[];
      ghost var p := fn.GetCode();
      for n := 0 to |blocks|
        invariant forall j :: 0 <= j < n ==> CountedAt(p, defineVar, blocks[j])
      {
        var defs := CountBlock(blocks[n]);
        defineVar := defineVar[blocks[n] := defs];
      }
    }

    /** In the visit of `b`, before its instruction `k`. */
    ghost predicate Visiting(p: Code, t: Tree, done: set<Block>, b: Block, k: nat)
      reads this, fn
    {
      && VisitState(p, t, names, done, finished, b, k, fn.GetCode(), valueStatus, stale)
      && fn.Exact(stale) && fn.HasSupply()
    }

    method Push(v: Inst, x: Value)
      modifies this`valueStatus
      ensures valueStatus == old(valueStatus)[v := StackOf(old(valueStatus), v) + [x]]
    {
      if v in valueStatus {
        valueStatus := valueStatus[v := valueStatus[v] + [x]];
      } else {
        valueStatus := valueStatus[v := [x]];
        assert [] + [x] == [x];
      }
    }

    /** The phis at the front of the block are pushed. */
    method PushPhis(bb: Block, ghost p: Code) returns (ghost m: nat)
      requires PhisInOrder(p) && LocalsAreScalars(p) && bb in p.instrs && bb in fn.instrs
               && fn.instrs[bb] == p.instrs[bb] && fn.kind == p.kind
      modifies this`valueStatus
      ensures m <= |p.instrs[bb]| && Grown(old(valueStatus), valueStatus, DefsUpTo(p, p.instrs[bb], m))
      ensures forall j :: 0 <= j < |p.instrs[bb]| ==> (OpOf(p, p.instrs[bb][j]).PhiOp? <==> j < m)
      ensures PhisPushed(p, bb, old(TopsOf(valueStatus)), TopsOf(valueStatus))
    {
      hide OpOf, LocalsAreScalars, PhisInOrder, PhisPushed, Grown, PhisPushedUpTo, DefsUpTo, TopsOf;
      ghost var arriving := TopsOf(valueStatus);
      var list := fn.instrs[bb];
      var k := 0;
      NoPhisPushed(p, bb, arriving);
      NothingGrown(valueStatus);
      DefsNone(p, list);
      if list != [] { PhiKind(p, bb, 0, list[0]); }
      while k < |list| && fn.kind[list[k]].Phi?
        invariant k <= |list| && Grown(old(valueStatus), valueStatus, DefsUpTo(p, list, k))
        invariant k < |list| ==> list[k] in fn.kind
        invariant forall j :: 0 <= j < k ==> OpOf(p, list[j]).PhiOp?
        invariant PhisPushedUpTo(p, bb, k, arriving, TopsOf(valueStatus))
      {
        var inst := list[k];
        PhiKind(p, bb, k, inst);
        var lvalue := fn.kind[inst].lval;
        PhiPushed(p, bb, k, inst, arriving, TopsOf(valueStatus));
        PushTops(valueStatus, lvalue, Res(inst));
        GrownPush(old(valueStatus), valueStatus, DefsUpTo(p, list, k), lvalue, Res(inst));
        DefsNext(p, list, k);
        Push(lvalue, Res(inst));
        k := k + 1;
        if k < |list| { PhiKind(p, bb, k, list[k]); }
      }
      if k < |list| { PhiKind(p, bb, k, list[k]); }
      PhisEnd(p, bb, k, arriving, TopsOf(valueStatus));
      m := k;
    }

    /** A load: every use of it becomes the value on top of its local's stack. */
    method ReplaceLoad(bb: Block, inst: Inst, ghost k: nat, ghost p: Code, ghost t: Tree, ghost done: set<Block>,
                       ghost path: seq<Block>)
      requires VisitReady(p, t, done, bb, path) && Visiting(p, t, done, bb, k)
      requires IsAt(p, bb, k, inst) && OpOf(p, inst).ReadVar? && StoredArrives(p, path, TopsAt(names, bb))
      requires inst in fn.operands && |fn.operands[inst]| == 1 && fn.operands[inst][0] == Res(OpOf(p, inst).v)
      modifies fn`operands, fn`uses, this`stale, this`names
      ensures Visiting(p, t, done, bb, k + 1) && Extends(p, old(names), names, done) && names.tops == old(names).tops
    {
      hide VisitReady, OpOf, VisitState, DefUse, Extends, ReplacedAll, StoredArrives, TopsAt, IsAt;
      var lvalue := fn.operands[inst][0].i;
      LoadVisit(p, t, names, done, finished, bb, k, fn.GetCode(), valueStatus, stale, inst, path);
      var newValue := valueStatus[lvalue][|valueStatus[lvalue]| - 1];
      names := names.(rho := names.rho[inst := newValue]);
      fn.ReplaceAllUseWith(Res(inst), newValue, stale);
      stale := stale + {Res(inst)};
    }

    /** A store: its value is pushed. */
    method PushStore(bb: Block, inst: Inst, ghost k: nat, ghost p: Code, ghost t: Tree, ghost done: set<Block>,
                     ghost path: seq<Block>)
      requires VisitReady(p, t, done, bb, path) && Visiting(p, t, done, bb, k)
      requires IsAt(p, bb, k, inst) && OpOf(p, inst).WriteVar?
      requires inst in fn.operands && |fn.operands[inst]| == 2 && fn.operands[inst][1] == Res(OpOf(p, inst).v)
      requires fn.operands[inst][0] == Subst(names.rho, OpOf(p, inst).rval)
      modifies this`valueStatus, this`names
      ensures Visiting(p, t, done, bb, k + 1) && Extends(p, old(names), names, done) && names.tops == old(names).tops
      ensures valueStatus == old(valueStatus)[OpOf(p, inst).v :=
                StackOf(old(valueStatus), OpOf(p, inst).v) + [Subst(old(names).rho, OpOf(p, inst).rval)]]
    {
      hide VisitReady, OpOf, VisitState, DefUse, Extends, TopsAt, Subst, IsAt, StackOf;
      var lvalue, rvalue := fn.operands[inst][1].i, fn.operands[inst][0];
      StoreVisit(p, t, names, done, finished, bb, k, fn.GetCode(), valueStatus, stale, inst, path);
      names := names.(pushed := names.pushed[inst := rvalue]);
      Push(lvalue, rvalue);
    }

    /** One instruction of a block; tells whether it is a load or store of a local. */
    method RenameInstr(bb: Block, inst: Inst, ghost k: nat, ghost m: nat, ghost status0: Status,
                       ghost p: Code, ghost t: Tree, ghost done: set<Block>, ghost path: seq<Block>)
      returns (dead: bool)
      requires VisitReady(p, t, done, bb, path) && Visiting(p, t, done, bb, k)
               && StoredArrives(p, path, TopsAt(names, bb))
      requires IsAt(p, bb, k, inst) && !OpOf(p, inst).PhiOp?
      requires Grown(status0, valueStatus, DefsUpTo(p, p.instrs[bb], k))
      modifies fn`operands, fn`uses, this`stale, this`names, this`valueStatus
      ensures Visiting(p, t, done, bb, k + 1) && Extends(p, old(names), names, done) && names.tops == old(names).tops
      ensures Grown(status0, valueStatus, DefsUpTo(p, p.instrs[bb], k + 1))
      ensures dead <==> IsVarOp(OpOf(p, inst))
    {
      hide VisitReady, OpOf, VisitState, DefUse, Extends, TopsAt, Subst, IsLocalVarOp, Grown, DefsUpTo, StackOf,
           StoredArrives;
      DefsNext(p, p.instrs[bb], k);
      ReadsVisit(p, t, names, done, finished, bb, k, fn.GetCode(), valueStatus, stale, inst, path);
      dead := IsLocalVarOp(fn.GetCode(), inst);
      if dead {
        if fn.kind[inst] == Load {
          ReplaceLoad(bb, inst, k, p, t, done, path);
        } else {
          GrownPush(status0, valueStatus, DefsUpTo(p, p.instrs[bb], k), OpOf(p, inst).v,
                    Subst(names.rho, OpOf(p, inst).rval));
          PushStore(bb, inst, k, p, t, done, path);
        }
      } else {
        SkipVisit(p, t, names, done, finished, bb, k, fn.GetCode(), valueStatus, stale, inst, path);
        ExtendsRefl(p, names, done);
      }
    }

    /** The loop over the loads and stores of a block. */
    method RenameInstrs(bb: Block, ghost m: nat, ghost status0: Status, ghost p: Code, ghost t: Tree,
                        ghost done: set<Block>, ghost path: seq<Block>)
      returns (deleteList: set<Inst>)
      requires VisitReady(p, t, done, bb, path) && Visiting(p, t, done, bb, 0)
               && StoredArrives(p, path, TopsAt(names, bb))
      requires bb in p.instrs && m <= |p.instrs[bb]| && Grown(status0, valueStatus, DefsUpTo(p, p.instrs[bb], m))
      requires forall j :: 0 <= j < |p.instrs[bb]| ==> (OpOf(p, p.instrs[bb][j]).PhiOp? <==> j < m)
      modifies fn`operands, fn`uses, this`stale, this`names, this`valueStatus
      ensures Visiting(p, t, done, bb, |p.instrs[bb]|) && Extends(p, old(names), names, done)
              && names.tops == old(names).tops
      ensures Grown(status0, valueStatus, DefsUpTo(p, p.instrs[bb], |p.instrs[bb]|))
      ensures deleteList == VarOps(p, bb)
    {
      hide VisitReady, OpOf, Extends, Grown, StoredArrives, DefsUpTo, VisitState, DefUse, VarOpsUpTo, VarOps;
      deleteList := {};
      ExtendsRefl(p, names, done);
      VisitList(p, t, names, done, finished, bb, 0, fn.GetCode(), valueStatus, stale, path);
      var list := fn.instrs[bb];
      ghost var n := names;
      VarOpsNone(p, list);
      for k := 0 to |list|
        invariant Visiting(p, t, done, bb, k) && Extends(p, n, names, done) && names.tops == n.tops
        invariant Grown(status0, valueStatus, DefsUpTo(p, list, if k < m then m else k))
        invariant deleteList == VarOpsUpTo(p, list, k)
      {
        var inst := list[k];
        ghost var n1 := names;
        PhiKind(p, bb, k, inst);
        VarOpsNext(p, list, k);
        if fn.kind[inst].Phi? {
          SkipVisit(p, t, names, done, finished, bb, k, fn.GetCode(), valueStatus, stale, inst, path);
        } else {
          var dead := RenameInstr(bb, inst, k, m, status0, p, t, done, path);
          if dead {
            deleteList := deleteList + {inst};
          }
          ExtendsTrans(p, n, n1, names, done, done);
        }
      }
      VarOpsAll(p, bb);
    }

    /** Between two visits, or while values are sent. */
    ghost predicate Walking(p: Code, t: Tree, sent: map<Block, seq<Block>>)
      reads this, fn
    {
      && WalkState(p, t, names, visited, finished, sent, fn.GetCode(), stale)
      && fn.Exact(stale) && fn.HasSupply()
    }

    /** The value of every local that has one goes to its phi in the successor `d`. */
    method SendPairs(bb: Block, d: Block, ghost p: Code, ghost t: Tree, ghost sent: map<Block, seq<Block>>)
      requires WellFormed(p) && Walking(p, t, sent) && d in p.instrs && TopsOf(valueStatus) == Out(p, names, bb)
      modifies fn`operands, fn`uses
      ensures Walking(p, t, SentOne(sent, bb, d))
    {
      hide WellFormed, OpOf, WalkState, SendState, DefUse, TopsOf, Out, SentOne, Served, Live, IsAt;
      SendStarts(p, t, names, visited, finished, sent, bb, d, fn.GetCode(), stale);
      var list := fn.instrs[d];
      for j := 0 to |list|
        invariant SendState(p, t, names, visited, finished, sent, bb, d, Served(list, j), fn.GetCode(), stale)
        invariant fn.Exact(stale) && fn.HasSupply()
      {
        var inst := list[j];
        ghost var k := SendReads(p, t, names, visited, finished, sent, bb, d, fn.GetCode(), stale, j);
        ServedNext(list, j);
        if fn.kind[inst].Phi? {
          var lvalue := fn.kind[inst].lval;
          SendPhi(p, t, names, visited, finished, sent, bb, d, Served(list, j), fn.GetCode(), stale, valueStatus, k,
                  inst);
          if lvalue in valueStatus {
            if |valueStatus[lvalue]| > 0 {
              var newValue := valueStatus[lvalue][|valueStatus[lvalue]| - 1];
              fn.AddPhiPair(inst, newValue, bb, stale);
            }
          }
        } else {
          SendOther(p, t, names, visited, finished, sent, bb, d, Served(list, j), fn.GetCode(), stale, inst);
        }
      }
      SendEnds(p, t, names, visited, finished, sent, bb, d, fn.GetCode(), stale);
    }

    /** The loop over the successors that fills their phis. */
    method SendAllPairs(bb: Block, ghost p: Code, ghost t: Tree, ghost done: set<Block>)
      requires WellFormed(p) && bb in p.cfg.succs && fn.cfg == p.cfg
      requires Walking(p, t, SentAll(p, done)[bb := []]) && TopsOf(valueStatus) == Out(p, names, bb)
      modifies fn`operands, fn`uses
      ensures Walking(p, t, SentAll(p, done + {bb}))
    {
      hide WellFormed, WalkState, DefUse, TopsOf, Out, SentAll, SentOne;
      var succs := fn.cfg.succs[bb];
      ghost var sent := SentAll(p, done);
      for j := 0 to |succs|
        invariant Walking(p, t, sent[bb := succs[..j]])
      {
        CodeParts(p);
        SuccIsBlock(p, bb, succs[j]);
        SentOneNext(sent, bb, succs, j);
        SendPairs(bb, succs[j], p, t, sent[bb := succs[..j]]);
      }
      assert succs[..|succs|] == succs;
      SentAllAdd(p, done, bb);
    }

    /** One value is popped for each that the block pushed. */
    method PopDefs(bb: Block, ghost status0: Status)
      requires bb in defineVar && Grown(status0, valueStatus, defineVar[bb])
      modifies this`valueStatus
      ensures SameStacks(status0, valueStatus)
    {
      hide Grown, SameStacks;
      var defs := defineVar[bb];
      for j := 0 to |defs|
        invariant Grown(status0, valueStatus, defs[j..])
      {
        GrownPop(status0, valueStatus, defs[j..]);
        assert defs[j..][1..] == defs[j + 1..];
        var v := defs[j];
        if v in valueStatus && |valueStatus[v]| > 0 {
          valueStatus := valueStatus[v := valueStatus[v][..|valueStatus[v]| - 1]];
        }
      }
      assert defs[|defs|..] == [];
      GrownSame(status0, valueStatus);
    }

    /** The loads and stores of the block are deleted. */
    method DeleteOps(bb: Block, deleteList: set<Inst>, ghost p: Code, ghost t: Tree)
      requires WellFormed(p) && Walking(p, t, SentAll(p, visited)) && bb in visited && bb in p.instrs && bb !in finished
      requires deleteList == VarOps(p, bb)
      modifies fn`instrs, fn`uses, this`finished
      ensures Walking(p, t, SentAll(p, visited)) && finished == old(finished) + {bb}
    {
      hide WellFormed, WalkState, DefUse, SentAll, VarOps, PlacedOnce, Keep;
      ghost var q := fn.GetCode();
      DeletesStart(p, t, names, visited, finished, q, stale, bb);
      DeleteInstrs(bb, deleteList);
      Finishes(p, t, names, visited, finished, q, stale, bb, fn.GetCode());
      finished := finished + {bb};
    }

    /** From a block on to the successors that have not been visited. */
    method VisitSuccs(bb: Block, ghost p: Code, ghost t: Tree, ghost done: set<Block>, ghost path: seq<Block>)
      requires VisitReady(p, t, done, bb, path) && done + {bb} <= visited && bb in p.cfg.succs
               && visited <= p.instrs.Keys
      requires Walking(p, t, SentAll(p, visited)) && DefinesCounted(p, defineVar) && fn.cfg == p.cfg
      requires TopsOf(valueStatus) == Out(p, names, bb) && StoredArrives(p, path, TopsAt(names, bb))
      modifies fn`instrs, fn`operands, fn`uses, this`valueStatus, this`visited, this`stale, this`names, this`finished
      ensures Walked(p, t, old(visited), old(finished), old(names), old(valueStatus))
      ensures forall s :: s in p.cfg.succs[bb] ==> s in visited
      decreases p.instrs.Keys - visited, 1
    {
      hide VisitReady, WalkState, DefUse, SentAll, DefinesCounted, TopsOf, Out, StoredArrives, TopsAt, Extends,
           SameStacks, SuccsIn;
      var succs := fn.cfg.succs[bb];
      ghost var visited0, finished0, names0, status0 := visited, finished, names, valueStatus;
      WalkedNothing(p, t);
      WalkTops(p, t, names, visited, finished, SentAll(p, visited), fn.GetCode(), stale);
      for j := 0 to |succs|
        invariant Walked(p, t, visited0, finished0, names0, status0)
        invariant forall i :: 0 <= i < j ==> succs[i] in visited
      {
        var succbb := succs[j];
        if succbb !in visited {
          ghost var visited1, finished1, names1, status1 := visited, finished, names, valueStatus;
          SuccStarts(p, t, visited0, names0, status0, names, visited, finished, valueStatus, fn.GetCode(), stale, done,
                     bb, path, succbb);
          ValueForwarding(succbb, p, t, path + [succbb]);
          WalkedOn(p, visited0, finished0, names0, status0, visited1, finished1, names1, status1, visited, finished,
                   names, valueStatus);
        }
      }
    }

    ghost predicate Walked(p: Code, t: Tree, visited0: set<Block>, finished0: set<Block>, names0: Names,
                           status0: Status)
      reads this, fn
    {
      && Walking(p, t, SentAll(p, visited))
      && WalkedFrom(p, visited0, finished0, names0, status0, visited, finished, names, valueStatus)
    }

    lemma WalkedNothing(p: Code, t: Tree)
      requires Walking(p, t, SentAll(p, visited)) && visited <= p.instrs.Keys
      ensures Walked(p, t, visited, finished, names, valueStatus)
    {
      hide WalkState, DefUse, Extends;
      ExtendsRefl(p, names, visited);
    }

    /** The renaming of `bb` and of all blocks it reaches that have not been visited. */
    method ValueForwarding(bb: Block, ghost p: Code, ghost t: Tree, ghost path: seq<Block>)
      requires VisitReady(p, t, visited, bb, path) && bb !in visited && bb in p.instrs && visited <= p.instrs.Keys
      requires Walking(p, t, SentAll(p, visited)) && DefinesCounted(p, defineVar) && fn.cfg == p.cfg
      requires TopsOf(valueStatus) == Arriving(p, names, path) && StoredArrives(p, path, TopsOf(valueStatus))
      modifies fn`instrs, fn`operands, fn`uses, this`valueStatus, this`visited, this`stale, this`names, this`finished
      ensures Walked(p, t, old(visited), old(finished), old(names), old(valueStatus)) && bb in visited
      decreases p.instrs.Keys - visited, 0
    {
      hide VisitReady, WalkState, VisitState, DefUse, SentAll, TopsOf, Out, StoredArrives, TopsAt, Extends, SameStacks,
           SuccsIn, Arriving, PhisPushed, Grown, OpOf, DefsUpTo, WellFormed, PhisInOrder, LocalsAreScalars, VarOps,
           WalkedFrom;
      ghost var done, finished0, names0, status0 := visited, finished, names, valueStatus;
      VisitFacts(p, t, done, bb, path, names, finished, fn.GetCode(), stale);
      visited := visited + {bb};
      ghost var m := PushPhis(bb, p);
      VisitStarts(p, t, names0, done, finished, bb, fn.GetCode(), stale, path, TopsOf(status0), valueStatus);
      names := names0.(tops := names0.tops[bb := TopsOf(valueStatus)]);
      ghost var names1 := names;
      TopsAtNew(names0, bb, TopsOf(valueStatus));
      var deleteList := RenameInstrs(bb, m, status0, p, t, done, path);
      VisitEnds(p, t, names, done, finished, bb, fn.GetCode(), valueStatus, stale, path);
      SendAllPairs(bb, p, t, done);
      ghost var names2, status2 := names, valueStatus;
      TopsAtSame(names1, names2, bb);
      VisitSuccs(bb, p, t, done, path);
      ghost var status3 := valueStatus;
      WalkedStacks(p, visited, finished, names, valueStatus, done + {bb}, finished0, names2, status2);
      GrownThenSame(status0, status2, status3, DefsUpTo(p, p.instrs[bb], |p.instrs[bb]|));
      CountedHere(p, defineVar, bb);
      PopDefs(bb, status0);
      ghost var finished4 := finished;
      DeleteOps(bb, deleteList, p, t);
      ExtendsTrans(p, names0, names1, names2, done, done);
      WalkedBlock(p, done, finished0, names0, status0, bb, names2, status2, visited, finished4, names, status3,
                  finished, valueStatus);
    }

    /** The renaming from the entry: all blocks are visited, the stacks end as they
        began, and the function is renamed. */
    method RenameLocals(ghost p: Code, ghost t: Tree)
      requires p == fn.GetCode() && PhiReady(p) && PhisEmpty(p) && Exact(p.cfg, t) && Tidy(fn, stale)
      requires valueStatus == map[] && visited == {} && finished == {} && names == Names(map[], map[], map[])
      requires DefinesCounted(p, defineVar)
      modifies fn`instrs, fn`operands, fn`uses, this`valueStatus, this`visited, this`stale, this`names, this`finished
      ensures RenamedCode(p, fn.GetCode(), t, names) && PhisLive(fn.GetCode()) && Tidy(fn, stale)
      ensures visited == p.instrs.Keys && forall v :: StackOf(valueStatus, v) == []
    {
      hide PhiReady, PhisEmpty, Exact, DefUse, StaleAreDead, StaleAreKnown, DefinesCounted, WalkState, VisitReady,
           StoredArrives, WalkedFrom, RenamedCode, PhisLive, SentAll;
      WalkStarts(p, t, stale);
      NothingArrives(p, names, fn.cfg.entry);
      ghost var status0 := valueStatus;
      assert TopsOf(valueStatus) == map[];
      ValueForwarding(fn.cfg.entry, p, t, [fn.cfg.entry]);
      WalkEnds(p, t, names, visited, finished, fn.GetCode(), stale, Names(map[], map[], map[]), status0, valueStatus);
      assert forall v :: StackOf(status0, v) == [];
    }

    // ----- removeAlloc -----

    method FindAllocas(b: Block) returns (deleteList: set<Inst>)
      requires b in fn.instrs && forall i :: i in fn.instrs[b] ==> i in fn.kind
      ensures deleteList == ScalarAllocas(fn.GetCode(), fn.instrs[b])
    {
      hide IsScalarAlloca;
      var list := fn.instrs[b];
      deleteList := {};
      for k := 0 to |list|
        invariant deleteList == ScalarAllocas(fn.GetCode(), list[..k])
      {
        var inst := list[k];
        AllocasNext(fn.GetCode(), list, k);
        KindTells(fn.GetCode(), inst);
        if fn.kind[inst] == Alloca(true) {
          deleteList := deleteList + {inst};
        }
      }
      assert list[..|list|] == list;
    }

    method RemoveBlockAllocas(b: Block)
      requires b in fn.instrs && PlacedOnce(fn.instrs) && Tidy(fn, stale)
      requires forall i :: i in fn.instrs[b] ==> i in fn.kind && i in fn.operands
      modifies fn`instrs, fn`uses
      ensures fn.GetCode() == WithoutAllocas(old(fn.GetCode()), b)
      ensures Tidy(fn, stale)
    {
      hide DefUse, StaleAreDead, StaleAreKnown, PlacedOnce, IsScalarAlloca, Keep;
      ghost var instrs0 := fn.instrs;
      var deleteList := FindAllocas(b);
      AllocasInList(fn.GetCode(), instrs0[b]);
      DeleteInstrs(b, deleteList);
      DeadStays(instrs0, b, deleteList, stale);
    }

    method RemoveAlloc(blocks: seq<Block>)
      requires WellFormed(fn.GetCode()) && Tidy(fn, stale)
      requires NoDuplicates(blocks) && forall b :: b in blocks <==> b in fn.instrs
      modifies fn`instrs, fn`uses
      ensures AllocasRemoved(old(fn.GetCode()), fn.GetCode(), old(fn.instrs).Keys) && Tidy(fn, stale)
    {
      hide WellFormed, Tidy, AllocasRemoved, PlacedOnce, LocalsAreScalars, FirstBlocks, WithoutAllocas;
      ghost var p := fn.GetCode();
      CodeParts(p);
      NothingRemoved(p);
      FirstBlocksEnds(blocks, p.instrs.Keys);
      for n := 0 to |blocks|
        invariant AllocasRemoved(p, fn.GetCode(), FirstBlocks(blocks, n)) && Tidy(fn, stale)
      {
        ghost var q := fn.GetCode();
        ghost var done := FirstBlocks(blocks, n);
        FirstBlocksNext(blocks, n);
        RemovedBlocks(p, q, done);
        RemovedPlacedOnce(p, q, done);
        RemovedKnown(p, q, done, blocks[n]);
        RemoveBlockAllocas(blocks[n]);
        RemovedStep(p, q, done, blocks[n], fn.GetCode());
      }
    }

    // ----- the pass -----

    /** Promotion of one function: it behaves as before, no load, store or `alloca`
        of a scalar local is left, a local has a phi, one, in the blocks on the iterated
        frontier of its stores if some load of it is not answered by a store of its own
        block, and nowhere else, phis get their operands from where these can be
        used, one pair for each edge to which a store of their local leads and no
        others, no slot refers to a deleted instruction, and the use list of whatever
        a slot holds names exactly the slots that hold it. */
    method Execute(blocks: seq<Block>, frontier: map<Block, set<Block>>, ghost t: Tree)
      requires Promotable(fn.GetCode()) && Tidy(fn, stale)
      requires NoDuplicates(blocks) && forall b :: b in blocks <==> b in fn.instrs
      requires FrontierTable(fn.cfg, frontier) && Exact(fn.cfg, t)
      requires valueStatus == map[] && visited == {} && finished == {} && names == Names(map[], map[], map[])
      modifies this, fn
      ensures SameBehaviour(old(fn.GetCode()), fn.GetCode())
      ensures Promoted(fn.GetCode()) && PhisFed(old(fn.GetCode()), fn.GetCode()) && Tidy(fn, stale)
      ensures PhisAsNeeded(old(fn.GetCode()), fn.GetCode())
      ensures forall u, k, v :: Holds(fn.instrs, fn.operands, u, k, v) ==>
                ListedExactly(fn.instrs, fn.operands, UsesOf(fn.uses, v), v)
      ensures visited == old(fn.instrs).Keys && forall v :: StackOf(valueStatus, v) == []
    {
      hide Promotable, Tidy, FrontierTable, Exact, SameBehaviour, Promoted, Clean, WellFormed, StoreBeforeLoad, NoPhis,
           PhisGenerated, Loaded, IsIteratedFrontier, Defs, PhiBlocks, PhiReady, RenamedCode, PhisLive, PhisEmpty,
           DefinesCounted, PhisInserted, AllocasRemoved, NoVarOps, PhisDefined, LocalsAreScalars, Holds, ListedExactly,
           StackOf, SameStores, PhisFed, PhisLeast, SameExposed, PhisAsNeeded, SamePhis;
      ghost var p0 := fn.GetCode();
      InsideBlockForwarding(blocks);
      ghost var p1 := fn.GetCode();
      PromotableParts(p1);
      ghost var front;
      var phis;
      phis, front := GenPhi(blocks, frontier);
      ghost var p2 := fn.GetCode();
      InsertedOf(p1, p2, front, phis);
      InsertedIsReady(p1, p2, front, phis);
      InsertedEmpty(p1, p2, front, phis);
      InsertedLeast(p1, p2, front, phis);
      InsertedSameStores(p1, p2, front, phis);
      InsertedAsNeeded(p0, p1, p2, front, phis);
      InsertedParts(p1, p2, front, phis);
      ReadyParts(p2);
      ValueDefineCounting(blocks);
      RenameLocals(p2, t);
      ghost var p3 := fn.GetCode();
      RenamedResult(p2, p3, t, names);
      RenamedFed(p2, p3, t, names);
      RenamedSamePhis(p2, p3, t, names);
      StillAsNeeded(p0, p2, p3);
      RemoveAlloc(blocks);
      SameStoresTrans(p0, p1, p2);
      SameStoresFed(p0, p2, p3);
      RemovedFed(p0, p3, fn.GetCode());
      RemovedSamePhis(p3, fn.GetCode());
      StillAsNeeded(p0, p3, fn.GetCode());
      RemovalPromotes(p3, fn.GetCode());
      SameBehaviourTrans(p0, p1, p2);
      SameBehaviourTrans(p0, p2, p3);
      SameBehaviourTrans(p0, p3, fn.GetCode());
      HeldAreListed(fn, stale);
    }

  }

  method ListSet<T(==)>(s: set<T>) returns (r: seq<T>)
    ensures forall x :: x in r <==> x in s
  {
    r := [];
    var left := s;
    while left != {}
      invariant left <= s
      invariant forall x :: x in r <==> x in s && x !in left
      decreases left
    {
      var x :| x in left;
      r := r + [x];
      left := left - {x};
    }
  }
}
