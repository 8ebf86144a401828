/** A whole function: its graph is what the passes need, and its run is the source's. */
module LoweredFunction {
  import opened FlowGraphs
  import opened Statements
  import opened BlockBuilder
  import opened BuilderInvariants
  import opened LoweringShape
  import opened LoweringStmts
  import opened LoweringRuns
  import opened LoweringControl
  import Semantics
  import RDominateTrees

  // ----- the start -----

  lemma TwoBlocksIs(isVoid: bool)
    ensures var b := TwoBlocks(isVoid); var e := if isVoid then [] else [Local(0)];
            b == Builder([0, 1], map[0 := e, 1 := []], map[0 := [], 1 := []], map[0 := [], 1 := []], 2, 0,
                         [], [], [0], 0, 1)
  {
    var b := TwoBlocks(isVoid);
    assert [] + [Local(0)] == [Local(0)];
    assert b.body == map[0 := if isVoid then [] else [Local(0)], 1 := []];
    assert b.succs == map[0 := [], 1 := []] && b.preds == map[0 := [], 1 := []];
    assert b.list == [0, 1];
  }

  lemma TwoBlocksBalanced(g: FlowGraph)
    requires g.succs == map[0 := [], 1 := []] && g.preds == map[0 := [], 1 := []]
    ensures Balanced(g)
  {
  }

  lemma TwoBlocksGraph(g: FlowGraph)
    requires g == FlowGraph(0, map[0 := [], 1 := []], map[0 := [], 1 := []])
    ensures GraphOk(g)
  {
    hide Balanced;
    TwoBlocksBalanced(g);
  }

  lemma TwoBlocksList()
    ensures ListOk([0, 1], {0, 1})
  {
  }

  lemma TwoBlocksShape(b: Builder, e: seq<Item>)
    requires (e == [] || e == [Local(0)])
    requires b == Builder([0, 1], map[0 := e, 1 := []], map[0 := [], 1 := []], map[0 := [], 1 := []], 2, 0,
                          [], [], [0], 0, 1)
    ensures Shape(b) && OpenSet(b.body) == {0, 1} && b.succs.Keys == {0, 1} && b.body.Keys == {0, 1}
  {
    hide GraphOk, ListOk;
    TwoBlocksGraph(GraphOf(b));
    TwoBlocksList();
    assert b.body.Keys == {0, 1};
    assert BodiesOk(b.body, b.succs);
    assert OpenSet(b.body) == {0, 1};
  }

  lemma TwoBlocksSane(b: Builder)
    requires Shape(b) && OpenSet(b.body) == {0, 1} && b.succs.Keys == {0, 1} && b.body.Keys == {0, 1} && b.entry == 0
             && b.ret == 1 && b.insert == 0
    ensures Sane(b, {1}, {1})
  {
    hide Shape, OpenSet, HasPath;
    PathToSelf(GraphOf(b), 0);
    PathToSelf(GraphOf(b), 1);
    assert 0 in OpenSet(b.body) && 1 in OpenSet(b.body);
    assert ReachesOpen(GraphOf(b), OpenSet(b.body), 0) && ReachesOpen(GraphOf(b), OpenSet(b.body), 1);
  }

  lemma TwoBlocksReady(isVoid: bool)
    ensures StmtReady(TwoBlocks(isVoid), {1}, {1}) && Strip(At(TwoBlocks(isVoid).body, 0)) == []
            && Strip(At(TwoBlocks(isVoid).body, 1)) == []
  {
    hide Shape, Sane, OpenSet, TwoBlocks;
    TwoBlocksIs(isVoid);
    var b := TwoBlocks(isVoid);
    TwoBlocksShape(b, b.body[0]);
    TwoBlocksSane(b);
    assert Strip([Local(0)]) == [];
  }

  lemma {:induction false} ParamsDone(b: Builder, n: nat, reserved: set<Block>, pending: set<Block>)
    requires StmtReady(b, reserved, pending)
    ensures StmtDone(b, LowerParams(b, n), reserved, pending) && StmtReady(LowerParams(b, n), reserved, pending)
    ensures LowerParams(b, n) == b.(body := LowerParams(b, n).body)
  {
    hide StmtReady, StmtDone;
    if n == 0 {
      NothingDone(b, reserved, pending);
    } else {
      var b1 := LowerParams(b, n - 1);
      var b2 := Emit(b1, Local(n));
      ParamsDone(b, n - 1, reserved, pending);
      ItemDone(b1, Local(n), reserved, pending);
      ItemDone(b2, Do(StoreArg(n - 1)), reserved, pending);
      ReadyKeys(b, reserved, pending);
      DoneTrans(b, b1, b2, reserved, pending);
      DoneTrans(b, b2, LowerParams(b, n), reserved, pending);
    }
  }

  /** An `alloca` is no step. */
  lemma LocalKeepsRest(b: Builder, v: nat, code: Code)
    requires b.insert in b.body
    ensures Rest(Emit(b, Local(v)), code) == Rest(b, code)
  {
    StripConcat(b.body[b.insert], [Local(v)]);
    assert Strip([Local(v)]) == [];
  }

  lemma ParamContexts(b: Builder, n: nat, b1: Builder, b2: Builder, code: Code, reserved: set<Block>,
                      pending: set<Block>)
    requires n > 0 && b1 == LowerParams(b, n - 1) && b2 == Emit(b1, Local(n))
             && StmtContext(b, LowerParams(b, n), code, {}, reserved, pending)
    ensures StmtContext(b, b1, code, {}, reserved, pending) && StmtContext(b1, b2, code, {}, reserved, pending)
    ensures StmtContext(b2, Emit(b2, Do(StoreArg(n - 1))), code, {}, reserved, pending)
  {
    hide StmtReady, StmtDone, Extends, Emit;
    ParamsDone(b, n - 1, reserved, pending);
    ItemDone(b1, Local(n), reserved, pending);
    ItemDone(b2, Do(StoreArg(n - 1)), reserved, pending);
    ContextThen(b1, b2, LowerParams(b, n), code, {}, reserved, pending);
    ContextThen2(b, b1, b2, code, {}, reserved, pending);
  }

  lemma {:induction false} ParamsRun(o: Oracle, b: Builder, n: nat, code: Code, reserved: set<Block>,
                                     pending: set<Block>, tr: Trace)
    requires StmtContext(b, LowerParams(b, n), code, {}, reserved, pending)
    ensures Leads(o, StripAll(code), Rest(b, code), tr, Rest(LowerParams(b, n), code), tr + Args(n))
  {
    hide StmtReady, StmtDone, StmtContext, Leads, Jumps, Rest, StripAll, Extends, Emit, IsOpen, Sane;
    if n == 0 {
      LeadsRefl(o, StripAll(code), Rest(b, code), tr);
      assert tr + [] == tr;
    } else {
      var b1 := LowerParams(b, n - 1);
      var b2 := Emit(b1, Local(n));
      var a := StoreArg(n - 1);
      ParamContexts(b, n, b1, b2, code, reserved, pending);
      ParamsRun(o, b, n - 1, code, reserved, pending, tr);
      ContextParts(b1, b2, code, {}, reserved, pending);
      ContextParts(b2, Emit(b2, Do(a)), code, {}, reserved, pending);
      LocalKeepsRest(b1, n, code);
      EmitLeads(o, b2, a, code, {}, tr + Args(n - 1));
      LeadsTrans(o, StripAll(code), Rest(b, code), tr, Rest(b1, code), tr + Args(n - 1), Rest(LowerParams(b, n), code),
                 tr + Args(n - 1) + [a]);
      assert tr + Args(n - 1) + [a] == tr + Args(n);
    }
  }

  lemma StartReady(f: FuncDef)
    ensures StmtReady(StartFunction(f), {1}, {1}) && StmtDone(TwoBlocks(f.isVoid), StartFunction(f), {1}, {1})
    ensures var b := StartFunction(f);
            b.entry == 0 && b.ret == 1 && b.insert == 0 && b.whileStack == [] && Strip(At(b.body, 1)) == []
  {
    hide StmtReady, StmtDone, Strip, LowerParams, Grew;
    TwoBlocksReady(f.isVoid);
    TwoBlocksIs(f.isVoid);
    ParamsDone(TwoBlocks(f.isVoid), f.params, {1}, {1});
    DoneGrew(TwoBlocks(f.isVoid), StartFunction(f), {1}, {1});
    StillEmpty(TwoBlocks(f.isVoid), StartFunction(f), 0, JumpTargets(TwoBlocks(f.isVoid)), 1);
  }

  lemma DoneGrew(b: Builder, b': Builder, reserved: set<Block>, pending: set<Block>)
    requires StmtDone(b, b', reserved, pending)
    ensures Grew(b, b', b.insert, JumpTargets(b)) && Sane(b', reserved, pending) && SameStacks(b, b')
  {
  }

  // ----- the end -----

  /** The finished graph: each block ends in its one terminator, edges mirror each
      other, one for one, and the terminators, the entry is the first block, every
      block is reached from the entry and reaches the one block that returns. */
  ghost predicate Complete(b: Builder) {
    && Shape(b) && b.list != [] && b.list[0] == b.entry
    && forall x :: x in b.body ==>
         Terminated(b.body[x]) && HasPath(GraphOf(b), b.entry, x) && HasPath(GraphOf(b), x, b.ret)
                                   && (Returns(b.body[x]) <==> x == b.ret)
  }

  predicate Returns(items: seq<Item>) {
    items != [] && items[|items| - 1].Leave?
  }

  /** After the body: only the `ret` block is open. */
  lemma FallOffDone(b: Builder, isVoid: bool)
    requires Sane(b, {b.ret}, {b.ret})
    ensures Sane(FallOff(b, isVoid), {b.ret}, {b.ret}) && !IsOpen(FallOff(b, isVoid), FallOff(b, isVoid).insert)
    ensures FallOff(b, isVoid).ret == b.ret && FallOff(b, isVoid).entry == b.entry
    ensures At(FallOff(b, isVoid).body, b.ret) == At(b.body, b.ret)
  {
    hide Sane, Br, Emit, IsOpen, Terminated, HasPath;
    SaneParts(b, {b.ret}, {b.ret});
    OpenMeans(b);
    if !Terminated(At(b.body, b.insert)) {
      var b1 := if isVoid then b else Emit(b, Do(StoreZero));
      EmitSane(b, Do(StoreZero), {b.ret}, {b.ret});
      EmitFixed(b, Do(StoreZero));
      SaneParts(b1, {b.ret}, {b.ret});
      PathToSelf(GraphOf(b1), b.ret);
      BrSane(b1, b.ret, b.ret, {b.ret}, {b.ret});
      SaneWeaker(Br(b1, b.ret), {b.ret}, {b.ret} - {b.ret}, {b.ret});
      BrFixed(b1, b.ret);
      BrKeeps(b1, b.ret);
      BrElsewhere(b1, b.ret, b.ret);
    }
  }

  lemma EmitFixed(b: Builder, i: Item)
    ensures Emit(b, i).ret == b.ret && Emit(b, i).entry == b.entry && Emit(b, i).insert == b.insert
    ensures forall x :: x != b.insert ==> At(Emit(b, i).body, x) == At(b.body, x)
  {
  }

  lemma BrElsewhere(b: Builder, t: Block, x: Block)
    requires x != b.insert
    ensures At(Br(b, t).body, x) == At(b.body, x)
  {
  }

  function ReturnItems(isVoid: bool): seq<Item> {
    if isVoid then [Leave] else [Do(LoadRet), Leave]
  }

  lemma EndIs(b: Builder, isVoid: bool)
    ensures var b1 := FallOff(b, isVoid);
            EndFunction(b, isVoid)
            == b1.(curList := Pop(b1.curList), insert := b1.ret,
                   body := b1.body[b1.ret := At(b1.body, b1.ret) + ReturnItems(isVoid)])
  {
    hide FallOff;
    var b1 := FallOff(b, isVoid);
    assert At(b1.body, b1.ret) + [Do(LoadRet)] + [Leave] == At(b1.body, b1.ret) + [Do(LoadRet), Leave];
  }

  lemma EndBodies(body: map<Block, seq<Item>>, succs: map<Block, seq<Block>>, ret: Block, isVoid: bool)
    requires BodiesOk(body, succs) && ret in body && !Terminated(body[ret])
    ensures var body' := body[ret := body[ret] + ReturnItems(isVoid)];
            BodiesOk(body', succs) && body'.Keys == body.Keys && Terminated(body'[ret]) && Returns(body'[ret])
  {
    var body' := body[ret := body[ret] + ReturnItems(isVoid)];
    assert BlockOk(body[ret], succs[ret]);
    forall x | x in body'
      ensures BlockOk(body'[x], succs[x])
    {
      assert BlockOk(body[x], succs[x]);
    }
  }

  /** A block with a way on does not return. */
  lemma GoesOn(g: FlowGraph, items: seq<Item>, x: Block, y: Block)
    requires HasPath(g, x, y) && x != y && x in g.succs && BlockOk(items, g.succs[x]) && Terminated(items)
    ensures !Returns(items)
  {
    var p :| g.PathFromTo(p, x, y);
    assert p[1] in g.succs[p[0]];
  }

  /** Only the `ret` block was open, so every block reaches it. */
  lemma OnlyRetOpen(b: Builder, x: Block)
    requires Sane(b, {b.ret}, {b.ret}) && !IsOpen(b, b.insert) && x in b.body
    ensures HasPath(GraphOf(b), b.entry, x) && HasPath(GraphOf(b), x, b.ret) && (x != b.ret ==> Terminated(b.body[x]))
            && !Terminated(b.body[b.ret])
    ensures x in b.succs && BlockOk(b.body[x], b.succs[x])
  {
    hide HasPath, GraphOk, ListOk, BlockOk, Terminated;
    assert OpenSet(b.body) == {b.ret};
    assert b.ret in OpenSet(b.body);
    assert ReachesOpen(GraphOf(b), OpenSet(b.body), x) && ReachesOpen(GraphOf(b), OpenSet(b.body), b.entry);
    assert x != b.ret ==> x !in OpenSet(b.body);
  }

  lemma EndShape(b: Builder, b': Builder)
    requires Shape(b) && b' == b.(curList := b'.curList, insert := b.ret, body := b'.body)
             && b'.body.Keys == b.body.Keys && BodiesOk(b'.body, b.succs)
    ensures Shape(b') && GraphOf(b') == GraphOf(b)
  {
    hide ListOk, GraphOk, BodiesOk;
  }

  lemma ShapeOf(b: Builder, reserved: set<Block>, pending: set<Block>)
    requires Sane(b, reserved, pending)
    ensures Shape(b) && BodiesOk(b.body, b.succs)
  {
  }

  /** Block 0 is the first of a list in order. */
  lemma FirstIsLeast(list: seq<Block>, blocks: set<Block>)
    requires ListOk(list, blocks) && 0 in blocks
    ensures list != [] && list[0] == 0
  {
    var i :| 0 <= i < |list| && list[i] == 0;
  }

  lemma ShapeLists(b: Builder)
    requires Shape(b)
    ensures ListOk(b.list, b.body.Keys) && b.entry in b.body
  {
    hide ListOk, GraphOk, BodiesOk;
  }

  lemma EndDone(b: Builder, isVoid: bool)
    requires Sane(b, {b.ret}, {b.ret}) && b.entry == 0
    ensures Complete(EndFunction(b, isVoid))
  {
    hide Sane, Shape, IsOpen, HasPath, FallOff, EndFunction, Terminated, BodiesOk, BlockOk, ReturnItems, Returns,
         ListOk;
    FallOffDone(b, isVoid);
    EndIs(b, isVoid);
    var b1, b' := FallOff(b, isVoid), EndFunction(b, isVoid);
    SaneParts(b1, {b.ret}, {b.ret});
    ShapeOf(b1, {b.ret}, {b.ret});
    OnlyRetOpen(b1, b1.ret);
    EndBodies(b1.body, b1.succs, b1.ret, isVoid);
    EndShape(b1, b');
    ShapeLists(b');
    FirstIsLeast(b'.list, b'.body.Keys);
    forall x | x in b'.body
      ensures Terminated(b'.body[x]) && HasPath(GraphOf(b'), b'.entry, x) && HasPath(GraphOf(b'), x, b'.ret)
      ensures Returns(b'.body[x]) <==> x == b'.ret
    {
      OnlyRetOpen(b1, x);
      if x != b'.ret {
        GoesOn(GraphOf(b1), b1.body[x], x, b1.ret);
      }
    }
  }

  // ----- the function -----

  lemma BodyDone(f: FuncDef)
    requires WellNestedAll(f.body, false)
    ensures var b := LowerList(StartFunction(f), f.body);
            StmtDone(StartFunction(f), b, {1}, {1}) && Sane(b, {b.ret}, {b.ret}) && b.ret == 1 && b.entry == 0
            && Strip(At(b.body, 1)) == []
  {
    hide StmtReady, StmtDone, StartFunction, LowerList, WellNestedAll, Sane, Grew, Strip;
    var b0 := StartFunction(f);
    StartReady(f);
    ReadyKeys(b0, {1}, {1});
    LowerListDone(b0, f.body, {1}, {1});
    var b := LowerList(b0, f.body);
    DoneGrew(b0, b, {1}, {1});
    GrewFixed(b0, b, 0, JumpTargets(b0));
    StillEmpty(b0, b, 0, JumpTargets(b0), 1);
  }

  /** Any well-nested function has a finished graph. */
  lemma LoweredIsComplete(f: FuncDef)
    requires WellNestedAll(f.body, false)
    ensures Complete(LowerFunction(f)) && LowerFunction(f).entry == 0 && LowerFunction(f).ret == 1
  {
    hide StmtDone, StartFunction, LowerList, WellNestedAll, Sane, Complete, EndFunction, Strip, FallOff;
    BodyDone(f);
    var b := LowerList(StartFunction(f), f.body);
    EndDone(b, f.isVoid);
    FallOffDone(b, f.isVoid);
    EndIs(b, f.isVoid);
  }

  /** It meets what both dominator passes and the promotion ask of a graph. */
  lemma LoweredIsReady(f: FuncDef)
    requires WellNestedAll(f.body, false)
    ensures var g := GraphOf(LowerFunction(f)); Semantics.CfgReady(g) && RDominateTrees.IsExit(g, LowerFunction(f).ret)
  {
    hide WellNestedAll, HasPath, LowerFunction, ListOk, Balanced;
    LoweredIsComplete(f);
    var b := LowerFunction(f);
    var g := GraphOf(b);
    assert BlockOk(b.body[b.ret], b.succs[b.ret]);
    forall x | x in g.succs
      ensures g.Reachable(x) && RDominateTrees.ReachesExit(g, b.ret, x)
    {
      assert HasPath(g, b.entry, x) && HasPath(g, x, b.ret);
      PathIsReachable(g, x, b.ret);
    }
  }

  lemma PathIsReachable(g: FlowGraph, x: Block, exit: Block)
    requires HasPath(g, g.entry, x) && HasPath(g, x, exit)
    ensures g.Reachable(x) && RDominateTrees.ReachesExit(g, exit, x)
  {
  }

  // ----- the run -----

  /** A run that has ended stays as it is. */
  lemma {:induction false} EndedStays(o: Oracle, code: Code, items: seq<Item>, tr: Trace, n: nat, m: nat)
    requires n <= m && !RunFrom(o, code, items, tr, n).Running?
    ensures RunFrom(o, code, items, tr, m) == RunFrom(o, code, items, tr, n)
    decreases n
  {
    var (tr1, e) := Straight(o, items, tr);
    if e.To? {
      EndedStays(o, code, At(code, e.b), tr1, n - 1, m - 1);
    }
  }

  /** No `break` or `continue` gets out of a statement whose own are all in loops. */
  lemma {:induction false} NoJumpOut(o: Oracle, s: Stmt, tr: Trace, fuel: nat)
    requires WellNested(s, false)
    ensures var r := RunStmt(o, s, tr, fuel); r.OutOfFuel? || r.out == Normal || r.out == Returned
    decreases fuel, s, 1
  {
    match s
    case Compound(body) => NoJumpOutOfList(o, body, tr, fuel);
    case If(c, first) =>
      var (v, tr1) := EvalCond(o, c, tr);
      if v {
        NoJumpOut(o, first, tr1, fuel);
      }
    case IfElse(c, first, second) =>
      var (v, tr1) := EvalCond(o, c, tr);
      if v {
        NoJumpOut(o, first, tr1, fuel);
      } else {
        NoJumpOut(o, second, tr1, fuel);
      }
    case While(c, loop) =>
      if fuel > 0 {
        var (v, tr1) := EvalCond(o, c, tr);
        if v {
          var r := RunStmt(o, loop, tr1, fuel - 1);
          if r.Ended? && r.out != Broken && r.out != Returned {
            NoJumpOut(o, s, r.tr, fuel - 1);
          }
        }
      }
    case _ =>
  }

  lemma {:induction false} NoJumpOutOfList(o: Oracle, body: seq<Stmt>, tr: Trace, fuel: nat)
    requires WellNestedAll(body, false)
    ensures var r := RunList(o, body, tr, fuel); r.OutOfFuel? || r.out == Normal || r.out == Returned
    decreases fuel, body, 0
  {
    hide WellNested, RunStmt;
    if body != [] {
      AllNested(body, false);
      NoJumpOut(o, body[0], tr, fuel);
      var r := RunStmt(o, body[0], tr, fuel);
      if r.Ended? && r.out == Normal {
        NoJumpOutOfList(o, body[1..], r.tr, fuel);
      }
    }
  }

  /** The finished blocks are those the body left, with the ends added. */
  lemma EndExtends(b: Builder, isVoid: bool)
    requires Sane(b, {b.ret}, {b.ret}) && Strip(At(b.body, b.ret)) == []
    ensures var code := EndFunction(b, isVoid).body;
            Extends(FallOff(b, isVoid), code, {}) && Whole(code, b.ret) == ReturnItems(isVoid)
  {
    hide Sane, FallOff, EndFunction, IsOpen, Strip;
    FallOffDone(b, isVoid);
    EndIs(b, isVoid);
    var b1, code := FallOff(b, isVoid), EndFunction(b, isVoid).body;
    SaneParts(b1, {b.ret}, {b.ret});
    OnlyRetOpen(b1, b1.ret);
    StripConcat(b1.body[b1.ret], ReturnItems(isVoid));
    ReturnStripped(isVoid);
    forall x | x in b1.body
      ensures x in code && KeptFinal(b1.body[x], code[x])
    {
    }
    assert code[b.ret] == At(b1.body, b1.ret) + ReturnItems(isVoid);
  }

  lemma ReturnStripped(isVoid: bool)
    ensures Strip(ReturnItems(isVoid)) == ReturnItems(isVoid)
  {
    assert Strip([Leave]) == [Leave];
    if !isVoid {
      assert ReturnItems(isVoid)[1..] == [Leave];
      assert Strip(ReturnItems(isVoid)) == [Do(LoadRet)] + Strip([Leave]);
    }
  }

  lemma ReturnRun(o: Oracle, code: Code, isVoid: bool, tr: Trace)
    ensures RunFrom(o, code, ReturnItems(isVoid), tr, 0) == Finished(if isVoid then tr else tr + [LoadRet])
  {
    if !isVoid {
      assert ReturnItems(isVoid)[1..] == [Leave];
      assert Straight(o, [Leave], tr + [LoadRet]) == (tr + [LoadRet], Left);
    }
  }

  /** What falls off the end goes to the `ret` block, with a zero if a value is due. */
  lemma FallOffRuns(o: Oracle, b: Builder, isVoid: bool, code: Code, tr: Trace)
    requires Sane(b, {b.ret}, {b.ret}) && Extends(FallOff(b, isVoid), code, {})
    ensures Extends(b, code, {})
    ensures IsOpen(b, b.insert) ==>
              Leads(o, StripAll(code), Rest(b, code), tr, Whole(code, b.ret), if isVoid then tr else tr + [StoreZero])
  {
    hide Sane, Br, Emit, IsOpen, Leads, Jumps, Rest, StripAll, Whole, Extends, Grew;
    SaneParts(b, {b.ret}, {b.ret});
    OpenMeans(b);
    if IsOpen(b, b.insert) {
      var b1 := if isVoid then b else Emit(b, Do(StoreZero));
      EmitSane(b, Do(StoreZero), {b.ret}, {b.ret});
      EmitFixed(b, Do(StoreZero));
      SaneParts(b1, {b.ret}, {b.ret});
      GrewBr(b1, b.ret);
      ExtendsBack(b1, Br(b1, b.ret), {b.ret}, code, {}, {});
      var tr1 := if isVoid then tr else tr + [StoreZero];
      JumpLeads(o, b1, b.ret, code, {}, tr1);
      JumpsIsLeads(o, StripAll(code), Rest(b1, code), tr1, Whole(code, b.ret), tr1);
      if !isVoid {
        GrewEmit(b, Do(StoreZero));
        ExtendsBack(b, b1, {}, code, {}, {});
        EmitLeads(o, b, StoreZero, code, {}, tr);
        LeadsTrans(o, StripAll(code), Rest(b, code), tr, Rest(b1, code), tr1, Whole(code, b.ret), tr1);
      }
    }
  }

  function WithLoad(isVoid: bool, tr: Trace): Trace {
    if isVoid then tr else tr + [LoadRet]
  }

  /** Once at the `ret` block the run ends. */
  lemma LeadsToEnd(o: Oracle, code: Code, items: seq<Item>, tr: Trace, ret: Block, isVoid: bool, tr1: Trace)
    requires Leads(o, StripAll(code), items, tr, Whole(code, ret), tr1) && Whole(code, ret) == ReturnItems(isVoid)
    ensures exists n :: RunFrom(o, StripAll(code), items, tr, n) == Finished(WithLoad(isVoid, tr1))
  {
    hide RunFrom, ReturnItems, Whole;
    var k: nat :| LeadsIn(o, StripAll(code), items, tr, k, Whole(code, ret), tr1);
    ReturnRun(o, StripAll(code), isVoid, tr1);
    assert RunFrom(o, StripAll(code), items, tr, k) == RunFrom(o, StripAll(code), Whole(code, ret), tr1, k - k);
  }

  /** Transfers from the entry of the finished function. */
  function RunLowered(o: Oracle, f: FuncDef, n: nat): Progress {
    var g := LowerFunction(f);
    RunFrom(o, g.body, At(g.body, g.entry), [], n)
  }

  ghost predicate SameRun(o: Oracle, code: Code, items: seq<Item>, r: Option<Trace>, fuel: nat) {
    match r
    case None => Lasts(o, StripAll(code), items, [], fuel)
    case Some(tr) => exists n :: RunFrom(o, StripAll(code), items, [], n) == Finished(tr)
  }

  /** From the start of the body to the end of the function. */
  lemma BodyEnds(o: Oracle, f: FuncDef, b0: Builder, b: Builder, code: Code, items: seq<Item>, r: Result, fuel: nat)
    requires Leads(o, StripAll(code), items, [], Rest(b0, code), Args(f.params))
             && Follows(o, b0, b, code, r, Args(f.params), fuel)
    requires r == RunList(o, f.body, Args(f.params), fuel) && WellNestedAll(f.body, false)
    requires Sane(b, {b.ret}, {b.ret}) && b0.ret == b.ret && Extends(FallOff(b, f.isVoid), code, {})
             && Whole(code, b.ret) == ReturnItems(f.isVoid)
    ensures SameRun(o, code, items, RunFunction(o, f, fuel), fuel)
  {
    hide Leads, Jumps, Lasts, Rest, StripAll, Whole, Sane, FallOff, ReturnItems, RunFrom, RunList, WellNestedAll,
         IsOpen, Extends;
    NoJumpOutOfList(o, f.body, Args(f.params), fuel);
    match r
    case OutOfFuel => LeadsLasts(o, StripAll(code), items, [], Rest(b0, code), Args(f.params), fuel);
    case Ended(out, tr) =>
      LeadsTrans(o, StripAll(code), items, [], Rest(b0, code), Args(f.params), Dest(b0, b, code, out), tr);
      if out == Normal {
        FallOffRuns(o, b, f.isVoid, code, tr);
        var tr1 := if f.isVoid then tr else tr + [StoreZero];
        LeadsTrans(o, StripAll(code), items, [], Rest(b, code), tr, Whole(code, b.ret), tr1);
        LeadsToEnd(o, code, items, [], b.ret, f.isVoid, tr1);
      } else {
        LeadsToEnd(o, code, items, [], b.ret, f.isVoid, tr);
      }
  }

  /** The contexts of the function's parts. */
  lemma FunctionContexts(f: FuncDef)
    requires WellNestedAll(f.body, false)
    ensures var b0 := StartFunction(f); var b := LowerList(b0, f.body); var code := LowerFunction(f).body;
            StmtContext(TwoBlocks(f.isVoid), b0, code, {}, {1}, {1}) && StmtContext(b0, b, code, {}, {1}, {1})
            && Extends(FallOff(b, f.isVoid), code, {}) && Whole(code, b.ret) == ReturnItems(f.isVoid)
  {
    hide StmtReady, StmtDone, StartFunction, LowerList, WellNestedAll, Sane, FallOff, EndFunction, Extends, Whole,
         ReturnItems, Strip, TwoBlocks;
    BodyDone(f);
    StartReady(f);
    TwoBlocksReady(f.isVoid);
    var b0 := StartFunction(f);
    var b := LowerList(b0, f.body);
    EndExtends(b, f.isVoid);
    FallOffRuns((tr: Trace) => true, b, f.isVoid, LowerFunction(f).body, []);
    DoneExtends(b0, b, LowerFunction(f).body, {}, {1}, {1});
  }

  lemma FunctionRuns(o: Oracle, f: FuncDef, fuel: nat)
    requires WellNestedAll(f.body, false)
    ensures SameRun(o, LowerFunction(f).body, Whole(LowerFunction(f).body, 0), RunFunction(o, f, fuel), fuel)
  {
    hide StmtReady, StmtDone, StmtContext, StartFunction, LowerFunction, LowerList, WellNestedAll, Sane, FallOff,
         Extends, ReturnItems, Strip, TwoBlocks, Leads, Rest, StripAll, Whole, Follows, RunFunction, SameRun, RunList;
    var b0 := StartFunction(f);
    var b := LowerList(b0, f.body);
    var code := LowerFunction(f).body;
    FunctionContexts(f);
    BodyDone(f);
    StartReady(f);
    TwoBlocksReady(f.isVoid);
    TwoBlocksIs(f.isVoid);
    RestIsWhole(TwoBlocks(f.isVoid), code);
    StartIs(f);
    ParamsRun(o, TwoBlocks(f.isVoid), f.params, code, {1}, {1}, []);
    assert [] + Args(f.params) == Args(f.params);
    LowerListRuns(o, b0, f.body, code, {}, {1}, {1}, Args(f.params), fuel);
    BodyEnds(o, f, b0, b, code, Whole(code, 0), RunList(o, f.body, Args(f.params), fuel), fuel);
  }

  lemma StartIs(f: FuncDef)
    ensures StartFunction(f) == LowerParams(TwoBlocks(f.isVoid), f.params)
  {
  }

  /** The run of the finished blocks, `alloca`s and all. */
  lemma SameRunLowered(o: Oracle, f: FuncDef, r: Option<Trace>, fuel: nat)
    requires LowerFunction(f).entry == 0 && SameRun(o, LowerFunction(f).body, Whole(LowerFunction(f).body, 0), r, fuel)
    ensures r == None ==> RunLowered(o, f, fuel).Running?
    ensures r.Some? ==> exists n :: RunLowered(o, f, n) == Finished(r.value)
  {
    hide RunFrom, LowerFunction, Strip;
    var code := LowerFunction(f).body;
    StripEmpty();
    assert Whole(code, 0) == Strip(At(code, 0));
    hide StripAll;
    forall n: nat
      ensures RunFrom(o, StripAll(code), Whole(code, 0), [], n) == RunLowered(o, f, n)
    {
      RunStripped(o, code, At(code, 0), [], n);
    }
    if r.Some? {
      var n :| RunFrom(o, StripAll(code), Whole(code, 0), [], n) == Finished(r.value);
      assert RunLowered(o, f, n) == Finished(r.value);
    }
  }

  /** Lowering keeps meaning: for every well-nested function and every way its
      computations can decide, the blocks and the source compute the same, in the
      same order, and one ends if and only if the other does. The blocks never get
      stuck. */
  lemma LoweringKeepsMeaning(o: Oracle, f: FuncDef, tr: Trace)
    requires WellNestedAll(f.body, false)
    ensures (exists fuel :: RunFunction(o, f, fuel) == Some(tr)) <==> (exists n :: RunLowered(o, f, n) == Finished(tr))
    ensures forall n: nat :: !RunLowered(o, f, n).Stuck?
  {
    hide RunFunction, RunLowered, WellNestedAll;
    forall fuel: nat
      ensures RunFunction(o, f, fuel) == None ==> RunLowered(o, f, fuel).Running?
      ensures RunFunction(o, f, fuel).Some? ==>
                exists n :: RunLowered(o, f, n) == Finished(RunFunction(o, f, fuel).value)
    {
      RunsAlike(o, f, fuel);
    }
    forall n: nat | !RunLowered(o, f, n).Running?
      ensures RunFunction(o, f, n).Some? && RunLowered(o, f, n) == Finished(RunFunction(o, f, n).value)
    {
      var tr' := RunFunction(o, f, n).value;
      var m :| RunLowered(o, f, m) == Finished(tr');
      EndsOnce(o, f, n, m);
    }
    if n: nat :| RunLowered(o, f, n) == Finished(tr) {
      assert RunFunction(o, f, n) == Some(tr);
    }
  }

  lemma RunsAlike(o: Oracle, f: FuncDef, fuel: nat)
    requires WellNestedAll(f.body, false)
    ensures RunFunction(o, f, fuel) == None ==> RunLowered(o, f, fuel).Running?
    ensures RunFunction(o, f, fuel).Some? ==> exists n :: RunLowered(o, f, n) == Finished(RunFunction(o, f, fuel).value)
  {
    hide RunFunction, RunLowered, WellNestedAll, LowerFunction, SameRun, Complete, Whole;
    LoweredIsComplete(f);
    FunctionRuns(o, f, fuel);
    SameRunLowered(o, f, RunFunction(o, f, fuel), fuel);
  }

  lemma EndsOnce(o: Oracle, f: FuncDef, n: nat, m: nat)
    requires !RunLowered(o, f, n).Running? && !RunLowered(o, f, m).Running?
    ensures RunLowered(o, f, n) == RunLowered(o, f, m)
  {
    hide RunFrom, LowerFunction;
    var g := LowerFunction(f);
    if n <= m {
      EndedStays(o, g.body, At(g.body, g.entry), [], n, m);
    } else {
      EndedStays(o, g.body, At(g.body, g.entry), [], m, n);
    }
  }
}
