/** Statements: lowering any well-nested statement keeps the graph in shape. */
module LoweringStmts {
  import opened FlowGraphs
  import opened Statements
  import opened BlockBuilder
  import opened BuilderInvariants
  import opened LoweringShape

  // ----- what a statement needs and leaves -----

  /** Where `break` and `continue` lead: the block behind the loop is still to be
      filled, and the loop's test leads to it. */
  ghost predicate LoopOk(g: FlowGraph, loop: Targets, reserved: set<Block>, blocks: set<Block>) {
    loop.no in reserved && loop.yes in blocks && loop.yes != g.entry && HasPath(g, loop.yes, loop.no)
  }

  ghost predicate LoopsOk(b: Builder, reserved: set<Block>) {
    forall k :: 0 <= k < |b.whileStack| ==> LoopOk(GraphOf(b), b.whileStack[k], reserved, b.body.Keys)
  }

  ghost function JumpTargets(b: Builder): set<Block> {
    {b.ret} + (set k | 0 <= k < |b.whileStack| :: b.whileStack[k].yes)
    + (set k | 0 <= k < |b.whileStack| :: b.whileStack[k].no)
  }

  ghost predicate StmtReady(b: Builder, reserved: set<Block>, pending: set<Block>) {
    && Sane(b, reserved, pending) && IsOpen(b, b.insert) && LoopsOk(b, reserved)
    && b.curList != [] && Last(b.curList) == b.insert
  }

  /** The current block is on top of its list, unless it has ended. */
  ghost predicate CurKept(b: Builder, b': Builder) {
    && b'.curList != [] && Pop(b'.curList) == Pop(b.curList)
    && (IsOpen(b', b'.insert) ==> Last(b'.curList) == b'.insert)
  }

  ghost predicate StmtDone(b: Builder, b': Builder, reserved: set<Block>, pending: set<Block>) {
    && Sane(b', reserved, pending) && Grew(b, b', b.insert, JumpTargets(b))
    && SameStacks(b, b') && Moved(b, b') && CurKept(b, b')
  }

  lemma LoopsKept(b: Builder, b': Builder, x: Block, targets: set<Block>, reserved: set<Block>, reserved': set<Block>)
    requires LoopsOk(b, reserved) && Grew(b, b', x, targets) && b'.whileStack == b.whileStack && reserved <= reserved'
    ensures LoopsOk(b', reserved')
  {
    hide HasPath, Frame, PredsKept, MoreEdges;
    GrewFixed(b, b', x, targets);
    forall k | 0 <= k < |b'.whileStack|
      ensures LoopOk(GraphOf(b'), b'.whileStack[k], reserved', b'.body.Keys)
    {
      assert LoopOk(GraphOf(b), b.whileStack[k], reserved, b.body.Keys);
      PathKept(GraphOf(b), GraphOf(b'), b.whileStack[k].yes, b.whileStack[k].no);
    }
  }

  // ----- simple statements -----

  lemma ItemDone(b: Builder, i: Item, reserved: set<Block>, pending: set<Block>)
    requires StmtReady(b, reserved, pending) && !IsTerminator(i)
    ensures StmtDone(b, Emit(b, i), reserved, pending) && StmtReady(Emit(b, i), reserved, pending)
  {
    hide Sane, LoopsOk, Grew, IsOpen;
    SaneParts(b, reserved, pending);
    EmitSane(b, i, reserved, pending);
    GrewEmit(b, i);
    LoopsKept(b, Emit(b, i), b.insert, {}, reserved, reserved);
    GrewMore(b, Emit(b, i), b.insert, {}, JumpTargets(b));
  }

  lemma EmitDone(b: Builder, a: Atom, reserved: set<Block>, pending: set<Block>)
    requires StmtReady(b, reserved, pending)
    ensures StmtDone(b, Emit(b, Do(a)), reserved, pending) && StmtReady(Emit(b, Do(a)), reserved, pending)
  {
    hide StmtReady, StmtDone, Emit;
    ItemDone(b, Do(a), reserved, pending);
  }

  lemma NothingDone(b: Builder, reserved: set<Block>, pending: set<Block>)
    requires StmtReady(b, reserved, pending)
    ensures StmtDone(b, b, reserved, pending)
  {
    hide Sane, Grew, IsOpen, LoopsOk, JumpTargets;
    GrewSame(b, b, b.insert);
    GrewMore(b, b, b.insert, {}, JumpTargets(b));
  }

  /** A jump to `t`, which leads to a reserved block. */
  lemma JumpDone(b: Builder, t: Block, o: Block, reserved: set<Block>, pending: set<Block>)
    requires StmtReady(b, reserved, pending) && t in JumpTargets(b) && t in b.body && t != b.entry
    requires o in reserved && HasPath(GraphOf(b), t, o)
    ensures StmtDone(b, Br(b, t), reserved, pending) && !IsOpen(Br(b, t), Br(b, t).insert)
  {
    hide Sane, Grew, IsOpen, LoopsOk, JumpTargets, HasPath;
    SaneParts(b, reserved, pending);
    BrSane(b, t, o, reserved, pending);
    SaneWeaker(Br(b, t), reserved, pending - {t}, pending);
    GrewBr(b, t);
    GrewMore(b, Br(b, t), b.insert, {t}, JumpTargets(b));
  }

  lemma ReturnDone(b: Builder, reserved: set<Block>, pending: set<Block>)
    requires StmtReady(b, reserved, pending)
    ensures StmtDone(b, Br(b, b.ret), reserved, pending) && !IsOpen(Br(b, b.ret), Br(b, b.ret).insert)
  {
    hide Sane, Grew, IsOpen, LoopsOk, HasPath;
    SaneParts(b, reserved, pending);
    PathToSelf(GraphOf(b), b.ret);
    JumpDone(b, b.ret, b.ret, reserved, pending);
  }

  lemma TopLoop(b: Builder, reserved: set<Block>)
    requires LoopsOk(b, reserved) && b.whileStack != []
    ensures LoopOk(GraphOf(b), Top(b.whileStack), reserved, b.body.Keys)
    ensures Top(b.whileStack).yes in JumpTargets(b) && Top(b.whileStack).no in JumpTargets(b)
  {
    var k := |b.whileStack| - 1;
    assert b.whileStack[k] == Top(b.whileStack);
  }

  lemma BreakDone(b: Builder, reserved: set<Block>, pending: set<Block>)
    requires StmtReady(b, reserved, pending) && b.whileStack != []
    ensures StmtDone(b, Br(b, Top(b.whileStack).no), reserved, pending)
    ensures StmtDone(b, Br(b, Top(b.whileStack).yes), reserved, pending)
  {
    hide Sane, Grew, IsOpen, LoopsOk, HasPath, JumpTargets, Br;
    SaneParts(b, reserved, pending);
    TopLoop(b, reserved);
    var loop := Top(b.whileStack);
    PathToSelf(GraphOf(b), loop.no);
    JumpDone(b, loop.no, loop.no, reserved, pending);
    JumpDone(b, loop.yes, loop.no, reserved, pending);
  }

  // ----- declarations -----

  /** A block with the `alloca` of `v` added before its terminator. */
  function WithLocal(items: seq<Item>, v: nat): seq<Item> {
    if Terminated(items) then Pop(items) + [Local(v), items[|items| - 1]] else items + [Local(v)]
  }

  function Hoisted(body: map<Block, seq<Item>>, e: Block, v: nat): map<Block, seq<Item>> {
    body[e := WithLocal(At(body, e), v)]
  }

  /** When the insertion block is the top of the list, popping takes out just the
      new `alloca`: nothing changes but the entry, which gets it before its terminator. */
  lemma HoistIs(b: Builder, v: nat)
    requires b.insert in b.body && b.entry in b.body && b.curList != [] && Last(b.curList) == b.insert
    requires !Terminated(b.body[b.insert])
    ensures Hoist(b, v) == b.(body := Hoisted(b.body, b.entry, v))
  {
    hide Terminated;
    var e, x := b.body[b.entry], b.insert;
    if Terminated(e) {
      var body1 := b.body[b.entry := Pop(e)];
      LastStays(e, v);
      EmittedAndPopped(body1, x, v);
      var body2: map<Block, seq<Item>> := body1[b.entry := Pop(e) + [Local(v)]];
      assert Hoist(b, v).body == body2[b.entry := Pop(e) + [Local(v)] + [e[|e| - 1]]];
    } else {
      EmittedAndPopped(b.body, x, v);
      assert Hoist(b, v).body == b.body[b.entry := e + [Local(v)]];
    }
  }

  lemma LastStays(e: seq<Item>, v: nat)
    requires Terminated(e)
    ensures e != [] && Pop(e) + [Local(v)] + [e[|e| - 1]] == Pop(e) + [Local(v), e[|e| - 1]]
  {
  }

  /** Appending and popping in the same block changes nothing. */
  lemma EmittedAndPopped(body: map<Block, seq<Item>>, x: Block, v: nat)
    requires x in body
    ensures var body1 := body[x := At(body, x) + [Local(v)]]; body1[x := Pop(At(body1, x))] == body
  {
    assert Pop(body[x] + [Local(v)]) == body[x];
  }

  lemma WithLocalStrip(items: seq<Item>, v: nat)
    ensures Strip(WithLocal(items, v)) == Strip(items)
  {
    hide IsTerminator;
    assert [Local(v)][1..] == [];
    assert Strip([Local(v)]) == [];
    if Terminated(items) {
      var last := items[|items| - 1];
      assert items == Pop(items) + [last];
      StripConcat(Pop(items), [last]);
      StripConcat(Pop(items), [Local(v), last]);
      StripConcat([Local(v)], [last]);
      assert [Local(v), last] == [Local(v)] + [last];
    } else {
      StripConcat(items, [Local(v)]);
    }
  }

  lemma WithLocalEnd(items: seq<Item>, v: nat)
    ensures Terminated(WithLocal(items, v)) <==> Terminated(items)
    ensures EdgesOf(WithLocal(items, v)) == EdgesOf(items)
  {
    var after := WithLocal(items, v);
    if Terminated(items) {
      assert after[|after| - 1] == items[|items| - 1];
    } else {
      assert after[|after| - 1] == Local(v);
    }
  }

  lemma WithLocalOk(items: seq<Item>, v: nat, succs: seq<Block>)
    requires BlockOk(items, succs)
    ensures BlockOk(WithLocal(items, v), succs) && KeptBody(items, WithLocal(items, v), false)
  {
    hide Strip, EdgesOf;
    WithLocalStrip(items, v);
    WithLocalEnd(items, v);
    var after := WithLocal(items, v);
    forall k | 0 <= k < |after| - 1
      ensures !IsTerminator(after[k])
    {
      if k < |items| {
        assert after[k] == items[k] || after[k] == Local(v);
      }
    }
  }

  lemma HoistedOk(body: map<Block, seq<Item>>, succs: map<Block, seq<Block>>, e: Block, v: nat)
    requires BodiesOk(body, succs) && e in body
    ensures BodiesOk(Hoisted(body, e, v), succs) && OpenSet(Hoisted(body, e, v)) == OpenSet(body)
    ensures KeptBody(body[e], Hoisted(body, e, v)[e], false)
  {
    hide BlockOk, Terminated, Strip, WithLocal;
    WithLocalOk(body[e], v, succs[e]);
  }

  lemma GrewHoisted(b: Builder, v: nat)
    requires b.entry in b.body && KeptBody(b.body[b.entry], Hoisted(b.body, b.entry, v)[b.entry], false)
    ensures Grew(b, b.(body := Hoisted(b.body, b.entry, v)), b.insert, {})
  {
    var b' := b.(body := Hoisted(b.body, b.entry, v));
    forall y | y in b.body
      ensures y in b'.body && KeptBody(b.body[y], b'.body[y], y == b.insert)
    {
    }
  }

  lemma HoistDone(b: Builder, v: nat, reserved: set<Block>, pending: set<Block>)
    requires StmtReady(b, reserved, pending)
    ensures StmtDone(b, Hoist(b, v), reserved, pending) && StmtReady(Hoist(b, v), reserved, pending)
    ensures GraphOf(Hoist(b, v)) == GraphOf(b)
  {
    hide Sane, Grew, LoopsOk, HasPath, JumpTargets, Hoist, Hoisted, Balanced;
    SaneParts(b, reserved, pending);
    var b' := b.(body := Hoisted(b.body, b.entry, v));
    HoistIs(b, v);
    BodiesOf(b, reserved, pending);
    HoistedOk(b.body, b.succs, b.entry, v);
    BodySane(b, b'.body, reserved, pending);
    GrewHoisted(b, v);
    LoopsKept(b, b', b.insert, {}, reserved, reserved);
    GrewMore(b, b', b.insert, {}, JumpTargets(b));
    SaneParts(b', reserved, pending);
  }

  lemma BodiesOf(b: Builder, reserved: set<Block>, pending: set<Block>)
    requires Sane(b, reserved, pending)
    ensures BodiesOk(b.body, b.succs) && GraphOk(GraphOf(b))
  {
  }

  // ----- one after the other -----

  /** What is done after a statement is done from its start. */
  lemma DoneTrans(b: Builder, b1: Builder, b2: Builder, reserved: set<Block>, pending: set<Block>)
    requires KeysOk(b) && StmtDone(b, b1, reserved, pending) && StmtDone(b1, b2, reserved, pending)
    ensures StmtDone(b, b2, reserved, pending)
  {
    hide Sane, Grew, IsOpen, LoopsOk;
    GrewFixed(b, b1, b.insert, JumpTargets(b));
    assert JumpTargets(b1) == JumpTargets(b);
    hide JumpTargets;
    GrewTrans(b, b1, b2, b.insert, b1.insert, JumpTargets(b), JumpTargets(b));
  }

  lemma DoneIsReady(b: Builder, b1: Builder, reserved: set<Block>, pending: set<Block>)
    requires StmtReady(b, reserved, pending) && StmtDone(b, b1, reserved, pending) && IsOpen(b1, b1.insert)
    ensures StmtReady(b1, reserved, pending)
  {
    hide Sane, Grew, IsOpen, LoopsOk;
    LoopsKept(b, b1, b.insert, JumpTargets(b), reserved, reserved);
  }

  lemma DeclDone(b: Builder, v: nat, init: Option<nat>, reserved: set<Block>, pending: set<Block>)
    requires StmtReady(b, reserved, pending)
    ensures StmtDone(b, LowerDecl(b, v, init), reserved, pending)
  {
    hide StmtReady, StmtDone, Hoist, Emit;
    ReadyKeys(b, reserved, pending);
    HoistDone(b, v, reserved, pending);
    if init.Some? {
      EmitDone(Hoist(b, v), Expr(init.value), reserved, pending);
      DoneTrans(b, Hoist(b, v), Emit(Hoist(b, v), Do(Expr(init.value))), reserved, pending);
    }
  }

  lemma ReadyKeys(b: Builder, reserved: set<Block>, pending: set<Block>)
    requires StmtReady(b, reserved, pending)
    ensures KeysOk(b)
  {
    hide LoopsOk, IsOpen;
    SaneParts(b, reserved, pending);
  }

  lemma ReturnStmtDone(b: Builder, value: Option<nat>, reserved: set<Block>, pending: set<Block>)
    requires StmtReady(b, reserved, pending)
    ensures StmtDone(b, LowerReturn(b, value), reserved, pending)
  {
    hide StmtReady, StmtDone, Emit, Br;
    ReadyKeys(b, reserved, pending);
    if value.Some? {
      var b1 := Emit(b, Do(Expr(value.value)));
      EmitDone(b, Expr(value.value), reserved, pending);
      ReadyKeys(b1, reserved, pending);
      var b2 := Emit(b1, Do(StoreRet));
      EmitDone(b1, StoreRet, reserved, pending);
      ReturnDone(b2, reserved, pending);
      DoneTrans(b1, b2, Br(b2, b2.ret), reserved, pending);
      DoneTrans(b, b1, Br(b2, b2.ret), reserved, pending);
    } else {
      ReturnDone(b, reserved, pending);
    }
  }

  // ----- a test and its branch -----

  ghost predicate TestDone(b: Builder, b': Builder, t: Block, f: Block, reserved: set<Block>, pending: set<Block>) {
    && Sane(b', reserved, pending - {t, f}) && !IsOpen(b', b'.insert)
    && Grew(b, b', b.insert, {t, f}) && SameStacks(b, b') && b'.curList == b.curList && Moved(b, b')
    && HasPath(GraphOf(b'), b.insert, f)
  }

  lemma LowerTestDone(b: Builder, c: Cond, t: Block, f: Block, reserved: set<Block>, pending: set<Block>)
    requires Sane(b, reserved, pending) && IsOpen(b, b.insert) && t in reserved && f in reserved
    ensures TestDone(b, LowerTest(b, c, t, f), t, f, reserved, pending)
  {
    hide Sane, Grew, IsOpen, HasPath, LowerCond, CondBr;
    SaneParts(b, reserved, pending);
    var b0 := b.(orStack := b.orStack + [Targets(t, f)]);
    StacksSane(b, b0, reserved, pending);
    OpenSame(b, b0);
    LowerCondDone(b0, c, reserved, pending);
    var b1 := LowerCond(b0, c);
    var b2 := b1.(orStack := Pop(b1.orStack));
    StacksSane(b1, b2, reserved, pending);
    OpenSame(b1, b2);
    SaneParts(b2, reserved, pending);
    CondBrSane(b2, t, f, reserved, pending);
    CondBrKeeps(b2, t, f);
    assert b2.orStack == b.orStack;
    GrewTest(b, b0, b1, b2, t, f, reserved, pending);
    PathKept(GraphOf(b2), GraphOf(CondBr(b2, t, f)), b.insert, b2.insert);
    PathJoined(GraphOf(CondBr(b2, t, f)), b.insert, b2.insert, f);
  }

  lemma GrewTest(b: Builder, b0: Builder, b1: Builder, b2: Builder, t: Block, f: Block, reserved: set<Block>,
                 pending: set<Block>)
    requires KeysOk(b) && b0 == b.(orStack := b0.orStack) && Grew(b0, b1, b0.insert, {t, f}) && Moved(b0, b1)
    requires b2 == b1.(orStack := b2.orStack) && Sane(b2, reserved, pending)
    ensures Grew(b, CondBr(b2, t, f), b.insert, {t, f})
  {
    hide Grew, CondBr, Sane;
    SaneParts(b2, reserved, pending);
    GrewSame(b, b0, b.insert);
    GrewMore(b, b0, b.insert, {}, {t, f});
    GrewTrans(b, b0, b1, b.insert, b.insert, {t, f}, {t, f});
    GrewSame(b1, b2, b.insert);
    GrewTrans(b, b1, b2, b.insert, b.insert, {t, f}, {});
    GrewCondBr(b2, t, f);
    GrewTrans(b, b2, CondBr(b2, t, f), b.insert, b2.insert, {t, f}, {t, f});
  }

  // ----- three new blocks -----

  ghost predicate Started(b: Builder, b': Builder, reserved: set<Block>, pending: set<Block>) {
    && Sane(b', reserved, pending) && Grew(b, b', b.insert, {})
    && SameStacks(b, b') && b'.curList == b.curList && b'.insert == b.insert
    && (IsOpen(b', b'.insert) <==> IsOpen(b, b.insert))
  }

  lemma StartedNext(b: Builder, b1: Builder, reserved: set<Block>, pending: set<Block>)
    requires KeysOk(b) && Started(b, b1, reserved, pending)
    ensures Started(b, NewBlock(b1), reserved + {b1.next}, pending + {b1.next}) && Isolated(NewBlock(b1), b1.next)
    ensures b1.next !in b1.body && b1.next !in b.body && NewBlock(b1).next == b1.next + 1
  {
    hide Sane, Grew;
    SaneParts(b1, reserved, pending);
    NewBlockSane(b1, reserved, pending);
    StillOpen(b1);
    GrewNewBlock(b1, b.insert);
    GrewTrans(b, b1, NewBlock(b1), b.insert, b.insert, {}, {});
    GrewFixed(b, b1, b.insert, {});
  }

  lemma IsolatedKept(b: Builder, y: Block)
    requires Isolated(b, y) && b.next !in b.body
    ensures Isolated(NewBlock(b), y)
  {
  }

  function WithThree(s: set<Block>, x: Block, y: Block, z: Block): set<Block> {
    s + {x} + {y} + {z}
  }

  lemma StartIfDone(b: Builder, x: Block, y: Block, z: Block, reserved: set<Block>, pending: set<Block>)
    requires Sane(b, reserved, pending) && x == b.next && y == x + 1 && z == y + 1
    ensures Started(b, StartIf(b), WithThree(reserved, x, y, z), WithThree(pending, x, y, z))
    ensures x !in b.body && y !in b.body && z !in b.body
    ensures Isolated(StartIf(b), x) && Isolated(StartIf(b), y) && Isolated(StartIf(b), z)
  {
    hide Sane, Grew, Isolated, Started, NewBlock;
    var b1 := NewBlock(b);
    var b2 := NewBlock(b1);
    SaneParts(b, reserved, pending);
    StartedHere(b, reserved, pending);
    StartedNext(b, b, reserved, pending);
    var r1, p1 := reserved + {x}, pending + {x};
    StartedNext(b, b1, r1, p1);
    var r2, p2 := r1 + {y}, p1 + {y};
    StartedNext(b, b2, r2, p2);
    IsolatedKept(b1, x);
    IsolatedKept(b2, x);
    IsolatedKept(b2, y);
  }

  lemma StartedHere(b: Builder, reserved: set<Block>, pending: set<Block>)
    requires Sane(b, reserved, pending)
    ensures Started(b, b, reserved, pending)
  {
    hide Sane, Grew;
    GrewSame(b, b, b.insert);
  }

  // ----- a branch or a loop body -----

  /** In the middle of a compound statement that began with `b`: the insertion block has ended. */
  ghost predicate Midway(b: Builder, b1: Builder, reserved: set<Block>, pending: set<Block>) {
    && Sane(b1, reserved, pending) && !IsOpen(b1, b1.insert) && Grew(b, b1, b.insert, JumpTargets(b))
    && b1.orStack == b.orStack && b1.curList == Pop(b.curList)
  }

  lemma PartOpens(b: Builder, b1: Builder, x: Block, reserved: set<Block>, pending: set<Block>)
    requires KeysOk(b) && Midway(b, b1, reserved, pending) && x in reserved && x !in pending && x != b1.ret
             && LoopsOk(b1, reserved - {x})
    ensures StmtReady(OpenPart(b1, x), reserved - {x}, pending)
    ensures Grew(b, OpenPart(b1, x), b.insert, JumpTargets(b))
    ensures OpenPart(b1, x).insert == x && Pop(OpenPart(b1, x).curList) == Pop(b.curList)
            && JumpTargets(OpenPart(b1, x)) == JumpTargets(b1)
  {
    hide Sane, Grew, IsOpen, HasPath;
    MoveSane(b1, x, reserved, pending);
    var b2 := OpenPart(b1, x);
    StacksSane(SetInsert(b1, x), b2, reserved - {x}, pending);
    OpenSame(SetInsert(b1, x), b2);
    GrewSame(b1, b2, b.insert);
    GrewTrans(b, b1, b2, b.insert, b.insert, JumpTargets(b), {});
    assert Pop(b1.curList + [x]) == b1.curList;
  }

  lemma PartCloses(b2: Builder, b3: Builder, to: Block, o: Block, reserved: set<Block>, pending: set<Block>)
    requires StmtReady(b2, reserved, pending) && StmtDone(b2, b3, reserved, pending)
    requires to in b3.body && to != b3.entry && o in reserved && HasPath(GraphOf(b3), to, o)
    ensures Sane(ClosePart(b3, to), reserved, pending) && !IsOpen(ClosePart(b3, to), ClosePart(b3, to).insert)
    ensures Grew(b2, ClosePart(b3, to), b2.insert, JumpTargets(b2) + {to})
    ensures SameStacks(b2, ClosePart(b3, to)) && ClosePart(b3, to).curList == Pop(b2.curList)
  {
    hide Sane, Grew, IsOpen, HasPath, LoopsOk, JumpTargets, Br;
    SaneParts(b2, reserved, pending);
    SaneParts(b3, reserved, pending);
    var b4 := BrIfOpen(b3, to);
    OpenMeans(b3);
    GrewMore(b2, b3, b2.insert, JumpTargets(b2), JumpTargets(b2) + {to});
    if IsOpen(b3, b3.insert) {
      BrSane(b3, to, o, reserved, pending);
      SaneWeaker(b4, reserved, pending - {to}, pending);
      GrewBr(b3, to);
      GrewTrans(b2, b3, b4, b2.insert, b3.insert, JumpTargets(b2) + {to}, {to});
      BrKeeps(b3, to);
    }
    StacksSane(b4, PopCur(b4), reserved, pending);
    OpenSame(b4, PopCur(b4));
    GrewSame(b4, PopCur(b4), b2.insert);
    GrewTrans(b2, b4, PopCur(b4), b2.insert, b2.insert, JumpTargets(b2) + {to}, {});
  }

  lemma OpenMeans(b: Builder)
    requires b.insert in b.body
    ensures IsOpen(b, b.insert) <==> !Terminated(At(b.body, b.insert))
  {
  }

  lemma BrKeeps(b: Builder, t: Block)
    ensures SameStacks(b, Br(b, t)) && Br(b, t).curList == b.curList && Br(b, t).insert == b.insert
  {
  }

  /** From the start of the compound statement to the end of a part. */
  lemma PartDone(b: Builder, b2: Builder, b4: Builder, to: Block, reserved: set<Block>, pending: set<Block>)
    requires KeysOk(b) && Grew(b, b2, b.insert, JumpTargets(b)) && Pop(b2.curList) == Pop(b.curList)
             && b2.orStack == b.orStack && b2.insert !in b.body
    requires Sane(b4, reserved, pending) && !IsOpen(b4, b4.insert) && Grew(b2, b4, b2.insert, JumpTargets(b2) + {to})
    requires SameStacks(b2, b4) && b4.curList == Pop(b2.curList)
    requires forall z :: z in JumpTargets(b2) + {to} ==> z in JumpTargets(b) || z !in b.body
    ensures Midway(b, b4, reserved, pending) && b4.whileStack == b2.whileStack
  {
    hide Sane, Grew, IsOpen, JumpTargets;
    GrewTrans(b, b2, b4, b.insert, b2.insert, JumpTargets(b), JumpTargets(b2) + {to});
  }

  // ----- the end of an if -----

  /** What leads somewhere has ended, so it is not pending. */
  lemma SourceHasEnded(b: Builder, n: Block, z: Block, reserved: set<Block>, pending: set<Block>)
    requires Sane(b, reserved, pending) && n in b.preds && z in b.preds[n]
    ensures z in b.body && z !in pending && z in b.succs && n in b.succs && n in b.succs[z]
  {
    hide Linked, ListOk, SetsOk, Balanced;
    SaneParts(b, reserved, pending);
    assert z in b.succs && n in b.succs[z];
    assert BlockOk(b.body[z], b.succs[z]);
  }

  /** A block something leads to is reached. */
  lemma LedToIsReached(b: Builder, n: Block, reserved: set<Block>, pending: set<Block>)
    requires Sane(b, reserved, pending) && n in b.preds && b.preds[n] != []
    ensures Sane(b, reserved, pending - {n})
  {
    hide HasPath, Shape, OpenSet, ReachesOpen;
    var z := b.preds[n][0];
    SourceHasEnded(b, n, z, reserved, pending);
    PathOfEdge(GraphOf(b), z, n);
    PathJoined(GraphOf(b), b.entry, z, n);
  }

  lemma OpenHasNoEdges(b: Builder, n: Block, reserved: set<Block>, pending: set<Block>)
    requires Sane(b, reserved, pending) && n in reserved && n in b.preds && b.preds[n] == []
    ensures Isolated(b, n)
  {
    hide Linked, GraphOk, ListOk, SetsOk;
    SaneParts(b, reserved, pending);
    assert IsOpen(b, n);
    assert BlockOk(b.body[n], b.succs[n]);
  }

  ghost predicate IfEnds(b: Builder, b5: Builder, n: Block, reserved: set<Block>, pending: set<Block>) {
    && KeysOk(b) && Sane(b, reserved, pending) && Midway(b, b5, reserved + {n}, pending + {n})
    && b5.whileStack == b.whileStack && b.curList != []
    && n !in b.body && n !in reserved
  }

  lemma CloseIfErased(b: Builder, b5: Builder, trueBB: Block, n: Block, reserved: set<Block>, pending: set<Block>)
    requires IfEnds(b, b5, n, reserved, pending) && trueBB in b5.body && !IsOpen(b5, trueBB) && trueBB !in b.body
    requires n in b5.preds && b5.preds[n] == []
    ensures StmtDone(b, Erase(SetInsert(OpenPart(b5, n), trueBB), n), reserved, pending)
  {
    hide Sane, Grew, IsOpen, JumpTargets, HasPath, Isolated, Erase, GraphOk, BodiesOk;
    SaneParts(b, reserved, pending);
    SaneParts(b5, reserved + {n}, pending + {n});
    GrewFixed(b, b5, b.insert, JumpTargets(b));
    assert reserved + {n} - {n} == reserved;
    assert pending + {n} - {n} == pending;
    MoveBackSane(b5, trueBB, reserved + {n}, pending + {n});
    var b7 := SetInsert(OpenPart(b5, n), trueBB);
    StacksSane(SetInsert(b5, trueBB), b7, reserved + {n}, pending + {n});
    OpenHasNoEdges(b7, n, reserved + {n}, pending + {n});
    EraseSane(b7, n, reserved + {n}, pending + {n});
    GrewSame(b5, b7, b.insert);
    GrewTrans(b, b5, b7, b.insert, b.insert, JumpTargets(b), {});
    BodiesOf(b, reserved, pending);
    GrewErase(b, b7, b.insert, JumpTargets(b), n);
    OpenSameBody(b5, b7, trueBB);
    ErasedClosed(b7, n, trueBB);
    assert Pop(b5.curList + [n]) == b5.curList;
  }

  lemma OpenSameBody(b: Builder, b': Builder, x: Block)
    requires b'.body == b.body
    ensures IsOpen(b', x) <==> IsOpen(b, x)
  {
  }

  lemma CloseIfStays(b: Builder, b5: Builder, n: Block, reserved: set<Block>, pending: set<Block>)
    requires IfEnds(b, b5, n, reserved, pending) && n in b5.preds && b5.preds[n] != []
    ensures StmtDone(b, OpenPart(b5, n), reserved, pending)
  {
    hide Sane, Grew, IsOpen, JumpTargets, HasPath;
    SaneParts(b, reserved, pending);
    SaneParts(b5, reserved + {n}, pending + {n});
    GrewFixed(b, b5, b.insert, JumpTargets(b));
    assert reserved + {n} - {n} == reserved;
    assert pending + {n} - {n} == pending;
    var b6 := OpenPart(b5, n);
    LedToIsReached(b5, n, reserved + {n}, pending + {n});
    MoveSane(b5, n, reserved + {n}, pending);
    StacksSane(SetInsert(b5, n), b6, reserved, pending);
    GrewSame(b5, b6, b.insert);
    GrewTrans(b, b5, b6, b.insert, b.insert, JumpTargets(b), {});
    assert Pop(b5.curList + [n]) == b5.curList;
  }

  /** The block behind the `if` goes on the list, or goes away if nothing leads to it. */
  lemma CloseIfDone(b: Builder, b5: Builder, trueBB: Block, n: Block, reserved: set<Block>, pending: set<Block>)
    requires IfEnds(b, b5, n, reserved, pending) && trueBB in b5.body && !IsOpen(b5, trueBB) && trueBB !in b.body
    ensures StmtDone(b, CloseIf(b5, trueBB, n), reserved, pending)
  {
    hide Sane, Grew, IsOpen, JumpTargets, HasPath, StmtDone, Erase;
    SaneParts(b5, reserved + {n}, pending + {n});
    if b5.preds[n] == [] {
      CloseIfErased(b, b5, trueBB, n, reserved, pending);
    } else {
      CloseIfStays(b, b5, n, reserved, pending);
    }
  }

  lemma ErasedClosed(b: Builder, n: Block, x: Block)
    requires !IsOpen(b, x)
    ensures !IsOpen(Erase(b, n), x) && SameStacks(b, Erase(b, n)) && Erase(b, n).curList == b.curList
            && Erase(b, n).insert == b.insert
  {
  }

  // ----- compound statements, one step down -----

  lemma LoweredIf(b: Builder, c: Cond, first: Stmt, t: Block, f: Block, n: Block)
    requires t == b.next && f == t + 1 && n == f + 1
    ensures var b1 := PopCur(LowerTest(StartIf(b), c, t, n));
            LowerStmt(b, If(c, first)) == CloseIf(Erase(ClosePart(LowerStmt(OpenPart(b1, t), first), n), f), t, n)
  {
    hide LowerTest, StartIf, StartWhile, ClosePart, OpenPart, CloseIf, Erase, LowerDecl, LowerReturn, LowerList, Emit,
         Br, PopCur, Top, Pop;
  }

  lemma LoweredIfElse(b: Builder, c: Cond, first: Stmt, second: Stmt, t: Block, f: Block, n: Block)
    requires t == b.next && f == t + 1 && n == f + 1
    ensures var b1 := PopCur(LowerTest(StartIf(b), c, t, f)); var b2 := ClosePart(LowerStmt(OpenPart(b1, t), first), n);
            LowerStmt(b, IfElse(c, first, second)) == CloseIf(ClosePart(LowerStmt(OpenPart(b2, f), second), n), t, n)
  {
    hide LowerTest, StartIf, StartWhile, ClosePart, OpenPart, CloseIf, Erase, LowerDecl, LowerReturn, LowerList, Emit,
         Br, PopCur, Top, Pop;
  }

  function AfterLoop(b: Builder, n: Block): Builder {
    var b5 := OpenPart(b, n);
    b5.(whileStack := Pop(b5.whileStack))
  }

  lemma LoweredWhile(b: Builder, c: Cond, loop: Stmt, w: Block, t: Block, n: Block)
    requires w == b.next && t == w + 1 && n == t + 1
    ensures LowerStmt(b, While(c, loop))
            == AfterLoop(ClosePart(LowerStmt(OpenPart(LowerTest(StartWhile(b), c, t, n), t), loop), w), n)
  {
    hide LowerTest, StartIf, StartWhile, ClosePart, OpenPart, CloseIf, Erase, LowerDecl, LowerReturn, LowerList, Emit,
         Br, PopCur, Top, Pop;
  }

  lemma AfterLoopIs(b: Builder, n: Block)
    ensures AfterLoop(b, n).body == b.body && AfterLoop(b, n).insert == n
  {
  }

  // ----- the cases of the induction -----

  lemma SameJumps(b: Builder, b': Builder)
    requires b'.ret == b.ret && b'.whileStack == b.whileStack
    ensures JumpTargets(b') == JumpTargets(b)
  {
  }

  lemma JumpsAreBlocks(b: Builder, reserved: set<Block>)
    requires LoopsOk(b, reserved) && reserved <= b.body.Keys && b.ret in b.body
    ensures JumpTargets(b) <= b.body.Keys
  {
    forall k | 0 <= k < |b.whileStack|
      ensures b.whileStack[k].yes in b.body && b.whileStack[k].no in b.body
    {
      assert LoopOk(GraphOf(b), b.whileStack[k], reserved, b.body.Keys);
    }
  }

  /** One branch of an `if`, from its block to the block behind. */
  lemma BranchDone(b: Builder, b1: Builder, x: Block, s: Stmt, n: Block, reserved0: set<Block>, reserved: set<Block>,
                   pending: set<Block>)
    requires StmtReady(b, reserved0, pending * reserved0) && Midway(b, b1, reserved, pending)
             && b1.whileStack == b.whileStack
    requires reserved0 <= reserved - {x} && x in reserved && x !in pending && x !in b.body && n in reserved && n != x
             && n !in b.body
    requires WellNested(s, b.whileStack != [])
    ensures Midway(b, ClosePart(LowerStmt(OpenPart(b1, x), s), n), reserved - {x}, pending)
    ensures ClosePart(LowerStmt(OpenPart(b1, x), s), n).whileStack == b.whileStack
    ensures Grew(OpenPart(b1, x), ClosePart(LowerStmt(OpenPart(b1, x), s), n), x, JumpTargets(b) + {n})
    decreases s, 2
  {
    hide Sane, Grew, IsOpen, JumpTargets, HasPath, ClosePart, LoopsOk;
    ReadyKeys(b, reserved0, pending * reserved0);
    SaneParts(b, reserved0, pending * reserved0);
    SaneParts(b1, reserved, pending);
    GrewFixed(b, b1, b.insert, JumpTargets(b));
    LoopsKept(b, b1, b.insert, JumpTargets(b), reserved0, reserved - {x});
    PartOpens(b, b1, x, reserved, pending);
    var b2 := OpenPart(b1, x);
    SameJumps(b, b2);
    LowerStmtDone(b2, s, reserved - {x}, pending);
    var b3 := LowerStmt(b2, s);
    SaneParts(b3, reserved - {x}, pending);
    PathToSelf(GraphOf(b3), n);
    PartCloses(b2, b3, n, n, reserved - {x}, pending);
    PartDone(b, b2, ClosePart(b3, n), n, reserved - {x}, pending);
  }

  /** The three blocks of an `if`, and its test. */
  lemma TestOfIf(b: Builder, c: Cond, t: Block, f: Block, n: Block, no: Block, reserved: set<Block>,
                 pending: set<Block>)
    requires StmtReady(b, reserved, pending) && t == b.next && f == t + 1 && n == f + 1 && no in {f, n}
    ensures var b1 := PopCur(LowerTest(StartIf(b), c, t, no));
            Midway(b, b1, WithThree(reserved, t, f, n), WithThree(pending, t, f, n) - {t, no})
            && b1.whileStack == b.whileStack
            && Grew(StartIf(b), b1, b.insert, {t, no})
    ensures t !in b.body && f !in b.body && n !in b.body && Isolated(StartIf(b), f) && reserved <= b.body.Keys
  {
    hide Sane, Grew, IsOpen, JumpTargets, HasPath, LoopsOk, LowerTest, StartIf, Isolated;
    ReadyKeys(b, reserved, pending);
    SaneParts(b, reserved, pending);
    StartIfDone(b, t, f, n, reserved, pending);
    var b0 := StartIf(b);
    var r0, p0 := WithThree(reserved, t, f, n), WithThree(pending, t, f, n);
    LowerTestDone(b0, c, t, no, r0, p0);
    var b1 := LowerTest(b0, c, t, no);
    StacksSane(b1, PopCur(b1), r0, p0 - {t, no});
    OpenSame(b1, PopCur(b1));
    GrewMore(b, b0, b.insert, {}, JumpTargets(b));
    GrewTrans(b, b0, b1, b.insert, b.insert, JumpTargets(b), {t, no});
    GrewSame(b1, PopCur(b1), b.insert);
    GrewTrans(b, b1, PopCur(b1), b.insert, b.insert, JumpTargets(b), {});
    StartedKeys(b, b0, r0, p0);
    GrewTrans(b0, b1, PopCur(b1), b.insert, b.insert, {t, no}, {});
  }

  lemma StartedKeys(b: Builder, b0: Builder, reserved: set<Block>, pending: set<Block>)
    requires Started(b, b0, reserved, pending)
    ensures b0.body.Keys == b0.preds.Keys
  {
    hide Grew;
    SaneParts(b0, reserved, pending);
  }

  /** Without an `else` the block of the false branch goes away untouched. */
  lemma FalseBlockErased(b: Builder, b4: Builder, t: Block, f: Block, n: Block, reserved: set<Block>,
                         pending: set<Block>)
    requires StmtReady(b, reserved, pending)
             && Midway(b, b4, WithThree(reserved, t, f, n) - {t}, WithThree(pending, t, f, n) - {t, n})
    requires t !in b.body && f !in b.body && n !in b.body && t != f && f != n && t != n && reserved <= b.body.Keys
    requires f in b4.preds && b4.preds[f] == [] && b4.whileStack == b.whileStack && t in b4.body
    ensures IfEnds(b, Erase(b4, f), n, reserved, pending) && t in Erase(b4, f).body && !IsOpen(Erase(b4, f), t)
    ensures HasPath(GraphOf(Erase(b4, f)), Erase(b4, f).entry, n)
  {
    hide Sane, Grew, JumpTargets, HasPath, LoopsOk, Isolated, IsOpen, Balanced;
    var r4, p4 := WithThree(reserved, t, f, n) - {t}, WithThree(pending, t, f, n) - {t, n};
    ReadyKeys(b, reserved, pending);
    SaneParts(b, reserved, pending);
    SaneParts(b4, r4, p4);
    OpenHasNoEdges(b4, f, r4, p4);
    GrewFixed(b, b4, b.insert, JumpTargets(b));
    EraseSane(b4, f, r4, p4);
    BodiesOf(b, reserved, pending);
    GrewErase(b, b4, b.insert, JumpTargets(b), f);
    assert r4 - {f} == reserved + {n};
    assert p4 - {f} == pending;
    SaneParts(Erase(b4, f), reserved + {n}, pending);
    ReachedIn(Erase(b4, f), n, reserved + {n}, pending);
    SaneWeaker(Erase(b4, f), reserved + {n}, pending, pending + {n});
    ErasedClosed(b4, f, b4.insert);
    ClosedOf(b4, t, r4, p4);
    ErasedClosed(b4, f, t);
    ErasedStays(b4, f, t);
  }

  lemma ReachedIn(b: Builder, x: Block, reserved: set<Block>, pending: set<Block>)
    requires Sane(b, reserved, pending) && x in b.body && x !in pending
    ensures HasPath(GraphOf(b), b.entry, x)
  {
    hide HasPath, Shape, SetsOk, ReachesOpen;
  }

  lemma ErasedStays(b: Builder, n: Block, x: Block)
    requires x in b.body && x != n
    ensures x in Erase(b, n).body
  {
  }

  /** Apart from the reserved blocks and the insertion block all are closed. */
  lemma ClosedOf(b: Builder, x: Block, reserved: set<Block>, pending: set<Block>)
    requires Sane(b, reserved, pending) && x in b.body && x !in reserved && !IsOpen(b, b.insert)
    ensures !IsOpen(b, x)
  {
    hide Shape, Linked;
    assert IsOpen(b, x) <==> x in OpenSet(b.body);
    assert IsOpen(b, b.insert) <==> b.insert in OpenSet(b.body);
  }

  lemma IfDone(b: Builder, c: Cond, first: Stmt, reserved: set<Block>, pending: set<Block>)
    requires StmtReady(b, reserved, pending) && WellNested(If(c, first), b.whileStack != [])
    ensures StmtDone(b, LowerStmt(b, If(c, first)), reserved, pending)
    decreases If(c, first), 0
  {
    hide Sane, Grew, IsOpen, JumpTargets, HasPath, LoopsOk, LowerTest, StartIf, StmtReady, StmtDone, Isolated,
         ClosePart, OpenPart, CloseIf, Erase, IfEnds, LowerStmt;
    LoweredIf(b, c, first, b.next, b.next + 1, b.next + 2);
    var t, f, n := b.next, b.next + 1, b.next + 2;
    var r0, p0 := WithThree(reserved, t, f, n), WithThree(pending, t, f, n);
    TestOfIf(b, c, t, f, n, n, reserved, pending);
    ReadyParts(b, reserved, pending);
    var b1 := PopCur(LowerTest(StartIf(b), c, t, n));
    assert (p0 - {t, n}) * reserved == pending;
    BranchDone(b, b1, t, first, n, reserved, r0, p0 - {t, n});
    var b4 := ClosePart(LowerStmt(OpenPart(b1, t), first), n);
    JumpsAreBlocks(b, reserved);
    SaneParts(b1, r0, p0 - {t, n});
    FalseUntouched(b, StartIf(b), b1, b4, t, f, n);
    FalseBlockErased(b, b4, t, f, n, reserved, pending);
    IfEndsMeans(b, Erase(b4, f), n, reserved, pending);
    CloseIfDone(b, Erase(b4, f), t, n, reserved, pending);
  }

  lemma IfEndsMeans(b: Builder, b5: Builder, n: Block, reserved: set<Block>, pending: set<Block>)
    requires IfEnds(b, b5, n, reserved, pending)
    ensures n !in b.body && n !in reserved
  {
  }

  lemma ReadyParts(b: Builder, reserved: set<Block>, pending: set<Block>)
    requires StmtReady(b, reserved, pending)
    ensures Sane(b, reserved, pending) && LoopsOk(b, reserved) && b.curList != [] && KeysOk(b)
            && pending <= reserved <= b.body.Keys
    ensures IsOpen(b, b.insert) && b.ret in reserved
  {
    hide LoopsOk, IsOpen;
    SaneParts(b, reserved, pending);
  }

  lemma FalseUntouched(b: Builder, b0: Builder, b1: Builder, b4: Builder, t: Block, f: Block, n: Block)
    requires Grew(b0, b1, b.insert, {t, n}) && Isolated(b0, f) && f != t && f != n
    requires Grew(OpenPart(b1, t), b4, t, JumpTargets(b) + {n}) && f !in JumpTargets(b) && t in b1.body
    ensures f in b4.preds && b4.preds[f] == [] && t in b4.body
  {
    hide MoreEdges, KeptBody, JumpTargets;
  }

  lemma IfElseDone(b: Builder, c: Cond, first: Stmt, second: Stmt, reserved: set<Block>, pending: set<Block>)
    requires StmtReady(b, reserved, pending) && WellNested(IfElse(c, first, second), b.whileStack != [])
    ensures StmtDone(b, LowerStmt(b, IfElse(c, first, second)), reserved, pending)
    decreases IfElse(c, first, second), 0
  {
    hide Sane, Grew, IsOpen, JumpTargets, HasPath, LoopsOk, LowerTest, StartIf, StmtReady, StmtDone, Isolated,
         ClosePart, OpenPart, CloseIf, Erase, LowerStmt;
    LoweredIfElse(b, c, first, second, b.next, b.next + 1, b.next + 2);
    var t, f, n := b.next, b.next + 1, b.next + 2;
    var r0, p0 := WithThree(reserved, t, f, n), WithThree(pending, t, f, n);
    TestOfIf(b, c, t, f, n, f, reserved, pending);
    ReadyParts(b, reserved, pending);
    var b1 := PopCur(LowerTest(StartIf(b), c, t, f));
    var p1 := p0 - {t, f};
    assert p1 == pending + {n};
    assert p1 * reserved == pending;
    BranchDone(b, b1, t, first, n, reserved, r0, p1);
    var b2 := ClosePart(LowerStmt(OpenPart(b1, t), first), n);
    BranchDone(b, b2, f, second, n, reserved, r0 - {t}, p1);
    var b3 := ClosePart(LowerStmt(OpenPart(b2, f), second), n);
    assert r0 - {t} - {f} == reserved + {n};
    SaneParts(b1, r0, p1);
    GrewFixed(OpenPart(b1, t), b2, t, JumpTargets(b) + {n});
    GrewFixed(OpenPart(b2, f), b3, f, JumpTargets(b) + {n});
    PartBody(b1, t);
    PartBody(b2, f);
    ClosedOf(b3, t, reserved + {n}, p1);
    CloseIfDone(b, b3, t, n, reserved, pending);
  }

  lemma PartBody(b: Builder, x: Block)
    ensures OpenPart(b, x).body == b.body
  {
  }

  // ----- loops -----

  /** The jump to the test, and the test's block as insertion block. */
  lemma StartWhileDone(b: Builder, w: Block, t: Block, n: Block, reserved: set<Block>, pending: set<Block>)
    requires StmtReady(b, reserved, pending) && w == b.next && t == w + 1 && n == t + 1
    ensures var b1 := StartWhile(b);
            Sane(b1, reserved + {t} + {n}, pending + {t} + {n}) && IsOpen(b1, b1.insert) && b1.insert == w
            && Grew(b, b1, b.insert, {}) && b1.orStack == b.orStack && b1.whileStack == b.whileStack + [Targets(w, n)]
            && b1.curList == Pop(b.curList)
    ensures w !in b.body && t !in b.body && n !in b.body
  {
    hide Sane, Grew, IsOpen, HasPath, LoopsOk, StartIf, Br, Isolated;
    ReadyKeys(b, reserved, pending);
    SaneParts(b, reserved, pending);
    StartIfDone(b, w, t, n, reserved, pending);
    var r0, p0 := WithThree(reserved, w, t, n), WithThree(pending, w, t, n);
    var b0 := StartIf(b).(whileStack := b.whileStack + [Targets(w, n)]);
    assert StartIf(b) == NewBlock(NewBlock(NewBlock(b))) by { ThreeBlocks(b); }
    StacksSane(StartIf(b), b0, r0, p0);
    OpenSame(StartIf(b), b0);
    SaneParts(b0, r0, p0);
    OpenMeans(b0);
    PathToSelf(GraphOf(b0), w);
    BrSane(b0, w, w, r0, p0);
    BrKeeps(b0, w);
    var b2 := PopCur(Br(b0, w));
    StacksSane(Br(b0, w), b2, r0, p0 - {w});
    OpenSame(Br(b0, w), b2);
    BrFixed(b0, w);
    MoveSane(b2, w, r0, p0 - {w});
    assert r0 - {w} == reserved + {t} + {n};
    assert p0 - {w} == pending + {t} + {n};
    GrewStart(b, b0, w);
  }

  lemma ThreeBlocks(b: Builder)
    ensures StartIf(b) == NewBlock(NewBlock(NewBlock(b)))
  {
  }

  lemma BrFixed(b: Builder, t: Block)
    ensures Br(b, t).ret == b.ret && Br(b, t).entry == b.entry
  {
  }

  lemma GrewStart(b: Builder, b0: Builder, w: Block)
    requires KeysOk(b) && b0 == StartIf(b).(whileStack := b0.whileStack) && Grew(b, StartIf(b), b.insert, {})
             && KeysOk(b0)
    requires b0.insert == b.insert && w !in b.body
    ensures Grew(b, SetInsert(PopCur(Br(b0, w)), w), b.insert, {})
  {
    hide Grew, Br, StartIf;
    GrewSame(StartIf(b), b0, b.insert);
    GrewTrans(b, StartIf(b), b0, b.insert, b.insert, {}, {});
    GrewBr(b0, w);
    GrewTrans(b, b0, Br(b0, w), b.insert, b.insert, {}, {w});
    GrewSame(Br(b0, w), SetInsert(PopCur(Br(b0, w)), w), b.insert);
    GrewTrans(b, Br(b0, w), SetInsert(PopCur(Br(b0, w)), w), b.insert, b.insert, {}, {});
  }

  /** After the test, with the loop on the stack. */
  ghost predicate Looping(b: Builder, b1: Builder, w: Block, t: Block, n: Block, reserved: set<Block>,
                          pending: set<Block>)
  {
    && Midway(b, b1, reserved + {t} + {n}, pending) && LoopsOk(b1, reserved + {n})
    && b1.whileStack == b.whileStack + [Targets(w, n)]
    && HasPath(GraphOf(b1), w, n) && w in b1.body
    && w !in b.body && t !in b.body && n !in b.body
  }

  lemma TestOfWhile(b: Builder, c: Cond, w: Block, t: Block, n: Block, reserved: set<Block>, pending: set<Block>)
    requires StmtReady(b, reserved, pending) && w == b.next && t == w + 1 && n == t + 1
    ensures Looping(b, LowerTest(StartWhile(b), c, t, n), w, t, n, reserved, pending)
  {
    hide Sane, Grew, IsOpen, HasPath, LoopsOk, JumpTargets, StartWhile, LowerTest;
    ReadyParts(b, reserved, pending);
    StartWhileDone(b, w, t, n, reserved, pending);
    var b0 := StartWhile(b);
    var r, p := reserved + {t} + {n}, pending + {t} + {n};
    LowerTestDone(b0, c, t, n, r, p);
    var b1 := LowerTest(b0, c, t, n);
    SaneParts(b0, r, p);
    SaneParts(b1, r, p - {t, n});
    assert p - {t, n} == pending;
    GrewMore(b, b0, b.insert, {}, JumpTargets(b));
    GrewTrans(b, b0, b1, b.insert, w, JumpTargets(b), {t, n});
    GrewFixed(b0, b1, w, {t, n});
    GrewFixed(b, b1, b.insert, JumpTargets(b));
    LoopPushed(b, b1, w, n, reserved);
  }

  lemma LoopPushed(b: Builder, b1: Builder, w: Block, n: Block, reserved: set<Block>)
    requires LoopsOk(b, reserved) && Grew(b, b1, b.insert, JumpTargets(b))
             && b1.whileStack == b.whileStack + [Targets(w, n)]
    requires w in b1.body && w != b1.entry && HasPath(GraphOf(b1), w, n)
    ensures LoopsOk(b1, reserved + {n})
  {
    hide HasPath, Frame, PredsKept, MoreEdges, JumpTargets;
    GrewFixed(b, b1, b.insert, JumpTargets(b));
    forall k | 0 <= k < |b1.whileStack|
      ensures LoopOk(GraphOf(b1), b1.whileStack[k], reserved + {n}, b1.body.Keys)
    {
      if k < |b.whileStack| {
        assert LoopOk(GraphOf(b), b.whileStack[k], reserved, b.body.Keys);
        PathKept(GraphOf(b), GraphOf(b1), b.whileStack[k].yes, b.whileStack[k].no);
      }
    }
  }

  lemma JumpsPushed(b: Builder, b2: Builder, w: Block, n: Block, z: Block)
    requires b2.whileStack == b.whileStack + [Targets(w, n)] && b2.ret == b.ret && z in JumpTargets(b2)
    ensures z in JumpTargets(b) || z == w || z == n
  {
  }

  /** The loop's body, and the jump back to the test. */
  lemma LoopDone(b: Builder, b1: Builder, loop: Stmt, w: Block, t: Block, n: Block, reserved: set<Block>,
                 pending: set<Block>)
    requires StmtReady(b, reserved, pending) && Looping(b, b1, w, t, n, reserved, pending) && t != n && w != n
             && WellNested(loop, true)
    ensures var b4 := ClosePart(LowerStmt(OpenPart(b1, t), loop), w);
            Midway(b, b4, reserved + {n}, pending) && b4.whileStack == b.whileStack + [Targets(w, n)]
    decreases loop, 2
  {
    hide Sane, Grew, IsOpen, JumpTargets, HasPath, ClosePart, LoopsOk;
    ReadyParts(b, reserved, pending);
    var r := reserved + {t} + {n};
    SaneParts(b1, r, pending);
    GrewFixed(b, b1, b.insert, JumpTargets(b));
    assert r - {t} == reserved + {n};
    PartOpens(b, b1, t, r, pending);
    var b2 := OpenPart(b1, t);
    LowerStmtDone(b2, loop, reserved + {n}, pending);
    var b3 := LowerStmt(b2, loop);
    GrewFixed(b2, b3, t, JumpTargets(b2));
    SaneParts(b3, reserved + {n}, pending);
    LoopCloses(b, b1, b2, b3, w, t, n, reserved, pending);
  }

  lemma LoopTargets(b: Builder, b2: Builder, w: Block, n: Block)
    requires b2.whileStack == b.whileStack + [Targets(w, n)] && b2.ret == b.ret && w !in b.body && n !in b.body
    ensures forall z :: z in JumpTargets(b2) + {w} ==> z in JumpTargets(b) || z !in b.body
  {
    forall z | z in JumpTargets(b2) + {w}
      ensures z in JumpTargets(b) || z !in b.body
    {
      if z in JumpTargets(b2) {
        JumpsPushed(b, b2, w, n, z);
      }
    }
  }

  lemma LoopCloses(b: Builder, b1: Builder, b2: Builder, b3: Builder, w: Block, t: Block, n: Block,
                   reserved: set<Block>, pending: set<Block>)
    requires KeysOk(b) && Looping(b, b1, w, t, n, reserved, pending) && b2 == OpenPart(b1, t) && b1.ret == b.ret
    requires StmtReady(b2, reserved + {n}, pending) && StmtDone(b2, b3, reserved + {n}, pending)
    requires Grew(b, b2, b.insert, JumpTargets(b)) && Pop(b2.curList) == Pop(b.curList) && w != b3.entry && w in b3.body
    ensures Midway(b, ClosePart(b3, w), reserved + {n}, pending)
            && ClosePart(b3, w).whileStack == b.whileStack + [Targets(w, n)]
  {
    hide Sane, Grew, IsOpen, JumpTargets, HasPath, ClosePart, LoopsOk, CurKept;
    GrewPath(b2, b3, t, JumpTargets(b2), w, n);
    PartCloses(b2, b3, w, n, reserved + {n}, pending);
    LoopTargets(b, b2, w, n);
    PartDone(b, b2, ClosePart(b3, w), w, reserved + {n}, pending);
  }

  lemma GrewPath(b: Builder, b': Builder, x: Block, targets: set<Block>, y: Block, z: Block)
    requires Grew(b, b', x, targets) && HasPath(GraphOf(b), y, z)
    ensures HasPath(GraphOf(b'), y, z)
  {
    hide Frame, PredsKept, MoreEdges, HasPath;
    PathKept(GraphOf(b), GraphOf(b'), y, z);
  }

  lemma WhileDone(b: Builder, c: Cond, loop: Stmt, reserved: set<Block>, pending: set<Block>)
    requires StmtReady(b, reserved, pending) && WellNested(While(c, loop), b.whileStack != [])
    ensures StmtDone(b, LowerStmt(b, While(c, loop)), reserved, pending)
    decreases While(c, loop), 0
  {
    hide Sane, Grew, IsOpen, JumpTargets, HasPath, LoopsOk, LowerTest, StartWhile, StmtReady, ClosePart, LowerStmt;
    LoweredWhile(b, c, loop, b.next, b.next + 1, b.next + 2);
    var w, t, n := b.next, b.next + 1, b.next + 2;
    ReadyParts(b, reserved, pending);
    TestOfWhile(b, c, w, t, n, reserved, pending);
    var b1 := LowerTest(StartWhile(b), c, t, n);
    LoopDone(b, b1, loop, w, t, n, reserved, pending);
    var b4 := ClosePart(LowerStmt(OpenPart(b1, t), loop), w);
    BehindLoop(b, b4, w, n, reserved, pending);
  }

  /** The block behind the loop becomes the insertion block. */
  lemma BehindLoop(b: Builder, b4: Builder, w: Block, n: Block, reserved: set<Block>, pending: set<Block>)
    requires StmtReady(b, reserved, pending) && Midway(b, b4, reserved + {n}, pending)
             && b4.whileStack == b.whileStack + [Targets(w, n)]
    requires n !in b.body
    ensures var b5 := OpenPart(b4, n); StmtDone(b, b5.(whileStack := Pop(b5.whileStack)), reserved, pending)
  {
    hide Sane, Grew, IsOpen, JumpTargets, HasPath, LoopsOk, StmtReady;
    ReadyParts(b, reserved, pending);
    SaneParts(b4, reserved + {n}, pending);
    GrewFixed(b, b4, b.insert, JumpTargets(b));
    assert reserved + {n} - {n} == reserved;
    MoveSane(b4, n, reserved + {n}, pending);
    var b5 := OpenPart(b4, n);
    var b6 := b5.(whileStack := Pop(b5.whileStack));
    StacksSane(SetInsert(b4, n), b6, reserved, pending);
    GrewSame(b4, b6, b.insert);
    GrewTrans(b, b4, b6, b.insert, b.insert, JumpTargets(b), {});
    assert Pop(b4.curList + [n]) == b4.curList;
    assert Pop(b.whileStack + [Targets(w, n)]) == b.whileStack;
  }

  // ----- all statements -----

  /** The rest of a list, once its first statement is done and has not ended the block. */
  lemma RestDone(b: Builder, b1: Builder, b2: Builder, reserved: set<Block>, pending: set<Block>)
    requires StmtReady(b, reserved, pending) && StmtDone(b, b1, reserved, pending)
             && StmtDone(b1, b2, reserved, pending)
    ensures StmtDone(b, b2, reserved, pending)
  {
    hide StmtReady, StmtDone;
    ReadyKeys(b, reserved, pending);
    DoneTrans(b, b1, b2, reserved, pending);
  }

  lemma NotEnded(b: Builder, b1: Builder, reserved: set<Block>, pending: set<Block>)
    requires StmtReady(b, reserved, pending) && StmtDone(b, b1, reserved, pending)
             && !Terminated(At(b1.body, b1.insert))
    ensures StmtReady(b1, reserved, pending) && b1.whileStack == b.whileStack
  {
    hide StmtReady, StmtDone;
    DoneFacts(b, b1, reserved, pending);
    OpenMeans(b1);
    DoneIsReady(b, b1, reserved, pending);
  }

  lemma {:induction false} LowerListDone(b: Builder, body: seq<Stmt>, reserved: set<Block>, pending: set<Block>)
    requires StmtReady(b, reserved, pending) && WellNestedAll(body, b.whileStack != [])
    ensures StmtDone(b, LowerList(b, body), reserved, pending)
    decreases body, 1
  {
    hide StmtReady, StmtDone, LowerStmt, WellNested, Terminated, At;
    if body == [] {
      NothingDone(b, reserved, pending);
    } else {
      var b1 := LowerStmt(b, body[0]);
      LowerStmtDone(b, body[0], reserved, pending);
      if !Terminated(At(b1.body, b1.insert)) {
        NotEnded(b, b1, reserved, pending);
        LowerListDone(b1, body[1..], reserved, pending);
        RestDone(b, b1, LowerList(b1, body[1..]), reserved, pending);
      }
    }
  }

  lemma DoneFacts(b: Builder, b1: Builder, reserved: set<Block>, pending: set<Block>)
    requires StmtDone(b, b1, reserved, pending)
    ensures b1.insert in b1.body && b1.whileStack == b.whileStack && Sane(b1, reserved, pending)
  {
    hide Sane, Grew, JumpTargets;
    SaneParts(b1, reserved, pending);
  }

  /** Lowering any well-nested statement keeps the function in shape, fills no
      reserved block, and leaves the current block on top of its list. */
  lemma {:induction false} LowerStmtDone(b: Builder, s: Stmt, reserved: set<Block>, pending: set<Block>)
    requires StmtReady(b, reserved, pending) && WellNested(s, b.whileStack != [])
    ensures StmtDone(b, LowerStmt(b, s), reserved, pending)
    decreases s, 1
  {
    hide StmtReady, StmtDone, Emit, Br, LowerDecl, LowerReturn, LowerTest, StartIf, StartWhile, ClosePart, OpenPart,
         CloseIf, Erase;
    match s
    case Empty => NothingDone(b, reserved, pending);
    case Simple(e) => EmitDone(b, Expr(e), reserved, pending);
    case Decl(v, init) => DeclDone(b, v, init, reserved, pending);
    case Compound(body) => LowerListDone(b, body, reserved, pending);
    case If(c, first) => IfDone(b, c, first, reserved, pending);
    case IfElse(c, first, second) => IfElseDone(b, c, first, second, reserved, pending);
    case While(c, loop) => WhileDone(b, c, loop, reserved, pending);
    case Break => BreakDone(b, reserved, pending);
    case Continue => BreakDone(b, reserved, pending);
    case Return(value) => ReturnStmtDone(b, value, reserved, pending);
  }
}
