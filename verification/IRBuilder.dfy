/** The builder as the source has it: an object whose fields the visits change. What a
    visit does to the whole state is the function of the same statement. */
module IRBuilders {
  import opened FlowGraphs
  import opened Statements
  import opened BlockBuilder
  import opened BuilderInvariants
  import opened LoweringShape
  import opened LoweringStmts
  import opened LoweringControl
  import opened LoweredFunction
  import opened LocalsInEntry
  import opened Lists

  // ----- erasing a block, one list after the other -----

  lemma {:induction false} WithoutTwice(s: seq<Block>, x: Block)
    ensures Without(Without(s, x), x) == Without(s, x)
  {
    if s != [] {
      WithoutTwice(s[1..], x);
      if s[0] == x {
        assert Without(s, x) == Without(s[1..], x);
      } else {
        assert Without(s, x)[1..] == Without(s[1..], x);
        assert Without(Without(s, x), x) == [s[0]] + Without(Without(s[1..], x), x);
      }
    }
  }

  /** The lists of the blocks in `done` without `x`. */
  function RemovedFrom(lists: map<Block, seq<Block>>, done: seq<Block>, x: Block): map<Block, seq<Block>> {
    map y | y in lists :: if y in done then Without(lists[y], x) else lists[y]
  }

  lemma RemovedNext(lists: map<Block, seq<Block>>, done: seq<Block>, x: Block, y: Block)
    ensures var now := RemovedFrom(lists, done, x);
            RemovedFrom(lists, done + [y], x) == if y in lists then now[y := Without(now[y], x)] else now
  {
    hide Without;
    var now := RemovedFrom(lists, done, x);
    if y in lists {
      WithoutTwice(lists[y], x);
      var next := now[y := Without(now[y], x)];
      forall z | z in lists
        ensures next[z] == RemovedFrom(lists, done + [y], x)[z]
      {
      }
    }
  }

  lemma RemovedNone(lists: map<Block, seq<Block>>, x: Block)
    ensures RemovedFrom(lists, [], x) == lists
  {
  }

  lemma ErasedIs(b: Builder, x: Block)
    ensures Erase(b, x) == b.(list := Without(b.list, x), body := b.body - {x},
                              succs := RemovedFrom(b.succs, At(b.preds, x), x) - {x},
                              preds := RemovedFrom(b.preds, At(b.succs, x), x) - {x})
  {
    hide Without;
    assert Erase(b, x).body == b.body - {x};
    assert Erase(b, x).succs == RemovedFrom(b.succs, At(b.preds, x), x) - {x};
    assert Erase(b, x).preds == RemovedFrom(b.preds, At(b.succs, x), x) - {x};
  }

  /** The block is gone, its neighbours do not list it, and the others are there still. */
  lemma ErasedOut(b: Builder, x: Block)
    ensures var b' := Erase(b, x);
            x !in b'.list && x !in b'.body && x !in b'.succs && x !in b'.preds
            && (forall y :: y != x ==> (y in b'.list <==> y in b.list) && At(b'.body, y) == At(b.body, y))
            && (forall y :: y in b'.succs && y in At(b.preds, x) ==> x !in b'.succs[y])
            && (forall y :: y in b'.preds && y in At(b.succs, x) ==> x !in b'.preds[y])
  {
    hide Without;
    WithoutContents(b.list, x);
    forall y | y in b.succs
      ensures x !in Without(b.succs[y], x)
    {
      WithoutContents(b.succs[y], x);
    }
    forall y | y in b.preds
      ensures x !in Without(b.preds[y], x)
    {
      WithoutContents(b.preds[y], x);
    }
  }

  class IRBuilder {
    var list: seq<Block>
    var body: map<Block, seq<Item>>
    var succs: map<Block, seq<Block>>
    var preds: map<Block, seq<Block>>
    var next: Block
    var insert: Block
    var orStack: seq<Targets>
    var whileStack: seq<Targets>
    var curList: seq<Block>
    var entry: Block
    var ret: Block

    constructor ()
      ensures orStack == [] && whileStack == [] && curList == []
    {
      list, body, succs, preds, next := [], map[], map[], map[], 0;
      insert, orStack, whileStack, curList, entry, ret := 0, [], [], [], 0, 0;
    }

    function State(): Builder
      reads this
    {
      Builder(list, body, succs, preds, next, insert, orStack, whileStack, curList, entry, ret)
    }

    // ----- blocks, instructions and branches -----

    method CreateBlock() returns (x: Block)
      modifies this
      ensures x == old(next) && next == x + 1 && State() == NewBlock(old(State()))
    {
      x := next;
      list := list + [x];
      body, succs, preds := body[x := []], succs[x := []], preds[x := []];
      next := next + 1;
    }

    /** Is there a terminator at the end of the insertion block? */
    method HasTerminator() returns (ended: bool)
      ensures ended <==> Terminated(At(State().body, State().insert))
    {
      var items := At(body, insert);
      ended := items != [] && IsTerminator(items[|items| - 1]);
    }

    method AddInstruction(x: Block, i: Item)
      modifies this`body
      ensures body == old(body)[x := At(old(body), x) + [i]]
    {
      body := body[x := At(body, x) + [i]];
    }

    method PopInstruction(x: Block)
      modifies this`body
      ensures body == old(body)[x := Pop(At(old(body), x))]
    {
      body := body[x := Pop(At(body, x))];
    }

    method Create(i: Item)
      modifies this`body
      ensures State() == Emit(old(State()), i)
    {
      AddInstruction(insert, i);
    }

    method CreateBr(t: Block)
      modifies this
      ensures State() == Br(old(State()), t)
      ensures succs == old(succs)[insert := At(old(succs), insert) + [t]]
      ensures preds == old(preds)[t := At(old(preds), t) + [insert]]
      ensures body == old(body)[insert := At(old(body), insert) + [Jump(t)]]
      ensures list == old(list) && insert == old(insert)
    {
      preds := preds[t := At(preds, t) + [insert]];
      succs := succs[insert := At(succs, insert) + [t]];
      Create(Jump(t));
    }

    method CreateCondBr(t: Block, f: Block)
      modifies this
      ensures State() == CondBr(old(State()), t, f)
      ensures succs == old(succs)[insert := At(old(succs), insert) + [f, t]]
      ensures t != f ==> preds == old(preds)[t := At(old(preds), t) + [insert]][f := At(old(preds), f) + [insert]]
      ensures t == f ==> preds == old(preds)[t := At(old(preds), t) + [insert, insert]]
      ensures body == old(body)[insert := At(old(body), insert) + [Branch(t, f)]]
      ensures list == old(list) && insert == old(insert)
    {
      preds := preds[t := At(preds, t) + [insert]];
      preds := preds[f := At(preds, f) + [insert]];
      assert At(old(preds), t) + [insert] + [insert] == At(old(preds), t) + [insert, insert];
      succs := succs[insert := At(succs, insert) + [f]];
      succs := succs[insert := At(succs, insert) + [t]];
      assert succs == old(succs)[insert := At(old(succs), insert) + [f] + [t]];
      assert At(old(succs), insert) + [f] + [t] == At(old(succs), insert) + [f, t];
      Create(Branch(t, f));
    }

    method RemoveFromSuccs(blocks: seq<Block>, x: Block)
      modifies this`succs
      ensures succs == RemovedFrom(old(succs), blocks, x)
    {
      hide Without, RemovedFrom;
      RemovedNone(succs, x);
      for i := 0 to |blocks|
        invariant succs.Keys == old(succs).Keys && succs == RemovedFrom(old(succs), blocks[..i], x)
      {
        RemovedNext(old(succs), blocks[..i], x, blocks[i]);
        assert blocks[..i + 1] == blocks[..i] + [blocks[i]];
        if blocks[i] in succs {
          succs := succs[blocks[i] := Without(succs[blocks[i]], x)];
        }
      }
      assert blocks[..|blocks|] == blocks;
    }

    method RemoveFromPreds(blocks: seq<Block>, x: Block)
      modifies this`preds
      ensures preds == RemovedFrom(old(preds), blocks, x)
    {
      hide Without, RemovedFrom;
      RemovedNone(preds, x);
      for i := 0 to |blocks|
        invariant preds.Keys == old(preds).Keys && preds == RemovedFrom(old(preds), blocks[..i], x)
      {
        RemovedNext(old(preds), blocks[..i], x, blocks[i]);
        assert blocks[..i + 1] == blocks[..i] + [blocks[i]];
        if blocks[i] in preds {
          preds := preds[blocks[i] := Without(preds[blocks[i]], x)];
        }
      }
      assert blocks[..|blocks|] == blocks;
    }

    /** Out of the function's list and out of its neighbours' lists. */
    method EraseFromParent(x: Block)
      modifies this
      ensures State() == Erase(old(State()), x)
      ensures x !in list && x !in body && x !in succs && x !in preds
      ensures forall y :: y != x ==> (y in list <==> y in old(list)) && At(body, y) == At(old(body), y)
      ensures forall y :: y in succs && y in At(old(preds), x) ==> x !in succs[y]
      ensures forall y :: y in preds && y in At(old(succs), x) ==> x !in preds[y]
    {
      hide Without, RemovedFrom, Erase;
      ErasedIs(State(), x);
      ErasedOut(State(), x);
      list := Without(list, x);
      var before, after := At(preds, x), At(succs, x);
      RemoveFromSuccs(before, x);
      RemoveFromPreds(after, x);
      body, succs, preds := body - {x}, succs - {x}, preds - {x};
    }

    method BrUnlessEnded(t: Block)
      modifies this
      ensures State() == BrIfOpen(old(State()), t)
    {
      hide Br;
      var ended := HasTerminator();
      if !ended {
        CreateBr(t);
      }
    }

    // ----- conditions -----

    method VisitCond(c: Cond)
      modifies this
      ensures State() == LowerCond(old(State()), c)
      decreases c
    {
      hide CondBr, NewBlock, Emit, Pop, Top;
      match c
      case Leaf(e) => Create(Do(Expr(e)));
      case And(l, r) =>
        var trueBB := CreateBlock();
        VisitCond(l);
        CreateCondBr(trueBB, Top(orStack).no);
        insert := trueBB;
        VisitCond(r);
      case Or(l, r) =>
        var falseBB := CreateBlock();
        orStack := orStack + [Targets(Top(orStack).yes, falseBB)];
        VisitCond(l);
        orStack := Pop(orStack);
        CreateCondBr(Top(orStack).yes, falseBB);
        insert := falseBB;
        VisitCond(r);
    }

    method VisitTest(c: Cond, t: Block, f: Block)
      modifies this
      ensures State() == LowerTest(old(State()), c, t, f)
    {
      hide CondBr, LowerCond, Pop;
      orStack := orStack + [Targets(t, f)];
      VisitCond(c);
      orStack := Pop(orStack);
      CreateCondBr(t, f);
    }

    // ----- statements -----

    /** The new `alloca` is created where the builder stands, popped from the current
        block, and added to the entry, whose terminator is taken off and put back. */
    method VisitVarDef(v: nat, init: Option<nat>)
      modifies this
      ensures State() == LowerDecl(old(State()), v, init)
    {
      hide Emit;
      var e := At(body, entry);
      var ended := e != [] && IsTerminator(e[|e| - 1]);
      if ended {
        PopInstruction(entry);
      }
      Create(Local(v));
      PopInstruction(Last(curList));
      AddInstruction(entry, Local(v));
      if ended {
        AddInstruction(entry, e[|e| - 1]);
      }
      assert State() == Hoist(old(State()), v);
      hide Hoist;
      if init.Some? {
        Create(Do(Expr(init.value)));
      }
    }

    method VisitReturnStmt(value: Option<nat>)
      modifies this
      ensures State() == LowerReturn(old(State()), value)
    {
      hide Emit, Br;
      if value.Some? {
        Create(Do(Expr(value.value)));
        Create(Do(StoreRet));
      }
      CreateBr(ret);
    }

    /** Statements behind one that ends the block are not visited. */
    method VisitBlockStmt(stmts: seq<Stmt>)
      modifies this
      ensures State() == LowerList(old(State()), stmts)
      decreases stmts, 0
    {
      hide LowerStmt, Terminated, At, LowerList;
      var i := 0;
      assert stmts[0..] == stmts;
      while i < |stmts|
        invariant i <= |stmts| && LowerList(State(), stmts[i..]) == LowerList(old(State()), stmts)
      {
        LoweredList(State(), stmts[i..]);
        assert stmts[i..][1..] == stmts[i + 1..];
        VisitStmt(stmts[i]);
        i := i + 1;
        var ended := HasTerminator();
        if ended {
          return;
        }
      }
      assert stmts[i..] == [];
      NothingLowered(State());
    }

    method VisitIf(c: Cond, first: Stmt)
      modifies this
      ensures State() == LowerStmt(old(State()), If(c, first))
      decreases If(c, first), 0
    {
      hide LowerStmt, LowerTest, NewBlock, Erase, OpenPart, ClosePart, CloseIf, Pop;
      LoweredIf(State(), c, first, next, next + 1, next + 2);
      var trueBB := CreateBlock();
      var falseBB := CreateBlock();
      var nextBB := CreateBlock();
      VisitTest(c, trueBB, nextBB);
      curList := Pop(curList);
      VisitPart(trueBB, first, nextBB);
      EraseFromParent(falseBB);
      VisitBehind(trueBB, nextBB);
    }

    method VisitIfElse(c: Cond, first: Stmt, second: Stmt)
      modifies this
      ensures State() == LowerStmt(old(State()), IfElse(c, first, second))
      decreases IfElse(c, first, second), 0
    {
      hide LowerStmt, LowerTest, NewBlock, Erase, OpenPart, ClosePart, CloseIf, Pop;
      LoweredIfElse(State(), c, first, second, next, next + 1, next + 2);
      var trueBB := CreateBlock();
      var falseBB := CreateBlock();
      var nextBB := CreateBlock();
      VisitTest(c, trueBB, falseBB);
      curList := Pop(curList);
      VisitPart(trueBB, first, nextBB);
      VisitPart(falseBB, second, nextBB);
      VisitBehind(trueBB, nextBB);
    }

    /** A branch or a loop body, and the way on from its end. */
    method VisitPart(x: Block, s: Stmt, to: Block)
      modifies this
      ensures State() == ClosePart(LowerStmt(OpenPart(old(State()), x), s), to)
      decreases s, 2
    {
      hide LowerStmt, Pop, BrIfOpen;
      insert := x;
      curList := curList + [x];
      VisitStmt(s);
      BrUnlessEnded(to);
      curList := Pop(curList);
    }

    /** The block behind becomes the insertion block, unless nothing leads to it. */
    method VisitBehind(trueBB: Block, nextBB: Block)
      modifies this
      ensures State() == CloseIf(old(State()), trueBB, nextBB)
    {
      hide Erase;
      insert := nextBB;
      curList := curList + [nextBB];
      if At(preds, nextBB) == [] {
        insert := trueBB;
        EraseFromParent(nextBB);
      }
    }

    method VisitWhile(c: Cond, loop: Stmt)
      modifies this
      ensures State() == LowerStmt(old(State()), While(c, loop))
      decreases While(c, loop), 0
    {
      hide LowerStmt, LowerTest, NewBlock, ClosePart, BrIfOpen, Pop;
      LoweredWhile(State(), c, loop, next, next + 1, next + 2);
      var whileBB := CreateBlock();
      var trueBB := CreateBlock();
      var nextBB := CreateBlock();
      whileStack := whileStack + [Targets(whileBB, nextBB)];
      BrUnlessEnded(whileBB);
      curList := Pop(curList);
      insert := whileBB;
      VisitTest(c, trueBB, nextBB);
      VisitPart(trueBB, loop, whileBB);
      insert := nextBB;
      curList := curList + [nextBB];
      whileStack := Pop(whileStack);
    }

    method VisitStmt(s: Stmt)
      modifies this
      ensures State() == LowerStmt(old(State()), s)
      decreases s, 1
    {
      hide LowerTest, StartIf, StartWhile, ClosePart, OpenPart, CloseIf, Erase, LowerDecl, LowerReturn, LowerList, Emit,
           Br, PopCur, Top, Pop;
      match s
      case Empty =>
      case Simple(e) => Create(Do(Expr(e)));
      case Decl(v, init) => VisitVarDef(v, init);
      case Compound(stmts) => VisitBlockStmt(stmts);
      case If(c, first) => VisitIf(c, first);
      case IfElse(c, first, second) => VisitIfElse(c, first, second);
      case While(c, loop) => VisitWhile(c, loop);
      case Break => CreateBr(Top(whileStack).no);
      case Continue => CreateBr(Top(whileStack).yes);
      case Return(value) => VisitReturnStmt(value);
    }

    // ----- functions -----

    method CreateEntry()
      requires orStack == [] && whileStack == [] && curList == []
      modifies this
      ensures State() == Builder([0], map[0 := []], map[0 := []], map[0 := []], 1, 0, [], [], [0], 0, old(ret))
    {
      list, body, succs, preds, next := [], map[], map[], map[], 0;
      entry := CreateBlock();
      insert := entry;
      curList := curList + [entry];
    }

    /** The entry block and the `ret` block of a new function. */
    method StartBlocks(isVoid: bool)
      requires orStack == [] && whileStack == [] && curList == []
      modifies this
      ensures State() == TwoBlocks(isVoid)
    {
      hide Emit;
      CreateEntry();
      ghost var b := State();
      if !isVoid {
        Create(Local(0));
      }
      ret := CreateBlock();
      EmitWithRet(b, Local(0), 1);
    }

    method VisitParams(n: nat)
      modifies this
      ensures State() == LowerParams(old(State()), n)
    {
      hide Emit, LowerParams;
      NextParam(State(), 0);
      for i := 0 to n
        invariant State() == LowerParams(old(State()), i)
      {
        NextParam(old(State()), i + 1);
        Create(Local(i + 1));
        Create(Do(StoreArg(i)));
      }
    }

    /** The way to the `ret` block, and that block. */
    method VisitEnd(isVoid: bool)
      modifies this
      ensures State() == EndFunction(old(State()), isVoid)
    {
      hide Emit, Br, Pop, Terminated, At;
      var ended := HasTerminator();
      if !ended {
        if !isVoid {
          Create(Do(StoreZero));
        }
        CreateBr(ret);
      }
      assert State() == FallOff(old(State()), isVoid);
      hide FallOff;
      curList := Pop(curList);
      insert := ret;
      if !isVoid {
        Create(Do(LoadRet));
      }
      Create(Leave);
    }

    /** One function after another: each leaves the stacks as empty as it found them. */
    method VisitFuncDef(f: FuncDef)
      requires orStack == [] && whileStack == [] && curList == [] && WellNestedAll(f.body, false)
      modifies this
      ensures State() == LowerFunction(f) && Complete(State())
      ensures forall x :: x in body ==> LocalsOf(body[x]) == if x == entry then FunctionLocals(f) else []
      ensures orStack == [] && whileStack == [] && curList == []
    {
      hide LowerList, LowerParams, TwoBlocks, EndFunction, Complete, WellNestedAll, FunctionLocals, LocalsOf;
      StartBlocks(f.isVoid);
      VisitParams(f.params);
      VisitBlockStmt(f.body);
      VisitEnd(f.isVoid);
      LoweredIsComplete(f);
      LocalsAreInEntry(f);
      StacksEmptied(f);
    }
  }

  lemma EmitWithRet(b: Builder, i: Item, ret: Block)
    ensures Emit(b, i).(ret := ret) == Emit(b.(ret := ret), i)
  {
  }

  lemma NextParam(b: Builder, n: nat)
    ensures LowerParams(b, n) == if n == 0 then b else Emit(Emit(LowerParams(b, n - 1), Local(n)), Do(StoreArg(n - 1)))
  {
    hide Emit;
  }

  lemma FallOffStacks(b: Builder, isVoid: bool)
    ensures var b1 := FallOff(b, isVoid); SameStacks(b, b1) && b1.curList == b.curList
  {
  }

  lemma StacksEmptied(f: FuncDef)
    requires WellNestedAll(f.body, false)
    ensures LowerFunction(f).orStack == [] && LowerFunction(f).whileStack == [] && LowerFunction(f).curList == []
  {
    hide LowerList, LowerParams, TwoBlocks, FallOff, EndFunction, WellNestedAll, Sane, Grew, StmtReady, JumpTargets,
         Strip;
    var two, b0 := TwoBlocks(f.isVoid), StartFunction(f);
    var b := LowerList(b0, f.body);
    TwoBlocksIs(f.isVoid);
    StartReady(f);
    BodyDone(f);
    EndIs(b, f.isVoid);
    FallOffStacks(b, f.isVoid);
  }
}
