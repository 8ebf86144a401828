/** Every local of a function gets its `alloca` in the entry, in the order of the
    declarations visited, and nowhere else. */
module LocalsInEntry {
  import opened FlowGraphs
  import opened Statements
  import opened BlockBuilder
  import opened BuilderInvariants
  import opened LoweringShape
  import opened LoweringStmts
  import opened LoweringControl
  import opened LoweredFunction

  // ----- read off the source -----

  /** After `s` the block has ended, whatever the conditions decide. */
  predicate Ends(s: Stmt)
    decreases s
  {
    match s
    case Compound(body) => EndsAny(body)
    case IfElse(_, first, second) => Ends(first) && Ends(second)
    case Break => true
    case Continue => true
    case Return(_) => true
    case _ => false
  }

  predicate EndsAny(body: seq<Stmt>)
    decreases body
  {
    body != [] && (Ends(body[0]) || EndsAny(body[1..]))
  }

  /** The locals whose declarations are visited: what follows a statement that ends
      its block is dropped. */
  function Declared(s: Stmt): seq<nat>
    decreases s
  {
    match s
    case Decl(v, _) => [v]
    case Compound(body) => DeclaredIn(body)
    case If(_, first) => Declared(first)
    case IfElse(_, first, second) => Declared(first) + Declared(second)
    case While(_, loop) => Declared(loop)
    case _ => []
  }

  function DeclaredIn(body: seq<Stmt>): seq<nat>
    decreases body
  {
    if body == [] then [] else Declared(body[0]) + (if Ends(body[0]) then [] else DeclaredIn(body[1..]))
  }

  // ----- read off the blocks -----

  function LocalsOf(items: seq<Item>): seq<nat> {
    if items == [] then [] else (if items[0].Local? then [items[0].v] else []) + LocalsOf(items[1..])
  }

  lemma {:induction false} LocalsConcat(a: seq<Item>, c: seq<Item>)
    ensures LocalsOf(a + c) == LocalsOf(a) + LocalsOf(c)
  {
    if a == [] {
      assert a + c == c;
    } else {
      var head := if a[0].Local? then [a[0].v] else [];
      LocalsConcat(a[1..], c);
      assert (a + c)[1..] == a[1..] + c;
      assert LocalsOf(a + c) == head + (LocalsOf(a[1..]) + LocalsOf(c));
      assert LocalsOf(a) == head + LocalsOf(a[1..]);
    }
  }

  lemma LocalsOfOne(i: Item)
    ensures LocalsOf([i]) == if i.Local? then [i.v] else []
  {
    assert [i][1..] == [];
  }

  /** What the stretch from `before` to `after` adds to a block. */
  predicate LocalsAdded(before: seq<Item>, after: seq<Item>, isEntry: bool, vs: seq<nat>) {
    LocalsOf(after) == LocalsOf(before) + if isEntry then vs else []
  }

  /** From `b` to `b'` the entry gets the locals `vs`, and no other block gets any. */
  ghost predicate LocalsGrew(b: Builder, b': Builder, vs: seq<nat>) {
    && b'.entry == b.entry && b.entry in b.body && b.body.Keys <= b'.body.Keys
    && forall x :: x in b'.body ==> LocalsAdded(At(b.body, x), b'.body[x], x == b.entry, vs)
  }

  lemma AddedTwice(s: seq<Item>, s1: seq<Item>, s2: seq<Item>, isEntry: bool, vs: seq<nat>, ws: seq<nat>)
    requires LocalsAdded(s, s1, isEntry, vs) && LocalsAdded(s1, s2, isEntry, ws)
    ensures LocalsAdded(s, s2, isEntry, vs + ws)
  {
    hide LocalsOf;
  }

  lemma LocalsTrans(b: Builder, b1: Builder, b2: Builder, vs: seq<nat>, ws: seq<nat>)
    requires LocalsGrew(b, b1, vs) && LocalsGrew(b1, b2, ws)
    ensures LocalsGrew(b, b2, vs + ws)
  {
    hide LocalsAdded;
    forall x | x in b2.body
      ensures LocalsAdded(At(b.body, x), b2.body[x], x == b.entry, vs + ws)
    {
      if x in b1.body {
        AddedTwice(At(b.body, x), b1.body[x], b2.body[x], x == b.entry, vs, ws);
      } else {
        NothingAdded(b2.body[x], vs + ws, ws);
      }
    }
  }

  lemma NoneTrans(b: Builder, b1: Builder, b2: Builder)
    requires LocalsGrew(b, b1, []) && LocalsGrew(b1, b2, [])
    ensures LocalsGrew(b, b2, [])
  {
    hide LocalsGrew;
    var none: seq<nat> := [];
    LocalsTrans(b, b1, b2, none, none);
    assert none + none == none;
  }

  lemma NothingAdded(items: seq<Item>, vs: seq<nat>, ws: seq<nat>)
    ensures LocalsAdded([], items, false, ws) ==> LocalsAdded([], items, false, vs)
    ensures LocalsAdded(items, items, false, vs) && LocalsAdded(items, items, true, [])
  {
  }

  lemma LocalsSame(b: Builder, b': Builder)
    requires b'.body == b.body && b'.entry == b.entry && b.entry in b.body
    ensures LocalsGrew(b, b', [])
  {
    hide LocalsOf;
  }

  lemma LocalsEmit(b: Builder, i: Item)
    requires b.entry in b.body && b.insert in b.body && !i.Local?
    ensures LocalsGrew(b, Emit(b, i), [])
  {
    LocalsConcat(b.body[b.insert], [i]);
    LocalsOfOne(i);
    hide LocalsOf;
  }

  lemma LocalsBr(b: Builder, t: Block, f: Block)
    requires b.entry in b.body && b.insert in b.body
    ensures LocalsGrew(b, Br(b, t), []) && LocalsGrew(b, CondBr(b, t, f), [])
  {
    hide LocalsGrew;
    LocalsEmit(b, Jump(t));
    LocalsEmit(b, Branch(t, f));
    SameBodies(b, Emit(b, Jump(t)), Br(b, t));
    SameBodies(b, Emit(b, Branch(t, f)), CondBr(b, t, f));
  }

  lemma SameBodies(b: Builder, b1: Builder, b2: Builder)
    requires b2.body == b1.body && b2.entry == b1.entry
    ensures forall vs :: LocalsGrew(b, b1, vs) ==> LocalsGrew(b, b2, vs)
  {
    hide LocalsAdded;
  }

  lemma LocalsNewBlock(b: Builder)
    requires b.entry in b.body && b.next !in b.body
    ensures LocalsGrew(b, NewBlock(b), [])
  {
    hide LocalsOf;
  }

  /** Erasing a block that was not there before. */
  lemma LocalsErase(b: Builder, b1: Builder, y: Block, vs: seq<nat>)
    requires LocalsGrew(b, b1, vs) && y !in b.body
    ensures LocalsGrew(b, Erase(b1, y), vs)
  {
    hide LocalsAdded;
    var b2 := Erase(b1, y);
    forall x | x in b2.body
      ensures LocalsAdded(At(b.body, x), b2.body[x], x == b.entry, vs)
    {
      assert x in b1.body && b2.body[x] == b1.body[x];
    }
  }

  /** The new `alloca` is the last of the entry's. */
  lemma LocalsHoist(b: Builder, v: nat)
    requires b.entry in b.body
    ensures LocalsGrew(b, b.(body := Hoisted(b.body, b.entry, v)), [v])
  {
    LocalAdded(b.body[b.entry], v);
    hide LocalsOf, WithLocal;
  }

  lemma LocalAdded(items: seq<Item>, v: nat)
    ensures LocalsOf(WithLocal(items, v)) == LocalsOf(items) + [v]
  {
    LocalsOfOne(Local(v));
    if Terminated(items) {
      var last := items[|items| - 1];
      assert items == Pop(items) + [last];
      LocalsOfOne(last);
      LocalsConcat(Pop(items), [last]);
      LocalsConcat([Local(v)], [last]);
      assert [Local(v), last] == [Local(v)] + [last];
      LocalsConcat(Pop(items), [Local(v), last]);
    } else {
      LocalsConcat(items, [Local(v)]);
    }
  }

  // ----- conditions -----

  ghost predicate Placed(b: Builder) {
    b.entry in b.body && b.insert in b.body && forall x :: x in b.body ==> x < b.next
  }

  lemma CondBrPlaced(b: Builder, t: Block, f: Block, y: Block)
    requires Placed(b) && y in b.body
    ensures Placed(SetInsert(CondBr(b, t, f), y)) && LocalsGrew(b, SetInsert(CondBr(b, t, f), y), [])
  {
    hide LocalsGrew;
    LocalsBr(b, t, f);
    SameBodies(b, CondBr(b, t, f), SetInsert(CondBr(b, t, f), y));
  }

  /** The first operand, its branch, and the move to the block of the second. */
  lemma OperandLocals(b: Builder, b0: Builder, b1: Builder, t: Block, f: Block, y: Block)
    requires Placed(b) && b0 == NewBlock(b).(orStack := b0.orStack) && y == b.next && LocalsGrew(b0, b1, [])
             && Placed(b1)
    ensures LocalsGrew(b, SetInsert(CondBr(b1, t, f), y), []) && Placed(SetInsert(CondBr(b1, t, f), y))
  {
    hide LocalsAdded, CondBr;
    LocalsNewBlock(b);
    SameBodies(b, NewBlock(b), b0);
    CondBrPlaced(b1, t, f, y);
    NoneTrans(b, b0, b1);
    NoneTrans(b, b1, SetInsert(CondBr(b1, t, f), y));
  }

  lemma {:induction false} CondLocals(b: Builder, c: Cond)
    requires Placed(b)
    ensures LocalsGrew(b, LowerCond(b, c), []) && Placed(LowerCond(b, c))
    decreases c
  {
    hide LocalsGrew, CondBr;
    match c
    case Leaf(e) => LocalsEmit(b, Do(Expr(e)));
    case And(l, r) =>
      var b0 := NewBlock(b);
      CondLocals(b0, l);
      var b1 := LowerCond(b0, l);
      var y, f := b.next, Top(b1.orStack).no;
      OperandLocals(b, b0, b1, y, f, y);
      var b2 := SetInsert(CondBr(b1, y, f), y);
      CondLocals(b2, r);
      NoneTrans(b, b2, LowerCond(b2, r));
    case Or(l, r) =>
      var y := b.next;
      var b0 := NewBlock(b).(orStack := b.orStack + [Targets(Top(b.orStack).yes, y)]);
      CondLocals(b0, l);
      var b1 := LowerCond(b0, l);
      var b1' := b1.(orStack := Pop(b1.orStack));
      SameBodies(b0, b1, b1');
      var t := Top(b1'.orStack).yes;
      OperandLocals(b, b0, b1', t, y, y);
      var b2 := SetInsert(CondBr(b1', t, y), y);
      CondLocals(b2, r);
      NoneTrans(b, b2, LowerCond(b2, r));
  }

  lemma TestLocals(b: Builder, c: Cond, t: Block, f: Block)
    requires Placed(b)
    ensures LocalsGrew(b, LowerTest(b, c, t, f), [])
  {
    hide LocalsGrew, LowerCond, CondBr;
    var b0 := b.(orStack := b.orStack + [Targets(t, f)]);
    CondLocals(b0, c);
    var b1 := LowerCond(b0, c);
    var b2 := b1.(orStack := Pop(b1.orStack));
    LocalsSame(b, b0);
    SameBodies(b0, b1, b2);
    NoneTrans(b, b0, b2);
    LocalsBr(b2, t, f);
    NoneTrans(b, b2, CondBr(b2, t, f));
  }

  // ----- simple statements -----

  /** The entry gets `vs`; the insertion block is open unless the statement ends it. */
  ghost predicate Hoisting(b: Builder, b': Builder, vs: seq<nat>, ends: bool) {
    LocalsGrew(b, b', vs) && (IsOpen(b', b'.insert) <==> !ends)
  }

  lemma ReadyPlaced(b: Builder, reserved: set<Block>, pending: set<Block>)
    requires StmtReady(b, reserved, pending)
    ensures Placed(b) && IsOpen(b, b.insert)
  {
    hide StmtReady, IsOpen;
    ReadyParts(b, reserved, pending);
  }

  lemma BrCloses(b: Builder, t: Block)
    ensures !IsOpen(Br(b, t), Br(b, t).insert)
  {
  }

  lemma BrHoists(b: Builder, t: Block, reserved: set<Block>, pending: set<Block>)
    requires StmtReady(b, reserved, pending)
    ensures Hoisting(b, Br(b, t), [], true)
  {
    hide StmtReady, LocalsGrew, Br, IsOpen;
    ReadyPlaced(b, reserved, pending);
    LocalsBr(b, t, t);
    BrCloses(b, t);
  }

  lemma EmitHoists(b: Builder, a: Atom, reserved: set<Block>, pending: set<Block>)
    requires StmtReady(b, reserved, pending)
    ensures Hoisting(b, Emit(b, Do(a)), [], false) && StmtReady(Emit(b, Do(a)), reserved, pending)
  {
    hide StmtReady, StmtDone, LocalsGrew, Emit, IsOpen;
    ReadyPlaced(b, reserved, pending);
    LocalsEmit(b, Do(a));
    EmitDone(b, a, reserved, pending);
    ReadyPlaced(Emit(b, Do(a)), reserved, pending);
  }

  lemma HoistingThen(b: Builder, b1: Builder, b2: Builder, vs: seq<nat>, ws: seq<nat>, ends: bool)
    requires LocalsGrew(b, b1, vs) && Hoisting(b1, b2, ws, ends)
    ensures Hoisting(b, b2, vs + ws, ends)
  {
    hide LocalsGrew, IsOpen;
    LocalsTrans(b, b1, b2, vs, ws);
  }

  lemma DeclHoists(b: Builder, v: nat, init: Option<nat>, reserved: set<Block>, pending: set<Block>)
    requires StmtReady(b, reserved, pending)
    ensures Hoisting(b, LowerDecl(b, v, init), [v], false)
  {
    hide StmtReady, StmtDone, LocalsGrew, Emit, IsOpen, Hoist, Hoisted;
    ReadyPlaced(b, reserved, pending);
    HoistDone(b, v, reserved, pending);
    HoistOf(b, v, reserved, pending);
    LocalsHoist(b, v);
    ReadyPlaced(Hoist(b, v), reserved, pending);
    if init.Some? {
      EmitHoists(Hoist(b, v), Expr(init.value), reserved, pending);
      HoistingThen(b, Hoist(b, v), LowerDecl(b, v, init), [v], [], false);
      assert [v] + [] == [v];
    }
  }

  lemma HoistOf(b: Builder, v: nat, reserved: set<Block>, pending: set<Block>)
    requires StmtReady(b, reserved, pending)
    ensures Hoist(b, v) == b.(body := Hoisted(b.body, b.entry, v))
  {
    hide Sane, LoopsOk, Hoist, Hoisted;
    SaneParts(b, reserved, pending);
    HoistIs(b, v);
  }

  lemma ReturnHoists(b: Builder, value: Option<nat>, reserved: set<Block>, pending: set<Block>)
    requires StmtReady(b, reserved, pending)
    ensures Hoisting(b, LowerReturn(b, value), [], true)
  {
    hide StmtReady, Emit, Br, LocalsGrew, IsOpen;
    if value.Some? {
      var b1 := Emit(b, Do(Expr(value.value)));
      var b2 := Emit(b1, Do(StoreRet));
      EmitHoists(b, Expr(value.value), reserved, pending);
      EmitHoists(b1, StoreRet, reserved, pending);
      BrHoists(b2, b2.ret, reserved, pending);
      NoneTrans(b, b1, b2);
      NoneTrans(b, b2, Br(b2, b2.ret));
    } else {
      BrHoists(b, b.ret, reserved, pending);
    }
  }

  // ----- compound statements -----

  lemma StartLocals(b: Builder)
    requires Placed(b)
    ensures LocalsGrew(b, StartIf(b), []) && Placed(StartIf(b))
  {
    hide LocalsGrew;
    var b1 := NewBlock(b);
    var b2 := NewBlock(b1);
    LocalsNewBlock(b);
    LocalsNewBlock(b1);
    LocalsNewBlock(b2);
    NoneTrans(b, b1, b2);
    NoneTrans(b, b2, NewBlock(b2));
  }

  lemma PartClosesLocals(b: Builder, b3: Builder, to: Block, vs: seq<nat>)
    requires LocalsGrew(b, b3, vs) && Placed(b3)
    ensures LocalsGrew(b, ClosePart(b3, to), vs)
  {
    hide LocalsGrew, Br;
    LocalsBr(b3, to, to);
    LocalsTrans(b, b3, Br(b3, to), vs, []);
    assert vs + [] == vs;
    SameBodies(b, b3, PopCur(b3));
    BrFixed(b3, to);
    SameBodies(b, Br(b3, to), PopCur(Br(b3, to)));
  }

  lemma DonePlaced(b: Builder, b': Builder, reserved: set<Block>, pending: set<Block>)
    requires StmtDone(b, b', reserved, pending)
    ensures Placed(b')
  {
    hide StmtDone, Sane;
    DoneFacts(b, b', reserved, pending);
    SaneParts(b', reserved, pending);
  }

  lemma BranchLocals(b: Builder, b1: Builder, x: Block, s: Stmt, to: Block, vs: seq<nat>, reserved: set<Block>,
                     pending: set<Block>)
    requires LocalsGrew(b, b1, vs) && StmtReady(OpenPart(b1, x), reserved, pending)
             && WellNested(s, b1.whileStack != [])
    ensures LocalsGrew(b, ClosePart(LowerStmt(OpenPart(b1, x), s), to), vs + Declared(s))
    ensures var b3 := LowerStmt(OpenPart(b1, x), s); IsOpen(b3, b3.insert) <==> !Ends(s)
    decreases s, 3
  {
    hide LocalsGrew, StmtReady, StmtDone, LowerStmt, ClosePart, Declared, Ends, IsOpen, WellNested;
    var b2 := OpenPart(b1, x);
    var b3 := LowerStmt(b2, s);
    LocalsHoisted(b2, s, reserved, pending);
    LowerStmtDone(b2, s, reserved, pending);
    DonePlaced(b2, b3, reserved, pending);
    SameBodies(b, b1, b2);
    LocalsTrans(b, b2, b3, vs, Declared(s));
    PartClosesLocals(b, b3, to, vs + Declared(s));
  }

  lemma TestedLocals(b: Builder, c: Cond, t: Block, no: Block, reserved: set<Block>, pending: set<Block>)
    requires StmtReady(b, reserved, pending)
    ensures LocalsGrew(b, PopCur(LowerTest(StartIf(b), c, t, no)), [])
  {
    hide LocalsGrew, StmtReady, LowerTest, StartIf;
    ReadyPlaced(b, reserved, pending);
    StartLocals(b);
    TestLocals(StartIf(b), c, t, no);
    NoneTrans(b, StartIf(b), LowerTest(StartIf(b), c, t, no));
    SameBodies(b, LowerTest(StartIf(b), c, t, no), PopCur(LowerTest(StartIf(b), c, t, no)));
  }

  lemma CloseIfLocals(b: Builder, b5: Builder, t: Block, n: Block, vs: seq<nat>)
    requires LocalsGrew(b, b5, vs) && n !in b.body
    ensures LocalsGrew(b, CloseIf(b5, t, n), vs)
  {
    hide LocalsGrew, Erase;
    SameBodies(b, b5, OpenPart(b5, n));
    SameBodies(b, b5, SetInsert(OpenPart(b5, n), t));
    LocalsErase(b, SetInsert(OpenPart(b5, n), t), n, vs);
  }

  /** The block behind is the insertion block, open, if something leads to it;
      otherwise the true block is, which has ended. */
  lemma CloseIfOpens(b5: Builder, t: Block, n: Block, reserved: set<Block>, pending: set<Block>)
    requires Sane(b5, reserved, pending) && n in reserved && !IsOpen(b5, t)
    ensures var b6 := CloseIf(b5, t, n); IsOpen(b6, b6.insert) <==> At(b5.preds, n) != []
  {
    hide Sane, Erase, IsOpen;
    SaneParts(b5, reserved, pending);
    OpenSameBody(b5, OpenPart(b5, n), n);
    OpenSameBody(b5, SetInsert(OpenPart(b5, n), t), t);
    ErasedClosed(SetInsert(OpenPart(b5, n), t), n, t);
  }

  lemma IfLocals(b: Builder, c: Cond, first: Stmt, reserved: set<Block>, pending: set<Block>)
    requires StmtReady(b, reserved, pending) && WellNested(If(c, first), b.whileStack != [])
    ensures Hoisting(b, LowerStmt(b, If(c, first)), Declared(If(c, first)), false)
    decreases If(c, first), 0
  {
    hide LocalsGrew, StmtReady, LowerStmt, LowerTest, StartIf, ClosePart, OpenPart, CloseIf, Erase, IsOpen, Sane, Strip,
         Midway, HasPath, LoopsOk;
    var t, f, n := b.next, b.next + 1, b.next + 2;
    var r0, p1 := WithThree(reserved, t, f, n), WithThree(pending, t, f, n) - {t, n};
    TestedIf(b, c, t, f, n, n, reserved, pending);
    ReadyParts(b, reserved, pending);
    var b1 := PopCur(LowerTest(StartIf(b), c, t, n));
    assert p1 * reserved == pending;
    BranchReady(b, b1, t, reserved, r0, p1);
    TestedLocals(b, c, t, n, reserved, pending);
    BranchLocals(b, b1, t, first, n, [], r0 - {t}, p1);
    var b4 := ClosePart(LowerStmt(OpenPart(b1, t), first), n);
    assert [] + Declared(first) == Declared(first);
    LocalsErase(b, b4, f, Declared(first));
    CloseIfLocals(b, Erase(b4, f), t, n, Declared(first));
    IfParts(b, c, first, t, f, n, b1, b4, reserved, pending);
    IfOpens(Erase(b4, f), t, n, reserved + {n}, pending + {n});
    LoweredIf(b, c, first, t, f, n);
  }

  /** Reached, the block behind is there, whatever the true block is. */
  lemma IfOpens(b5: Builder, t: Block, n: Block, reserved: set<Block>, pending: set<Block>)
    requires Sane(b5, reserved, pending) && n in reserved && n != b5.entry && HasPath(GraphOf(b5), b5.entry, n)
    ensures var b6 := CloseIf(b5, t, n); IsOpen(b6, b6.insert)
  {
    hide Sane, Erase, IsOpen, HasPath;
    SaneParts(b5, reserved, pending);
    GraphOfSane(b5, reserved, pending);
    ReachedHasPred(GraphOf(b5), n);
    OpenSameBody(b5, OpenPart(b5, n), n);
  }

  lemma WhileLocals(b: Builder, c: Cond, loop: Stmt, reserved: set<Block>, pending: set<Block>)
    requires StmtReady(b, reserved, pending) && WellNested(While(c, loop), b.whileStack != [])
    ensures Hoisting(b, LowerStmt(b, While(c, loop)), Declared(While(c, loop)), false)
    decreases While(c, loop), 0
  {
    hide LocalsGrew, StmtReady, LowerStmt, LowerTest, StartWhile, ClosePart, OpenPart, IsOpen, Sane, Strip, Grew,
         AfterLoop;
    var w, t, n := b.next, b.next + 1, b.next + 2;
    LoopParts(b, c, loop, w, t, n, reserved, pending);
    var b1 := LowerTest(StartWhile(b), c, t, n);
    var b4 := ClosePart(LowerStmt(OpenPart(b1, t), loop), w);
    StartLoopLocals(b, reserved, pending);
    TestLocals(StartWhile(b), c, t, n);
    NoneTrans(b, StartWhile(b), b1);
    BranchLocals(b, b1, t, loop, w, [], reserved + {n}, pending);
    assert [] + Declared(loop) == Declared(loop);
    LoweredWhile(b, c, loop, w, t, n);
    AfterLoopIs(b4, n);
    AfterLoopEntry(b4, n);
    SameBodies(b, b4, AfterLoop(b4, n));
    OpenSameBody(b4, AfterLoop(b4, n), n);
  }

  lemma AfterLoopEntry(b: Builder, n: Block)
    ensures AfterLoop(b, n).entry == b.entry
  {
  }

  lemma StartLoopPlaced(b: Builder, reserved: set<Block>, pending: set<Block>)
    requires StmtReady(b, reserved, pending)
    ensures Placed(StartWhile(b))
  {
    hide StmtReady, Sane, Grew, StartIf, StartWhile, LoopsOk;
    ReadyParts(b, reserved, pending);
    StartWhileDone(b, b.next, b.next + 1, b.next + 2, reserved, pending);
    SaneParts(StartWhile(b), reserved + {b.next + 1} + {b.next + 2}, pending + {b.next + 1} + {b.next + 2});
  }

  lemma StartLoopLocals(b: Builder, reserved: set<Block>, pending: set<Block>)
    requires StmtReady(b, reserved, pending)
    ensures LocalsGrew(b, StartWhile(b), []) && Placed(StartWhile(b))
  {
    hide LocalsGrew, StmtReady, Sane, Grew, StartIf, LoopsOk;
    StartLoopPlaced(b, reserved, pending);
    ReadyParts(b, reserved, pending);
    StartLocals(b);
    var b0 := StartIf(b).(whileStack := b.whileStack + [Targets(b.next, b.next + 2)]);
    SameBodies(b, StartIf(b), b0);
    ThreeBlocks(b);
    LocalsBr(b0, b.next, b.next);
    NoneTrans(b, b0, BrIfOpen(b0, b.next));
    SameBodies(b, BrIfOpen(b0, b.next), StartWhile(b));
  }

  // ----- if with else -----

  lemma ClosePartCloses(b: Builder, to: Block)
    requires b.insert in b.body
    ensures !IsOpen(ClosePart(b, to), ClosePart(b, to).insert)
  {
  }

  /** A part that ends its block adds no edge to the block behind. */
  lemma PartQuiet(b1: Builder, x: Block, s: Stmt, n: Block, reserved: set<Block>, pending: set<Block>)
    requires StmtReady(OpenPart(b1, x), reserved, pending) && WellNested(s, b1.whileStack != [])
    requires n in b1.preds && n !in JumpTargets(OpenPart(b1, x))
    ensures var b3 := LowerStmt(OpenPart(b1, x), s); var b4 := ClosePart(b3, n);
            !IsOpen(b3, b3.insert) ==> n in b4.preds && b4.preds[n] == b1.preds[n]
    ensures var b4 := ClosePart(LowerStmt(OpenPart(b1, x), s), n); !IsOpen(b4, b4.insert)
  {
    hide StmtReady, LowerStmt, Sane, Frame, MoreEdges, JumpTargets, CurKept, WellNested, IsOpen, Br;
    var b2 := OpenPart(b1, x);
    var b3 := LowerStmt(b2, s);
    LowerStmtDone(b2, s, reserved, pending);
    SaneParts(b3, reserved, pending);
    OpenMeans(b3);
    ClosePartCloses(b3, n);
  }

  lemma NewBlockQuiet(b: Builder, b1: Builder, t: Block, f: Block, n: Block)
    requires Grew(StartIf(b), b1, b.insert, {t, f}) && Isolated(StartIf(b), n) && n != t && n != f
    ensures n in b1.preds && b1.preds[n] == []
  {
    hide Frame, MoreEdges, StartIf;
  }

  lemma NotAJump(b: Builder, b1: Builder, x: Block, n: Block, reserved: set<Block>)
    requires LoopsOk(b, reserved) && reserved <= b.body.Keys && b.ret in b.body && b1.whileStack == b.whileStack
             && b1.ret == b.ret && n !in b.body
    ensures n !in JumpTargets(OpenPart(b1, x))
  {
    hide JumpTargets, LoopsOk;
    JumpsAreBlocks(b, reserved);
    SameJumps(b, OpenPart(b1, x));
  }

  /** The block behind goes away if and only if both branches end. */
  lemma IfElseOpens(b: Builder, c: Cond, first: Stmt, second: Stmt, t: Block, f: Block, n: Block, b1: Builder,
                    b2: Builder, b3: Builder,
                    reserved: set<Block>, pending: set<Block>)
    requires StmtReady(b, reserved, pending) && WellNested(first, b.whileStack != [])
             && WellNested(second, b.whileStack != [])
    requires t == b.next && f == t + 1 && n == f + 1 && b1 == PopCur(LowerTest(StartIf(b), c, t, f))
    requires b2 == ClosePart(LowerStmt(OpenPart(b1, t), first), n)
             && b3 == ClosePart(LowerStmt(OpenPart(b2, f), second), n)
    requires IfElseSplit(b, b1, b2, b3, t, f, n, reserved, pending)
    ensures var s1, s2 := LowerStmt(OpenPart(b1, t), first), LowerStmt(OpenPart(b2, f), second);
            var b6 := CloseIf(b3, t, n);
            IsOpen(b6, b6.insert) <==> IsOpen(s1, s1.insert) || IsOpen(s2, s2.insert)
  {
    hide Sane, Grew, IsOpen, JumpTargets, HasPath, LoopsOk, LowerTest, StartIf, StmtReady, LowerStmt, ClosePart,
         OpenPart, CloseIf, Strip, Isolated, Midway, WellNested, Started;
    ReadyParts(b, reserved, pending);
    StartIfDone(b, t, f, n, reserved, pending);
    TestOfIf(b, c, t, f, n, f, reserved, pending);
    NewBlockQuiet(b, b1, t, f, n);
    NotAJump(b, b1, t, n, reserved);
    NotAJump(b, b2, f, n, reserved);
    PartQuiet(b1, t, first, n, reserved + {n} + {f}, pending + {n});
    OpenPartKeeps(b2, f);
    ClosedOf2(b3, t, reserved + {n}, pending + {n}, OpenPart(b2, f), second, n);
    CloseIfOpens(b3, t, n, reserved + {n}, pending + {n});
    BehindIfElse(b, b1, b2, b3, first, second, t, f, n, reserved, pending);
    var s1, s2 := LowerStmt(OpenPart(b1, t), first), LowerStmt(OpenPart(b2, f), second);
    if IsOpen(s1, s1.insert) || IsOpen(s2, s2.insert) {
      GraphOfSane(b3, reserved + {n}, pending + {n});
      ReachedHasPred(GraphOf(b3), n);
    } else {
      PartQuiet(b2, f, second, n, reserved + {n}, pending + {n});
    }
  }

  lemma ClosedOf2(b3: Builder, t: Block, reserved: set<Block>, pending: set<Block>, b2: Builder, s: Stmt, n: Block)
    requires b3 == ClosePart(LowerStmt(b2, s), n) && StmtReady(b2, reserved, pending)
             && WellNested(s, b2.whileStack != [])
    requires Sane(b3, reserved, pending) && t in b3.body && t !in reserved
    ensures !IsOpen(b3, t)
  {
    hide StmtReady, StmtDone, LowerStmt, ClosePart, Sane, IsOpen, WellNested;
    LowerStmtDone(b2, s, reserved, pending);
    DoneFacts(b2, LowerStmt(b2, s), reserved, pending);
    ClosePartCloses(LowerStmt(b2, s), n);
    ClosedOf(b3, t, reserved, pending);
  }

  lemma IfElseLocals(b: Builder, c: Cond, first: Stmt, second: Stmt, reserved: set<Block>, pending: set<Block>)
    requires StmtReady(b, reserved, pending) && WellNested(IfElse(c, first, second), b.whileStack != [])
    ensures Hoisting(b, LowerStmt(b, IfElse(c, first, second)), Declared(IfElse(c, first, second)),
                     Ends(IfElse(c, first, second)))
    decreases IfElse(c, first, second), 0
  {
    hide LocalsGrew, StmtReady, LowerStmt, LowerTest, StartIf, ClosePart, OpenPart, CloseIf, Erase, IsOpen, Sane, Strip,
         Midway, HasPath, LoopsOk, Grew, JumpTargets;
    var t, f, n := b.next, b.next + 1, b.next + 2;
    TestedIf(b, c, t, f, n, f, reserved, pending);
    var b1 := PopCur(LowerTest(StartIf(b), c, t, f));
    var b2 := ClosePart(LowerStmt(OpenPart(b1, t), first), n);
    var b3 := ClosePart(LowerStmt(OpenPart(b2, f), second), n);
    IfElseParts(b, c, first, second, t, f, n, b1, b2, b3, reserved, pending);
    TestedLocals(b, c, t, f, reserved, pending);
    BranchLocals(b, b1, t, first, n, [], reserved + {n} + {f}, pending + {n});
    BranchLocals(b, b2, f, second, n, [] + Declared(first), reserved + {n}, pending + {n});
    assert [] + Declared(first) + Declared(second) == Declared(first) + Declared(second);
    CloseIfLocals(b, b3, t, n, Declared(first) + Declared(second));
    IfElseOpens(b, c, first, second, t, f, n, b1, b2, b3, reserved, pending);
    LoweredIfElse(b, c, first, second, t, f, n);
  }

  // ----- all statements -----

  lemma EmptyHoists(b: Builder, reserved: set<Block>, pending: set<Block>)
    requires StmtReady(b, reserved, pending)
    ensures Hoisting(b, b, [], false)
  {
    hide StmtReady, LocalsGrew, IsOpen;
    ReadyPlaced(b, reserved, pending);
    LocalsSame(b, b);
  }

  /** Lowering any well-nested statement puts the locals it declares into the entry, in
      order, and no others anywhere; it ends the block it leaves just if `Ends` says so. */
  lemma {:induction false} LocalsHoisted(b: Builder, s: Stmt, reserved: set<Block>, pending: set<Block>)
    requires StmtReady(b, reserved, pending) && WellNested(s, b.whileStack != [])
    ensures Hoisting(b, LowerStmt(b, s), Declared(s), Ends(s))
    decreases s, 2
  {
    hide StmtReady, LowerTest, StartIf, StartWhile, ClosePart, OpenPart, CloseIf, Erase, LowerDecl, LowerReturn,
         LowerList, Emit, Br, PopCur, Top, Pop, Hoisting, DeclaredIn, EndsAny;
    match s
    case Empty => EmptyHoists(b, reserved, pending);
    case Simple(e) => EmitHoists(b, Expr(e), reserved, pending);
    case Decl(v, init) => DeclHoists(b, v, init, reserved, pending);
    case Compound(body) => ListHoisted(b, body, reserved, pending);
    case If(c, first) => IfLocals(b, c, first, reserved, pending);
    case IfElse(c, first, second) => IfElseLocals(b, c, first, second, reserved, pending);
    case While(c, loop) => WhileLocals(b, c, loop, reserved, pending);
    case Break => BrHoists(b, Top(b.whileStack).no, reserved, pending);
    case Continue => BrHoists(b, Top(b.whileStack).yes, reserved, pending);
    case Return(value) => ReturnHoists(b, value, reserved, pending);
  }

  lemma {:induction false} ListHoisted(b: Builder, body: seq<Stmt>, reserved: set<Block>, pending: set<Block>)
    requires StmtReady(b, reserved, pending) && WellNestedAll(body, b.whileStack != [])
    ensures Hoisting(b, LowerList(b, body), DeclaredIn(body), EndsAny(body))
    decreases body, 1
  {
    hide StmtReady, StmtDone, LowerStmt, LowerList, WellNested, WellNestedAll, LocalsGrew, Declared, Ends, IsOpen,
         Terminated, DeclaredIn, EndsAny, Sane, At;
    SourceList(body);
    if body == [] {
      EmptyHoists(b, reserved, pending);
      NothingLowered(b);
    } else {
      var b1, rest := LowerStmt(b, body[0]), body[1..];
      AllNested(body, b.whileStack != []);
      LocalsHoisted(b, body[0], reserved, pending);
      LowerStmtDone(b, body[0], reserved, pending);
      DoneFacts(b, b1, reserved, pending);
      OpenMeans(b1);
      LoweredList(b, body);
      assert Declared(body[0]) + [] == Declared(body[0]);
      if !Terminated(At(b1.body, b1.insert)) {
        NotEnded(b, b1, reserved, pending);
        ListHoisted(b1, rest, reserved, pending);
        HoistingThen(b, b1, LowerList(b1, rest), Declared(body[0]), DeclaredIn(rest), EndsAny(rest));
      }
    }
  }

  lemma SourceList(body: seq<Stmt>)
    ensures body == [] ==> DeclaredIn(body) == [] && !EndsAny(body)
    ensures body != [] ==> DeclaredIn(body) == Declared(body[0]) + (if Ends(body[0]) then [] else DeclaredIn(body[1..]))
    ensures body != [] ==> (EndsAny(body) <==> Ends(body[0]) || EndsAny(body[1..]))
  {
    hide Declared, Ends;
  }

  lemma NothingLowered(b: Builder)
    ensures LowerList(b, []) == b
  {
  }

  // ----- functions -----

  function ParamLocals(n: nat): seq<nat> {
    if n == 0 then [] else ParamLocals(n - 1) + [n]
  }

  /** The address of the value returned, the parameters, the locals declared. */
  function FunctionLocals(f: FuncDef): seq<nat> {
    (if f.isVoid then [] else [0]) + ParamLocals(f.params) + DeclaredIn(f.body)
  }

  lemma EntryLocal(b: Builder, v: nat)
    requires b.entry in b.body && b.insert == b.entry
    ensures LocalsGrew(b, Emit(b, Local(v)), [v])
  {
    LocalsConcat(b.body[b.insert], [Local(v)]);
    LocalsOfOne(Local(v));
    hide LocalsOf;
  }

  lemma {:induction false} ParamsHoisted(b: Builder, n: nat)
    requires Placed(b) && b.insert == b.entry
    ensures LocalsGrew(b, LowerParams(b, n), ParamLocals(n)) && Placed(LowerParams(b, n))
    ensures LowerParams(b, n).insert == b.insert && LowerParams(b, n).entry == b.entry
  {
    hide LocalsGrew;
    if n == 0 {
      LocalsSame(b, b);
    } else {
      var b1 := LowerParams(b, n - 1);
      var b2 := Emit(b1, Local(n));
      ParamsHoisted(b, n - 1);
      EntryLocal(b1, n);
      LocalsEmit(b2, Do(StoreArg(n - 1)));
      LocalsTrans(b, b1, b2, ParamLocals(n - 1), [n]);
      LocalsTrans(b, b2, LowerParams(b, n), ParamLocals(n), []);
      assert ParamLocals(n) + [] == ParamLocals(n);
    }
  }

  lemma EndLocals(b: Builder, isVoid: bool)
    requires Placed(b) && b.ret in b.body
    ensures LocalsGrew(b, EndFunction(b, isVoid), [])
  {
    hide LocalsGrew, Br;
    var b0 := Emit(b, Do(StoreZero));
    LocalsEmit(b, Do(StoreZero));
    LocalsBr(b, b.ret, b.ret);
    LocalsBr(b0, b.ret, b.ret);
    LocalsSame(b, b);
    NoneTrans(b, b0, Br(b0, b.ret));
    var b1 := FallOff(b, isVoid);
    BrFixed(b, b.ret);
    BrFixed(b0, b0.ret);
    BrHas(b, b.ret);
    BrHas(b0, b.ret);
    var b2 := SetInsert(PopCur(b1), b1.ret);
    SameBodies(b, b1, b2);
    LocalsEmit(b2, Do(LoadRet));
    NoneTrans(b, b2, Emit(b2, Do(LoadRet)));
    var b3 := if isVoid then b2 else Emit(b2, Do(LoadRet));
    LocalsEmit(b3, Leave);
    NoneTrans(b, b3, Emit(b3, Leave));
  }

  lemma BrHas(b: Builder, t: Block)
    ensures b.body.Keys <= Br(b, t).body.Keys
  {
  }

  /** Of a well-nested function, the entry has the `alloca` of every local, once for each
      declaration visited and in their order, and no other block has any. */
  lemma LocalsAreInEntry(f: FuncDef)
    requires WellNestedAll(f.body, false)
    ensures var b := LowerFunction(f);
            forall x :: x in b.body ==> LocalsOf(b.body[x]) == if x == b.entry then FunctionLocals(f) else []
  {
    hide LocalsGrew, StmtReady, StmtDone, LowerList, LowerParams, EndFunction, DeclaredIn, ParamLocals, WellNestedAll,
         Sane, Hoisting, LocalsOf;
    var two, b0 := TwoBlocks(f.isVoid), StartFunction(f);
    var b1 := LowerList(b0, f.body);
    TwoBlocksReady(f.isVoid);
    ReadyPlaced(two, {1}, {1});
    TwoBlocksIs(f.isVoid);
    ParamsHoisted(two, f.params);
    StartReady(f);
    ListHoisted(b0, f.body, {1}, {1});
    HoistingGrew(b0, b1, DeclaredIn(f.body), EndsAny(f.body));
    BodyDone(f);
    SaneParts(b1, {1}, {1});
    EndLocals(b1, f.isVoid);
    LocalsTrans(two, b0, b1, ParamLocals(f.params), DeclaredIn(f.body));
    var vs := ParamLocals(f.params) + DeclaredIn(f.body);
    LocalsTrans(two, b1, LowerFunction(f), vs, []);
    assert vs + [] == vs;
    FromTwoBlocks(f, two, LowerFunction(f), vs);
    assert (if f.isVoid then [] else [0]) + vs == FunctionLocals(f);
  }

  lemma HoistingGrew(b: Builder, b': Builder, vs: seq<nat>, ends: bool)
    requires Hoisting(b, b', vs, ends)
    ensures LocalsGrew(b, b', vs)
  {
  }

  lemma FromTwoBlocks(f: FuncDef, two: Builder, b: Builder, vs: seq<nat>)
    requires two == TwoBlocks(f.isVoid) && LocalsGrew(two, b, vs)
    ensures forall x :: x in b.body ==>
              LocalsOf(b.body[x]) == if x == b.entry then (if f.isVoid then [] else [0]) + vs else []
  {
    hide TwoBlocks;
    TwoBlocksIs(f.isVoid);
    LocalsOfOne(Local(0));
    assert LocalsOf([]) == [];
    hide LocalsOf;
    forall x | x in b.body
      ensures LocalsOf(b.body[x]) == if x == b.entry then (if f.isVoid then [] else [0]) + vs else []
    {
      assert LocalsAdded(At(two.body, x), b.body[x], x == two.entry, vs);
    }
  }
}
