/** Lowering of statements to basic blocks, as a function of the builder's state. */
module BlockBuilder {
  import opened FlowGraphs
  import opened Statements
  import opened Lists

  /** Instructions of a block. A branch tests the value of the last atom computed. */
  datatype Item = Local(v: nat) | Do(a: Atom) | Jump(t: Block) | Branch(t: Block, f: Block) | Leave

  predicate IsTerminator(i: Item) {
    i.Jump? || i.Branch? || i.Leave?
  }

  /** `get_terminator() != nullptr`. */
  predicate Terminated(items: seq<Item>) {
    items != [] && IsTerminator(items[|items| - 1])
  }

  /** `true_false_BB`. */
  datatype Targets = Targets(yes: Block, no: Block)

  /** `list` is `basic_blocks_`; `next` the identity of the next block; the stacks
      are the globals of the same purpose. */
  datatype Builder = Builder(
    list: seq<Block>,
    body: map<Block, seq<Item>>,
    succs: map<Block, seq<Block>>,
    preds: map<Block, seq<Block>>,
    next: Block,
    insert: Block,
    orStack: seq<Targets>,
    whileStack: seq<Targets>,
    curList: seq<Block>,
    entry: Block,
    ret: Block
  )

  function At<T>(m: map<Block, seq<T>>, b: Block): seq<T> {
    if b in m then m[b] else []
  }

  function Pop<T>(s: seq<T>): seq<T> {
    if s == [] then [] else s[..|s| - 1]
  }

  function Top(s: seq<Targets>): Targets {
    if s == [] then Targets(0, 0) else s[|s| - 1]
  }

  function Last(s: seq<Block>): Block {
    if s == [] then 0 else s[|s| - 1]
  }

  // ----- builder operations -----

  /** `BasicBlock::create`; the new block is the old `next`. */
  function NewBlock(b: Builder): Builder {
    b.(list := b.list + [b.next], body := b.body[b.next := []], succs := b.succs[b.next := []],
       preds := b.preds[b.next := []],
       next := b.next + 1)
  }

  function Emit(b: Builder, i: Item): Builder {
    b.(body := b.body[b.insert := At(b.body, b.insert) + [i]])
  }

  /** `create_br`. */
  function Br(b: Builder, t: Block): Builder {
    Emit(b.(preds := b.preds[t := At(b.preds, t) + [b.insert]],
            succs := b.succs[b.insert := At(b.succs, b.insert) + [t]]), Jump(t))
  }

  /** `create_cond_br`: the false edge is listed first. */
  function CondBr(b: Builder, t: Block, f: Block): Builder {
    var preds1 := b.preds[t := At(b.preds, t) + [b.insert]];
    Emit(b.(preds := preds1[f := At(preds1, f) + [b.insert]],
            succs := b.succs[b.insert := At(b.succs, b.insert) + [f] + [t]]), Branch(t, f))
  }

  /** `erase_from_parent`. */
  function Erase(b: Builder, x: Block): Builder {
    b.(list := Without(b.list, x),
       body := map y | y in b.body && y != x :: b.body[y],
       succs := map y | y in b.succs && y != x :: if y in At(b.preds, x) then Without(b.succs[y], x) else b.succs[y],
       preds := map y | y in b.preds && y != x :: if y in At(b.succs, x) then Without(b.preds[y], x) else b.preds[y])
  }

  function SetInsert(b: Builder, x: Block): Builder {
    b.(insert := x)
  }

  function PushCur(b: Builder, x: Block): Builder {
    b.(curList := b.curList + [x])
  }

  function PopCur(b: Builder): Builder {
    b.(curList := Pop(b.curList))
  }

  predicate IsOpen(b: Builder, x: Block) {
    x in b.body && !Terminated(b.body[x])
  }

  /** A branch to `x` unless the insertion block has ended. */
  function BrIfOpen(b: Builder, x: Block): Builder {
    if Terminated(At(b.body, b.insert)) then b else Br(b, x)
  }

  // ----- conditions -----

  function LowerCond(b: Builder, c: Cond): Builder
    decreases c
  {
    match c
    case Leaf(e) => Emit(b, Do(Expr(e)))
    case And(l, r) =>
      var trueBB := b.next;
      var b1 := LowerCond(NewBlock(b), l);
      LowerCond(SetInsert(CondBr(b1, trueBB, Top(b1.orStack).no), trueBB), r)
    case Or(l, r) =>
      var falseBB := b.next;
      var b0 := NewBlock(b);
      var b1 := LowerCond(b0.(orStack := b0.orStack + [Targets(Top(b0.orStack).yes, falseBB)]), l);
      var b2 := b1.(orStack := Pop(b1.orStack));
      LowerCond(SetInsert(CondBr(b2, Top(b2.orStack).yes, falseBB), falseBB), r)
  }

  /** A whole condition, and the branch on it. */
  function LowerTest(b: Builder, c: Cond, t: Block, f: Block): Builder {
    var b1 := LowerCond(b.(orStack := b.orStack + [Targets(t, f)]), c);
    CondBr(b1.(orStack := Pop(b1.orStack)), t, f)
  }

  // ----- statements -----

  /** The `alloca` of a local goes to the end of the entry, before its terminator:
      it is created at the insertion point, taken out of the current block again,
      and added to the entry. */
  function Hoist(b: Builder, v: nat): Builder {
    var e := At(b.body, b.entry);
    var tail := if Terminated(e) then [e[|e| - 1]] else [];
    var b1 := if Terminated(e) then b.(body := b.body[b.entry := Pop(e)]) else b;
    var b2 := Emit(b1, Local(v));
    var cur := Last(b2.curList);
    var b3 := b2.(body := b2.body[cur := Pop(At(b2.body, cur))]);
    var b4 := b3.(body := b3.body[b3.entry := At(b3.body, b3.entry) + [Local(v)]]);
    if Terminated(e) then b4.(body := b4.body[b4.entry := At(b4.body, b4.entry) + tail]) else b4
  }

  function LowerDecl(b: Builder, v: nat, init: Option<nat>): Builder {
    var b1 := Hoist(b, v);
    if init.Some? then Emit(b1, Do(Expr(init.value))) else b1
  }

  function LowerReturn(b: Builder, value: Option<nat>): Builder {
    var b1 := if value.Some? then Emit(Emit(b, Do(Expr(value.value))), Do(StoreRet)) else b;
    Br(b1, b1.ret)
  }

  /** After the two branches: the next block goes away if nothing leads to it. */
  function CloseIf(b: Builder, trueBB: Block, nextBB: Block): Builder {
    var b1 := PushCur(SetInsert(b, nextBB), nextBB);
    if At(b1.preds, nextBB) == [] then Erase(SetInsert(b1, trueBB), nextBB) else b1
  }

  /** The start of a branch or a loop body. */
  function OpenPart(b: Builder, x: Block): Builder {
    PushCur(SetInsert(b, x), x)
  }

  /** Its end. */
  function ClosePart(b: Builder, to: Block): Builder {
    PopCur(BrIfOpen(b, to))
  }

  function StartIf(b: Builder): Builder {
    NewBlock(NewBlock(NewBlock(b)))
  }

  function StartWhile(b: Builder): Builder {
    var b1 := NewBlock(NewBlock(NewBlock(b)));
    var b2 := BrIfOpen(b1.(whileStack := b1.whileStack + [Targets(b.next, b.next + 2)]), b.next);
    SetInsert(PopCur(b2), b.next)
  }

  function LowerStmt(b: Builder, s: Stmt): Builder
    decreases s
  {
    match s
    case Empty => b
    case Simple(e) => Emit(b, Do(Expr(e)))
    case Decl(v, init) => LowerDecl(b, v, init)
    case Compound(body) => LowerList(b, body)
    case If(c, first) =>
      var trueBB, falseBB, nextBB := b.next, b.next + 1, b.next + 2;
      var b1 := PopCur(LowerTest(StartIf(b), c, trueBB, nextBB));
      var b2 := ClosePart(LowerStmt(OpenPart(b1, trueBB), first), nextBB);
      CloseIf(Erase(b2, falseBB), trueBB, nextBB)
    case IfElse(c, first, second) =>
      var trueBB, falseBB, nextBB := b.next, b.next + 1, b.next + 2;
      var b1 := PopCur(LowerTest(StartIf(b), c, trueBB, falseBB));
      var b2 := ClosePart(LowerStmt(OpenPart(b1, trueBB), first), nextBB);
      var b3 := ClosePart(LowerStmt(OpenPart(b2, falseBB), second), nextBB);
      CloseIf(b3, trueBB, nextBB)
    case While(c, loop) =>
      var whileBB, trueBB, nextBB := b.next, b.next + 1, b.next + 2;
      var b1 := LowerTest(StartWhile(b), c, trueBB, nextBB);
      var b2 := ClosePart(LowerStmt(OpenPart(b1, trueBB), loop), whileBB);
      var b3 := OpenPart(b2, nextBB);
      b3.(whileStack := Pop(b3.whileStack))
    case Break => Br(b, Top(b.whileStack).no)
    case Continue => Br(b, Top(b.whileStack).yes)
    case Return(value) => LowerReturn(b, value)
  }

  /** Statements behind a terminator are dropped. */
  function LowerList(b: Builder, body: seq<Stmt>): Builder
    decreases body
  {
    if body == [] then b
    else
      var b1 := LowerStmt(b, body[0]);
      if Terminated(At(b1.body, b1.insert)) then b1 else LowerList(b1, body[1..])
  }

  // ----- functions -----

  function LowerParams(b: Builder, n: nat): Builder {
    if n == 0 then b
    else
      var b1 := LowerParams(b, n - 1);
      Emit(Emit(b1, Local(n)), Do(StoreArg(n - 1)))
  }

  /** The entry, the address of the value returned, and the `ret` block. */
  function TwoBlocks(isVoid: bool): Builder {
    var b0 := Builder([0], map[0 := []], map[0 := []], map[0 := []], 1, 0, [], [], [0], 0, 1);
    NewBlock(if isVoid then b0 else Emit(b0, Local(0)))
  }

  function StartFunction(f: FuncDef): Builder {
    LowerParams(TwoBlocks(f.isVoid), f.params)
  }

  /** The way to the `ret` block from the end of the body. */
  function FallOff(b: Builder, isVoid: bool): Builder {
    if Terminated(At(b.body, b.insert)) then b
    else if isVoid then Br(b, b.ret)
    else Br(Emit(b, Do(StoreZero)), b.ret)
  }

  /** And that block. */
  function EndFunction(b: Builder, isVoid: bool): Builder {
    var b1 := FallOff(b, isVoid);
    var b2 := SetInsert(PopCur(b1), b1.ret);
    Emit(if isVoid then b2 else Emit(b2, Do(LoadRet)), Leave)
  }

  function LowerFunction(f: FuncDef): Builder {
    EndFunction(LowerList(StartFunction(f), f.body), f.isVoid)
  }
}
