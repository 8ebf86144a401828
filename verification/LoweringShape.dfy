/** Lowering keeps the graph in shape: edges mirrored, one terminator a block and
    the edges it calls for, every block reached and on the way to an open one. */
module LoweringShape {
  import opened FlowGraphs
  import opened Statements
  import opened BlockBuilder
  import opened BuilderInvariants
  import opened Lists

  /** Contents without the `alloca`s of locals. */
  function Strip(items: seq<Item>): seq<Item> {
    if items == [] then [] else (if items[0].Local? then [] else [items[0]]) + Strip(items[1..])
  }

  lemma {:induction false} StripConcat(a: seq<Item>, c: seq<Item>)
    ensures Strip(a + c) == Strip(a) + Strip(c)
  {
    if a == [] {
      assert a + c == c;
    } else {
      var head := if a[0].Local? then [] else [a[0]];
      StripConcat(a[1..], c);
      assert (a + c)[1..] == a[1..] + c;
      assert Strip(a + c) == head + (Strip(a[1..]) + Strip(c));
      assert Strip(a) == head + Strip(a[1..]);
    }
  }

  // ----- growth of the function -----

  /** What a stretch of lowering that starts in `x` does to the other blocks: their
      contents stay, but for `alloca`s put into the entry. */
  ghost predicate Frame(b: Builder, b': Builder, x: Block) {
    && b'.entry == b.entry && b'.ret == b.ret && b.next <= b'.next
    && (forall y :: y in b'.body && y !in b.body ==> b.next <= y)
    && (forall y :: y in b.body ==> y in b'.body && KeptBody(b.body[y], b'.body[y], y == x))
  }

  ghost predicate KeptBody(items: seq<Item>, items': seq<Item>, written: bool) {
    if written then Strip(items) <= Strip(items')
    else Strip(items') == Strip(items) && (Terminated(items') <==> Terminated(items))
  }

  ghost predicate PredsKept(b: Builder, b': Builder, targets: set<Block>) {
    forall y :: y in b.preds && y !in targets ==> y in b'.preds && b'.preds[y] == b.preds[y]
  }

  /** From `b` to `b'`, starting in `x` and branching to old blocks in `targets` only. */
  ghost predicate Grew(b: Builder, b': Builder, x: Block, targets: set<Block>) {
    Frame(b, b', x) && MoreEdges(GraphOf(b), GraphOf(b')) && PredsKept(b, b', targets)
  }

  lemma FrameTrans(b: Builder, b1: Builder, b2: Builder, x: Block, y: Block)
    requires Frame(b, b1, x) && Frame(b1, b2, y) && (y == x || y !in b.body)
    ensures Frame(b, b2, x)
  {
    hide Strip, Terminated;
    forall z | z in b.body
      ensures z in b2.body && KeptBody(b.body[z], b2.body[z], z == x)
    {
      assert KeptBody(b.body[z], b1.body[z], z == x);
      assert KeptBody(b1.body[z], b2.body[z], z == y);
    }
  }

  lemma GrewTrans(b: Builder, b1: Builder, b2: Builder, x: Block, y: Block, targets: set<Block>, targets1: set<Block>)
    requires Grew(b, b1, x, targets) && Grew(b1, b2, y, targets1) && (y == x || y !in b.body)
             && b.preds.Keys == b.body.Keys
    requires forall z :: z in targets1 ==> z in targets || z !in b.body
    ensures Grew(b, b2, x, targets)
  {
    hide Frame, MoreEdges;
    FrameTrans(b, b1, b2, x, y);
    MoreEdgesTrans(GraphOf(b), GraphOf(b1), GraphOf(b2));
  }

  lemma GrewMore(b: Builder, b': Builder, x: Block, targets: set<Block>, targets': set<Block>)
    requires Grew(b, b', x, targets) && targets <= targets'
    ensures Grew(b, b', x, targets')
  {
    hide Frame, MoreEdges;
  }

  lemma GrewFixed(b: Builder, b': Builder, x: Block, targets: set<Block>)
    requires Grew(b, b', x, targets)
    ensures b'.entry == b.entry && b'.ret == b.ret && b.next <= b'.next && b.body.Keys <= b'.body.Keys
    ensures forall y :: y in b'.body && y !in b.body ==> b.next <= y
  {
    hide KeptBody, MoreEdges, PredsKept;
  }

  /** Moving the insertion point and the stacks is no growth. */
  lemma GrewSame(b: Builder, b': Builder, x: Block)
    requires b' == b.(insert := b'.insert, orStack := b'.orStack, whileStack := b'.whileStack, curList := b'.curList)
    requires x in b.body ==> Strip(b.body[x]) <= Strip(b.body[x])
    ensures Grew(b, b', x, {})
  {
  }

  lemma GrewNewBlock(b: Builder, x: Block)
    requires b.next !in b.body && b.next !in b.succs && b.next !in b.preds
    ensures Grew(b, NewBlock(b), x, {})
  {
  }

  lemma GrewEmit(b: Builder, i: Item)
    requires b.insert in b.body
    ensures Grew(b, Emit(b, i), b.insert, {})
  {
    StripConcat(b.body[b.insert], [i]);
    hide Strip;
  }

  lemma GrewBr(b: Builder, t: Block)
    requires b.insert in b.body && b.insert in b.succs
    ensures Grew(b, Br(b, t), b.insert, {t})
  {
    StripConcat(b.body[b.insert], [Jump(t)]);
    hide Strip;
  }

  lemma GrewCondBr(b: Builder, t: Block, f: Block)
    requires b.insert in b.body && b.insert in b.succs
    ensures Grew(b, CondBr(b, t, f), b.insert, {t, f})
  {
    StripConcat(b.body[b.insert], [Branch(t, f)]);
    hide Strip;
  }

  /** Erasing a block that was not there before. */
  lemma GrewErase(b: Builder, b1: Builder, x: Block, targets: set<Block>, y: Block)
    requires Grew(b, b1, x, targets) && y !in b.body && y !in b.succs && y !in b.preds && Isolated(b1, y)
             && GraphOk(GraphOf(b))
    ensures Grew(b, Erase(b1, y), x, targets)
  {
    hide GraphOk;
    EraseCuts(b1, y);
    var b2 := Erase(b1, y);
    forall z | z in b.body
      ensures z in b2.body && b2.body[z] == b1.body[z]
    {
    }
    hide KeptBody, Without;
    ErasedEdges(GraphOf(b), GraphOf(b1), GraphOf(b2), y);
  }

  lemma ErasedEdges(g: FlowGraph, g1: FlowGraph, g2: FlowGraph, y: Block)
    requires MoreEdges(g, g1) && Cut(g1, g2, y) && y !in g.succs
    ensures MoreEdges(g, g2)
  {
  }

  // ----- conditions -----

  ghost predicate SameStacks(b: Builder, b': Builder) {
    b'.orStack == b.orStack && b'.whileStack == b.whileStack
  }

  /** The insertion point stays or is in a new block. */
  ghost predicate Moved(b: Builder, b': Builder) {
    b'.insert == b.insert || b'.insert !in b.body
  }

  ghost predicate CondDone(b: Builder, b': Builder, reserved: set<Block>, pending: set<Block>) {
    && Sane(b', reserved, pending) && IsOpen(b', b'.insert)
    && Grew(b, b', b.insert, {Top(b.orStack).yes, Top(b.orStack).no})
    && SameStacks(b, b') && b'.curList == b.curList && Moved(b, b')
    && HasPath(GraphOf(b'), b.insert, b'.insert)
  }

  /** The first operand of `&&` or `||`, the branch on it, and the move to the block of the second. */
  lemma OperandDone(b: Builder, b0: Builder, b1: Builder, t: Block, f: Block, y: Block, ts: set<Block>,
                    reserved: set<Block>, pending: set<Block>)
    requires Sane(b, reserved, pending) && IsOpen(b, b.insert)
    requires y == b.next && b0 == NewBlock(b).(orStack := b0.orStack)
    requires CondDone(b0, b1.(orStack := b0.orStack), reserved + {y}, pending + {y})
    requires {Top(b0.orStack).yes, Top(b0.orStack).no, t, f} <= ts && {t, f} <= reserved + {y} && y in {t, f}
    ensures y !in b.body && y !in reserved
    ensures var b2 := SetInsert(CondBr(b1, t, f), y);
            Sane(b2, reserved, pending) && IsOpen(b2, b2.insert) && Grew(b, b2, b.insert, ts)
            && HasPath(GraphOf(b2), b.insert, y)
  {
    hide Sane, MoreEdges, HasPath, Frame, PredsKept, IsOpen;
    SaneParts(b, reserved, pending);
    var b1' := b1.(orStack := b0.orStack);
    SaneParts(b1', reserved + {y}, pending + {y});
    StacksSane(b1', b1, reserved + {y}, pending + {y});
    var b2 := CondBr(b1, t, f);
    OpenSame(b1', b1);
    CondBrSane(b1, t, f, reserved + {y}, pending + {y});
    GrewFixed(b0, b1', b0.insert, {Top(b0.orStack).yes, Top(b0.orStack).no});
    SaneWeaker(b2, reserved + {y}, (pending + {y}) - {t, f}, pending);
    MoveSane(b2, y, reserved + {y}, pending);
    assert reserved + {y} - {y} == reserved;
    GrewOperand(b, b0, b1', b1, t, f, y, ts);
    PathKept(GraphOf(b1), GraphOf(b2), b.insert, b1.insert);
    CondBrPath(b1, t, f, y, reserved + {y}, pending + {y});
    PathJoined(GraphOf(b2), b.insert, b1.insert, y);
  }

  lemma OpenSame(b: Builder, b': Builder)
    requires b'.body == b.body && b'.insert == b.insert
    ensures IsOpen(b', b'.insert) <==> IsOpen(b, b.insert)
  {
  }

  lemma CondBrPath(b: Builder, t: Block, f: Block, y: Block, reserved: set<Block>, pending: set<Block>)
    requires Sane(b, reserved, pending) && IsOpen(b, b.insert) && y in {t, f} && y in b.succs
    ensures HasPath(GraphOf(CondBr(b, t, f)), b.insert, y)
  {
    hide Sane;
    SaneParts(b, reserved, pending);
    PathOfEdge(GraphOf(CondBr(b, t, f)), b.insert, y);
  }

  lemma GrewOperand(b: Builder, b0: Builder, b1': Builder, b1: Builder, t: Block, f: Block, y: Block, ts: set<Block>)
    requires KeysOk(b) && y == b.next && b0 == NewBlock(b).(orStack := b0.orStack) && b1' == b1.(orStack := b0.orStack)
    requires Grew(b0, b1', b0.insert, {Top(b0.orStack).yes, Top(b0.orStack).no}) && KeysOk(b1) && Moved(b0, b1')
    requires {Top(b0.orStack).yes, Top(b0.orStack).no, t, f} <= ts
    ensures Grew(b, SetInsert(CondBr(b1, t, f), y), b.insert, ts)
  {
    hide Grew;
    assert y !in b.body;
    GrewNewBlock(b, b.insert);
    GrewSame(NewBlock(b), b0, b.insert);
    GrewTrans(b, NewBlock(b), b0, b.insert, b.insert, {}, {});
    GrewMore(b, b0, b.insert, {}, ts);
    GrewTrans(b, b0, b1', b.insert, b.insert, ts, {Top(b0.orStack).yes, Top(b0.orStack).no});
    GrewSame(b1', b1, b.insert);
    GrewTrans(b, b1', b1, b.insert, b.insert, ts, {});
    GrewCondBr(b1, t, f);
    GrewTrans(b, b1, CondBr(b1, t, f), b.insert, b1.insert, ts, {t, f});
    GrewSame(CondBr(b1, t, f), SetInsert(CondBr(b1, t, f), y), b.insert);
    GrewTrans(b, CondBr(b1, t, f), SetInsert(CondBr(b1, t, f), y), b.insert, b.insert, ts, {});
  }

  /** The targets of a condition are reserved blocks. */
  ghost predicate CondReady(b: Builder, reserved: set<Block>, pending: set<Block>) {
    && Sane(b, reserved, pending) && IsOpen(b, b.insert) && b.orStack != []
    && Top(b.orStack).yes in reserved && Top(b.orStack).no in reserved
  }

  lemma LeafDone(b: Builder, e: nat, reserved: set<Block>, pending: set<Block>)
    requires CondReady(b, reserved, pending)
    ensures CondDone(b, Emit(b, Do(Expr(e))), reserved, pending)
  {
    hide Sane, MoreEdges, HasPath, Grew, IsOpen;
    SaneParts(b, reserved, pending);
    EmitSane(b, Do(Expr(e)), reserved, pending);
    GrewEmit(b, Do(Expr(e)));
    GrewMore(b, Emit(b, Do(Expr(e))), b.insert, {}, {Top(b.orStack).yes, Top(b.orStack).no});
    PathToSelf(GraphOf(Emit(b, Do(Expr(e)))), b.insert);
  }

  /** The second operand, in its own block. */
  lemma SecondDone(b: Builder, b2: Builder, b3: Builder, y: Block, reserved: set<Block>, pending: set<Block>)
    requires CondReady(b, reserved, pending) && y == b.next && b2.insert == y
    requires Grew(b, b2, b.insert, {Top(b.orStack).yes, Top(b.orStack).no, y}) && HasPath(GraphOf(b2), b.insert, y)
    requires SameStacks(b, b2) && b2.curList == b.curList && CondDone(b2, b3, reserved, pending)
    ensures CondDone(b, b3, reserved, pending)
  {
    hide Sane, MoreEdges, HasPath, Frame, PredsKept, IsOpen;
    SaneParts(b, reserved, pending);
    SaneParts(b3, reserved, pending);
    var ts := {Top(b.orStack).yes, Top(b.orStack).no};
    assert ts + {y} == {Top(b.orStack).yes, Top(b.orStack).no, y};
    GrewTrans(b, b2, b3, b.insert, y, ts + {y}, ts);
    GrewLess(b, b3, b.insert, ts, y);
    PathKept(GraphOf(b2), GraphOf(b3), b.insert, y);
    PathJoined(GraphOf(b3), b.insert, y, b3.insert);
    GrewFixed(b, b2, b.insert, ts + {y});
  }

  /** A target that is no old block need not be mentioned. */
  lemma GrewLess(b: Builder, b': Builder, x: Block, targets: set<Block>, y: Block)
    requires Grew(b, b', x, targets + {y}) && y !in b.preds
    ensures Grew(b, b', x, targets)
  {
    hide Frame, MoreEdges;
  }

  lemma {:induction false} LowerCondDone(b: Builder, c: Cond, reserved: set<Block>, pending: set<Block>)
    requires CondReady(b, reserved, pending)
    ensures CondDone(b, LowerCond(b, c), reserved, pending)
    decreases c, 1
  {
    hide Sane, HasPath, Grew, IsOpen;
    match c
    case Leaf(e) => LeafDone(b, e, reserved, pending);
    case And(l, r) => AndDone(b, l, r, reserved, pending);
    case Or(l, r) => OrDone(b, l, r, reserved, pending);
  }

  lemma AndDone(b: Builder, l: Cond, r: Cond, reserved: set<Block>, pending: set<Block>)
    requires CondReady(b, reserved, pending)
    ensures CondDone(b, LowerCond(b, And(l, r)), reserved, pending)
    decreases And(l, r), 0
  {
    hide Sane, HasPath, Grew, IsOpen, CondBr;
    var y, f := b.next, Top(b.orStack).no;
    var b0 := NewBlock(b);
    SaneParts(b, reserved, pending);
    NewBlockSane(b, reserved, pending);
    StillOpen(b);
    LowerCondDone(b0, l, reserved + {y}, pending + {y});
    var b1 := LowerCond(b0, l);
    assert b1.(orStack := b0.orStack) == b1;
    OperandDone(b, b0, b1, y, f, y, {Top(b.orStack).yes, f, y}, reserved, pending);
    var b2 := SetInsert(CondBr(b1, y, f), y);
    CondBrKeeps(b1, y, f);
    LowerCondDone(b2, r, reserved, pending);
    SecondDone(b, b2, LowerCond(b2, r), y, reserved, pending);
  }

  lemma OrDone(b: Builder, l: Cond, r: Cond, reserved: set<Block>, pending: set<Block>)
    requires CondReady(b, reserved, pending)
    ensures CondDone(b, LowerCond(b, Or(l, r)), reserved, pending)
    decreases Or(l, r), 0
  {
    hide Sane, HasPath, Grew, IsOpen, CondBr;
    var y, t, f := b.next, Top(b.orStack).yes, Top(b.orStack).no;
    var b0 := NewBlock(b).(orStack := b.orStack + [Targets(t, y)]);
    SaneParts(b, reserved, pending);
    NewBlockSane(b, reserved, pending);
    StacksSane(NewBlock(b), b0, reserved + {y}, pending + {y});
    StillOpen(b);
    OpenSame(NewBlock(b), b0);
    LowerCondDone(b0, l, reserved + {y}, pending + {y});
    var b1 := LowerCond(b0, l);
    var b1' := b1.(orStack := Pop(b1.orStack));
    assert b1'.(orStack := b0.orStack) == b1;
    OperandDone(b, b0, b1', t, y, y, {t, f, y}, reserved, pending);
    assert b1'.orStack == b.orStack;
    var b2 := SetInsert(CondBr(b1', t, y), y);
    CondBrKeeps(b1', t, y);
    LowerCondDone(b2, r, reserved, pending);
    SecondDone(b, b2, LowerCond(b2, r), y, reserved, pending);
  }

  lemma StillOpen(b: Builder)
    requires b.insert in b.body && b.next !in b.body
    ensures IsOpen(NewBlock(b), b.insert) <==> IsOpen(b, b.insert)
  {
  }

  lemma CondBrKeeps(b: Builder, t: Block, f: Block)
    ensures SameStacks(b, CondBr(b, t, f)) && CondBr(b, t, f).curList == b.curList && CondBr(b, t, f).insert == b.insert
  {
  }
}
