/** Running the lowered blocks does what the source does. */
module LoweringRuns {
  import opened FlowGraphs
  import opened Statements
  import opened Conditions
  import opened BlockBuilder
  import opened BuilderInvariants
  import opened LoweringShape
  import opened LoweringStmts

  // ----- running blocks -----

  type Code = map<Block, seq<Item>>

  datatype Exit = To(b: Block) | Left | Fell

  /** The instructions up to the next transfer. A branch tests the last atom computed. */
  function Straight(o: Oracle, items: seq<Item>, tr: Trace): (Trace, Exit) {
    if items == [] then (tr, Fell)
    else match items[0]
         case Local(_) => Straight(o, items[1..], tr)
         case Do(a) => Straight(o, items[1..], tr + [a])
         case Jump(t) => (tr, To(t))
         case Branch(t, f) => (tr, To(if o(tr) then t else f))
         case Leave => (tr, Left)
  }

  datatype Progress = Running | Finished(tr: Trace) | Stuck

  /** Up to `n` transfers from the start of `items`. */
  function RunFrom(o: Oracle, code: Code, items: seq<Item>, tr: Trace, n: nat): Progress
    decreases n
  {
    var (tr1, e) := Straight(o, items, tr);
    match e
    case Left => Finished(tr1)
    case Fell => Stuck
    case To(b) => if n == 0 then Running else RunFrom(o, code, At(code, b), tr1, n - 1)
  }

  /** After `k` transfers, and not before, the run goes on from `items'`. */
  ghost predicate LeadsIn(o: Oracle, code: Code, items: seq<Item>, tr: Trace, k: nat, items': seq<Item>, tr': Trace) {
    && (k > 0 ==> RunFrom(o, code, items, tr, k - 1).Running?)
    && forall n: nat :: k <= n ==> RunFrom(o, code, items, tr, n) == RunFrom(o, code, items', tr', n - k)
  }

  ghost predicate Leads(o: Oracle, code: Code, items: seq<Item>, tr: Trace, items': seq<Item>, tr': Trace) {
    exists k :: LeadsIn(o, code, items, tr, k, items', tr')
  }

  /** Still running after `m` transfers. */
  ghost predicate Lasts(o: Oracle, code: Code, items: seq<Item>, tr: Trace, m: nat) {
    RunFrom(o, code, items, tr, m).Running?
  }

  lemma {:induction false} LastsLess(o: Oracle, code: Code, items: seq<Item>, tr: Trace, m: nat, m': nat)
    requires Lasts(o, code, items, tr, m) && m' <= m
    ensures Lasts(o, code, items, tr, m')
    decreases m
  {
    if m' > 0 {
      var (tr1, e) := Straight(o, items, tr);
      LastsLess(o, code, At(code, e.b), tr1, m - 1, m' - 1);
    }
  }

  lemma LeadsRefl(o: Oracle, code: Code, items: seq<Item>, tr: Trace)
    ensures Leads(o, code, items, tr, items, tr)
  {
    assert LeadsIn(o, code, items, tr, 0, items, tr);
  }

  /** The same with at least one transfer. */
  ghost predicate Jumps(o: Oracle, code: Code, items: seq<Item>, tr: Trace, items': seq<Item>, tr': Trace) {
    exists k: nat :: k > 0 && LeadsIn(o, code, items, tr, k, items', tr')
  }

  lemma JumpsIsLeads(o: Oracle, code: Code, a: seq<Item>, tr: Trace, b: seq<Item>, tr1: Trace)
    requires Jumps(o, code, a, tr, b, tr1)
    ensures Leads(o, code, a, tr, b, tr1)
  {
    hide LeadsIn;
  }

  lemma LeadsInTrans(o: Oracle, code: Code, a: seq<Item>, tr: Trace, k: nat, b: seq<Item>, tr1: Trace, m: nat,
                     c: seq<Item>, tr2: Trace)
    requires LeadsIn(o, code, a, tr, k, b, tr1) && LeadsIn(o, code, b, tr1, m, c, tr2)
    ensures LeadsIn(o, code, a, tr, k + m, c, tr2)
  {
    hide RunFrom;
    if m > 0 {
      assert RunFrom(o, code, a, tr, k + m - 1) == RunFrom(o, code, b, tr1, m - 1);
    }
    forall n: nat | k + m <= n
      ensures RunFrom(o, code, a, tr, n) == RunFrom(o, code, c, tr2, n - (k + m))
    {
      assert RunFrom(o, code, a, tr, n) == RunFrom(o, code, b, tr1, n - k);
    }
  }

  lemma LeadsTrans(o: Oracle, code: Code, a: seq<Item>, tr: Trace, b: seq<Item>, tr1: Trace, c: seq<Item>, tr2: Trace)
    requires Leads(o, code, a, tr, b, tr1) && Leads(o, code, b, tr1, c, tr2)
    ensures Leads(o, code, a, tr, c, tr2)
    ensures Jumps(o, code, a, tr, b, tr1) || Jumps(o, code, b, tr1, c, tr2) ==> Jumps(o, code, a, tr, c, tr2)
  {
    hide LeadsIn;
    var k: nat, m: nat :| LeadsIn(o, code, a, tr, k, b, tr1) && LeadsIn(o, code, b, tr1, m, c, tr2);
    LeadsInTrans(o, code, a, tr, k, b, tr1, m, c, tr2);
    if Jumps(o, code, a, tr, b, tr1) {
      var k': nat :| k' > 0 && LeadsIn(o, code, a, tr, k', b, tr1);
      LeadsInTrans(o, code, a, tr, k', b, tr1, m, c, tr2);
    }
    if Jumps(o, code, b, tr1, c, tr2) {
      var m': nat :| m' > 0 && LeadsIn(o, code, b, tr1, m', c, tr2);
      LeadsInTrans(o, code, a, tr, k, b, tr1, m', c, tr2);
    }
  }

  lemma LeadsLasts(o: Oracle, code: Code, a: seq<Item>, tr: Trace, b: seq<Item>, tr1: Trace, m: nat)
    requires Leads(o, code, a, tr, b, tr1) && Lasts(o, code, b, tr1, m)
    ensures Lasts(o, code, a, tr, m)
    ensures Jumps(o, code, a, tr, b, tr1) ==> Lasts(o, code, a, tr, m + 1)
  {
    var k: nat :| LeadsIn(o, code, a, tr, k, b, tr1);
    assert RunFrom(o, code, a, tr, m + k) == RunFrom(o, code, b, tr1, m);
    LastsLess(o, code, a, tr, m + k, m);
    if Jumps(o, code, a, tr, b, tr1) {
      var k': nat :| k' > 0 && LeadsIn(o, code, a, tr, k', b, tr1);
      assert RunFrom(o, code, a, tr, m + k') == RunFrom(o, code, b, tr1, m);
      LastsLess(o, code, a, tr, m + k', m + 1);
    }
  }

  /** Whoever transfers has not finished before. */
  lemma JumpsLasts(o: Oracle, code: Code, a: seq<Item>, tr: Trace, b: seq<Item>, tr1: Trace)
    requires Jumps(o, code, a, tr, b, tr1)
    ensures Lasts(o, code, a, tr, 0)
  {
    var k: nat :| k > 0 && LeadsIn(o, code, a, tr, k, b, tr1);
    LastsLess(o, code, a, tr, k - 1, 0);
  }

  /** A transfer takes a step. */
  lemma TransferJumps(o: Oracle, code: Code, items: seq<Item>, tr: Trace, b: Block)
    requires Straight(o, items, tr) == (tr, To(b))
    ensures Jumps(o, code, items, tr, At(code, b), tr)
  {
    assert LeadsIn(o, code, items, tr, 1, At(code, b), tr);
  }

  lemma AtomLeads(o: Oracle, code: Code, a: Atom, rest: seq<Item>, tr: Trace)
    ensures Leads(o, code, [Do(a)] + rest, tr, rest, tr + [a])
  {
    assert ([Do(a)] + rest)[1..] == rest;
    assert Straight(o, [Do(a)] + rest, tr) == Straight(o, rest, tr + [a]);
    assert LeadsIn(o, code, [Do(a)] + rest, tr, 0, rest, tr + [a]);
  }

  lemma {:induction false} StraightStrip(o: Oracle, items: seq<Item>, tr: Trace)
    ensures Straight(o, Strip(items), tr) == Straight(o, items, tr)
    decreases items
  {
    if items != [] {
      match items[0]
      case Local(_) =>
        assert Strip(items) == Strip(items[1..]);
        StraightStrip(o, items[1..], tr);
      case Do(a) =>
        assert Strip(items)[1..] == Strip(items[1..]);
        StraightStrip(o, items[1..], tr + [a]);
      case _ =>
    }
  }

  function StripAll(code: Code): Code {
    map x | x in code :: Strip(code[x])
  }

  /** `alloca`s make no difference. */
  lemma {:induction false} RunStripped(o: Oracle, code: Code, items: seq<Item>, tr: Trace, n: nat)
    ensures RunFrom(o, StripAll(code), Strip(items), tr, n) == RunFrom(o, code, items, tr, n)
    decreases n
  {
    hide Straight, Strip;
    StraightStrip(o, items, tr);
    var (tr1, e) := Straight(o, items, tr);
    if e.To? && n > 0 {
      StripEmpty();
      assert At(StripAll(code), e.b) == Strip(At(code, e.b));
      RunStripped(o, code, At(code, e.b), tr1, n - 1);
    }
  }

  lemma StripEmpty()
    ensures Strip([]) == []
  {
  }

  // ----- what a builder's state fixes of the finished function -----

  ghost predicate KeptFinal(items: seq<Item>, items': seq<Item>) {
    Strip(items) <= Strip(items') && (Terminated(items) ==> Strip(items) == Strip(items'))
  }

  /** The finished code `code` has the blocks of `b` but those in `gone`: closed ones
      as they are, open ones perhaps with more instructions. */
  ghost predicate Extends(b: Builder, code: Code, gone: set<Block>) {
    forall x :: x in b.body && x !in gone ==> x in code && KeptFinal(b.body[x], code[x])
  }

  /** What will stand behind the insertion point. */
  function Rest(b: Builder, code: Code): seq<Item> {
    var done, all := Strip(At(b.body, b.insert)), Strip(At(code, b.insert));
    if |done| <= |all| then all[|done|..] else []
  }

  /** What will stand in a block. */
  function Whole(code: Code, x: Block): seq<Item> {
    At(StripAll(code), x)
  }

  lemma ExtendsBack(b: Builder, b': Builder, targets: set<Block>, code: Code, gone: set<Block>, gone': set<Block>)
    requires Grew(b, b', b.insert, targets) && IsOpen(b, b.insert) && Extends(b', code, gone')
    requires forall x :: x in gone' && x in b.body ==> x in gone
    ensures Extends(b, code, gone)
  {
    hide Strip, Terminated, MoreEdges, PredsKept;
    forall x | x in b.body && x !in gone
      ensures x in code && KeptFinal(b.body[x], code[x])
    {
      assert KeptBody(b.body[x], b'.body[x], x == b.insert);
      assert KeptFinal(b'.body[x], code[x]);
    }
  }

  lemma ExtendsSame(b: Builder, b': Builder, code: Code, gone: set<Block>)
    requires Extends(b', code, gone) && b'.body == b.body
    ensures Extends(b, code, gone)
  {
  }

  lemma ExtendsErase(b: Builder, x: Block, code: Code, gone: set<Block>)
    requires Extends(Erase(b, x), code, gone)
    ensures Extends(b, code, gone + {x})
  {
    hide KeptFinal;
  }

  /** At the start of an empty block all of it is still to come. */
  lemma RestIsWhole(b: Builder, code: Code)
    requires Strip(At(b.body, b.insert)) == []
    ensures Rest(b, code) == Whole(code, b.insert)
  {
  }

  lemma NextOfPrefix(done: seq<Item>, i: Item, all: seq<Item>)
    requires done + [i] <= all
    ensures |done| <= |all| && all[|done|..] == [i] + all[|done + [i]|..]
  {
    assert all[|done|] == (done + [i])[|done|];
  }

  /** An instruction stands where it was emitted. */
  lemma RestOfEmit(b: Builder, i: Item, code: Code, gone: set<Block>)
    requires b.insert in b.body && b.insert !in gone && Extends(Emit(b, i), code, gone) && !i.Local?
    ensures Rest(b, code) == [i] + Rest(Emit(b, i), code)
  {
    hide Terminated, Strip;
    StripConcat(b.body[b.insert], [i]);
    StripOne(i);
    assert KeptFinal(Emit(b, i).body[b.insert], code[b.insert]);
    NextOfPrefix(Strip(b.body[b.insert]), i, Strip(code[b.insert]));
  }

  lemma StripOne(i: Item)
    ensures !i.Local? ==> Strip([i]) == [i]
  {
  }

  /** A terminator is the last of its block. */
  lemma RestOfEnd(b: Builder, i: Item, code: Code, gone: set<Block>)
    requires b.insert in b.body && b.insert !in gone && Extends(Emit(b, i), code, gone) && IsTerminator(i)
    ensures Rest(b, code) == [i]
  {
    StripConcat(b.body[b.insert], [i]);
    assert Strip([i]) == [i];
    assert KeptFinal(Emit(b, i).body[b.insert], code[b.insert]);
    assert Terminated(Emit(b, i).body[b.insert]);
  }

  lemma JumpLeads(o: Oracle, b: Builder, t: Block, code: Code, gone: set<Block>, tr: Trace)
    requires b.insert in b.body && b.insert !in gone && Extends(Br(b, t), code, gone)
    ensures Rest(b, code) == [Jump(t)] && Jumps(o, StripAll(code), Rest(b, code), tr, Whole(code, t), tr)
  {
    hide Rest, RunFrom;
    var b0 := b.(preds := Br(b, t).preds, succs := Br(b, t).succs);
    assert Br(b, t) == Emit(b0, Jump(t));
    RestOfEnd(b0, Jump(t), code, gone);
    RestSame(b, b0, code);
    assert Straight(o, [Jump(t)], tr) == (tr, To(t));
    TransferJumps(o, StripAll(code), [Jump(t)], tr, t);
  }

  lemma RestSame(b: Builder, b': Builder, code: Code)
    requires b'.body == b.body && b'.insert == b.insert
    ensures Rest(b', code) == Rest(b, code)
  {
  }

  lemma BranchLeads(o: Oracle, b: Builder, t: Block, f: Block, code: Code, gone: set<Block>, tr: Trace)
    requires b.insert in b.body && b.insert !in gone && Extends(CondBr(b, t, f), code, gone)
    ensures Jumps(o, StripAll(code), Rest(b, code), tr, Whole(code, if o(tr) then t else f), tr)
  {
    hide Rest, RunFrom;
    var b0 := b.(preds := CondBr(b, t, f).preds, succs := CondBr(b, t, f).succs);
    assert CondBr(b, t, f) == Emit(b0, Branch(t, f));
    RestOfEnd(b0, Branch(t, f), code, gone);
    RestSame(b, b0, code);
    var x := if o(tr) then t else f;
    assert Straight(o, [Branch(t, f)], tr) == (tr, To(x));
    TransferJumps(o, StripAll(code), [Branch(t, f)], tr, x);
  }

  lemma EmitLeads(o: Oracle, b: Builder, a: Atom, code: Code, gone: set<Block>, tr: Trace)
    requires b.insert in b.body && b.insert !in gone && Extends(Emit(b, Do(a)), code, gone)
    ensures Leads(o, StripAll(code), Rest(b, code), tr, Rest(Emit(b, Do(a)), code), tr + [a])
  {
    hide Rest, RunFrom;
    RestOfEmit(b, Do(a), code, gone);
    AtomLeads(o, StripAll(code), a, Rest(Emit(b, Do(a)), code), tr);
  }

  // ----- conditions -----

  /** The run comes to the end of the condition, its last operand deciding, or it has
      left for a target. */
  ghost predicate CondLeads(o: Oracle, b: Builder, b': Builder, code: Code, tr: Trace, w: Way, tr': Trace) {
    match w
    case Falls => Leads(o, StripAll(code), Rest(b, code), tr, Rest(b', code), tr')
    case ToYes => Jumps(o, StripAll(code), Rest(b, code), tr, Whole(code, Top(b.orStack).yes), tr')
    case ToNo => Jumps(o, StripAll(code), Rest(b, code), tr, Whole(code, Top(b.orStack).no), tr')
  }

  ghost predicate CondContext(b: Builder, code: Code, b': Builder, gone: set<Block>, reserved: set<Block>,
                              pending: set<Block>)
  {
    CondReady(b, reserved, pending) && gone <= reserved && Extends(b', code, gone)
  }

  lemma LeafRuns(o: Oracle, b: Builder, e: nat, code: Code, gone: set<Block>, reserved: set<Block>, pending: set<Block>,
                 tr: Trace)
    requires CondContext(b, code, LowerCond(b, Leaf(e)), gone, reserved, pending)
    ensures CondLeads(o, b, LowerCond(b, Leaf(e)), code, tr, Falls, tr + [Expr(e)])
  {
    hide Leads, Rest, Sane, Extends;
    SaneParts(b, reserved, pending);
    EmitLeads(o, b, Expr(e), code, gone, tr);
  }

  /** The first operand, and the branch on it. */
  lemma OperandRuns(o: Oracle, b: Builder, b0: Builder, b1: Builder, t: Block, f: Block, code: Code, gone: set<Block>,
                    tr: Trace, w: Way, tr1: Trace)
    requires CondLeads(o, b0, b1, code, tr, w, tr1) && Rest(b0, code) == Rest(b, code)
    requires b1.insert in b1.body && b1.insert !in gone && Extends(CondBr(b1, t, f), code, gone)
    requires (w == ToYes ==> Top(b0.orStack).yes == t) && (w == ToNo ==> Top(b0.orStack).no == f)
    ensures var v := w == ToYes || (w == Falls && o(tr1));
            Jumps(o, StripAll(code), Rest(b, code), tr, Whole(code, if v then t else f), tr1)
  {
    hide Leads, Jumps, Rest, Extends, StripAll, Whole;
    if w == Falls {
      var x := if o(tr1) then t else f;
      BranchLeads(o, b1, t, f, code, gone, tr1);
      JumpsIsLeads(o, StripAll(code), Rest(b1, code), tr1, Whole(code, x), tr1);
      LeadsTrans(o, StripAll(code), Rest(b, code), tr, Rest(b1, code), tr1, Whole(code, x), tr1);
    }
  }

  /** What the operands of `&&` and `||` have in common: `b2` starts the second. */
  ghost predicate Operands(b: Builder, b0: Builder, b1: Builder, t: Block, f: Block, y: Block, b2: Builder, b3: Builder,
                           code: Code,
                           gone: set<Block>, reserved: set<Block>, pending: set<Block>)
  {
    && CondReady(b0, reserved + {y}, pending + {y}) && Extends(b1, code, gone) && gone <= reserved
    && Rest(b0, code) == Rest(b, code)
    && b1.insert in b1.body && b1.insert !in gone && Extends(CondBr(b1, t, f), code, gone)
    && CondReady(b2, reserved, pending) && b2.insert == y && Extends(b3, code, gone)
    && Rest(b2, code) == Whole(code, y) && Top(b2.orStack) == Top(b.orStack)
  }

  lemma OperandsOf(b: Builder, b0: Builder, b1: Builder, t: Block, f: Block, y: Block, ts: set<Block>, b3: Builder,
                   code: Code,
                   gone: set<Block>, reserved: set<Block>, pending: set<Block>)
    requires CondReady(b, reserved, pending) && gone <= reserved && y == b.next
             && b0 == NewBlock(b).(orStack := b0.orStack) && b0.orStack != []
    requires {Top(b0.orStack).yes, Top(b0.orStack).no, t, f} <= ts && {t, f} <= reserved + {y} && y in {t, f}
    requires Top(b0.orStack).yes in reserved + {y} && Top(b0.orStack).no in reserved + {y}
    requires CondDone(b0, b1.(orStack := b0.orStack), reserved + {y}, pending + {y}) && b1.orStack == b.orStack
    requires CondDone(SetInsert(CondBr(b1, t, f), y), b3, reserved, pending) && Extends(b3, code, gone)
    ensures Operands(b, b0, b1, t, f, y, SetInsert(CondBr(b1, t, f), y), b3, code, gone, reserved, pending)
  {
    hide Leads, Sane, Extends, StripAll, Whole, Grew, IsOpen, HasPath, Rest, Strip;
    var b1' := b1.(orStack := b0.orStack);
    var b2 := SetInsert(CondBr(b1, t, f), y);
    SaneParts(b, reserved, pending);
    NewBlockSane(b, reserved, pending);
    StacksSane(NewBlock(b), b0, reserved + {y}, pending + {y});
    StillOpen(b);
    OpenSame(NewBlock(b), b0);
    OperandDone(b, b0, b1, t, f, y, ts, reserved, pending);
    SaneParts(b1', reserved + {y}, pending + {y});
    CondBrKeeps(b1, t, f);
    ExtendsBack(b2, b3, {Top(b2.orStack).yes, Top(b2.orStack).no}, code, gone, gone);
    ExtendsSame(CondBr(b1, t, f), b2, code, gone);
    GrewCondBr(b1, t, f);
    OpenSame(b1', b1);
    assert (CondBr(b1, t, f)).insert == b1.insert;
    ExtendsBack(b1, CondBr(b1, t, f), {t, f}, code, gone, gone);
    RestNew(b, b0, code);
    EmptyStays(b0, b1', b1, t, f, y);
    RestIsWhole(b2, code);
  }

  lemma RestNew(b: Builder, b0: Builder, code: Code)
    requires b.insert in b.body && b.next !in b.body && b0 == NewBlock(b).(orStack := b0.orStack)
    ensures Rest(b0, code) == Rest(b, code)
  {
  }

  /** The new block is still empty when it becomes the insertion block. */
  lemma EmptyStays(b0: Builder, b1': Builder, b1: Builder, t: Block, f: Block, y: Block)
    requires y in b0.body && b0.body[y] == [] && y != b0.insert
             && Grew(b0, b1', b0.insert, {Top(b0.orStack).yes, Top(b0.orStack).no})
    requires b1'.body == b1.body && b1'.insert == b1.insert && Moved(b0, b1')
    ensures Strip(At(SetInsert(CondBr(b1, t, f), y).body, y)) == []
  {
    assert KeptBody(b0.body[y], b1'.body[y], false);
    StripEmpty();
  }

  lemma SecondRuns(o: Oracle, b: Builder, b2: Builder, b3: Builder, y: Block, code: Code, tr: Trace, tr1: Trace, w: Way,
                   tr2: Trace)
    requires Jumps(o, StripAll(code), Rest(b, code), tr, Whole(code, y), tr1) && Rest(b2, code) == Whole(code, y)
    requires CondLeads(o, b2, b3, code, tr1, w, tr2) && Top(b2.orStack) == Top(b.orStack)
    ensures CondLeads(o, b, b3, code, tr, w, tr2)
  {
    hide Leads, Jumps, Rest, StripAll, Whole;
    var code' := StripAll(code);
    JumpsIsLeads(o, code', Rest(b, code), tr, Whole(code, y), tr1);
    if w == Falls {
      LeadsTrans(o, code', Rest(b, code), tr, Rest(b2, code), tr1, Rest(b3, code), tr2);
    } else {
      var x := Whole(code, if w == ToYes then Top(b2.orStack).yes else Top(b2.orStack).no);
      JumpsIsLeads(o, code', Rest(b2, code), tr1, x, tr2);
      LeadsTrans(o, code', Rest(b, code), tr, Rest(b2, code), tr1, x, tr2);
    }
  }

  lemma AndRuns(o: Oracle, b: Builder, l: Cond, r: Cond, code: Code, gone: set<Block>, reserved: set<Block>,
                pending: set<Block>, tr: Trace)
    requires CondContext(b, code, LowerCond(b, And(l, r)), gone, reserved, pending)
    ensures var (w, tr') := RunCond(o, And(l, r), tr); CondLeads(o, b, LowerCond(b, And(l, r)), code, tr, w, tr')
    decreases And(l, r), 0
  {
    hide Leads, Jumps, Rest, StripAll, Whole, Sane, Grew, Extends, IsOpen, CondBr, HasPath;
    var y, f := b.next, Top(b.orStack).no;
    var b0 := NewBlock(b);
    var b1 := LowerCond(b0, l);
    var b2 := SetInsert(CondBr(b1, y, f), y);
    var b3 := LowerCond(b2, r);
    AndParts(b, l, r, reserved, pending);
    OperandsOf(b, b0, b1, y, f, y, {Top(b.orStack).yes, f, y}, b3, code, gone, reserved, pending);
    LowerCondRuns(o, b0, l, code, gone, reserved + {y}, pending + {y}, tr);
    var (w, tr1) := RunCond(o, l, tr);
    if w != ToYes {
      OperandRuns(o, b, b0, b1, y, f, code, gone, tr, w, tr1);
    }
    if w == Falls && o(tr1) {
      LowerCondRuns(o, b2, r, code, gone, reserved, pending, tr1);
      var (w2, tr2) := RunCond(o, r, tr1);
      SecondRuns(o, b, b2, b3, y, code, tr, tr1, w2, tr2);
    }
  }

  lemma AndParts(b: Builder, l: Cond, r: Cond, reserved: set<Block>, pending: set<Block>)
    requires CondReady(b, reserved, pending)
    ensures var y, f := b.next, Top(b.orStack).no;
            var b1 := LowerCond(NewBlock(b), l);
            var b2 := SetInsert(CondBr(b1, y, f), y);
            CondDone(NewBlock(b), b1, reserved + {y}, pending + {y})
            && CondDone(b2, LowerCond(b2, r), reserved, pending)
            && b1.orStack == b.orStack
    ensures Top(b.orStack).no in reserved && Top(b.orStack).yes in reserved
  {
    hide Sane, HasPath, Grew, IsOpen, CondBr;
    var y, f := b.next, Top(b.orStack).no;
    var b0 := NewBlock(b);
    SaneParts(b, reserved, pending);
    NewBlockSane(b, reserved, pending);
    StillOpen(b);
    LowerCondDone(b0, l, reserved + {y}, pending + {y});
    var b1 := LowerCond(b0, l);
    assert b1.(orStack := b0.orStack) == b1;
    OperandDone(b, b0, b1, y, f, y, {Top(b.orStack).yes, f, y}, reserved, pending);
    CondBrKeeps(b1, y, f);
    LowerCondDone(SetInsert(CondBr(b1, y, f), y), r, reserved, pending);
  }

  lemma OrParts(b: Builder, l: Cond, r: Cond, reserved: set<Block>, pending: set<Block>)
    requires CondReady(b, reserved, pending)
    ensures var y, t := b.next, Top(b.orStack).yes; var b0 := NewBlock(b).(orStack := b.orStack + [Targets(t, y)]);
            var b1 := LowerCond(b0, l);
            var b1' := b1.(orStack := Pop(b1.orStack));
            var b2 := SetInsert(CondBr(b1', t, y), y);
            CondDone(b0, b1, reserved + {y}, pending + {y}) && CondDone(b2, LowerCond(b2, r), reserved, pending)
            && b1'.orStack == b.orStack && b1.orStack == b0.orStack
    ensures Top(b.orStack).no in reserved && Top(b.orStack).yes in reserved
  {
    hide Sane, HasPath, Grew, IsOpen, CondBr;
    var y, t := b.next, Top(b.orStack).yes;
    var b0 := NewBlock(b).(orStack := b.orStack + [Targets(t, y)]);
    SaneParts(b, reserved, pending);
    NewBlockSane(b, reserved, pending);
    StacksSane(NewBlock(b), b0, reserved + {y}, pending + {y});
    StillOpen(b);
    OpenSame(NewBlock(b), b0);
    LowerCondDone(b0, l, reserved + {y}, pending + {y});
    var b1 := LowerCond(b0, l);
    var b1' := b1.(orStack := Pop(b1.orStack));
    assert b1'.(orStack := b0.orStack) == b1;
    OperandDone(b, b0, b1', t, y, y, {t, Top(b.orStack).no, y}, reserved, pending);
    CondBrKeeps(b1', t, y);
    LowerCondDone(SetInsert(CondBr(b1', t, y), y), r, reserved, pending);
  }

  lemma OrRuns(o: Oracle, b: Builder, l: Cond, r: Cond, code: Code, gone: set<Block>, reserved: set<Block>,
               pending: set<Block>, tr: Trace)
    requires CondContext(b, code, LowerCond(b, Or(l, r)), gone, reserved, pending)
    ensures var (w, tr') := RunCond(o, Or(l, r), tr); CondLeads(o, b, LowerCond(b, Or(l, r)), code, tr, w, tr')
    decreases Or(l, r), 0
  {
    hide Leads, Jumps, Rest, StripAll, Whole, Sane, Grew, Extends, IsOpen, CondBr, HasPath;
    var y, t := b.next, Top(b.orStack).yes;
    var b0 := NewBlock(b).(orStack := b.orStack + [Targets(t, y)]);
    var b1 := LowerCond(b0, l);
    var b1' := b1.(orStack := Pop(b1.orStack));
    var b2 := SetInsert(CondBr(b1', t, y), y);
    var b3 := LowerCond(b2, r);
    OrParts(b, l, r, reserved, pending);
    assert b1'.(orStack := b0.orStack) == b1;
    OperandsOf(b, b0, b1', t, y, y, {t, Top(b.orStack).no, y}, b3, code, gone, reserved, pending);
    ExtendsSame(b1, b1', code, gone);
    LowerCondRuns(o, b0, l, code, gone, reserved + {y}, pending + {y}, tr);
    var (w, tr1) := RunCond(o, l, tr);
    RestSame(b1, b1', code);
    OperandRuns(o, b, b0, b1', t, y, code, gone, tr, w, tr1);
    if w != ToYes && !(w == Falls && o(tr1)) {
      LowerCondRuns(o, b2, r, code, gone, reserved, pending, tr1);
      var (w2, tr2) := RunCond(o, r, tr1);
      SecondRuns(o, b, b2, b3, y, code, tr, tr1, w2, tr2);
    }
  }

  /** Of a condition of any shape. */
  lemma {:induction false} LowerCondRuns(o: Oracle, b: Builder, c: Cond, code: Code, gone: set<Block>,
                                         reserved: set<Block>, pending: set<Block>, tr: Trace)
    requires CondContext(b, code, LowerCond(b, c), gone, reserved, pending)
    ensures var (w, tr') := RunCond(o, c, tr); CondLeads(o, b, LowerCond(b, c), code, tr, w, tr')
    decreases c, 1
  {
    hide CondLeads, CondContext, LowerCond;
    match c
    case Leaf(e) => LeafRuns(o, b, e, code, gone, reserved, pending, tr);
    case And(l, r) => AndRuns(o, b, l, r, code, gone, reserved, pending, tr);
    case Or(l, r) => OrRuns(o, b, l, r, code, gone, reserved, pending, tr);
  }

  /** With the branch at its end, the run comes to one of the two targets. */
  lemma AnyTestRuns(o: Oracle, b: Builder, c: Cond, t: Block, f: Block, code: Code, gone: set<Block>,
                    reserved: set<Block>, pending: set<Block>, tr: Trace)
    requires Sane(b, reserved, pending) && IsOpen(b, b.insert) && t in reserved && f in reserved
    requires gone <= reserved && Extends(LowerTest(b, c, t, f), code, gone)
    ensures var (v, tr') := RunTest(o, c, tr);
            Jumps(o, StripAll(code), Rest(b, code), tr, Whole(code, if v then t else f), tr')
  {
    hide Leads, Jumps, Rest, StripAll, Whole, Sane, Grew, Extends, IsOpen, CondBr, HasPath, LowerCond, RunCond;
    SaneParts(b, reserved, pending);
    var b0 := b.(orStack := b.orStack + [Targets(t, f)]);
    StacksSane(b, b0, reserved, pending);
    OpenSame(b, b0);
    LowerCondDone(b0, c, reserved, pending);
    var b1 := LowerCond(b0, c);
    var b2 := b1.(orStack := Pop(b1.orStack));
    StacksSane(b1, b2, reserved, pending);
    OpenSame(b1, b2);
    SaneParts(b2, reserved, pending);
    GrewCondBr(b2, t, f);
    ExtendsBack(b2, CondBr(b2, t, f), {t, f}, code, gone, gone);
    ExtendsSame(b1, b2, code, gone);
    LowerCondRuns(o, b0, c, code, gone, reserved, pending, tr);
    var (w, tr1) := RunCond(o, c, tr);
    RestSame(b, b0, code);
    RestSame(b1, b2, code);
    OperandRuns(o, b, b0, b2, t, f, code, gone, tr, w, tr1);
  }

  /** A test runs as the condition evaluates, and leads to its target. */
  lemma LowerTestRuns(o: Oracle, b: Builder, c: Cond, t: Block, f: Block, code: Code, gone: set<Block>,
                      reserved: set<Block>, pending: set<Block>, tr: Trace)
    requires WellShaped(c) && Sane(b, reserved, pending) && IsOpen(b, b.insert) && t in reserved && f in reserved
    requires gone <= reserved && Extends(LowerTest(b, c, t, f), code, gone)
    ensures var (v, tr') := EvalCond(o, c, tr);
            Jumps(o, StripAll(code), Rest(b, code), tr, Whole(code, if v then t else f), tr')
  {
    hide Jumps, Rest, StripAll, Whole, Sane, Extends, IsOpen, LowerTest, RunTest, EvalCond;
    AnyTestRuns(o, b, c, t, f, code, gone, reserved, pending, tr);
    ShapedRuns(o, c, tr);
  }

  // ----- statements -----

  /** Where a statement's outcome leads. */
  function Dest(b: Builder, b': Builder, code: Code, out: Outcome): seq<Item> {
    match out
    case Normal => Rest(b', code)
    case Broken => Whole(code, Top(b.whileStack).no)
    case Continued => Whole(code, Top(b.whileStack).yes)
    case Returned => Whole(code, b.ret)
  }

  /** The run does what the statement does; as long as the source's loops go on, so does it. */
  ghost predicate Follows(o: Oracle, b: Builder, b': Builder, code: Code, r: Result, tr: Trace, fuel: nat) {
    match r
    case OutOfFuel => Lasts(o, StripAll(code), Rest(b, code), tr, fuel)
    case Ended(out, tr') =>
      Leads(o, StripAll(code), Rest(b, code), tr, Dest(b, b', code, out), tr')
      && (out == Normal ==> IsOpen(b', b'.insert))
  }

  ghost predicate StmtContext(b: Builder, b': Builder, code: Code, gone: set<Block>, reserved: set<Block>,
                              pending: set<Block>)
  {
    StmtReady(b, reserved, pending) && gone <= reserved && Extends(b', code, gone)
  }

  lemma ContextParts(b: Builder, b': Builder, code: Code, gone: set<Block>, reserved: set<Block>, pending: set<Block>)
    requires StmtContext(b, b', code, gone, reserved, pending)
    ensures KeysOk(b) && Sane(b, reserved, pending) && IsOpen(b, b.insert) && b.insert in b.body && b.insert !in gone
            && Extends(b', code, gone)
  {
    hide Sane, LoopsOk, IsOpen, Extends;
    SaneParts(b, reserved, pending);
  }

  /** First one statement, then, if it ends normally, another. */
  lemma FollowsThen(o: Oracle, b: Builder, b1: Builder, b2: Builder, code: Code, r1: Result, r: Result, tr: Trace,
                    fuel: nat)
    requires Follows(o, b, b1, code, r1, tr, fuel) && b1.whileStack == b.whileStack && b1.ret == b.ret
    requires if r1.Ended? && r1.out == Normal then Follows(o, b1, b2, code, r, r1.tr, fuel) else r == r1
    ensures Follows(o, b, b2, code, r, tr, fuel)
  {
    hide Leads, Lasts, Rest, StripAll, Whole, IsOpen;
    if r1.Ended? && r1.out == Normal {
      match r
      case OutOfFuel => LeadsLasts(o, StripAll(code), Rest(b, code), tr, Rest(b1, code), r1.tr, fuel);
      case Ended(out, tr') =>
        LeadsTrans(o, StripAll(code), Rest(b, code), tr, Rest(b1, code), r1.tr, Dest(b1, b2, code, out), tr');
    }
  }

  lemma EmitFollows(o: Oracle, b: Builder, a: Atom, code: Code, gone: set<Block>, reserved: set<Block>,
                    pending: set<Block>, tr: Trace, fuel: nat)
    requires StmtContext(b, Emit(b, Do(a)), code, gone, reserved, pending)
    ensures Follows(o, b, Emit(b, Do(a)), code, Ended(Normal, tr + [a]), tr, fuel)
  {
    hide Leads, Rest, StripAll, Extends, Sane, LoopsOk;
    ContextParts(b, Emit(b, Do(a)), code, gone, reserved, pending);
    EmitLeads(o, b, a, code, gone, tr);
    EmitSane(b, Do(a), reserved, pending);
  }

  lemma NothingFollows(o: Oracle, b: Builder, code: Code, tr: Trace, fuel: nat)
    requires IsOpen(b, b.insert)
    ensures Follows(o, b, b, code, Ended(Normal, tr), tr, fuel)
  {
    LeadsRefl(o, StripAll(code), Rest(b, code), tr);
  }

  lemma JumpFollows(o: Oracle, b: Builder, t: Block, out: Outcome, code: Code, gone: set<Block>, reserved: set<Block>,
                    pending: set<Block>, tr: Trace, fuel: nat)
    requires StmtContext(b, Br(b, t), code, gone, reserved, pending) && out != Normal
    requires Dest(b, Br(b, t), code, out) == Whole(code, t)
    ensures Follows(o, b, Br(b, t), code, Ended(out, tr), tr, fuel)
  {
    hide Leads, Jumps, Rest, StripAll, Extends, Sane, LoopsOk;
    ContextParts(b, Br(b, t), code, gone, reserved, pending);
    JumpLeads(o, b, t, code, gone, tr);
    JumpsIsLeads(o, StripAll(code), Rest(b, code), tr, Whole(code, t), tr);
  }

  /** Contexts of the parts of a sequence. */
  lemma ContextThen(b: Builder, b1: Builder, b2: Builder, code: Code, gone: set<Block>, reserved: set<Block>,
                    pending: set<Block>)
    requires StmtReady(b, reserved, pending) && StmtDone(b, b1, reserved, pending) && StmtReady(b1, reserved, pending)
             && StmtDone(b1, b2, reserved, pending)
    requires gone <= reserved && Extends(b2, code, gone)
    ensures StmtContext(b, b1, code, gone, reserved, pending) && StmtContext(b1, b2, code, gone, reserved, pending)
    ensures b1.whileStack == b.whileStack && b1.ret == b.ret
  {
    hide Sane, Grew, Extends, LoopsOk, IsOpen, CurKept;
    GrewFixed(b, b1, b.insert, JumpTargets(b));
    ExtendsBack(b1, b2, JumpTargets(b1), code, gone, gone);
  }

  lemma HoistFollows(o: Oracle, b: Builder, v: nat, code: Code, gone: set<Block>, reserved: set<Block>,
                     pending: set<Block>, tr: Trace, fuel: nat)
    requires StmtContext(b, Hoist(b, v), code, gone, reserved, pending)
    ensures Follows(o, b, Hoist(b, v), code, Ended(Normal, tr), tr, fuel)
  {
    hide Leads, StripAll, Extends, Sane, LoopsOk, Hoisted, Strip, Hoist;
    HoistDone(b, v, reserved, pending);
    ContextParts(b, Hoist(b, v), code, gone, reserved, pending);
    HoistIs(b, v);
    HoistKeepsRest(b, v, code, reserved, pending);
    LeadsRefl(o, StripAll(code), Rest(b, code), tr);
  }

  /** The `alloca` does not move what is still to come. */
  lemma HoistKeepsRest(b: Builder, v: nat, code: Code, reserved: set<Block>, pending: set<Block>)
    requires Sane(b, reserved, pending) && Hoist(b, v) == b.(body := Hoisted(b.body, b.entry, v)) && b.insert in b.body
    ensures Rest(Hoist(b, v), code) == Rest(b, code)
  {
    hide Strip, Sane, WithLocal, Hoist;
    SaneParts(b, reserved, pending);
    BodiesOf(b, reserved, pending);
    HoistedOk(b.body, b.succs, b.entry, v);
  }

  lemma DeclFollows(o: Oracle, b: Builder, v: nat, init: Option<nat>, code: Code, gone: set<Block>,
                    reserved: set<Block>, pending: set<Block>, tr: Trace, fuel: nat)
    requires StmtContext(b, LowerDecl(b, v, init), code, gone, reserved, pending)
    ensures Follows(o, b, LowerDecl(b, v, init), code, RunStmt(o, Decl(v, init), tr, fuel), tr, fuel)
  {
    hide Follows, StmtReady, StmtDone, Extends, Hoist, Emit;
    HoistDone(b, v, reserved, pending);
    if init.Some? {
      var b1 := Hoist(b, v);
      var a := Expr(init.value);
      EmitDone(b1, a, reserved, pending);
      ContextThen(b, b1, Emit(b1, Do(a)), code, gone, reserved, pending);
      HoistFollows(o, b, v, code, gone, reserved, pending, tr, fuel);
      EmitFollows(o, b1, a, code, gone, reserved, pending, tr, fuel);
      FollowsThen(o, b, b1, Emit(b1, Do(a)), code, Ended(Normal, tr), Ended(Normal, tr + [a]), tr, fuel);
    } else {
      HoistFollows(o, b, v, code, gone, reserved, pending, tr, fuel);
    }
  }

  lemma ReturnFollows(o: Oracle, b: Builder, value: Option<nat>, code: Code, gone: set<Block>, reserved: set<Block>,
                      pending: set<Block>, tr: Trace, fuel: nat)
    requires StmtContext(b, LowerReturn(b, value), code, gone, reserved, pending)
    ensures Follows(o, b, LowerReturn(b, value), code, RunStmt(o, Return(value), tr, fuel), tr, fuel)
  {
    hide Follows, StmtReady, StmtDone, Extends, Emit, Br;
    if value.Some? {
      var a := Expr(value.value);
      var b1 := Emit(b, Do(a));
      var b2 := Emit(b1, Do(StoreRet));
      var b3 := Br(b2, b2.ret);
      EmitDone(b, a, reserved, pending);
      EmitDone(b1, StoreRet, reserved, pending);
      ReturnDone(b2, reserved, pending);
      ContextThen(b1, b2, b3, code, gone, reserved, pending);
      ContextThen2(b, b1, b2, code, gone, reserved, pending);
      EmitFollows(o, b, a, code, gone, reserved, pending, tr, fuel);
      EmitFollows(o, b1, StoreRet, code, gone, reserved, pending, tr + [a], fuel);
      JumpFollows(o, b2, b2.ret, Returned, code, gone, reserved, pending, tr + [a] + [StoreRet], fuel);
      assert tr + [a] + [StoreRet] == tr + [a, StoreRet];
      FollowsThen(o, b1, b2, b3, code, Ended(Normal, tr + [a, StoreRet]), Ended(Returned, tr + [a, StoreRet]),
                  tr + [a], fuel);
      FollowsThen(o, b, b1, b3, code, Ended(Normal, tr + [a]), Ended(Returned, tr + [a, StoreRet]), tr, fuel);
    } else {
      JumpFollows(o, b, b.ret, Returned, code, gone, reserved, pending, tr, fuel);
    }
  }

  lemma ContextThen2(b: Builder, b1: Builder, b2: Builder, code: Code, gone: set<Block>, reserved: set<Block>,
                     pending: set<Block>)
    requires StmtReady(b, reserved, pending) && StmtDone(b, b1, reserved, pending)
             && StmtContext(b1, b2, code, gone, reserved, pending)
    requires StmtDone(b1, b2, reserved, pending)
    ensures StmtContext(b, b1, code, gone, reserved, pending) && b1.whileStack == b.whileStack && b1.ret == b.ret
  {
    hide StmtReady, StmtDone, Extends;
    ContextThen(b, b1, b2, code, gone, reserved, pending);
  }
}
