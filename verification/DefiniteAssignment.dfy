/** Locals assigned before they are read: what the source has to show for it, and that
    it then holds on every path of the lowered graph. */
module DefiniteAssignment {
  import opened FlowGraphs
  import opened Statements
  import opened BlockBuilder
  import opened BuilderInvariants
  import opened LoweringShape
  import opened LoweringStmts
  import opened LoweringControl
  import opened LoweredFunction
  import opened LocalsInEntry
  import Lists

  /** The locals an atom loads before it has stored to them, and those it stores to. */
  datatype Accesses = Accesses(loads: Atom -> set<nat>, stores: Atom -> set<nat>)

  // ----- read off the source -----

  /** Stores within a condition count for nothing. */
  predicate CondAssigned(u: Accesses, c: Cond, have: set<nat>) {
    match c
    case Leaf(e) => u.loads(Expr(e)) <= have
    case And(l, r) => CondAssigned(u, l, have) && CondAssigned(u, r, have)
    case Or(l, r) => CondAssigned(u, l, have) && CondAssigned(u, r, have)
  }

  function Both(x: Option<set<nat>>, y: Option<set<nat>>): Option<set<nat>> {
    if x.None? then y else if y.None? then x else Some(x.value * y.value)
  }

  /** What is assigned when `s` ends normally, if it can. */
  function After(u: Accesses, s: Stmt, have: set<nat>): Option<set<nat>>
    decreases s
  {
    match s
    case Empty => Some(have)
    case Simple(e) => Some(have + u.stores(Expr(e)))
    case Decl(_, init) => Some(if init.Some? then have + u.stores(Expr(init.value)) else have)
    case Compound(body) => AfterAll(u, body, have)
    case If(_, _) => Some(have)
    case IfElse(_, first, second) => Both(After(u, first, have), After(u, second, have))
    case While(_, _) => Some(have)
    case Break => None
    case Continue => None
    case Return(_) => None
  }

  function AfterAll(u: Accesses, body: seq<Stmt>, have: set<nat>): Option<set<nat>>
    decreases body
  {
    if body == [] then Some(have)
    else
      var first := After(u, body[0], have);
      if first.None? then None else AfterAll(u, body[1..], first.value)
  }

  /** Whatever is loaded has been assigned; at a `return` what the end of the function
      loads, `ret`, has been too. */
  predicate Assigned(u: Accesses, s: Stmt, have: set<nat>, ret: set<nat>)
    decreases s
  {
    match s
    case Simple(e) => u.loads(Expr(e)) <= have
    case Decl(_, init) => init.Some? ==> u.loads(Expr(init.value)) <= have
    case Compound(body) => AllAssigned(u, body, have, ret)
    case If(c, first) => CondAssigned(u, c, have) && Assigned(u, first, have, ret)
    case IfElse(c, first, second) => CondAssigned(u, c, have) && Assigned(u, first, have, ret)
                                     && Assigned(u, second, have, ret)
    case While(c, loop) => CondAssigned(u, c, have) && Assigned(u, loop, have, ret)
    case Return(value) =>
      if value.None? then ret <= have
      else
        var have1 := have + u.stores(Expr(value.value));
        u.loads(Expr(value.value)) <= have && u.loads(StoreRet) <= have1 && ret <= have1 + u.stores(StoreRet)
    case _ => true
  }

  predicate AllAssigned(u: Accesses, body: seq<Stmt>, have: set<nat>, ret: set<nat>)
    decreases body
  {
    if body == [] then true
    else
      var first := After(u, body[0], have);
      Assigned(u, body[0], have, ret) && (first.Some? ==> AllAssigned(u, body[1..], first.value, ret))
  }

  // ----- read off the blocks -----

  function Written(u: Accesses, items: seq<Item>): set<nat> {
    if items == [] then {} else (if items[0].Do? then u.stores(items[0].a) else {}) + Written(u, items[1..])
  }

  /** What is loaded is in `have` or stored to before. */
  predicate ReadsOk(u: Accesses, items: seq<Item>, have: set<nat>) {
    items == [] || if items[0].Do? then u.loads(items[0].a) <= have
      && ReadsOk(u, items[1..], have + u.stores(items[0].a))
                   else ReadsOk(u, items[1..], have)
  }

  lemma {:induction false} WrittenConcat(u: Accesses, a: seq<Item>, c: seq<Item>)
    ensures Written(u, a + c) == Written(u, a) + Written(u, c)
  {
    if a == [] {
      assert a + c == c;
    } else {
      WrittenConcat(u, a[1..], c);
      assert (a + c)[1..] == a[1..] + c;
    }
  }

  lemma {:induction false} ReadsConcat(u: Accesses, a: seq<Item>, c: seq<Item>, have: set<nat>)
    ensures ReadsOk(u, a + c, have) <==> ReadsOk(u, a, have) && ReadsOk(u, c, have + Written(u, a))
    decreases a
  {
    if a == [] {
      assert a + c == c;
      assert have + {} == have;
    } else {
      assert (a + c)[1..] == a[1..] + c;
      if a[0].Do? {
        ReadsConcat(u, a[1..], c, have + u.stores(a[0].a));
        assert have + u.stores(a[0].a) + Written(u, a[1..]) == have + Written(u, a);
      } else {
        ReadsConcat(u, a[1..], c, have);
        assert Written(u, a) == Written(u, a[1..]);
      }
    }
  }

  lemma OneItem(u: Accesses, i: Item, have: set<nat>)
    ensures Written(u, [i]) == if i.Do? then u.stores(i.a) else {}
    ensures ReadsOk(u, [i], have) <==> (i.Do? ==> u.loads(i.a) <= have)
  {
    assert [i][1..] == [];
  }

  // ----- tables -----

  /** What is assigned at the start of each block, whichever way one came. */
  type Table = map<Block, set<nat>>

  ghost predicate BlockFlow(u: Accesses, a: Table, x: Block, items: seq<Item>, succs: seq<Block>) {
    && x in a && ReadsOk(u, items, a[x])
    && forall y :: y in succs ==> y in a && a[y] <= a[x] + Written(u, items)
  }

  ghost predicate TableOk(u: Accesses, b: Builder, a: Table) {
    && b.body.Keys == b.succs.Keys
    && forall x :: x in b.body ==> BlockFlow(u, a, x, b.body[x], b.succs[x])
  }

  ghost predicate Kept(a: Table, a': Table) {
    forall x :: x in a ==> x in a' && a'[x] == a[x]
  }

  /** Assigned where the builder stands. */
  ghost predicate Here(u: Accesses, b: Builder, a: Table, have: set<nat>) {
    b.insert in b.body && b.insert in a && have <= a[b.insert] + Written(u, b.body[b.insert])
  }

  lemma HereLess(u: Accesses, b: Builder, a: Table, have: set<nat>, have': set<nat>)
    requires Here(u, b, a, have) && have' <= have
    ensures Here(u, b, a, have')
  {
    hide Written;
  }

  lemma TableSame(u: Accesses, b: Builder, b': Builder, a: Table)
    requires TableOk(u, b, a) && b'.body == b.body && b'.succs == b.succs
    ensures TableOk(u, b', a)
    ensures forall have :: b'.insert == b.insert && Here(u, b, a, have) ==> Here(u, b', a, have)
  {
    hide BlockFlow, Written;
  }

  lemma FlowEmit(u: Accesses, a: Table, x: Block, items: seq<Item>, i: Item, succs: seq<Block>, more: seq<Block>)
    requires BlockFlow(u, a, x, items, succs) && (i.Do? ==> u.loads(i.a) <= a[x] + Written(u, items))
    requires forall y :: y in more ==> y in a && a[y] <= a[x] + Written(u, items)
    ensures BlockFlow(u, a, x, items + [i], succs + more)
    ensures Written(u, items + [i]) == Written(u, items) + if i.Do? then u.stores(i.a) else {}
  {
    WrittenConcat(u, items, [i]);
    ReadsConcat(u, items, [i], a[x]);
    OneItem(u, i, a[x] + Written(u, items));
    hide Written, ReadsOk;
  }

  lemma TableEmit(u: Accesses, b: Builder, a: Table, i: Item, have: set<nat>)
    requires TableOk(u, b, a) && Here(u, b, a, have) && (i.Do? ==> u.loads(i.a) <= have)
    ensures TableOk(u, Emit(b, i), a) && Here(u, Emit(b, i), a, have + if i.Do? then u.stores(i.a) else {})
  {
    FlowEmit(u, a, b.insert, b.body[b.insert], i, b.succs[b.insert], []);
    assert b.succs[b.insert] + [] == b.succs[b.insert];
    hide BlockFlow, Written, ReadsOk;
  }

  /** A branch asks of its targets no more than is assigned here. */
  lemma TableBr(u: Accesses, b: Builder, a: Table, t: Block, have: set<nat>)
    requires TableOk(u, b, a) && Here(u, b, a, have) && t in a && a[t] <= have
    ensures TableOk(u, Br(b, t), a) && Here(u, Br(b, t), a, have)
  {
    FlowEmit(u, a, b.insert, b.body[b.insert], Jump(t), b.succs[b.insert], [t]);
    hide BlockFlow, Written, ReadsOk;
  }

  lemma TableCondBr(u: Accesses, b: Builder, a: Table, t: Block, f: Block, have: set<nat>)
    requires TableOk(u, b, a) && Here(u, b, a, have) && t in a && a[t] <= have && f in a && a[f] <= have
    ensures TableOk(u, CondBr(b, t, f), a) && Here(u, CondBr(b, t, f), a, have)
  {
    FlowEmit(u, a, b.insert, b.body[b.insert], Branch(t, f), b.succs[b.insert], [f, t]);
    assert b.succs[b.insert] + [f] + [t] == b.succs[b.insert] + [f, t];
    hide BlockFlow, Written, ReadsOk;
  }

  lemma FlowKept(u: Accesses, a: Table, a': Table, x: Block, items: seq<Item>, succs: seq<Block>)
    requires BlockFlow(u, a, x, items, succs) && Kept(a, a')
    ensures BlockFlow(u, a', x, items, succs)
  {
    hide Written, ReadsOk;
  }

  lemma TableNew(u: Accesses, b: Builder, a: Table, have: set<nat>, new': set<nat>)
    requires TableOk(u, b, a) && Here(u, b, a, have) && b.next !in a
    ensures var a' := a[b.next := new']; TableOk(u, NewBlock(b), a') && Here(u, NewBlock(b), a', have) && Kept(a, a')
  {
    var a' := a[b.next := new'];
    var b' := NewBlock(b);
    forall x | x in b'.body
      ensures BlockFlow(u, a', x, b'.body[x], b'.succs[x])
    {
      if x != b.next {
        FlowKept(u, a, a', x, b.body[x], b.succs[x]);
      }
    }
  }

  lemma {:induction false} WithoutFewer(s: seq<Block>, x: Block)
    ensures forall y :: y in Lists.Without(s, x) ==> y in s
  {
    Lists.WithoutContents(s, x);
  }

  lemma TableErase(u: Accesses, b: Builder, a: Table, x: Block)
    requires TableOk(u, b, a)
    ensures TableOk(u, Erase(b, x), a)
  {
    hide Written, ReadsOk, Lists.Without;
    var b' := Erase(b, x);
    forall y | y in b'.body
      ensures BlockFlow(u, a, y, b'.body[y], b'.succs[y])
    {
      WithoutFewer(b.succs[y], x);
      assert BlockFlow(u, a, y, b.body[y], b.succs[y]);
    }
  }

  // ----- conditions -----

  /** No table entry for blocks to come. */
  ghost predicate Known(a: Table, b: Builder) {
    forall x :: x in a ==> x < b.next
  }

  ghost predicate Flowing(u: Accesses, b: Builder, a: Table, have: set<nat>) {
    TableOk(u, b, a) && Here(u, b, a, have) && Known(a, b)
  }

  /** A jump to `x` asks for no more than `have`. */
  predicate Asks(a: Table, x: Block, have: set<nat>) {
    x in a && a[x] <= have
  }

  lemma AsksKept(a: Table, a': Table, x: Block, have: set<nat>, have': set<nat>)
    requires Asks(a, x, have) && Kept(a, a') && have <= have'
    ensures Asks(a', x, have')
  {
  }

  lemma KeptTrans(a: Table, a1: Table, a2: Table)
    requires Kept(a, a1) && Kept(a1, a2)
    ensures Kept(a, a2)
  {
  }

  lemma MoveHere(u: Accesses, b: Builder, a: Table, y: Block, have: set<nat>)
    requires TableOk(u, b, a) && Known(a, b) && y in b.body && y in a && have <= a[y]
    ensures Flowing(u, SetInsert(b, y), a, have)
  {
    hide BlockFlow, Written;
  }

  ghost predicate CondFlows(u: Accesses, b: Builder, b': Builder, a: Table, a': Table, have: set<nat>) {
    Flowing(u, b', a', have) && Kept(a, a') && Placed(b') && b.body.Keys <= b'.body.Keys && b'.orStack == b.orStack
  }

  lemma NewFlows(u: Accesses, b: Builder, a: Table, have: set<nat>, new': set<nat>) returns (a': Table)
    requires Flowing(u, b, a, have) && Placed(b)
    ensures a' == a[b.next := new'] && Flowing(u, NewBlock(b), a', have) && Kept(a, a') && Placed(NewBlock(b))
    ensures b.next in NewBlock(b).body && b.body.Keys <= NewBlock(b).body.Keys && Asks(a', b.next, new')
  {
    hide TableOk, Here;
    TableNew(u, b, a, have, new');
    a' := a[b.next := new'];
  }

  lemma BranchFlows(u: Accesses, b: Builder, a: Table, t: Block, f: Block, y: Block, have: set<nat>)
    requires Flowing(u, b, a, have) && Placed(b) && Asks(a, t, have) && Asks(a, f, have) && y in b.body && y in a
             && have <= a[y]
    ensures var b' := SetInsert(CondBr(b, t, f), y);
            Flowing(u, b', a, have) && Placed(b') && b.body.Keys <= b'.body.Keys && b'.orStack == b.orStack
  {
    hide TableOk, Here;
    TableCondBr(u, b, a, t, f, have);
    CondBrPlaced(b, t, f, y);
    MoveHere(u, CondBr(b, t, f), a, y, have);
  }

  lemma {:induction false} CondFlow(u: Accesses, b: Builder, a: Table, c: Cond, have: set<nat>) returns (a': Table)
    requires Flowing(u, b, a, have) && Placed(b) && CondAssigned(u, c, have)
    requires Asks(a, Top(b.orStack).yes, have) && Asks(a, Top(b.orStack).no, have)
    ensures CondFlows(u, b, LowerCond(b, c), a, a', have)
    decreases c
  {
    hide Flowing, CondBr, TableOk, Placed;
    match c
    case Leaf(e) => a' := LeafFlow(u, b, a, e, have);
    case And(l, r) => a' := AndFlow(u, b, a, l, r, have);
    case Or(l, r) => a' := OrFlow(u, b, a, l, r, have);
  }

  lemma LeafFlow(u: Accesses, b: Builder, a: Table, e: nat, have: set<nat>) returns (a': Table)
    requires Flowing(u, b, a, have) && Placed(b) && u.loads(Expr(e)) <= have
    ensures CondFlows(u, b, LowerCond(b, Leaf(e)), a, a', have)
  {
    hide TableOk, Here;
    a' := a;
    TableEmit(u, b, a, Do(Expr(e)), have);
    HereLess(u, Emit(b, Do(Expr(e))), a, have + u.stores(Expr(e)), have);
  }

  lemma AndFlow(u: Accesses, b: Builder, a: Table, l: Cond, r: Cond, have: set<nat>) returns (a': Table)
    requires Flowing(u, b, a, have) && Placed(b) && CondAssigned(u, And(l, r), have)
    requires Asks(a, Top(b.orStack).yes, have) && Asks(a, Top(b.orStack).no, have)
    ensures CondFlows(u, b, LowerCond(b, And(l, r)), a, a', have)
    decreases And(l, r), 0
  {
    hide Flowing, CondBr, TableOk, Placed, Asks, Kept, NewBlock;
    var b0, y := NewBlock(b), b.next;
    NewKeeps(b);
    var a0 := NewFlows(u, b, a, have, have);
    AsksKept(a, a0, Top(b.orStack).yes, have, have);
    AsksKept(a, a0, Top(b.orStack).no, have, have);
    var a1 := CondFlow(u, b0, a0, l, have);
    var b1 := LowerCond(b0, l);
    AsksKept(a0, a1, y, have, have);
    AsksKept(a0, a1, Top(b.orStack).no, have, have);
    AsksKept(a0, a1, Top(b.orStack).yes, have, have);
    KeptAt(a0, a1, y);
    BranchFlows(u, b1, a1, y, Top(b.orStack).no, y, have);
    var b2 := SetInsert(CondBr(b1, y, Top(b.orStack).no), y);
    a' := CondFlow(u, b2, a1, r, have);
    KeptTrans(a, a0, a1);
    KeptTrans(a, a1, a');
  }

  lemma NewKeeps(b: Builder)
    ensures NewBlock(b).orStack == b.orStack && NewBlock(b).insert == b.insert && NewBlock(b).next == b.next + 1
  {
  }

  lemma KeptAt(a: Table, a': Table, x: Block)
    requires Kept(a, a') && x in a
    ensures x in a' && a'[x] == a[x]
  {
  }

  lemma OrFlow(u: Accesses, b: Builder, a: Table, l: Cond, r: Cond, have: set<nat>) returns (a': Table)
    requires Flowing(u, b, a, have) && Placed(b) && CondAssigned(u, Or(l, r), have)
    requires Asks(a, Top(b.orStack).yes, have) && Asks(a, Top(b.orStack).no, have)
    ensures CondFlows(u, b, LowerCond(b, Or(l, r)), a, a', have)
    decreases Or(l, r), 0
  {
    hide Flowing, CondBr, TableOk, Asks, Kept, NewBlock;
    var y, t := b.next, Top(b.orStack).yes;
    NewKeeps(b);
    var a0 := NewFlows(u, b, a, have, have);
    var b0 := NewBlock(b).(orStack := b.orStack + [Targets(t, y)]);
    FlowingSame(u, NewBlock(b), b0, a0, have);
    AsksKept(a, a0, t, have, have);
    AsksKept(a, a0, Top(b.orStack).no, have, have);
    var a1 := CondFlow(u, b0, a0, l, have);
    var b1 := LowerCond(b0, l);
    var b1' := b1.(orStack := Pop(b1.orStack));
    FlowingSame(u, b1, b1', a1, have);
    AsksKept(a0, a1, y, have, have);
    AsksKept(a0, a1, t, have, have);
    AsksKept(a0, a1, Top(b.orStack).no, have, have);
    KeptAt(a0, a1, y);
    assert b1'.orStack == b.orStack;
    BranchFlows(u, b1', a1, t, y, y, have);
    var b2 := SetInsert(CondBr(b1', t, y), y);
    a' := CondFlow(u, b2, a1, r, have);
    KeptTrans(a, a0, a1);
    KeptTrans(a, a1, a');
  }

  /** The stacks do not matter. */
  lemma FlowingSame(u: Accesses, b: Builder, b': Builder, a: Table, have: set<nat>)
    requires Flowing(u, b, a, have) && b'.body == b.body && b'.succs == b.succs && b'.insert == b.insert
             && b'.next == b.next
    ensures Flowing(u, b', a, have)
  {
    hide BlockFlow, Written;
  }

  lemma TestFlow(u: Accesses, b: Builder, a: Table, c: Cond, t: Block, f: Block, have: set<nat>) returns (a': Table)
    requires Flowing(u, b, a, have) && Placed(b) && CondAssigned(u, c, have) && Asks(a, t, have) && Asks(a, f, have)
    ensures TableOk(u, LowerTest(b, c, t, f), a') && Kept(a, a') && Known(a', LowerTest(b, c, t, f))
  {
    hide TableOk, Here, LowerCond, Asks, Kept;
    var b0 := b.(orStack := b.orStack + [Targets(t, f)]);
    TableSame(u, b, b0, a);
    a' := CondFlow(u, b0, a, c, have);
    var b1 := LowerCond(b0, c);
    var b2 := b1.(orStack := Pop(b1.orStack));
    TableSame(u, b1, b2, a');
    AsksKept(a, a', t, have, have);
    AsksKept(a, a', f, have, have);
    AsksMeans(a', t, have);
    AsksMeans(a', f, have);
    TableCondBr(u, b2, a', t, f, have);
  }

  lemma AsksMeans(a: Table, x: Block, have: set<nat>)
    requires Asks(a, x, have)
    ensures x in a && a[x] <= have
  {
  }

  // ----- statements -----

  ghost predicate LoopAsks(b: Builder, a: Table, have: set<nat>) {
    forall k :: 0 <= k < |b.whileStack| ==> Asks(a, b.whileStack[k].yes, have) && Asks(a, b.whileStack[k].no, have)
  }

  ghost predicate FlowReady(u: Accesses, b: Builder, a: Table, have: set<nat>, ret: set<nat>) {
    Flowing(u, b, a, have) && LoopAsks(b, a, have) && Asks(a, b.ret, ret)
  }

  ghost predicate FlowDone(u: Accesses, b': Builder, a: Table, a': Table, after: Option<set<nat>>) {
    && TableOk(u, b', a') && Known(a', b') && Kept(a, a')
    && (after.Some? && IsOpen(b', b'.insert) ==> Here(u, b', a', after.value))
  }

  /** Exactly the statements that end their block have nothing after them. */
  lemma {:induction false} NothingAfter(u: Accesses, s: Stmt, have: set<nat>)
    ensures After(u, s, have).None? <==> Ends(s)
    ensures After(u, s, have).Some? ==> have <= After(u, s, have).value
    decreases s, 1
  {
    match s
    case Compound(body) => NothingAfterAll(u, body, have);
    case IfElse(c, first, second) =>
      NothingAfter(u, first, have);
      NothingAfter(u, second, have);
    case _ =>
  }

  lemma {:induction false} NothingAfterAll(u: Accesses, body: seq<Stmt>, have: set<nat>)
    ensures AfterAll(u, body, have).None? <==> EndsAny(body)
    ensures AfterAll(u, body, have).Some? ==> have <= AfterAll(u, body, have).value
    decreases body, 0
  {
    hide After, Ends;
    if body != [] {
      NothingAfter(u, body[0], have);
      var first := After(u, body[0], have);
      if first.Some? {
        NothingAfterAll(u, body[1..], first.value);
      }
    }
  }

  lemma LoopAsksKept(b: Builder, b': Builder, a: Table, a': Table, have: set<nat>, have': set<nat>)
    requires LoopAsks(b, a, have) && Kept(a, a') && b'.whileStack == b.whileStack && have <= have'
    ensures LoopAsks(b', a', have')
  {
    hide Kept, Asks;
    forall k | 0 <= k < |b'.whileStack|
      ensures Asks(a', b'.whileStack[k].yes, have') && Asks(a', b'.whileStack[k].no, have')
    {
      AsksKept(a, a', b.whileStack[k].yes, have, have');
      AsksKept(a, a', b.whileStack[k].no, have, have');
    }
  }

  lemma KeptSame(a: Table)
    ensures Kept(a, a)
  {
  }

  lemma EmitFlow(u: Accesses, b: Builder, a: Table, atom: Atom, have: set<nat>, ret: set<nat>)
    requires FlowReady(u, b, a, have, ret) && u.loads(atom) <= have
    ensures FlowReady(u, Emit(b, Do(atom)), a, have + u.stores(atom), ret)
    ensures FlowDone(u, Emit(b, Do(atom)), a, a, Some(have + u.stores(atom)))
  {
    hide TableOk, Here, IsOpen, Asks;
    TableEmit(u, b, a, Do(atom), have);
    KeptSame(a);
    LoopAsksKept(b, Emit(b, Do(atom)), a, a, have, have + u.stores(atom));
  }

  lemma JumpFlow(u: Accesses, b: Builder, a: Table, t: Block, have: set<nat>, after: Option<set<nat>>)
    requires Flowing(u, b, a, have) && Asks(a, t, have)
    ensures FlowDone(u, Br(b, t), a, a, after)
  {
    hide TableOk, Here;
    TableBr(u, b, a, t, have);
    KeptSame(a);
    BrCloses(b, t);
  }

  /** An `alloca` loads and stores nothing. */
  lemma WithLocalFlow(u: Accesses, a: Table, x: Block, items: seq<Item>, v: nat, succs: seq<Block>)
    requires BlockFlow(u, a, x, items, succs)
    ensures BlockFlow(u, a, x, WithLocal(items, v), succs) && Written(u, WithLocal(items, v)) == Written(u, items)
  {
    var have := a[x];
    OneItem(u, Local(v), have);
    if Terminated(items) {
      var last := items[|items| - 1];
      assert items == Pop(items) + [last];
      assert WithLocal(items, v) == Pop(items) + ([Local(v)] + [last]);
      WrittenConcat(u, Pop(items), [last]);
      WrittenConcat(u, [Local(v)], [last]);
      WrittenConcat(u, Pop(items), [Local(v)] + [last]);
      ReadsConcat(u, Pop(items), [last], have);
      ReadsConcat(u, Pop(items), [Local(v)] + [last], have);
      OneItem(u, Local(v), have + Written(u, Pop(items)));
      ReadsConcat(u, [Local(v)], [last], have + Written(u, Pop(items)));
      assert have + Written(u, Pop(items)) + {} == have + Written(u, Pop(items));
    } else {
      WrittenConcat(u, items, [Local(v)]);
      ReadsConcat(u, items, [Local(v)], have);
      OneItem(u, Local(v), have + Written(u, items));
    }
  }

  lemma HoistFlow(u: Accesses, b: Builder, a: Table, v: nat, have: set<nat>, ret: set<nat>)
    requires FlowReady(u, b, a, have, ret) && b.entry in b.body
    ensures var b' := b.(body := Hoisted(b.body, b.entry, v));
            FlowReady(u, b', a, have, ret) && FlowDone(u, b', a, a, Some(have))
  {
    hide Written, ReadsOk, WithLocal, Asks, IsOpen, BlockFlow;
    var b' := b.(body := Hoisted(b.body, b.entry, v));
    WithLocalFlow(u, a, b.entry, b.body[b.entry], v, b.succs[b.entry]);
    KeptSame(a);
  }

  lemma DeclFlow(u: Accesses, b: Builder, a: Table, v: nat, init: Option<nat>, have: set<nat>, ret: set<nat>,
                 reserved: set<Block>, pending: set<Block>)
    requires StmtReady(b, reserved, pending) && FlowReady(u, b, a, have, ret) && Assigned(u, Decl(v, init), have, ret)
    ensures FlowDone(u, LowerDecl(b, v, init), a, a, After(u, Decl(v, init), have))
  {
    hide StmtReady, FlowReady, FlowDone, Hoist, Hoisted, Emit;
    ReadyPlaced(b, reserved, pending);
    HoistOf(b, v, reserved, pending);
    HoistFlow(u, b, a, v, have, ret);
    if init.Some? {
      EmitFlow(u, Hoist(b, v), a, Expr(init.value), have, ret);
    }
  }

  lemma ReadyFlows(u: Accesses, b: Builder, a: Table, have: set<nat>, ret: set<nat>)
    requires FlowReady(u, b, a, have, ret)
    ensures Flowing(u, b, a, have) && LoopAsks(b, a, have) && Asks(a, b.ret, ret)
  {
  }

  lemma ReturnFlow(u: Accesses, b: Builder, a: Table, value: Option<nat>, have: set<nat>, ret: set<nat>)
    requires FlowReady(u, b, a, have, ret) && Assigned(u, Return(value), have, ret)
    ensures FlowDone(u, LowerReturn(b, value), a, a, None)
  {
    hide FlowReady, FlowDone, Emit, Br;
    if value.Some? {
      var b1 := Emit(b, Do(Expr(value.value)));
      var b2 := Emit(b1, Do(StoreRet));
      var have1 := have + u.stores(Expr(value.value));
      EmitFlow(u, b, a, Expr(value.value), have, ret);
      EmitFlow(u, b1, a, StoreRet, have1, ret);
      ReadyFlows(u, b2, a, have1 + u.stores(StoreRet), ret);
      AsksKept2(a, b2.ret, ret, have1 + u.stores(StoreRet));
      JumpFlow(u, b2, a, b2.ret, have1 + u.stores(StoreRet), None);
    } else {
      ReadyFlows(u, b, a, have, ret);
      AsksKept2(a, b.ret, ret, have);
      JumpFlow(u, b, a, b.ret, have, None);
    }
  }

  lemma AsksKept2(a: Table, x: Block, have: set<nat>, have': set<nat>)
    requires Asks(a, x, have) && have <= have'
    ensures Asks(a, x, have')
  {
  }

  lemma LoopFlow(u: Accesses, b: Builder, a: Table, have: set<nat>, ret: set<nat>)
    requires FlowReady(u, b, a, have, ret) && b.whileStack != []
    ensures FlowDone(u, Br(b, Top(b.whileStack).no), a, a, None)
            && FlowDone(u, Br(b, Top(b.whileStack).yes), a, a, None)
  {
    hide FlowDone, Br, Asks, Flowing;
    assert b.whileStack[|b.whileStack| - 1] == Top(b.whileStack);
    JumpFlow(u, b, a, Top(b.whileStack).no, have, None);
    JumpFlow(u, b, a, Top(b.whileStack).yes, have, None);
  }

  // ----- parts -----

  lemma PartFlowCloses(u: Accesses, b3: Builder, a: Table, to: Block, after: Option<set<nat>>)
    requires TableOk(u, b3, a) && Known(a, b3) && b3.insert in b3.body
    requires IsOpen(b3, b3.insert) ==> after.Some? && Here(u, b3, a, after.value) && Asks(a, to, after.value)
    ensures TableOk(u, ClosePart(b3, to), a) && Known(a, ClosePart(b3, to))
  {
    hide TableOk, Here, Asks, IsOpen;
    OpenMeans(b3);
    if IsOpen(b3, b3.insert) {
      AsksMeans(a, to, after.value);
      TableBr(u, b3, a, to, after.value);
      TableSame(u, Br(b3, to), PopCur(Br(b3, to)), a);
    } else {
      TableSame(u, b3, PopCur(b3), a);
    }
  }

  /** A branch or a loop body that starts in `x`. */
  lemma PartFlow(u: Accesses, b1: Builder, x: Block, s: Stmt, to: Block, a: Table, have: set<nat>, ret: set<nat>,
                 reserved: set<Block>, pending: set<Block>) returns (a': Table)
    requires StmtReady(OpenPart(b1, x), reserved, pending) && WellNested(s, b1.whileStack != [])
             && Assigned(u, s, have, ret)
    requires TableOk(u, b1, a) && Known(a, b1) && x in a && have <= a[x] && LoopAsks(b1, a, have)
             && Asks(a, b1.ret, ret)
    requires After(u, s, have).Some? ==> Asks(a, to, After(u, s, have).value)
    ensures var b4 := ClosePart(LowerStmt(OpenPart(b1, x), s), to); TableOk(u, b4, a') && Known(a', b4) && Kept(a, a')
    decreases s, 3
  {
    hide StmtReady, StmtDone, LowerStmt, ClosePart, After, Ends, IsOpen, WellNested, Assigned, TableOk, Asks, Here,
         Sane, LoopAsks, FlowReady, OpenPart;
    OpenPartKeeps(b1, x);
    var b2 := OpenPart(b1, x);
    var b3 := LowerStmt(b2, s);
    PartStarts(u, b1, x, a, have, ret, reserved, pending);
    a' := StmtFlow(u, b2, s, a, have, ret, reserved, pending);
    NothingAfter(u, s, have);
    LocalsHoisted(b2, s, reserved, pending);
    LowerStmtDone(b2, s, reserved, pending);
    DoneFacts(b2, b3, reserved, pending);
    var after := After(u, s, have);
    if after.Some? {
      AsksKept(a, a', to, after.value, after.value);
    }
    PartFlowCloses(u, b3, a', to, after);
  }

  lemma PartStarts(u: Accesses, b1: Builder, x: Block, a: Table, have: set<nat>, ret: set<nat>, reserved: set<Block>,
                   pending: set<Block>)
    requires StmtReady(OpenPart(b1, x), reserved, pending)
    requires TableOk(u, b1, a) && Known(a, b1) && x in a && have <= a[x] && LoopAsks(b1, a, have)
             && Asks(a, b1.ret, ret)
    ensures FlowReady(u, OpenPart(b1, x), a, have, ret)
  {
    hide StmtReady, TableOk, Asks, IsOpen, Here, Flowing;
    OpenPartKeeps(b1, x);
    PartBody(b1, x);
    ReadyKeys(OpenPart(b1, x), reserved, pending);
    MoveHere(u, b1, a, x, have);
    FlowingSame(u, SetInsert(b1, x), OpenPart(b1, x), a, have);
    KeptSame(a);
    LoopAsksKept(b1, OpenPart(b1, x), a, a, have, have);
  }

  // ----- if -----

  lemma StartFlow(u: Accesses, b: Builder, a: Table, have: set<nat>, behind: set<nat>) returns (a': Table)
    requires Flowing(u, b, a, have) && Placed(b)
    ensures Flowing(u, StartIf(b), a', have) && Kept(a, a') && Placed(StartIf(b))
    ensures Asks(a', b.next, have) && Asks(a', b.next + 1, have) && Asks(a', b.next + 2, behind)
    ensures a'[b.next] == have && a'[b.next + 1] == have && a'[b.next + 2] == behind
  {
    hide Flowing, Placed, NewBlock;
    var b1 := NewBlock(b);
    var b2 := NewBlock(b1);
    NewKeeps(b);
    NewKeeps(b1);
    var a1 := NewFlows(u, b, a, have, have);
    var a2 := NewFlows(u, b1, a1, have, have);
    a' := NewFlows(u, b2, a2, have, behind);
    KeptTrans(a, a1, a2);
    KeptTrans(a, a2, a');
  }

  /** The test of an `if`, and the table for its three blocks. */
  lemma TestedFlow(u: Accesses, b: Builder, c: Cond, t: Block, f: Block, n: Block, no: Block, a: Table, have: set<nat>,
                   behind: set<nat>)
    returns (a': Table)
    requires Flowing(u, b, a, have) && Placed(b) && CondAssigned(u, c, have)
    requires t == b.next && f == t + 1 && n == f + 1 && no in {f, n} && behind >= have && (no == n ==> behind == have)
    ensures var b1 := PopCur(LowerTest(StartIf(b), c, t, no)); TableOk(u, b1, a') && Known(a', b1) && Kept(a, a')
    ensures t in a' && a'[t] == have && f in a' && a'[f] == have && n in a' && a'[n] == behind
  {
    hide Flowing, Placed, LowerTest, StartIf, TableOk, CondAssigned;
    var a0 := StartFlow(u, b, a, have, behind);
    a' := TestFlow(u, StartIf(b), a0, c, t, no, have);
    var b0 := LowerTest(StartIf(b), c, t, no);
    TableSame(u, b0, PopCur(b0), a');
    KeptTrans(a, a0, a');
  }

  lemma CloseIfFlow(u: Accesses, b5: Builder, t: Block, n: Block, a: Table, out: Option<set<nat>>)
    requires TableOk(u, b5, a) && Known(a, b5) && n in b5.body && n in a && (out.Some? ==> out.value <= a[n])
    requires var b6 := CloseIf(b5, t, n); IsOpen(b6, b6.insert) ==> At(b5.preds, n) != []
    ensures FlowDone(u, CloseIf(b5, t, n), a, a, out)
  {
    hide TableOk, Here, IsOpen, Erase;
    KeptSame(a);
    if At(b5.preds, n) == [] {
      var b6 := SetInsert(OpenPart(b5, n), t);
      TableSame(u, b5, b6, a);
      TableErase(u, b6, a, n);
      ErasedNext(b6, n);
    } else {
      TableSame(u, b5, OpenPart(b5, n), a);
      if out.Some? {
        MoveHere(u, b5, a, n, out.value);
        TableSame(u, SetInsert(b5, n), OpenPart(b5, n), a);
      }
    }
  }

  lemma ErasedNext(b: Builder, x: Block)
    ensures Erase(b, x).next == b.next
  {
  }

  lemma IfFlow(u: Accesses, b: Builder, c: Cond, first: Stmt, a: Table, have: set<nat>, ret: set<nat>,
               reserved: set<Block>, pending: set<Block>) returns (a': Table)
    requires StmtReady(b, reserved, pending) && WellNested(If(c, first), b.whileStack != [])
             && FlowReady(u, b, a, have, ret)
    requires Assigned(u, If(c, first), have, ret)
    ensures FlowDone(u, LowerStmt(b, If(c, first)), a, a', Some(have))
    decreases If(c, first), 0
  {
    hide StmtReady, LowerStmt, LowerTest, StartIf, ClosePart, OpenPart, CloseIf, Erase, IsOpen, Sane, Strip, Midway,
         HasPath, LoopsOk, TableOk, Here, Asks, Flowing, Placed, JumpTargets, Grew;
    var t, f, n := b.next, b.next + 1, b.next + 2;
    ReadyPlaced(b, reserved, pending);
    var a1 := TestedFlow(u, b, c, t, f, n, n, a, have, have);
    var b1 := PopCur(LowerTest(StartIf(b), c, t, n));
    var b4 := ClosePart(LowerStmt(OpenPart(b1, t), first), n);
    IfReady(b, c, first, t, f, n, b1, b4, reserved, pending);
    AsksKept(a, a1, b.ret, ret, ret);
    LoopAsksKept(b, b1, a, a1, have, have);
    NothingAfter(u, first, have);
    HaveAsks(a1, n, have, After(u, first, have));
    var a2 := PartFlow(u, b1, t, first, n, a1, have, ret, WithThree(reserved, t, f, n) - {t},
                       WithThree(pending, t, f, n) - {t, n});
    KeptTrans(a, a1, a2);
    KeptAt(a1, a2, n);
    TableErase(u, b4, a2, f);
    ErasedNext(b4, f);
    CloseIfFlow(u, Erase(b4, f), t, n, a2, Some(have));
    LoweredIf(b, c, first, t, f, n);
    FlowDoneFrom(u, LowerStmt(b, If(c, first)), a, a2, Some(have));
    a' := a2;
  }

  lemma FlowDoneFrom(u: Accesses, b': Builder, a: Table, a': Table, after: Option<set<nat>>)
    requires FlowDone(u, b', a', a', after) && Kept(a, a')
    ensures FlowDone(u, b', a, a', after)
  {
    hide TableOk, Here, IsOpen;
  }

  lemma HaveAsks(a: Table, x: Block, have: set<nat>, after: Option<set<nat>>)
    requires x in a && a[x] == have && (after.Some? ==> have <= after.value)
    ensures after.Some? ==> Asks(a, x, after.value)
  {
  }

  /** What the shape of the graph says about an `if`. */
  lemma IfReady(b: Builder, c: Cond, first: Stmt, t: Block, f: Block, n: Block, b1: Builder, b4: Builder,
                reserved: set<Block>, pending: set<Block>)
    requires StmtReady(b, reserved, pending) && WellNested(If(c, first), b.whileStack != [])
    requires t == b.next && f == t + 1 && n == f + 1 && b1 == PopCur(LowerTest(StartIf(b), c, t, n))
    requires b4 == ClosePart(LowerStmt(OpenPart(b1, t), first), n)
    ensures StmtReady(OpenPart(b1, t), WithThree(reserved, t, f, n) - {t}, WithThree(pending, t, f, n) - {t, n})
    ensures b1.whileStack == b.whileStack && b1.ret == b.ret && n in Erase(b4, f).body
            && At(Erase(b4, f).preds, n) != []
  {
    hide StmtReady, LowerStmt, LowerTest, StartIf, ClosePart, OpenPart, Erase, IsOpen, Sane, Strip, Midway, HasPath,
         LoopsOk;
    var r0, p1 := WithThree(reserved, t, f, n), WithThree(pending, t, f, n) - {t, n};
    TestedIf(b, c, t, f, n, n, reserved, pending);
    ReadyParts(b, reserved, pending);
    assert p1 * reserved == pending;
    BranchReady(b, b1, t, reserved, r0, p1);
    IfParts(b, c, first, t, f, n, b1, b4, reserved, pending);
    var b5 := Erase(b4, f);
    SaneParts(b5, reserved + {n}, pending + {n});
    GraphOfSane(b5, reserved + {n}, pending + {n});
    ReachedHasPred(GraphOf(b5), n);
  }

  lemma IfElseFlow(u: Accesses, b: Builder, c: Cond, first: Stmt, second: Stmt, a: Table, have: set<nat>, ret: set<nat>,
                   reserved: set<Block>, pending: set<Block>) returns (a': Table)
    requires StmtReady(b, reserved, pending) && WellNested(IfElse(c, first, second), b.whileStack != [])
             && FlowReady(u, b, a, have, ret)
    requires Assigned(u, IfElse(c, first, second), have, ret)
    ensures FlowDone(u, LowerStmt(b, IfElse(c, first, second)), a, a', After(u, IfElse(c, first, second), have))
    decreases IfElse(c, first, second), 0
  {
    hide StmtReady, LowerStmt, LowerTest, StartIf, ClosePart, OpenPart, CloseIf, Erase, IsOpen, Sane, Strip, Midway,
         HasPath, LoopsOk, TableOk, Here, Asks, Flowing, Placed, JumpTargets, Grew;
    var t, f, n := b.next, b.next + 1, b.next + 2;
    var out := Both(After(u, first, have), After(u, second, have));
    var behind := if out.Some? then out.value else have;
    NothingAfter(u, first, have);
    NothingAfter(u, second, have);
    ReadyPlaced(b, reserved, pending);
    var a1 := TestedFlow(u, b, c, t, f, n, f, a, have, behind);
    var b1 := PopCur(LowerTest(StartIf(b), c, t, f));
    var b2 := ClosePart(LowerStmt(OpenPart(b1, t), first), n);
    var b3 := ClosePart(LowerStmt(OpenPart(b2, f), second), n);
    TestedIf(b, c, t, f, n, f, reserved, pending);
    IfElseParts(b, c, first, second, t, f, n, b1, b2, b3, reserved, pending);
    AsksKept(a, a1, b.ret, ret, ret);
    LoopAsksKept(b, b1, a, a1, have, have);
    BehindAsks(a1, n, behind, After(u, first, have));
    var a2 := PartFlow(u, b1, t, first, n, a1, have, ret, reserved + {n} + {f}, pending + {n});
    KeptTrans(a, a1, a2);
    KeptAt(a1, a2, n);
    KeptAt(a1, a2, f);
    AsksKept(a, a2, b.ret, ret, ret);
    LoopAsksKept(b, b2, a, a2, have, have);
    BehindAsks(a2, n, behind, After(u, second, have));
    var a3 := PartFlow(u, b2, f, second, n, a2, have, ret, reserved + {n}, pending + {n});
    KeptTrans(a, a2, a3);
    KeptAt(a2, a3, n);
    IfElseClosed(b, b1, b2, b3, second, t, f, n, reserved, pending);
    CloseIfFlow(u, b3, t, n, a3, out);
    LoweredIfElse(b, c, first, second, t, f, n);
    FlowDoneFrom(u, LowerStmt(b, IfElse(c, first, second)), a, a3, out);
    a' := a3;
  }

  lemma BehindAsks(a: Table, x: Block, behind: set<nat>, after: Option<set<nat>>)
    requires x in a && a[x] == behind && (after.Some? ==> behind <= after.value)
    ensures after.Some? ==> Asks(a, x, after.value)
  {
  }

  lemma IfElseClosed(b: Builder, b1: Builder, b2: Builder, b3: Builder, second: Stmt, t: Block, f: Block, n: Block,
                     reserved: set<Block>, pending: set<Block>)
    requires IfElseSplit(b, b1, b2, b3, t, f, n, reserved, pending) && WellNested(second, b.whileStack != [])
    requires b3 == ClosePart(LowerStmt(OpenPart(b2, f), second), n) && t !in reserved && t != n
    ensures var b6 := CloseIf(b3, t, n); IsOpen(b6, b6.insert) ==> At(b3.preds, n) != []
    ensures n in b3.body
  {
    hide StmtReady, LowerStmt, ClosePart, OpenPart, CloseIf, IsOpen, Sane, Strip, WellNested;
    OpenPartKeeps(b2, f);
    ClosedOf2(b3, t, reserved + {n}, pending + {n}, OpenPart(b2, f), second, n);
    CloseIfOpens(b3, t, n, reserved + {n}, pending + {n});
    SaneParts(b3, reserved + {n}, pending + {n});
  }

  // ----- while -----

  lemma StartLoopFlow(u: Accesses, b: Builder, a: Table, have: set<nat>, w: Block, t: Block, n: Block)
    returns (a': Table)
    requires Flowing(u, b, a, have) && Placed(b) && IsOpen(b, b.insert) && w == b.next && t == w + 1 && n == t + 1
    ensures Flowing(u, StartWhile(b), a', have) && Kept(a, a') && w in a' && a'[w] == have && t in a' && a'[t] == have
            && n in a' && a'[n] == have
  {
    hide TableOk, Here, StartIf, Br, BrIfOpen, IsOpen;
    a' := StartFlow(u, b, a, have, have);
    var b0 := StartIf(b).(whileStack := b.whileStack + [Targets(w, n)]);
    StartedIf(b);
    TableSame(u, StartIf(b), b0, a');
    TableBr(u, b0, a', w, have);
    OpenSame(StartIf(b), b0);
    BrIsOpen(b0, w);
    var b1 := PopCur(Br(b0, w));
    TableSame(u, Br(b0, w), b1, a');
    MoveHere(u, b1, a', w, have);
    StartedWhile(b);
  }

  lemma StartedIf(b: Builder)
    requires Placed(b)
    ensures b.next in StartIf(b).body && (IsOpen(StartIf(b), StartIf(b).insert) <==> IsOpen(b, b.insert))
            && StartIf(b).insert == b.insert
    ensures StartIf(b).next == b.next + 3
  {
  }

  lemma BrIsOpen(b: Builder, t: Block)
    ensures b.insert in b.body ==> Br(b, t).body.Keys == b.body.Keys && Br(b, t).next == b.next
    ensures IsOpen(b, b.insert) ==> BrIfOpen(b, t) == Br(b, t)
  {
    hide Br, Terminated;
    BrKeys(b, t);
  }

  lemma BrKeys(b: Builder, t: Block)
    ensures b.insert in b.body ==> Br(b, t).body.Keys == b.body.Keys
    ensures Br(b, t).next == b.next
  {
  }

  lemma StartedWhile(b: Builder)
    ensures StartWhile(b)
            == SetInsert(PopCur(BrIfOpen(StartIf(b).(whileStack := b.whileStack + [Targets(b.next, b.next + 2)]),
                                         b.next)), b.next)
  {
    hide BrIfOpen;
  }

  lemma WhileFlow(u: Accesses, b: Builder, c: Cond, loop: Stmt, a: Table, have: set<nat>, ret: set<nat>,
                  reserved: set<Block>, pending: set<Block>) returns (a': Table)
    requires StmtReady(b, reserved, pending) && WellNested(While(c, loop), b.whileStack != [])
             && FlowReady(u, b, a, have, ret)
    requires Assigned(u, While(c, loop), have, ret)
    ensures FlowDone(u, LowerStmt(b, While(c, loop)), a, a', Some(have))
    decreases While(c, loop), 0
  {
    hide StmtReady, LowerStmt, LowerTest, StartWhile, ClosePart, OpenPart, IsOpen, Sane, Strip, Grew, AfterLoop,
         TableOk, Here, Flowing, Asks, Placed, LoopAsks;
    var w, t, n := b.next, b.next + 1, b.next + 2;
    ReadyPlaced(b, reserved, pending);
    var a0 := StartLoopFlow(u, b, a, have, w, t, n);
    var bw := StartWhile(b);
    StartLoopLocals(b, reserved, pending);
    HaveAsks(a0, t, have, Some(have));
    HaveAsks(a0, n, have, Some(have));
    var a1 := TestFlow(u, bw, a0, c, t, n, have);
    var b1 := LowerTest(bw, c, t, n);
    LoopParts(b, c, loop, w, t, n, reserved, pending);
    KeptTrans(a, a0, a1);
    KeptAt(a0, a1, w);
    KeptAt(a0, a1, t);
    KeptAt(a0, a1, n);
    LoopAsksPushed(b, b1, a, a1, have, w, n);
    AsksKept(a, a1, b.ret, ret, ret);
    NothingAfter(u, loop, have);
    HaveAsks(a1, w, have, After(u, loop, have));
    var a2 := PartFlow(u, b1, t, loop, w, a1, have, ret, reserved + {n}, pending);
    KeptTrans(a, a1, a2);
    KeptAt(a1, a2, n);
    var b4 := ClosePart(LowerStmt(OpenPart(b1, t), loop), w);
    LoweredWhile(b, c, loop, w, t, n);
    BehindLoopFlow(u, b4, n, a2, have);
    FlowDoneFrom(u, LowerStmt(b, While(c, loop)), a, a2, Some(have));
    a' := a2;
  }

  lemma BehindLoopFlow(u: Accesses, b4: Builder, n: Block, a: Table, have: set<nat>)
    requires TableOk(u, b4, a) && Known(a, b4) && IsOpen(b4, n) && n in a && a[n] == have
    ensures FlowDone(u, AfterLoop(b4, n), a, a, Some(have))
  {
    hide TableOk, Here;
    KeptSame(a);
    MoveHere(u, b4, a, n, have);
    TableSame(u, SetInsert(b4, n), AfterLoop(b4, n), a);
  }

  lemma LoopAsksPushed(b: Builder, b1: Builder, a: Table, a1: Table, have: set<nat>, w: Block, n: Block)
    requires LoopAsks(b, a, have) && Kept(a, a1) && b1.whileStack == b.whileStack + [Targets(w, n)]
    requires w in a1 && a1[w] == have && n in a1 && a1[n] == have
    ensures LoopAsks(b1, a1, have)
  {
    forall k | 0 <= k < |b1.whileStack|
      ensures Asks(a1, b1.whileStack[k].yes, have) && Asks(a1, b1.whileStack[k].no, have)
    {
      if k < |b.whileStack| {
        AsksKept(a, a1, b.whileStack[k].yes, have, have);
        AsksKept(a, a1, b.whileStack[k].no, have, have);
      }
    }
  }

  // ----- all statements -----

  lemma ListFlow(u: Accesses, b: Builder, body: seq<Stmt>, a: Table, have: set<nat>, ret: set<nat>,
                 reserved: set<Block>, pending: set<Block>) returns (a': Table)
    requires StmtReady(b, reserved, pending) && WellNestedAll(body, b.whileStack != []) && FlowReady(u, b, a, have, ret)
    requires AllAssigned(u, body, have, ret)
    ensures FlowDone(u, LowerList(b, body), a, a', AfterAll(u, body, have))
    decreases body, 1
  {
    hide StmtReady, StmtDone, LowerStmt, LowerList, WellNested, WellNestedAll, Assigned, After, Ends, IsOpen,
         Terminated, TableOk, Here, Flowing, LoopAsks, Asks, At, Sane;
    if body == [] {
      a' := a;
      NothingLowered(b);
      EmptyFlow(u, b, a, have, ret);
    } else {
      var b1, rest := LowerStmt(b, body[0]), body[1..];
      var first := After(u, body[0], have);
      AllNested(body, b.whileStack != []);
      var a1 := StmtFlow(u, b, body[0], a, have, ret, reserved, pending);
      NothingAfter(u, body[0], have);
      LocalsHoisted(b, body[0], reserved, pending);
      LowerStmtDone(b, body[0], reserved, pending);
      DoneFacts(b, b1, reserved, pending);
      RetKept(b, b1, reserved, pending);
      OpenMeans(b1);
      LoweredList(b, body);
      if Terminated(At(b1.body, b1.insert)) {
        a' := a1;
      } else {
        NotEnded(b, b1, reserved, pending);
        FlowGoesOn(u, b, b1, a, a1, have, first.value, ret);
        a' := ListFlow(u, b1, rest, a1, first.value, ret, reserved, pending);
        FlowDoneTrans(u, LowerList(b, body), a, a1, a', AfterAll(u, body, have));
      }
    }
  }

  lemma EmptyFlow(u: Accesses, b: Builder, a: Table, have: set<nat>, ret: set<nat>)
    requires FlowReady(u, b, a, have, ret)
    ensures FlowDone(u, b, a, a, Some(have))
  {
    hide TableOk, Here, IsOpen;
    KeptSame(a);
  }

  lemma FlowDoneTrans(u: Accesses, b': Builder, a: Table, a1: Table, a': Table, after: Option<set<nat>>)
    requires Kept(a, a1) && FlowDone(u, b', a1, a', after)
    ensures FlowDone(u, b', a, a', after)
  {
    hide TableOk, Here, IsOpen;
    KeptTrans(a, a1, a');
  }

  lemma FlowGoesOn(u: Accesses, b: Builder, b1: Builder, a: Table, a1: Table, have: set<nat>, have1: set<nat>,
                   ret: set<nat>)
    requires FlowReady(u, b, a, have, ret) && FlowDone(u, b1, a, a1, Some(have1)) && IsOpen(b1, b1.insert)
             && have <= have1
    requires b1.whileStack == b.whileStack && b1.ret == b.ret
    ensures FlowReady(u, b1, a1, have1, ret)
  {
    hide TableOk, Here, IsOpen, Asks, LoopAsks, Kept;
    AsksKept(a, a1, b.ret, ret, ret);
    LoopAsksKept(b, b1, a, a1, have, have1);
  }

  /** Lowering a statement whose loads are of assigned locals keeps the table, and what
      is assigned after it is assigned where the builder then stands. */
  lemma StmtFlow(u: Accesses, b: Builder, s: Stmt, a: Table, have: set<nat>, ret: set<nat>,
                 reserved: set<Block>, pending: set<Block>) returns (a': Table)
    requires StmtReady(b, reserved, pending) && WellNested(s, b.whileStack != []) && FlowReady(u, b, a, have, ret)
    requires Assigned(u, s, have, ret)
    ensures FlowDone(u, LowerStmt(b, s), a, a', After(u, s, have))
    decreases s, 2
  {
    hide StmtReady, LowerTest, StartIf, StartWhile, ClosePart, OpenPart, CloseIf, Erase, LowerDecl, LowerReturn,
         LowerList, Emit, Br, PopCur, Top, Pop, FlowReady, FlowDone, AllAssigned, CondAssigned, AfterAll;
    a' := a;
    match s
    case Empty => EmptyFlow(u, b, a, have, ret);
    case Simple(e) => EmitFlow(u, b, a, Expr(e), have, ret);
    case Decl(v, init) => DeclFlow(u, b, a, v, init, have, ret, reserved, pending);
    case Compound(body) => a' := ListFlow(u, b, body, a, have, ret, reserved, pending);
    case If(c, first) => a' := IfFlow(u, b, c, first, a, have, ret, reserved, pending);
    case IfElse(c, first, second) => a' := IfElseFlow(u, b, c, first, second, a, have, ret, reserved, pending);
    case While(c, loop) => a' := WhileFlow(u, b, c, loop, a, have, ret, reserved, pending);
    case Break => LoopFlow(u, b, a, have, ret);
    case Continue => LoopFlow(u, b, a, have, ret);
    case Return(value) => ReturnFlow(u, b, a, value, have, ret);
  }

  // ----- functions -----

  function ArgsStored(u: Accesses, n: nat): set<nat> {
    if n == 0 then {} else ArgsStored(u, n - 1) + u.stores(StoreArg(n - 1))
  }

  predicate ArgsAssigned(u: Accesses, n: nat) {
    n == 0 || (ArgsAssigned(u, n - 1) && u.loads(StoreArg(n - 1)) <= ArgsStored(u, n - 1))
  }

  /** What the `ret` block loads. */
  function RetLoads(u: Accesses, isVoid: bool): set<nat> {
    if isVoid then {} else u.loads(LoadRet)
  }

  /** Whatever the function loads has been assigned, whichever way one came; the value
      returned is assigned at each `return`, or else zero is stored at the end. */
  predicate FunctionAssigned(u: Accesses, f: FuncDef) {
    && ArgsAssigned(u, f.params)
    && AllAssigned(u, f.body, ArgsStored(u, f.params), RetLoads(u, f.isVoid))
    && var end := AfterAll(u, f.body, ArgsStored(u, f.params));
       end.Some? && !f.isVoid ==> u.loads(StoreZero) <= end.value && u.loads(LoadRet) <= end.value + u.stores(StoreZero)
  }

  lemma TwoBlocksFlow(u: Accesses, isVoid: bool, ret: set<nat>) returns (a: Table)
    ensures FlowReady(u, TwoBlocks(isVoid), a, {}, ret) && 0 in a && a[0] == {} && 1 in a && a[1] == ret
  {
    hide TwoBlocks;
    TwoBlocksIs(isVoid);
    OneItem(u, Local(0), {});
    a := map[0 := {}, 1 := ret];
  }

  lemma {:induction false} ParamsFlow(u: Accesses, b: Builder, n: nat, a: Table, ret: set<nat>)
    requires FlowReady(u, b, a, {}, ret) && ArgsAssigned(u, n)
    ensures FlowReady(u, LowerParams(b, n), a, ArgsStored(u, n), ret)
  {
    hide FlowReady, Emit;
    if n > 0 {
      var b1 := LowerParams(b, n - 1);
      ParamsFlow(u, b, n - 1, a, ret);
      LocalFlow(u, b1, a, n, ArgsStored(u, n - 1), ret);
      EmitFlow(u, Emit(b1, Local(n)), a, StoreArg(n - 1), ArgsStored(u, n - 1), ret);
    }
  }

  lemma LocalFlow(u: Accesses, b: Builder, a: Table, v: nat, have: set<nat>, ret: set<nat>)
    requires FlowReady(u, b, a, have, ret)
    ensures FlowReady(u, Emit(b, Local(v)), a, have, ret)
  {
    hide TableOk, Here, Asks;
    TableEmit(u, b, a, Local(v), have);
    assert have + {} == have;
    KeptSame(a);
    LoopAsksKept(b, Emit(b, Local(v)), a, a, have, have);
  }

  lemma FallOffFlow(u: Accesses, b: Builder, isVoid: bool, a: Table, end: Option<set<nat>>, ret: set<nat>)
    requires TableOk(u, b, a) && Known(a, b) && Asks(a, b.ret, ret) && b.insert in b.body && (isVoid ==> ret == {})
    requires IsOpen(b, b.insert) ==> end.Some? && Here(u, b, a, end.value)
    requires end.Some? && !isVoid ==> u.loads(StoreZero) <= end.value && ret <= end.value + u.stores(StoreZero)
    ensures TableOk(u, FallOff(b, isVoid), a)
  {
    hide TableOk, Here, Asks, Br, Emit, IsOpen;
    OpenMeans(b);
    if IsOpen(b, b.insert) {
      var b1 := if isVoid then b else Emit(b, Do(StoreZero));
      var have := if isVoid then end.value else end.value + u.stores(StoreZero);
      EmitFixed(b, Do(StoreZero));
      if !isVoid {
        TableEmit(u, b, a, Do(StoreZero), end.value);
      }
      AsksKept2(a, b.ret, ret, have);
      AsksMeans(a, b.ret, have);
      TableBr(u, b1, a, b.ret, have);
    }
  }

  lemma EndFlow(u: Accesses, b: Builder, isVoid: bool, a: Table)
    requires TableOk(u, FallOff(b, isVoid), a) && FallOff(b, isVoid).ret == b.ret && b.ret in FallOff(b, isVoid).body
    requires b.ret in a && RetLoads(u, isVoid) <= a[b.ret]
    ensures TableOk(u, EndFunction(b, isVoid), a)
  {
    hide FallOff, EndFunction, Written, ReadsOk;
    EndIs(b, isVoid);
    var b1, b' := FallOff(b, isVoid), EndFunction(b, isVoid);
    var items := b1.body[b.ret];
    var items1 := if isVoid then items else items + [Do(LoadRet)];
    assert b1.succs[b.ret] + [] == b1.succs[b.ret];
    if !isVoid {
      FlowEmit(u, a, b.ret, items, Do(LoadRet), b1.succs[b.ret], []);
    }
    FlowEmit(u, a, b.ret, items1, Leave, b1.succs[b.ret], []);
    assert items1 + [Leave] == items + ReturnItems(isVoid);
    forall x | x in b'.body
      ensures BlockFlow(u, a, x, b'.body[x], b'.succs[x])
    {
      assert BlockFlow(u, a, x, b1.body[x], b1.succs[x]);
    }
  }

  /** The blocks of a function that assigns before it loads have a table, with nothing
      assigned at the entry. */
  lemma LoweredFlow(u: Accesses, f: FuncDef) returns (a: Table)
    requires WellNestedAll(f.body, false) && FunctionAssigned(u, f)
    ensures TableOk(u, LowerFunction(f), a) && 0 in a && a[0] == {}
  {
    hide StmtReady, StmtDone, LowerList, LowerParams, TwoBlocks, EndFunction, FallOff, WellNestedAll, AllAssigned,
         AfterAll, ArgsAssigned, ArgsStored, TableOk, Sane, FlowReady, IsOpen, Here, EndsAny, Strip;
    var ret, args := RetLoads(u, f.isVoid), ArgsStored(u, f.params);
    var b0 := StartFunction(f);
    var b := LowerList(b0, f.body);
    var end := AfterAll(u, f.body, args);
    var a0 := TwoBlocksFlow(u, f.isVoid, ret);
    ParamsFlow(u, TwoBlocks(f.isVoid), f.params, a0, ret);
    StartReady(f);
    a := ListFlow(u, b0, f.body, a0, args, ret, {1}, {1});
    BodyDone(f);
    SaneParts(b, {1}, {1});
    NothingAfterAll(u, f.body, args);
    ListHoisted(b0, f.body, {1}, {1});
    KeptAt(a0, a, 0);
    KeptAt(a0, a, 1);
    FallOffFlow(u, b, f.isVoid, a, end, ret);
    FallOffDone(b, f.isVoid);
    SaneParts(FallOff(b, f.isVoid), {1}, {1});
    EndFlow(u, b, f.isVoid, a);
  }

  // ----- paths -----

  ghost predicate StoredAlong(u: Accesses, b: Builder, path: seq<Block>, v: nat) {
    exists k :: 0 <= k < |path| - 1 && path[k] in b.body && v in Written(u, b.body[path[k]])
  }

  lemma {:induction false} TableOnPath(u: Accesses, b: Builder, a: Table, path: seq<Block>, x: Block, v: nat)
    requires TableOk(u, b, a) && GraphOf(b).PathFromTo(path, b.entry, x) && b.entry in a && a[b.entry] == {}
    requires x in a && v in a[x]
    ensures StoredAlong(u, b, path, v)
    decreases |path|
  {
    hide Written, ReadsOk;
    var y := path[|path| - 2];
    assert x in b.succs[y];
    assert BlockFlow(u, a, y, b.body[y], b.succs[y]);
    if v in Written(u, b.body[y]) {
      assert path[|path| - 2] in b.body;
    } else {
      PathPrefix(GraphOf(b), path, |path| - 2);
      var front := path[..|path| - 1];
      TableOnPath(u, b, a, front, y, v);
      var k :| 0 <= k < |front| - 1 && front[k] in b.body && v in Written(u, b.body[front[k]]);
      assert path[k] == front[k];
    }
  }

  lemma ReadsAt(u: Accesses, items: seq<Item>, have: set<nat>, k: nat)
    requires ReadsOk(u, items, have) && k < |items| && items[k].Do?
    ensures u.loads(items[k].a) <= have + Written(u, items[..k])
  {
    assert items == items[..k] + ([items[k]] + items[k + 1..]);
    ReadsConcat(u, items[..k], [items[k]] + items[k + 1..], have);
  }

  /** On every path from the entry, an atom that loads a local comes after one that
      stores to it, in its own block or in one passed before. */
  lemma AssignedOnPaths(u: Accesses, f: FuncDef, path: seq<Block>, x: Block, k: nat, v: nat)
    requires WellNestedAll(f.body, false) && FunctionAssigned(u, f)
    requires var b := LowerFunction(f);
             GraphOf(b).PathFromTo(path, b.entry, x) && x in b.body && k < |b.body[x]| && b.body[x][k].Do?
             && v in u.loads(b.body[x][k].a)
    ensures var b := LowerFunction(f); v in Written(u, b.body[x][..k]) || StoredAlong(u, b, path, v)
  {
    hide LowerFunction, WellNestedAll, FunctionAssigned, Complete, Written, ReadsOk;
    var b := LowerFunction(f);
    var a := LoweredFlow(u, f);
    LoweredIsComplete(f);
    assert BlockFlow(u, a, x, b.body[x], b.succs[x]);
    ReadsAt(u, b.body[x], a[x], k);
    if v !in Written(u, b.body[x][..k]) {
      TableOnPath(u, b, a, path, x, v);
    }
  }
}
