/** What the blocks of a function hold: a branch, the store of the value returned and
    the return itself find a result computed earlier in their own block. */
module BlocksFit {
  import opened FlowGraphs
  import opened Statements
  import opened BlockBuilder
  import opened BuilderInvariants
  import opened LoweringShape
  import opened LoweringStmts
  import opened LoweringControl
  import opened LoweredFunction
  import opened LocalsInEntry
  import opened DefiniteAssignment

  /** The parameters of the function, which expressions have a value, and the locals an
      expression names. */
  datatype Signature = Signature(params: nat, isVoid: bool, valued: nat -> bool, names: nat -> set<nat>)

  // ----- read off the source -----

  function Members(vs: seq<nat>): set<nat> {
    set v | v in vs
  }

  predicate CondFits(sg: Signature, have: set<nat>, c: Cond) {
    match c
    case Leaf(e) => sg.valued(e) && sg.names(e) <= have
    case And(l, r) => CondFits(sg, have, l) && CondFits(sg, have, r)
    case Or(l, r) => CondFits(sg, have, l) && CondFits(sg, have, r)
  }

  /** Conditions have values, and so has what is returned, by functions that are not void;
      expressions name locals of `have` and those declared before them, an initialiser
      also its own. What is dropped may be anything. */
  predicate StmtFits(sg: Signature, have: set<nat>, s: Stmt)
    decreases s
  {
    match s
    case Simple(e) => sg.names(e) <= have
    case Decl(v, init) => init.Some? ==> sg.names(init.value) <= have + {v}
    case Compound(body) => AllStmtsFit(sg, have, body)
    case If(c, first) => CondFits(sg, have, c) && StmtFits(sg, have, first)
    case IfElse(c, first, second) =>
      CondFits(sg, have, c) && StmtFits(sg, have, first) && StmtFits(sg, have + Members(Declared(first)), second)
    case While(c, loop) => CondFits(sg, have, c) && StmtFits(sg, have, loop)
    case Return(value) =>
      value.Some? ==> !sg.isVoid && 0 in have && sg.valued(value.value) && sg.names(value.value) <= have
    case _ => true
  }

  predicate AllStmtsFit(sg: Signature, have: set<nat>, body: seq<Stmt>)
    decreases body
  {
    if body == [] then true
    else
      StmtFits(sg, have, body[0])
      && (Ends(body[0]) || AllStmtsFit(sg, have + Members(Declared(body[0])), body[1..]))
  }

  // ----- read off the blocks -----

  predicate AtomYields(sg: Signature, a: Atom) {
    match a
    case Expr(e) => sg.valued(e)
    case LoadRet => true
    case _ => false
  }

  /** The locals an atom names: the one of its argument, or that of the value returned. */
  function AtomNames(sg: Signature, a: Atom): set<nat> {
    match a
    case Expr(e) => sg.names(e)
    case StoreArg(i) => {i + 1}
    case _ => {0}
  }

  /** `ready` tells whether there is a result yet, and `locals` which locals have an
      `alloca`. */
  predicate ItemFits(sg: Signature, i: Item, ready: bool, locals: set<nat>) {
    match i
    case Do(a) =>
      AtomNames(sg, a) <= locals
      && (match a
          case Expr(_) => true
          case StoreArg(n) => n < sg.params
          case StoreRet => !sg.isVoid && ready
          case _ => !sg.isVoid)
    case Branch(_, _) => ready
    case Leave => sg.isVoid || ready
    case _ => true
  }

  predicate HaveAfter(sg: Signature, items: seq<Item>) {
    exists k :: 0 <= k < |items| && items[k].Do? && AtomYields(sg, items[k].a)
  }

  ghost predicate ItemsFit(sg: Signature, outer: set<nat>, items: seq<Item>) {
    forall k :: 0 <= k < |items| ==>
      ItemFits(sg, items[k], HaveAfter(sg, items[..k]), outer + Members(LocalsOf(items[..k])))
  }

  /** In the entry an atom comes after the `alloca`s of the locals it names; elsewhere they
      are in the entry. */
  ghost predicate AllFit(sg: Signature, have: set<nat>, b: Builder) {
    && b.entry in b.body && have <= Members(LocalsOf(b.body[b.entry]))
    && forall x :: x in b.body ==> ItemsFit(sg, if x == b.entry then {} else have, b.body[x])
  }

  ghost predicate HereHas(sg: Signature, b: Builder) {
    b.insert in b.body && HaveAfter(sg, b.body[b.insert])
  }

  lemma HaveMore(sg: Signature, items: seq<Item>, i: Item)
    ensures HaveAfter(sg, items + [i]) <==> HaveAfter(sg, items) || (i.Do? && AtomYields(sg, i.a))
  {
    var more := items + [i];
    if HaveAfter(sg, items) {
      var k :| 0 <= k < |items| && items[k].Do? && AtomYields(sg, items[k].a);
      assert more[k] == items[k];
    }
    if i.Do? && AtomYields(sg, i.a) {
      assert more[|items|] == i;
    }
  }

  lemma MoreLocals(sg: Signature, i: Item, ready: bool, locals: set<nat>, more: set<nat>)
    requires ItemFits(sg, i, ready, locals) && locals <= more
    ensures ItemFits(sg, i, ready, more)
  {
  }

  lemma FitEmit(sg: Signature, outer: set<nat>, items: seq<Item>, i: Item)
    requires ItemsFit(sg, outer, items)
    requires ItemFits(sg, i, HaveAfter(sg, items), outer + Members(LocalsOf(items)))
    ensures ItemsFit(sg, outer, items + [i])
  {
    hide ItemFits, HaveAfter, LocalsOf;
    var more := items + [i];
    forall k | 0 <= k < |more|
      ensures ItemFits(sg, more[k], HaveAfter(sg, more[..k]), outer + Members(LocalsOf(more[..k])))
    {
      if k < |items| {
        assert more[..k] == items[..k] && more[k] == items[k];
      } else {
        assert more[..k] == items;
      }
    }
  }

  /** What names locals of `have` only can be emitted anywhere. */
  lemma EmitFits(sg: Signature, have: set<nat>, b: Builder, i: Item)
    requires AllFit(sg, have, b) && b.insert in b.body && !i.Local?
    requires ItemFits(sg, i, HaveAfter(sg, b.body[b.insert]), have)
    ensures AllFit(sg, have, Emit(b, i))
    ensures HereHas(sg, Emit(b, i)) <==> HereHas(sg, b) || (i.Do? && AtomYields(sg, i.a))
  {
    hide ItemsFit, ItemFits, HaveAfter, LocalsOf;
    var outer: set<nat> := if b.insert == b.entry then {} else have;
    MoreLocals(sg, i, HaveAfter(sg, b.body[b.insert]), have, outer + Members(LocalsOf(b.body[b.insert])));
    FitEmit(sg, outer, b.body[b.insert], i);
    HaveMore(sg, b.body[b.insert], i);
    LocalsConcat(b.body[b.insert], [i]);
    LocalsOfOne(i);
  }

  lemma SameFits(sg: Signature, have: set<nat>, b: Builder, b': Builder)
    requires AllFit(sg, have, b) && b'.body == b.body && b'.entry == b.entry
    ensures AllFit(sg, have, b') && (b'.insert == b.insert ==> (HereHas(sg, b') <==> HereHas(sg, b)))
  {
    hide ItemsFit, HaveAfter, LocalsOf;
  }

  lemma JumpFits(sg: Signature, have: set<nat>, b: Builder, t: Block)
    requires AllFit(sg, have, b) && b.insert in b.body
    ensures AllFit(sg, have, Br(b, t))
  {
    hide AllFit, HaveAfter;
    EmitFits(sg, have, b, Jump(t));
    SameFits(sg, have, Emit(b, Jump(t)), Br(b, t));
  }

  lemma BranchFits(sg: Signature, have: set<nat>, b: Builder, t: Block, f: Block)
    requires AllFit(sg, have, b) && HereHas(sg, b)
    ensures AllFit(sg, have, CondBr(b, t, f))
  {
    hide AllFit, HaveAfter;
    EmitFits(sg, have, b, Branch(t, f));
    SameFits(sg, have, Emit(b, Branch(t, f)), CondBr(b, t, f));
  }

  lemma NewBlockFits(sg: Signature, have: set<nat>, b: Builder)
    requires AllFit(sg, have, b) && b.next != b.entry
    ensures AllFit(sg, have, NewBlock(b))
  {
    hide ItemFits, HaveAfter, LocalsOf;
  }

  lemma EraseFits(sg: Signature, have: set<nat>, b: Builder, x: Block)
    requires AllFit(sg, have, b) && x != b.entry
    ensures AllFit(sg, have, Erase(b, x))
  {
    hide ItemsFit, LocalsOf;
  }

  /** An `alloca` put before the terminator takes no result away. */
  lemma WithLocalFits(sg: Signature, outer: set<nat>, items: seq<Item>, v: nat)
    requires ItemsFit(sg, outer, items)
    ensures ItemsFit(sg, outer, WithLocal(items, v))
    ensures HaveAfter(sg, WithLocal(items, v)) <==> HaveAfter(sg, items)
  {
    hide ItemsFit, LocalsOf;
    if Terminated(items) {
      var front, last := Pop(items), items[|items| - 1];
      assert items == front + [last];
      LastFits(sg, outer, items);
      assert items[..|items| - 1] == front;
      FitEmit(sg, outer, front, Local(v));
      HaveMore(sg, front, Local(v));
      FitEmit(sg, outer, front + [Local(v)], last);
      HaveMore(sg, front + [Local(v)], last);
      HaveMore(sg, front, last);
      assert WithLocal(items, v) == front + [Local(v)] + [last];
    } else {
      FitEmit(sg, outer, items, Local(v));
      HaveMore(sg, items, Local(v));
    }
  }

  lemma LastFits(sg: Signature, outer: set<nat>, items: seq<Item>)
    requires ItemsFit(sg, outer, items) && items != []
    ensures ItemsFit(sg, outer, items[..|items| - 1])
    ensures ItemFits(sg, items[|items| - 1], HaveAfter(sg, items[..|items| - 1]),
                     outer + Members(LocalsOf(items[..|items| - 1])))
  {
    hide ItemFits, HaveAfter, LocalsOf;
    var front := items[..|items| - 1];
    forall k | 0 <= k < |front|
      ensures ItemFits(sg, front[k], HaveAfter(sg, front[..k]), outer + Members(LocalsOf(front[..k])))
    {
      assert front[..k] == items[..k];
    }
  }

  lemma OuterGrows(sg: Signature, outer: set<nat>, outer': set<nat>, items: seq<Item>)
    requires ItemsFit(sg, outer, items) && outer <= outer'
    ensures ItemsFit(sg, outer', items)
  {
    hide ItemFits, HaveAfter, LocalsOf;
    forall k | 0 <= k < |items|
      ensures ItemFits(sg, items[k], HaveAfter(sg, items[..k]), outer' + Members(LocalsOf(items[..k])))
    {
      MoreLocals(sg, items[k], HaveAfter(sg, items[..k]), outer + Members(LocalsOf(items[..k])),
                 outer' + Members(LocalsOf(items[..k])));
    }
  }

  // ----- conditions -----

  /** After a condition the builder stands where the last operand has been computed. */
  lemma {:induction false} CondFit(sg: Signature, have: set<nat>, b: Builder, c: Cond)
    requires AllFit(sg, have, b) && Placed(b) && CondFits(sg, have, c)
    ensures AllFit(sg, have, LowerCond(b, c)) && HereHas(sg, LowerCond(b, c))
    decreases c
  {
    hide AllFit, HereHas, CondBr, Placed, LocalsGrew;
    match c
    case Leaf(e) =>
      PlacedHere(b);
      EmitFits(sg, have, b, Do(Expr(e)));
    case And(l, r) =>
      var b0, y := NewBlock(b), b.next;
      NewPlaced(b);
      NewBlockFits(sg, have, b);
      CondFit(sg, have, b0, l);
      CondLocals(b0, l);
      var b1 := LowerCond(b0, l);
      LocalsKeys(b0, b1);
      SecondFit(sg, have, b1, y, Top(b1.orStack).no, y);
      CondFit(sg, have, SetInsert(CondBr(b1, y, Top(b1.orStack).no), y), r);
    case Or(l, r) =>
      var y := b.next;
      var b0 := NewBlock(b).(orStack := b.orStack + [Targets(Top(b.orStack).yes, y)]);
      NewPlaced(b);
      NewBlockFits(sg, have, b);
      SameFits(sg, have, NewBlock(b), b0);
      StackPlaced(NewBlock(b), b0);
      CondFit(sg, have, b0, l);
      CondLocals(b0, l);
      var b1 := LowerCond(b0, l);
      var b2 := b1.(orStack := Pop(b1.orStack));
      SameFits(sg, have, b1, b2);
      StackPlaced(b1, b2);
      LocalsKeys(b0, b1);
      SecondFit(sg, have, b2, Top(b2.orStack).yes, y, y);
      CondFit(sg, have, SetInsert(CondBr(b2, Top(b2.orStack).yes, y), y), r);
  }

  lemma PlacedHere(b: Builder)
    requires Placed(b)
    ensures b.insert in b.body
  {
  }

  lemma NewPlaced(b: Builder)
    requires Placed(b)
    ensures Placed(NewBlock(b)) && b.next in NewBlock(b).body && b.next > b.entry && NewBlock(b).entry == b.entry
  {
  }

  lemma StackPlaced(b: Builder, b': Builder)
    requires Placed(b) && b' == b.(orStack := b'.orStack)
    ensures Placed(b')
  {
  }

  lemma LocalsKeys(b: Builder, b': Builder)
    requires LocalsGrew(b, b', [])
    ensures b.body.Keys <= b'.body.Keys
  {
  }

  lemma SecondFit(sg: Signature, have: set<nat>, b: Builder, t: Block, f: Block, y: Block)
    requires AllFit(sg, have, b) && HereHas(sg, b) && Placed(b) && y in b.body
    ensures AllFit(sg, have, SetInsert(CondBr(b, t, f), y)) && Placed(SetInsert(CondBr(b, t, f), y))
  {
    hide AllFit, HereHas;
    BranchFits(sg, have, b, t, f);
    SameFits(sg, have, CondBr(b, t, f), SetInsert(CondBr(b, t, f), y));
    CondBrPlaced(b, t, f, y);
  }

  lemma TestFits(sg: Signature, have: set<nat>, b: Builder, c: Cond, t: Block, f: Block)
    requires AllFit(sg, have, b) && Placed(b) && CondFits(sg, have, c)
    ensures AllFit(sg, have, LowerTest(b, c, t, f))
  {
    hide AllFit, HereHas, CondBr, LowerCond;
    var b0 := b.(orStack := b.orStack + [Targets(t, f)]);
    SameFits(sg, have, b, b0);
    CondFit(sg, have, b0, c);
    var b1 := LowerCond(b0, c);
    var b2 := b1.(orStack := Pop(b1.orStack));
    SameFits(sg, have, b1, b2);
    BranchFits(sg, have, b2, t, f);
  }

  // ----- statements -----

  lemma StartFits(sg: Signature, have: set<nat>, b: Builder)
    requires AllFit(sg, have, b) && Placed(b)
    ensures AllFit(sg, have, StartIf(b)) && StartIf(b).entry == b.entry && b.next > b.entry
  {
    hide AllFit, NewBlock, Placed;
    var b1 := NewBlock(b);
    NewPlaced(b);
    NewPlaced(b1);
    NewPlaced(NewBlock(b1));
    NewBlockFits(sg, have, b);
    NewBlockFits(sg, have, b1);
    NewBlockFits(sg, have, NewBlock(b1));
    ThreeBlocks(b);
  }

  lemma HoistFits(sg: Signature, have: set<nat>, b: Builder, v: nat)
    requires AllFit(sg, have, b)
    ensures AllFit(sg, have + {v}, b.(body := Hoisted(b.body, b.entry, v)))
  {
    WithLocalFits(sg, {}, b.body[b.entry], v);
    LocalAdded(b.body[b.entry], v);
    hide ItemsFit, WithLocal, LocalsOf;
    forall x | x in b.body && x != b.entry
      ensures ItemsFit(sg, have + {v}, b.body[x])
    {
      OuterGrows(sg, have, have + {v}, b.body[x]);
    }
  }

  lemma DeclFits(sg: Signature, have: set<nat>, b: Builder, v: nat, init: Option<nat>, reserved: set<Block>,
                 pending: set<Block>)
    requires StmtReady(b, reserved, pending) && AllFit(sg, have, b)
    requires init.Some? ==> sg.names(init.value) <= have + {v}
    ensures AllFit(sg, have + {v}, LowerDecl(b, v, init))
  {
    hide StmtReady, StmtDone, AllFit, HereHas, Hoist, Hoisted, HaveAfter, Emit, IsOpen;
    ReadyPlaced(b, reserved, pending);
    HoistOf(b, v, reserved, pending);
    HoistFits(sg, have, b, v);
    HoistDone(b, v, reserved, pending);
    ReadyPlaced(Hoist(b, v), reserved, pending);
    if init.Some? {
      EmitFits(sg, have + {v}, Hoist(b, v), Do(Expr(init.value)));
    }
  }

  lemma NoneDeclared(have: set<nat>)
    ensures have + Members([]) == have
  {
  }

  lemma MembersConcat(vs: seq<nat>, ws: seq<nat>)
    ensures Members(vs + ws) == Members(vs) + Members(ws)
  {
  }

  lemma TwiceDeclared(have: set<nat>, vs: seq<nat>, ws: seq<nat>)
    ensures have + Members(vs) + Members(ws) == have + Members(vs + ws)
  {
  }

  lemma ReturnFits(sg: Signature, have: set<nat>, b: Builder, value: Option<nat>)
    requires AllFit(sg, have, b) && b.insert in b.body && StmtFits(sg, have, Return(value))
    ensures AllFit(sg, have, LowerReturn(b, value))
  {
    hide AllFit, HaveAfter, Br;
    if value.Some? {
      var b1 := Emit(b, Do(Expr(value.value)));
      EmitFits(sg, have, b, Do(Expr(value.value)));
      EmitFits(sg, have, b1, Do(StoreRet));
      JumpFits(sg, have, Emit(b1, Do(StoreRet)), b.ret);
    } else {
      JumpFits(sg, have, b, b.ret);
    }
  }

  lemma PartClosesFits(sg: Signature, have: set<nat>, b3: Builder, to: Block)
    requires AllFit(sg, have, b3) && b3.insert in b3.body
    ensures AllFit(sg, have, ClosePart(b3, to))
  {
    hide AllFit, Br, Terminated, At;
    JumpFits(sg, have, b3, to);
    SameFits(sg, have, Br(b3, to), PopCur(Br(b3, to)));
    SameFits(sg, have, b3, PopCur(b3));
  }

  lemma ErasedEntry(b: Builder, x: Block)
    ensures Erase(b, x).entry == b.entry
  {
  }

  lemma PartEntry(b: Builder, x: Block, to: Block)
    ensures OpenPart(b, x).entry == b.entry && ClosePart(b, to).entry == b.entry
  {
  }

  lemma GrewEntry(b: Builder, b': Builder, vs: seq<nat>)
    requires LocalsGrew(b, b', vs)
    ensures b'.entry == b.entry
  {
  }

  lemma PartFits(sg: Signature, have: set<nat>, b1: Builder, x: Block, s: Stmt, to: Block, reserved: set<Block>,
                 pending: set<Block>)
    requires AllFit(sg, have, b1) && StmtReady(OpenPart(b1, x), reserved, pending) && WellNested(s, b1.whileStack != [])
             && StmtFits(sg, have, s)
    ensures AllFit(sg, have + Members(Declared(s)), ClosePart(LowerStmt(OpenPart(b1, x), s), to))
    ensures ClosePart(LowerStmt(OpenPart(b1, x), s), to).entry == b1.entry
    decreases s, 3
  {
    hide AllFit, StmtReady, StmtDone, LowerStmt, ClosePart, WellNested, StmtFits, Sane, OpenPart, LocalsGrew, Declared,
         IsOpen;
    OpenPartKeeps(b1, x);
    PartBody(b1, x);
    var b2 := OpenPart(b1, x);
    PartEntry(b1, x, to);
    SameFits(sg, have, b1, b2);
    StmtFit(sg, have, b2, s, reserved, pending);
    LowerStmtDone(b2, s, reserved, pending);
    LocalsHoisted(b2, s, reserved, pending);
    GrewEntry(b2, LowerStmt(b2, s), Declared(s));
    PartEntry(LowerStmt(b2, s), x, to);
    DoneFacts(b2, LowerStmt(b2, s), reserved, pending);
    PartClosesFits(sg, have + Members(Declared(s)), LowerStmt(b2, s), to);
  }

  lemma CloseIfFits(sg: Signature, have: set<nat>, b5: Builder, t: Block, n: Block)
    requires AllFit(sg, have, b5) && n != b5.entry
    ensures AllFit(sg, have, CloseIf(b5, t, n))
  {
    hide AllFit, Erase;
    SameFits(sg, have, b5, OpenPart(b5, n));
    SameFits(sg, have, b5, SetInsert(OpenPart(b5, n), t));
    EraseFits(sg, have, SetInsert(OpenPart(b5, n), t), n);
  }

  lemma TestedFits(sg: Signature, have: set<nat>, b: Builder, c: Cond, t: Block, no: Block)
    requires AllFit(sg, have, b) && Placed(b) && CondFits(sg, have, c)
    ensures AllFit(sg, have, PopCur(LowerTest(StartIf(b), c, t, no)))
    ensures PopCur(LowerTest(StartIf(b), c, t, no)).entry == b.entry && b.next > b.entry
  {
    hide AllFit, LowerTest, StartIf, Placed, LocalsGrew;
    StartFits(sg, have, b);
    StartLocals(b);
    TestLocals(StartIf(b), c, t, no);
    GrewEntry(StartIf(b), LowerTest(StartIf(b), c, t, no), []);
    TestFits(sg, have, StartIf(b), c, t, no);
    SameFits(sg, have, LowerTest(StartIf(b), c, t, no), PopCur(LowerTest(StartIf(b), c, t, no)));
  }

  lemma IfFits(sg: Signature, have: set<nat>, b: Builder, c: Cond, first: Stmt, reserved: set<Block>,
               pending: set<Block>)
    requires StmtReady(b, reserved, pending) && AllFit(sg, have, b) && WellNested(If(c, first), b.whileStack != [])
             && StmtFits(sg, have, If(c, first))
    ensures AllFit(sg, have + Members(Declared(If(c, first))), LowerStmt(b, If(c, first)))
    decreases If(c, first), 0
  {
    hide AllFit, StmtReady, LowerStmt, LowerTest, StartIf, ClosePart, OpenPart, CloseIf, Erase, Placed;
    var t, f, n := b.next, b.next + 1, b.next + 2;
    ReadyPlaced(b, reserved, pending);
    TestedFits(sg, have, b, c, t, n);
    var b1 := PopCur(LowerTest(StartIf(b), c, t, n));
    var b4 := ClosePart(LowerStmt(OpenPart(b1, t), first), n);
    IfReady(b, c, first, t, f, n, b1, b4, reserved, pending);
    PartFits(sg, have, b1, t, first, n, WithThree(reserved, t, f, n) - {t}, WithThree(pending, t, f, n) - {t, n});
    var more := have + Members(Declared(first));
    EraseFits(sg, more, b4, f);
    ErasedEntry(b4, f);
    CloseIfFits(sg, more, Erase(b4, f), t, n);
    LoweredIf(b, c, first, t, f, n);
  }

  lemma IfElseFits(sg: Signature, have: set<nat>, b: Builder, c: Cond, first: Stmt, second: Stmt, reserved: set<Block>,
                   pending: set<Block>)
    requires StmtReady(b, reserved, pending) && AllFit(sg, have, b)
             && WellNested(IfElse(c, first, second), b.whileStack != [])
    requires StmtFits(sg, have, IfElse(c, first, second))
    ensures AllFit(sg, have + Members(Declared(IfElse(c, first, second))), LowerStmt(b, IfElse(c, first, second)))
    decreases IfElse(c, first, second), 0
  {
    hide AllFit, StmtReady, LowerStmt, LowerTest, StartIf, ClosePart, OpenPart, CloseIf, Placed, Sane, IsOpen, Strip,
         Midway, Grew, JumpTargets;
    var t, f, n := b.next, b.next + 1, b.next + 2;
    ReadyPlaced(b, reserved, pending);
    TestedFits(sg, have, b, c, t, f);
    var b1 := PopCur(LowerTest(StartIf(b), c, t, f));
    var b2 := ClosePart(LowerStmt(OpenPart(b1, t), first), n);
    var b3 := ClosePart(LowerStmt(OpenPart(b2, f), second), n);
    TestedIf(b, c, t, f, n, f, reserved, pending);
    IfElseParts(b, c, first, second, t, f, n, b1, b2, b3, reserved, pending);
    PartFits(sg, have, b1, t, first, n, reserved + {n} + {f}, pending + {n});
    var more := have + Members(Declared(first));
    PartFits(sg, more, b2, f, second, n, reserved + {n}, pending + {n});
    TwiceDeclared(have, Declared(first), Declared(second));
    CloseIfFits(sg, more + Members(Declared(second)), b3, t, n);
    LoweredIfElse(b, c, first, second, t, f, n);
  }

  lemma StartWhileFits(sg: Signature, have: set<nat>, b: Builder)
    requires AllFit(sg, have, b) && Placed(b)
    ensures AllFit(sg, have, StartWhile(b))
  {
    hide AllFit, StartIf, Br, Terminated, At, LocalsGrew;
    var b0 := StartIf(b).(whileStack := b.whileStack + [Targets(b.next, b.next + 2)]);
    StartFits(sg, have, b);
    StartLocals(b);
    SameFits(sg, have, StartIf(b), b0);
    JumpFits(sg, have, b0, b.next);
    StartedWhile(b);
    SameFits(sg, have, BrIfOpen(b0, b.next), StartWhile(b));
  }

  lemma WhileFits(sg: Signature, have: set<nat>, b: Builder, c: Cond, loop: Stmt, reserved: set<Block>,
                  pending: set<Block>)
    requires StmtReady(b, reserved, pending) && AllFit(sg, have, b) && WellNested(While(c, loop), b.whileStack != [])
             && StmtFits(sg, have, While(c, loop))
    ensures AllFit(sg, have + Members(Declared(While(c, loop))), LowerStmt(b, While(c, loop)))
    decreases While(c, loop), 0
  {
    hide AllFit, StmtReady, LowerStmt, LowerTest, StartWhile, ClosePart, OpenPart, AfterLoop, Placed, Sane, IsOpen,
         Strip, Grew, LocalsGrew;
    var w, t, n := b.next, b.next + 1, b.next + 2;
    var b1 := LowerTest(StartWhile(b), c, t, n);
    var b4 := ClosePart(LowerStmt(OpenPart(b1, t), loop), w);
    ReadyPlaced(b, reserved, pending);
    StartWhileFits(sg, have, b);
    StartLoopLocals(b, reserved, pending);
    TestFits(sg, have, StartWhile(b), c, t, n);
    LoopParts(b, c, loop, w, t, n, reserved, pending);
    PartFits(sg, have, b1, t, loop, w, reserved + {n}, pending);
    LoweredWhile(b, c, loop, w, t, n);
    AfterLoopIs(b4, n);
    AfterLoopEntry(b4, n);
    SameFits(sg, have + Members(Declared(loop)), b4, AfterLoop(b4, n));
  }

  lemma FirstFits(sg: Signature, have: set<nat>, body: seq<Stmt>)
    requires AllStmtsFit(sg, have, body) && body != []
    ensures StmtFits(sg, have, body[0])
    ensures Ends(body[0]) || AllStmtsFit(sg, have + Members(Declared(body[0])), body[1..])
  {
    hide StmtFits, Declared, Ends;
  }

  lemma ListFits(sg: Signature, have: set<nat>, b: Builder, body: seq<Stmt>, reserved: set<Block>, pending: set<Block>)
    requires StmtReady(b, reserved, pending) && AllFit(sg, have, b) && WellNestedAll(body, b.whileStack != [])
             && AllStmtsFit(sg, have, body)
    ensures AllFit(sg, have + Members(DeclaredIn(body)), LowerList(b, body))
    decreases body, 1
  {
    hide AllFit, StmtReady, StmtDone, LowerStmt, LowerList, WellNested, WellNestedAll, StmtFits, Terminated, At,
         Declared, DeclaredIn, Ends, LocalsGrew, IsOpen, AllStmtsFit, Sane, Members;
    SourceList(body);
    if body == [] {
      NothingLowered(b);
      NoneDeclared(have);
    } else {
      var b1 := LowerStmt(b, body[0]);
      AllNested(body, b.whileStack != []);
      FirstFits(sg, have, body);
      StmtFit(sg, have, b, body[0], reserved, pending);
      LowerStmtDone(b, body[0], reserved, pending);
      LocalsHoisted(b, body[0], reserved, pending);
      LoweredList(b, body);
      DoneFacts(b, b1, reserved, pending);
      OpenMeans(b1);
      if !Terminated(At(b1.body, b1.insert)) {
        NotEnded(b, b1, reserved, pending);
        ListFits(sg, have + Members(Declared(body[0])), b1, body[1..], reserved, pending);
        TwiceDeclared(have, Declared(body[0]), DeclaredIn(body[1..]));
      } else {
        assert Declared(body[0]) + [] == Declared(body[0]);
      }
    }
  }

  lemma StmtFit(sg: Signature, have: set<nat>, b: Builder, s: Stmt, reserved: set<Block>, pending: set<Block>)
    requires StmtReady(b, reserved, pending) && AllFit(sg, have, b) && WellNested(s, b.whileStack != [])
             && StmtFits(sg, have, s)
    ensures AllFit(sg, have + Members(Declared(s)), LowerStmt(b, s))
    decreases s, 2
  {
    hide StmtReady, AllFit, LowerTest, StartIf, StartWhile, ClosePart, OpenPart, CloseIf, Erase, LowerDecl, LowerReturn,
         LowerList, Emit, Br, PopCur, Top, Pop, HaveAfter;
    ReadyPlaced(b, reserved, pending);
    NoneDeclared(have);
    match s
    case Empty =>
    case Simple(e) => EmitFits(sg, have, b, Do(Expr(e)));
    case Decl(v, init) =>
      assert Members([v]) == {v};
      DeclFits(sg, have, b, v, init, reserved, pending);
    case Compound(body) => ListFits(sg, have, b, body, reserved, pending);
    case If(c, first) => IfFits(sg, have, b, c, first, reserved, pending);
    case IfElse(c, first, second) => IfElseFits(sg, have, b, c, first, second, reserved, pending);
    case While(c, loop) => WhileFits(sg, have, b, c, loop, reserved, pending);
    case Break => JumpFits(sg, have, b, Top(b.whileStack).no);
    case Continue => JumpFits(sg, have, b, Top(b.whileStack).yes);
    case Return(value) => ReturnFits(sg, have, b, value);
  }

  // ----- functions -----

  /** The locals there before the body: the value returned and the parameters. */
  function OwnLocals(f: FuncDef): seq<nat> {
    (if f.isVoid then [] else [0]) + ParamLocals(f.params)
  }

  predicate FunctionFits(sg: Signature, f: FuncDef) {
    sg.params == f.params && sg.isVoid == f.isVoid && AllStmtsFit(sg, Members(OwnLocals(f)), f.body)
  }

  lemma EntryLocalFits(sg: Signature, have: set<nat>, b: Builder, v: nat)
    requires AllFit(sg, have, b) && b.insert == b.entry
    ensures AllFit(sg, have + {v}, Emit(b, Local(v)))
  {
    hide ItemsFit, HaveAfter, LocalsOf;
    FitEmit(sg, {}, b.body[b.entry], Local(v));
    LocalsConcat(b.body[b.entry], [Local(v)]);
    LocalsOfOne(Local(v));
    forall x | x in b.body && x != b.entry
      ensures ItemsFit(sg, have + {v}, b.body[x])
    {
      OuterGrows(sg, have, have + {v}, b.body[x]);
    }
  }

  lemma {:induction false} ParamsFit(sg: Signature, have: set<nat>, b: Builder, n: nat)
    requires AllFit(sg, have, b) && b.insert == b.entry && n <= sg.params
    ensures AllFit(sg, have + Members(ParamLocals(n)), LowerParams(b, n))
    ensures LowerParams(b, n).insert == b.insert && LowerParams(b, n).entry == b.entry
  {
    hide AllFit, HaveAfter, LocalsOf;
    NoneDeclared(have);
    if n > 0 {
      var b1 := LowerParams(b, n - 1);
      var have1 := have + Members(ParamLocals(n - 1));
      ParamsFit(sg, have, b, n - 1);
      EntryLocalFits(sg, have1, b1, n);
      TwiceDeclared(have, ParamLocals(n - 1), [n]);
      assert Members([n]) == {n};
      InsertHere(sg, have1 + {n}, Emit(b1, Local(n)));
      EmitFits(sg, have1 + {n}, Emit(b1, Local(n)), Do(StoreArg(n - 1)));
    }
  }

  lemma InsertHere(sg: Signature, have: set<nat>, b: Builder)
    requires AllFit(sg, have, b) && b.insert == b.entry
    ensures b.insert in b.body
  {
  }

  lemma TwoBlocksFit(sg: Signature)
    ensures AllFit(sg, if sg.isVoid then {} else {0}, TwoBlocks(sg.isVoid))
    ensures TwoBlocks(sg.isVoid).insert == TwoBlocks(sg.isVoid).entry
  {
    TwoBlocksIs(sg.isVoid);
    LocalsOfOne(Local(0));
    hide TwoBlocks, HaveAfter;
  }

  lemma EndFits(sg: Signature, have: set<nat>, b: Builder)
    requires AllFit(sg, have, b) && b.insert in b.body && b.ret in b.body && (!sg.isVoid ==> 0 in have)
    ensures AllFit(sg, have, EndFunction(b, sg.isVoid))
  {
    hide AllFit, HaveAfter, Br;
    var b0 := Emit(b, Do(StoreZero));
    JumpFits(sg, have, b, b.ret);
    if !sg.isVoid {
      EmitFits(sg, have, b, Do(StoreZero));
      JumpFits(sg, have, b0, b.ret);
    }
    BrHas(b, b.ret);
    BrHas(b0, b.ret);
    BrFixed(b, b.ret);
    BrFixed(b0, b.ret);
    var b1 := FallOff(b, sg.isVoid);
    var b2 := SetInsert(PopCur(b1), b1.ret);
    SameFits(sg, have, b1, b2);
    if !sg.isVoid {
      EmitFits(sg, have, b2, Do(LoadRet));
    }
    var b3 := if sg.isVoid then b2 else Emit(b2, Do(LoadRet));
    EmitFits(sg, have, b3, Leave);
  }

  /** In the blocks of a function each branch, store of the value returned and return
      finds a result in its own block; only parameters there are get stored; the value
      returned is only touched where there is one; and what an atom names is declared
      in the entry, there before the atom. */
  lemma LoweredFits(sg: Signature, f: FuncDef)
    requires WellNestedAll(f.body, false) && FunctionFits(sg, f)
    ensures AllFit(sg, Members(FunctionLocals(f)), LowerFunction(f))
  {
    hide AllFit, StmtReady, StmtDone, LowerList, LowerParams, TwoBlocks, EndFunction, WellNestedAll, AllStmtsFit, Sane,
         Strip;
    var b0 := StartFunction(f);
    TwoBlocksFit(sg);
    ParamsFit(sg, if sg.isVoid then {} else {0}, TwoBlocks(f.isVoid), f.params);
    assert Members([0]) == {0} && Members([]) == {};
    MembersConcat(if f.isVoid then [] else [0], ParamLocals(f.params));
    assert (if sg.isVoid then {} else {0}) + Members(ParamLocals(f.params)) == Members(OwnLocals(f));
    StartReady(f);
    ListFits(sg, Members(OwnLocals(f)), b0, f.body, {1}, {1});
    MembersConcat(OwnLocals(f), DeclaredIn(f.body));
    BodyDone(f);
    SaneParts(LowerList(b0, f.body), {1}, {1});
    assert FunctionLocals(f) == OwnLocals(f) + DeclaredIn(f.body);
    if !f.isVoid {
      assert FunctionLocals(f)[0] == 0;
    }
    EndFits(sg, Members(FunctionLocals(f)), LowerList(b0, f.body));
  }
}
