/** The lowered blocks with instructions for their atoms, as the optimizer gets them. */
module LoweredCode {
  import opened FlowGraphs
  import opened Statements
  import opened BlockBuilder
  import opened BuilderInvariants
  import opened LoweredFunction
  import opened LocalsInEntry
  import opened DefiniteAssignment
  import opened BlocksFit
  import opened Ir
  import opened Semantics
  import opened ForwardingResult
  import opened Lists

  // ----- instructions of an atom -----

  /** `Reg(j)` is the result of the `j`-th instruction of the same atom, `Previous` the
      last result before it. */
  datatype Operand = Imm(c: int) | Param(k: nat) | Glob(n: nat) | Reg(j: nat) | Previous

  /** Accesses to locals; the address of an element of an array; accesses to globals and
      to elements; and `Effect`, which stands for arithmetic and calls. */
  datatype Micro =
    | ReadLocal(v: nat)
    | WriteLocal(v: nat, x: Operand)
    | Element(xs: seq<Operand>)
    | LoadFrom(address: Operand)
    | StoreTo(x: Operand, address: Operand)
    | Effect(code: int, xs: seq<Operand>)

  predicate NamesLocal(m: Micro) {
    m.ReadLocal? || m.WriteLocal?
  }

  /** What the builder makes of an expression. */
  type Gen = nat -> seq<Micro>

  function Micros(gen: Gen, a: Atom): seq<Micro> {
    match a
    case Expr(e) => gen(e)
    case StoreArg(i) => [WriteLocal(i + 1, Param(i))]
    case StoreRet => [WriteLocal(0, Previous)]
    case StoreZero => [WriteLocal(0, Imm(0))]
    case LoadRet => [ReadLocal(0)]
  }

  predicate HasValue(m: Micro) {
    !m.WriteLocal? && !m.StoreTo?
  }

  predicate OperandOk(ms: seq<Micro>, j: nat, x: Operand) {
    x.Reg? ==> x.j < j && x.j < |ms| && HasValue(ms[x.j])
  }

  function MicroOperands(m: Micro): seq<Operand> {
    match m
    case ReadLocal(_) => []
    case WriteLocal(_, x) => [x]
    case Element(xs) => xs
    case LoadFrom(a) => [a]
    case StoreTo(x, a) => [x, a]
    case Effect(_, xs) => xs
  }

  /** What is loaded from or stored to is a global or an element. */
  predicate AddressOk(ms: seq<Micro>, m: Micro) {
    m.LoadFrom? || m.StoreTo? ==> m.address.Glob? || (m.address.Reg? && m.address.j < |ms| && ms[m.address.j].Element?)
  }

  /** Results are used after they are there; expressions use their own only. */
  ghost predicate GenOk(gen: Gen) {
    && (forall e, j, x :: 0 <= j < |gen(e)| && x in MicroOperands(gen(e)[j]) ==>
          OperandOk(gen(e), j, x) && x != Previous)
    && (forall e, j :: 0 <= j < |gen(e)| ==> AddressOk(gen(e), gen(e)[j]))
  }

  lemma MicrosOk(gen: Gen, a: Atom, j: nat, x: Operand)
    requires GenOk(gen) && j < |Micros(gen, a)| && x in MicroOperands(Micros(gen, a)[j])
    ensures OperandOk(Micros(gen, a), j, x) && (x == Previous ==> a == StoreRet)
  {
  }

  // ----- what an atom loads and stores -----

  predicate WritesBefore(ms: seq<Micro>, j: nat, v: nat) {
    exists i :: 0 <= i < j && i < |ms| && ms[i].WriteLocal? && ms[i].v == v
  }

  function LocalsRead(ms: seq<Micro>): set<nat> {
    set j | 0 <= j < |ms| && ms[j].ReadLocal? && !WritesBefore(ms, j, ms[j].v) :: ms[j].v
  }

  function LocalsWritten(ms: seq<Micro>): set<nat> {
    set j | 0 <= j < |ms| && ms[j].WriteLocal? :: ms[j].v
  }

  function AccessesOf(gen: Gen): Accesses {
    Accesses(a => LocalsRead(Micros(gen, a)), a => LocalsWritten(Micros(gen, a)))
  }

  // ----- instructions of a block -----

  datatype Slot = AllocaSlot(v: nat) | InstrSlot(x: Block, k: nat, j: nat)

  /** Different places get different instructions. */
  type Numbering = Slot -> Inst

  ghost predicate Distinct(number: Numbering) {
    forall s, t :: number(s) == number(t) ==> s == t
  }

  function ItemSlots(gen: Gen, x: Block, k: nat, i: Item): seq<Slot> {
    match i
    case Local(v) => [AllocaSlot(v)]
    case Do(a) => seq(|Micros(gen, a)|, j requires 0 <= j => InstrSlot(x, k, j))
    case _ => [InstrSlot(x, k, 0)]
  }

  function Slots(gen: Gen, x: Block, items: seq<Item>, k: nat): seq<Slot>
    requires k <= |items|
  {
    if k == 0 then [] else Slots(gen, x, items, k - 1) + ItemSlots(gen, x, k - 1, items[k - 1])
  }

  function AllSlotsOf(gen: Gen, x: Block, items: seq<Item>): seq<Slot> {
    Slots(gen, x, items, |items|)
  }

  function Numbers(number: Numbering, slots: seq<Slot>): seq<Inst> {
    seq(|slots|, p requires 0 <= p < |slots| => number(slots[p]))
  }

  /** The last result of an atom. */
  function LastResult(ms: seq<Micro>, j: nat): Option<nat>
    requires j <= |ms|
  {
    if j == 0 then None else if HasValue(ms[j - 1]) then Some(j - 1) else LastResult(ms, j - 1)
  }

  /** The last result before item `k`; a block without one takes a constant. */
  function Prev(gen: Gen, number: Numbering, x: Block, items: seq<Item>, k: nat): Value
    requires k <= |items|
  {
    if k == 0 then Const(0)
    else if items[k - 1].Do? && LastResult(Micros(gen, items[k - 1].a), |Micros(gen, items[k - 1].a)|).Some? then
      Res(number(InstrSlot(x, k - 1, LastResult(Micros(gen, items[k - 1].a), |Micros(gen, items[k - 1].a)|).value)))
    else Prev(gen, number, x, items, k - 1)
  }

  function ValueFor(number: Numbering, x: Block, k: nat, prev: Value, o: Operand): Value {
    match o
    case Imm(c) => Const(c)
    case Param(n) => Arg(n)
    case Glob(n) => Global(n)
    case Reg(j) => Res(number(InstrSlot(x, k, j)))
    case Previous => prev
  }

  function KindFor(gen: Gen, i: Item, j: nat): Kind {
    match i
    case Local(_) => Alloca(true)
    case Do(a) =>
      if j >= |Micros(gen, a)| then Other(0)
      else (match Micros(gen, a)[j]
            case ReadLocal(_) => Load
            case WriteLocal(_, _) => Store
            case Element(_) => Gep
            case LoadFrom(_) => Load
            case StoreTo(_, _) => Store
            case Effect(c, _) => Other(c))
    case Leave => Ret
    case _ => Kind.Br
  }

  function ValuesFor(number: Numbering, x: Block, k: nat, prev: Value, os: seq<Operand>): seq<Value> {
    seq(|os|, n requires 0 <= n < |os| => ValueFor(number, x, k, prev, os[n]))
  }

  function MicroValues(number: Numbering, x: Block, k: nat, prev: Value, m: Micro): seq<Value> {
    match m
    case ReadLocal(v) => [Res(number(AllocaSlot(v)))]
    case WriteLocal(v, o) => [ValueFor(number, x, k, prev, o), Res(number(AllocaSlot(v)))]
    case Element(os) => ValuesFor(number, x, k, prev, os)
    case LoadFrom(a) => [ValueFor(number, x, k, prev, a)]
    case StoreTo(o, a) => [ValueFor(number, x, k, prev, o), ValueFor(number, x, k, prev, a)]
    case Effect(_, os) => ValuesFor(number, x, k, prev, os)
  }

  function ItemValues(gen: Gen, number: Numbering, isVoid: bool, x: Block, items: seq<Item>, k: nat, j: nat): seq<Value>
    requires k < |items|
  {
    var prev := Prev(gen, number, x, items, k);
    match items[k]
    case Local(_) => []
    case Do(a) => if j >= |Micros(gen, a)| then [] else MicroValues(number, x, k, prev, Micros(gen, a)[j])
    case Jump(t) => [Label(t)]
    case Branch(t, f) => [prev, Label(t), Label(f)]
    case Leave => if isVoid then [] else [prev]
  }

  // ----- the function -----

  ghost function SlotSet(gen: Gen, b: Builder): set<Slot> {
    set x, s | x in b.body && s in AllSlotsOf(gen, x, b.body[x]) :: s
  }

  function KindOfSlot(gen: Gen, b: Builder, s: Slot): Kind {
    if s.AllocaSlot? then Alloca(true)
    else if s.x in b.body && s.k < |b.body[s.x]| then KindFor(gen, b.body[s.x][s.k], s.j)
    else Other(0)
  }

  function ValuesOfSlot(gen: Gen, number: Numbering, isVoid: bool, b: Builder, s: Slot): seq<Value> {
    if s.InstrSlot? && s.x in b.body
      && s.k < |b.body[s.x]| then ItemValues(gen, number, isVoid, s.x, b.body[s.x], s.k, s.j) else []
  }

  ghost function ToCode(gen: Gen, number: Numbering, isVoid: bool, b: Builder): Code
    requires Distinct(number)
  {
    Code(GraphOf(b),
         map x | x in b.body :: Numbers(number, AllSlotsOf(gen, x, b.body[x])),
         map s | s in SlotSet(gen, b) :: number(s) := KindOfSlot(gen, b, s),
         map s | s in SlotSet(gen, b) :: number(s) := ValuesOfSlot(gen, number, isVoid, b, s))
  }

  // ----- places of slots -----

  lemma {:induction false} SlotPlace(gen: Gen, x: Block, items: seq<Item>, k: nat, p: nat) returns (k': nat, j: nat)
    requires k <= |items| && p < |Slots(gen, x, items, k)|
    ensures k' < k && j < |ItemSlots(gen, x, k', items[k'])| && p == |Slots(gen, x, items, k')| + j
    ensures Slots(gen, x, items, k)[p] == ItemSlots(gen, x, k', items[k'])[j]
    decreases k
  {
    hide ItemSlots;
    var before := |Slots(gen, x, items, k - 1)|;
    if p < before {
      k', j := SlotPlace(gen, x, items, k - 1, p);
    } else {
      k', j := k - 1, p - before;
    }
  }

  lemma {:induction false} SlotAt(gen: Gen, x: Block, items: seq<Item>, k: nat, k': nat, j: nat)
    requires k' < k <= |items| && j < |ItemSlots(gen, x, k', items[k'])|
    ensures |Slots(gen, x, items, k')| + j < |Slots(gen, x, items, k)|
    ensures Slots(gen, x, items, k)[|Slots(gen, x, items, k')| + j] == ItemSlots(gen, x, k', items[k'])[j]
    ensures |Slots(gen, x, items, k')| + |ItemSlots(gen, x, k', items[k'])| <= |Slots(gen, x, items, k)|
    decreases k
  {
    hide ItemSlots;
    if k' < k - 1 {
      SlotAt(gen, x, items, k - 1, k', j);
    }
  }

  function SlotFor(x: Block, k: nat, i: Item, j: nat): Slot {
    if i.Local? then AllocaSlot(i.v) else InstrSlot(x, k, j)
  }

  lemma ItemSlotIs(gen: Gen, x: Block, k: nat, i: Item, j: nat)
    requires j < |ItemSlots(gen, x, k, i)|
    ensures ItemSlots(gen, x, k, i)[j] == SlotFor(x, k, i, j)
    ensures i.Do? ==> j < |Micros(gen, i.a)|
    ensures !i.Do? ==> j == 0
  {
  }

  // ----- functions that can be compiled -----

  /** The locals an expression loads or stores. */
  function LocalsNamed(ms: seq<Micro>): set<nat> {
    set j | 0 <= j < |ms| && NamesLocal(ms[j]) :: ms[j].v
  }

  function SignatureOf(gen: Gen, f: FuncDef): Signature {
    Signature(f.params, f.isVoid, (e: nat) => LastResult(gen(e), |gen(e)|).Some?, (e: nat) => LocalsNamed(gen(e)))
  }

  /** What the syntax checker and the language promise: `break` and `continue` inside
      loops, conditions and returned expressions with a value, each local declared once
      and before it is named, and assigned before it is loaded. */
  ghost predicate Compilable(gen: Gen, f: FuncDef) {
    && WellNestedAll(f.body, false) && GenOk(gen) && FunctionFits(SignatureOf(gen, f), f)
    && FunctionAssigned(AccessesOf(gen), f) && NoDuplicates(FunctionLocals(f))
  }

  /** Results are there when they are used, and locals declared when they are named. */
  ghost predicate Fitting(gen: Gen, f: FuncDef, items: seq<Item>) {
    ItemsFit(SignatureOf(gen, f), Members(FunctionLocals(f)), items)
  }

  ghost predicate FittingBlocks(gen: Gen, f: FuncDef, b: Builder) {
    AllFit(SignatureOf(gen, f), Members(FunctionLocals(f)), b)
  }

  /** The facts about the blocks that the instructions rely on. */
  ghost predicate BlocksReady(gen: Gen, number: Numbering, f: FuncDef, b: Builder) {
    && GenOk(gen) && Distinct(number) && Complete(b) && FittingBlocks(gen, f, b) && CfgReady(GraphOf(b))
    && (forall x :: x in b.body ==> LocalsOf(b.body[x]) == if x == b.entry then FunctionLocals(f) else [])
    && NoDuplicates(FunctionLocals(f))
  }

  lemma LoweredBlocksReady(gen: Gen, number: Numbering, f: FuncDef)
    requires Compilable(gen, f) && Distinct(number)
    ensures BlocksReady(gen, number, f, LowerFunction(f))
  {
    hide GenOk, Distinct, Complete, AllFit, CfgReady, LocalsOf, FunctionLocals, WellNestedAll, FunctionFits,
         FunctionAssigned, LowerFunction;
    LoweredIsComplete(f);
    LoweredIsReady(f);
    LocalsAreInEntry(f);
    LoweredFits(SignatureOf(gen, f), f);
  }

  /** A block declares a local at most once. */
  lemma LocalUnique(items: seq<Item>, k: nat, k': nat)
    requires NoDuplicates(LocalsOf(items)) && k < |items| && k' < |items| && items[k].Local? && items[k'] == items[k]
    ensures k == k'
  {
    if k < k' {
      LocalTwice(items, k, k');
    } else if k' < k {
      LocalTwice(items, k', k);
    }
  }

  lemma LocalTwice(items: seq<Item>, k: nat, k': nat)
    requires k < k' < |items| && items[k].Local? && items[k'] == items[k]
    ensures !NoDuplicates(LocalsOf(items))
  {
    var a, m, c := items[..k], items[k + 1..k'], items[k' + 1..];
    var i := items[k];
    assert items == a + ([i] + (m + ([i] + c)));
    LocalsConcat(a, [i] + (m + ([i] + c)));
    LocalsConcat([i], m + ([i] + c));
    LocalsConcat(m, [i] + c);
    LocalsConcat([i], c);
    LocalsOfOne(i);
    var all := LocalsOf(items);
    assert all == LocalsOf(a) + ([i.v] + (LocalsOf(m) + ([i.v] + LocalsOf(c))));
    assert all[|LocalsOf(a)|] == i.v && all[|LocalsOf(a)| + 1 + |LocalsOf(m)|] == i.v;
  }

  lemma {:induction false} LocalItem(items: seq<Item>, v: nat) returns (k: nat)
    requires v in LocalsOf(items)
    ensures k < |items| && items[k] == Local(v)
  {
    if items[0] == Local(v) {
      k := 0;
    } else {
      k := LocalItem(items[1..], v);
      k := k + 1;
    }
  }

  lemma ItemIsListed(items: seq<Item>, k: nat)
    requires k < |items| && items[k].Local?
    ensures items[k].v in LocalsOf(items)
  {
    assert items == items[..k] + ([items[k]] + items[k + 1..]);
    LocalsConcat(items[..k], [items[k]] + items[k + 1..]);
    LocalsConcat([items[k]], items[k + 1..]);
    LocalsOfOne(items[k]);
  }

  /** Every declared local has its `alloca`. */
  lemma DeclaredIsSlot(gen: Gen, number: Numbering, f: FuncDef, b: Builder, v: nat)
    requires BlocksReady(gen, number, f, b) && v in FunctionLocals(f) && b.entry in b.body
    ensures AllocaSlot(v) in SlotSet(gen, b)
  {
    hide GenOk, Distinct, Complete, FittingBlocks, CfgReady, LocalsOf, FunctionLocals, Slots;
    var items := b.body[b.entry];
    var k := LocalItem(items, v);
    SlotAt(gen, b.entry, items, |items|, k, 0);
    SlotKnown(gen, b, b.entry, |Slots(gen, b.entry, items, k)|);
  }

  // ----- the instruction at a place -----

  lemma SlotData(gen: Gen, number: Numbering, isVoid: bool, b: Builder, s: Slot)
    requires Distinct(number) && s in SlotSet(gen, b)
    ensures var code := ToCode(gen, number, isVoid, b);
            number(s) in code.kind && code.kind[number(s)] == KindOfSlot(gen, b, s)
            && number(s) in code.operands && code.operands[number(s)] == ValuesOfSlot(gen, number, isVoid, b, s)
  {
    hide KindOfSlot, ValuesOfSlot, SlotSet, AllSlotsOf;
  }

  lemma SlotKnown(gen: Gen, b: Builder, x: Block, p: nat)
    requires x in b.body && p < |AllSlotsOf(gen, x, b.body[x])|
    ensures AllSlotsOf(gen, x, b.body[x])[p] in SlotSet(gen, b)
  {
    hide AllSlotsOf;
    var s := AllSlotsOf(gen, x, b.body[x])[p];
    assert s in AllSlotsOf(gen, x, b.body[x]);
    assert s in SlotSet(gen, b);
  }

  /** Instruction `i` is the `j`-th of item `k` of block `x`. */
  ghost predicate IsInstr(gen: Gen, number: Numbering, isVoid: bool, b: Builder, x: Block, p: nat, i: Inst, k: nat,
                          j: nat)
    requires Distinct(number)
  {
    var code := ToCode(gen, number, isVoid, b);
    && x in b.body && k < |b.body[x]| && j < |ItemSlots(gen, x, k, b.body[x][k])|
    && p == |Slots(gen, x, b.body[x], k)| + j
    && i == number(ItemSlots(gen, x, k, b.body[x][k])[j])
    && i in code.kind && code.kind[i] == KindFor(gen, b.body[x][k], j)
    && i in code.operands && code.operands[i] == ItemValues(gen, number, isVoid, x, b.body[x], k, j)
  }

  lemma InstrData(gen: Gen, number: Numbering, isVoid: bool, b: Builder, x: Block, k: nat, j: nat)
    requires Distinct(number) && x in b.body && k < |b.body[x]| && j < |ItemSlots(gen, x, k, b.body[x][k])|
    ensures var p := |Slots(gen, x, b.body[x], k)| + j; var i := number(ItemSlots(gen, x, k, b.body[x][k])[j]);
            IsInstr(gen, number, isVoid, b, x, p, i, k, j) && IsAt(ToCode(gen, number, isVoid, b), x, p, i)
  {
    hide Slots, ItemSlots, SlotSet, ItemValues, KindFor, Distinct;
    var items := b.body[x];
    SlotAt(gen, x, items, |items|, k, j);
    var p := |Slots(gen, x, items, k)| + j;
    var s := ItemSlots(gen, x, k, items[k])[j];
    SlotKnown(gen, b, x, p);
    SlotData(gen, number, isVoid, b, s);
    ItemSlotIs(gen, x, k, items[k], j);
    LocalHasNone(gen, number, isVoid, x, items, k, j);
    CodeList(gen, number, isVoid, b, x, p);
  }

  lemma LocalHasNone(gen: Gen, number: Numbering, isVoid: bool, x: Block, items: seq<Item>, k: nat, j: nat)
    requires k < |items|
    ensures items[k].Local? ==>
              ItemValues(gen, number, isVoid, x, items, k, j) == [] && KindFor(gen, items[k], j) == Alloca(true)
  {
    hide Prev;
  }

  lemma CodeList(gen: Gen, number: Numbering, isVoid: bool, b: Builder, x: Block, p: nat)
    requires Distinct(number) && x in b.body && p < |AllSlotsOf(gen, x, b.body[x])|
    ensures var code := ToCode(gen, number, isVoid, b);
            x in code.instrs && |code.instrs[x]| == |AllSlotsOf(gen, x, b.body[x])|
            && code.instrs[x][p] == number(AllSlotsOf(gen, x, b.body[x])[p])
  {
    hide AllSlotsOf, SlotSet, KindOfSlot, ValuesOfSlot;
  }

  lemma InstrAt(gen: Gen, number: Numbering, isVoid: bool, b: Builder, x: Block, p: int, i: Inst)
    returns (k: nat, j: nat)
    requires Distinct(number) && IsAt(ToCode(gen, number, isVoid, b), x, p, i)
    ensures 0 <= p && IsInstr(gen, number, isVoid, b, x, p, i, k, j)
  {
    hide Slots, ItemSlots, SlotSet, IsInstr, Distinct, KindOfSlot, ValuesOfSlot;
    CodeBlock(gen, number, isVoid, b, x);
    CodeList(gen, number, isVoid, b, x, p);
    var items := b.body[x];
    k, j := SlotPlace(gen, x, items, |items|, p);
    InstrData(gen, number, isVoid, b, x, k, j);
  }

  lemma CodeBlock(gen: Gen, number: Numbering, isVoid: bool, b: Builder, x: Block)
    requires Distinct(number)
    ensures var code := ToCode(gen, number, isVoid, b);
            (x in code.instrs <==> x in b.body) && (x in b.body ==> |code.instrs[x]| == |AllSlotsOf(gen, x, b.body[x])|)
            && code.cfg == GraphOf(b) && code.instrs.Keys == b.body.Keys
  {
    hide AllSlotsOf, SlotSet, KindOfSlot, ValuesOfSlot;
  }

  // ----- no instruction stands twice -----

  lemma SlotOf(gen: Gen, number: Numbering, isVoid: bool, b: Builder, x: Block, p: nat, i: Inst, k: nat, j: nat)
    requires Distinct(number) && IsInstr(gen, number, isVoid, b, x, p, i, k, j)
    ensures i == number(SlotFor(x, k, b.body[x][k], j)) && (b.body[x][k].Local? ==> j == 0)
    ensures p == |Slots(gen, x, b.body[x], k)| + j
  {
    hide SlotFor, ToCode, Slots, ItemSlots, Distinct;
    ItemSlotIs(gen, x, k, b.body[x][k], j);
  }

  lemma Injective(number: Numbering, x: Block, k: nat, i: Item, j: nat, y: Block, k': nat, i': Item, j': nat)
    requires Distinct(number) && number(SlotFor(x, k, i, j)) == number(SlotFor(y, k', i', j'))
    ensures if i.Local? then i' == i else x == y && k == k' && j == j'
  {
    assert SlotFor(x, k, i, j) == SlotFor(y, k', i', j');
  }

  lemma BlockLocals(gen: Gen, number: Numbering, f: FuncDef, b: Builder, x: Block)
    requires BlocksReady(gen, number, f, b) && x in b.body
    ensures LocalsOf(b.body[x]) == (if x == b.entry then FunctionLocals(f) else []) && NoDuplicates(LocalsOf(b.body[x]))
  {
    hide GenOk, Distinct, Complete, FittingBlocks, CfgReady, LocalsOf, FunctionLocals;
  }

  /** Only the entry declares locals, each of them once. */
  lemma SameLocal(gen: Gen, number: Numbering, f: FuncDef, b: Builder, x: Block, k: nat, y: Block, k': nat)
    requires BlocksReady(gen, number, f, b) && x in b.body && y in b.body && k < |b.body[x]| && k' < |b.body[y]|
    requires b.body[x][k].Local? && b.body[y][k'] == b.body[x][k]
    ensures x == y && k == k'
  {
    hide BlocksReady, LocalsOf, FunctionLocals, NoDuplicates;
    ItemIsListed(b.body[x], k);
    ItemIsListed(b.body[y], k');
    BlockLocals(gen, number, f, b, x);
    BlockLocals(gen, number, f, b, y);
    LocalUnique(b.body[x], k, k');
  }

  lemma SamePlace(gen: Gen, number: Numbering, f: FuncDef, b: Builder, x: Block, p: nat, y: Block, q: nat, i: Inst,
                  k: nat, j: nat, k': nat, j': nat)
    requires BlocksReady(gen, number, f, b)
    requires IsInstr(gen, number, f.isVoid, b, x, p, i, k, j) && IsInstr(gen, number, f.isVoid, b, y, q, i, k', j')
    ensures x == y && p == q
  {
    hide *;
    ReadyNumbers(gen, number, f, b);
    PlaceOf(gen, number, f.isVoid, b, x, p, i, k, j);
    PlaceOf(gen, number, f.isVoid, b, y, q, i, k', j');
    SlotOf(gen, number, f.isVoid, b, x, p, i, k, j);
    SlotOf(gen, number, f.isVoid, b, y, q, i, k', j');
    Injective(number, x, k, b.body[x][k], j, y, k', b.body[y][k'], j');
    if b.body[x][k].Local? {
      SameLocal(gen, number, f, b, x, k, y, k');
    }
  }

  lemma CodePlacedOnce(gen: Gen, number: Numbering, f: FuncDef, b: Builder)
    requires BlocksReady(gen, number, f, b)
    ensures PlacedOnce(ToCode(gen, number, f.isVoid, b).instrs)
  {
    hide BlocksReady, IsInstr, SlotSet, AllSlotsOf, KindOfSlot, ValuesOfSlot, ToCode, Complete, FittingBlocks, CfgReady,
         GenOk;
    ReadyNumbers(gen, number, f, b);
    var code := ToCode(gen, number, f.isVoid, b);
    forall x, y, p, q | x in code.instrs && y in code.instrs && 0 <= p < |code.instrs[x]| && 0 <= q < |code.instrs[y]|
                        && code.instrs[x][p] == code.instrs[y][q]
      ensures x == y && p == q
    {
      var i := code.instrs[x][p];
      assert IsAt(code, x, p, i) && IsAt(code, y, q, i);
      var k, j := InstrAt(gen, number, f.isVoid, b, x, p, i);
      var k', j' := InstrAt(gen, number, f.isVoid, b, y, q, i);
      SamePlace(gen, number, f, b, x, p, y, q, i, k, j, k', j');
    }
  }

  lemma ReadyNumbers(gen: Gen, number: Numbering, f: FuncDef, b: Builder)
    requires BlocksReady(gen, number, f, b)
    ensures Distinct(number) && GenOk(gen) && Complete(b) && FittingBlocks(gen, f, b) && CfgReady(GraphOf(b))
            && b.entry in b.body
  {
    hide GenOk, Distinct, FittingBlocks, CfgReady, LocalsOf, FunctionLocals, ListOk, GraphOk, BodiesOk;
  }

  // ----- locals -----

  lemma NamedLocals(gen: Gen, f: FuncDef, a: Atom, j: nat)
    requires j < |Micros(gen, a)| && NamesLocal(Micros(gen, a)[j])
    ensures Micros(gen, a)[j].v in AtomNames(SignatureOf(gen, f), a)
  {
  }

  /** The locals an instruction names are declared, in the entry before it. */
  lemma NamedAreDeclared(gen: Gen, number: Numbering, f: FuncDef, b: Builder, x: Block, k: nat, j: nat)
    requires BlocksReady(gen, number, f, b) && x in b.body && k < |b.body[x]| && b.body[x][k].Do?
    requires j < |Micros(gen, b.body[x][k].a)| && NamesLocal(Micros(gen, b.body[x][k].a)[j])
    ensures var v := Micros(gen, b.body[x][k].a)[j].v;
            v in FunctionLocals(f) && (x == b.entry ==> v in LocalsOf(b.body[x][..k]))
  {
    hide GenOk, Distinct, Complete, CfgReady, LocalsOf, FunctionLocals, HaveAfter, AtomNames, Micros;
    var items := b.body[x];
    var outer: set<nat> := if x == b.entry then {} else Members(FunctionLocals(f));
    NamedLocals(gen, f, items[k].a, j);
    assert ItemsFit(SignatureOf(gen, f), outer, items);
    assert ItemFits(SignatureOf(gen, f), items[k], HaveAfter(SignatureOf(gen, f), items[..k]),
                    outer + Members(LocalsOf(items[..k])));
    LocalsOfFront(items, k);
  }

  lemma LocalsOfFront(items: seq<Item>, k: nat)
    requires k <= |items|
    ensures forall v :: v in LocalsOf(items[..k]) ==> v in LocalsOf(items)
  {
    assert items == items[..k] + items[k..];
    LocalsConcat(items[..k], items[k..]);
  }

  /** The address of a declared local is its `alloca`. */
  lemma AddressIsAlloca(gen: Gen, number: Numbering, f: FuncDef, b: Builder, v: nat)
    requires BlocksReady(gen, number, f, b) && v in FunctionLocals(f)
    ensures var code := ToCode(gen, number, f.isVoid, b); var i := number(AllocaSlot(v));
            i in code.kind && code.kind[i] == Alloca(true)
  {
    hide BlocksReady, Distinct, ToCode, SlotSet, FunctionLocals, Complete, FittingBlocks, CfgReady, GenOk;
    ReadyNumbers(gen, number, f, b);
    DeclaredIsSlot(gen, number, f, b, v);
    SlotData(gen, number, f.isVoid, b, AllocaSlot(v));
  }

  lemma MicroAddressOk(gen: Gen, a: Atom, j: nat)
    requires GenOk(gen) && j < |Micros(gen, a)|
    ensures AddressOk(Micros(gen, a), Micros(gen, a)[j])
  {
  }

  lemma ElementKind(gen: Gen, number: Numbering, isVoid: bool, b: Builder, x: Block, k: nat, j: nat)
    requires Distinct(number) && x in b.body && k < |b.body[x]| && b.body[x][k].Do? && j < |Micros(gen, b.body[x][k].a)|
    requires Micros(gen, b.body[x][k].a)[j].Element?
    ensures var code := ToCode(gen, number, isVoid, b); var i := number(InstrSlot(x, k, j));
            i in code.kind && code.kind[i] == Gep
  {
    hide ToCode, Slots, ItemValues, Distinct, Micros;
    var p, i := AtomInstr(gen, number, isVoid, b, x, k, j);
  }

  /** What is loaded from or stored to otherwise is a global or an element. */
  lemma AddressIsOther(gen: Gen, number: Numbering, f: FuncDef, b: Builder, x: Block, k: nat, j: nat)
    requires BlocksReady(gen, number, f, b) && x in b.body && k < |b.body[x]| && b.body[x][k].Do?
    requires j < |Micros(gen, b.body[x][k].a)|
    requires Micros(gen, b.body[x][k].a)[j].LoadFrom? || Micros(gen, b.body[x][k].a)[j].StoreTo?
    ensures var code := ToCode(gen, number, f.isVoid, b);
            var v := ValueFor(number, x, k, Prev(gen, number, x, b.body[x], k), Micros(gen, b.body[x][k].a)[j].address);
            v.Global? || (v.Res? && v.i in code.kind && code.kind[v.i] == Gep)
  {
    hide BlocksReady, ToCode, Prev, Micros, Distinct, GenOk, Complete, FittingBlocks, CfgReady;
    ReadyNumbers(gen, number, f, b);
    var ms := Micros(gen, b.body[x][k].a);
    MicroAddressOk(gen, b.body[x][k].a, j);
    if ms[j].address.Reg? {
      ElementKind(gen, number, f.isVoid, b, x, k, ms[j].address.j);
    }
  }

  // ----- operations -----

  /** What the `j`-th instruction of item `k` does. */
  function OpFor(gen: Gen, number: Numbering, isVoid: bool, x: Block, items: seq<Item>, k: nat, j: nat): Op
    requires k < |items|
  {
    var vs := ItemValues(gen, number, isVoid, x, items, k, j);
    match items[k]
    case Local(_) => Silent
    case Do(a) =>
      if j >= |Micros(gen, a)| then Silent
      else (match Micros(gen, a)[j]
            case ReadLocal(v) => ReadVar(number(AllocaSlot(v)))
            case WriteLocal(v, o) =>
              WriteVar(number(AllocaSlot(v)), ValueFor(number, x, k, Prev(gen, number, x, items, k), o))
            case Element(_) => Act(Gep, vs)
            case LoadFrom(_) => Act(Load, vs)
            case StoreTo(_, _) => Act(Store, vs)
            case Effect(c, _) => Act(Other(c), vs))
    case Leave => Term(Ret, vs)
    case _ => Term(Kind.Br, vs)
  }

  lemma OpIs(gen: Gen, number: Numbering, f: FuncDef, b: Builder, x: Block, p: nat, i: Inst, k: nat, j: nat)
    requires BlocksReady(gen, number, f, b) && IsInstr(gen, number, f.isVoid, b, x, p, i, k, j)
    ensures OpOf(ToCode(gen, number, f.isVoid, b), i) == OpFor(gen, number, f.isVoid, x, b.body[x], k, j)
  {
    hide BlocksReady, ToCode, Prev, FunctionLocals;
    var item := b.body[x][k];
    if item.Do? && j < |Micros(gen, item.a)| && NamesLocal(Micros(gen, item.a)[j]) {
      NamedAreDeclared(gen, number, f, b, x, k, j);
      AddressIsAlloca(gen, number, f, b, Micros(gen, item.a)[j].v);
    }
    if item.Do? && j < |Micros(gen, item.a)| && (Micros(gen, item.a)[j].LoadFrom? || Micros(gen, item.a)[j].StoreTo?) {
      AddressIsOther(gen, number, f, b, x, k, j);
    }
  }

  lemma CodeLocals(gen: Gen, number: Numbering, f: FuncDef, b: Builder)
    requires BlocksReady(gen, number, f, b)
    ensures LocalsAreScalars(ToCode(gen, number, f.isVoid, b)) && NoPhis(ToCode(gen, number, f.isVoid, b))
  {
    hide BlocksReady, ToCode, IsInstr, OpOf, OpFor, AddressKnown, Complete, FittingBlocks, CfgReady, GenOk;
    ReadyNumbers(gen, number, f, b);
    var code := ToCode(gen, number, f.isVoid, b);
    forall x, p, i | IsAt(code, x, p, i)
      ensures !OpOf(code, i).PhiOp? && i in code.kind && i in code.operands
      ensures code.kind[i] == Load ==> |code.operands[i]| == 1 && AddressKnown(code, code.operands[i][0])
      ensures code.kind[i] == Store ==> |code.operands[i]| == 2 && AddressKnown(code, code.operands[i][1])
    {
      var k, j := InstrAt(gen, number, f.isVoid, b, x, p, i);
      OpIs(gen, number, f, b, x, p, i, k, j);
      AccessIsScalar(gen, number, f, b, x, p, i, k, j);
    }
  }

  lemma AccessIsScalar(gen: Gen, number: Numbering, f: FuncDef, b: Builder, x: Block, p: nat, i: Inst, k: nat, j: nat)
    requires BlocksReady(gen, number, f, b) && IsInstr(gen, number, f.isVoid, b, x, p, i, k, j)
    ensures var code := ToCode(gen, number, f.isVoid, b);
            i in code.kind && i in code.operands && !OpFor(gen, number, f.isVoid, x, b.body[x], k, j).PhiOp?
            && (code.kind[i] == Load ==> |code.operands[i]| == 1 && AddressKnown(code, code.operands[i][0]))
            && (code.kind[i] == Store ==> |code.operands[i]| == 2 && AddressKnown(code, code.operands[i][1]))
  {
    hide BlocksReady, ToCode, Prev, FunctionLocals;
    var item := b.body[x][k];
    if item.Do? && j < |Micros(gen, item.a)| && NamesLocal(Micros(gen, item.a)[j]) {
      NamedAreDeclared(gen, number, f, b, x, k, j);
      AddressIsAlloca(gen, number, f, b, Micros(gen, item.a)[j].v);
    }
    if item.Do? && j < |Micros(gen, item.a)| && (Micros(gen, item.a)[j].LoadFrom? || Micros(gen, item.a)[j].StoreTo?) {
      AddressIsOther(gen, number, f, b, x, k, j);
    }
  }

  // ----- `alloca`s first -----

  /** `a` is an `alloca` of the entry, passed when position `p` of `x` is reached. */
  ghost predicate AllocaBefore(code: Code, a: Inst, x: Block, p: int) {
    && a in code.kind && code.kind[a] == Alloca(true)
    && exists q :: IsAt(code, code.cfg.entry, q, a) && (x == code.cfg.entry ==> q < p)
  }

  /** `i` loads from or stores to the result of `a`. */
  predicate HasAddress(code: Code, i: Inst, a: Inst) {
    && i in code.kind && i in code.operands
    && ((code.kind[i] == Load && code.operands[i] == [Res(a)])
        || (code.kind[i] == Store && |code.operands[i]| == 2 && code.operands[i][1] == Res(a)))
  }

  /** Whatever is loaded from or stored to, but for elements of arrays and globals, is an
      `alloca` of the entry, before the access. */
  ghost predicate AllocasFirst(code: Code) {
    forall x, p, i, a :: IsAt(code, x, p, i) && HasAddress(code, i, a) && !(a in code.kind && code.kind[a] == Gep) ==>
      AllocaBefore(code, a, x, p)
  }

  /** An access to a local by its `alloca`. */
  lemma AccessNames(gen: Gen, number: Numbering, f: FuncDef, b: Builder, x: Block, p: nat, i: Inst, k: nat, j: nat,
                    a: Inst) returns (v: nat)
    requires BlocksReady(gen, number, f, b) && IsInstr(gen, number, f.isVoid, b, x, p, i, k, j)
    requires var code := ToCode(gen, number, f.isVoid, b);
             HasAddress(code, i, a) && !(a in code.kind && code.kind[a] == Gep)
    ensures x in b.body && k < |b.body[x]| && b.body[x][k].Do? && j < |Micros(gen, b.body[x][k].a)|
    ensures NamesLocal(Micros(gen, b.body[x][k].a)[j]) && Micros(gen, b.body[x][k].a)[j].v == v
    ensures a == number(AllocaSlot(v))
  {
    hide BlocksReady, ToCode, Prev, FunctionLocals, Slots, Micros;
    var m := Micros(gen, b.body[x][k].a)[j];
    if m.LoadFrom? || m.StoreTo? {
      AddressIsOther(gen, number, f, b, x, k, j);
      assert false;
    }
    v := m.v;
  }

  /** The `alloca` of a local the block names stands in the entry before item `k`. */
  lemma DeclaredBefore(gen: Gen, number: Numbering, f: FuncDef, b: Builder, x: Block, p: nat, k: nat, v: nat)
    requires BlocksReady(gen, number, f, b) && x in b.body && k < |b.body[x]| && p >= |Slots(gen, x, b.body[x], k)|
    requires v in FunctionLocals(f) && (x == b.entry ==> v in LocalsOf(b.body[x][..k]))
    ensures AllocaBefore(ToCode(gen, number, f.isVoid, b), number(AllocaSlot(v)), x, p)
  {
    hide BlocksReady, ToCode, LocalsOf, FunctionLocals, Slots, IsInstr, Distinct, Complete, FittingBlocks, CfgReady,
         GenOk;
    ReadyNumbers(gen, number, f, b);
    CodeBlock(gen, number, f.isVoid, b, x);
    BlockLocals(gen, number, f, b, b.entry);
    AddressIsAlloca(gen, number, f, b, v);
    var items := b.body[b.entry];
    var k';
    if x == b.entry {
      k' := LocalItem(items[..k], v);
    } else {
      k' := LocalItem(items, v);
    }
    InstrData(gen, number, f.isVoid, b, b.entry, k', 0);
    if x == b.entry {
      SlotAt(gen, x, items, k, k', 0);
    }
  }

  /** In the lowered function every `alloca` of a local stands before all accesses to it. */
  lemma AllocasComeFirst(gen: Gen, number: Numbering, f: FuncDef)
    requires Compilable(gen, f) && Distinct(number)
    ensures AllocasFirst(ToCode(gen, number, f.isVoid, LowerFunction(f)))
  {
    hide Compilable, Distinct, ToCode, LowerFunction, BlocksReady, IsInstr, HasAddress, AllocaBefore, Slots, Micros,
         LocalsOf, FunctionLocals, Complete, FittingBlocks, CfgReady, GenOk;
    var b := LowerFunction(f);
    var code := ToCode(gen, number, f.isVoid, b);
    LoweredBlocksReady(gen, number, f);
    ReadyNumbers(gen, number, f, b);
    forall x, p, i, a | IsAt(code, x, p, i) && HasAddress(code, i, a) && !(a in code.kind && code.kind[a] == Gep)
      ensures AllocaBefore(code, a, x, p)
    {
      var k, j := InstrAt(gen, number, f.isVoid, b, x, p, i);
      var v := AccessNames(gen, number, f, b, x, p, i, k, j, a);
      NamedAreDeclared(gen, number, f, b, x, k, j);
      PlaceOf(gen, number, f.isVoid, b, x, p, i, k, j);
      DeclaredBefore(gen, number, f, b, x, p, k, v);
    }
  }

  // ----- terminators -----

  lemma CodeTerminated(gen: Gen, number: Numbering, f: FuncDef, b: Builder)
    requires BlocksReady(gen, number, f, b)
    ensures BlocksTerminated(ToCode(gen, number, f.isVoid, b))
  {
    hide BlocksReady, ToCode, TerminatedBlock, Complete, FittingBlocks, CfgReady, GenOk;
    ReadyNumbers(gen, number, f, b);
    var code := ToCode(gen, number, f.isVoid, b);
    forall x | x in code.instrs && x in code.cfg.succs
      ensures TerminatedBlock(code, x)
    {
      CodeBlock(gen, number, f.isVoid, b, x);
      BlockTerminated(gen, number, f, b, x);
    }
  }

  lemma CompleteBlock(b: Builder, x: Block)
    requires Complete(b) && x in b.body
    ensures x in b.succs && BlockOk(b.body[x], b.succs[x]) && Terminated(b.body[x])
  {
    hide HasPath, ListOk, GraphOk, BlockOk;
  }

  lemma BlockTerminated(gen: Gen, number: Numbering, f: FuncDef, b: Builder, x: Block)
    requires BlocksReady(gen, number, f, b) && x in b.body && x in ToCode(gen, number, f.isVoid, b).instrs
             && x in ToCode(gen, number, f.isVoid, b).cfg.succs
    ensures TerminatedBlock(ToCode(gen, number, f.isVoid, b), x)
  {
    hide BlocksReady, ToCode, IsInstr, OpOf, Slots, Complete, TermOk, LastOp, FittingBlocks;
    ReadyNumbers(gen, number, f, b);
    CompleteBlock(b, x);
    CodeBlock(gen, number, f.isVoid, b, x);
    var code, items := ToCode(gen, number, f.isVoid, b), b.body[x];
    var last := |items| - 1;
    assert ItemSlots(gen, x, last, items[last]) == [InstrSlot(x, last, 0)];
    InstrData(gen, number, f.isVoid, b, x, last, 0);
    LastSlot(gen, x, items);
    LastOpIs(gen, number, f, b, x, last);
    forall p | 0 <= p < |code.instrs[x]| - 1
      ensures !OpOf(code, code.instrs[x][p]).Term?
    {
      var k, j := InstrAt(gen, number, f.isVoid, b, x, p, code.instrs[x][p]);
      InstrBefore(gen, number, f.isVoid, b, x, p, code.instrs[x][p], k, j);
      OpIs(gen, number, f, b, x, p, code.instrs[x][p], k, j);
      OpNotTerm(gen, number, f.isVoid, x, items, k, j);
    }
  }

  lemma LastSlot(gen: Gen, x: Block, items: seq<Item>)
    requires items != [] && !items[|items| - 1].Do?
    ensures |AllSlotsOf(gen, x, items)| == |Slots(gen, x, items, |items| - 1)| + 1
  {
  }

  lemma OpNotTerm(gen: Gen, number: Numbering, isVoid: bool, x: Block, items: seq<Item>, k: nat, j: nat)
    requires k < |items| && !IsTerminator(items[k])
    ensures !OpFor(gen, number, isVoid, x, items, k, j).Term?
  {
    hide Prev, ItemValues;
  }

  /** Before the last instruction there are only items before the last. */
  lemma InstrBefore(gen: Gen, number: Numbering, isVoid: bool, b: Builder, x: Block, p: nat, i: Inst, k: nat, j: nat)
    requires Distinct(number) && IsInstr(gen, number, isVoid, b, x, p, i, k, j) && b.body[x] != []
    requires p < |Slots(gen, x, b.body[x], |b.body[x]| - 1)|
    ensures k < |b.body[x]| - 1
  {
    hide ToCode, Slots, ItemSlots, Distinct;
  }

  lemma TermFits(gen: Gen, number: Numbering, isVoid: bool, x: Block, items: seq<Item>, succs: seq<Block>)
    requires BlockOk(items, succs) && Terminated(items)
    ensures TermOk(OpFor(gen, number, isVoid, x, items, |items| - 1, 0), succs)
  {
    hide Prev;
  }

  lemma LastOpIs(gen: Gen, number: Numbering, f: FuncDef, b: Builder, x: Block, last: nat)
    requires BlocksReady(gen, number, f, b) && x in b.body && last == |b.body[x]| - 1 && BlockOk(b.body[x], b.succs[x])
             && Terminated(b.body[x]) && x in b.succs
    requires |AllSlotsOf(gen, x, b.body[x])| == |Slots(gen, x, b.body[x], last)| + 1
    requires IsInstr(gen, number, f.isVoid, b, x, |Slots(gen, x, b.body[x], last)|, number(InstrSlot(x, last, 0)),
                     last, 0)
    requires IsAt(ToCode(gen, number, f.isVoid, b), x, |Slots(gen, x, b.body[x], last)|, number(InstrSlot(x, last, 0)))
    ensures var code := ToCode(gen, number, f.isVoid, b);
            x in code.instrs && x in code.cfg.succs && code.instrs[x] != []
            && LastOp(code, x) == OpFor(gen, number, f.isVoid, x, b.body[x], last, 0)
            && TermOk(LastOp(code, x), code.cfg.succs[x])
  {
    hide BlocksReady, ToCode, IsInstr, OpOf, OpFor, Slots, AllSlotsOf, BlockOk, TermOk, Complete, FittingBlocks,
         CfgReady, GenOk;
    ReadyNumbers(gen, number, f, b);
    CodeBlock(gen, number, f.isVoid, b, x);
    OpIs(gen, number, f, b, x, |Slots(gen, x, b.body[x], last)|, number(InstrSlot(x, last, 0)), last, 0);
    TermFits(gen, number, f.isVoid, x, b.body[x], b.succs[x]);
  }

  // ----- results are there when they are used -----

  lemma {:induction false} LastResultIs(ms: seq<Micro>, j: nat)
    requires j <= |ms| && LastResult(ms, j).Some?
    ensures LastResult(ms, j).value < j && HasValue(ms[LastResult(ms, j).value])
  {
    if !HasValue(ms[j - 1]) {
      LastResultIs(ms, j - 1);
    }
  }

  lemma YieldIs(gen: Gen, f: FuncDef, a: Atom)
    ensures AtomYields(SignatureOf(gen, f), a) <==> LastResult(Micros(gen, a), |Micros(gen, a)|).Some?
  {
  }

  /** The last result is an earlier instruction of the block, if there is one. */
  lemma {:induction false} PrevFound(gen: Gen, number: Numbering, f: FuncDef, x: Block, items: seq<Item>, k: nat)
    returns (k': nat, j': nat)
    requires k <= |items| && HaveAfter(SignatureOf(gen, f), items[..k])
    ensures k' < k && items[k'].Do? && j' < |Micros(gen, items[k'].a)| && HasValue(Micros(gen, items[k'].a)[j'])
    ensures Prev(gen, number, x, items, k) == Res(number(InstrSlot(x, k', j')))
    decreases k
  {
    hide LastResult, AtomYields, Micros;
    var item := items[k - 1];
    if item.Do? {
      YieldIs(gen, f, item.a);
    }
    if item.Do? && LastResult(Micros(gen, item.a), |Micros(gen, item.a)|).Some? {
      LastResultIs(Micros(gen, item.a), |Micros(gen, item.a)|);
      k', j' := k - 1, LastResult(Micros(gen, item.a), |Micros(gen, item.a)|).value;
    } else {
      assert items[..k] == items[..k - 1] + [item];
      HaveMore(SignatureOf(gen, f), items[..k - 1], item);
      k', j' := PrevFound(gen, number, f, x, items, k - 1);
    }
  }

  /** Instruction `j'` of item `k'` has a result and stands before instruction `j` of item `k`. */
  ghost predicate ResultBefore(gen: Gen, items: seq<Item>, k': nat, j': nat, k: nat, j: nat) {
    && k' < |items| && items[k'].Do? && j' < |Micros(gen, items[k'].a)| && HasValue(Micros(gen, items[k'].a)[j'])
    && (k' < k || (k' == k && j' < j))
  }

  lemma OperandFound(gen: Gen, number: Numbering, f: FuncDef, x: Block, items: seq<Item>, k: nat, j: nat, o: Operand,
                     v: Value) returns (k': nat, j': nat)
    requires GenOk(gen) && Fitting(gen, f, items) && k < |items| && items[k].Do?
             && j < |Micros(gen, items[k].a)|
    requires o in MicroOperands(Micros(gen, items[k].a)[j])
             && v == ValueFor(number, x, k, Prev(gen, number, x, items, k), o) && v.Res?
    ensures ResultBefore(gen, items, k', j', k, j) && v == Res(number(InstrSlot(x, k', j')))
  {
    hide Micros, HaveAfter, Prev, LastResult, GenOk;
    MicrosOk(gen, items[k].a, j, o);
    if o == Previous {
      ItemFitsAt(gen, f, items, k);
      k', j' := PrevFound(gen, number, f, x, items, k);
    } else {
      k', j' := k, o.j;
    }
  }

  lemma UsedOperand(number: Numbering, x: Block, k: nat, prev: Value, m: Micro, v: Value) returns (o: Operand)
    requires if NamesLocal(m) then m.WriteLocal? && v == ValueFor(number, x, k, prev, m.x)
             else v in MicroValues(number, x, k, prev, m)
    ensures o in MicroOperands(m) && v == ValueFor(number, x, k, prev, o)
  {
    hide ValueFor;
    match m
    case WriteLocal(_, x) => o := x;
    case LoadFrom(a) => o := a;
    case StoreTo(x', a) => o := if v == ValueFor(number, x, k, prev, x') then x' else a;
    case Element(xs) =>
      var n :| 0 <= n < |xs| && ValueFor(number, x, k, prev, xs[n]) == v;
      o := xs[n];
    case Effect(_, xs) =>
      var n :| 0 <= n < |xs| && ValueFor(number, x, k, prev, xs[n]) == v;
      o := xs[n];
  }

  lemma UsedFound(gen: Gen, number: Numbering, f: FuncDef, x: Block, items: seq<Item>, k: nat, j: nat, v: Value)
    returns (k': nat, j': nat)
    requires GenOk(gen) && Fitting(gen, f, items) && k < |items| && v.Res?
             && v in Used(OpFor(gen, number, f.isVoid, x, items, k, j))
    ensures ResultBefore(gen, items, k', j', k, j) && v == Res(number(InstrSlot(x, k', j')))
  {
    hide Micros, HaveAfter, Prev, LastResult, GenOk, Fitting, ValueFor, AtomNames;
    ItemFitsAt(gen, f, items, k);
    match items[k]
    case Do(a) =>
      var o := UsedOperand(number, x, k, Prev(gen, number, x, items, k), Micros(gen, a)[j], v);
      k', j' := OperandFound(gen, number, f, x, items, k, j, o, v);
    case Branch(_, _) => k', j' := PrevFound(gen, number, f, x, items, k);
    case Leave => k', j' := PrevFound(gen, number, f, x, items, k);
  }

  lemma ItemFitsAt(gen: Gen, f: FuncDef, items: seq<Item>, k: nat)
    requires Fitting(gen, f, items) && k < |items|
    ensures ItemFits(SignatureOf(gen, f), items[k], HaveAfter(SignatureOf(gen, f), items[..k]),
                     Members(FunctionLocals(f)) + Members(LocalsOf(items[..k])))
  {
    hide ItemFits, HaveAfter, LocalsOf, FunctionLocals;
  }

  lemma BlockFitting(gen: Gen, number: Numbering, f: FuncDef, b: Builder, x: Block)
    requires BlocksReady(gen, number, f, b) && x in b.body
    ensures Fitting(gen, f, b.body[x])
  {
    hide GenOk, Distinct, Complete, CfgReady, LocalsOf, FunctionLocals, ItemsFit;
    OuterGrows(SignatureOf(gen, f), if x == b.entry then {} else Members(FunctionLocals(f)), Members(FunctionLocals(f)),
               b.body[x]);
  }

  lemma AtomInstr(gen: Gen, number: Numbering, isVoid: bool, b: Builder, x: Block, k: nat, j: nat)
    returns (p: nat, i: Inst)
    requires Distinct(number) && x in b.body && k < |b.body[x]| && b.body[x][k].Do? && j < |Micros(gen, b.body[x][k].a)|
    ensures p == |Slots(gen, x, b.body[x], k)| + j && i == number(InstrSlot(x, k, j))
    ensures IsInstr(gen, number, isVoid, b, x, p, i, k, j) && IsAt(ToCode(gen, number, isVoid, b), x, p, i)
  {
    hide ToCode, Slots, KindFor, ItemValues, Distinct, IsInstr, Micros;
    InstrData(gen, number, isVoid, b, x, k, j);
    p, i := |Slots(gen, x, b.body[x], k)| + j, number(InstrSlot(x, k, j));
  }

  lemma OpHasResult(gen: Gen, number: Numbering, isVoid: bool, x: Block, items: seq<Item>, k: nat, j: nat)
    requires k < |items| && items[k].Do? && j < |Micros(gen, items[k].a)| && HasValue(Micros(gen, items[k].a)[j])
    ensures HasResult(OpFor(gen, number, isVoid, x, items, k, j))
  {
    hide Micros, Prev, ItemValues;
  }

  lemma ResultIsThere(gen: Gen, number: Numbering, f: FuncDef, b: Builder, x: Block, p: nat, i: Inst, k: nat, j: nat,
                      k': nat, j': nat)
    requires BlocksReady(gen, number, f, b) && IsInstr(gen, number, f.isVoid, b, x, p, i, k, j)
             && ResultBefore(gen, b.body[x], k', j', k, j)
    ensures var code := ToCode(gen, number, f.isVoid, b); var r := number(InstrSlot(x, k', j'));
            Available(code, r, x, p) && HasResult(OpOf(code, r))
  {
    hide BlocksReady, ToCode, OpOf, OpFor, HasResult, Micros, IsInstr, Slots, Distinct, Available, Complete,
         FittingBlocks, CfgReady, GenOk;
    ReadyNumbers(gen, number, f, b);
    PlaceOf(gen, number, f.isVoid, b, x, p, i, k, j);
    var p', r := AtomInstr(gen, number, f.isVoid, b, x, k', j');
    OpIs(gen, number, f, b, x, p', r, k', j');
    OpHasResult(gen, number, f.isVoid, x, b.body[x], k', j');
    AtomPlace(gen, x, b.body[x], k, k', j');
    EarlierIsAvailable(ToCode(gen, number, f.isVoid, b), x, p', r, p);
  }

  lemma EarlierIsAvailable(code: Code, x: Block, q: nat, r: Inst, p: nat)
    requires IsAt(code, x, q, r) && q < p
    ensures Available(code, r, x, p)
  {
    assert Passed(code, x, q, r, x, p);
  }

  lemma PlaceOf(gen: Gen, number: Numbering, isVoid: bool, b: Builder, x: Block, p: nat, i: Inst, k: nat, j: nat)
    requires Distinct(number) && IsInstr(gen, number, isVoid, b, x, p, i, k, j)
    ensures x in b.body && k < |b.body[x]| && p == |Slots(gen, x, b.body[x], k)| + j
  {
    hide ToCode, Slots, ItemSlots, Distinct;
  }

  lemma AtomPlace(gen: Gen, x: Block, items: seq<Item>, k: nat, k': nat, j': nat)
    requires k < |items| && k' < |items| && items[k'].Do? && j' < |Micros(gen, items[k'].a)|
    ensures k' < k ==> |Slots(gen, x, items, k')| + j' < |Slots(gen, x, items, k)|
  {
    hide Slots, Micros;
    if k' < k {
      SlotAt(gen, x, items, k, k', j');
    }
  }

  lemma CodeUses(gen: Gen, number: Numbering, f: FuncDef, b: Builder)
    requires BlocksReady(gen, number, f, b)
    ensures UsesDefined(ToCode(gen, number, f.isVoid, b))
  {
    hide BlocksReady, ToCode, IsInstr, OpOf, OpFor, Used, Available, ResultBefore, Fitting, Complete, FittingBlocks,
         CfgReady;
    ReadyNumbers(gen, number, f, b);
    var code := ToCode(gen, number, f.isVoid, b);
    forall x, p, i, v | IsAt(code, x, p, i) && v in Used(OpOf(code, i)) && v.Res?
      ensures Available(code, v.i, x, p) && HasResult(OpOf(code, v.i))
    {
      var k, j := InstrAt(gen, number, f.isVoid, b, x, p, i);
      OpIs(gen, number, f, b, x, p, i, k, j);
      InstrInBlock(gen, number, f.isVoid, b, x, p, i, k, j);
      BlockFitting(gen, number, f, b, x);
      var k', j' := UsedFound(gen, number, f, x, b.body[x], k, j, v);
      ResultIsThere(gen, number, f, b, x, p, i, k, j, k', j');
    }
  }

  lemma InstrInBlock(gen: Gen, number: Numbering, isVoid: bool, b: Builder, x: Block, p: nat, i: Inst, k: nat, j: nat)
    requires Distinct(number) && IsInstr(gen, number, isVoid, b, x, p, i, k, j)
    ensures x in b.body && k < |b.body[x]|
  {
    hide ToCode, Slots, ItemSlots, Distinct;
  }

  lemma CodeWellFormed(gen: Gen, number: Numbering, f: FuncDef, b: Builder)
    requires BlocksReady(gen, number, f, b)
    ensures WellFormed(ToCode(gen, number, f.isVoid, b))
  {
    hide BlocksReady, ToCode, PlacedOnce, LocalsAreScalars, BlocksTerminated, UsesDefined, CfgReady, FittingBlocks;
    ReadyNumbers(gen, number, f, b);
    CodeBlock(gen, number, f.isVoid, b, b.entry);
    CodePlacedOnce(gen, number, f, b);
    CodeLocals(gen, number, f, b);
    CodeTerminated(gen, number, f, b);
    CodeUses(gen, number, f, b);
    CompleteKeys(b);
  }

  lemma CompleteKeys(b: Builder)
    requires Complete(b)
    ensures b.body.Keys == b.succs.Keys
  {
    hide HasPath, ListOk, GraphOk, BodiesOk;
  }

  // ----- a store before each load -----

  /** What an item stores to, its instructions store to. */
  lemma StoreOfAtom(gen: Gen, number: Numbering, f: FuncDef, b: Builder, x: Block, k: nat, j: nat, v: nat)
    returns (p: nat)
    requires BlocksReady(gen, number, f, b) && x in b.body && k < |b.body[x]| && b.body[x][k].Do?
             && j < |Micros(gen, b.body[x][k].a)|
    requires Micros(gen, b.body[x][k].a)[j].WriteLocal? && Micros(gen, b.body[x][k].a)[j].v == v
    ensures p == |Slots(gen, x, b.body[x], k)| + j && x in ToCode(gen, number, f.isVoid, b).instrs
    ensures var code := ToCode(gen, number, f.isVoid, b);
            p < |ListOf(code, x)| && WritesTo(code, ListOf(code, x)[p], number(AllocaSlot(v)))
  {
    hide BlocksReady, ToCode, Slots, OpOf, OpFor, Micros, IsInstr, Distinct, IsAt, WritesTo, ListOf, Complete,
         FittingBlocks, CfgReady, GenOk;
    ReadyNumbers(gen, number, f, b);
    var i;
    p, i := AtomInstr(gen, number, f.isVoid, b, x, k, j);
    OpIs(gen, number, f, b, x, p, i, k, j);
    OpWrites(gen, number, f.isVoid, x, b.body[x], k, j);
    StoreAt(ToCode(gen, number, f.isVoid, b), x, p, i, number(AllocaSlot(v)));
  }

  lemma StoreAt(code: Code, x: Block, p: nat, i: Inst, w: Inst)
    requires IsAt(code, x, p, i) && OpOf(code, i).WriteVar? && OpOf(code, i).v == w
    ensures x in code.instrs && p < |ListOf(code, x)| && WritesTo(code, ListOf(code, x)[p], w)
  {
    hide OpOf;
  }

  lemma OpWrites(gen: Gen, number: Numbering, isVoid: bool, x: Block, items: seq<Item>, k: nat, j: nat)
    requires k < |items| && items[k].Do? && j < |Micros(gen, items[k].a)| && Micros(gen, items[k].a)[j].WriteLocal?
    ensures var op := OpFor(gen, number, isVoid, x, items, k, j);
            op.WriteVar? && op.v == number(AllocaSlot(Micros(gen, items[k].a)[j].v))
  {
    hide Micros, Prev, ValueFor;
  }

  lemma {:induction false} WrittenFound(gen: Gen, items: seq<Item>, v: nat) returns (k: nat, j: nat)
    requires v in Written(AccessesOf(gen), items)
    ensures k < |items| && items[k].Do? && j < |Micros(gen, items[k].a)|
    ensures Micros(gen, items[k].a)[j].WriteLocal? && Micros(gen, items[k].a)[j].v == v
    decreases items
  {
    hide Micros;
    if items[0].Do? && v in LocalsWritten(Micros(gen, items[0].a)) {
      var n :| 0 <= n < |Micros(gen, items[0].a)| && Micros(gen, items[0].a)[n].WriteLocal?
      && Micros(gen, items[0].a)[n].v == v;
      k, j := 0, n;
    } else {
      k, j := WrittenFound(gen, items[1..], v);
      k := k + 1;
    }
  }

  lemma WrittenStored(gen: Gen, number: Numbering, f: FuncDef, b: Builder, x: Block, v: nat)
    requires BlocksReady(gen, number, f, b) && x in b.body && v in Written(AccessesOf(gen), b.body[x])
    ensures Stores(ToCode(gen, number, f.isVoid, b), x, number(AllocaSlot(v)))
  {
    hide BlocksReady, ToCode, Slots, Written, WritesTo, Micros, Complete, FittingBlocks, CfgReady, GenOk;
    ReadyNumbers(gen, number, f, b);
    var k, j := WrittenFound(gen, b.body[x], v);
    var p := StoreOfAtom(gen, number, f, b, x, k, j, v);
  }

  lemma StoredEarlierAt(gen: Gen, number: Numbering, f: FuncDef, b: Builder, x: Block, p: nat, i: Inst, k: nat, j: nat,
                        k': nat, j': nat, v: nat)
    requires BlocksReady(gen, number, f, b) && IsInstr(gen, number, f.isVoid, b, x, p, i, k, j)
    requires k' < |b.body[x]| && b.body[x][k'].Do? && j' < |Micros(gen, b.body[x][k'].a)|
             && (k' < k || (k' == k && j' < j))
    requires Micros(gen, b.body[x][k'].a)[j'].WriteLocal? && Micros(gen, b.body[x][k'].a)[j'].v == v
    ensures StoredEarlier(ToCode(gen, number, f.isVoid, b), x, p, number(AllocaSlot(v)))
  {
    hide BlocksReady, ToCode, Slots, KindFor, ItemValues, WritesTo, Complete, FittingBlocks, CfgReady, GenOk;
    ReadyNumbers(gen, number, f, b);
    var p' := StoreOfAtom(gen, number, f, b, x, k', j', v);
    if k' < k {
      SlotAt(gen, x, b.body[x], k, k', j');
    }
  }

  /** Loads of a local that no earlier instruction of the same atom stores to. */
  lemma LoadIsAssigned(gen: Gen, number: Numbering, f: FuncDef, path: seq<Block>, x: Block, p: nat, i: Inst, k: nat,
                       j: nat, v: nat)
    requires Compilable(gen, f) && Distinct(number) && IsInstr(gen, number, f.isVoid, LowerFunction(f), x, p, i, k, j)
    requires BlocksReady(gen, number, f, LowerFunction(f))
             && GraphOf(LowerFunction(f)).PathFromTo(path, LowerFunction(f).entry, x)
    requires LowerFunction(f).body[x][k].Do? && v in LocalsRead(Micros(gen, LowerFunction(f).body[x][k].a))
    ensures var code := ToCode(gen, number, f.isVoid, LowerFunction(f));
            StoredEarlier(code, x, p, number(AllocaSlot(v))) || StoredOn(code, path, number(AllocaSlot(v)))
  {
    hide BlocksReady, ToCode, Slots, ItemSlots, KindFor, ItemValues, Written, Micros, LowerFunction, LocalsRead,
         FunctionAssigned, WellNestedAll, Stores, FunctionLocals, GenOk, Distinct;
    var b, u := LowerFunction(f), AccessesOf(gen);
    AssignedOnPaths(u, f, path, x, k, v);
    if v in Written(u, b.body[x][..k]) {
      var k', j' := WrittenFound(gen, b.body[x][..k], v);
      StoredEarlierAt(gen, number, f, b, x, p, i, k, j, k', j', v);
    } else {
      var n :| 0 <= n < |path| - 1 && path[n] in b.body && v in Written(u, b.body[path[n]]);
      WrittenStored(gen, number, f, b, path[n], v);
    }
  }

  lemma CodeStoresFirst(gen: Gen, number: Numbering, f: FuncDef)
    requires Compilable(gen, f) && Distinct(number)
    ensures StoreBeforeLoad(ToCode(gen, number, f.isVoid, LowerFunction(f)))
  {
    hide ToCode, IsInstr, LowerFunction, BlocksReady, Compilable, StoredEarlier, StoredOn, OpOf, Distinct, Complete,
         FittingBlocks, CfgReady, GenOk;
    var b := LowerFunction(f);
    LoweredBlocksReady(gen, number, f);
    ReadyNumbers(gen, number, f, b);
    var code := ToCode(gen, number, f.isVoid, b);
    CodeBlock(gen, number, f.isVoid, b, b.entry);
    forall x, p, i | IsAt(code, x, p, i) && OpOf(code, i).ReadVar?
      ensures StoredEarlier(code, x, p, OpOf(code, i).v)
              || forall path :: code.cfg.PathFromTo(path, code.cfg.entry, x) ==> StoredOn(code, path, OpOf(code, i).v)
    {
      var k, j := InstrAt(gen, number, f.isVoid, b, x, p, i);
      OpIs(gen, number, f, b, x, p, i, k, j);
      LoadStored(gen, number, f, x, p, i, k, j);
    }
  }

  lemma LoadStored(gen: Gen, number: Numbering, f: FuncDef, x: Block, p: nat, i: Inst, k: nat, j: nat)
    requires Compilable(gen, f) && Distinct(number) && BlocksReady(gen, number, f, LowerFunction(f))
    requires var b := LowerFunction(f);
             IsInstr(gen, number, f.isVoid, b, x, p, i, k, j)
             && OpFor(gen, number, f.isVoid, x, b.body[x], k, j).ReadVar?
    ensures var b := LowerFunction(f); var code := ToCode(gen, number, f.isVoid, b);
            var v := OpFor(gen, number, f.isVoid, x, b.body[x], k, j).v;
            StoredEarlier(code, x, p, v)
            || forall path :: code.cfg.PathFromTo(path, code.cfg.entry, x) ==> StoredOn(code, path, v)
  {
    hide BlocksReady, ToCode, Slots, KindFor, ItemValues, Prev, LowerFunction, Compilable, StoredEarlier, StoredOn,
         Distinct, Micros;
    var b := LowerFunction(f);
    var code := ToCode(gen, number, f.isVoid, b);
    CodeBlock(gen, number, f.isVoid, b, b.entry);
    var ms := Micros(gen, b.body[x][k].a);
    var v := ms[j].v;
    if WritesBefore(ms, j, v) {
      var j' :| 0 <= j' < j && j' < |ms| && ms[j'].WriteLocal? && ms[j'].v == v;
      StoredEarlierAt(gen, number, f, b, x, p, i, k, j, k, j', v);
    } else {
      assert v in LocalsRead(ms);
      forall path | code.cfg.PathFromTo(path, code.cfg.entry, x) && !StoredEarlier(code, x, p, number(AllocaSlot(v)))
        ensures StoredOn(code, path, number(AllocaSlot(v)))
      {
        LoadIsAssigned(gen, number, f, path, x, p, i, k, j, v);
      }
    }
  }

  /** The lowered function of any source that keeps the rules is one the promotion takes. */
  lemma LoweredIsPromotable(gen: Gen, number: Numbering, f: FuncDef)
    requires Compilable(gen, f) && Distinct(number)
    ensures Promotable(ToCode(gen, number, f.isVoid, LowerFunction(f)))
  {
    hide ToCode, LowerFunction, BlocksReady, Compilable, WellFormed, NoPhis, StoreBeforeLoad, Distinct,
         LocalsAreScalars;
    LoweredBlocksReady(gen, number, f);
    CodeWellFormed(gen, number, f, LowerFunction(f));
    CodeLocals(gen, number, f, LowerFunction(f));
    CodeStoresFirst(gen, number, f);
  }
}
