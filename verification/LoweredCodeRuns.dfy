/** Running the instructions of a lowered function does what its atoms do. */
module LoweredCodeRuns {
  import opened FlowGraphs
  import opened Statements
  import opened BlockBuilder
  import opened BuilderInvariants
  import LoweringRuns
  import opened LoweredFunction
  import opened BlocksFit
  import opened Ir
  import opened Semantics
  import opened PhiInsertion
  import opened LoweredCode

  // ----- what the atoms of a source program do -----

  /** Locals by name, effects so far, and the last result. */
  datatype Machine = Machine(mem: map<nat, Word>, events: seq<Event>, last: Word)

  function GetLocal(mem: map<nat, Word>, v: nat): Word {
    if v in mem then mem[v] else Undef
  }

  function OperandWord(inputs: Inputs, prev: Word, regs: seq<Word>, o: Operand): Word {
    match o
    case Imm(c) => Num(c)
    case Param(k) => if k < |inputs.args| then inputs.args[k] else Undef
    case Glob(n) => inputs.globals(n)
    case Reg(j) => if j < |regs| then regs[j] else Undef
    case Previous => prev
  }

  function OperandWords(inputs: Inputs, prev: Word, regs: seq<Word>, os: seq<Operand>): seq<Word> {
    seq(|os|, n requires 0 <= n < |os| => OperandWord(inputs, prev, regs, os[n]))
  }

  /** An effect and its answer. */
  function Perform(inputs: Inputs, kind: Kind, words: seq<Word>, m: Machine): (Word, Machine) {
    var events := m.events + [Event(kind, words)];
    (inputs.oracle(events), Machine(m.mem, events, inputs.oracle(events)))
  }

  function RunMicro(inputs: Inputs, x: Micro, prev: Word, regs: seq<Word>, m: Machine): (Word, Machine) {
    match x
    case ReadLocal(v) =>
      var w := GetLocal(m.mem, v);
      (w, m.(last := w))
    case WriteLocal(v, o) => (Undef, m.(mem := m.mem[v := OperandWord(inputs, prev, regs, o)]))
    case Element(os) => Perform(inputs, Gep, OperandWords(inputs, prev, regs, os), m)
    case LoadFrom(a) => Perform(inputs, Load, [OperandWord(inputs, prev, regs, a)], m)
    case StoreTo(o, a) =>
      var words := [OperandWord(inputs, prev, regs, o), OperandWord(inputs, prev, regs, a)];
      (Undef, Perform(inputs, Store, words, m).1.(last := m.last))
    case Effect(c, os) => Perform(inputs, Other(c), OperandWords(inputs, prev, regs, os), m)
  }

  /** The first `k` instructions of an atom: their results, and the machine then. */
  function RunMicros(inputs: Inputs, ms: seq<Micro>, k: nat, m: Machine): (seq<Word>, Machine)
    requires k <= |ms|
  {
    if k == 0 then ([], m)
    else
      var (regs, m1) := RunMicros(inputs, ms, k - 1, m);
      var (w, m2) := RunMicro(inputs, ms[k - 1], m.last, regs, m1);
      (regs + [w], m2)
  }

  /** What an atom of the source does: an expression what its instructions do, the others
      what the language says. Local 0 holds the value returned, local `i + 1` parameter
      `i`. */
  function RunAtom(inputs: Inputs, gen: Gen, a: Atom, m: Machine): Machine {
    match a
    case Expr(e) => RunMicros(inputs, gen(e), |gen(e)|, m).1
    case StoreArg(i) => m.(mem := m.mem[i + 1 := if i < |inputs.args| then inputs.args[i] else Undef])
    case StoreRet => m.(mem := m.mem[0 := m.last])
    case StoreZero => m.(mem := m.mem[0 := Num(0)])
    case LoadRet => m.(last := GetLocal(m.mem, 0))
  }

  /** The instructions of an atom do what the atom does. */
  lemma MicrosDoAtom(inputs: Inputs, gen: Gen, a: Atom, m: Machine)
    ensures RunMicros(inputs, Micros(gen, a), |Micros(gen, a)|, m).1 == RunAtom(inputs, gen, a, m)
  {
    if !a.Expr? {
      assert |Micros(gen, a)| == 1;
      assert RunMicros(inputs, Micros(gen, a), 0, m) == ([], m);
    }
  }

  function RunAtoms(inputs: Inputs, gen: Gen, tr: Trace): Machine {
    if tr == [] then Machine(map[], [], Undef)
    else RunAtom(inputs, gen, tr[|tr| - 1], RunAtoms(inputs, gen, tr[..|tr| - 1]))
  }

  predicate Truth(w: Word) {
    w != Undef && w != Num(0)
  }

  /** What the conditions of a source program decide. */
  function OracleOf(inputs: Inputs, gen: Gen): Oracle {
    (tr: Trace) => Truth(RunAtoms(inputs, gen, tr).last)
  }

  lemma RunAtomsNext(inputs: Inputs, gen: Gen, tr: Trace, a: Atom)
    ensures RunAtoms(inputs, gen, tr + [a]) == RunAtom(inputs, gen, a, RunAtoms(inputs, gen, tr))
  {
    hide RunAtom;
    assert (tr + [a])[..|tr + [a]| - 1] == tr;
  }

  // ----- the two runs inside a block -----

  ghost predicate MemMatches(number: Numbering, mem: map<Inst, Word>, locals: map<nat, Word>) {
    forall v :: Get(mem, number(AllocaSlot(v))) == GetLocal(locals, v)
  }

  /** Where item `k` of block `x` starts: the last result before it, and whether there
      is one in the block. */
  datatype Place = Place(x: Block, k: nat, prev: Value, known: bool)

  ghost predicate Apart(number: Numbering, at: Place) {
    at.known ==> at.prev.Res? && forall j :: at.prev.i != number(InstrSlot(at.x, at.k, j))
  }

  ghost predicate RegsMatch(number: Numbering, at: Place, ms: seq<Micro>, env: map<Inst, Word>, regs: seq<Word>) {
    forall j :: 0 <= j < |regs| && j < |ms| && HasValue(ms[j]) ==>
      Get(env, number(InstrSlot(at.x, at.k, j))) == regs[j]
  }

  /** The last result so far. */
  predicate LastIs(ms: seq<Micro>, regs: seq<Word>, before: Word, last: Word)
    requires |regs| <= |ms|
  {
    if LastResult(ms, |regs|).Some? then
      LastResult(ms, |regs|).value < |regs| && last == regs[LastResult(ms, |regs|).value]
    else last == before
  }

  /** Inside an atom, after as many of its instructions as there are results. */
  ghost predicate Inside(number: Numbering, inputs: Inputs, at: Place, ms: seq<Micro>, before: Word, s: State,
                         regs: seq<Word>, m: Machine)
  {
    && |regs| <= |ms| && MemMatches(number, s.mem, m.mem) && s.trace == m.events
    && (at.known ==> Eval(inputs, s.env, at.prev) == before)
    && RegsMatch(number, at, ms, s.env, regs) && LastIs(ms, regs, before, m.last)
  }

  function MicroOp(number: Numbering, at: Place, m: Micro): Op {
    match m
    case ReadLocal(v) => ReadVar(number(AllocaSlot(v)))
    case WriteLocal(v, o) => WriteVar(number(AllocaSlot(v)), ValueFor(number, at.x, at.k, at.prev, o))
    case Element(os) => Act(Gep, ValuesFor(number, at.x, at.k, at.prev, os))
    case LoadFrom(a) => Act(Load, [ValueFor(number, at.x, at.k, at.prev, a)])
    case StoreTo(o, a) =>
      Act(Store, [ValueFor(number, at.x, at.k, at.prev, o), ValueFor(number, at.x, at.k, at.prev, a)])
    case Effect(c, os) => Act(Other(c), ValuesFor(number, at.x, at.k, at.prev, os))
  }

  predicate OperandsKnown(ms: seq<Micro>, j: nat, known: bool)
    requires j < |ms|
  {
    forall o :: o in MicroOperands(ms[j]) ==> OperandOk(ms, j, o) && (o == Previous ==> known)
  }

  lemma OperandMatches(number: Numbering, inputs: Inputs, at: Place, ms: seq<Micro>, before: Word, s: State,
                       regs: seq<Word>, m: Machine, o: Operand)
    requires Inside(number, inputs, at, ms, before, s, regs, m)
    requires OperandOk(ms, |regs|, o) && (o == Previous ==> at.known)
    ensures Eval(inputs, s.env, ValueFor(number, at.x, at.k, at.prev, o)) == OperandWord(inputs, before, regs, o)
  {
    hide MemMatches, LastIs;
  }

  lemma OperandsMatch(number: Numbering, inputs: Inputs, at: Place, ms: seq<Micro>, before: Word, s: State,
                      regs: seq<Word>, m: Machine, os: seq<Operand>)
    requires Inside(number, inputs, at, ms, before, s, regs, m)
    requires forall o :: o in os ==> OperandOk(ms, |regs|, o) && (o == Previous ==> at.known)
    ensures EvalAll(inputs, s.env, ValuesFor(number, at.x, at.k, at.prev, os)) == OperandWords(inputs, before, regs, os)
  {
    hide Inside, OperandOk, ValueFor, OperandWord;
    forall n | 0 <= n < |os|
      ensures Eval(inputs, s.env, ValueFor(number, at.x, at.k, at.prev, os[n]))
              == OperandWord(inputs, before, regs, os[n])
    {
      OperandMatches(number, inputs, at, ms, before, s, regs, m, os[n]);
    }
  }

  /** A new result disturbs no other. */
  lemma ResultAdded(number: Numbering, inputs: Inputs, at: Place, ms: seq<Micro>, before: Word, s: State,
                    regs: seq<Word>, m: Machine, w: Word, s': State, m': Machine)
    requires Distinct(number) && Apart(number, at) && |regs| < |ms|
             && Inside(number, inputs, at, ms, before, s, regs, m)
    requires HasValue(ms[|regs|]) && s'.env == s.env[number(InstrSlot(at.x, at.k, |regs|)) := w] && m'.last == w
    requires MemMatches(number, s'.mem, m'.mem) && s'.trace == m'.events
    ensures Inside(number, inputs, at, ms, before, s', regs + [w], m')
  {
    hide MemMatches;
    forall j | 0 <= j < |regs|
      ensures number(InstrSlot(at.x, at.k, j)) != number(InstrSlot(at.x, at.k, |regs|))
    {
    }
  }

  lemma MemWritten(number: Numbering, mem: map<Inst, Word>, locals: map<nat, Word>, v: nat, w: Word)
    requires Distinct(number) && MemMatches(number, mem, locals)
    ensures MemMatches(number, mem[number(AllocaSlot(v)) := w], locals[v := w])
  {
    forall u | u != v
      ensures number(AllocaSlot(u)) != number(AllocaSlot(v))
    {
    }
  }

  /** One instruction. */
  lemma MicroStep(number: Numbering, inputs: Inputs, at: Place, ms: seq<Micro>, before: Word, s: State,
                  regs: seq<Word>, m: Machine)
    requires Distinct(number) && Apart(number, at) && |regs| < |ms|
             && Inside(number, inputs, at, ms, before, s, regs, m)
    requires OperandsKnown(ms, |regs|, at.known)
    ensures var (w, m') := RunMicro(inputs, ms[|regs|], before, regs, m);
            var i := number(InstrSlot(at.x, at.k, |regs|));
            Inside(number, inputs, at, ms, before, Step(inputs, i, MicroOp(number, at, ms[|regs|]), s), regs + [w], m')
  {
    hide MemMatches, Distinct, Apart, OperandWord, ValueFor, EvalAll, OperandWords, ValuesFor, RegsMatch, LastIs;
    var (w, m') := RunMicro(inputs, ms[|regs|], before, regs, m);
    var s' := Step(inputs, number(InstrSlot(at.x, at.k, |regs|)), MicroOp(number, at, ms[|regs|]), s);
    match ms[|regs|]
    case ReadLocal(v) =>
      LocalRead(number, s.mem, m.mem, v);
      ResultAdded(number, inputs, at, ms, before, s, regs, m, w, s', m');
    case WriteLocal(v, o) =>
      assert o in MicroOperands(ms[|regs|]);
      OperandMatches(number, inputs, at, ms, before, s, regs, m, o);
      MemWritten(number, s.mem, m.mem, v, OperandWord(inputs, before, regs, o));
      NoResult(number, at, ms, s.env, regs, before, m.last);
    case Element(os) =>
      assert forall o :: o in os ==> o in MicroOperands(ms[|regs|]);
      OperandsMatch(number, inputs, at, ms, before, s, regs, m, os);
      ResultAdded(number, inputs, at, ms, before, s, regs, m, w, s', m');
    case LoadFrom(a) =>
      assert a in MicroOperands(ms[|regs|]);
      OperandMatches(number, inputs, at, ms, before, s, regs, m, a);
      EvalOne(inputs, s.env, ValueFor(number, at.x, at.k, at.prev, a));
      ResultAdded(number, inputs, at, ms, before, s, regs, m, w, s', m');
    case StoreTo(o, a) =>
      assert o in MicroOperands(ms[|regs|]) && a in MicroOperands(ms[|regs|]);
      OperandMatches(number, inputs, at, ms, before, s, regs, m, o);
      OperandMatches(number, inputs, at, ms, before, s, regs, m, a);
      EvalTwo(inputs, s.env, ValueFor(number, at.x, at.k, at.prev, o), ValueFor(number, at.x, at.k, at.prev, a));
      NoResultAdded(number, inputs, at, ms, before, s, regs, m, inputs.oracle(s'.trace), s', m');
    case Effect(_, os) =>
      assert forall o :: o in os ==> o in MicroOperands(ms[|regs|]);
      OperandsMatch(number, inputs, at, ms, before, s, regs, m, os);
      ResultAdded(number, inputs, at, ms, before, s, regs, m, w, s', m');
  }

  lemma EvalOne(inputs: Inputs, env: map<Inst, Word>, v: Value)
    ensures EvalAll(inputs, env, [v]) == [Eval(inputs, env, v)]
  {
  }

  lemma EvalTwo(inputs: Inputs, env: map<Inst, Word>, v: Value, w: Value)
    ensures EvalAll(inputs, env, [v, w]) == [Eval(inputs, env, v), Eval(inputs, env, w)]
  {
  }

  /** The result of an instruction without a value disturbs nothing. */
  lemma NoResultAdded(number: Numbering, inputs: Inputs, at: Place, ms: seq<Micro>, before: Word, s: State,
                      regs: seq<Word>, m: Machine, w: Word, s': State, m': Machine)
    requires Distinct(number) && Apart(number, at) && |regs| < |ms|
             && Inside(number, inputs, at, ms, before, s, regs, m)
    requires !HasValue(ms[|regs|]) && m'.last == m.last
    requires s'.env == s.env[number(InstrSlot(at.x, at.k, |regs|)) := w]
    requires MemMatches(number, s'.mem, m'.mem) && s'.trace == m'.events
    ensures Inside(number, inputs, at, ms, before, s', regs + [Undef], m')
  {
    hide MemMatches;
    forall j | 0 <= j < |regs|
      ensures number(InstrSlot(at.x, at.k, j)) != number(InstrSlot(at.x, at.k, |regs|))
    {
    }
    NoResult(number, at, ms, s.env, regs, before, m.last);
  }

  lemma LocalRead(number: Numbering, mem: map<Inst, Word>, locals: map<nat, Word>, v: nat)
    requires MemMatches(number, mem, locals)
    ensures Get(mem, number(AllocaSlot(v))) == GetLocal(locals, v)
  {
  }

  lemma NoResult(number: Numbering, at: Place, ms: seq<Micro>, env: map<Inst, Word>, regs: seq<Word>, before: Word,
                 last: Word)
    requires |regs| < |ms| && !HasValue(ms[|regs|]) && RegsMatch(number, at, ms, env, regs)
             && LastIs(ms, regs, before, last)
    ensures RegsMatch(number, at, ms, env, regs + [Undef]) && LastIs(ms, regs + [Undef], before, last)
  {
  }

  // ----- lists of instructions -----

  lemma ExecNext(code: Code, inputs: Inputs, list: seq<Inst>, j: nat, s: State)
    requires j < |list|
    ensures Exec(code, inputs, list[..j + 1], s)
            == Step(inputs, list[j], OpOf(code, list[j]), Exec(code, inputs, list[..j], s))
  {
    hide OpOf, Step;
    assert list[..j + 1] == list[..j] + [list[j]];
    ExecConcat(code, inputs, list[..j], [list[j]], s);
    ExecOne(code, inputs, list[j], Exec(code, inputs, list[..j], s));
  }

  lemma ExecOne(code: Code, inputs: Inputs, i: Inst, s: State)
    ensures Exec(code, inputs, [i], s) == Step(inputs, i, OpOf(code, i), s)
  {
    hide OpOf, Step;
    assert [i][1..] == [];
  }

  /** The instructions of item `k`, and what they are. */
  ghost predicate AreInstrs(code: Code, number: Numbering, at: Place, ms: seq<Micro>, list: seq<Inst>) {
    && |list| == |ms|
    && forall j :: 0 <= j < |ms| ==>
         list[j] == number(InstrSlot(at.x, at.k, j)) && OpOf(code, list[j]) == MicroOp(number, at, ms[j])
  }

  lemma InsideStart(number: Numbering, inputs: Inputs, at: Place, ms: seq<Micro>, s: State, m: Machine)
    requires MemMatches(number, s.mem, m.mem) && s.trace == m.events
    requires at.known ==> Eval(inputs, s.env, at.prev) == m.last
    ensures Inside(number, inputs, at, ms, m.last, s, [], m)
  {
    hide MemMatches;
  }

  /** The first `j` instructions of an atom. */
  lemma {:induction false} AtomRuns(code: Code, number: Numbering, inputs: Inputs, at: Place, ms: seq<Micro>,
                                    list: seq<Inst>, s: State, m: Machine, j: nat)
    requires Distinct(number) && Apart(number, at) && AreInstrs(code, number, at, ms, list) && j <= |ms|
    requires forall j :: 0 <= j < |ms| ==> OperandsKnown(ms, j, at.known)
    requires Inside(number, inputs, at, ms, m.last, s, [], m)
    ensures var (regs, m') := RunMicros(inputs, ms, j, m);
            |regs| == j && Inside(number, inputs, at, ms, m.last, Exec(code, inputs, list[..j], s), regs, m')
  {
    hide Inside, Distinct, Apart, OperandsKnown, RunMicro, MicroOp, OpOf, Step;
    if j > 0 {
      AtomRuns(code, number, inputs, at, ms, list, s, m, j - 1);
      var (regs, m1) := RunMicros(inputs, ms, j - 1, m);
      MicroStep(number, inputs, at, ms, m.last, Exec(code, inputs, list[..j - 1], s), regs, m1);
      ExecNext(code, inputs, list, j - 1, s);
    }
  }

  // ----- items -----

  ghost predicate Known(gen: Gen, f: FuncDef, items: seq<Item>, k: nat)
    requires k <= |items|
  {
    HaveAfter(SignatureOf(gen, f), items[..k])
  }

  ghost function PlaceAt(gen: Gen, number: Numbering, f: FuncDef, x: Block, items: seq<Item>, k: nat): Place
    requires k <= |items|
  {
    Place(x, k, Prev(gen, number, x, items, k), Known(gen, f, items, k))
  }

  /** Before item `k`, or at the end of the block. */
  ghost predicate AtItem(number: Numbering, inputs: Inputs, at: Place, s: State, m: Machine) {
    MemMatches(number, s.mem, m.mem) && s.trace == m.events && (at.known ==> Eval(inputs, s.env, at.prev) == m.last)
  }

  lemma PlaceIsApart(gen: Gen, number: Numbering, f: FuncDef, x: Block, items: seq<Item>, k: nat)
    requires Distinct(number) && k <= |items|
    ensures Apart(number, PlaceAt(gen, number, f, x, items, k))
  {
    hide HaveAfter, Prev, Micros;
    if Known(gen, f, items, k) {
      var k', j' := PrevFound(gen, number, f, x, items, k);
      forall j
        ensures number(InstrSlot(x, k', j')) != number(InstrSlot(x, k, j))
      {
      }
    }
  }

  lemma AtomOperandsKnown(gen: Gen, f: FuncDef, items: seq<Item>, k: nat, j: nat)
    requires GenOk(gen) && Fitting(gen, f, items) && k < |items| && items[k].Do?
    requires j < |Micros(gen, items[k].a)|
    ensures OperandsKnown(Micros(gen, items[k].a), j, Known(gen, f, items, k))
  {
    hide GenOk, HaveAfter, Fitting, Micros, OperandOk;
    ItemFitsAt(gen, f, items, k);
    forall o | o in MicroOperands(Micros(gen, items[k].a)[j])
      ensures OperandOk(Micros(gen, items[k].a), j, o) && (o == Previous ==> Known(gen, f, items, k))
    {
      MicrosOk(gen, items[k].a, j, o);
    }
  }

  function AfterItem(inputs: Inputs, gen: Gen, i: Item, m: Machine): Machine {
    if i.Do? then RunAtom(inputs, gen, i.a, m) else m
  }

  /** The last result behind an item. */
  lemma PlaceNext(gen: Gen, number: Numbering, f: FuncDef, x: Block, items: seq<Item>, k: nat)
    requires k < |items|
    ensures var at, next := PlaceAt(gen, number, f, x, items, k), PlaceAt(gen, number, f, x, items, k + 1);
            var ms := if items[k].Do? then Micros(gen, items[k].a) else [];
            if LastResult(ms, |ms|).Some? then next.prev == Res(number(InstrSlot(x, k, LastResult(ms, |ms|).value)))
            else next.prev == at.prev && next.known == at.known
  {
    hide Micros, HaveAfter, LastResult, AtomYields;
    assert items[..k + 1] == items[..k] + [items[k]];
    HaveMore(SignatureOf(gen, f), items[..k], items[k]);
    if items[k].Do? {
      YieldIs(gen, f, items[k].a);
    } else {
      NoLast();
    }
  }

  lemma NoLast()
    ensures LastResult([], 0) == None
  {
  }

  lemma AtomEnds(gen: Gen, number: Numbering, f: FuncDef, inputs: Inputs, x: Block, items: seq<Item>, k: nat, s: State,
                 before: Word, regs: seq<Word>, m: Machine)
    requires k < |items| && items[k].Do?
    requires Inside(number, inputs, PlaceAt(gen, number, f, x, items, k), Micros(gen, items[k].a), before, s, regs, m)
    requires |regs| == |Micros(gen, items[k].a)|
    ensures AtItem(number, inputs, PlaceAt(gen, number, f, x, items, k + 1), s, m)
  {
    hide MemMatches, Micros, Prev, HaveAfter;
    var ms := Micros(gen, items[k].a);
    PlaceNext(gen, number, f, x, items, k);
    if LastResult(ms, |ms|).Some? {
      LastResultIs(ms, |ms|);
    }
  }

  // ----- a block of the function -----

  ghost function ItemList(gen: Gen, number: Numbering, x: Block, items: seq<Item>, k: nat): seq<Inst>
    requires k < |items|
  {
    Numbers(number, ItemSlots(gen, x, k, items[k]))
  }

  lemma OpForAtom(gen: Gen, number: Numbering, f: FuncDef, x: Block, items: seq<Item>, k: nat, j: nat)
    requires k < |items| && items[k].Do? && j < |Micros(gen, items[k].a)|
    ensures OpFor(gen, number, f.isVoid, x, items, k, j)
            == MicroOp(number, PlaceAt(gen, number, f, x, items, k), Micros(gen, items[k].a)[j])
  {
    hide Micros, Prev, HaveAfter, ValueFor;
  }

  lemma AtomList(gen: Gen, number: Numbering, f: FuncDef, b: Builder, x: Block, k: nat)
    requires BlocksReady(gen, number, f, b) && Distinct(number)
    requires x in b.body && k < |b.body[x]| && b.body[x][k].Do?
    ensures AreInstrs(ToCode(gen, number, f.isVoid, b), number, PlaceAt(gen, number, f, x, b.body[x], k),
                      Micros(gen, b.body[x][k].a), ItemList(gen, number, x, b.body[x], k))
  {
    hide BlocksReady, Distinct, ToCode, Micros, OpOf, OpFor, MicroOp, IsInstr, Slots, PlaceAt;
    forall j | 0 <= j < |Micros(gen, b.body[x][k].a)|
      ensures OpOf(ToCode(gen, number, f.isVoid, b), number(InstrSlot(x, k, j)))
              == MicroOp(number, PlaceAt(gen, number, f, x, b.body[x], k), Micros(gen, b.body[x][k].a)[j])
    {
      var p, i := AtomInstr(gen, number, f.isVoid, b, x, k, j);
      OpIs(gen, number, f, b, x, p, i, k, j);
      OpForAtom(gen, number, f, x, b.body[x], k, j);
    }
    PlaceIs(gen, number, f, x, b.body[x], k);
  }

  lemma PlaceIs(gen: Gen, number: Numbering, f: FuncDef, x: Block, items: seq<Item>, k: nat)
    requires k <= |items|
    ensures PlaceAt(gen, number, f, x, items, k).x == x && PlaceAt(gen, number, f, x, items, k).k == k
  {
  }

  lemma AtomStep(gen: Gen, number: Numbering, f: FuncDef, b: Builder, inputs: Inputs, x: Block, k: nat, s: State,
                 m: Machine)
    requires BlocksReady(gen, number, f, b) && Distinct(number)
    requires x in b.body && k < |b.body[x]| && b.body[x][k].Do?
    requires AtItem(number, inputs, PlaceAt(gen, number, f, x, b.body[x], k), s, m)
    ensures AtItem(number, inputs, PlaceAt(gen, number, f, x, b.body[x], k + 1),
                   Exec(ToCode(gen, number, f.isVoid, b), inputs, ItemList(gen, number, x, b.body[x], k), s),
                   RunAtom(inputs, gen, b.body[x][k].a, m))
  {
    hide BlocksReady, Distinct, ToCode, Micros, MemMatches, AreInstrs, PlaceAt, Apart, Inside, OperandsKnown, ItemList,
         RunMicros, GenOk, FittingBlocks;
    ReadyNumbers(gen, number, f, b);
    var code, at, items := ToCode(gen, number, f.isVoid, b), PlaceAt(gen, number, f, x, b.body[x], k), b.body[x];
    var ms, list := Micros(gen, items[k].a), ItemList(gen, number, x, items, k);
    AtomList(gen, number, f, b, x, k);
    PlaceIsApart(gen, number, f, x, items, k);
    ItemsOperandsKnown(gen, number, f, b, x, k);
    InsideStart(number, inputs, at, ms, s, m);
    AtomRuns(code, number, inputs, at, ms, list, s, m, |ms|);
    MicrosDoAtom(inputs, gen, items[k].a, m);
    ListWhole(code, number, at, ms, list);
    var (regs, m') := RunMicros(inputs, ms, |ms|, m);
    AtomEnds(gen, number, f, inputs, x, items, k, Exec(code, inputs, list, s), m.last, regs, m');
  }

  lemma ListWhole(code: Code, number: Numbering, at: Place, ms: seq<Micro>, list: seq<Inst>)
    requires AreInstrs(code, number, at, ms, list)
    ensures list[..|list|] == list && |list| == |ms|
  {
  }

  lemma ItemsOperandsKnown(gen: Gen, number: Numbering, f: FuncDef, b: Builder, x: Block, k: nat)
    requires BlocksReady(gen, number, f, b) && x in b.body && k < |b.body[x]| && b.body[x][k].Do?
    ensures var at := PlaceAt(gen, number, f, x, b.body[x], k); var ms := Micros(gen, b.body[x][k].a);
            forall j :: 0 <= j < |ms| ==> OperandsKnown(ms, j, at.known)
  {
    hide BlocksReady, Micros, OperandsKnown, HaveAfter, GenOk, Fitting, Prev;
    ReadyNumbers(gen, number, f, b);
    BlockFitting(gen, number, f, b, x);
    forall j | 0 <= j < |Micros(gen, b.body[x][k].a)|
      ensures OperandsKnown(Micros(gen, b.body[x][k].a), j, Known(gen, f, b.body[x], k))
    {
      AtomOperandsKnown(gen, f, b.body[x], k, j);
    }
  }

  /** Declarations and terminators leave the state alone. */
  lemma OtherStep(gen: Gen, number: Numbering, f: FuncDef, b: Builder, inputs: Inputs, x: Block, k: nat, s: State)
    requires BlocksReady(gen, number, f, b) && Distinct(number)
    requires x in b.body && k < |b.body[x]| && !b.body[x][k].Do?
    ensures Exec(ToCode(gen, number, f.isVoid, b), inputs, ItemList(gen, number, x, b.body[x], k), s) == s
  {
    hide BlocksReady, Distinct, ToCode, OpOf, IsInstr, Slots, Exec, ItemValues;
    InstrData(gen, number, f.isVoid, b, x, k, 0);
    var i := number(ItemSlots(gen, x, k, b.body[x][k])[0]);
    OpIs(gen, number, f, b, x, |Slots(gen, x, b.body[x], k)| + 0, i, k, 0);
    assert ItemList(gen, number, x, b.body[x], k) == [i];
    ExecOne(ToCode(gen, number, f.isVoid, b), inputs, i, s);
  }

  lemma ItemStep(gen: Gen, number: Numbering, f: FuncDef, b: Builder, inputs: Inputs, x: Block, k: nat, s: State,
                 m: Machine)
    requires BlocksReady(gen, number, f, b) && Distinct(number) && x in b.body && k < |b.body[x]|
    requires AtItem(number, inputs, PlaceAt(gen, number, f, x, b.body[x], k), s, m)
    ensures AtItem(number, inputs, PlaceAt(gen, number, f, x, b.body[x], k + 1),
                   Exec(ToCode(gen, number, f.isVoid, b), inputs, ItemList(gen, number, x, b.body[x], k), s),
                   AfterItem(inputs, gen, b.body[x][k], m))
  {
    hide BlocksReady, Distinct, ToCode, Micros, MemMatches, PlaceAt, ItemList, RunAtom, Exec;
    if b.body[x][k].Do? {
      AtomStep(gen, number, f, b, inputs, x, k, s, m);
    } else {
      OtherStep(gen, number, f, b, inputs, x, k, s);
      PlaceNext(gen, number, f, x, b.body[x], k);
      NoLast();
    }
  }

  /** The atoms of the first `k` items. */
  function TraceTo(items: seq<Item>, k: nat, tr: Trace): Trace
    requires k <= |items|
  {
    if k == 0 then tr
    else if items[k - 1].Do? then TraceTo(items, k - 1, tr) + [items[k - 1].a]
    else TraceTo(items, k - 1, tr)
  }

  /** The first `k` items of a block. */
  lemma {:induction false} ItemsRun(gen: Gen, number: Numbering, f: FuncDef, b: Builder, inputs: Inputs, x: Block,
                                    k: nat,
                                    s: State, tr: Trace)
    requires BlocksReady(gen, number, f, b) && Distinct(number) && x in b.body && k <= |b.body[x]|
    requires AtItem(number, inputs, PlaceAt(gen, number, f, x, b.body[x], 0), s, RunAtoms(inputs, gen, tr))
    ensures AtItem(number, inputs, PlaceAt(gen, number, f, x, b.body[x], k),
                   Exec(ToCode(gen, number, f.isVoid, b), inputs, Numbers(number, Slots(gen, x, b.body[x], k)), s),
                   RunAtoms(inputs, gen, TraceTo(b.body[x], k, tr)))
  {
    hide BlocksReady, Distinct, ToCode, AtItem, PlaceAt, ItemSlots, RunAtoms, RunAtom;
    var code := ToCode(gen, number, f.isVoid, b);
    if k > 0 {
      ItemsRun(gen, number, f, b, inputs, x, k - 1, s, tr);
      var before := Numbers(number, Slots(gen, x, b.body[x], k - 1));
      var s1 := Exec(code, inputs, before, s);
      var tr1 := TraceTo(b.body[x], k - 1, tr);
      ItemStep(gen, number, f, b, inputs, x, k - 1, s1, RunAtoms(inputs, gen, tr1));
      assert Numbers(number, Slots(gen, x, b.body[x], k)) == before + ItemList(gen, number, x, b.body[x], k - 1);
      ExecConcat(code, inputs, before, ItemList(gen, number, x, b.body[x], k - 1), s);
      if b.body[x][k - 1].Do? {
        RunAtomsNext(inputs, gen, tr1, b.body[x][k - 1].a);
      }
    } else {
      assert Numbers(number, Slots(gen, x, b.body[x], 0)) == [];
    }
  }

  // ----- transfers -----

  /** `TraceTo` and what follows is what the straight run gives. */
  lemma {:induction false} StraightTo(o: Oracle, items: seq<Item>, k: nat, tr: Trace)
    requires k <= |items| && forall i :: 0 <= i < k ==> !IsTerminator(items[i])
    ensures LoweringRuns.Straight(o, items, tr) == LoweringRuns.Straight(o, items[k..], TraceTo(items, k, tr))
  {
    if k == 0 {
      assert items[0..] == items;
    } else {
      StraightTo(o, items, k - 1, tr);
      assert items[k - 1..][0] == items[k - 1] && items[k - 1..][1..] == items[k..];
    }
  }

  function ExitOf(o: Oracle, i: Item, tr: Trace): LoweringRuns.Exit {
    match i
    case Jump(t) => LoweringRuns.To(t)
    case Branch(t, f) => LoweringRuns.To(if o(tr) then t else f)
    case Leave => LoweringRuns.Left
    case _ => LoweringRuns.Fell
  }

  lemma StraightIs(o: Oracle, items: seq<Item>, tr: Trace)
    requires Terminated(items) && forall i :: 0 <= i < |items| - 1 ==> !IsTerminator(items[i])
    ensures var all := TraceTo(items, |items|, tr);
            LoweringRuns.Straight(o, items, tr) == (all, ExitOf(o, items[|items| - 1], all))
  {
    StraightTo(o, items, |items| - 1, tr);
    assert items[|items| - 1..] == [items[|items| - 1]];
  }

  /** Where a block goes. */
  function NextFor(isVoid: bool, i: Item, last: Word): Next {
    match i
    case Jump(t) => Goto(t)
    case Branch(t, f) => Goto(if Truth(last) then t else f)
    case Leave => Finish(if isVoid then Undef else last)
    case _ => Halt
  }

  lemma TermNext(gen: Gen, number: Numbering, f: FuncDef, inputs: Inputs, x: Block, items: seq<Item>, s: State,
                 m: Machine)
    requires Fitting(gen, f, items) && Terminated(items)
    requires AtItem(number, inputs, PlaceAt(gen, number, f, x, items, |items|), s, m)
    ensures Terminate(inputs, OpFor(gen, number, f.isVoid, x, items, |items| - 1, 0), s.env)
            == NextFor(f.isVoid, items[|items| - 1], m.last)
  {
    hide Fitting, HaveAfter, Prev, MemMatches;
    ItemFitsAt(gen, f, items, |items| - 1);
    PlaceNext(gen, number, f, x, items, |items| - 1);
    NoLast();
  }

  lemma EnterNoPhis(code: Code, inputs: Inputs, x: Block, prev: Option<Block>, s: State)
    requires NoPhis(code)
    ensures Enter(code, inputs, ListOf(code, x), prev, s) == s
  {
    hide OpOf;
    forall i | i in ListOf(code, x)
      ensures !OpOf(code, i).PhiOp?
    {
      var p :| 0 <= p < |ListOf(code, x)| && ListOf(code, x)[p] == i;
      assert IsAt(code, x, p, i);
    }
    assert s.env + (map i | i in ListOf(code, x)
                    && OpOf(code, i).PhiOp? :: PhiWord(inputs, s.env, OpOf(code, i), prev)) == s.env;
  }

  lemma CodeLast(gen: Gen, number: Numbering, f: FuncDef, b: Builder, x: Block)
    requires BlocksReady(gen, number, f, b) && Distinct(number) && x in b.body
    ensures var items := b.body[x];
            Terminated(items) && (forall i :: 0 <= i < |items| - 1 ==> !IsTerminator(items[i]))
            && Fitting(gen, f, items)
            && LastOp(ToCode(gen, number, f.isVoid, b), x) == OpFor(gen, number, f.isVoid, x, items, |items| - 1, 0)
            && ListOf(ToCode(gen, number, f.isVoid, b), x) == Numbers(number, Slots(gen, x, items, |items|))
  {
    hide BlocksReady, Distinct, ToCode, IsInstr, Slots, Complete, OpOf, OpFor, LastOp, Fitting, GenOk, CfgReady;
    ReadyNumbers(gen, number, f, b);
    CompleteBlock(b, x);
    var items := b.body[x];
    var last := |items| - 1;
    InstrData(gen, number, f.isVoid, b, x, last, 0);
    LastSlot(gen, x, items);
    LastOpIs(gen, number, f, b, x, last);
    CodeListIs(gen, number, f.isVoid, b, x);
    BlockFitting(gen, number, f, b, x);
  }

  lemma CodeListIs(gen: Gen, number: Numbering, isVoid: bool, b: Builder, x: Block)
    requires Distinct(number) && x in b.body
    ensures ListOf(ToCode(gen, number, isVoid, b), x) == Numbers(number, AllSlotsOf(gen, x, b.body[x]))
  {
    hide Slots, SlotSet, KindOfSlot, ValuesOfSlot;
  }

  /** At the start of a block, with the effects and locals of a trace. */
  ghost predicate Entered(number: Numbering, s: State, m: Machine) {
    MemMatches(number, s.mem, m.mem) && s.trace == m.events
  }

  lemma StartsBlock(gen: Gen, number: Numbering, f: FuncDef, inputs: Inputs, x: Block, items: seq<Item>, s: State,
                    m: Machine)
    requires Entered(number, s, m)
    ensures AtItem(number, inputs, PlaceAt(gen, number, f, x, items, 0), s, m)
  {
    hide MemMatches;
  }

  /** A block of the function. */
  lemma BlockStep(gen: Gen, number: Numbering, f: FuncDef, b: Builder, inputs: Inputs, x: Block, prev: Option<Block>,
                  s: State,
                  tr: Trace) returns (s': State)
    requires BlocksReady(gen, number, f, b) && Distinct(number) && x in b.body
    requires Entered(number, s, RunAtoms(inputs, gen, tr))
    ensures var items := b.body[x]; var m := RunAtoms(inputs, gen, TraceTo(items, |items|, tr));
            Terminated(items) && (forall i :: 0 <= i < |items| - 1 ==> !IsTerminator(items[i]))
            && Entered(number, s', m)
            && StepConfig(ToCode(gen, number, f.isVoid, b), inputs, Config.At(x, prev, s))
               == match NextFor(f.isVoid, items[|items| - 1], m.last)
                  case Goto(y) => Config.At(y, Some(x), s')
                  case Finish(w) => Done(w, m.events)
                  case Halt => Config.Stuck(m.events)
  {
    hide BlocksReady, Distinct, ToCode, Slots, PlaceAt, MemMatches, OpFor, LastOp, RunAtoms, Enter, Exec, NoPhis,
         Fitting, Terminate, NextFor, Numbers, TraceTo;
    var code, items := ToCode(gen, number, f.isVoid, b), b.body[x];
    CodeLocals(gen, number, f, b);
    EnterNoPhis(code, inputs, x, prev, s);
    CodeLast(gen, number, f, b, x);
    StartsBlock(gen, number, f, inputs, x, items, s, RunAtoms(inputs, gen, tr));
    ItemsRun(gen, number, f, b, inputs, x, |items|, s, tr);
    s' := RunBlock(code, inputs, x, prev, s);
    TermNext(gen, number, f, inputs, x, items, s', RunAtoms(inputs, gen, TraceTo(items, |items|, tr)));
  }

  // ----- whole runs -----

  function RunMore(code: Code, inputs: Inputs, c: Config, n: nat): Config
    decreases n
  {
    if n == 0 then c else RunMore(code, inputs, StepConfig(code, inputs, c), n - 1)
  }

  lemma {:induction false} RunSplit(code: Code, inputs: Inputs, k: nat, n: nat)
    ensures Run(code, inputs, k + n) == RunMore(code, inputs, Run(code, inputs, k), n)
    decreases n
  {
    hide StepConfig;
    if n > 0 {
      RunSplit(code, inputs, k + 1, n - 1);
    }
  }

  lemma {:induction false} DoneStays(code: Code, inputs: Inputs, c: Config, n: nat)
    requires !c.At?
    ensures RunMore(code, inputs, c, n) == c
  {
    if n > 0 {
      DoneStays(code, inputs, c, n - 1);
    }
  }

  /** What a finished run of the atoms gives back. */
  function Given(isVoid: bool, m: Machine): Config {
    Done(if isVoid then Undef else m.last, m.events)
  }

  /** The blocks with instructions run as the blocks with atoms do. */
  lemma {:induction false} RunsAsAtoms(gen: Gen, number: Numbering, f: FuncDef, b: Builder, inputs: Inputs, x: Block,
                                       prev: Option<Block>, s: State, tr: Trace, n: nat)
    requires BlocksReady(gen, number, f, b) && Distinct(number) && x in b.body
    requires Entered(number, s, RunAtoms(inputs, gen, tr))
    ensures var r := LoweringRuns.RunFrom(OracleOf(inputs, gen), b.body, b.body[x], tr, n);
            var c := RunMore(ToCode(gen, number, f.isVoid, b), inputs, Config.At(x, prev, s), n + 1);
            match r
            case Finished(tr') => c == Given(f.isVoid, RunAtoms(inputs, gen, tr'))
            case Running => c.At?
            case Stuck => false
    decreases n
  {
    hide BlocksReady, Distinct, ToCode, RunAtoms, Entered, StepConfig, TraceTo, LoweringRuns.Straight;
    var code, items, o := ToCode(gen, number, f.isVoid, b), b.body[x], OracleOf(inputs, gen);
    var s' := BlockStep(gen, number, f, b, inputs, x, prev, s, tr);
    StraightIs(o, items, tr);
    var tr1 := TraceTo(items, |items|, tr);
    var c1 := StepConfig(code, inputs, Config.At(x, prev, s));
    if items[|items| - 1].Leave? {
      DoneStays(code, inputs, c1, n);
    } else if n > 0 {
      var y := ExitOf(o, items[|items| - 1], tr1).b;
      TargetKnown(gen, number, f, b, x, y);
      RunsAsAtoms(gen, number, f, b, inputs, y, Some(x), s', tr1, n - 1);
    }
  }

  lemma TargetKnown(gen: Gen, number: Numbering, f: FuncDef, b: Builder, x: Block, y: Block)
    requires BlocksReady(gen, number, f, b) && x in b.body && b.body[x] != []
    requires match b.body[x][|b.body[x]| - 1]
             case Jump(t) => y == t
             case Branch(t, f) => y == t || y == f
             case _ => false
    ensures y in b.body
  {
    hide BlocksReady, Distinct, GenOk, FittingBlocks, Complete, FlowGraph.Valid, FlowGraph.AllReachable;
    ReadyNumbers(gen, number, f, b);
    CompleteBlock(b, x);
    CompleteKeys(b);
    assert y in b.succs[x];
    EdgeInGraph(GraphOf(b), x, y);
  }

  lemma EdgeInGraph(g: FlowGraph, x: Block, y: Block)
    requires g.Valid() && x in g.succs && y in g.succs[x]
    ensures y in g.succs
  {
  }

  // ----- from the source to the instructions -----

  /** The source run ends, returning `w` after the effects `events`. */
  ghost predicate SourceReturns(inputs: Inputs, gen: Gen, f: FuncDef, w: Word, events: seq<Event>) {
    exists fuel :: RunFunction(OracleOf(inputs, gen), f, fuel).Some?
                   && Given(f.isVoid, RunAtoms(inputs, gen, RunFunction(OracleOf(inputs, gen), f, fuel).value))
                      == Done(w, events)
  }

  ghost predicate CodeReturns(code: Code, inputs: Inputs, w: Word, events: seq<Event>) {
    exists n :: Run(code, inputs, n) == Done(w, events)
  }

  /** The run from the entry. */
  lemma RunsFromEntry(gen: Gen, number: Numbering, f: FuncDef, inputs: Inputs, n: nat)
    requires Compilable(gen, f) && Distinct(number)
    ensures var c := Run(ToCode(gen, number, f.isVoid, LowerFunction(f)), inputs, n + 1);
            match RunLowered(OracleOf(inputs, gen), f, n)
            case Finished(tr) => c == Given(f.isVoid, RunAtoms(inputs, gen, tr))
            case Running => c.At?
            case Stuck => false
  {
    hide Compilable, Distinct, ToCode, LowerFunction, BlocksReady, OracleOf, LoweringRuns.RunFrom, StepConfig, GenOk,
         Complete, FittingBlocks, CfgReady;
    var b := LowerFunction(f);
    var code, s := ToCode(gen, number, f.isVoid, b), State(map[], map[], []);
    LoweredBlocksReady(gen, number, f);
    ReadyNumbers(gen, number, f, b);
    CodeBlock(gen, number, f.isVoid, b, b.entry);
    assert Run(code, inputs, 0) == Config.At(b.entry, None, s);
    RunSplit(code, inputs, 0, n + 1);
    RunsAsAtoms(gen, number, f, b, inputs, b.entry, None, s, [], n);
  }

  /** Source and instructions end with the same effects and the same value, one exactly
      when the other does. The instructions never get stuck. */
  lemma InstructionsKeepMeaning(gen: Gen, number: Numbering, f: FuncDef, inputs: Inputs, w: Word, events: seq<Event>)
    requires Compilable(gen, f) && Distinct(number)
    ensures var code := ToCode(gen, number, f.isVoid, LowerFunction(f));
            (SourceReturns(inputs, gen, f, w, events) <==> CodeReturns(code, inputs, w, events))
            && forall n :: !Run(code, inputs, n).Stuck?
  {
    hide Distinct, ToCode, LowerFunction, OracleOf, RunAtoms, RunFunction, RunLowered, StepConfig, WellNestedAll, Given,
         Compilable;
    var code, o := ToCode(gen, number, f.isVoid, LowerFunction(f)), OracleOf(inputs, gen);
    CompilableNests(gen, f);
    if SourceReturns(inputs, gen, f, w, events) {
      var fuel :| RunFunction(o, f, fuel).Some?
      && Given(f.isVoid, RunAtoms(inputs, gen, RunFunction(o, f, fuel).value)) == Done(w, events);
      var tr := RunFunction(o, f, fuel).value;
      LoweringKeepsMeaning(o, f, tr);
      var n :| RunLowered(o, f, n) == LoweringRuns.Finished(tr);
      RunsFromEntry(gen, number, f, inputs, n);
    }
    forall n: nat
      ensures !Run(code, inputs, n).Stuck?
      ensures Run(code, inputs, n) == Done(w, events) ==> SourceReturns(inputs, gen, f, w, events)
    {
      if n > 0 {
        EndsAsSource(gen, number, f, inputs, n - 1, w, events);
      }
    }
  }

  lemma CompilableNests(gen: Gen, f: FuncDef)
    requires Compilable(gen, f)
    ensures WellNestedAll(f.body, false)
  {
  }

  lemma EndsAsSource(gen: Gen, number: Numbering, f: FuncDef, inputs: Inputs, n: nat, w: Word, events: seq<Event>)
    requires Compilable(gen, f) && Distinct(number)
    ensures var c := Run(ToCode(gen, number, f.isVoid, LowerFunction(f)), inputs, n + 1);
            !c.Stuck? && (c == Done(w, events) ==> SourceReturns(inputs, gen, f, w, events))
  {
    hide Distinct, ToCode, LowerFunction, OracleOf, RunAtoms, RunFunction, RunLowered, Run, WellNestedAll, Compilable;
    CompilableNests(gen, f);
    RunsFromEntry(gen, number, f, inputs, n);
    var o := OracleOf(inputs, gen);
    var r := RunLowered(o, f, n);
    if r.Finished? {
      LoweringKeepsMeaning(o, f, r.tr);
      var fuel :| RunFunction(o, f, fuel) == Some(r.tr);
    }
  }
}
