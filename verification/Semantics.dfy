/** What a function does when it runs: a block at a time, with parallel phis,
    opaque effects recorded in a trace, and scalar locals in a memory of their own. */
module Semantics {
  import opened FlowGraphs
  import opened Ir

  datatype Word = Undef | Num(n: int)

  /** An effect or computation the passes must keep: its instruction kind and the
      words it was given. */
  datatype Event = Event(kind: Kind, args: seq<Word>)

  datatype State = State(env: map<Inst, Word>, mem: map<Inst, Word>, trace: seq<Event>)

  /** `oracle` gives the result of the last event of a trace; it may depend on all
      events before, so calls, arrays and globals can behave in any way. */
  datatype Inputs = Inputs(args: seq<Word>, globals: nat -> Word, oracle: seq<Event> -> Word)

  // ----- instructions by what they do -----

  datatype Op =
    | Silent
    | ReadVar(v: Inst)
    | WriteVar(v: Inst, rval: Value)
    | PhiOp(v: Inst, pairs: seq<Value>)
    | Act(kind: Kind, args: seq<Value>)
    | Term(kind: Kind, args: seq<Value>)

  /** The address of a local: the result of a scalar `alloca`. */
  predicate ScalarAddress(kind: map<Inst, Kind>, v: Value) {
    v.Res? && v.i in kind && kind[v.i] == Alloca(true)
  }

  function OpOf(code: Code, i: Inst): Op {
    if i !in code.kind || i !in code.operands then Silent
    else
      var k, ops := code.kind[i], code.operands[i];
      match k
      case Alloca(scalar) => if scalar then Silent else Act(k, ops)
      case Phi(v) => PhiOp(v, ops)
      case Br => Term(k, ops)
      case Ret => Term(k, ops)
      case Load => if |ops| == 1 && ScalarAddress(code.kind, ops[0]) then ReadVar(ops[0].i) else Act(k, ops)
      case Store => if |ops| == 2 && ScalarAddress(code.kind, ops[1]) then WriteVar(ops[1].i, ops[0]) else Act(k, ops)
      case _ => Act(k, ops)
  }

  // ----- running -----

  function Get(m: map<Inst, Word>, i: Inst): Word {
    if i in m then m[i] else Undef
  }

  function Eval(inputs: Inputs, env: map<Inst, Word>, v: Value): Word {
    match v
    case Const(c) => Num(c)
    case Arg(k) => if k < |inputs.args| then inputs.args[k] else Undef
    case Global(n) => inputs.globals(n)
    case Res(i) => Get(env, i)
    case Label(_) => Undef
  }

  function EvalAll(inputs: Inputs, env: map<Inst, Word>, vs: seq<Value>): seq<Word> {
    seq(|vs|, k requires 0 <= k < |vs| => Eval(inputs, env, vs[k]))
  }

  function Step(inputs: Inputs, i: Inst, op: Op, s: State): State {
    match op
    case ReadVar(v) => s.(env := s.env[i := Get(s.mem, v)])
    case WriteVar(v, rval) => s.(mem := s.mem[v := Eval(inputs, s.env, rval)])
    case Act(kind, args) =>
      var trace := s.trace + [Event(kind, EvalAll(inputs, s.env, args))];
      s.(env := s.env[i := inputs.oracle(trace)], trace := trace)
    case _ => s
  }

  function Exec(code: Code, inputs: Inputs, list: seq<Inst>, s: State): State {
    if list == [] then s
    else Exec(code, inputs, list[1..], Step(inputs, list[0], OpOf(code, list[0]), s))
  }

  /** The value a phi takes for an edge: its first pair for that predecessor. */
  function Incoming(pairs: seq<Value>, prev: Block): Option<Value> {
    if |pairs| < 2 then None
    else if pairs[1] == Label(prev) then Some(pairs[0])
    else Incoming(pairs[2..], prev)
  }

  function EvalOption(inputs: Inputs, env: map<Inst, Word>, v: Option<Value>): Word {
    if v.Some? then Eval(inputs, env, v.value) else Undef
  }

  function PhiWord(inputs: Inputs, env: map<Inst, Word>, op: Op, prev: Option<Block>): Word
    requires op.PhiOp?
  {
    if prev.None? then Undef else EvalOption(inputs, env, Incoming(op.pairs, prev.value))
  }

  /** All phis of a block read the environment of the edge, then all are written. */
  function Enter(code: Code, inputs: Inputs, list: seq<Inst>, prev: Option<Block>, s: State): State {
    s.(env := s.env + map i | i in list && OpOf(code, i).PhiOp? :: PhiWord(inputs, s.env, OpOf(code, i), prev))
  }

  datatype Next = Goto(b: Block) | Finish(w: Word) | Halt

  function Terminate(inputs: Inputs, op: Op, env: map<Inst, Word>): Next {
    if !op.Term? then Halt
    else if op.kind == Ret && |op.args| == 0 then Finish(Undef)
    else if op.kind == Ret && |op.args| == 1 then Finish(Eval(inputs, env, op.args[0]))
    else if op.kind == Br && |op.args| == 1 && op.args[0].Label? then Goto(op.args[0].b)
    else if op.kind == Br && |op.args| == 3 && op.args[1].Label? && op.args[2].Label? then
      Goto(if Eval(inputs, env, op.args[0]) in {Undef, Num(0)} then op.args[2].b else op.args[1].b)
    else Halt
  }

  datatype Config =
    | At(b: Block, prev: Option<Block>, s: State)
    | Done(w: Word, trace: seq<Event>)
    | Stuck(trace: seq<Event>)

  function ListOf(code: Code, b: Block): seq<Inst> {
    if b in code.instrs then code.instrs[b] else []
  }

  function LastOp(code: Code, b: Block): Op {
    var list := ListOf(code, b);
    if list == [] then Silent else OpOf(code, list[|list| - 1])
  }

  /** The state at the end of one run of a block. */
  function RunBlock(code: Code, inputs: Inputs, b: Block, prev: Option<Block>, s: State): State {
    Exec(code, inputs, ListOf(code, b), Enter(code, inputs, ListOf(code, b), prev, s))
  }

  function StepConfig(code: Code, inputs: Inputs, c: Config): Config {
    if !c.At? then c
    else
      var s := RunBlock(code, inputs, c.b, c.prev, c.s);
      match Terminate(inputs, LastOp(code, c.b), s.env)
      case Goto(b) => At(b, Some(c.b), s)
      case Finish(w) => Done(w, s.trace)
      case Halt => Stuck(s.trace)
  }

  /** The run after `n` blocks. */
  function Run(code: Code, inputs: Inputs, n: nat): Config {
    if n == 0 then At(code.cfg.entry, None, State(map[], map[], []))
    else StepConfig(code, inputs, Run(code, inputs, n - 1))
  }

  /** What can be seen of a run: the block it is in and the edge it came by, its
      effects with their arguments, and what it returns. */
  datatype Observation =
    | InBlock(b: Block, prev: Option<Block>, trace: seq<Event>)
    | Returned(w: Word, trace: seq<Event>)
    | Broken(trace: seq<Event>)

  function Observe(c: Config): Observation {
    match c
    case At(b, prev, s) => InBlock(b, prev, s.trace)
    case Done(w, trace) => Returned(w, trace)
    case Stuck(trace) => Broken(trace)
  }

  ghost predicate SameBehaviour(p: Code, q: Code) {
    forall inputs: Inputs, n: nat :: Observe(Run(p, inputs, n)) == Observe(Run(q, inputs, n))
  }

  // ----- how the pass tells accesses of locals -----

  /** `isLocalVarOp`: neither a global nor an element of an array is the address. */
  predicate IsLocalVarOp(code: Code, i: Inst) {
    && i in code.kind && i in code.operands
    && match code.kind[i]
       case Store => |code.operands[i]| == 2 && NeitherGlobalNorElement(code.kind, code.operands[i][1])
       case Load => |code.operands[i]| == 1 && NeitherGlobalNorElement(code.kind, code.operands[i][0])
       case _ => false
  }

  predicate NeitherGlobalNorElement(kind: map<Inst, Kind>, v: Value) {
    !v.Global? && !(v.Res? && v.i in kind && kind[v.i] == Gep)
  }

  /** The test on any instruction of any function: true of a load or a store, unless its
      address is a global or the result of a `getelementptr`; false of all others. */
  lemma LocalOpCases(code: Code, i: Inst, address: Value)
    requires i in code.kind && i in code.operands
    requires code.kind[i] == Load ==> code.operands[i] == [address]
    requires code.kind[i] == Store ==> |code.operands[i]| == 2 && code.operands[i][1] == address
    ensures var local := match address
                         case Global(_) => false
                         case Res(a) => a !in code.kind || code.kind[a] != Gep
                         case _ => true;
            IsLocalVarOp(code, i) <==> (code.kind[i] == Load || code.kind[i] == Store) && local
  {
  }

  // ----- well-formed functions -----

  /** Instruction `i` is at position `p` of block `b`. */
  predicate IsAt(code: Code, b: Block, p: int, i: Inst) {
    b in code.instrs && 0 <= p < |code.instrs[b]| && code.instrs[b][p] == i
  }

  /** Position `q` of `c` has been passed whenever position `p` of `b` is reached;
      phis count as passed as soon as their block is entered. */
  ghost predicate Passed(code: Code, c: Block, q: int, j: Inst, b: Block, p: int) {
    if c == b then q < p || OpOf(code, j).PhiOp? else code.cfg.Dominates(c, b)
  }

  /** The result of `j` can be used at position `p` of `b`. */
  ghost predicate Available(code: Code, j: Inst, b: Block, p: int) {
    exists c, q :: IsAt(code, c, q, j) && Passed(code, c, q, j, b, p)
  }

  predicate HasResult(op: Op) {
    op.ReadVar? || op.Act? || op.PhiOp?
  }

  /** The values an instruction evaluates; addresses of locals are not among them. */
  function Used(op: Op): seq<Value> {
    match op
    case WriteVar(_, rval) => [rval]
    case Act(_, args) => args
    case Term(_, args) => args
    case _ => []
  }

  ghost predicate UsesDefined(code: Code) {
    forall b, p, i, v :: IsAt(code, b, p, i) && v in Used(OpOf(code, i)) && v.Res? ==>
      Available(code, v.i, b, p) && HasResult(OpOf(code, v.i))
  }

  /** Loads and stores go to globals, to elements of arrays, and to scalar locals. */
  ghost predicate LocalsAreScalars(code: Code) {
    forall b, p, i :: IsAt(code, b, p, i) ==>
      && i in code.kind && i in code.operands
      && (code.kind[i] == Load ==> |code.operands[i]| == 1 && AddressKnown(code, code.operands[i][0]))
      && (code.kind[i] == Store ==> |code.operands[i]| == 2 && AddressKnown(code, code.operands[i][1]))
  }

  /** A global, an element of an array, or a scalar local. */
  predicate AddressKnown(code: Code, address: Value) {
    || address.Global?
    || (address.Res? && address.i in code.kind && code.kind[address.i] == Gep)
    || ScalarAddress(code.kind, address)
  }

  /** A return, or a branch along edges to `succs`. */
  predicate TermOk(op: Op, succs: seq<Block>) {
    && op.Term?
    && (op.kind == Ret ==> |op.args| <= 1)
    && (op.kind != Ret ==>
          && op.kind == Br
          && (|op.args| == 1 || |op.args| == 3)
          && (|op.args| == 1 ==> IsTarget(op.args[0], succs))
          && (|op.args| == 3 ==> IsTarget(op.args[1], succs) && IsTarget(op.args[2], succs)))
  }

  predicate IsTarget(v: Value, succs: seq<Block>) {
    v.Label? && v.b in succs
  }

  /** Every block ends in a terminator, along its edges, and has no other. */
  ghost predicate BlocksTerminated(code: Code) {
    forall b :: b in code.instrs && b in code.cfg.succs ==> TerminatedBlock(code, b)
  }

  ghost predicate TerminatedBlock(code: Code, b: Block)
    requires b in code.instrs && b in code.cfg.succs
  {
    && code.instrs[b] != []
    && TermOk(LastOp(code, b), code.cfg.succs[b])
    && forall p :: 0 <= p < |code.instrs[b]| - 1 ==> !OpOf(code, code.instrs[b][p]).Term?
  }

  ghost predicate CfgReady(g: FlowGraph) {
    g.Valid() && g.AllReachable() && g.preds[g.entry] == []
  }

  ghost predicate WellFormed(code: Code) {
    && CfgReady(code.cfg)
    && code.instrs.Keys == code.cfg.succs.Keys
    && PlacedOnce(code.instrs)
    && LocalsAreScalars(code)
    && BlocksTerminated(code)
    && UsesDefined(code)
  }

  ghost predicate NoPhis(code: Code) {
    forall b, p, i :: IsAt(code, b, p, i) ==> !OpOf(code, i).PhiOp?
  }

  predicate Stores(code: Code, b: Block, v: Inst) {
    exists p :: 0 <= p < |ListOf(code, b)| && WritesTo(code, ListOf(code, b)[p], v)
  }

  predicate WritesTo(code: Code, i: Inst, v: Inst) {
    OpOf(code, i).WriteVar? && OpOf(code, i).v == v
  }

  ghost predicate StoredEarlier(code: Code, b: Block, p: int, v: Inst) {
    exists q :: 0 <= q < p && q < |ListOf(code, b)| && WritesTo(code, ListOf(code, b)[q], v)
  }

  /** Some block of the path before its last stores to `v`. */
  ghost predicate StoredOn(code: Code, path: seq<Block>, v: Inst) {
    exists k :: 0 <= k < |path| - 1 && Stores(code, path[k], v)
  }

  /** On every path to a load of a local there is a store to it. */
  ghost predicate StoreBeforeLoad(code: Code) {
    forall b, p, i :: IsAt(code, b, p, i) && OpOf(code, i).ReadVar? ==>
      StoredEarlier(code, b, p, OpOf(code, i).v)
      || forall path :: code.cfg.PathFromTo(path, code.cfg.entry, b) ==> StoredOn(code, path, OpOf(code, i).v)
  }
}
