/** Source functions: statements over opaque computations, and what they do. */
module Statements {
  import opened FlowGraphs

  /** A computation the lowering never looks into: an expression with its effects,
      the store of an argument, of the value returned, of the zero returned by
      default, and the load of the value returned. */
  datatype Atom = Expr(id: nat) | StoreArg(i: nat) | StoreRet | StoreZero | LoadRet

  datatype Cond = Leaf(e: nat) | And(l: Cond, r: Cond) | Or(l: Cond, r: Cond)

  datatype Stmt =
    | Empty
    | Simple(e: nat)
    | Decl(v: nat, init: Option<nat>)
    | Compound(body: seq<Stmt>)
    | If(c: Cond, first: Stmt)
    | IfElse(c: Cond, first: Stmt, second: Stmt)
    | While(c: Cond, loop: Stmt)
    | Break
    | Continue
    | Return(value: Option<nat>)

  datatype FuncDef = FuncDef(params: nat, isVoid: bool, body: seq<Stmt>)

  /** No `||` on the left of a `&&`; the grammar has none below a `&&` at all. */
  predicate Plain(c: Cond) {
    match c
    case Leaf(_) => true
    case And(l, r) => Plain(l) && Plain(r)
    case Or(_, _) => false
  }

  predicate WellShaped(c: Cond) {
    match c
    case Leaf(_) => true
    case And(l, r) => Plain(l) && WellShaped(r)
    case Or(l, r) => WellShaped(l) && WellShaped(r)
  }

  /** The language's rules: conditions as the grammar builds them, and `break` and
      `continue` inside a `while` only. */
  predicate WellNested(s: Stmt, inLoop: bool) {
    match s
    case Compound(body) => forall i :: 0 <= i < |body| ==> WellNested(body[i], inLoop)
    case If(c, first) => WellShaped(c) && WellNested(first, inLoop)
    case IfElse(c, first, second) => WellShaped(c) && WellNested(first, inLoop) && WellNested(second, inLoop)
    case While(c, loop) => WellShaped(c) && WellNested(loop, true)
    case Break => inLoop
    case Continue => inLoop
    case _ => true
  }

  predicate WellNestedAll(body: seq<Stmt>, inLoop: bool) {
    forall i :: 0 <= i < |body| ==> WellNested(body[i], inLoop)
  }

  // ----- running -----

  /** The atoms computed so far, in order. What an atom computes, and so what a
      condition decides, may depend on all of them. */
  type Trace = seq<Atom>
  type Oracle = Trace -> bool

  /** Short-circuit evaluation. */
  function EvalCond(o: Oracle, c: Cond, tr: Trace): (bool, Trace) {
    match c
    case Leaf(e) => (o(tr + [Expr(e)]), tr + [Expr(e)])
    case And(l, r) =>
      var (v, tr1) := EvalCond(o, l, tr);
      if v then EvalCond(o, r, tr1) else (false, tr1)
    case Or(l, r) =>
      var (v, tr1) := EvalCond(o, l, tr);
      if v then (true, tr1) else EvalCond(o, r, tr1)
  }

  datatype Outcome = Normal | Broken | Continued | Returned

  datatype Result = Ended(out: Outcome, tr: Trace) | OutOfFuel

  /** `fuel` bounds the rounds of loops only. */
  function RunStmt(o: Oracle, s: Stmt, tr: Trace, fuel: nat): Result
    decreases fuel, s
  {
    match s
    case Empty => Ended(Normal, tr)
    case Simple(e) => Ended(Normal, tr + [Expr(e)])
    case Decl(_, init) => Ended(Normal, if init.Some? then tr + [Expr(init.value)] else tr)
    case Compound(body) => RunList(o, body, tr, fuel)
    case If(c, first) =>
      var (v, tr1) := EvalCond(o, c, tr);
      if v then RunStmt(o, first, tr1, fuel) else Ended(Normal, tr1)
    case IfElse(c, first, second) =>
      var (v, tr1) := EvalCond(o, c, tr);
      if v then RunStmt(o, first, tr1, fuel) else RunStmt(o, second, tr1, fuel)
    case While(c, loop) =>
      if fuel == 0 then OutOfFuel
      else
        var (v, tr1) := EvalCond(o, c, tr);
        if !v then Ended(Normal, tr1)
        else
          var r := RunStmt(o, loop, tr1, fuel - 1);
          if r.OutOfFuel? then r
          else if r.out == Broken then Ended(Normal, r.tr)
          else if r.out == Returned then r
          else RunStmt(o, s, r.tr, fuel - 1)
    case Break => Ended(Broken, tr)
    case Continue => Ended(Continued, tr)
    case Return(value) => Ended(Returned, if value.Some? then tr + [Expr(value.value), StoreRet] else tr)
  }

  function RunList(o: Oracle, body: seq<Stmt>, tr: Trace, fuel: nat): Result
    decreases fuel, body
  {
    if body == [] then Ended(Normal, tr)
    else
      var r := RunStmt(o, body[0], tr, fuel);
      if r.Ended? && r.out == Normal then RunList(o, body[1..], r.tr, fuel) else r
  }

  function Args(n: nat): Trace {
    if n == 0 then [] else Args(n - 1) + [StoreArg(n - 1)]
  }

  /** What a call does, up to the load of the value it returns: arguments are
      stored, the body runs, and a function that is not void and falls off its end
      returns zero. */
  function RunFunction(o: Oracle, f: FuncDef, fuel: nat): Option<Trace> {
    var r := RunList(o, f.body, Args(f.params), fuel);
    if r.OutOfFuel? then None
    else
      var tr := if r.out == Normal && !f.isVoid then r.tr + [StoreZero] else r.tr;
      Some(if f.isVoid then tr else tr + [LoadRet])
  }
}
