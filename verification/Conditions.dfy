/** What the blocks of a condition do, for conditions of any shape, and for which
    shapes that is short-circuit evaluation. */
module Conditions {
  import opened Statements

  /** The blocks of a condition end with its last operand still to decide, or leave
      for a target before. */
  datatype Way = Falls | ToYes | ToNo

  /** Under a `||` the true target is that of the whole condition, also for what
      stands on the left of a `&&`. */
  function RunCond(o: Oracle, c: Cond, tr: Trace): (Way, Trace) {
    match c
    case Leaf(e) => (Falls, tr + [Expr(e)])
    case And(l, r) =>
      var (w, tr1) := RunCond(o, l, tr);
      if w != Falls then (w, tr1) else if o(tr1) then RunCond(o, r, tr1) else (ToNo, tr1)
    case Or(l, r) =>
      var (w, tr1) := RunCond(o, l, tr);
      if w == ToYes || (w == Falls && o(tr1)) then (ToYes, tr1) else RunCond(o, r, tr1)
  }

  /** With the branch at the end. */
  function RunTest(o: Oracle, c: Cond, tr: Trace): (bool, Trace) {
    var (w, tr1) := RunCond(o, c, tr);
    (w == ToYes || (w == Falls && o(tr1)), tr1)
  }

  // ----- conditions of the right shape -----

  lemma {:induction false} PlainIsShaped(c: Cond)
    requires Plain(c)
    ensures WellShaped(c)
  {
    if c.And? {
      PlainIsShaped(c.r);
    }
  }

  /** Without `||` the blocks never leave for the true target. */
  lemma {:induction false} PlainNeverToYes(o: Oracle, c: Cond, tr: Trace)
    requires Plain(c)
    ensures RunCond(o, c, tr).0 != ToYes
  {
    if c.And? {
      PlainNeverToYes(o, c.l, tr);
      PlainNeverToYes(o, c.r, RunCond(o, c.l, tr).1);
    }
  }

  lemma {:induction false} ShapedRuns(o: Oracle, c: Cond, tr: Trace)
    requires WellShaped(c)
    ensures RunTest(o, c, tr) == EvalCond(o, c, tr)
  {
    match c
    case Leaf(e) =>
    case And(l, r) =>
      PlainIsShaped(l);
      PlainNeverToYes(o, l, tr);
      ShapedRuns(o, l, tr);
      ShapedRuns(o, r, RunCond(o, l, tr).1);
    case Or(l, r) =>
      ShapedRuns(o, l, tr);
      ShapedRuns(o, r, RunCond(o, l, tr).1);
  }

  // ----- and no others -----

  /** An oracle that goes by how much has been computed. */
  function Counting(decide: nat -> bool): Oracle {
    (tr: Trace) => decide(|tr|)
  }

  lemma {:induction false} EvalGrows(o: Oracle, c: Cond, tr: Trace)
    ensures |EvalCond(o, c, tr).1| > |tr|
  {
    match c
    case Leaf(e) =>
    case And(l, r) =>
      EvalGrows(o, l, tr);
      EvalGrows(o, r, EvalCond(o, l, tr).1);
    case Or(l, r) =>
      EvalGrows(o, l, tr);
      EvalGrows(o, r, EvalCond(o, l, tr).1);
  }

  lemma {:induction false} RunGrows(o: Oracle, c: Cond, tr: Trace)
    ensures |RunCond(o, c, tr).1| > |tr|
  {
    match c
    case Leaf(e) =>
    case And(l, r) =>
      RunGrows(o, l, tr);
      RunGrows(o, r, RunCond(o, l, tr).1);
    case Or(l, r) =>
      RunGrows(o, l, tr);
      RunGrows(o, r, RunCond(o, l, tr).1);
  }

  ghost predicate SameBetween(d: nat -> bool, d': nat -> bool, low: nat, high: nat) {
    forall n: nat :: low < n <= high ==> d'(n) == d(n)
  }

  /** Only decisions about what has been computed meanwhile matter. */
  lemma {:induction false} EvalLocal(d: nat -> bool, d': nat -> bool, c: Cond, tr: Trace)
    requires SameBetween(d, d', |tr|, |EvalCond(Counting(d), c, tr).1|)
    ensures EvalCond(Counting(d'), c, tr) == EvalCond(Counting(d), c, tr)
  {
    if !c.Leaf? {
      var (v, tr1) := EvalCond(Counting(d), c.l, tr);
      EvalGrows(Counting(d), c.l, tr);
      EvalGrows(Counting(d), c.r, tr1);
      EvalLocal(d, d', c.l, tr);
      if v == c.And? {
        EvalLocal(d, d', c.r, tr1);
      }
    }
  }

  lemma {:induction false} RunLocal(d: nat -> bool, d': nat -> bool, c: Cond, tr: Trace)
    requires SameBetween(d, d', |tr|, |RunCond(Counting(d), c, tr).1|)
    ensures RunCond(Counting(d'), c, tr) == RunCond(Counting(d), c, tr)
  {
    if !c.Leaf? {
      var (w, tr1) := RunCond(Counting(d), c.l, tr);
      RunGrows(Counting(d), c.l, tr);
      RunGrows(Counting(d), c.r, tr1);
      RunLocal(d, d', c.l, tr);
      if tr1 != RunCond(Counting(d), c, tr).1 {
        RunLocal(d, d', c.r, tr1);
      }
    }
  }

  function Always(v: bool): nat -> bool {
    n => v
  }

  /** When everything decides for true, the blocks leave early exactly if there is a
      `||`, and compute no more than evaluation does. */
  lemma {:induction false} AllTrue(c: Cond, tr: Trace)
    ensures var o := Counting(Always(true)); var (w, tr1) := RunCond(o, c, tr); var (v, tr2) := EvalCond(o, c, tr);
            v && |tr1| <= |tr2| && if Plain(c) then w == Falls && tr1 == tr2 else w == ToYes
  {
    var o := Counting(Always(true));
    if !c.Leaf? {
      AllTrue(c.l, tr);
      EvalGrows(o, c.r, EvalCond(o, c.l, tr).1);
      if c.And? {
        AllTrue(c.r, EvalCond(o, c.l, tr).1);
      }
    }
  }

  lemma {:induction false} AllFalse(c: Cond, tr: Trace)
    ensures !EvalCond(Counting(Always(false)), c, tr).0
  {
    if !c.Leaf? {
      AllFalse(c.l, tr);
      AllFalse(c.r, EvalCond(Counting(Always(false)), c.l, tr).1);
    }
  }

  /** `first` until `size` has been computed, then as `d` has it. */
  function Switch(first: bool, size: nat, d: nat -> bool): nat -> bool {
    n => if n <= size then first else d(n)
  }

  /** The first operand decides `first` throughout, the second as `d` has it. */
  lemma Steered(c: Cond, first: bool, tr: Trace, d: nat -> bool)
    requires !c.Leaf?
    ensures var tr1 := EvalCond(Counting(Always(first)), c.l, tr).1; var o := Counting(Switch(first, |tr1|, d));
            EvalCond(o, c.l, tr) == EvalCond(Counting(Always(first)), c.l, tr)
            && EvalCond(o, c.r, tr1) == EvalCond(Counting(d), c.r, tr1)
            && RunCond(o, c.r, tr1) == RunCond(Counting(d), c.r, tr1)
  {
    var tr1 := EvalCond(Counting(Always(first)), c.l, tr).1;
    var d' := Switch(first, |tr1|, d);
    EvalLocal(Always(first), d', c.l, tr);
    EvalLocal(d, d', c.r, tr1);
    RunLocal(d, d', c.r, tr1);
  }

  /** The second operand is reached, and runs as on its own. */
  lemma SecondReached(c: Cond, tr: Trace, d: nat -> bool)
    requires (c.And? && Plain(c.l)) || (c.Or? && WellShaped(c.l))
    ensures var tr1 := EvalCond(Counting(Always(c.And?)), c.l, tr).1; var o := Counting(Switch(c.And?, |tr1|, d));
            RunTest(o, c, tr) == RunTest(o, c.r, tr1) && EvalCond(o, c, tr) == EvalCond(o, c.r, tr1)
  {
    var tr1 := EvalCond(Counting(Always(c.And?)), c.l, tr).1;
    var o := Counting(Switch(c.And?, |tr1|, d));
    Steered(c, c.And?, tr, d);
    if c.And? {
      PlainIsShaped(c.l);
      PlainNeverToYes(o, c.l, tr);
      AllTrue(c.l, tr);
    } else {
      AllFalse(c.l, tr);
    }
    ShapedRuns(o, c.l, tr);
  }

  /** A condition of another shape can leave for the true target before evaluation
      would be done. */
  lemma {:induction false} Breaks(c: Cond, tr: Trace) returns (d: nat -> bool)
    requires !WellShaped(c)
    ensures var o := Counting(d); RunTest(o, c, tr).0 && |RunTest(o, c, tr).1| < |EvalCond(o, c, tr).1|
  {
    if (c.And? && Plain(c.l)) || (c.Or? && WellShaped(c.l)) {
      var tr1 := EvalCond(Counting(Always(c.And?)), c.l, tr).1;
      var d2 := Breaks(c.r, tr1);
      EvalGrows(Counting(d2), c.r, tr1);
      d := Switch(c.And?, |tr1|, d2);
      Steered(c, c.And?, tr, d2);
      SecondReached(c, tr, d2);
      RunGrows(Counting(d2), c.r, tr1);
    } else {
      if c.And? {
        d := Always(true);
        AllTrue(c.l, tr);
      } else {
        d := Breaks(c.l, tr);
      }
      EvalGrows(Counting(d), c.r, EvalCond(Counting(d), c.l, tr).1);
    }
  }

  /** The blocks evaluate a condition as the language does, whatever its operands
      decide, if and only if it has no `||` on the left of a `&&`. */
  lemma ShapeIsExact(c: Cond)
    ensures (forall o: Oracle, tr :: RunTest(o, c, tr) == EvalCond(o, c, tr)) <==> WellShaped(c)
  {
    if WellShaped(c) {
      forall o: Oracle, tr
        ensures RunTest(o, c, tr) == EvalCond(o, c, tr)
      {
        ShapedRuns(o, c, tr);
      }
    } else {
      var d := Breaks(c, []);
      assert RunTest(Counting(d), c, []) != EvalCond(Counting(d), c, []);
    }
  }
}
