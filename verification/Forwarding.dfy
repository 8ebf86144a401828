/** `insideBlockForwarding` on one block: what its scan collects, and why the
    function behaves the same after the rewriting. */
module Forwarding {
  import opened FlowGraphs
  import opened Ir
  import opened Semantics
  import opened Substitutions
  import opened Trimming

  /** The four tables of the scan: the last store to each local so far
      (`defined_list`), the value it stored (`new_value`), what replaces each load
      (`forward_list`), and the overwritten stores (`delete_list`). */
  datatype Scan = Scan(defined: map<Inst, Inst>, newValue: map<Inst, Value>, forward: map<Inst, Value>,
                       deleted: set<Inst>)

  function ScanStore(s: Scan, i: Inst, v: Inst, rval: Value): Scan {
    Scan(s.defined[v := i], s.newValue[v := Subst(s.forward, rval)], s.forward,
         s.deleted + if v in s.defined then {s.defined[v]} else {})
  }

  function ScanLoad(s: Scan, i: Inst, v: Inst): Scan {
    if v in s.defined && v in s.newValue then s.(forward := s.forward[i := s.newValue[v]]) else s
  }

  function ScanStep(code: Code, s: Scan, i: Inst): Scan {
    match OpOf(code, i)
    case WriteVar(v, rval) => ScanStore(s, i, v, rval)
    case ReadVar(v) => ScanLoad(s, i, v)
    case _ => s
  }

  /** The tables after the first `k` instructions of the list. */
  function ScanUpTo(code: Code, list: seq<Inst>, k: nat): Scan
    requires k <= |list|
  {
    if k == 0 then Scan(map[], map[], map[], {}) else ScanStep(code, ScanUpTo(code, list, k - 1), list[k - 1])
  }

  function ScanAll(code: Code, list: seq<Inst>): Scan {
    ScanUpTo(code, list, |list|)
  }

  lemma ScanUpToStep(code: Code, list: seq<Inst>, k: nat)
    requires k < |list|
    ensures ScanUpTo(code, list, k + 1) == ScanStep(code, ScanUpTo(code, list, k), list[k])
  {
  }

  // ----- what the tables hold -----

  /** The store at `q` is the last one to `v` among the first `k` instructions. */
  ghost predicate LastStore(code: Code, list: seq<Inst>, k: int, v: Inst, q: int) {
    && 0 <= q < k <= |list| && WritesTo(code, list[q], v)
    && forall r :: q < r < k ==> !WritesTo(code, list[r], v)
  }

  ghost predicate ReadsAfterStore(code: Code, list: seq<Inst>, p: int) {
    && 0 <= p < |list| && OpOf(code, list[p]).ReadVar?
    && exists q :: 0 <= q < p && WritesTo(code, list[q], OpOf(code, list[p]).v)
  }

  ghost predicate Overwritten(code: Code, list: seq<Inst>, k: int, p: int) {
    && 0 <= p < k <= |list| && OpOf(code, list[p]).WriteVar?
    && exists q :: p < q < k && WritesTo(code, list[q], OpOf(code, list[p]).v)
  }

  ghost predicate ScanHolds(code: Code, list: seq<Inst>, k: int, s: Scan) {
    && s.defined.Keys == s.newValue.Keys
    && DefinedHolds(code, list, k, s.defined)
    && ForwardHolds(code, list, k, s.forward)
    && DeletedHolds(code, list, k, s.deleted)
  }

  ghost predicate DefinedHolds(code: Code, list: seq<Inst>, k: int, defined: map<Inst, Inst>) {
    && (forall v, q :: LastStore(code, list, k, v, q) ==> v in defined && defined[v] == list[q])
    && (forall v :: v in defined ==> exists q :: LastStore(code, list, k, v, q))
  }

  ghost predicate ForwardHolds(code: Code, list: seq<Inst>, k: int, forward: map<Inst, Value>) {
    && (forall p :: 0 <= p < k && ReadsAfterStore(code, list, p) ==> list[p] in forward)
    && (forall i :: i in forward ==> exists p :: 0 <= p < k && ReadsAfterStore(code, list, p) && list[p] == i)
  }

  ghost predicate DeletedHolds(code: Code, list: seq<Inst>, k: int, deleted: set<Inst>) {
    && (forall p :: Overwritten(code, list, k, p) ==> list[p] in deleted)
    && (forall i :: i in deleted ==> exists p :: Overwritten(code, list, k, p) && list[p] == i)
  }

  lemma {:induction false} LastStoreExists(code: Code, list: seq<Inst>, k: int, v: Inst, q: int) returns (r: int)
    requires 0 <= q < k <= |list| && WritesTo(code, list[q], v)
    ensures LastStore(code, list, k, v, r) && q <= r
    decreases k - q
  {
    if j :| q < j < k && WritesTo(code, list[j], v) {
      r := LastStoreExists(code, list, k, v, j);
    } else {
      r := q;
    }
  }

  lemma LastStoreStep(code: Code, list: seq<Inst>, k: int, v: Inst, q: int)
    requires 0 <= k < |list|
    ensures LastStore(code, list, k + 1, v, q) <==>
            if WritesTo(code, list[k], v) then q == k else LastStore(code, list, k, v, q)
  {
  }

  lemma OverwrittenStep(code: Code, list: seq<Inst>, k: int, p: int)
    requires 0 <= k < |list|
    ensures Overwritten(code, list, k + 1, p) <==>
            Overwritten(code, list, k, p)
            || (OpOf(code, list[k]).WriteVar? && LastStore(code, list, k, OpOf(code, list[k]).v, p))
  {
    if Overwritten(code, list, k + 1, p) && !Overwritten(code, list, k, p) {
      var q :| p < q < k + 1 && WritesTo(code, list[q], OpOf(code, list[p]).v);
      assert q == k;
    }
    if OpOf(code, list[k]).WriteVar? && LastStore(code, list, k, OpOf(code, list[k]).v, p) {
      assert WritesTo(code, list[k], OpOf(code, list[p]).v);
    }
  }

  lemma DefinedKept(code: Code, list: seq<Inst>, k: nat, defined: map<Inst, Inst>)
    requires k < |list| && DefinedHolds(code, list, k, defined) && !OpOf(code, list[k]).WriteVar?
    ensures DefinedHolds(code, list, k + 1, defined)
  {
    forall v, q
      ensures LastStore(code, list, k + 1, v, q) <==> LastStore(code, list, k, v, q)
    {
      LastStoreStep(code, list, k, v, q);
    }
  }

  lemma DefinedStored(code: Code, list: seq<Inst>, k: nat, defined: map<Inst, Inst>, v: Inst, rval: Value)
    requires k < |list| && DefinedHolds(code, list, k, defined) && OpOf(code, list[k]) == WriteVar(v, rval)
    ensures DefinedHolds(code, list, k + 1, defined[v := list[k]])
  {
    forall u, q
      ensures LastStore(code, list, k + 1, u, q) <==> if u == v then q == k else LastStore(code, list, k, u, q)
    {
      LastStoreStep(code, list, k, u, q);
    }
    var defined', k' := defined[v := list[k]], k + 1;
    assert LastStore(code, list, k', v, k);
    forall u | u in defined'
      ensures exists q :: LastStore(code, list, k', u, q)
    {
      if u != v {
        var q :| LastStore(code, list, k, u, q);
        assert LastStore(code, list, k', u, q);
      }
    }
  }

  lemma DeletedKept(code: Code, list: seq<Inst>, k: nat, deleted: set<Inst>)
    requires k < |list| && DeletedHolds(code, list, k, deleted) && !OpOf(code, list[k]).WriteVar?
    ensures DeletedHolds(code, list, k + 1, deleted)
  {
    forall p
      ensures Overwritten(code, list, k + 1, p) <==> Overwritten(code, list, k, p)
    {
      OverwrittenStep(code, list, k, p);
    }
  }

  lemma DeletedStored(code: Code, list: seq<Inst>, k: nat, defined: map<Inst, Inst>, deleted: set<Inst>, v: Inst,
                      rval: Value)
    requires k < |list| && OpOf(code, list[k]) == WriteVar(v, rval)
    requires DefinedHolds(code, list, k, defined) && DeletedHolds(code, list, k, deleted)
    ensures DeletedHolds(code, list, k + 1, deleted + if v in defined then {defined[v]} else {})
  {
    forall p
      ensures Overwritten(code, list, k + 1, p) <==> Overwritten(code, list, k, p) || LastStore(code, list, k, v, p)
    {
      OverwrittenStep(code, list, k, p);
    }
    var deleted' := deleted + if v in defined then {defined[v]} else {};
    forall i | i in deleted'
      ensures exists p :: Overwritten(code, list, k + 1, p) && list[p] == i
    {
      if i in deleted {
        var p :| Overwritten(code, list, k, p) && list[p] == i;
        assert Overwritten(code, list, k + 1, p);
      } else {
        var q :| LastStore(code, list, k, v, q);
        assert Overwritten(code, list, k + 1, q);
      }
    }
  }

  lemma ForwardKept(code: Code, list: seq<Inst>, k: nat, forward: map<Inst, Value>)
    requires k < |list| && ForwardHolds(code, list, k, forward) && !ReadsAfterStore(code, list, k)
    ensures ForwardHolds(code, list, k + 1, forward)
  {
    forall i | i in forward
      ensures exists p :: 0 <= p < k + 1 && ReadsAfterStore(code, list, p) && list[p] == i
    {
      var p :| 0 <= p < k && ReadsAfterStore(code, list, p) && list[p] == i;
    }
  }

  lemma ForwardLoaded(code: Code, list: seq<Inst>, k: nat, forward: map<Inst, Value>, w: Value)
    requires k < |list| && ForwardHolds(code, list, k, forward) && ReadsAfterStore(code, list, k)
    ensures ForwardHolds(code, list, k + 1, forward[list[k] := w])
  {
    var forward' := forward[list[k] := w];
    forall i | i in forward'
      ensures exists p :: 0 <= p < k + 1 && ReadsAfterStore(code, list, p) && list[p] == i
    {
      if i != list[k] {
        var p :| 0 <= p < k && ReadsAfterStore(code, list, p) && list[p] == i;
      }
    }
  }

  lemma StoredIffDefined(code: Code, list: seq<Inst>, k: nat, defined: map<Inst, Inst>, v: Inst)
    requires k <= |list| && DefinedHolds(code, list, k, defined)
    ensures v in defined <==> exists q :: 0 <= q < k && WritesTo(code, list[q], v)
  {
    if q :| 0 <= q < k && WritesTo(code, list[q], v) {
      var r := LastStoreExists(code, list, k, v, q);
    }
    if v in defined {
      var q :| LastStore(code, list, k, v, q);
    }
  }

  lemma ScanHoldsStep(code: Code, list: seq<Inst>, k: nat, s: Scan)
    requires k < |list| && ScanHolds(code, list, k, s)
    ensures ScanHolds(code, list, k + 1, ScanStep(code, s, list[k]))
  {
    hide DefinedHolds, DeletedHolds, ForwardHolds;
    match OpOf(code, list[k])
    case WriteVar(v, rval) =>
      DefinedStored(code, list, k, s.defined, v, rval);
      DeletedStored(code, list, k, s.defined, s.deleted, v, rval);
      ForwardKept(code, list, k, s.forward);
    case ReadVar(v) =>
      StoredIffDefined(code, list, k, s.defined, v);
      DefinedKept(code, list, k, s.defined);
      DeletedKept(code, list, k, s.deleted);
      if v in s.defined {
        ForwardLoaded(code, list, k, s.forward, s.newValue[v]);
      } else {
        ForwardKept(code, list, k, s.forward);
      }
    case _ =>
      DefinedKept(code, list, k, s.defined);
      DeletedKept(code, list, k, s.deleted);
      ForwardKept(code, list, k, s.forward);
  }

  lemma ScanHoldsNone(code: Code, list: seq<Inst>)
    ensures ScanHolds(code, list, 0, ScanUpTo(code, list, 0))
  {
  }

  lemma {:induction false} ScanHoldsUpTo(code: Code, list: seq<Inst>, k: nat)
    requires k <= |list|
    ensures ScanHolds(code, list, k, ScanUpTo(code, list, k))
    decreases k
  {
    hide ScanHolds, ScanStep;
    if k == 0 {
      ScanHoldsNone(code, list);
    } else {
      ScanHoldsUpTo(code, list, k - 1);
      ScanHoldsStep(code, list, k - 1, ScanUpTo(code, list, k - 1));
    }
  }

  // ----- replacements are ready -----

  ghost predicate ScanOf(p: Code, b: Block, fin: Scan) {
    WellFormed(p) && NoPhis(p) && b in p.instrs && fin == ScanAll(p, p.instrs[b])
  }

  lemma ScanOfParts(p: Code, b: Block, fin: Scan)
    requires ScanOf(p, b, fin)
    ensures b in p.instrs && PlacedOnce(p.instrs) && LocalsAreScalars(p) && UsesDefined(p)
    ensures ScanHolds(p, p.instrs[b], |p.instrs[b]|, fin)
    ensures ReplacesLoads(p, fin.forward) && DropsLocals(p, fin.forward, fin.forward.Keys + fin.deleted)
    ensures forall i :: i in fin.deleted ==> OpOf(p, i).WriteVar?
  {
    ScanHoldsUpTo(p, p.instrs[b], |p.instrs[b]|);
  }

  lemma ForwardGrowsStep(p: Code, b: Block, k: nat)
    requires b in p.instrs && PlacedOnce(p.instrs) && k < |p.instrs[b]|
    ensures forall i :: i in ScanUpTo(p, p.instrs[b], k).forward ==>
      i in ScanUpTo(p, p.instrs[b], k + 1).forward
      && ScanUpTo(p, p.instrs[b], k + 1).forward[i] == ScanUpTo(p, p.instrs[b], k).forward[i]
  {
    var list := p.instrs[b];
    var s := ScanUpTo(p, list, k);
    ScanHoldsUpTo(p, list, k);
    assert ScanUpTo(p, list, k + 1) == ScanStep(p, s, list[k]);
    forall i | i in s.forward
      ensures i != list[k]
    {
      var m :| 0 <= m < k && ReadsAfterStore(p, list, m) && list[m] == i;
      assert IsAt(p, b, m, i);
      if i == list[k] {
        PositionUnique(p, b, m, b, k, i);
      }
    }
  }

  /** The table of replacements only grows. */
  lemma {:induction false} ForwardGrows(p: Code, b: Block, fin: Scan, k: nat)
    requires b in p.instrs && PlacedOnce(p.instrs) && fin == ScanAll(p, p.instrs[b]) && k <= |p.instrs[b]|
    ensures forall i :: i in ScanUpTo(p, p.instrs[b], k).forward ==>
      i in fin.forward && fin.forward[i] == ScanUpTo(p, p.instrs[b], k).forward[i]
    decreases |p.instrs[b]| - k
  {
    if k < |p.instrs[b]| {
      hide ScanUpTo, ScanAll, PlacedOnce;
      ForwardGrowsStep(p, b, k);
      ForwardGrows(p, b, fin, k + 1);
    }
  }

  /** A forwarded load that can be used at `k` was met before `k`. */
  lemma ForwardedByThen(p: Code, b: Block, fin: Scan, k: nat, j: Inst)
    requires ScanOf(p, b, fin) && k <= |p.instrs[b]| && j in fin.forward && Available(p, j, b, k)
    ensures j in ScanUpTo(p, p.instrs[b], k).forward
  {
    var list := p.instrs[b];
    ScanOfParts(p, b, fin);
    hide ScanOf, WellFormed;
    ScanHoldsUpTo(p, list, k);
    var m :| 0 <= m < |list| && ReadsAfterStore(p, list, m) && list[m] == j;
    assert IsAt(p, b, m, j);
    var c, q :| IsAt(p, c, q, j) && Passed(p, c, q, j, b, k);
    PositionUnique(p, b, m, c, q, j);
  }

  lemma SubstStable(p: Code, b: Block, fin: Scan, k: nat, v: Value)
    requires ScanOf(p, b, fin) && k <= |p.instrs[b]| && (v.Res? ==> Available(p, v.i, b, k))
    ensures Subst(ScanUpTo(p, p.instrs[b], k).forward, v) == Subst(fin.forward, v)
    ensures v.Res? && v.i in fin.forward ==> v.i in ScanUpTo(p, p.instrs[b], k).forward
  {
    ScanOfParts(p, b, fin);
    ForwardGrows(p, b, fin, k);
    if v.Res? && v.i in fin.forward {
      ForwardedByThen(p, b, fin, k, v.i);
    }
  }

  ghost predicate NewValuesReady(p: Code, sub: map<Inst, Value>, newValue: map<Inst, Value>, b: Block, k: int) {
    forall v :: v in newValue ==> ReadyAt(p, sub, newValue[v], b, k)
  }

  ghost predicate ForwardReady(p: Code, sub: map<Inst, Value>, forward: map<Inst, Value>, b: Block, k: int) {
    forall i, m :: i in forward && IsAt(p, b, m, i) ==> m < k && ReadyAt(p, sub, forward[i], b, m)
  }

  lemma NewValuesLater(p: Code, sub: map<Inst, Value>, newValue: map<Inst, Value>, b: Block, k: int)
    requires NewValuesReady(p, sub, newValue, b, k)
    ensures NewValuesReady(p, sub, newValue, b, k + 1)
  {
    hide ReadyAt;
    forall v | v in newValue
      ensures ReadyAt(p, sub, newValue[v], b, k + 1)
    {
      ReadyLater(p, sub, newValue[v], b, k, k + 1);
    }
  }

  lemma NewValuesStored(p: Code, sub: map<Inst, Value>, newValue: map<Inst, Value>, b: Block, k: int, v: Inst, w: Value)
    requires NewValuesReady(p, sub, newValue, b, k) && ReadyAt(p, sub, w, b, k)
    ensures NewValuesReady(p, sub, newValue[v := w], b, k)
  {
    hide ReadyAt;
  }

  lemma ForwardReadyLoaded(p: Code, sub: map<Inst, Value>, forward: map<Inst, Value>, b: Block, k: int, i: Inst,
                           w: Value)
    requires PlacedOnce(p.instrs) && IsAt(p, b, k, i)
    requires ForwardReady(p, sub, forward, b, k) && ReadyAt(p, sub, w, b, k)
    ensures ForwardReady(p, sub, forward[i := w], b, k + 1)
  {
    hide ReadyAt;
    forall m | IsAt(p, b, m, i)
      ensures m == k
    {
      PositionUnique(p, b, m, b, k, i);
    }
  }

  lemma ForwardReadyKept(p: Code, sub: map<Inst, Value>, forward: map<Inst, Value>, b: Block, k: int)
    requires ForwardReady(p, sub, forward, b, k)
    ensures ForwardReady(p, sub, forward, b, k + 1)
  {
    hide ReadyAt;
  }

  lemma NewValuesStep(p: Code, b: Block, fin: Scan, k: nat, s: Scan)
    requires ScanOf(p, b, fin) && b in p.instrs && k < |p.instrs[b]| && s == ScanUpTo(p, p.instrs[b], k)
    requires NewValuesReady(p, fin.forward, s.newValue, b, k)
    requires ForwardReady(p, fin.forward, s.forward, b, k)
    ensures NewValuesReady(p, fin.forward, ScanStep(p, s, p.instrs[b][k]).newValue, b, k + 1)
  {
    hide ScanOf, NewValuesReady, ForwardReady, ScanUpTo, OpOf;
    NewValuesLater(p, fin.forward, s.newValue, b, k);
    match OpOf(p, p.instrs[b][k])
    case WriteVar(v, rval) =>
      StoredValueReady(p, b, fin, k, v, rval);
      NewValuesStored(p, fin.forward, s.newValue, b, k + 1, v, Subst(s.forward, rval));
    case _ =>
  }

  lemma ForwardStep(p: Code, b: Block, fin: Scan, k: nat)
    requires ScanOf(p, b, fin) && b in p.instrs && k < |p.instrs[b]|
    requires NewValuesReady(p, fin.forward, ScanUpTo(p, p.instrs[b], k).newValue, b, k)
    requires ForwardReady(p, fin.forward, ScanUpTo(p, p.instrs[b], k).forward, b, k)
    ensures ForwardReady(p, fin.forward, ScanUpTo(p, p.instrs[b], k + 1).forward, b, k + 1)
  {
    var list := p.instrs[b];
    var s, i := ScanUpTo(p, list, k), list[k];
    assert ScanUpTo(p, list, k + 1) == ScanStep(p, s, i);
    ScanOfParts(p, b, fin);
    hide ScanOf, NewValuesReady, ForwardReady, ScanUpTo;
    ForwardReadyKept(p, fin.forward, s.forward, b, k);
    if OpOf(p, i).ReadVar? {
      var v := OpOf(p, i).v;
      if v in s.defined && v in s.newValue {
        NewValueReadyHere(p, fin.forward, s.newValue, b, k, v);
        ForwardReadyLoaded(p, fin.forward, s.forward, b, k, i, s.newValue[v]);
      }
    }
  }

  lemma NewValueReadyHere(p: Code, sub: map<Inst, Value>, newValue: map<Inst, Value>, b: Block, k: int, v: Inst)
    requires NewValuesReady(p, sub, newValue, b, k) && v in newValue
    ensures ReadyAt(p, sub, newValue[v], b, k)
  {
  }

  lemma StoredValueUsable(p: Code, b: Block, fin: Scan, k: nat, v: Inst, rval: Value)
    requires ScanOf(p, b, fin) && k < |p.instrs[b]| && OpOf(p, p.instrs[b][k]) == WriteVar(v, rval) && rval.Res?
    ensures Available(p, rval.i, b, k) && HasResult(OpOf(p, rval.i))
  {
    assert IsAt(p, b, k, p.instrs[b][k]);
    assert rval in Used(OpOf(p, p.instrs[b][k]));
  }

  lemma ForwardedAtHere(p: Code, b: Block, k: nat, sub: map<Inst, Value>, i: Inst)
    requires b in p.instrs && k <= |p.instrs[b]| && i in ScanUpTo(p, p.instrs[b], k).forward
    requires ForwardReady(p, sub, ScanUpTo(p, p.instrs[b], k).forward, b, k)
    ensures ReadyAt(p, sub, ScanUpTo(p, p.instrs[b], k).forward[i], b, k)
  {
    hide ReadyAt;
    ScanHoldsUpTo(p, p.instrs[b], k);
    var m :| 0 <= m < k && ReadsAfterStore(p, p.instrs[b], m) && p.instrs[b][m] == i;
    assert IsAt(p, b, m, i);
    ReadyLater(p, sub, ScanUpTo(p, p.instrs[b], k).forward[i], b, m, k);
  }

  lemma StoredValueReady(p: Code, b: Block, fin: Scan, k: nat, v: Inst, rval: Value)
    requires ScanOf(p, b, fin) && b in p.instrs && k < |p.instrs[b]| && OpOf(p, p.instrs[b][k]) == WriteVar(v, rval)
    requires ForwardReady(p, fin.forward, ScanUpTo(p, p.instrs[b], k).forward, b, k)
    ensures ReadyAt(p, fin.forward, Subst(ScanUpTo(p, p.instrs[b], k).forward, rval), b, k + 1)
  {
    hide ScanOf, OpOf, ScanUpTo, ForwardReady;
    if rval.Res? {
      StoredValueUsable(p, b, fin, k, v, rval);
      SubstStable(p, b, fin, k, rval);
      if rval.i in ScanUpTo(p, p.instrs[b], k).forward {
        ForwardedAtHere(p, b, k, fin.forward, rval.i);
      }
      ReadyLater(p, fin.forward, Subst(ScanUpTo(p, p.instrs[b], k).forward, rval), b, k, k + 1);
    }
  }

  lemma {:induction false} ScanReady(p: Code, b: Block, fin: Scan, k: nat)
    requires ScanOf(p, b, fin) && b in p.instrs && k <= |p.instrs[b]|
    ensures NewValuesReady(p, fin.forward, ScanUpTo(p, p.instrs[b], k).newValue, b, k)
    ensures ForwardReady(p, fin.forward, ScanUpTo(p, p.instrs[b], k).forward, b, k)
    decreases k
  {
    hide ScanOf, NewValuesReady, ForwardReady, ScanUpTo, ReadyAt, OpOf;
    if k > 0 {
      ScanReady(p, b, fin, k - 1);
      ScanUpToStep(p, p.instrs[b], k - 1);
      NewValuesStep(p, b, fin, k - 1, ScanUpTo(p, p.instrs[b], k - 1));
      ForwardStep(p, b, fin, k - 1);
    } else {
      NothingScanned(p, b, fin);
    }
  }

  lemma NothingScanned(p: Code, b: Block, fin: Scan)
    requires b in p.instrs
    ensures NewValuesReady(p, fin.forward, ScanUpTo(p, p.instrs[b], 0).newValue, b, 0)
    ensures ForwardReady(p, fin.forward, ScanUpTo(p, p.instrs[b], 0).forward, b, 0)
  {
  }

  /** What replaces a load is defined wherever the load was, and stays. */
  lemma ForwardedAreReady(p: Code, b: Block, fin: Scan)
    requires ScanOf(p, b, fin)
    ensures ReplacementsReady(p, fin.forward)
  {
    var list := p.instrs[b];
    ScanReady(p, b, fin, |list|);
    ScanOfParts(p, b, fin);
    hide WellFormed;
    forall i, c, m | i in fin.forward && IsAt(p, c, m, i)
      ensures ReadyAt(p, fin.forward, fin.forward[i], c, m)
    {
      var r :| 0 <= r < |list| && ReadsAfterStore(p, list, r) && list[r] == i;
      assert IsAt(p, b, r, i);
      PositionUnique(p, b, r, c, m, i);
    }
  }
}
