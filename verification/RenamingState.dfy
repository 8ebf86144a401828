/** The function while it is being renamed: which blocks are finished, what the
    operands hold, and which pairs the phis have been given. */
module RenamingState {
  import opened FlowGraphs
  import opened Ir
  import opened Semantics
  import opened Substitutions
  import opened Keeping
  import opened Trimming
  import opened PhiPlacement
  import opened ReachingDefinitions
  import opened Renaming
  import opened RenamingRuns
  import opened RenamingSteps

  predicate IsVarOp(op: Op) {
    op.ReadVar? || op.WriteVar?
  }

  /** The loads and stores of locals in a block. */
  function VarOps(p: Code, b: Block): set<Inst> {
    set i | i in ListOf(p, b) && IsVarOp(OpOf(p, i))
  }

  /** Finished blocks have lost their loads and stores of locals. */
  ghost predicate InstrsRenamed(p: Code, finished: set<Block>, instrs: map<Block, seq<Inst>>) {
    && instrs.Keys == p.instrs.Keys
    && forall c :: c in p.instrs ==> instrs[c] == if c in finished then Keep(p.instrs[c], VarOps(p, c)) else p.instrs[c]
  }

  ghost predicate OperandsRenamed(p: Code, rho: map<Inst, Value>, instrs: map<Block, seq<Inst>>,
                                  operands: map<Inst, seq<Value>>)
  {
    forall i :: Live(instrs, i) && !OpOf(p, i).PhiOp? ==>
      i in p.operands && i in operands && operands[i] == SubstAll(rho, p.operands[i])
  }

  ghost predicate PhiOperandsKnown(p: Code, operands: map<Inst, seq<Value>>) {
    forall d, k, i :: IsAt(p, d, k, i) && OpOf(p, i).PhiOp? ==>
      i in operands && forall v :: v in operands[i] ==> Known(p, v)
  }

  ghost predicate CodeState(p: Code, n: Names, finished: set<Block>, sent: map<Block, seq<Block>>,
                            instrs: map<Block, seq<Inst>>, operands: map<Inst, seq<Value>>)
  {
    && InstrsRenamed(p, finished, instrs) && OperandsRenamed(p, n.rho, instrs, operands)
    && PhiPairs(p, n, sent, operands) && PhiOperandsKnown(p, operands)
  }

  /** Use lists are out of date only for replaced loads and for what the function does not hold. */
  ghost predicate StaleReplaced(p: Code, rho: map<Inst, Value>, stale: set<Value>) {
    forall v :: v in stale ==> v.Res? && (v.i in rho || !Live(p.instrs, v.i))
  }

  // ----- what the code relies on -----

  lemma LiveBefore(p: Code, finished: set<Block>, instrs: map<Block, seq<Inst>>, i: Inst)
    requires InstrsRenamed(p, finished, instrs) && Live(instrs, i)
    ensures Live(p.instrs, i)
  {
    var b :| b in instrs && i in instrs[b];
    KeepContents(p.instrs[b], VarOps(p, b));
    assert b in p.instrs && i in p.instrs[b];
  }

  lemma LivePlace(instrs: map<Block, seq<Inst>>, p: Code, i: Inst) returns (b: Block, k: int)
    requires Live(p.instrs, i)
    ensures IsAt(p, b, k, i)
  {
    b :| b in p.instrs && i in p.instrs[b];
    k :| 0 <= k < |p.instrs[b]| && p.instrs[b][k] == i;
  }

  lemma LiveHasOperands(p: Code, n: Names, finished: set<Block>, sent: map<Block, seq<Block>>,
                        instrs: map<Block, seq<Inst>>, operands: map<Inst, seq<Value>>)
    requires CodeState(p, n, finished, sent, instrs, operands)
    ensures forall u :: Live(instrs, u) ==> u in operands
  {
    hide OpOf, PhiPairs, Known, SubstAll, Live;
    forall u | Live(instrs, u)
      ensures u in operands
    {
      LiveBefore(p, finished, instrs, u);
      var b, k := LivePlace(instrs, p, u);
    }
  }

  lemma PlacedOnceRenamed(p: Code, finished: set<Block>, instrs: map<Block, seq<Inst>>)
    requires PlacedOnce(p.instrs) && InstrsRenamed(p, finished, instrs)
    ensures PlacedOnce(instrs)
  {
    forall c, d, r, s | c in instrs && d in instrs && 0 <= r < |instrs[c]| && 0 <= s < |instrs[d]|
                        && instrs[c][r] == instrs[d][s]
      ensures c == d && r == s
    {
      var m, k := r, s;
      if c in finished { m := KeptFrom(p.instrs[c], VarOps(p, c), r); }
      if d in finished { k := KeptFrom(p.instrs[d], VarOps(p, d), s); }
      assert p.instrs[c][m] == p.instrs[d][k];
    }
  }

  lemma NotStale(p: Code, n: Names, stale: set<Value>, v: Value)
    requires StaleReplaced(p, n.rho, stale) && ReplacesLoads(p, n.rho) && Known(p, v)
    ensures v !in stale
  {
    hide OpOf, Live;
  }

  /** The instruction at `k`, in a block not finished, as the pass reads it. */
  lemma ReadsLocal(p: Code, n: Names, finished: set<Block>, sent: map<Block, seq<Block>>, q: Code, b: Block, k: int,
                   i: Inst)
    requires LocalsAreScalars(p) && ReplacesLoads(p, n.rho) && CodeState(p, n, finished, sent, q.instrs, q.operands)
             && q.kind == p.kind
    requires IsAt(p, b, k, i) && b !in finished && !OpOf(p, i).PhiOp?
    ensures i in q.kind && i in q.operands
    ensures IsLocalVarOp(q, i) <==> IsVarOp(OpOf(p, i))
    ensures OpOf(p, i).ReadVar? ==> q.kind[i] == Load && |q.operands[i]| == 1 && q.operands[i][0] == Res(OpOf(p, i).v)
    ensures OpOf(p, i).WriteVar? ==> q.kind[i] == Store && |q.operands[i]| == 2
    ensures OpOf(p, i).WriteVar? ==>
              q.operands[i][1] == Res(OpOf(p, i).v) && q.operands[i][0] == Subst(n.rho, OpOf(p, i).rval)
  {
    assert q.instrs[b] == p.instrs[b];
    assert Live(q.instrs, i);
    hide PhiPairs, PhiOperandsKnown, InstrsRenamed;
    if p.kind[i] == Load {
      SubstAddress(p, n.rho, p.operands[i][0]);
    } else if p.kind[i] == Store {
      SubstAddress(p, n.rho, p.operands[i][1]);
    }
  }

  lemma PhiKind(p: Code, b: Block, k: int, i: Inst)
    requires LocalsAreScalars(p) && IsAt(p, b, k, i)
    ensures i in p.kind && (p.kind[i].Phi? <==> OpOf(p, i).PhiOp?)
            && (p.kind[i].Phi? ==> OpOf(p, i).v == p.kind[i].lval)
  {
  }

  // ----- replacing a load -----

  lemma OperandsReplaced(p: Code, rho: map<Inst, Value>, instrs: map<Block, seq<Inst>>, operands: map<Inst, seq<Value>>,
                         i: Inst, w: Value)
    requires OperandsRenamed(p, rho, instrs, operands) && i !in rho && forall x :: x in rho ==> rho[x] != Res(i)
    ensures OperandsRenamed(p, rho[i := w], instrs, ReplacedAll(instrs, operands, Res(i), w))
  {
    hide OpOf, Live;
    var operands' := ReplacedAll(instrs, operands, Res(i), w);
    forall u | Live(instrs, u) && !OpOf(p, u).PhiOp?
      ensures operands'[u] == SubstAll(rho[i := w], p.operands[u])
    {
      assert operands'[u] == Replaced(SubstAll(rho, p.operands[u]), Res(i), w);
    }
  }

  lemma PhisNotReplaced(p: Code, instrs: map<Block, seq<Inst>>, operands: map<Inst, seq<Value>>, i: Inst, w: Value)
    requires PhiOperandsKnown(p, operands) && OpOf(p, i).ReadVar?
    ensures forall d, k, x :: IsAt(p, d, k, x) && OpOf(p, x).PhiOp? ==>
              x in operands && ReplacedAll(instrs, operands, Res(i), w)[x] == operands[x]
  {
    hide Live;
    forall d, k, x | IsAt(p, d, k, x) && OpOf(p, x).PhiOp?
      ensures x in operands && ReplacedAll(instrs, operands, Res(i), w)[x] == operands[x]
    {
      assert Replaced(operands[x], Res(i), w) == operands[x] by {
        forall j | 0 <= j < |operands[x]|
          ensures operands[x][j] != Res(i)
        {
          assert Known(p, operands[x][j]);
        }
      }
    }
  }

  lemma SameOuts(p: Code, n: Names, m: Names, b: Block)
    requires m.pushed == n.pushed && m.tops == n.tops
    ensures Out(p, m, b) == Out(p, n, b)
  {
  }

  lemma PairsKept(p: Code, n: Names, m: Names, sent: map<Block, seq<Block>>, d: Block, v: Inst, pairs: seq<Value>)
    requires PhiPairsAt(p, n, sent, d, v, pairs) && forall q :: q in sent ==> Out(p, m, q) == Out(p, n, q)
    ensures PhiPairsAt(p, m, sent, d, v, pairs)
  {
    hide Out, PairsFor, Copies;
    forall q
      ensures PairsSent(p, m, sent, d, v, pairs, q)
    {
      assert PairsSent(p, n, sent, d, v, pairs, q);
    }
  }

  lemma PhiPairsSame(p: Code, n: Names, m: Names, sent: map<Block, seq<Block>>, operands: map<Inst, seq<Value>>,
                     operands': map<Inst, seq<Value>>)
    requires PhiPairs(p, n, sent, operands)
    requires forall q :: q in sent ==> Out(p, m, q) == Out(p, n, q)
    requires forall d, k, x :: IsAt(p, d, k, x) && OpOf(p, x).PhiOp? ==>
               x in operands && x in operands' && operands'[x] == operands[x]
    ensures PhiPairs(p, m, sent, operands')
  {
    hide Out, OpOf, PhiPairsAt;
    forall d, k, x | IsAt(p, d, k, x) && OpOf(p, x).PhiOp?
      ensures PhiPairsAt(p, m, sent, d, OpOf(p, x).v, operands'[x])
    {
      assert PhiPairsAt(p, n, sent, d, OpOf(p, x).v, operands[x]);
      PairsKept(p, n, m, sent, d, OpOf(p, x).v, operands[x]);
    }
  }

  lemma LoadReplaced(p: Code, n: Names, m: Names, finished: set<Block>, sent: map<Block, seq<Block>>,
                     instrs: map<Block, seq<Inst>>, operands: map<Inst, seq<Value>>, i: Inst, w: Value)
    requires CodeState(p, n, finished, sent, instrs, operands) && AllKnown(p, n) && Known(p, w)
    requires OpOf(p, i).ReadVar? && i !in n.rho && m == n.(rho := n.rho[i := w])
    ensures CodeState(p, m, finished, sent, instrs, ReplacedAll(instrs, operands, Res(i), w))
    ensures w != Res(i)
  {
    hide OperandsRenamed, InstrsRenamed, PhiPairs, OpOf, ReplacedAll, Out, Live;
    PhisNotReplaced(p, instrs, operands, i, w);
    forall x | x in n.rho
      ensures n.rho[x] != Res(i)
    {
      assert Known(p, n.rho[x]);
    }
    OperandsReplaced(p, n.rho, instrs, operands, i, w);
    forall q | q in sent
      ensures Out(p, m, q) == Out(p, n, q)
    {
      SameOuts(p, n, m, q);
    }
    PhiPairsSame(p, n, m, sent, operands, ReplacedAll(instrs, operands, Res(i), w));
  }

  /** New stores and a new block do not concern the code. */
  lemma NamesExtended(p: Code, n: Names, m: Names, done: set<Block>, finished: set<Block>, sent: map<Block, seq<Block>>,
                      instrs: map<Block, seq<Inst>>, operands: map<Inst, seq<Value>>)
    requires CodeState(p, n, finished, sent, instrs, operands) && m.rho == n.rho
    requires Extends(p, n, m, done) && sent.Keys <= done && done <= n.tops.Keys
    ensures CodeState(p, m, finished, sent, instrs, operands)
  {
    hide OperandsRenamed, InstrsRenamed, PhiPairs, OpOf, Out, Extends, Known;
    forall q | q in sent
      ensures Out(p, m, q) == Out(p, n, q)
    {
      OutKept(p, n, m, done, q);
    }
    PhiPairsSame(p, n, m, sent, operands, operands);
  }

  // ----- pairs for the phis of a successor -----

  lemma {:induction false} PairsAppended(pairs: seq<Value>, w: Value, b: Block, q: Block)
    requires |pairs| % 2 == 0
    ensures PairsFor(pairs + [w, Label(b)], q) == PairsFor(pairs, q) + if q == b then [w] else []
    decreases |pairs|
  {
    if pairs == [] {
      assert pairs + [w, Label(b)] == [w, Label(b)];
      assert [w, Label(b)][2..] == [];
    } else {
      PairsAppended(pairs[2..], w, b, q);
      assert (pairs + [w, Label(b)])[2..] == pairs[2..] + [w, Label(b)];
    }
  }

  /** The edges of `b` over which its values have been sent, with one more to `d`. */
  function SentOne(sent: map<Block, seq<Block>>, b: Block, d: Block): map<Block, seq<Block>> {
    sent[b := (if b in sent then sent[b] else []) + [d]]
  }

  /** The pairs for `q` before and after. */
  lemma PairAddedFor(out: Option<Value>, before: seq<Block>, b: Block, d: Block, pairs: seq<Value>, pairs': seq<Value>,
                     q: Block)
    requires |pairs| % 2 == 0 && pairs' == if out.Some? then pairs + [out.value, Label(b)] else pairs
    ensures q != b ==> PairsFor(pairs', q) == PairsFor(pairs, q)
    ensures q == b && PairsFor(pairs, q) == Copies(out, multiset(before)[d]) ==>
              PairsFor(pairs', q) == Copies(out, multiset(before + [d])[d])
  {
    hide PairsFor, Copies;
    if out.Some? {
      PairsAppended(pairs, out.value, b, q);
    }
    assert multiset(before + [d])[d] == multiset(before)[d] + 1;
    CopiesNext(out, multiset(before)[d]);
  }

  lemma PairAddedAt(p: Code, n: Names, sent: map<Block, seq<Block>>, b: Block, d: Block, v: Inst, pairs: seq<Value>,
                    pairs': seq<Value>, q: Block)
    requires |pairs| % 2 == 0 && PairsSent(p, n, sent, d, v, pairs, q)
    requires pairs'
             == if ValueIn(Out(p, n, b), v).Some? then pairs + [ValueIn(Out(p, n, b), v).value, Label(b)] else pairs
    ensures PairsSent(p, n, SentOne(sent, b, d), d, v, pairs', q)
  {
    hide Out, PairsFor, Copies;
    var before := if b in sent then sent[b] else [];
    CopiesNext(ValueIn(Out(p, n, b), v), 0);
    PairAddedFor(ValueIn(Out(p, n, b), v), before, b, d, pairs, pairs', q);
  }

  /** What sending the value of `b` does to a phi of `d`. */
  lemma PairAdded(p: Code, n: Names, sent: map<Block, seq<Block>>, b: Block, d: Block, v: Inst, pairs: seq<Value>)
    requires PhiPairsAt(p, n, sent, d, v, pairs)
    ensures PhiPairsAt(p, n, SentOne(sent, b, d), d, v,
              if ValueIn(Out(p, n, b), v).Some? then pairs + [ValueIn(Out(p, n, b), v).value, Label(b)] else pairs)
  {
    hide Out, PairsFor, Copies, PairsSent, SentOne;
    if ValueIn(Out(p, n, b), v).Some? {
      PairFormAdded(pairs, ValueIn(Out(p, n, b), v).value, b);
    }
    var pairs' := if ValueIn(Out(p, n, b), v).Some? then pairs + [ValueIn(Out(p, n, b), v).value, Label(b)] else pairs;
    forall q
      ensures PairsSent(p, n, SentOne(sent, b, d), d, v, pairs', q)
    {
      PairAddedAt(p, n, sent, b, d, v, pairs, pairs', q);
    }
  }

  lemma CopiesNext(v: Option<Value>, n: nat)
    ensures Copies(v, n + 1) == Copies(v, n) + if v.Some? then [v.value] else []
    ensures Copies(v, 0) == []
  {
  }

  /** Phis of other blocks are not concerned. */
  lemma PairNotAdded(p: Code, n: Names, sent: map<Block, seq<Block>>, b: Block, d: Block, c: Block, v: Inst,
                     pairs: seq<Value>)
    requires PhiPairsAt(p, n, sent, c, v, pairs) && c != d
    ensures PhiPairsAt(p, n, SentOne(sent, b, d), c, v, pairs)
  {
    hide Out, PairsFor, Copies;
    var before := if b in sent then sent[b] else [];
    assert multiset(before + [d])[c] == multiset(before)[c];
    forall q
      ensures PairsSent(p, n, SentOne(sent, b, d), c, v, pairs, q)
    {
      assert PairsSent(p, n, sent, c, v, pairs, q);
      if q == b && b !in sent {
        CopiesNext(ValueIn(Out(p, n, q), v), 0);
      }
    }
  }

  /** While the values of `b` are sent to `d`: the phis in `served` have theirs. */
  ghost predicate Sending(p: Code, n: Names, finished: set<Block>, sent: map<Block, seq<Block>>, b: Block, d: Block,
                          served: set<Inst>,
                          instrs: map<Block, seq<Inst>>, operands: map<Inst, seq<Value>>)
  {
    && InstrsRenamed(p, finished, instrs) && OperandsRenamed(p, n.rho, instrs, operands)
    && PhiOperandsKnown(p, operands)
    && PhiPairsServed(p, n, sent, SentOne(sent, b, d), d, served, operands)
  }

  ghost predicate PhiPairsServed(p: Code, n: Names, sent: map<Block, seq<Block>>, sent': map<Block, seq<Block>>,
                                 d: Block, served: set<Inst>,
                                 operands: map<Inst, seq<Value>>)
  {
    forall c, k, i :: IsAt(p, c, k, i) && OpOf(p, i).PhiOp? ==>
      i in operands && PhiPairsAt(p, n, if c != d || i in served then sent' else sent, c, OpOf(p, i).v, operands[i])
  }

  lemma SendingStarts(p: Code, n: Names, finished: set<Block>, sent: map<Block, seq<Block>>, b: Block, d: Block,
                      instrs: map<Block, seq<Inst>>, operands: map<Inst, seq<Value>>)
    requires CodeState(p, n, finished, sent, instrs, operands)
    ensures Sending(p, n, finished, sent, b, d, {}, instrs, operands)
  {
    hide InstrsRenamed, OperandsRenamed, PhiOperandsKnown, PhiPairsAt, OpOf, SentOne;
    forall c, k, i | IsAt(p, c, k, i) && OpOf(p, i).PhiOp?
      ensures i in operands
              && PhiPairsAt(p, n, if c != d || i in {} then SentOne(sent, b, d) else sent, c, OpOf(p, i).v, operands[i])
    {
      if c != d {
        PairNotAdded(p, n, sent, b, d, c, OpOf(p, i).v, operands[i]);
      }
    }
  }

  lemma SendingEnds(p: Code, n: Names, finished: set<Block>, sent: map<Block, seq<Block>>, b: Block, d: Block,
                    served: set<Inst>,
                    instrs: map<Block, seq<Inst>>, operands: map<Inst, seq<Value>>)
    requires Sending(p, n, finished, sent, b, d, served, instrs, operands)
    requires forall k, i :: IsAt(p, d, k, i) && OpOf(p, i).PhiOp? ==> i in served
    ensures CodeState(p, n, finished, SentOne(sent, b, d), instrs, operands)
  {
    hide InstrsRenamed, OperandsRenamed, PhiOperandsKnown, PhiPairsAt, OpOf, SentOne;
  }

  /** One phi of `d` has been served. */
  lemma SendingPhi(p: Code, n: Names, finished: set<Block>, sent: map<Block, seq<Block>>, b: Block, d: Block,
                   served: set<Inst>, instrs: map<Block, seq<Inst>>, operands: map<Inst, seq<Value>>, k: int, i: Inst,
                   operands': map<Inst, seq<Value>>)
    requires Sending(p, n, finished, sent, b, d, served, instrs, operands) && PlacedOnce(p.instrs)
    requires IsAt(p, d, k, i) && OpOf(p, i).PhiOp? && i !in served && i in operands
    requires forall v :: v in Out(p, n, b) ==> Known(p, Out(p, n, b)[v])
    requires operands' == operands[i := if ValueIn(Out(p, n, b), OpOf(p, i).v).Some? then
                                          operands[i] + [ValueIn(Out(p, n, b), OpOf(p, i).v).value, Label(b)]
                                        else operands[i]]
    ensures Sending(p, n, finished, sent, b, d, served + {i}, instrs, operands')
  {
    hide InstrsRenamed, PhiPairsAt, OpOf, SentOne, Out, Live, Known;
    var v := OpOf(p, i).v;
    PairAdded(p, n, sent, b, d, v, operands[i]);
    forall c, j, x | IsAt(p, c, j, x) && OpOf(p, x).PhiOp?
      ensures x in operands'
              && PhiPairsAt(p, n, if c != d || x in served + {i} then SentOne(sent, b, d) else sent, c, OpOf(p, x).v,
                            operands'[x])
    {
      if x == i {
        PositionUnique(p, d, k, c, j, i);
      }
    }
    LabelKnown(p, b);
    forall c, j, x | IsAt(p, c, j, x) && OpOf(p, x).PhiOp?
      ensures x in operands' && forall u :: u in operands'[x] ==> Known(p, u)
    {
    }
  }

  lemma LabelKnown(p: Code, b: Block)
    ensures Known(p, Label(b))
  {
  }

  lemma SendingOther(p: Code, n: Names, finished: set<Block>, sent: map<Block, seq<Block>>, b: Block, d: Block,
                     served: set<Inst>,
                     instrs: map<Block, seq<Inst>>, operands: map<Inst, seq<Value>>, i: Inst)
    requires Sending(p, n, finished, sent, b, d, served, instrs, operands) && !OpOf(p, i).PhiOp?
    ensures Sending(p, n, finished, sent, b, d, served + {i}, instrs, operands)
  {
    hide InstrsRenamed, PhiPairsAt, OpOf, SentOne, OperandsRenamed, PhiOperandsKnown;
  }

  /** The phis of a block stand in its list whether or not it is finished. */
  lemma PhisStand(p: Code, finished: set<Block>, instrs: map<Block, seq<Inst>>, d: Block, i: Inst)
    requires InstrsRenamed(p, finished, instrs) && d in p.instrs
    ensures i in instrs[d] ==> i in p.instrs[d]
    ensures i in p.instrs[d] && OpOf(p, i).PhiOp? ==> i in instrs[d]
  {
    KeepContents(p.instrs[d], VarOps(p, d));
  }

  // ----- finishing a block -----

  lemma BlockFinished(p: Code, n: Names, finished: set<Block>, sent: map<Block, seq<Block>>,
                      instrs: map<Block, seq<Inst>>, operands: map<Inst, seq<Value>>, b: Block,
                      instrs': map<Block, seq<Inst>>)
    requires CodeState(p, n, finished, sent, instrs, operands) && b in p.instrs && b !in finished
    requires instrs' == instrs[b := Keep(p.instrs[b], VarOps(p, b))]
    ensures CodeState(p, n, finished + {b}, sent, instrs', operands)
  {
    hide PhiPairs, PhiOperandsKnown, OpOf, VarOps;
    KeepContents(p.instrs[b], VarOps(p, b));
    forall i | Live(instrs', i)
      ensures Live(instrs, i)
    {
      var c :| c in instrs' && i in instrs'[c];
      assert c in instrs && i in instrs[c];
    }
  }

  // ----- the walk -----

  /** Every visited block has sent its values over all its edges. */
  function SentAll(p: Code, visited: set<Block>): map<Block, seq<Block>> {
    map b | b in visited && b in p.cfg.succs :: p.cfg.succs[b]
  }

  lemma PairsNone(p: Code, n: Names, sent: map<Block, seq<Block>>, b: Block, d: Block, v: Inst, pairs: seq<Value>)
    requires PhiPairsAt(p, n, sent, d, v, pairs) && b !in sent
    ensures PhiPairsAt(p, n, sent[b := []], d, v, pairs)
  {
    hide Out, PairsFor, Copies;
    CopiesNext(ValueIn(Out(p, n, b), v), 0);
    var sent' := sent[b := []];
    forall q
      ensures PairsSent(p, n, sent', d, v, pairs, q)
    {
      assert PairsSent(p, n, sent, d, v, pairs, q);
    }
  }

  /** Before any edge of `b`. */
  lemma SentNone(p: Code, n: Names, finished: set<Block>, sent: map<Block, seq<Block>>, b: Block,
                 instrs: map<Block, seq<Inst>>, operands: map<Inst, seq<Value>>)
    requires CodeState(p, n, finished, sent, instrs, operands) && b !in sent
    ensures CodeState(p, n, finished, sent[b := []], instrs, operands)
  {
    hide InstrsRenamed, OperandsRenamed, PhiOperandsKnown, OpOf, PhiPairsAt;
    forall d, k, i | IsAt(p, d, k, i) && OpOf(p, i).PhiOp?
      ensures i in operands && PhiPairsAt(p, n, sent[b := []], d, OpOf(p, i).v, operands[i])
    {
      PairsNone(p, n, sent, b, d, OpOf(p, i).v, operands[i]);
    }
  }

  lemma SentAllAdd(p: Code, done: set<Block>, b: Block)
    requires b in p.cfg.succs
    ensures SentAll(p, done)[b := p.cfg.succs[b]] == SentAll(p, done + {b})
  {
  }

  lemma SentOneNext(sent: map<Block, seq<Block>>, b: Block, succs: seq<Block>, j: nat)
    requires j < |succs|
    ensures SentOne(sent[b := succs[..j]], b, succs[j]) == sent[b := succs[..j + 1]]
  {
    assert succs[..j + 1] == succs[..j] + [succs[j]];
  }

  /** The phis among the first `k` instructions of `b` have been pushed. */
  ghost predicate PhisPushedUpTo(p: Code, b: Block, k: int, arriving: map<Inst, Value>, tops: map<Inst, Value>) {
    && (forall j, i :: IsAt(p, b, j, i) && j < k && OpOf(p, i).PhiOp? ==> ValueIn(tops, OpOf(p, i).v) == Some(Res(i)))
    && (forall v :: !HasPhiBefore(p, b, k, v) ==> ValueIn(tops, v) == ValueIn(arriving, v))
  }

  ghost predicate HasPhiBefore(p: Code, b: Block, k: int, v: Inst) {
    exists j :: 0 <= j < k && j < |ListOf(p, b)| && IsPhiFor(OpOf(p, ListOf(p, b)[j]), v)
  }

  lemma NoPhisPushed(p: Code, b: Block, tops: map<Inst, Value>)
    ensures PhisPushedUpTo(p, b, 0, tops, tops)
  {
  }

  lemma PhiPushed(p: Code, b: Block, k: int, i: Inst, arriving: map<Inst, Value>, tops: map<Inst, Value>)
    requires PhisInOrder(p) && IsAt(p, b, k, i) && OpOf(p, i).PhiOp? && PhisPushedUpTo(p, b, k, arriving, tops)
    ensures PhisPushedUpTo(p, b, k + 1, arriving, tops[OpOf(p, i).v := Res(i)])
  {
    hide OpOf, Loaded;
    var tops' := tops[OpOf(p, i).v := Res(i)];
    forall v | !HasPhiBefore(p, b, k + 1, v)
      ensures ValueIn(tops', v) == ValueIn(arriving, v)
    {
      assert !IsPhiFor(OpOf(p, ListOf(p, b)[k]), v);
      assert !HasPhiBefore(p, b, k, v);
    }
  }

  /** No phi stands behind another instruction. */
  lemma PhisEnd(p: Code, b: Block, k: int, arriving: map<Inst, Value>, tops: map<Inst, Value>)
    requires PhisInOrder(p) && b in p.instrs && 0 <= k <= |p.instrs[b]| && PhisPushedUpTo(p, b, k, arriving, tops)
    requires k < |p.instrs[b]| ==> !OpOf(p, p.instrs[b][k]).PhiOp?
    ensures PhisPushed(p, b, arriving, tops)
    ensures forall j :: k <= j < |p.instrs[b]| ==> !OpOf(p, p.instrs[b][j]).PhiOp?
  {
    hide OpOf, Loaded;
    forall j | k <= j < |p.instrs[b]|
      ensures !OpOf(p, p.instrs[b][j]).PhiOp?
    {
      assert IsAt(p, b, j, p.instrs[b][j]);
      assert IsAt(p, b, k, p.instrs[b][k]);
    }
    forall v | !HasPhi(p, b, v)
      ensures !HasPhiBefore(p, b, k, v)
    {
    }
  }

  lemma PushedKnown(p: Code, b: Block, arriving: map<Inst, Value>, tops: map<Inst, Value>)
    requires PhisPushed(p, b, arriving, tops) && forall v :: v in arriving ==> Known(p, arriving[v])
    ensures forall v :: v in tops ==> Known(p, tops[v])
  {
    hide OpOf;
    forall v | v in tops
      ensures Known(p, tops[v])
    {
      if HasPhi(p, b, v) {
        var k :| 0 <= k < |ListOf(p, b)| && IsPhiFor(OpOf(p, ListOf(p, b)[k]), v);
        var i := ListOf(p, b)[k];
        assert IsAt(p, b, k, i);
        assert ValueIn(tops, v) == Some(Res(i));
        assert Live(p.instrs, i);
      } else {
        assert ValueIn(tops, v) == ValueIn(arriving, v);
      }
    }
  }

  /** Pushing phis takes no value away. */
  lemma PushedGrows(p: Code, b: Block, arriving: map<Inst, Value>, tops: map<Inst, Value>)
    requires PhisPushed(p, b, arriving, tops)
    ensures forall v :: v in arriving ==> v in tops
  {
    hide OpOf;
    forall v | v in arriving
      ensures v in tops
    {
      if HasPhi(p, b, v) {
        var k :| 0 <= k < |ListOf(p, b)| && IsPhiFor(OpOf(p, ListOf(p, b)[k]), v);
        assert IsAt(p, b, k, ListOf(p, b)[k]);
        assert ValueIn(tops, v) == Some(Res(ListOf(p, b)[k]));
      } else {
        assert ValueIn(tops, v) == ValueIn(arriving, v);
      }
    }
  }

  /** Some block of the path has stored to `v`, so there is a value to arrive with. */
  ghost predicate StoredArrives(p: Code, path: seq<Block>, tops: map<Inst, Value>) {
    forall v :: StoredOn(p, path, v) ==> v in tops
  }

  lemma StoredArrivesNext(p: Code, n: Names, path: seq<Block>, b: Block, d: Block)
    requires path != [] && path[|path| - 1] == b && StoredArrives(p, path, TopsAt(n, b))
    requires NamedUpTo(p, n, b, |ListOf(p, b)|)
    ensures StoredArrives(p, path + [d], Out(p, n, b))
  {
    hide NamedUpTo, Stores;
    forall v | StoredOn(p, path + [d], v)
      ensures v in Out(p, n, b)
    {
      var k :| 0 <= k < |path + [d]| - 1 && Stores(p, (path + [d])[k], v);
      if k < |path| - 1 {
        assert StoredOn(p, path, v);
        CurGrows(p, n, b, |ListOf(p, b)|, v);
      } else {
        StoresHasValue(p, n, b, v);
      }
    }
  }

  lemma CameByNext(p: Code, path: seq<Block>, visited: set<Block>, done: set<Block>, b: Block, d: Block)
    requires WellFormed(p) && CameBy(p, path, done, b) && b in p.cfg.succs && d in p.cfg.succs[b]
             && done + {b} <= visited
    ensures CameBy(p, path + [d], visited, d)
    ensures |path + [d]| >= 2 && (path + [d])[|path + [d]| - 2] == b
  {
    hide WellFormed;
    SuccIsBlock(p, b, d);
    PathExtend(p.cfg, path, p.cfg.entry, b, d);
    hide FlowGraph.PathFromTo;
    LastOf(p.cfg, path, b);
  }

  lemma LastOf(g: FlowGraph, path: seq<Block>, b: Block)
    requires g.PathFromTo(path, g.entry, b)
    ensures path != [] && path[|path| - 1] == b
  {
  }

  /** The blocks new in `visited` have all their successors in it. */
  ghost predicate SuccsIn(g: FlowGraph, before: set<Block>, visited: set<Block>) {
    forall w, s :: w in visited && w !in before && w in g.succs && s in g.succs[w] ==> s in visited
  }
}
