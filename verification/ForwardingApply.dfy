/** The two rewriting loops of `insideBlockForwarding`, one deletion at a time. */
module ForwardingApply {
  import opened FlowGraphs
  import opened Ir
  import opened Semantics
  import opened Substitutions
  import opened Keeping
  import opened Trimming
  import opened Forwarding
  import opened ForwardingRuns
  import opened ForwardingResult
  import opened Lists

  /** Values with an outdated use list belong to deleted instructions. */
  ghost predicate StaleAreDead(instrs: map<Block, seq<Inst>>, stale: set<Value>) {
    forall v :: v in stale ==> v.Res? && !Live(instrs, v.i)
  }

  function Restrict(sub: map<Inst, Value>, done: set<Inst>): map<Inst, Value> {
    map i | i in sub && i in done :: sub[i]
  }

  ghost predicate OperandsApplied(p: Code, operands: map<Inst, seq<Value>>, sub: map<Inst, Value>, done: set<Inst>) {
    forall i :: Live(p.instrs, i) && i !in done ==>
      i in p.operands && i in operands && operands[i] == SubstAll(Restrict(sub, done), p.operands[i])
  }

  /** After the loads in `done` have been replaced and deleted. */
  ghost predicate Applied(p: Code, b: Block, instrs: map<Block, seq<Inst>>, operands: map<Inst, seq<Value>>,
                          sub: map<Inst, Value>, done: set<Inst>)
  {
    && b in p.instrs
    && instrs == p.instrs[b := Keep(p.instrs[b], done)]
    && OperandsApplied(p, operands, sub, done)
  }

  lemma LiveKept(p: Code, b: Block, done: set<Inst>)
    requires b in p.instrs && PlacedOnce(p.instrs) && (forall i :: i in done ==> i in p.instrs[b])
    ensures forall i :: Live(p.instrs[b := Keep(p.instrs[b], done)], i) <==> Live(p.instrs, i) && i !in done
  {
    var instrs' := p.instrs[b := Keep(p.instrs[b], done)];
    KeepContents(p.instrs[b], done);
    forall i
      ensures Live(instrs', i) <==> Live(p.instrs, i) && i !in done
    {
      if Live(p.instrs, i) && i !in done {
        var c :| c in p.instrs && i in p.instrs[c];
        assert c in instrs' && i in instrs'[c];
      }
      if Live(instrs', i) {
        var c :| c in instrs' && i in instrs'[c];
        assert c in p.instrs && i in p.instrs[c];
        if i in done {
          assert i in p.instrs[b];
          InOneBlock(p.instrs, b, c, i);
        }
      }
    }
  }

  lemma InOneBlock(instrs: map<Block, seq<Inst>>, b: Block, c: Block, i: Inst)
    requires PlacedOnce(instrs) && b in instrs && c in instrs && i in instrs[b] && i in instrs[c]
    ensures b == c
  {
    var p :| 0 <= p < |instrs[b]| && instrs[b][p] == i;
    var q :| 0 <= q < |instrs[c]| && instrs[c][q] == i;
  }

  lemma {:induction false} KeepDistinct(instrs: map<Block, seq<Inst>>, b: Block, done: set<Inst>)
    requires PlacedOnce(instrs) && b in instrs
    ensures PlacedOnce(instrs[b := Keep(instrs[b], done)])
  {
    var instrs' := instrs[b := Keep(instrs[b], done)];
    forall c, d, r, s | c in instrs' && d in instrs' && 0 <= r < |instrs'[c]| && 0 <= s < |instrs'[d]|
                        && instrs'[c][r] == instrs'[d][s]
      ensures c == d && r == s
    {
      var m, n := r, s;
      if c == b { m := KeptFrom(instrs[b], done, r); }
      if d == b { n := KeptFrom(instrs[b], done, s); }
      assert instrs[c][m] == instrs[d][n];
    }
  }

  lemma SubstReplaced(sub: map<Inst, Value>, done: set<Inst>, i: Inst, ops: seq<Value>)
    requires i in sub && i !in done
    requires forall j :: j in sub ==> sub[j] != Res(i)
    ensures Replaced(SubstAll(Restrict(sub, done), ops), Res(i), sub[i]) == SubstAll(Restrict(sub, done + {i}), ops)
  {
  }

  lemma OperandsAppliedStep(p: Code, instrs: map<Block, seq<Inst>>, operands: map<Inst, seq<Value>>,
                            sub: map<Inst, Value>, done: set<Inst>, i: Inst)
    requires OperandsApplied(p, operands, sub, done) && i in sub && i !in done
    requires forall j :: j in sub ==> sub[j] != Res(i)
    requires forall j :: Live(instrs, j) <==> Live(p.instrs, j) && j !in done
    ensures OperandsApplied(p, ReplacedAll(instrs, operands, Res(i), sub[i]), sub, done + {i})
  {
    hide Live;
    var operands' := ReplacedAll(instrs, operands, Res(i), sub[i]);
    forall j | Live(p.instrs, j) && j !in done + {i}
      ensures j in p.operands && j in operands' && operands'[j] == SubstAll(Restrict(sub, done + {i}), p.operands[j])
    {
      SubstReplaced(sub, done, i, p.operands[j]);
    }
  }

  /** One round of the first loop. */
  lemma AppliedStep(p: Code, b: Block, instrs: map<Block, seq<Inst>>, operands: map<Inst, seq<Value>>,
                    sub: map<Inst, Value>, done: set<Inst>, i: Inst)
    requires PlacedOnce(p.instrs) && Applied(p, b, instrs, operands, sub, done)
    requires forall j :: j in sub ==> j in p.instrs[b] && sub[j] != Res(i)
    requires done <= sub.Keys && i in sub && i !in done
    ensures instrs[b] == Keep(p.instrs[b], done) && i in instrs[b]
    ensures Applied(p, b, instrs[b := Without(instrs[b], i)], ReplacedAll(instrs, operands, Res(i), sub[i]), sub,
                    done + {i})
  {
    hide OperandsApplied, ReplacedAll, Live, PlacedOnce;
    KeepContents(p.instrs[b], done);
    KeepWithout(p.instrs[b], done, i);
    LiveKept(p, b, done);
    OperandsAppliedStep(p, instrs, operands, sub, done, i);
  }

  lemma NothingApplied(p: Code, b: Block, sub: map<Inst, Value>)
    requires b in p.instrs && LocalsAreScalars(p)
    ensures Applied(p, b, p.instrs, p.operands, sub, {})
  {
    KeepNothing(p.instrs[b]);
    assert p.instrs[b := p.instrs[b]] == p.instrs;
    forall i | Live(p.instrs, i)
      ensures i in p.operands && p.operands[i] == SubstAll(Restrict(sub, {}), p.operands[i])
    {
      var c :| c in p.instrs && i in p.instrs[c];
      var k :| 0 <= k < |p.instrs[c]| && p.instrs[c][k] == i;
      assert IsAt(p, c, k, i);
    }
  }

  /** Both loops done: the block is as the run-time argument wants it. */
  lemma AppliedAll(p: Code, q: Code, b: Block, fin: Scan)
    requires ScanOf(p, b, fin) && q.cfg == p.cfg && q.kind == p.kind
    requires q.instrs == p.instrs[b := Keep(p.instrs[b], fin.forward.Keys + fin.deleted)]
    requires OperandsApplied(p, q.operands, fin.forward, fin.forward.Keys)
    ensures ForwardedIn(p, q, b, fin)
  {
    hide ScanOf, LocalsAreScalars, UsesDefined, OpOf, ReplacesLoads, DropsLocals;
    var drop := fin.forward.Keys + fin.deleted;
    assert Restrict(fin.forward, fin.forward.Keys) == fin.forward;
    ScanOfParts(p, b, fin);
    forall c | c in p.instrs
      ensures q.instrs[c] == Keep(p.instrs[c], drop)
    {
      if c != b {
        forall i | i in p.instrs[c]
          ensures i !in drop
        {
          ScanInBlock(p, b, fin, i);
          if i in p.instrs[b] {
            InOneBlock(p.instrs, b, c, i);
          }
        }
        KeepAll(p.instrs[c], drop);
      }
    }
    hide Live, ScanHolds;
  }

  lemma ScanInBlock(p: Code, b: Block, fin: Scan, i: Inst)
    requires ScanOf(p, b, fin)
    ensures b in p.instrs && (i in fin.forward || i in fin.deleted ==> i in p.instrs[b])
    ensures i in fin.forward ==> i !in fin.deleted
  {
    ScanOfParts(p, b, fin);
  }

  /** What the loops rely on about the table of replacements. */
  lemma ForwardTable(p: Code, b: Block, fin: Scan)
    requires ScanOf(p, b, fin)
    ensures forall i, j :: i in fin.forward && j in fin.forward ==> fin.forward[j] != Res(i)
    ensures forall j :: j in fin.forward ==>
              j in p.instrs[b] && (fin.forward[j].Res? ==> Live(p.instrs, fin.forward[j].i))
  {
    ForwardedAreReady(p, b, fin);
    ScanOfParts(p, b, fin);
    forall j | j in fin.forward
      ensures j in p.instrs[b]
      ensures fin.forward[j].Res? ==> fin.forward[j].i !in fin.forward && Live(p.instrs, fin.forward[j].i)
    {
      ScanInBlock(p, b, fin, j);
      var k :| 0 <= k < |p.instrs[b]| && p.instrs[b][k] == j;
      assert IsAt(p, b, k, j);
      assert ReadyAt(p, fin.forward, fin.forward[j], b, k);
      if fin.forward[j].Res? {
        var c, m :| IsAt(p, c, m, fin.forward[j].i) && Passed(p, c, m, fin.forward[j].i, b, k);
      }
    }
  }

  lemma DeleteNext(instrs: map<Block, seq<Inst>>, b: Block, done: set<Inst>, i: Inst)
    requires PlacedOnce(instrs) && b in instrs && i in instrs[b] && i !in done
    ensures PlacedOnce(instrs[b := Keep(instrs[b], done)]) && i in Keep(instrs[b], done)
  {
    KeepDistinct(instrs, b, done);
    KeepContents(instrs[b], done);
  }

  lemma DeadStays(instrs: map<Block, seq<Inst>>, b: Block, drop: set<Inst>, stale: set<Value>)
    requires b in instrs && StaleAreDead(instrs, stale)
    ensures StaleAreDead(instrs[b := Keep(instrs[b], drop)], stale)
  {
    var instrs' := instrs[b := Keep(instrs[b], drop)];
    KeepContents(instrs[b], drop);
    forall i | Live(instrs', i)
      ensures Live(instrs, i)
    {
      var c :| c in instrs' && i in instrs'[c];
      assert c in instrs && i in instrs[c];
    }
  }
}
