/** What forwarding leaves in a block, and what it keeps for the rest of the pass. */
module ForwardingResult {
  import opened FlowGraphs
  import opened Ir
  import opened Semantics
  import opened Substitutions
  import opened Keeping
  import opened Trimming
  import opened Forwarding
  import opened ForwardingRuns

  /** A store to `v` at `p`, and another one or a load of `v` after it. */
  ghost predicate Clash(code: Code, b: Block, p: int, q: int, v: Inst) {
    && 0 <= p < q < |ListOf(code, b)| && WritesTo(code, ListOf(code, b)[p], v)
    && (WritesTo(code, ListOf(code, b)[q], v) || OpOf(code, ListOf(code, b)[q]) == ReadVar(v))
  }

  /** At most one store to each local, and no load after it. */
  ghost predicate Clean(code: Code, b: Block) {
    forall p, q, v :: !Clash(code, b, p, q, v)
  }

  lemma {:induction false} KeepAll(list: seq<Inst>, drop: set<Inst>)
    requires forall i :: i in list ==> i !in drop
    ensures Keep(list, drop) == list
  {
    if list != [] {
      KeepAll(list[1..], drop);
    }
  }

  /** Other blocks keep their lists, and every kept instruction its local. */
  lemma OtherBlockKept(p: Code, q: Code, b: Block, fin: Scan, c: Block)
    requires ForwardedIn(p, q, b, fin) && c != b && c in p.instrs
    ensures q.instrs[c] == p.instrs[c]
    ensures forall i :: i in p.instrs[c] ==> OpOf(q, i) == SubstOp(fin.forward, OpOf(p, i))
  {
    hide ForwardedIn, OpOf, LocalsAreScalars, WellFormed, NoPhis, UsesDefined, ReplacementsReady, ReplacesLoads,
         DropsLocals, ScanAll;
    ForwardedParts(p, q, b, fin);
    var drop := fin.forward.Keys + fin.deleted;
    forall i | i in p.instrs[c]
      ensures i !in drop && OpOf(q, i) == SubstOp(fin.forward, OpOf(p, i))
    {
      var k :| 0 <= k < |p.instrs[c]| && p.instrs[c][k] == i;
      OutsideNotDropped(p, q, b, fin, c, k);
      StepsAgree(p, q, b, fin, Inputs([], n => Undef, t => Undef), c, k, State(map[], map[], []));
    }
    KeepAll(p.instrs[c], drop);
  }

  lemma KeptOp(p: Code, q: Code, b: Block, fin: Scan, c: Block, r: int) returns (k: int)
    requires ForwardedIn(p, q, b, fin) && c in q.instrs && 0 <= r < |q.instrs[c]|
    ensures c in p.instrs && 0 <= k < |p.instrs[c]| && p.instrs[c][k] == q.instrs[c][r]
    ensures Moved(p.instrs[c], fin.forward.Keys + fin.deleted, k) == r
    ensures q.instrs[c][r] !in fin.forward && q.instrs[c][r] !in fin.deleted
    ensures OpOf(q, q.instrs[c][r]) == SubstOp(fin.forward, OpOf(p, q.instrs[c][r]))
  {
    hide ForwardedIn, OpOf, LocalsAreScalars, WellFormed, NoPhis, UsesDefined, ReplacementsReady, ReplacesLoads,
         DropsLocals, ScanAll;
    ForwardedParts(p, q, b, fin);
    ForwardedTrimmed(p, q, b, fin);
    k := IsAtUntrimmed(p, q, fin.forward, fin.forward.Keys + fin.deleted, c, r, q.instrs[c][r]);
    StepsAgree(p, q, b, fin, Inputs([], n => Undef, t => Undef), c, k, State(map[], map[], []));
  }

  lemma CleanAfter(p: Code, q: Code, b: Block, fin: Scan)
    requires ForwardedIn(p, q, b, fin)
    ensures Clean(q, b)
  {
    hide ForwardedIn, Clash;
    forall r, r', v
      ensures !Clash(q, b, r, r', v)
    {
      NoClashAfter(p, q, b, fin, r, r', v);
    }
  }

  /** Stores with a later store, and loads with an earlier one, are gone. */
  lemma ScanCatches(p: Code, q: Code, b: Block, fin: Scan, k: int, k': int, v: Inst)
    requires ForwardedIn(p, q, b, fin) && b in p.instrs && 0 <= k < k' < |p.instrs[b]| && WritesTo(p, p.instrs[b][k], v)
    ensures WritesTo(p, p.instrs[b][k'], v) ==> p.instrs[b][k] in fin.deleted
    ensures OpOf(p, p.instrs[b][k']) == ReadVar(v) ==> p.instrs[b][k'] in fin.forward
  {
    hide ForwardedIn, OpOf;
    ForwardedScan(p, q, b, fin);
    ScanOfParts(p, b, fin);
    hide ScanOf;
    var list := p.instrs[b];
    if WritesTo(p, list[k'], v) {
      assert Overwritten(p, list, |list|, k);
    }
    if OpOf(p, list[k']) == ReadVar(v) {
      assert ReadsAfterStore(p, list, k');
    }
  }

  lemma NoClashAfter(p: Code, q: Code, b: Block, fin: Scan, r: int, r': int, v: Inst)
    requires ForwardedIn(p, q, b, fin)
    ensures !Clash(q, b, r, r', v)
  {
    hide ForwardedIn, OpOf;
    KeysKept(p, q, b, fin);
    if 0 <= r < r' < |ListOf(q, b)| && WritesTo(q, ListOf(q, b)[r], v) {
      var k := KeptOp(p, q, b, fin, b, r);
      var k' := KeptOp(p, q, b, fin, b, r');
      if k' <= k {
        MovedMonotone(p.instrs[b], fin.forward.Keys + fin.deleted, k', k);
        assert false;
      }
      ScanCatches(p, q, b, fin, k, k', v);
    }
  }

  lemma CleanKept(p: Code, q: Code, b: Block, fin: Scan, c: Block)
    requires ForwardedIn(p, q, b, fin) && c != b && c in p.instrs && Clean(p, c)
    ensures Clean(q, c)
  {
    hide ForwardedIn, OpOf;
    OtherBlockKept(p, q, b, fin, c);
    KeysKept(p, q, b, fin);
    forall r, r', v
      ensures !Clash(q, c, r, r', v)
    {
      assert !Clash(p, c, r, r', v);
      assert 0 <= r < |p.instrs[c]| ==> p.instrs[c][r] in p.instrs[c];
      assert 0 <= r' < |p.instrs[c]| ==> p.instrs[c][r'] in p.instrs[c];
    }
  }

  lemma KeysKept(p: Code, q: Code, b: Block, fin: Scan)
    requires ForwardedIn(p, q, b, fin)
    ensures q.instrs.Keys == p.instrs.Keys
  {
  }

  lemma StoresKeptOther(p: Code, q: Code, b: Block, fin: Scan, c: Block, v: Inst)
    requires ForwardedIn(p, q, b, fin) && c != b && c in p.instrs && Stores(p, c, v)
    ensures Stores(q, c, v)
  {
    hide ForwardedIn, OpOf;
    var m :| 0 <= m < |ListOf(p, c)| && WritesTo(p, ListOf(p, c)[m], v);
    OtherBlockKept(p, q, b, fin, c);
    KeysKept(p, q, b, fin);
    assert p.instrs[c][m] in p.instrs[c];
    assert WritesTo(q, ListOf(q, c)[m], v);
  }

  /** A block that stored to a local still does. */
  lemma StoresKept(p: Code, q: Code, b: Block, fin: Scan, c: Block, v: Inst)
    requires ForwardedIn(p, q, b, fin) && Stores(p, c, v)
    ensures Stores(q, c, v)
  {
    hide ForwardedIn, OpOf, LocalsAreScalars, WellFormed, NoPhis, UsesDefined, ReplacementsReady, DropsLocals,
         ReplacesLoads, ScanAll;
    if c != b {
      StoresKeptOther(p, q, b, fin, c, v);
    } else {
      var m :| 0 <= m < |ListOf(p, c)| && WritesTo(p, ListOf(p, c)[m], v);
      ForwardedParts(p, q, b, fin);
      ForwardedScan(p, q, b, fin);
      ScanOfParts(p, b, fin);
      var list, drop := p.instrs[b], fin.forward.Keys + fin.deleted;
      var n := LastStoreExists(p, list, |list|, v, m);
      LastStoreSurvives(p, b, fin, v);
      SurvivorKept(p, q, b, fin, n, v);
    }
  }

  lemma SurvivorKept(p: Code, q: Code, b: Block, fin: Scan, n: nat, v: Inst)
    requires ForwardedIn(p, q, b, fin) && b in p.instrs && n < |p.instrs[b]| && WritesTo(p, p.instrs[b][n], v)
    requires p.instrs[b][n] !in fin.deleted
    ensures Stores(q, b, v)
  {
    hide ForwardedIn, OpOf, LocalsAreScalars, WellFormed, NoPhis, UsesDefined, ReplacementsReady, DropsLocals, ScanAll;
    ForwardedParts(p, q, b, fin);
    var list, drop := p.instrs[b], fin.forward.Keys + fin.deleted;
    StepsAgree(p, q, b, fin, Inputs([], x => Undef, t => Undef), b, n, State(map[], map[], []));
    MovedAt(list, drop, n);
    assert WritesTo(q, ListOf(q, b)[Moved(list, drop, n)], v);
  }

  lemma StoreBeforeLoadKept(p: Code, q: Code, b: Block, fin: Scan)
    requires ForwardedIn(p, q, b, fin) && StoreBeforeLoad(p)
    ensures StoreBeforeLoad(q)
  {
    hide ForwardedIn, OpOf, LocalsAreScalars, WellFormed, NoPhis, UsesDefined, ReplacementsReady, DropsLocals, ScanAll,
         FlowGraph.PathFromTo, Stores;
    ForwardedParts(p, q, b, fin);
    forall c, r, i | IsAt(q, c, r, i) && OpOf(q, i).ReadVar?
      ensures StoredEarlier(q, c, r, OpOf(q, i).v)
              || forall path :: q.cfg.PathFromTo(path, q.cfg.entry, c) ==> StoredOn(q, path, OpOf(q, i).v)
    {
      var k := KeptOp(p, q, b, fin, c, r);
      var v := OpOf(p, i).v;
      assert IsAt(p, c, k, i);
      if StoredEarlier(p, c, k, v) {
        var m :| 0 <= m < k && m < |ListOf(p, c)| && WritesTo(p, ListOf(p, c)[m], v);
        KeptLoadEarlier(p, q, b, fin, c, k, r, m, v);
      } else {
        forall path | q.cfg.PathFromTo(path, q.cfg.entry, c)
          ensures StoredOn(q, path, v)
        {
          var j :| 0 <= j < |path| - 1 && Stores(p, path[j], v);
          StoresKept(p, q, b, fin, path[j], v);
        }
      }
    }
  }

  /** A load that stays after a store of its own block is in another block. */
  lemma KeptLoadEarlier(p: Code, q: Code, b: Block, fin: Scan, c: Block, k: int, r: int, m: int, v: Inst)
    requires ForwardedIn(p, q, b, fin) && c in p.instrs && 0 <= m < k < |p.instrs[c]| && WritesTo(p, p.instrs[c][m], v)
    requires OpOf(p, p.instrs[c][k]) == ReadVar(v) && p.instrs[c][k] !in fin.forward
    requires Moved(p.instrs[c], fin.forward.Keys + fin.deleted, k) == r
    ensures StoredEarlier(q, c, r, v)
  {
    hide ForwardedIn, OpOf, LocalsAreScalars, WellFormed, NoPhis, UsesDefined, ReplacementsReady, DropsLocals, ScanAll;
    ForwardedParts(p, q, b, fin);
    var list := p.instrs[c];
    if c == b {
      ScanCatches(p, q, b, fin, m, k, v);
    } else {
      OtherBlockKept(p, q, b, fin, c);
      var drop := fin.forward.Keys + fin.deleted;
      forall i | i in list[..k]
        ensures i !in drop
      {
        var n :| 0 <= n < k && list[n] == i;
        OutsideNotDropped(p, q, b, fin, c, n);
      }
      KeepAll(list[..k], drop);
      assert list[m] in list;
      assert ListOf(q, c) == q.instrs[c];
      assert WritesTo(q, ListOf(q, c)[m], v);
    }
  }

  /** Everything the pass needs of its input holds again of its output. */
  ghost predicate Promotable(code: Code) {
    WellFormed(code) && NoPhis(code) && StoreBeforeLoad(code)
  }

  /** Forwarding in one block: same behaviour, a clean block, and the rest as before. */
  lemma ForwardedBlock(p: Code, q: Code, b: Block, fin: Scan)
    requires Promotable(p) && ForwardedIn(p, q, b, fin)
    ensures Promotable(q) && SameBehaviour(p, q) && Clean(q, b)
    ensures forall c :: c in p.instrs && Clean(p, c) ==> Clean(q, c)
  {
    hide ForwardedIn, WellFormed, NoPhis, StoreBeforeLoad, Clean, SameBehaviour, UsesDefined, ReplacementsReady,
         DropsLocals, ReplacesLoads, LocalsAreScalars;
    ForwardedParts(p, q, b, fin);
    ForwardedTrimmed(p, q, b, fin);
    WellFormedTrimmed(p, q, fin.forward, fin.forward.Keys + fin.deleted);
    NoPhisAfter(p, q, b, fin);
    StoreBeforeLoadKept(p, q, b, fin);
    ForwardingSameBehaviour(p, q, b, fin);
    CleanAfter(p, q, b, fin);
    forall c | c in p.instrs && Clean(p, c)
      ensures Clean(q, c)
    {
      if c != b {
        CleanKept(p, q, b, fin, c);
      }
    }
  }
}
