/** Running `if` and `while`, and with them every statement. */
module LoweringControl {
  import opened FlowGraphs
  import opened Statements
  import opened BlockBuilder
  import opened BuilderInvariants
  import opened LoweringShape
  import opened LoweringStmts
  import opened LoweringRuns

  // ----- parts of compound statements -----

  /** A part that ends normally goes on to `to`. */
  function PartDest(b: Builder, code: Code, to: Block, out: Outcome): seq<Item> {
    if out == Normal then Whole(code, to) else Dest(b, b, code, out)
  }

  ghost predicate FollowsTo(o: Oracle, items: seq<Item>, b: Builder, code: Code, to: Block, r: Result, tr: Trace,
                            fuel: nat)
  {
    match r
    case OutOfFuel => Lasts(o, StripAll(code), items, tr, fuel)
    case Ended(out, tr') => Leads(o, StripAll(code), items, tr, PartDest(b, code, to, out), tr')
  }

  lemma PartEnds(o: Oracle, b2: Builder, b3: Builder, to: Block, code: Code, gone: set<Block>, r: Result, tr: Trace,
                 fuel: nat)
    requires Follows(o, b2, b3, code, r, tr, fuel) && b3.insert in b3.body && b3.insert !in gone
    requires Extends(ClosePart(b3, to), code, gone)
    ensures FollowsTo(o, Rest(b2, code), b2, code, to, r, tr, fuel)
  {
    hide Leads, Jumps, Rest, StripAll, Whole, Extends;
    if r.Ended? && r.out == Normal {
      ExtendsSame(BrIfOpen(b3, to), ClosePart(b3, to), code, gone);
      JumpLeads(o, b3, to, code, gone, r.tr);
      JumpsIsLeads(o, StripAll(code), Rest(b3, code), r.tr, Whole(code, to), r.tr);
      LeadsTrans(o, StripAll(code), Rest(b2, code), tr, Rest(b3, code), r.tr, Whole(code, to), r.tr);
    }
  }

  lemma CloseExtends(b3: Builder, to: Block, code: Code, gone: set<Block>)
    requires KeysOk(b3) && Extends(ClosePart(b3, to), code, gone)
    ensures Extends(b3, code, gone)
  {
    hide Strip, KeptFinal, Grew;
    ExtendsSame(BrIfOpen(b3, to), ClosePart(b3, to), code, gone);
    if IsOpen(b3, b3.insert) {
      GrewBr(b3, to);
      ExtendsBack(b3, Br(b3, to), {to}, code, gone, gone);
    }
  }

  /** From the start of a compound statement through one of its parts. */
  lemma PartFollows(o: Oracle, b: Builder, b': Builder, items: seq<Item>, tr: Trace, b2: Builder, code: Code, n: Block,
                    r: Result, tr1: Trace, fuel: nat)
    requires Leads(o, StripAll(code), Rest(b, code), tr, items, tr1) && FollowsTo(o, items, b2, code, n, r, tr1, fuel)
    requires b2.whileStack == b.whileStack && b2.ret == b.ret
    requires r.Ended? && r.out == Normal ==> Rest(b', code) == Whole(code, n) && IsOpen(b', b'.insert)
    ensures Follows(o, b, b', code, r, tr, fuel)
  {
    hide Leads, Lasts, Rest, StripAll, Whole, IsOpen;
    match r
    case OutOfFuel => LeadsLasts(o, StripAll(code), Rest(b, code), tr, items, tr1, fuel);
    case Ended(out, tr') =>
      LeadsTrans(o, StripAll(code), Rest(b, code), tr, items, tr1, PartDest(b2, code, n, out), tr');
  }

  /** A statement that ends normally leaves its block open. */
  ghost predicate OpenAfter(r: Result, b': Builder) {
    r.Ended? && r.out == Normal ==> IsOpen(b', b'.insert)
  }

  lemma FollowsOpens(o: Oracle, b: Builder, b': Builder, code: Code, r: Result, tr: Trace, fuel: nat)
    requires Follows(o, b, b', code, r, tr, fuel)
    ensures OpenAfter(r, b')
  {
    hide Leads, Lasts, IsOpen, Dest;
  }

  /** What a branch or a loop body needs: the code goes on to `to` behind it. */
  lemma PartContext(b2: Builder, s: Stmt, to: Block, code: Code, gone: set<Block>, reserved: set<Block>,
                    pending: set<Block>)
    requires StmtReady(b2, reserved, pending) && WellNested(s, b2.whileStack != []) && gone <= reserved
    requires Extends(ClosePart(LowerStmt(b2, s), to), code, gone)
    ensures StmtContext(b2, LowerStmt(b2, s), code, gone, reserved, pending) && Extends(b2, code, gone)
    ensures var b3 := LowerStmt(b2, s); b3.insert in b3.body && b3.insert !in gone
  {
    hide Extends, StmtReady, StmtDone, ClosePart, LowerStmt, Sane, IsOpen;
    var b3 := LowerStmt(b2, s);
    LowerStmtDone(b2, s, reserved, pending);
    DoneFacts(b2, b3, reserved, pending);
    SaneParts(b3, reserved, pending);
    CloseExtends(b3, to, code, gone);
    DoneExtends(b2, b3, code, gone, reserved, pending);
  }

  /** A branch of an `if`, once its test has led to it. */
  lemma BranchRuns(o: Oracle, b1: Builder, x: Block, s: Stmt, n: Block, code: Code, gone: set<Block>,
                   reserved: set<Block>, pending: set<Block>, tr: Trace, fuel: nat)
    requires StmtReady(OpenPart(b1, x), reserved, pending) && WellNested(s, b1.whileStack != []) && gone <= reserved
    requires Extends(ClosePart(LowerStmt(OpenPart(b1, x), s), n), code, gone) && Strip(At(b1.body, x)) == []
    ensures FollowsTo(o, Whole(code, x), OpenPart(b1, x), code, n, RunStmt(o, s, tr, fuel), tr, fuel)
    ensures Extends(OpenPart(b1, x), code, gone)
    ensures OpenAfter(RunStmt(o, s, tr, fuel), LowerStmt(OpenPart(b1, x), s))
    decreases fuel, s, 3
  {
    hide Rest, Whole, Extends, StmtReady, StmtContext, ClosePart, RunStmt, LowerStmt, Strip, Follows, FollowsTo,
         OpenAfter, WellNested, OpenPart;
    OpenPartKeeps(b1, x);
    var b2 := OpenPart(b1, x);
    var b3 := LowerStmt(b2, s);
    PartContext(b2, s, n, code, gone, reserved, pending);
    LowerStmtRuns(o, b2, s, code, gone, reserved, pending, tr, fuel);
    PartEnds(o, b2, b3, n, code, gone, RunStmt(o, s, tr, fuel), tr, fuel);
    FollowsOpens(o, b2, b3, code, RunStmt(o, s, tr, fuel), tr, fuel);
    PartBody(b1, x);
    RestIsWhole(b2, code);
  }

  lemma DoneExtends(b: Builder, b': Builder, code: Code, gone: set<Block>, reserved: set<Block>, pending: set<Block>)
    requires StmtReady(b, reserved, pending) && StmtDone(b, b', reserved, pending) && Extends(b', code, gone)
    ensures Extends(b, code, gone)
  {
    hide Sane, Grew, Extends, LoopsOk, CurKept;
    ExtendsBack(b, b', JumpTargets(b), code, gone, gone);
  }

  // ----- if -----

  /** The block behind is there if something leads to it. */
  lemma BehindIf(b5: Builder, t: Block, n: Block, code: Code, gone: set<Block>, reserved: set<Block>,
                 pending: set<Block>)
    requires Sane(b5, reserved, pending) && n in reserved && n != b5.entry && Extends(CloseIf(b5, t, n), code, gone)
    ensures Extends(b5, code, gone + {n})
    ensures HasPath(GraphOf(b5), b5.entry, n) && Strip(At(b5.body, n)) == [] ==>
              var b6 := CloseIf(b5, t, n); b6.insert == n && IsOpen(b6, n) && Rest(b6, code) == Whole(code, n)
  {
    hide Rest, Strip, Sane, HasPath, Whole;
    SaneParts(b5, reserved, pending);
    var b6 := OpenPart(b5, n);
    if At(b6.preds, n) == [] {
      ExtendsErase(SetInsert(b6, t), n, code, gone);
      ExtendsSame(b5, SetInsert(b6, t), code, gone + {n});
    } else {
      ExtendsSame(b5, b6, code, gone);
      ExtendsMore(b5, code, gone, gone + {n});
    }
    if HasPath(GraphOf(b5), b5.entry, n) && Strip(At(b5.body, n)) == [] {
      GraphOfSane(b5, reserved, pending);
      ReachedHasPred(GraphOf(b5), n);
      RestIsWhole(b6, code);
    }
  }

  lemma GraphOfSane(b: Builder, reserved: set<Block>, pending: set<Block>)
    requires Sane(b, reserved, pending)
    ensures GraphOk(GraphOf(b))
  {
  }

  lemma ExtendsMore(b: Builder, code: Code, gone: set<Block>, gone': set<Block>)
    requires Extends(b, code, gone) && gone <= gone'
    ensures Extends(b, code, gone')
  {
    hide KeptFinal;
  }

  lemma ReachedHasPred(g: FlowGraph, n: Block)
    requires GraphOk(g) && HasPath(g, g.entry, n) && n != g.entry
    ensures n in g.preds && g.preds[n] != []
  {
    var p :| g.PathFromTo(p, g.entry, n);
    assert p[|p| - 1] in g.succs[p[|p| - 2]];
    assert p[|p| - 2] in g.preds[n];
  }

  /** A block that stays reserved stays empty. */
  lemma StillEmpty(b: Builder, b': Builder, x: Block, targets: set<Block>, y: Block)
    requires Grew(b, b', x, targets) && y in b.body && y != x && Strip(b.body[y]) == []
    ensures y in b'.body && Strip(b'.body[y]) == []
  {
    hide Strip;
    assert KeptBody(b.body[y], b'.body[y], false);
  }

  /** After the test of an `if`. */
  ghost predicate Tested(b: Builder, b0: Builder, b1: Builder, t: Block, f: Block, n: Block, no: Block,
                         reserved: set<Block>, pending: set<Block>)
  {
    && Midway(b, b1, WithThree(reserved, t, f, n), WithThree(pending, t, f, n) - {t, no})
    && b1.whileStack == b.whileStack && b1.ret == b.ret
    && Sane(b0, WithThree(reserved, t, f, n), WithThree(pending, t, f, n)) && IsOpen(b0, b0.insert)
    && b0.insert == b.insert
    && t !in b.body && f !in b.body && n !in b.body && t != f && f != n && t != n && reserved <= b.body.Keys
    && b.ret in reserved
    && t in b1.body && f in b1.body && n in b1.body && n != b1.entry
    && Strip(At(b1.body, t)) == [] && Strip(At(b1.body, f)) == [] && Strip(At(b1.body, n)) == []
    && b0.insert in b0.body && b.insert in b.body && At(b0.body, b.insert) == At(b.body, b.insert)
  }

  lemma TestedIf(b: Builder, c: Cond, t: Block, f: Block, n: Block, no: Block, reserved: set<Block>,
                 pending: set<Block>)
    requires StmtReady(b, reserved, pending) && t == b.next && f == t + 1 && n == f + 1 && no in {f, n}
    ensures Tested(b, StartIf(b), PopCur(LowerTest(StartIf(b), c, t, no)), t, f, n, no, reserved, pending)
  {
    hide Sane, Grew, IsOpen, JumpTargets, HasPath, LoopsOk, LowerTest, Isolated, StartIf, Strip;
    ReadyParts(b, reserved, pending);
    StartIfDone(b, t, f, n, reserved, pending);
    TestOfIf(b, c, t, f, n, no, reserved, pending);
    var b0 := StartIf(b);
    var b1 := PopCur(LowerTest(b0, c, t, no));
    SaneParts(b1, WithThree(reserved, t, f, n), WithThree(pending, t, f, n) - {t, no});
    SaneParts(b0, WithThree(reserved, t, f, n), WithThree(pending, t, f, n));
    SaneParts(b, reserved, pending);
    NewBlocksEmpty(b);
    StripEmpty();
    StillEmpty(b0, b1, b.insert, {t, no}, t);
    StillEmpty(b0, b1, b.insert, {t, no}, f);
    StillEmpty(b0, b1, b.insert, {t, no}, n);
    GrewFixed(b, b1, b.insert, JumpTargets(b));
  }

  lemma NewBlocksEmpty(b: Builder)
    requires forall x :: x in b.body ==> x < b.next
    ensures var b0 := StartIf(b); forall x :: x in {b.next, b.next + 1, b.next + 2} ==> x in b0.body && b0.body[x] == []
    ensures forall x :: x in b.body ==> At(StartIf(b).body, x) == b.body[x]
  {
  }

  lemma RestStarted(b: Builder, b0: Builder, code: Code)
    requires b0.insert == b.insert && At(b0.body, b.insert) == At(b.body, b.insert)
    ensures Rest(b0, code) == Rest(b, code)
  {
  }

  /** The branch opens on a ready state. */
  lemma BranchReady(b: Builder, b1: Builder, x: Block, reserved0: set<Block>, reserved: set<Block>, pending: set<Block>)
    requires StmtReady(b, reserved0, pending * reserved0) && Midway(b, b1, reserved, pending)
             && b1.whileStack == b.whileStack
    requires reserved0 <= reserved - {x} && x in reserved && x !in pending && x != b1.ret
    ensures StmtReady(OpenPart(b1, x), reserved - {x}, pending)
  {
    hide Sane, Grew, IsOpen, HasPath, LoopsOk;
    ReadyKeys(b, reserved0, pending * reserved0);
    LoopsKept(b, b1, b.insert, JumpTargets(b), reserved0, reserved - {x});
    PartOpens(b, b1, x, reserved, pending);
  }

  lemma RanIf(o: Oracle, c: Cond, first: Stmt, tr: Trace, fuel: nat)
    ensures var (v, tr1) := EvalCond(o, c, tr);
            RunStmt(o, If(c, first), tr, fuel) == if v then RunStmt(o, first, tr1, fuel) else Ended(Normal, tr1)
  {
    hide EvalCond;
  }

  /** The test of an `if`. */
  lemma TestRuns(o: Oracle, b: Builder, c: Cond, t: Block, f: Block, n: Block, no: Block, code: Code, gone: set<Block>,
                 reserved: set<Block>, pending: set<Block>, tr: Trace)
    requires Tested(b, StartIf(b), PopCur(LowerTest(StartIf(b), c, t, no)), t, f, n, no, reserved, pending)
             && WellShaped(c) && no in {f, n}
    requires gone <= WithThree(reserved, t, f, n)
             && Extends(OpenPart(PopCur(LowerTest(StartIf(b), c, t, no)), t), code, gone)
    ensures var (v, tr1) := EvalCond(o, c, tr);
            Leads(o, StripAll(code), Rest(b, code), tr, Whole(code, if v then t else no), tr1)
  {
    hide Sane, Grew, IsOpen, LowerTest, StartIf, OpenPart, Strip, Extends, Leads, Jumps, Rest, StripAll, Whole,
         EvalCond, Midway, WellShaped;
    var b0 := StartIf(b);
    var b1 := PopCur(LowerTest(b0, c, t, no));
    PartBody(b1, t);
    ExtendsSame(LowerTest(b0, c, t, no), OpenPart(b1, t), code, gone);
    LowerTestRuns(o, b0, c, t, no, code, gone, WithThree(reserved, t, f, n), WithThree(pending, t, f, n), tr);
    RestStarted(b, b0, code);
    var (v, tr1) := EvalCond(o, c, tr);
    JumpsIsLeads(o, StripAll(code), Rest(b, code), tr, Whole(code, if v then t else no), tr1);
  }

  lemma IfRuns(o: Oracle, b: Builder, c: Cond, first: Stmt, code: Code, gone: set<Block>, reserved: set<Block>,
               pending: set<Block>, tr: Trace, fuel: nat)
    requires StmtContext(b, LowerStmt(b, If(c, first)), code, gone, reserved, pending)
             && WellNested(If(c, first), b.whileStack != [])
    ensures Follows(o, b, LowerStmt(b, If(c, first)), code, RunStmt(o, If(c, first), tr, fuel), tr, fuel)
    decreases fuel, If(c, first), 0
  {
    hide Sane, Grew, IsOpen, JumpTargets, HasPath, LoopsOk, LowerTest, StartIf, StmtReady, ClosePart, OpenPart, CloseIf,
         Erase, Strip, Extends, Leads, Lasts, Rest, StripAll, Whole, Follows, FollowsTo, EvalCond, IfEnds, Midway,
         LowerStmt, RunStmt, WellShaped, OpenAfter;
    var t, f, n := b.next, b.next + 1, b.next + 2;
    var r0, p1 := WithThree(reserved, t, f, n), WithThree(pending, t, f, n) - {t, n};
    TestedIf(b, c, t, f, n, n, reserved, pending);
    ReadyParts(b, reserved, pending);
    var b1 := PopCur(LowerTest(StartIf(b), c, t, n));
    assert p1 * reserved == pending;
    BranchReady(b, b1, t, reserved, r0, p1);
    var b4 := ClosePart(LowerStmt(OpenPart(b1, t), first), n);
    LoweredIf(b, c, first, t, f, n);
    IfParts(b, c, first, t, f, n, b1, b4, reserved, pending);
    BehindIf(Erase(b4, f), t, n, code, gone, reserved + {n}, pending + {n});
    ExtendsErase(b4, f, code, gone + {n});
    var gone1 := gone + {n} + {f};
    var (v, tr1) := EvalCond(o, c, tr);
    BranchRuns(o, b1, t, first, n, code, gone1, r0 - {t}, p1, tr1, fuel);
    TestRuns(o, b, c, t, f, n, n, code, gone1, reserved, pending, tr);
    OpenPartKeeps(b1, t);
    RanIf(o, c, first, tr, fuel);
    var b6 := CloseIf(Erase(b4, f), t, n);
    if v {
      PartFollows(o, b, b6, Whole(code, t), tr, OpenPart(b1, t), code, n, RunStmt(o, first, tr1, fuel), tr1, fuel);
    } else {
      SkipFollows(o, OpenPart(b1, t), code, n, tr1, fuel);
      PartFollows(o, b, b6, Whole(code, n), tr, OpenPart(b1, t), code, n, Ended(Normal, tr1), tr1, fuel);
    }
  }

  lemma SkipFollows(o: Oracle, b: Builder, code: Code, n: Block, tr: Trace, fuel: nat)
    ensures FollowsTo(o, Whole(code, n), b, code, n, Ended(Normal, tr), tr, fuel)
  {
    LeadsRefl(o, StripAll(code), Whole(code, n), tr);
  }

  lemma OpenPartKeeps(b: Builder, x: Block)
    ensures OpenPart(b, x).whileStack == b.whileStack && OpenPart(b, x).ret == b.ret && OpenPart(b, x).insert == x
  {
  }

  /** The end of an `if` without `else`, up to the block behind. */
  lemma IfParts(b: Builder, c: Cond, first: Stmt, t: Block, f: Block, n: Block, b1: Builder, b4: Builder,
                reserved: set<Block>, pending: set<Block>)
    requires StmtReady(b, reserved, pending) && WellNested(If(c, first), b.whileStack != [])
    requires t == b.next && f == t + 1 && n == f + 1 && b1 == PopCur(LowerTest(StartIf(b), c, t, n))
             && Tested(b, StartIf(b), b1, t, f, n, n, reserved, pending)
    requires b4 == ClosePart(LowerStmt(OpenPart(b1, t), first), n)
    ensures var b5 := Erase(b4, f);
            Sane(b5, reserved + {n}, pending + {n}) && HasPath(GraphOf(b5), b5.entry, n) && Strip(At(b5.body, n)) == []
            && n != b5.entry
  {
    hide Sane, Grew, IsOpen, JumpTargets, HasPath, LoopsOk, LowerTest, StartIf, StmtReady, ClosePart, OpenPart, Erase,
         Strip, Isolated;
    var r0, p1 := WithThree(reserved, t, f, n), WithThree(pending, t, f, n) - {t, n};
    ReadyParts(b, reserved, pending);
    TestOfIf(b, c, t, f, n, n, reserved, pending);
    assert p1 * reserved == pending;
    BranchDone(b, b1, t, first, n, reserved, r0, p1);
    JumpsAreBlocks(b, reserved);
    FalseUntouched(b, StartIf(b), b1, b4, t, f, n);
    FalseBlockErased(b, b4, t, f, n, reserved, pending);
    SaneParts(Erase(b4, f), reserved + {n}, pending + {n});
    PartBody(b1, t);
    StillEmpty(OpenPart(b1, t), b4, t, JumpTargets(b) + {n}, n);
    ErasedBody(b4, f, n);
  }

  lemma ErasedBody(b: Builder, x: Block, y: Block)
    requires y in b.body && y != x
    ensures At(Erase(b, x).body, y) == b.body[y]
  {
  }

  // ----- if with else -----

  /** A part that can end normally leads to the block behind it. */
  lemma PartReaches(b2: Builder, s: Stmt, n: Block, reserved: set<Block>, pending: set<Block>)
    requires StmtReady(b2, reserved, pending) && WellNested(s, b2.whileStack != []) && n in reserved && n != b2.ret
             && n != b2.entry
    ensures var b3 := LowerStmt(b2, s); var b4 := ClosePart(b3, n);
            IsOpen(b3, b3.insert) ==> HasPath(GraphOf(b4), b4.entry, n)
  {
    hide StmtReady, LowerStmt, Sane, IsOpen, HasPath, Grew, JumpTargets, CurKept, Moved, Br, WellNested;
    var b3 := LowerStmt(b2, s);
    LowerStmtDone(b2, s, reserved, pending);
    GrewFixed(b2, b3, b2.insert, JumpTargets(b2));
    SaneParts(b3, reserved, pending);
    if IsOpen(b3, b3.insert) {
      OpenMeans(b3);
      PathToSelf(GraphOf(b3), n);
      BrSane(b3, n, n, reserved, pending);
      BrFixed(b3, n);
      SaneParts(Br(b3, n), reserved, pending - {n});
      ReachedIn(Br(b3, n), n, reserved, pending - {n});
    }
  }

  ghost predicate IfElseSplit(b: Builder, b1: Builder, b2: Builder, b3: Builder, t: Block, f: Block, n: Block,
                              reserved: set<Block>, pending: set<Block>)
  {
    && StmtReady(OpenPart(b1, t), reserved + {n} + {f}, pending + {n})
    && StmtReady(OpenPart(b2, f), reserved + {n}, pending + {n})
    && Sane(b3, reserved + {n}, pending + {n}) && n != b3.entry && n != b1.ret && n != b1.entry && n != b2.entry
    && Strip(At(b1.body, t)) == [] && Strip(At(b2.body, f)) == [] && Strip(At(b3.body, n)) == []
    && b1.whileStack == b.whileStack && b1.ret == b.ret && b2.whileStack == b.whileStack && b2.ret == b.ret
    && Grew(OpenPart(b2, f), b3, f, JumpTargets(b) + {n}) && t in b3.body
  }

  lemma IfElseParts(b: Builder, c: Cond, first: Stmt, second: Stmt, t: Block, f: Block, n: Block, b1: Builder,
                    b2: Builder, b3: Builder,
                    reserved: set<Block>, pending: set<Block>)
    requires StmtReady(b, reserved, pending) && WellNested(IfElse(c, first, second), b.whileStack != [])
    requires t == b.next && f == t + 1 && n == f + 1 && b1 == PopCur(LowerTest(StartIf(b), c, t, f))
             && Tested(b, StartIf(b), b1, t, f, n, f, reserved, pending)
    requires b2 == ClosePart(LowerStmt(OpenPart(b1, t), first), n)
             && b3 == ClosePart(LowerStmt(OpenPart(b2, f), second), n)
    ensures IfElseSplit(b, b1, b2, b3, t, f, n, reserved, pending)
  {
    hide Sane, Grew, IsOpen, JumpTargets, HasPath, LoopsOk, LowerTest, StartIf, StmtReady, ClosePart, OpenPart, Strip,
         Isolated;
    var r0, p1 := WithThree(reserved, t, f, n), WithThree(pending, t, f, n) - {t, f};
    ReadyParts(b, reserved, pending);
    assert p1 == pending + {n} && p1 * reserved == pending;
    BranchReady(b, b1, t, reserved, r0, p1);
    BranchDone(b, b1, t, first, n, reserved, r0, p1);
    SaneParts(b2, r0 - {t}, p1);
    GrewFixed(b, b1, b.insert, JumpTargets(b));
    GrewFixed(b, b2, b.insert, JumpTargets(b));
    BranchReady(b, b2, f, reserved, r0 - {t}, p1);
    BranchDone(b, b2, f, second, n, reserved, r0 - {t}, p1);
    assert r0 - {t} - {f} == reserved + {n} && r0 - {t} == reserved + {n} + {f};
    SaneParts(b3, reserved + {n}, p1);
    PartBody(b1, t);
    PartBody(b2, f);
    GrewFixed(b, b3, b.insert, JumpTargets(b));
    GrewFixed(OpenPart(b1, t), b2, t, JumpTargets(b) + {n});
    GrewFixed(OpenPart(b2, f), b3, f, JumpTargets(b) + {n});
    StillEmpty(OpenPart(b1, t), b2, t, JumpTargets(b) + {n}, f);
    StillEmpty(OpenPart(b1, t), b2, t, JumpTargets(b) + {n}, n);
    StillEmpty(OpenPart(b2, f), b3, f, JumpTargets(b) + {n}, n);
  }

  lemma RanIfElse(o: Oracle, c: Cond, first: Stmt, second: Stmt, tr: Trace, fuel: nat)
    ensures var (v, tr1) := EvalCond(o, c, tr);
            RunStmt(o, IfElse(c, first, second), tr, fuel)
            == if v then RunStmt(o, first, tr1, fuel) else RunStmt(o, second, tr1, fuel)
  {
    hide EvalCond;
  }

  lemma IfElseRuns(o: Oracle, b: Builder, c: Cond, first: Stmt, second: Stmt, code: Code, gone: set<Block>,
                   reserved: set<Block>, pending: set<Block>,
                   tr: Trace, fuel: nat)
    requires StmtContext(b, LowerStmt(b, IfElse(c, first, second)), code, gone, reserved, pending)
             && WellNested(IfElse(c, first, second), b.whileStack != [])
    ensures Follows(o, b, LowerStmt(b, IfElse(c, first, second)), code, RunStmt(o, IfElse(c, first, second), tr, fuel),
                    tr, fuel)
    decreases fuel, IfElse(c, first, second), 0
  {
    hide Sane, Grew, IsOpen, JumpTargets, HasPath, LoopsOk, LowerTest, StartIf, StmtReady, ClosePart, OpenPart, CloseIf,
         Strip, Extends, Leads, Lasts, Rest, StripAll, Whole, Follows, FollowsTo, EvalCond, Midway, LowerStmt, RunStmt,
         WellShaped;
    var t, f, n := b.next, b.next + 1, b.next + 2;
    TestedIf(b, c, t, f, n, f, reserved, pending);
    ReadyParts(b, reserved, pending);
    var b1 := PopCur(LowerTest(StartIf(b), c, t, f));
    var b2 := ClosePart(LowerStmt(OpenPart(b1, t), first), n);
    var b3 := ClosePart(LowerStmt(OpenPart(b2, f), second), n);
    LoweredIfElse(b, c, first, second, t, f, n);
    IfElseParts(b, c, first, second, t, f, n, b1, b2, b3, reserved, pending);
    BehindIf(b3, t, n, code, gone, reserved + {n}, pending + {n});
    var (v, tr1) := EvalCond(o, c, tr);
    BranchRuns(o, b2, f, second, n, code, gone + {n}, reserved + {n}, pending + {n}, tr1, fuel);
    PartBody(b2, f);
    ExtendsSame(b2, OpenPart(b2, f), code, gone + {n});
    BranchRuns(o, b1, t, first, n, code, gone + {n}, reserved + {n} + {f}, pending + {n}, tr1, fuel);
    TestRuns(o, b, c, t, f, n, f, code, gone + {n}, reserved, pending, tr);
    OpenPartKeeps(b1, t);
    OpenPartKeeps(b2, f);
    BehindIfElse(b, b1, b2, b3, first, second, t, f, n, reserved, pending);
    RanIfElse(o, c, first, second, tr, fuel);
    var b6 := CloseIf(b3, t, n);
    if v {
      PartFollows(o, b, b6, Whole(code, t), tr, OpenPart(b1, t), code, n, RunStmt(o, first, tr1, fuel), tr1, fuel);
    } else {
      PartFollows(o, b, b6, Whole(code, f), tr, OpenPart(b2, f), code, n, RunStmt(o, second, tr1, fuel), tr1, fuel);
    }
  }

  /** The block behind is reached if either branch can end normally. */
  lemma BehindIfElse(b: Builder, b1: Builder, b2: Builder, b3: Builder, first: Stmt, second: Stmt, t: Block, f: Block,
                     n: Block,
                     reserved: set<Block>, pending: set<Block>)
    requires IfElseSplit(b, b1, b2, b3, t, f, n, reserved, pending) && WellNested(first, b.whileStack != [])
             && WellNested(second, b.whileStack != [])
    requires b2 == ClosePart(LowerStmt(OpenPart(b1, t), first), n)
             && b3 == ClosePart(LowerStmt(OpenPart(b2, f), second), n)
    ensures var s1, s2 := LowerStmt(OpenPart(b1, t), first), LowerStmt(OpenPart(b2, f), second);
            IsOpen(s1, s1.insert) || IsOpen(s2, s2.insert) ==> HasPath(GraphOf(b3), b3.entry, n)
  {
    hide StmtReady, ClosePart, LowerStmt, Sane, IsOpen, HasPath, Grew, JumpTargets, WellNested, Strip;
    PartReaches(OpenPart(b1, t), first, n, reserved + {n} + {f}, pending + {n});
    PartReaches(OpenPart(b2, f), second, n, reserved + {n}, pending + {n});
    GrewFixed(OpenPart(b2, f), b3, f, JumpTargets(b) + {n});
    var s1 := LowerStmt(OpenPart(b1, t), first);
    if IsOpen(s1, s1.insert) {
      assert GraphOf(OpenPart(b2, f)) == GraphOf(b2);
      GrewPath(OpenPart(b2, f), b3, f, JumpTargets(b) + {n}, b2.entry, n);
    }
  }

  // ----- while -----

  /** A loop: `bw` starts its test, `b1` has ended it, `b4` its body. */
  ghost predicate LoopSplit(b: Builder, bw: Builder, b1: Builder, b4: Builder, w: Block, t: Block, n: Block,
                            reserved: set<Block>, pending: set<Block>)
  {
    && Sane(bw, reserved + {t} + {n}, pending + {t} + {n}) && IsOpen(bw, bw.insert) && bw.insert == w
    && Strip(At(bw.body, w)) == []
    && Grew(bw, b1, w, {t, n}) && b1.whileStack == b.whileStack + [Targets(w, n)] && b1.ret == b.ret
    && StmtReady(OpenPart(b1, t), reserved + {n}, pending)
    && Strip(At(b1.body, t)) == [] && Strip(At(b4.body, n)) == [] && IsOpen(b4, n)
  }

  lemma NewLoopEmpty(b: Builder, w: Block, t: Block, n: Block)
    requires w == b.next && t == w + 1 && n == t + 1 && b.insert < b.next
    ensures var bw := StartWhile(b);
            w in bw.body && bw.body[w] == [] && t in bw.body && bw.body[t] == [] && n in bw.body && bw.body[n] == []
  {
  }

  lemma PartKeepsEmpty(b2: Builder, s: Stmt, to: Block, x: Block, reserved: set<Block>, pending: set<Block>)
    requires StmtReady(b2, reserved, pending) && WellNested(s, b2.whileStack != []) && x in reserved
             && Strip(At(b2.body, x)) == []
    ensures var b4 := ClosePart(LowerStmt(b2, s), to); Strip(At(b4.body, x)) == [] && IsOpen(b4, x)
  {
    hide StmtReady, LowerStmt, Sane, Grew, JumpTargets, CurKept, Moved, WellNested, Strip, LoopsOk, Terminated;
    ReadyParts(b2, reserved, pending);
    SaneParts(b2, reserved, pending);
    var b3 := LowerStmt(b2, s);
    LowerStmtDone(b2, s, reserved, pending);
    SaneParts(b3, reserved, pending);
    StillEmpty(b2, b3, b2.insert, JumpTargets(b2), x);
    assert ClosePart(b3, to).body[x] == b3.body[x];
  }

  lemma LoopParts(b: Builder, c: Cond, loop: Stmt, w: Block, t: Block, n: Block, reserved: set<Block>,
                  pending: set<Block>)
    requires StmtReady(b, reserved, pending) && WellNested(loop, true) && w == b.next && t == w + 1 && n == t + 1
    ensures var b1 := LowerTest(StartWhile(b), c, t, n);
            LoopSplit(b, StartWhile(b), b1, ClosePart(LowerStmt(OpenPart(b1, t), loop), w), w, t, n, reserved, pending)
  {
    hide Sane, Grew, IsOpen, HasPath, LoopsOk, JumpTargets, StartWhile, LowerTest, ClosePart, Strip, StmtReady;
    var bw := StartWhile(b);
    var b1 := LowerTest(bw, c, t, n);
    var r, p := reserved + {t} + {n}, pending + {t} + {n};
    ReadyParts(b, reserved, pending);
    SaneParts(b, reserved, pending);
    StartWhileDone(b, w, t, n, reserved, pending);
    LowerTestDone(bw, c, t, n, r, p);
    TestOfWhile(b, c, w, t, n, reserved, pending);
    NewLoopEmpty(b, w, t, n);
    StripEmpty();
    StillEmpty(bw, b1, w, {t, n}, t);
    StillEmpty(bw, b1, w, {t, n}, n);
    GrewFixed(b, b1, b.insert, JumpTargets(b));
    assert r - {t} == reserved + {n};
    PartOpens(b, b1, t, r, pending);
    PartBody(b1, t);
    PartKeepsEmpty(OpenPart(b1, t), loop, w, n, reserved + {n}, pending);
  }

  /** The jump to the test. */
  lemma EntersLoop(o: Oracle, b: Builder, w: Block, code: Code, gone: set<Block>, tr: Trace)
    requires KeysOk(b) && IsOpen(b, b.insert) && b.insert !in gone && w == b.next && Extends(StartWhile(b), code, gone)
    ensures Jumps(o, StripAll(code), Rest(b, code), tr, Whole(code, w), tr)
  {
    hide Jumps, Rest, Whole, StripAll, Extends, IsOpen;
    NewBlocksEmpty(b);
    var b0 := StartIf(b).(whileStack := b.whileStack + [Targets(b.next, b.next + 2)]);
    OpenMeans(b);
    assert StartWhile(b).body == Br(b0, w).body;
    ExtendsSame(Br(b0, w), StartWhile(b), code, gone);
    JumpLeads(o, b0, w, code, gone, tr);
    RestStarted(b, b0, code);
  }

  /** From the test's block on. */
  ghost predicate LoopFollows(o: Oracle, b: Builder, code: Code, w: Block, n: Block, r: Result, tr: Trace, fuel: nat) {
    match r
    case OutOfFuel => fuel == 0 || Lasts(o, StripAll(code), Whole(code, w), tr, fuel - 1)
    case Ended(out, tr') =>
      (out == Normal || out == Returned)
      && Leads(o, StripAll(code), Whole(code, w), tr, Whole(code, if out == Normal then n else b.ret), tr')
  }

  /** Where the body's outcome leads. */
  lemma BodyEnds(b: Builder, b2: Builder, code: Code, w: Block, n: Block, out: Outcome)
    requires b2.whileStack == b.whileStack + [Targets(w, n)] && b2.ret == b.ret
    ensures PartDest(b2, code, w, out) == Whole(code, if out == Broken then n else if out == Returned then b.ret else w)
  {
    hide Whole;
  }

  lemma RoundRuns(o: Oracle, b: Builder, b2: Builder, code: Code, w: Block, t: Block, n: Block, r: Result, tr: Trace,
                  tr1: Trace, fuel: nat)
    requires Jumps(o, StripAll(code), Whole(code, w), tr, Whole(code, t), tr1) && fuel > 0
    requires FollowsTo(o, Whole(code, t), b2, code, w, r, tr1, fuel - 1)
    requires b2.whileStack == b.whileStack + [Targets(w, n)] && b2.ret == b.ret
    ensures r.OutOfFuel? ==> Lasts(o, StripAll(code), Whole(code, w), tr, fuel - 1)
    ensures r.Ended? ==>
              Jumps(o, StripAll(code), Whole(code, w), tr,
                    Whole(code, if r.out == Broken then n else if r.out == Returned then b.ret else w), r.tr)
  {
    hide Jumps, Leads, Lasts, Whole, StripAll, PartDest;
    JumpsIsLeads(o, StripAll(code), Whole(code, w), tr, Whole(code, t), tr1);
    match r
    case OutOfFuel => LeadsLasts(o, StripAll(code), Whole(code, w), tr, Whole(code, t), tr1, fuel - 1);
    case Ended(out, tr') =>
      BodyEnds(b, b2, code, w, n, out);
      LeadsTrans(o, StripAll(code), Whole(code, w), tr, Whole(code, t), tr1, PartDest(b2, code, w, out), tr');
  }

  /** Another round after this one. */
  lemma RoundThen(o: Oracle, b: Builder, code: Code, w: Block, n: Block, r: Result, tr: Trace, tr1: Trace, fuel: nat)
    requires Jumps(o, StripAll(code), Whole(code, w), tr, Whole(code, w), tr1) && fuel > 0
             && LoopFollows(o, b, code, w, n, r, tr1, fuel - 1)
    ensures LoopFollows(o, b, code, w, n, r, tr, fuel)
  {
    hide Jumps, Leads, Lasts, Whole, StripAll;
    JumpsIsLeads(o, StripAll(code), Whole(code, w), tr, Whole(code, w), tr1);
    match r
    case OutOfFuel =>
      if fuel == 1 {
        JumpsLasts(o, StripAll(code), Whole(code, w), tr, Whole(code, w), tr1);
      } else {
        LeadsLasts(o, StripAll(code), Whole(code, w), tr, Whole(code, w), tr1, fuel - 2);
      }
    case Ended(out, tr') =>
      LeadsTrans(o, StripAll(code), Whole(code, w), tr, Whole(code, w), tr1,
                 Whole(code, if out == Normal then n else b.ret), tr');
  }

  ghost predicate LoopContext(b: Builder, c: Cond, loop: Stmt, w: Block, t: Block, n: Block, code: Code,
                              gone: set<Block>,
                              reserved: set<Block>, pending: set<Block>)
  {
    var b1 := LowerTest(StartWhile(b), c, t, n);
    var b4 := ClosePart(LowerStmt(OpenPart(b1, t), loop), w);
    && LoopSplit(b, StartWhile(b), b1, b4, w, t, n, reserved, pending) && gone <= reserved
    && Extends(b1, code, gone) && Extends(b4, code, gone)
  }

  /** The test of a loop, from its block on. */
  lemma LoopTest(o: Oracle, b: Builder, c: Cond, loop: Stmt, w: Block, t: Block, n: Block, code: Code, gone: set<Block>,
                 reserved: set<Block>, pending: set<Block>, tr: Trace)
    requires LoopContext(b, c, loop, w, t, n, code, gone, reserved, pending) && WellShaped(c)
    ensures var (v, tr1) := EvalCond(o, c, tr);
            Jumps(o, StripAll(code), Whole(code, w), tr, Whole(code, if v then t else n), tr1)
  {
    hide Jumps, Whole, StripAll, Rest, Sane, Grew, IsOpen, StmtReady, Strip, Extends, LowerTest, StartWhile, ClosePart,
         LowerStmt, OpenPart;
    LowerTestRuns(o, StartWhile(b), c, t, n, code, gone, reserved + {t} + {n}, pending + {t} + {n}, tr);
    RestIsWhole(StartWhile(b), code);
  }

  lemma LoopRuns(o: Oracle, b: Builder, c: Cond, loop: Stmt, w: Block, t: Block, n: Block, code: Code, gone: set<Block>,
                 reserved: set<Block>, pending: set<Block>, tr: Trace, fuel: nat)
    requires LoopContext(b, c, loop, w, t, n, code, gone, reserved, pending) && WellShaped(c) && WellNested(loop, true)
    ensures LoopFollows(o, b, code, w, n, RunStmt(o, While(c, loop), tr, fuel), tr, fuel)
    decreases fuel, While(c, loop), 0
  {
    hide Jumps, Whole, StripAll, Rest, Sane, Grew, IsOpen, StmtReady, Strip, Extends, LowerTest, StartWhile, ClosePart,
         LowerStmt, OpenPart, LoopFollows, FollowsTo, EvalCond, WellNested, WellShaped;
    if fuel > 0 {
      var (v, tr1) := EvalCond(o, c, tr);
      LoopTest(o, b, c, loop, w, t, n, code, gone, reserved, pending, tr);
      if v {
        var b1 := LowerTest(StartWhile(b), c, t, n);
        BranchRuns(o, b1, t, loop, w, code, gone, reserved + {n}, pending, tr1, fuel - 1);
        OpenPartKeeps(b1, t);
        var r := RunStmt(o, loop, tr1, fuel - 1);
        RoundRuns(o, b, OpenPart(b1, t), code, w, t, n, r, tr, tr1, fuel);
        if r.Ended? && r.out != Broken && r.out != Returned {
          LoopRuns(o, b, c, loop, w, t, n, code, gone, reserved, pending, r.tr, fuel - 1);
          RoundThen(o, b, code, w, n, RunStmt(o, While(c, loop), r.tr, fuel - 1), tr, r.tr, fuel);
        } else {
          LoopLeft(o, b, code, w, n, r, tr, fuel);
        }
      } else {
        SkipsLoop(o, b, code, w, n, tr, tr1, fuel);
      }
    } else {
      NoFuel(o, b, c, loop, code, w, n, tr);
    }
  }

  lemma NoFuel(o: Oracle, b: Builder, c: Cond, loop: Stmt, code: Code, w: Block, n: Block, tr: Trace)
    ensures LoopFollows(o, b, code, w, n, RunStmt(o, While(c, loop), tr, 0), tr, 0)
  {
  }

  lemma SkipsLoop(o: Oracle, b: Builder, code: Code, w: Block, n: Block, tr: Trace, tr1: Trace, fuel: nat)
    requires Jumps(o, StripAll(code), Whole(code, w), tr, Whole(code, n), tr1)
    ensures LoopFollows(o, b, code, w, n, Ended(Normal, tr1), tr, fuel)
  {
    hide Jumps, Leads, Whole, StripAll;
    JumpsIsLeads(o, StripAll(code), Whole(code, w), tr, Whole(code, n), tr1);
  }

  /** A round that leaves the loop, or never ends. */
  lemma LoopLeft(o: Oracle, b: Builder, code: Code, w: Block, n: Block, r: Result, tr: Trace, fuel: nat)
    requires fuel > 0 && (r.OutOfFuel? ==> Lasts(o, StripAll(code), Whole(code, w), tr, fuel - 1))
    requires r.Ended? ==> r.out == Broken || r.out == Returned
    requires r.Ended? ==>
               Jumps(o, StripAll(code), Whole(code, w), tr, Whole(code, if r.out == Broken then n else b.ret), r.tr)
    ensures LoopFollows(o, b, code, w, n, if r.Ended? && r.out == Broken then Ended(Normal, r.tr) else r, tr, fuel)
  {
    hide Jumps, Leads, Whole, StripAll, Lasts;
    if r.Ended? {
      JumpsIsLeads(o, StripAll(code), Whole(code, w), tr, Whole(code, if r.out == Broken then n else b.ret), r.tr);
    }
  }

  lemma ExtendsStart(b: Builder, c: Cond, loop: Stmt, w: Block, t: Block, n: Block, code: Code, gone: set<Block>,
                     reserved: set<Block>, pending: set<Block>)
    requires StmtReady(b, reserved, pending) && WellNested(loop, true) && w == b.next && t == w + 1 && n == t + 1
             && gone <= reserved
    requires Extends(ClosePart(LowerStmt(OpenPart(LowerTest(StartWhile(b), c, t, n), t), loop), w), code, gone)
    ensures LoopContext(b, c, loop, w, t, n, code, gone, reserved, pending) && Extends(StartWhile(b), code, gone)
  {
    hide Sane, Grew, IsOpen, StmtReady, Strip, Extends, LowerTest, StartWhile, ClosePart, LowerStmt, OpenPart,
         WellNested;
    LoopParts(b, c, loop, w, t, n, reserved, pending);
    var b1 := LowerTest(StartWhile(b), c, t, n);
    OpenPartKeeps(b1, t);
    PartContext(OpenPart(b1, t), loop, w, code, gone, reserved + {n}, pending);
    PartBody(b1, t);
    ExtendsSame(b1, OpenPart(b1, t), code, gone);
    ExtendsBack(StartWhile(b), b1, {t, n}, code, gone, gone);
  }

  lemma WhileRuns(o: Oracle, b: Builder, c: Cond, loop: Stmt, code: Code, gone: set<Block>, reserved: set<Block>,
                  pending: set<Block>, tr: Trace, fuel: nat)
    requires StmtContext(b, LowerStmt(b, While(c, loop)), code, gone, reserved, pending)
             && WellNested(While(c, loop), b.whileStack != [])
    ensures Follows(o, b, LowerStmt(b, While(c, loop)), code, RunStmt(o, While(c, loop), tr, fuel), tr, fuel)
    decreases fuel, While(c, loop), 1
  {
    hide Jumps, Leads, Lasts, Whole, StripAll, Rest, Sane, Grew, IsOpen, StmtReady, Strip, Extends, LowerTest,
         StartWhile, ClosePart, RunStmt, LoopFollows, LowerStmt, OpenPart, LoopContext, Follows;
    var w, t, n := b.next, b.next + 1, b.next + 2;
    ReadyParts(b, reserved, pending);
    SaneParts(b, reserved, pending);
    var b4 := ClosePart(LowerStmt(OpenPart(LowerTest(StartWhile(b), c, t, n), t), loop), w);
    var b6 := LowerStmt(b, While(c, loop));
    LoweredWhile(b, c, loop, w, t, n);
    AfterLoopIs(b4, n);
    ExtendsSame(b4, b6, code, gone);
    ExtendsStart(b, c, loop, w, t, n, code, gone, reserved, pending);
    BehindIsOpen(b, c, loop, w, t, n, code, gone, reserved, pending);
    LoopRuns(o, b, c, loop, w, t, n, code, gone, reserved, pending, tr, fuel);
    EntersLoop(o, b, w, code, gone, tr);
    OpenSameBody(b4, b6, n);
    RestIsWhole(b6, code);
    LoopEntered(o, b, b6, code, w, n, RunStmt(o, While(c, loop), tr, fuel), tr, fuel);
  }

  lemma BehindIsOpen(b: Builder, c: Cond, loop: Stmt, w: Block, t: Block, n: Block, code: Code, gone: set<Block>,
                     reserved: set<Block>, pending: set<Block>)
    requires LoopContext(b, c, loop, w, t, n, code, gone, reserved, pending)
    ensures var b4 := ClosePart(LowerStmt(OpenPart(LowerTest(StartWhile(b), c, t, n), t), loop), w);
            Strip(At(b4.body, n)) == [] && IsOpen(b4, n)
  {
    hide Sane, Grew, StmtReady, Extends, LowerTest, StartWhile, ClosePart, LowerStmt, OpenPart, Strip, IsOpen;
  }

  lemma LoopEntered(o: Oracle, b: Builder, b6: Builder, code: Code, w: Block, n: Block, r: Result, tr: Trace, fuel: nat)
    requires Jumps(o, StripAll(code), Rest(b, code), tr, Whole(code, w), tr)
             && LoopFollows(o, b, code, w, n, r, tr, fuel)
    requires Rest(b6, code) == Whole(code, n) && IsOpen(b6, b6.insert)
    ensures Follows(o, b, b6, code, r, tr, fuel)
  {
    hide Jumps, Leads, Lasts, Whole, StripAll, Rest, IsOpen;
    JumpsIsLeads(o, StripAll(code), Rest(b, code), tr, Whole(code, w), tr);
    match r
    case OutOfFuel =>
      if fuel == 0 {
        JumpsLasts(o, StripAll(code), Rest(b, code), tr, Whole(code, w), tr);
      } else {
        LeadsLasts(o, StripAll(code), Rest(b, code), tr, Whole(code, w), tr, fuel - 1);
      }
    case Ended(out, tr') =>
      LeadsTrans(o, StripAll(code), Rest(b, code), tr, Whole(code, w), tr,
                 Whole(code, if out == Normal then n else b.ret), tr');
  }

  // ----- all statements -----

  /** The first statement of a list, and the rest if it has left the block open. */
  lemma ListParts(b: Builder, b1: Builder, first: Stmt, rest: seq<Stmt>, code: Code, gone: set<Block>,
                  reserved: set<Block>, pending: set<Block>)
    requires StmtReady(b, reserved, pending) && gone <= reserved && WellNested(first, b.whileStack != [])
             && WellNestedAll(rest, b.whileStack != [])
    requires b1 == LowerStmt(b, first)
    requires Extends(if Terminated(At(b1.body, b1.insert)) then b1 else LowerList(b1, rest), code, gone)
    ensures ListSplit(b, b1, rest, code, gone, reserved, pending)
  {
    hide StmtReady, StmtDone, LowerStmt, LowerList, WellNested, WellNestedAll, Terminated, At, Extends, IsOpen, Sane;
    LowerStmtDone(b, first, reserved, pending);
    ListOpens(b1);
    RetKept(b, b1, reserved, pending);
    DoneFacts(b, b1, reserved, pending);
    if !Terminated(At(b1.body, b1.insert)) {
      NotEnded(b, b1, reserved, pending);
      LowerListDone(b1, rest, reserved, pending);
      ContextThen(b, b1, LowerList(b1, rest), code, gone, reserved, pending);
    }
  }

  lemma AllNested(body: seq<Stmt>, inLoop: bool)
    requires body != [] && WellNestedAll(body, inLoop)
    ensures WellNested(body[0], inLoop) && WellNestedAll(body[1..], inLoop)
  {
    hide WellNested;
  }

  ghost predicate ListSplit(b: Builder, b1: Builder, rest: seq<Stmt>, code: Code, gone: set<Block>,
                            reserved: set<Block>, pending: set<Block>)
  {
    && StmtContext(b, b1, code, gone, reserved, pending) && b1.whileStack == b.whileStack && b1.ret == b.ret
    && (if Terminated(At(b1.body, b1.insert)) then !IsOpen(b1, b1.insert)
        else StmtContext(b1, LowerList(b1, rest), code, gone, reserved, pending))
  }

  lemma ListOpens(b: Builder)
    ensures Terminated(At(b.body, b.insert)) ==> !IsOpen(b, b.insert)
  {
  }

  lemma RetKept(b: Builder, b1: Builder, reserved: set<Block>, pending: set<Block>)
    requires StmtDone(b, b1, reserved, pending)
    ensures b1.ret == b.ret
  {
    hide Sane, CurKept;
    GrewFixed(b, b1, b.insert, JumpTargets(b));
  }

  lemma RanList(o: Oracle, body: seq<Stmt>, tr: Trace, fuel: nat)
    requires body != []
    ensures var r := RunStmt(o, body[0], tr, fuel);
            RunList(o, body, tr, fuel) == if r.Ended? && r.out == Normal then RunList(o, body[1..], r.tr, fuel) else r
  {
  }

  lemma LoweredList(b: Builder, body: seq<Stmt>)
    requires body != []
    ensures var b1 := LowerStmt(b, body[0]);
            LowerList(b, body) == if Terminated(At(b1.body, b1.insert)) then b1 else LowerList(b1, body[1..])
  {
    hide LowerStmt;
  }

  /** Statements behind a terminator are dropped, and were never run. */
  lemma {:induction false} LowerListRuns(o: Oracle, b: Builder, body: seq<Stmt>, code: Code, gone: set<Block>,
                                         reserved: set<Block>, pending: set<Block>,
                                         tr: Trace, fuel: nat)
    requires StmtContext(b, LowerList(b, body), code, gone, reserved, pending)
             && WellNestedAll(body, b.whileStack != [])
    ensures Follows(o, b, LowerList(b, body), code, RunList(o, body, tr, fuel), tr, fuel)
    decreases fuel, body, 0
  {
    hide StmtReady, LowerStmt, LowerList, RunStmt, RunList, WellNested, WellNestedAll, Terminated, At, Follows, IsOpen,
         Extends;
    if body == [] {
      EmptyListRuns(o, b, code, reserved, pending, tr, fuel);
    } else {
      var b1 := LowerStmt(b, body[0]);
      LoweredList(b, body);
      RanList(o, body, tr, fuel);
      AllNested(body, b.whileStack != []);
      ListParts(b, b1, body[0], body[1..], code, gone, reserved, pending);
      var r := RunStmt(o, body[0], tr, fuel);
      LowerStmtRuns(o, b, body[0], code, gone, reserved, pending, tr, fuel);
      FollowsOpens(o, b, b1, code, r, tr, fuel);
      if r.Ended? && r.out == Normal {
        LowerListRuns(o, b1, body[1..], code, gone, reserved, pending, r.tr, fuel);
      } else {
        NotNormal(o, b, b1, LowerList(b, body), code, r, tr, fuel);
      }
      FollowsThen(o, b, b1, LowerList(b, body), code, r, RunList(o, body, tr, fuel), tr, fuel);
    }
  }

  lemma EmptyListRuns(o: Oracle, b: Builder, code: Code, reserved: set<Block>, pending: set<Block>, tr: Trace,
                      fuel: nat)
    requires StmtReady(b, reserved, pending)
    ensures Follows(o, b, LowerList(b, []), code, RunList(o, [], tr, fuel), tr, fuel)
  {
    hide Follows, IsOpen;
    ReadyParts(b, reserved, pending);
    NothingFollows(o, b, code, tr, fuel);
  }

  lemma NotNormal(o: Oracle, b: Builder, b1: Builder, b2: Builder, code: Code, r: Result, tr: Trace, fuel: nat)
    requires Follows(o, b, b1, code, r, tr, fuel) && !(r.Ended? && r.out == Normal)
    ensures Follows(o, b, b2, code, r, tr, fuel)
  {
    hide Leads, Lasts;
  }

  lemma EmptyRuns(o: Oracle, b: Builder, code: Code, reserved: set<Block>, pending: set<Block>, tr: Trace, fuel: nat)
    requires StmtReady(b, reserved, pending)
    ensures Follows(o, b, LowerStmt(b, Empty), code, RunStmt(o, Empty, tr, fuel), tr, fuel)
  {
    hide Follows, IsOpen;
    ReadyParts(b, reserved, pending);
    NothingFollows(o, b, code, tr, fuel);
  }

  lemma SimpleRuns(o: Oracle, b: Builder, e: nat, code: Code, gone: set<Block>, reserved: set<Block>,
                   pending: set<Block>, tr: Trace, fuel: nat)
    requires StmtContext(b, LowerStmt(b, Simple(e)), code, gone, reserved, pending)
    ensures Follows(o, b, LowerStmt(b, Simple(e)), code, RunStmt(o, Simple(e), tr, fuel), tr, fuel)
  {
    hide Follows, StmtContext, Emit;
    EmitFollows(o, b, Expr(e), code, gone, reserved, pending, tr, fuel);
  }

  lemma DeclRuns(o: Oracle, b: Builder, v: nat, init: Option<nat>, code: Code, gone: set<Block>, reserved: set<Block>,
                 pending: set<Block>, tr: Trace, fuel: nat)
    requires StmtContext(b, LowerStmt(b, Decl(v, init)), code, gone, reserved, pending)
    ensures Follows(o, b, LowerStmt(b, Decl(v, init)), code, RunStmt(o, Decl(v, init), tr, fuel), tr, fuel)
  {
    hide Follows, StmtContext, LowerDecl;
    DeclFollows(o, b, v, init, code, gone, reserved, pending, tr, fuel);
  }

  lemma BreakRuns(o: Oracle, b: Builder, code: Code, gone: set<Block>, reserved: set<Block>, pending: set<Block>,
                  tr: Trace, fuel: nat)
    requires StmtContext(b, LowerStmt(b, Break), code, gone, reserved, pending)
    ensures Follows(o, b, LowerStmt(b, Break), code, RunStmt(o, Break, tr, fuel), tr, fuel)
  {
    hide Follows, StmtContext, Br, Top;
    JumpFollows(o, b, Top(b.whileStack).no, Broken, code, gone, reserved, pending, tr, fuel);
  }

  lemma ContinueRuns(o: Oracle, b: Builder, code: Code, gone: set<Block>, reserved: set<Block>, pending: set<Block>,
                     tr: Trace, fuel: nat)
    requires StmtContext(b, LowerStmt(b, Continue), code, gone, reserved, pending)
    ensures Follows(o, b, LowerStmt(b, Continue), code, RunStmt(o, Continue, tr, fuel), tr, fuel)
  {
    hide Follows, StmtContext, Br, Top;
    JumpFollows(o, b, Top(b.whileStack).yes, Continued, code, gone, reserved, pending, tr, fuel);
  }

  lemma ReturnRuns(o: Oracle, b: Builder, value: Option<nat>, code: Code, gone: set<Block>, reserved: set<Block>,
                   pending: set<Block>, tr: Trace, fuel: nat)
    requires StmtContext(b, LowerStmt(b, Return(value)), code, gone, reserved, pending)
    ensures Follows(o, b, LowerStmt(b, Return(value)), code, RunStmt(o, Return(value), tr, fuel), tr, fuel)
  {
    hide Follows, StmtContext, LowerReturn;
    ReturnFollows(o, b, value, code, gone, reserved, pending, tr, fuel);
  }

  /** Lowering any well-nested statement keeps what it does: from where it starts, the
      run of the blocks does the same and goes where the statement's outcome leads; it
      goes on for as long as the statement's loops do. */
  lemma {:induction false} LowerStmtRuns(o: Oracle, b: Builder, s: Stmt, code: Code, gone: set<Block>,
                                         reserved: set<Block>, pending: set<Block>,
                                         tr: Trace, fuel: nat)
    requires StmtContext(b, LowerStmt(b, s), code, gone, reserved, pending) && WellNested(s, b.whileStack != [])
    ensures Follows(o, b, LowerStmt(b, s), code, RunStmt(o, s, tr, fuel), tr, fuel)
    decreases fuel, s, 2
  {
    hide StmtReady, Extends, Follows, LowerStmt, RunStmt, WellNested;
    Nested(s, b.whileStack != []);
    match s
    case Empty => EmptyRuns(o, b, code, reserved, pending, tr, fuel);
    case Simple(e) => SimpleRuns(o, b, e, code, gone, reserved, pending, tr, fuel);
    case Decl(v, init) => DeclRuns(o, b, v, init, code, gone, reserved, pending, tr, fuel);
    case Compound(body) =>
      CompoundIs(o, b, body, tr, fuel);
      LowerListRuns(o, b, body, code, gone, reserved, pending, tr, fuel);
    case If(c, first) => IfRuns(o, b, c, first, code, gone, reserved, pending, tr, fuel);
    case IfElse(c, first, second) => IfElseRuns(o, b, c, first, second, code, gone, reserved, pending, tr, fuel);
    case While(c, loop) => WhileRuns(o, b, c, loop, code, gone, reserved, pending, tr, fuel);
    case Break => BreakRuns(o, b, code, gone, reserved, pending, tr, fuel);
    case Continue => ContinueRuns(o, b, code, gone, reserved, pending, tr, fuel);
    case Return(value) => ReturnRuns(o, b, value, code, gone, reserved, pending, tr, fuel);
  }

  lemma Nested(s: Stmt, inLoop: bool)
    requires WellNested(s, inLoop)
    ensures s.Compound? ==> WellNestedAll(s.body, inLoop)
  {
  }

  lemma CompoundIs(o: Oracle, b: Builder, body: seq<Stmt>, tr: Trace, fuel: nat)
    ensures LowerStmt(b, Compound(body)) == LowerList(b, body)
            && RunStmt(o, Compound(body), tr, fuel) == RunList(o, body, tr, fuel)
  {
  }
}
