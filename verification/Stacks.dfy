/** The value stacks of the renaming: what is on top, and that what a block pushes
    is popped again. */
module Stacks {
  import opened Ir
  import opened Semantics

  type Status = map<Inst, seq<Value>>

  function StackOf(status: Status, v: Inst): seq<Value> {
    if v in status then status[v] else []
  }

  function TopsOf(status: Status): map<Inst, Value> {
    map v | v in status && |status[v]| > 0 :: status[v][|status[v]| - 1]
  }

  ghost predicate SameStacks(status: Status, status': Status) {
    forall v :: StackOf(status', v) == StackOf(status, v)
  }

  lemma SameTops(status: Status, status': Status)
    requires SameStacks(status, status')
    ensures TopsOf(status') == TopsOf(status)
  {
    forall v
      ensures v in TopsOf(status') <==> v in TopsOf(status)
      ensures v in TopsOf(status) ==> TopsOf(status')[v] == TopsOf(status)[v]
    {
      assert StackOf(status', v) == StackOf(status, v);
    }
  }

  lemma PushTops(status: Status, v: Inst, x: Value)
    ensures TopsOf(status[v := StackOf(status, v) + [x]]) == TopsOf(status)[v := x]
  {
  }

  /** What an instruction gives a new value. */
  function DefOf(op: Op): seq<Inst> {
    if op.PhiOp? || op.WriteVar? then [op.v] else []
  }

  /** The locals the first `k` instructions give a new value, in order. */
  function DefsUpTo(code: Code, list: seq<Inst>, k: nat): seq<Inst>
    requires k <= |list|
  {
    if k == 0 then [] else DefsUpTo(code, list, k - 1) + DefOf(OpOf(code, list[k - 1]))
  }

  /** One value has been pushed for each of `defs` on top of `status`. */
  ghost predicate Grown(status: Status, status': Status, defs: seq<Inst>) {
    forall v :: GrownAt(StackOf(status, v), StackOf(status', v), multiset(defs)[v])
  }

  ghost predicate GrownAt(stack: seq<Value>, stack': seq<Value>, n: nat) {
    |stack'| == |stack| + n && stack <= stack'
  }

  lemma NothingGrown(status: Status)
    ensures Grown(status, status, [])
  {
  }

  lemma GrownPush(status: Status, status': Status, defs: seq<Inst>, v: Inst, x: Value)
    requires Grown(status, status', defs)
    ensures Grown(status, status'[v := StackOf(status', v) + [x]], defs + [v])
  {
    var next := status'[v := StackOf(status', v) + [x]];
    forall u
      ensures GrownAt(StackOf(status, u), StackOf(next, u), multiset(defs + [v])[u])
    {
      assert GrownAt(StackOf(status, u), StackOf(status', u), multiset(defs)[u]);
    }
  }

  lemma PopOne(stack: seq<Value>, stack': seq<Value>, n: nat)
    requires GrownAt(stack, stack', n) && n > 0
    ensures |stack'| > 0 && GrownAt(stack, stack'[..|stack'| - 1], n - 1)
  {
  }

  lemma CountFirst(defs: seq<Inst>, v: Inst)
    requires defs != []
    ensures multiset(defs)[v] == multiset(defs[1..])[v] + (if v == defs[0] then 1 else 0)
  {
    assert defs == [defs[0]] + defs[1..];
  }

  lemma GrownPop(status: Status, status': Status, defs: seq<Inst>)
    requires Grown(status, status', defs) && defs != []
    ensures defs[0] in status' && |status'[defs[0]]| > 0
    ensures Grown(status, status'[defs[0] := status'[defs[0]][..|status'[defs[0]]| - 1]], defs[1..])
  {
    hide GrownAt;
    var v := defs[0];
    CountFirst(defs, v);
    PopOne(StackOf(status, v), StackOf(status', v), multiset(defs)[v]);
    var next := status'[v := status'[v][..|status'[v]| - 1]];
    forall u
      ensures GrownAt(StackOf(status, u), StackOf(next, u), multiset(defs[1..])[u])
    {
      CountFirst(defs, u);
      assert GrownAt(StackOf(status, u), StackOf(status', u), multiset(defs)[u]);
    }
  }

  lemma GrownSame(status: Status, status': Status)
    requires Grown(status, status', [])
    ensures SameStacks(status, status')
  {
    forall v
      ensures StackOf(status', v) == StackOf(status, v)
    {
      assert GrownAt(StackOf(status, v), StackOf(status', v), multiset([])[v]);
    }
  }

  lemma GrownThenSame(status: Status, status': Status, status'': Status, defs: seq<Inst>)
    requires Grown(status, status', defs) && SameStacks(status', status'')
    ensures Grown(status, status'', defs)
  {
    forall v
      ensures GrownAt(StackOf(status, v), StackOf(status'', v), multiset(defs)[v])
    {
      assert GrownAt(StackOf(status, v), StackOf(status', v), multiset(defs)[v]);
    }
  }
}
