/** Instructions, their operand vectors and the use lists that mirror them. */
module Ir {
  import opened FlowGraphs
  import opened Lists

  /** An instruction is an identity that stays alive. */
  type Inst = nat

  /** What an operand slot can hold; `Res` is the result of an instruction. */
  datatype Value = Const(c: int) | Arg(k: nat) | Global(n: nat) | Res(i: Inst) | Label(b: Block)

  /** `Alloca(true)` allocates an integer, a float or a pointer, `Alloca(false)`
      an array. `Other` stands for every instruction the passes never look into. */
  datatype Kind =
    | Alloca(scalar: bool) | Load | Store | Gep | Phi(lval: Inst) | Br | Ret | Other(code: int)

  /** An entry of a use list: slot `argNo` of `user`. */
  datatype Use = Use(user: Inst, argNo: nat)

  /** The function body: control flow, the instruction list of every block, and
      the kind and operand vector of every instruction. */
  datatype Code = Code(
    cfg: FlowGraph,
    instrs: map<Block, seq<Inst>>,
    kind: map<Inst, Kind>,
    operands: map<Inst, seq<Value>>
  )

  ghost predicate Live(instrs: map<Block, seq<Inst>>, i: Inst) {
    exists b :: b in instrs && i in instrs[b]
  }

  /** Slot `k` of the live instruction `u` holds `v`. */
  ghost predicate Holds(instrs: map<Block, seq<Inst>>, operands: map<Inst, seq<Value>>, u: Inst, k: int, v: Value) {
    Live(instrs, u) && u in operands && 0 <= k < |operands[u]| && operands[u][k] == v
  }

  function UsesOf(uses: map<Value, seq<Use>>, v: Value): seq<Use> {
    if v in uses then uses[v] else []
  }

  /** The use list of `v` names every live slot that holds it, once, and nothing else. */
  ghost predicate ListedExactly(instrs: map<Block, seq<Inst>>, operands: map<Inst, seq<Value>>, us: seq<Use>,
                                v: Value)
  {
    && NoDuplicates(us)
    && forall u: Inst, k: nat :: Use(u, k) in us <==> Holds(instrs, operands, u, k, v)
  }

  /** Use lists are exact, except that a value in `stale`, all of whose uses were
      rewritten, keeps its old list although no slot holds it. */
  ghost predicate DefUse(instrs: map<Block, seq<Inst>>, operands: map<Inst, seq<Value>>, uses: map<Value, seq<Use>>,
                         stale: set<Value>)
  {
    && (forall v :: v !in stale ==> ListedExactly(instrs, operands, UsesOf(uses, v), v))
    && (forall v, u, k :: v in stale ==> !Holds(instrs, operands, u, k, v))
  }

  /** `x` with every `v` in it made `w`. */
  function Replaced(x: seq<Value>, v: Value, w: Value): (y: seq<Value>)
    ensures |y| == |x|
  {
    seq(|x|, k requires 0 <= k < |x| => if x[k] == v then w else x[k])
  }

  /** `operands` with every `v` in a live slot made `w`. */
  ghost function ReplacedAll(instrs: map<Block, seq<Inst>>, operands: map<Inst, seq<Value>>, v: Value,
                             w: Value): (r: map<Inst, seq<Value>>)
    ensures r.Keys == operands.Keys
  {
    map u | u in operands :: if Live(instrs, u) then Replaced(operands[u], v, w) else operands[u]
  }

  function WithoutUser(us: seq<Use>, i: Inst): seq<Use> {
    if us == [] then [] else (if us[0].user == i then [] else [us[0]]) + WithoutUser(us[1..], i)
  }

  lemma {:induction false} WithoutUserContents(us: seq<Use>, i: Inst)
    ensures forall x :: x in WithoutUser(us, i) <==> x in us && x.user != i
    ensures NoDuplicates(us) ==> NoDuplicates(WithoutUser(us, i))
  {
    if us != [] {
      WithoutUserContents(us[1..], i);
      assert us == [us[0]] + us[1..];
      if NoDuplicates(us) {
        assert forall j :: 0 <= j < |us[1..]| ==> us[1..][j] == us[j + 1];
        assert us[0] !in us[1..];
      }
    }
  }

  // ----- rewriting all uses of a value -----

  /** After the first `j` entries of `us`, the use list of `v`, have been rewritten to `w`. */
  ghost predicate Rewritten(instrs: map<Block, seq<Inst>>, operands: map<Inst, seq<Value>>, us: seq<Use>, j: int,
                            operands': map<Inst, seq<Value>>, w: Value)
    requires 0 <= j <= |us|
  {
    && operands'.Keys == operands.Keys
    && (forall u :: u in operands ==> |operands'[u]| == |operands[u]|)
    && (forall u: Inst, k: nat :: u in operands && k < |operands[u]| ==>
          operands'[u][k] == if Use(u, k) in us[..j] then w else operands[u][k])
  }

  lemma RewrittenNone(instrs: map<Block, seq<Inst>>, operands: map<Inst, seq<Value>>, us: seq<Use>, w: Value)
    ensures Rewritten(instrs, operands, us, 0, operands, w)
  {
  }

  lemma UseListExact(instrs: map<Block, seq<Inst>>, operands: map<Inst, seq<Value>>, uses: map<Value, seq<Use>>,
                     stale: set<Value>, v: Value)
    requires DefUse(instrs, operands, uses, stale) && v !in stale
    ensures ListedExactly(instrs, operands, UsesOf(uses, v), v)
  {
  }

  lemma RewrittenStep(instrs: map<Block, seq<Inst>>, operands: map<Inst, seq<Value>>, us: seq<Use>, j: int,
                      operands': map<Inst, seq<Value>>, w: Value)
    requires 0 <= j < |us| && Rewritten(instrs, operands, us, j, operands', w)
    requires us[j].user in operands && us[j].argNo < |operands[us[j].user]|
    ensures us[j].user in operands' && us[j].argNo < |operands'[us[j].user]|
    ensures Rewritten(instrs, operands, us, j + 1,
              operands'[us[j].user := operands'[us[j].user][us[j].argNo := w]], w)
  {
    assert us[..j + 1] == us[..j] + [us[j]];
  }

  lemma RewrittenAll(instrs: map<Block, seq<Inst>>, operands: map<Inst, seq<Value>>, us: seq<Use>,
                     operands': map<Inst, seq<Value>>, v: Value, w: Value)
    requires ListedExactly(instrs, operands, us, v) && Rewritten(instrs, operands, us, |us|, operands', w)
    ensures operands' == ReplacedAll(instrs, operands, v, w)
  {
    assert us[..|us|] == us;
    var r := ReplacedAll(instrs, operands, v, w);
    forall u | u in operands
      ensures operands'[u] == r[u]
    {
      forall k: nat | k < |operands[u]|
        ensures operands'[u][k] == r[u][k]
      {
        assert Use(u, k) in us <==> Holds(instrs, operands, u, k, v);
      }
    }
  }

  lemma HoldsReplaced(instrs: map<Block, seq<Inst>>, operands: map<Inst, seq<Value>>, v: Value, w: Value, u: Inst,
                      k: int, x: Value)
    requires v != w
    ensures Holds(instrs, ReplacedAll(instrs, operands, v, w), u, k, x) <==>
            x != v && (Holds(instrs, operands, u, k, x) || (x == w && Holds(instrs, operands, u, k, v)))
  {
  }

  lemma DefUseReplaced(instrs: map<Block, seq<Inst>>, operands: map<Inst, seq<Value>>, uses: map<Value, seq<Use>>,
                       stale: set<Value>,
                       v: Value, w: Value, uses': map<Value, seq<Use>>)
    requires DefUse(instrs, operands, uses, stale) && v != w && v !in stale && w !in stale
    requires UsesOf(uses', w) == UsesOf(uses, w) + UsesOf(uses, v)
    requires forall x :: x != w ==> UsesOf(uses', x) == UsesOf(uses, x)
    ensures DefUse(instrs, ReplacedAll(instrs, operands, v, w), uses', stale + {v})
  {
    var operands' := ReplacedAll(instrs, operands, v, w);
    forall x | x !in stale + {v}
      ensures ListedExactly(instrs, operands', UsesOf(uses', x), x)
    {
      ListedReplaced(instrs, operands, uses, v, w, uses', x);
    }
    forall x, u, k | x in stale + {v}
      ensures !Holds(instrs, operands', u, k, x)
    {
      HoldsReplaced(instrs, operands, v, w, u, k, x);
    }
  }

  lemma ListedReplaced(instrs: map<Block, seq<Inst>>, operands: map<Inst, seq<Value>>, uses: map<Value, seq<Use>>,
                       v: Value, w: Value, uses': map<Value, seq<Use>>, x: Value)
    requires v != w && x != v
    requires ListedExactly(instrs, operands, UsesOf(uses, x), x)
    requires ListedExactly(instrs, operands, UsesOf(uses, v), v)
    requires UsesOf(uses', x) == if x == w then UsesOf(uses, w) + UsesOf(uses, v) else UsesOf(uses, x)
    ensures ListedExactly(instrs, ReplacedAll(instrs, operands, v, w), UsesOf(uses', x), x)
  {
    var us := UsesOf(uses', x);
    forall u: Inst, k: nat
      ensures Use(u, k) in us <==> Holds(instrs, ReplacedAll(instrs, operands, v, w), u, k, x)
    {
      HoldsReplaced(instrs, operands, v, w, u, k, x);
    }
    if x == w {
      var a, b := UsesOf(uses, w), UsesOf(uses, v);
      forall i, j | 0 <= i < |a| && 0 <= j < |b|
        ensures a[i] != b[j]
      {
        var x1, x2 := a[i], b[j];
        assert x1 in a && x1 == Use(x1.user, x1.argNo);
        assert x2 in b && x2 == Use(x2.user, x2.argNo);
        assert Holds(instrs, operands, x1.user, x1.argNo, w) && Holds(instrs, operands, x2.user, x2.argNo, v);
      }
      assert NoDuplicates(a + b);
    }
  }

  // ----- adding an operand, adding an instruction, deleting one -----

  lemma DefUseOperandAdded(instrs: map<Block, seq<Inst>>, operands: map<Inst, seq<Value>>, uses: map<Value, seq<Use>>,
                           stale: set<Value>,
                           i: Inst, v: Value, uses': map<Value, seq<Use>>)
    requires DefUse(instrs, operands, uses, stale) && i in operands && Live(instrs, i) && v !in stale
    requires UsesOf(uses', v) == UsesOf(uses, v) + [Use(i, |operands[i]|)]
    requires forall x :: x != v ==> UsesOf(uses', x) == UsesOf(uses, x)
    ensures DefUse(instrs, operands[i := operands[i] + [v]], uses', stale)
  {
    var operands' := operands[i := operands[i] + [v]];
    forall u, k, x
      ensures Holds(instrs, operands', u, k, x) <==>
                Holds(instrs, operands, u, k, x) || (u == i && k == |operands[i]| && x == v)
    {
    }
    assert ListedExactly(instrs, operands, UsesOf(uses, v), v);
    assert !Holds(instrs, operands, i, |operands[i]|, v);
    forall x | x !in stale
      ensures ListedExactly(instrs, operands', UsesOf(uses', x), x)
    {
      assert ListedExactly(instrs, operands, UsesOf(uses, x), x);
    }
  }

  lemma DefUseInstrAdded(instrs: map<Block, seq<Inst>>, operands: map<Inst, seq<Value>>, uses: map<Value, seq<Use>>,
                         stale: set<Value>,
                         b: Block, i: Inst)
    requires DefUse(instrs, operands, uses, stale) && b in instrs && i !in operands
    ensures DefUse(instrs[b := [i] + instrs[b]], operands[i := []], uses, stale)
  {
    var instrs', operands' := instrs[b := [i] + instrs[b]], operands[i := []];
    forall u | u != i
      ensures Live(instrs', u) <==> Live(instrs, u)
    {
      if Live(instrs, u) {
        var c :| c in instrs && u in instrs[c];
        assert c in instrs' && u in instrs'[c];
      }
      if Live(instrs', u) {
        var c :| c in instrs' && u in instrs'[c];
        assert c in instrs && u in instrs[c];
      }
    }
    forall u, k, x
      ensures Holds(instrs', operands', u, k, x) <==> Holds(instrs, operands, u, k, x)
    {
    }
    hide Holds, Live;
    forall x | x !in stale
      ensures ListedExactly(instrs', operands', UsesOf(uses, x), x)
    {
      assert ListedExactly(instrs, operands, UsesOf(uses, x), x);
    }
  }

  /** An instruction stands in one place only. */
  ghost predicate PlacedOnce(instrs: map<Block, seq<Inst>>) {
    forall b, c, p, q ::
      b in instrs && c in instrs && 0 <= p < |instrs[b]| && 0 <= q < |instrs[c]| && instrs[b][p] == instrs[c][q]
      ==> b == c && p == q
  }

  lemma LiveWithout(instrs: map<Block, seq<Inst>>, b: Block, i: Inst)
    requires PlacedOnce(instrs) && b in instrs && i in instrs[b]
    ensures forall u :: Live(instrs[b := Without(instrs[b], i)], u) <==> Live(instrs, u) && u != i
  {
    WithoutContents(instrs[b], i);
    var instrs' := instrs[b := Without(instrs[b], i)];
    forall u
      ensures Live(instrs', u) <==> Live(instrs, u) && u != i
    {
      if Live(instrs, u) && u != i {
        var c :| c in instrs && u in instrs[c];
        assert c in instrs' && u in instrs'[c];
      }
      if Live(instrs', u) {
        var c :| c in instrs' && u in instrs'[c];
        assert c in instrs && u in instrs[c];
      }
    }
  }

  lemma DefUseDeleted(instrs: map<Block, seq<Inst>>, operands: map<Inst, seq<Value>>, uses: map<Value, seq<Use>>,
                      stale: set<Value>,
                      b: Block, i: Inst, uses': map<Value, seq<Use>>)
    requires DefUse(instrs, operands, uses, stale) && PlacedOnce(instrs)
    requires b in instrs && i in instrs[b] && i in operands
    requires forall v ::
               UsesOf(uses', v) == if v in operands[i] then WithoutUser(UsesOf(uses, v), i) else UsesOf(uses, v)
    ensures DefUse(instrs[b := Without(instrs[b], i)], operands, uses', stale)
  {
    var instrs' := instrs[b := Without(instrs[b], i)];
    LiveWithout(instrs, b, i);
    forall u, k, x
      ensures Holds(instrs', operands, u, k, x) <==> Holds(instrs, operands, u, k, x) && u != i
    {
    }
    forall x | x !in stale
      ensures ListedExactly(instrs', operands, UsesOf(uses', x), x)
    {
      assert ListedExactly(instrs, operands, UsesOf(uses, x), x);
      WithoutUserContents(UsesOf(uses, x), i);
      if x !in operands[i] {
        forall u: Inst, k: nat
          ensures Use(u, k) in UsesOf(uses', x) <==> Holds(instrs', operands, u, k, x)
        {
        }
      }
    }
  }

  lemma DefUseKeepsBounds(instrs: map<Block, seq<Inst>>, operands: map<Inst, seq<Value>>, uses: map<Value, seq<Use>>,
                          stale: set<Value>,
                          u: Inst, v: Value)
    requires DefUse(instrs, operands, uses, stale) && u in operands && v !in stale
    ensures Use(u, |operands[u]|) !in UsesOf(uses, v)
  {
    assert ListedExactly(instrs, operands, UsesOf(uses, v), v);
  }

  lemma UseIsSlot(instrs: map<Block, seq<Inst>>, operands: map<Inst, seq<Value>>, us: seq<Use>, v: Value, j: int)
    requires ListedExactly(instrs, operands, us, v) && 0 <= j < |us|
    ensures us[j].user in operands && us[j].argNo < |operands[us[j].user]|
  {
    assert Use(us[j].user, us[j].argNo) in us;
  }

  lemma {:induction false} WithoutUserTwice(us: seq<Use>, i: Inst)
    ensures WithoutUser(WithoutUser(us, i), i) == WithoutUser(us, i)
  {
    if us != [] {
      WithoutUserTwice(us[1..], i);
      if us[0].user != i {
        assert WithoutUser(us, i) == [us[0]] + WithoutUser(us[1..], i);
        assert WithoutUser(us, i)[1..] == WithoutUser(us[1..], i);
      } else {
        assert WithoutUser(us, i) == WithoutUser(us[1..], i);
      }
    }
  }

  /** One function of the module, as the passes edit it. `uses` is the use list of
      every value. */
  class Function {
    const cfg: FlowGraph
    var instrs: map<Block, seq<Inst>>
    var kind: map<Inst, Kind>
    var operands: map<Inst, seq<Value>>
    var uses: map<Value, seq<Use>>
    /** The next identity to give to a new instruction. */
    var nextInst: Inst

    constructor (code: Code, uses: map<Value, seq<Use>>, nextInst: Inst)
      ensures GetCode() == code && this.uses == uses && this.nextInst == nextInst
    {
      cfg, instrs, kind, operands := code.cfg, code.instrs, code.kind, code.operands;
      this.uses, this.nextInst := uses, nextInst;
    }

    ghost predicate HasSupply()
      reads this
    {
      forall i :: i in kind || i in operands ==> i < nextInst
    }

    function GetCode(): Code
      reads this
    {
      Code(cfg, instrs, kind, operands)
    }

    ghost predicate Exact(stale: set<Value>)
      reads this
    {
      DefUse(instrs, operands, uses, stale)
    }

    /** `User::set_operand`: the slot changes, the new value's list grows, and the
        old value's list keeps its entry. */
    method SetOperand(u: Inst, k: nat, v: Value)
      requires u in operands && k < |operands[u]|
      modifies this`operands, this`uses
      ensures operands == old(operands)[u := old(operands)[u][k := v]]
      ensures UsesOf(uses, v) == UsesOf(old(uses), v) + [Use(u, k)]
      ensures forall x :: x != v ==> UsesOf(uses, x) == UsesOf(old(uses), x)
    {
      operands := operands[u := operands[u][k := v]];
      uses := uses[v := UsesOf(uses, v) + [Use(u, k)]];
    }

    /** `User::add_operand`. */
    method AddOperand(u: Inst, v: Value, ghost stale: set<Value>)
      requires u in operands && Live(instrs, u) && Exact(stale) && v !in stale
      modifies this`operands, this`uses
      ensures operands == old(operands)[u := old(operands)[u] + [v]]
      ensures Exact(stale)
    {
      ghost var uses0 := uses;
      DefUseKeepsBounds(instrs, operands, uses, stale, u, v);
      uses := uses[v := UsesOf(uses, v) + [Use(u, |operands[u]|)]];
      DefUseOperandAdded(instrs, operands, uses0, stale, u, v, uses);
      operands := operands[u := operands[u] + [v]];
    }

    /** `PhiInst::add_phi_pair_operand`. */
    method AddPhiPair(u: Inst, v: Value, b: Block, ghost stale: set<Value>)
      requires u in operands && Live(instrs, u) && Exact(stale) && v !in stale && Label(b) !in stale
      modifies this`operands, this`uses
      ensures operands == old(operands)[u := old(operands)[u] + [v, Label(b)]]
      ensures Exact(stale)
    {
      hide DefUse, Live;
      AddOperand(u, v, stale);
      AddOperand(u, Label(b), stale);
      assert old(operands)[u] + [v] + [Label(b)] == old(operands)[u] + [v, Label(b)];
    }

    /** `Value::replace_all_use_with`: every slot that holds `v` gets `w`; `v`
        keeps its now stale list. */
    method ReplaceAllUseWith(v: Value, w: Value, ghost stale: set<Value>)
      requires Exact(stale) && v != w && v !in stale && w !in stale
      requires forall u :: Live(instrs, u) ==> u in operands
      modifies this`operands, this`uses
      ensures operands == ReplacedAll(instrs, old(operands), v, w)
      ensures Exact(stale + {v})
    {
      hide DefUse, Holds, Live, Rewritten, ReplacedAll;
      var us := UsesOf(uses, v);
      ghost var operands0, uses0 := operands, uses;
      RewrittenNone(instrs, operands, us, w);
      UseListExact(instrs, operands, uses, stale, v);
      for j := 0 to |us|
        invariant Rewritten(instrs, operands0, us, j, operands, w)
        invariant UsesOf(uses, w) == UsesOf(uses0, w) + us[..j]
        invariant forall x :: x != w ==> UsesOf(uses, x) == UsesOf(uses0, x)
      {
        UseIsSlot(instrs, operands0, us, v, j);
        RewrittenStep(instrs, operands0, us, j, operands, w);
        SetOperand(us[j].user, us[j].argNo, w);
        assert us[..j + 1] == us[..j] + [us[j]];
      }
      assert us[..|us|] == us;
      RewrittenAll(instrs, operands0, us, operands, v, w);
      DefUseReplaced(instrs, operands0, uses0, stale, v, w, uses);
    }

    /** `Value::remove_use`. */
    method RemoveUse(v: Value, i: Inst)
      modifies this`uses
      ensures UsesOf(uses, v) == WithoutUser(UsesOf(old(uses), v), i)
      ensures forall x :: x != v ==> UsesOf(uses, x) == UsesOf(old(uses), x)
    {
      if v in uses {
        uses := uses[v := WithoutUser(uses[v], i)];
      }
    }

    /** `BasicBlock::delete_instr`, with `User::remove_use_of_ops`. */
    method DeleteInstr(b: Block, i: Inst, ghost stale: set<Value>)
      requires Exact(stale) && PlacedOnce(instrs)
      requires b in instrs && i in instrs[b] && i in operands
      modifies this`instrs, this`uses
      ensures instrs == old(instrs)[b := Without(old(instrs)[b], i)]
      ensures Exact(stale)
    {
      ghost var uses0 := uses;
      var ops := operands[i];
      for k := 0 to |ops|
        invariant instrs == old(instrs)
        invariant forall v ::
                    UsesOf(uses, v) == if v in ops[..k] then WithoutUser(UsesOf(uses0, v), i) else UsesOf(uses0, v)
      {
        assert ops[..k + 1] == ops[..k] + [ops[k]];
        WithoutUserTwice(UsesOf(uses0, ops[k]), i);
        RemoveUse(ops[k], i);
      }
      assert ops[..|ops|] == ops;
      DefUseDeleted(instrs, operands, uses0, stale, b, i, uses);
      instrs := instrs[b := Without(instrs[b], i)];
    }

    /** `PhiInst::create_phi` followed by `add_instr_begin`: a new phi for the
        local `lval`, without operands, at the front of `b`. */
    method AddPhi(b: Block, lval: Inst, ghost stale: set<Value>) returns (i: Inst)
      requires Exact(stale) && b in instrs && HasSupply()
      modifies this`instrs, this`kind, this`operands, this`nextInst
      ensures i !in old(operands) && i !in old(kind)
      ensures instrs == old(instrs)[b := [i] + old(instrs)[b]]
      ensures kind == old(kind)[i := Phi(lval)] && operands == old(operands)[i := []]
      ensures Exact(stale) && HasSupply()
    {
      i := nextInst;
      DefUseInstrAdded(instrs, operands, uses, stale, b, i);
      instrs := instrs[b := [i] + instrs[b]];
      kind := kind[i := Phi(lval)];
      operands := operands[i := []];
      nextInst := nextInst + 1;
    }
  }
}
