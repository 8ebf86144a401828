/** The names a function gives to its arguments, blocks and instructions. */
module Naming {
  import opened Lists

  // ----- numbers in decimal -----

  function Digit(d: nat): char
    requires d < 10
  {
    ('0' as int + d) as char
  }

  /** `std::to_string`. */
  function ToString(n: nat): (s: string)
    ensures s != [] && forall i :: 0 <= i < |s| ==> '0' <= s[i] <= '9'
  {
    if n < 10 then [Digit(n)] else ToString(n / 10) + [Digit(n % 10)]
  }

  lemma {:induction false} ToStringInjective(a: nat, b: nat)
    requires ToString(a) == ToString(b)
    ensures a == b
  {
    var s, t := ToString(a), ToString(b);
    if a < 10 || b < 10 {
      assert |s| == 1;
      assert s[0] == t[0];
    } else {
      assert s[|s| - 1] == Digit(a % 10) && t[|t| - 1] == Digit(b % 10);
      assert s[..|s| - 1] == ToString(a / 10) && t[..|t| - 1] == ToString(b / 10);
      ToStringInjective(a / 10, b / 10);
    }
  }

  /** The number a string of digits stands for. */
  function Decimal(s: string): nat
    requires forall i :: 0 <= i < |s| ==> '0' <= s[i] <= '9'
  {
    if s == [] then 0 else 10 * Decimal(s[..|s| - 1]) + (s[|s| - 1] as int - '0' as int)
  }

  /** Decimal digits of the number, without a leading zero. */
  lemma {:induction false} ToStringIsDecimal(n: nat)
    ensures Decimal(ToString(n)) == n && (n > 0 ==> ToString(n)[0] != '0') && (n == 0 ==> ToString(n) == "0")
  {
    var s := ToString(n);
    if n < 10 {
      assert s[..|s| - 1] == [];
    } else {
      ToStringIsDecimal(n / 10);
      assert s[..|s| - 1] == ToString(n / 10) && s[|s| - 1] == Digit(n % 10);
      assert s[0] == ToString(n / 10)[0];
    }
  }

  // ----- what has a name -----

  datatype Value = Argument(id: nat) | Block(id: nat) | Instr(id: nat, isVoid: bool)

  function Prefix(v: Value): string {
    match v
    case Argument(_) => "arg"
    case Block(_) => "label"
    case Instr(_, _) => "op"
  }

  function NameFor(v: Value, n: nat): (s: string)
    ensures s != ""
  {
    Prefix(v) + ToString(n)
  }

  /** The name says the number, and not only within one kind of value. */
  lemma NameSaysNumber(v: Value, m: nat, w: Value, n: nat)
    requires NameFor(v, m) == NameFor(w, n)
    ensures m == n && Prefix(v) == Prefix(w)
  {
    hide ToString;
    var s, p, q := NameFor(v, m), Prefix(v), Prefix(w);
    assert s[0] == p[0] && s[0] == q[0];
    assert s[|p|..] == ToString(m) && s[|q|..] == ToString(n);
    ToStringInjective(m, n);
  }

  /** Names so far. `number` holds the numbers given, for the proofs; `next` is the
      first number not given yet. */
  datatype Names = Names(name: map<Value, string>, number: map<Value, nat>, next: nat)

  function NameOf(s: Names, v: Value): string {
    if v in s.name then s.name[v] else ""
  }

  /** `set_name` with the next number: it does nothing to a value that has a name. */
  function NameOne(s: Names, v: Value): Names {
    if NameOf(s, v) != "" then s
    else Names(s.name[v := NameFor(v, s.next)], s.number[v := s.next], s.next + 1)
  }

  function NameEach(s: Names, vs: seq<Value>): Names
    decreases vs
  {
    if vs == [] then s else NameEach(NameOne(s, vs[0]), vs[1..])
  }

  lemma {:induction false} NameEachConcat(s: Names, a: seq<Value>, c: seq<Value>)
    ensures NameEach(s, a + c) == NameEach(NameEach(s, a), c)
    decreases a
  {
    if a == [] {
      assert a + c == c;
    } else {
      assert (a + c)[1..] == a[1..] + c;
      NameEachConcat(NameOne(s, a[0]), a[1..], c);
    }
  }

  /** Numbers are below `next` and not shared; who has one has the name that says it;
      other names are those blocks were created with. */
  ghost predicate NamesOk(s: Names) {
    && (forall v :: v in s.number ==> s.number[v] < s.next && NameOf(s, v) == NameFor(v, s.number[v]))
    && (forall v, w :: v in s.number && w in s.number && s.number[v] == s.number[w] ==> v == w)
    && (forall v :: NameOf(s, v) != "" && v !in s.number ==> GivenName(v, NameOf(s, v)))
  }

  /** A block created with a name of its own is called `label_` and that name. */
  predicate GivenName(v: Value, name: string) {
    v.Block? && "label_" <= name
  }

  /** Names once given stay. */
  ghost predicate NamesKept(s: Names, s': Names) {
    s.next <= s'.next && (forall v :: NameOf(s, v) != "" ==> NameOf(s', v) == NameOf(s, v))
    && (forall v :: v in s.number ==> v in s'.number && s'.number[v] == s.number[v])
  }

  lemma NameOneOk(s: Names, v: Value)
    requires NamesOk(s)
    ensures NamesOk(NameOne(s, v)) && NamesKept(s, NameOne(s, v)) && NameOf(NameOne(s, v), v) != ""
  {
    hide NameFor, GivenName;
    if NameOf(s, v) == "" {
      var s' := NameOne(s, v);
      assert v !in s.number;
      forall w | w in s'.number
        ensures s'.number[w] < s'.next && NameOf(s', w) == NameFor(w, s'.number[w])
      {
      }
      forall w | NameOf(s', w) != "" && w !in s'.number
        ensures GivenName(w, NameOf(s', w))
      {
        assert NameOf(s, w) == NameOf(s', w);
      }
    }
  }

  lemma KeptTrans(s: Names, s1: Names, s2: Names)
    requires NamesKept(s, s1) && NamesKept(s1, s2)
    ensures NamesKept(s, s2)
  {
  }

  lemma {:induction false} NameEachOk(s: Names, vs: seq<Value>)
    requires NamesOk(s)
    ensures NamesOk(NameEach(s, vs)) && NamesKept(s, NameEach(s, vs))
    ensures forall v :: v in vs ==> NameOf(NameEach(s, vs), v) != ""
    decreases vs
  {
    hide NamesOk, NameOne, NameOf;
    if vs != [] {
      NameOneOk(s, vs[0]);
      NameEachOk(NameOne(s, vs[0]), vs[1..]);
      KeptTrans(s, NameOne(s, vs[0]), NameEach(s, vs));
    } else {
      KeptSame(s);
    }
  }

  lemma KeptSame(s: Names)
    ensures NamesKept(s, s)
  {
  }

  /** No two values share a name, if one of them was given by number. */
  lemma NamesDiffer(s: Names, v: Value, w: Value)
    requires NamesOk(s) && v in s.number && v != w
    ensures NameOf(s, w) != NameOf(s, v)
  {
    if NameOf(s, w) == NameOf(s, v) {
      var n := s.number[v];
      if w in s.number {
        NameSaysNumber(v, n, w, s.number[w]);
      } else {
        NumberedIsNotGiven(v, n, w);
      }
    }
  }

  lemma NumberedIsNotGiven(v: Value, n: nat, w: Value)
    ensures !GivenName(w, NameFor(v, n))
  {
    var s := NameFor(v, n);
    if v.Block? {
      assert s[5] == ToString(n)[0];
    } else {
      assert s[0] == Prefix(v)[0];
    }
  }

  // ----- a function and its changes -----

  datatype State = State(args: seq<Value>, blocks: seq<Value>, instrs: map<Value, seq<Value>>, names: Names)

  function InstrsOf(instrs: map<Value, seq<Value>>, b: Value): seq<Value> {
    if b in instrs then instrs[b] else []
  }

  function IfProducing(v: Value): seq<Value> {
    if v.Instr? && v.isVoid then [] else [v]
  }

  /** Instructions that produce a value. */
  function Producing(vs: seq<Value>): seq<Value> {
    if vs == [] then [] else IfProducing(vs[0]) + Producing(vs[1..])
  }

  function BlockAndInstrs(b: Value, instrs: map<Value, seq<Value>>): seq<Value> {
    [b] + Producing(InstrsOf(instrs, b))
  }

  /** Blocks and their instructions in the order they are named. */
  function BlockOrder(blocks: seq<Value>, instrs: map<Value, seq<Value>>): seq<Value> {
    if blocks == [] then [] else BlockAndInstrs(blocks[0], instrs) + BlockOrder(blocks[1..], instrs)
  }

  function Order(s: State): seq<Value> {
    s.args + BlockOrder(s.blocks, s.instrs)
  }

  /** What may happen to a function between two prints. Instructions may go in at any
      place; `AddBlock` may come with a name. */
  datatype Change =
    | Insert(block: Value, at: nat, instr: Value)
    | Delete(block: Value, instr: Value)
    | AddBlock(block: Value, given: string)
    | RemoveBlock(block: Value)
    | NameAll

  function Inserted(vs: seq<Value>, at: nat, v: Value): seq<Value> {
    if at <= |vs| then vs[..at] + [v] + vs[at..] else vs + [v]
  }

  function Step(s: State, c: Change): State {
    match c
    case Insert(b, at, i) => s.(instrs := s.instrs[b := Inserted(InstrsOf(s.instrs, b), at, i)])
    case Delete(b, i) => s.(instrs := s.instrs[b := Without(InstrsOf(s.instrs, b), i)])
    case AddBlock(b, given) =>
      var named := s.(blocks := s.blocks + [b]);
      if b.Block? && given != "" && NameOf(s.names, b) == "" then
        named.(names := s.names.(name := s.names.name[b := "label_" + given]))
      else named
    case RemoveBlock(b) => s.(blocks := Without(s.blocks, b))
    case NameAll => s.(names := NameEach(s.names, Order(s)))
  }

  function Run(s: State, changes: seq<Change>): State
    decreases changes
  {
    if changes == [] then s else Run(Step(s, changes[0]), changes[1..])
  }

  lemma StepOk(s: State, c: Change)
    requires NamesOk(s.names)
    ensures NamesOk(Step(s, c).names) && NamesKept(s.names, Step(s, c).names)
  {
    hide NameEach, Order, NameFor, Without, Inserted;
    KeptSame(s.names);
    match c
    case NameAll => NameEachOk(s.names, Order(s));
    case AddBlock(b, given) =>
      assert "label_" <= "label_" + given;
      assert NameOf(s.names, b) == "" ==> b !in s.names.number;
    case _ =>
  }

  /** Whatever is inserted, deleted and named in whatever order: a name once given
      never changes, numbered names are never shared, and the names of a naming are
      there from then on. */
  lemma {:induction false} RunOk(s: State, changes: seq<Change>)
    requires NamesOk(s.names)
    ensures var s' := Run(s, changes); NamesOk(s'.names) && NamesKept(s.names, s'.names)
    decreases changes
  {
    hide NamesOk, NamesKept, Step;
    if changes == [] {
      KeptSame(s.names);
    } else {
      var s1 := Step(s, changes[0]);
      StepOk(s, changes[0]);
      RunOk(s1, changes[1..]);
      KeptTrans(s.names, s1.names, Run(s, changes).names);
    }
  }

  lemma RunNames(s: State, changes: seq<Change>, v: Value, w: Value)
    requires NamesOk(s.names)
    ensures var s' := Run(s, changes).names;
            (NameOf(s.names, v) != "" ==> NameOf(s', v) == NameOf(s.names, v))
            && (v in s'.number && v != w ==> NameOf(s', v) != NameOf(s', w))
            && (v in s'.number && w in s'.number && v != w ==> s'.number[v] != s'.number[w])
  {
    hide Run, NameFor;
    RunOk(s, changes);
    var s' := Run(s, changes).names;
    if v in s'.number && v != w {
      NamesDiffer(s', v, w);
    }
  }

  // ----- what a naming does -----

  /** Arguments, blocks, and the instructions of blocks that produce a value. */
  ghost predicate Nameable(s: State, v: Value) {
    v in s.args || v in s.blocks || exists b :: b in s.blocks && StandsIn(s, b, v)
  }

  /** Instruction `v` of block `b` produces a value. */
  predicate StandsIn(s: State, b: Value, v: Value) {
    b in s.instrs && v in s.instrs[b] && !(v.Instr? && v.isVoid)
  }

  ghost predicate Gets(s: Names, s': Names, v: Value) {
    NameOf(s, v) == "" && NameOf(s', v) != ""
  }

  /** A value that gets a name gets its kind and its number, in decimal. */
  predicate NameRight(s': Names, v: Value) {
    v in s'.number
    && NameOf(s', v) == (match v
                         case Argument(_) => "arg" + ToString(s'.number[v])
                         case Block(_) => "label" + ToString(s'.number[v])
                         case Instr(_, _) => "op" + ToString(s'.number[v]))
  }

  /** Just the values in `vs` that had no name get one, with the numbers from `next` on,
      each number going to one of them; other names stay. */
  ghost predicate NumbersUsed(s: Names, s': Names) {
    && (forall v :: NameOf(s, v) != "" ==> NameOf(s', v) == NameOf(s, v))
    && (forall v :: Gets(s, s', v) ==> NameRight(s', v) && s.next <= s'.number[v] < s'.next)
    && (forall v, w :: Gets(s, s', v) && Gets(s, s', w) && s'.number[v] == s'.number[w] ==> v == w)
    && s.next <= s'.next
    && forall n :: s.next <= n < s'.next ==> Taken(s, s', n)
  }

  ghost predicate Taken(s: Names, s': Names, n: nat) {
    exists v :: Gets(s, s', v) && v in s'.number && s'.number[v] == n
  }

  ghost predicate Before(s: Names, s': Names, v: Value, w: Value) {
    Gets(s, s', v) && Gets(s, s', w) ==> v in s'.number && w in s'.number && s'.number[v] < s'.number[w]
  }

  /** `b` or one of its instructions that produce a value. */
  predicate InOrOf(s: State, b: Value, v: Value) {
    v == b || StandsIn(s, b, v)
  }

  /** Arguments come before everything else, in their order; blocks come in their order,
      each with its instructions behind it and before the next block. What stands at
      several places counts at the first. */
  ghost predicate InOrder(s: State, s': Names) {
    && (forall i, j :: 0 <= i < j < |s.args| && s.args[j] !in s.args[..j] ==> Before(s.names, s', s.args[i], s.args[j]))
    && (forall v, w :: v in s.args && w !in s.args ==> Before(s.names, s', v, w))
    && (forall i, j, v, w :: 0 <= i < j < |s.blocks| && InOrOf(s, s.blocks[i], v) && FirstIn(s, j, w) ==>
          Before(s.names, s', v, w))
    && (forall j, w :: 0 <= j < |s.blocks| && FirstIn(s, j, w) && w != s.blocks[j] ==>
          Before(s.names, s', s.blocks[j], w))
    && (forall j, k, l :: 0 <= j < |s.blocks| && 0 <= k < l && FirstAt(s, j, l) && Produces(s, j, k) ==>
          Before(s.names, s', s.instrs[s.blocks[j]][k], s.instrs[s.blocks[j]][l]))
  }

  /** Neither an argument nor in one of the first `j` blocks. */
  ghost predicate NotBefore(s: State, j: nat, w: Value)
    requires j <= |s.blocks|
  {
    w !in s.args && forall i :: 0 <= i < j ==> !InOrOf(s, s.blocks[i], w)
  }

  /** The `j`-th block is the first with `w`. */
  ghost predicate FirstIn(s: State, j: nat, w: Value)
    requires j < |s.blocks|
  {
    InOrOf(s, s.blocks[j], w) && NotBefore(s, j, w)
  }

  /** Instruction `l` of the `j`-th block stands nowhere before. */
  ghost predicate FirstAt(s: State, j: nat, l: nat)
    requires j < |s.blocks|
  {
    && s.blocks[j] in s.instrs && l < |s.instrs[s.blocks[j]]|
    && FirstIn(s, j, s.instrs[s.blocks[j]][l]) && s.instrs[s.blocks[j]][l] != s.blocks[j]
    && s.instrs[s.blocks[j]][l] !in s.instrs[s.blocks[j]][..l]
  }

  ghost predicate Produces(s: State, j: nat, k: nat)
    requires j < |s.blocks|
  {
    s.blocks[j] in s.instrs && k < |s.instrs[s.blocks[j]]| && StandsIn(s, s.blocks[j], s.instrs[s.blocks[j]][k])
  }

  /** What a naming does. */
  ghost predicate Named(s: State, s': State) {
    && s'.args == s.args && s'.blocks == s.blocks && s'.instrs == s.instrs
    && (forall v :: NameOf(s'.names, v) != "" <==> NameOf(s.names, v) != "" || Nameable(s, v))
    && NumbersUsed(s.names, s'.names) && InOrder(s, s'.names)
  }

  lemma NameOneNumbers(s: Names, v: Value)
    ensures NumbersUsed(s, NameOne(s, v))
    ensures forall w :: NameOf(NameOne(s, v), w) != "" <==> NameOf(s, w) != "" || w == v
  {
    hide ToString;
    var s' := NameOne(s, v);
    if NameOf(s, v) == "" {
      assert Gets(s, s', v) && s'.number[v] == s.next;
      assert Taken(s, s', s.next);
    }
  }

  lemma NumbersTrans(s: Names, s1: Names, s2: Names)
    requires NumbersUsed(s, s1) && NumbersUsed(s1, s2)
    requires forall v :: v in s1.number && NameOf(s1, v) != "" ==> v in s2.number && s2.number[v] == s1.number[v]
    ensures NumbersUsed(s, s2)
  {
    hide ToString, NameOf;
    forall v | Gets(s, s2, v)
      ensures NameRight(s2, v) && s.next <= s2.number[v] < s2.next
      ensures if NameOf(s1, v) == "" then Gets(s1, s2, v) && s1.next <= s2.number[v]
              else Gets(s, s1, v) && v in s1.number && s2.number[v] == s1.number[v] < s1.next
    {
      if NameOf(s1, v) == "" {
        assert Gets(s1, s2, v);
      } else {
        assert Gets(s, s1, v);
        assert NameRight(s1, v);
      }
    }
    forall n | s.next <= n < s2.next
      ensures Taken(s, s2, n)
    {
      if n < s1.next {
        assert Taken(s, s1, n);
        var v :| Gets(s, s1, v) && s1.number[v] == n;
        assert Gets(s, s2, v);
      } else {
        assert Taken(s1, s2, n);
        var v :| Gets(s1, s2, v) && s2.number[v] == n;
        assert Gets(s, s2, v);
      }
    }
  }

  /** Who has a name keeps its number. */
  lemma {:induction false} NumbersStay(s: Names, vs: seq<Value>)
    ensures forall v :: v in s.number && NameOf(s, v) != "" ==>
              v in NameEach(s, vs).number && NameEach(s, vs).number[v] == s.number[v]
              && NameOf(NameEach(s, vs), v) == NameOf(s, v)
    decreases vs
  {
    hide NameFor;
    if vs != [] {
      NumbersStay(NameOne(s, vs[0]), vs[1..]);
    }
  }

  lemma {:induction false} NameEachNumbers(s: Names, vs: seq<Value>)
    ensures NumbersUsed(s, NameEach(s, vs))
    ensures forall w :: NameOf(NameEach(s, vs), w) != "" <==> NameOf(s, w) != "" || w in vs
    decreases vs
  {
    hide NumbersUsed, NameOne, NameOf;
    if vs == [] {
      NoneUsed(s);
    } else {
      var s1 := NameOne(s, vs[0]);
      NameOneNumbers(s, vs[0]);
      NameEachNumbers(s1, vs[1..]);
      NumbersStay(s1, vs[1..]);
      NumbersTrans(s, s1, NameEach(s, vs));
      assert forall w :: w in vs <==> w == vs[0] || w in vs[1..];
    }
  }

  lemma NoneUsed(s: Names)
    ensures NumbersUsed(s, s)
  {
  }

  /** What is named first has the lower number. */
  lemma EarlierIsLower(s: Names, a: seq<Value>, c: seq<Value>, v: Value, w: Value)
    requires v in a && w !in a
    ensures Before(s, NameEach(s, a + c), v, w)
  {
    hide NameEach, NameOf;
    NameEachConcat(s, a, c);
    var s1 := NameEach(s, a);
    NameEachNumbers(s, a);
    NameEachNumbers(s1, c);
    NumbersStay(s1, c);
    if Gets(s, NameEach(s, a + c), v) && Gets(s, NameEach(s, a + c), w) {
      assert Gets(s, s1, v) && Gets(s1, NameEach(s1, c), w);
    }
  }

  // ----- what is named when -----

  lemma {:induction false} ProducingHolds(vs: seq<Value>, v: Value)
    ensures v in Producing(vs) <==> v in vs && !(v.Instr? && v.isVoid)
  {
    if vs != [] {
      ProducingHolds(vs[1..], v);
      assert v in vs <==> v == vs[0] || v in vs[1..];
    }
  }

  lemma {:induction false} OrderHolds(s: State, j: nat, v: Value)
    requires j <= |s.blocks|
    ensures v in BlockOrder(s.blocks[..j], s.instrs) <==> exists i :: 0 <= i < j && InOrOf(s, s.blocks[i], v)
    decreases j
  {
    hide BlockOrder, Producing;
    OrderUpTo(s.blocks, s.instrs, j);
    if j > 0 {
      OrderHolds(s, j - 1, v);
      ProducingHolds(InstrsOf(s.instrs, s.blocks[j - 1]), v);
    }
  }

  lemma OrderSplit(s: State, j: nat) returns (rest: seq<Value>)
    requires j < |s.blocks|
    ensures Order(s) == s.args + BlockOrder(s.blocks[..j], s.instrs)
                        + ([s.blocks[j]] + Producing(InstrsOf(s.instrs, s.blocks[j])) + rest)
  {
    hide Producing;
    rest := BlockOrder(s.blocks[j + 1..], s.instrs);
    assert s.blocks == s.blocks[..j] + s.blocks[j..];
    OrderConcat(s.blocks[..j], s.blocks[j..], s.instrs);
    assert s.blocks[j..][1..] == s.blocks[j + 1..];
    hide BlockOrder;
    OrderOf(s.blocks[j..], s.instrs);
  }

  lemma OrderHoldsNameable(s: State, v: Value)
    ensures v in Order(s) <==> Nameable(s, v)
  {
    hide BlockOrder;
    OrderHolds(s, |s.blocks|, v);
    assert s.blocks[..|s.blocks|] == s.blocks;
    if exists b :: b in s.blocks && StandsIn(s, b, v) {
      var b :| b in s.blocks && StandsIn(s, b, v);
      var i :| 0 <= i < |s.blocks| && s.blocks[i] == b;
      assert InOrOf(s, s.blocks[i], v);
    }
    if v in s.blocks {
      var i :| 0 <= i < |s.blocks| && s.blocks[i] == v;
      assert InOrOf(s, s.blocks[i], v);
    }
  }

  lemma ArgsInOrder(s: State, i: nat, j: nat)
    requires i < j < |s.args| && s.args[j] !in s.args[..j]
    ensures Before(s.names, NameEach(s.names, Order(s)), s.args[i], s.args[j])
  {
    hide BlockOrder, Before, NameEach;
    assert Order(s) == s.args[..j] + (s.args[j..] + BlockOrder(s.blocks, s.instrs));
    assert s.args[..j][i] == s.args[i];
    EarlierIsLower(s.names, s.args[..j], s.args[j..] + BlockOrder(s.blocks, s.instrs), s.args[i], s.args[j]);
  }

  lemma BlocksInOrder(s: State, i: nat, j: nat, v: Value, w: Value)
    requires i < j < |s.blocks| && InOrOf(s, s.blocks[i], v) && FirstIn(s, j, w)
    ensures Before(s.names, NameEach(s.names, Order(s)), v, w)
  {
    hide BlockOrder, Order, Before, NameEach, Producing, InOrOf;
    var rest := OrderSplit(s, j);
    OrderHolds(s, j, v);
    OrderHolds(s, j, w);
    EarlierIsLower(s.names, s.args + BlockOrder(s.blocks[..j], s.instrs),
                   [s.blocks[j]] + Producing(InstrsOf(s.instrs, s.blocks[j])) + rest, v, w);
  }

  lemma BlockBeforeInstrs(s: State, j: nat, w: Value)
    requires j < |s.blocks| && FirstIn(s, j, w) && w != s.blocks[j]
    ensures Before(s.names, NameEach(s.names, Order(s)), s.blocks[j], w)
  {
    hide BlockOrder, Order, Before, NameEach, Producing, InOrOf;
    var rest := OrderSplit(s, j);
    OrderHolds(s, j, w);
    var a, c := s.args + BlockOrder(s.blocks[..j], s.instrs), Producing(InstrsOf(s.instrs, s.blocks[j])) + rest;
    assert Order(s) == a + [s.blocks[j]] + c;
    EarlierIsLower(s.names, a + [s.blocks[j]], c, s.blocks[j], w);
  }

  lemma InstrsInOrder(s: State, j: nat, k: nat, l: nat)
    requires j < |s.blocks| && FirstAt(s, j, l) && k < l && Produces(s, j, k)
    ensures Before(s.names, NameEach(s.names, Order(s)), s.instrs[s.blocks[j]][k], s.instrs[s.blocks[j]][l])
  {
    hide BlockOrder, Order, Before, NameEach, Producing, InOrOf;
    var list := s.instrs[s.blocks[j]];
    var rest := OrderSplit(s, j);
    OrderHolds(s, j, list[l]);
    ProducingHolds(list[..l], list[k]);
    ProducingHolds(list[..l], list[l]);
    assert list[..l][k] == list[k];
    assert list == list[..l] + list[l..];
    ProducingConcat(list[..l], list[l..]);
    var a := s.args + BlockOrder(s.blocks[..j], s.instrs) + [s.blocks[j]] + Producing(list[..l]);
    assert Order(s) == a + (Producing(list[l..]) + rest);
    EarlierIsLower(s.names, a, Producing(list[l..]) + rest, list[k], list[l]);
  }

  /** After a naming the arguments, the blocks and the instructions that produce a value
      have names, and nothing else got one; the new ones are numbered in order, without
      gaps, from where the counter stood. */
  lemma AllNamed(s: State)
    ensures Named(s, Step(s, NameAll))
  {
    hide NumbersUsed, NameEach, NameOf, Before, Order, InOrOf, FirstIn, FirstAt, StandsIn;
    NameEachNumbers(s.names, Order(s));
    forall v
      ensures v in Order(s) <==> Nameable(s, v)
    {
      OrderHoldsNameable(s, v);
    }
    OrderKept(s);
  }

  lemma OrderKept(s: State)
    ensures InOrder(s, NameEach(s.names, Order(s)))
  {
    hide NameEach, NameOf, Before, BlockOrder, InOrOf, FirstIn, FirstAt, StandsIn;
    var s' := NameEach(s.names, Order(s));
    forall i, j | 0 <= i < j < |s.args| && s.args[j] !in s.args[..j]
      ensures Before(s.names, s', s.args[i], s.args[j])
    {
      ArgsInOrder(s, i, j);
    }
    forall v, w | v in s.args && w !in s.args
      ensures Before(s.names, s', v, w)
    {
      EarlierIsLower(s.names, s.args, BlockOrder(s.blocks, s.instrs), v, w);
    }
    forall i, j, v, w | 0 <= i < j < |s.blocks| && InOrOf(s, s.blocks[i], v) && FirstIn(s, j, w)
      ensures Before(s.names, s', v, w)
    {
      BlocksInOrder(s, i, j, v, w);
    }
    forall j, w | 0 <= j < |s.blocks| && FirstIn(s, j, w) && w != s.blocks[j]
      ensures Before(s.names, s', s.blocks[j], w)
    {
      BlockBeforeInstrs(s, j, w);
    }
    InstrsKept(s);
  }

  lemma InstrsKept(s: State)
    ensures forall j, k, l :: 0 <= j < |s.blocks| && 0 <= k < l && FirstAt(s, j, l) && Produces(s, j, k) ==>
              Before(s.names, NameEach(s.names, Order(s)), s.instrs[s.blocks[j]][k], s.instrs[s.blocks[j]][l])
  {
    hide NameEach, Before, Order, FirstIn, StandsIn;
    forall j, k, l | 0 <= j < |s.blocks| && 0 <= k < l && FirstAt(s, j, l) && Produces(s, j, k)
      ensures Before(s.names, NameEach(s.names, Order(s)), s.instrs[s.blocks[j]][k], s.instrs[s.blocks[j]][l])
    {
      InstrsInOrder(s, j, k, l);
    }
  }

  // ----- the function object -----

  class NamedFunction {
    var args: seq<Value>
    var blocks: seq<Value>
    var instrs: map<Value, seq<Value>>
    var name: map<Value, string>
    var seqCnt: nat
    ghost var number: map<Value, nat>

    constructor (arguments: seq<Value>)
      ensures args == arguments && blocks == [] && instrs == map[] && name == map[] && seqCnt == 0 && number == map[]
      ensures NamesOk(CurrentState().names)
    {
      args, blocks, instrs, name, seqCnt, number := arguments, [], map[], map[], 0, map[];
    }

    ghost function CurrentState(): State
      reads this
    {
      State(args, blocks, instrs, Names(name, number, seqCnt))
    }

    /** The names in the middle of a naming: `count` given so far. */
    ghost function Within(count: nat): Names
      reads this
    {
      Names(name, number, seqCnt + count)
    }

    method SetName(v: Value, s: string) returns (ok: bool)
      modifies this`name
      ensures ok <==> (if v in old(name) then old(name)[v] else "") == ""
      ensures name == if ok then old(name)[v := s] else old(name)
    {
      if v !in name || name[v] == "" {
        name := name[v := s];
        return true;
      }
      return false;
    }

    /** One value of the walk: `seq` holds the numbers given in this naming. */
    method NameValue(v: Value, numbered: map<Value, nat>) returns (after: map<Value, nat>)
      requires forall w :: w in numbered ==> NameOf(Within(0), w) != ""
      modifies this`name, this`number
      ensures forall w :: w in after ==> NameOf(Within(0), w) != ""
      ensures Within(|after|) == NameOne(old(Within(|numbered|)), v)
    {
      after := numbered;
      if v !in numbered {
        var n := |numbered| + seqCnt;
        var ok := SetName(v, NameFor(v, n));
        if ok {
          after := numbered[v := n];
          number := number[v := n];
        }
      }
    }

    method NameValues(vs: seq<Value>, numbered: map<Value, nat>) returns (after: map<Value, nat>)
      requires forall w :: w in numbered ==> NameOf(Within(0), w) != ""
      modifies this`name, this`number
      ensures forall w :: w in after ==> NameOf(Within(0), w) != ""
      ensures Within(|after|) == NameEach(old(Within(|numbered|)), Producing(vs))
    {
      hide NameOne, NameEach, NameOf, Producing;
      after := numbered;
      ProducedUpTo(vs, 0);
      NamedNext(Within(|numbered|), [], Block(0));
      for i := 0 to |vs|
        invariant forall w :: w in after ==> NameOf(Within(0), w) != ""
        invariant Within(|after|) == NameEach(old(Within(|numbered|)), Producing(vs[..i]))
      {
        ProducedUpTo(vs, i + 1);
        assert Producing(vs[..i]) + [] == Producing(vs[..i]);
        NamedNext(old(Within(|numbered|)), Producing(vs[..i]), vs[i]);
        if !(vs[i].Instr? && vs[i].isVoid) {
          after := NameValue(vs[i], after);
        }
      }
      assert vs[..|vs|] == vs;
    }

    /** Arguments first, then each block and its instructions, each with the next number
        unless it has a name; the counter moves on by as many as were named. */
    method SetInstrName()
      modifies this`name, this`number, this`seqCnt
      ensures CurrentState() == Step(old(CurrentState()), NameAll) && Named(old(CurrentState()), CurrentState())
    {
      hide NameOne, NameEach, NameOf, BlockOrder, Producing, Named;
      AllNamed(CurrentState());
      var numbered: map<Value, nat> := map[];
      NamedNext(Within(0), [], Block(0));
      for i := 0 to |args|
        invariant forall w :: w in numbered ==> NameOf(Within(0), w) != ""
        invariant Within(|numbered|) == NameEach(old(Within(0)), args[..i])
      {
        NamedNext(old(Within(0)), args[..i], args[i]);
        assert args[..i + 1] == args[..i] + [args[i]];
        numbered := NameValue(args[i], numbered);
      }
      assert args[..|args|] == args;
      OrderUpTo(blocks, instrs, 0);
      assert args + [] == args;
      for i := 0 to |blocks|
        invariant forall w :: w in numbered ==> NameOf(Within(0), w) != ""
        invariant Within(|numbered|) == NameEach(old(Within(0)), args + BlockOrder(blocks[..i], instrs))
      {
        var b := blocks[i];
        ghost var done := args + BlockOrder(blocks[..i], instrs);
        OrderUpTo(blocks, instrs, i + 1);
        NamedNext(old(Within(0)), done, b);
        NameEachConcat(old(Within(0)), done + [b], Producing(InstrsOf(instrs, b)));
        assert args + BlockOrder(blocks[..i + 1], instrs) == done + [b] + Producing(InstrsOf(instrs, b));
        numbered := NameValue(b, numbered);
        numbered := NameValues(InstrsOf(instrs, b), numbered);
      }
      assert blocks[..|blocks|] == blocks;
      seqCnt := seqCnt + |numbered|;
    }
  }

  lemma NamedNext(s: Names, done: seq<Value>, v: Value)
    ensures NameEach(s, done + [v]) == NameOne(NameEach(s, done), v) && NameEach(s, []) == s
  {
    NameEachConcat(s, done, [v]);
    assert [v][1..] == [];
  }

  lemma Joined(a: seq<Value>, c: seq<Value>)
    requires a != []
    ensures a + c != [] && (a + c)[0] == a[0] && (a + c)[1..] == a[1..] + c
  {
  }

  lemma Regrouped(a: seq<Value>, c: seq<Value>, d: seq<Value>)
    ensures a + (c + d) == a + c + d
  {
  }

  lemma ProducingOf(vs: seq<Value>)
    requires vs != []
    ensures Producing(vs) == IfProducing(vs[0]) + Producing(vs[1..])
  {
    hide IfProducing;
  }

  lemma {:induction false} ProducingConcat(a: seq<Value>, c: seq<Value>)
    ensures Producing(a + c) == Producing(a) + Producing(c)
  {
    if a == [] {
      assert a + c == c;
    } else {
      hide Producing, IfProducing;
      Joined(a, c);
      ProducingConcat(a[1..], c);
      ProducingOf(a);
      ProducingOf(a + c);
      Regrouped(IfProducing(a[0]), Producing(a[1..]), Producing(c));
    }
  }

  lemma ProducedUpTo(vs: seq<Value>, i: nat)
    requires i <= |vs|
    ensures i == 0 ==> Producing(vs[..i]) == []
    ensures i > 0 ==> var v := vs[i - 1]; Producing(vs[..i]) == Producing(vs[..i - 1]) + IfProducing(v)
  {
    if i > 0 {
      assert vs[..i] == vs[..i - 1] + [vs[i - 1]];
      ProducingConcat(vs[..i - 1], [vs[i - 1]]);
      assert [vs[i - 1]][1..] == [];
    }
  }

  lemma OrderOf(blocks: seq<Value>, instrs: map<Value, seq<Value>>)
    requires blocks != []
    ensures BlockOrder(blocks, instrs) == BlockAndInstrs(blocks[0], instrs) + BlockOrder(blocks[1..], instrs)
  {
    hide BlockAndInstrs;
  }

  lemma {:induction false} OrderConcat(a: seq<Value>, c: seq<Value>, instrs: map<Value, seq<Value>>)
    ensures BlockOrder(a + c, instrs) == BlockOrder(a, instrs) + BlockOrder(c, instrs)
  {
    if a == [] {
      assert a + c == c;
    } else {
      hide BlockOrder, BlockAndInstrs;
      Joined(a, c);
      OrderConcat(a[1..], c, instrs);
      OrderOf(a, instrs);
      OrderOf(a + c, instrs);
      Regrouped(BlockAndInstrs(a[0], instrs), BlockOrder(a[1..], instrs), BlockOrder(c, instrs));
    }
  }

  lemma OrderUpTo(blocks: seq<Value>, instrs: map<Value, seq<Value>>, i: nat)
    requires i <= |blocks|
    ensures i == 0 ==> BlockOrder(blocks[..i], instrs) == []
    ensures i > 0 ==>
              BlockOrder(blocks[..i], instrs) == BlockOrder(blocks[..i - 1], instrs) + [blocks[i - 1]]
                + Producing(InstrsOf(instrs, blocks[i - 1]))
  {
    if i > 0 {
      assert blocks[..i] == blocks[..i - 1] + [blocks[i - 1]];
      OrderConcat(blocks[..i - 1], [blocks[i - 1]], instrs);
      assert [blocks[i - 1]][1..] == [];
    }
  }
}
