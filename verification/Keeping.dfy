/** Deleting instructions from a list: positions, order, and what is left. */
module Keeping {
  import opened Ir
  import opened Lists

  function Keep(list: seq<Inst>, drop: set<Inst>): seq<Inst> {
    if list == [] then [] else (if list[0] in drop then [] else [list[0]]) + Keep(list[1..], drop)
  }

  /** Where position `p` of `list` ends up in `Keep(list, drop)`. */
  function Moved(list: seq<Inst>, drop: set<Inst>, p: nat): nat
    requires p <= |list|
  {
    |Keep(list[..p], drop)|
  }

  lemma {:induction false} KeepConcat(a: seq<Inst>, b: seq<Inst>, drop: set<Inst>)
    ensures Keep(a + b, drop) == Keep(a, drop) + Keep(b, drop)
  {
    if a == [] {
      assert a + b == b;
    } else {
      var head := if a[0] in drop then [] else [a[0]];
      KeepConcat(a[1..], b, drop);
      assert (a + b)[1..] == a[1..] + b;
      assert Keep(a + b, drop) == head + (Keep(a[1..], drop) + Keep(b, drop));
      assert Keep(a, drop) == head + Keep(a[1..], drop);
    }
  }

  lemma KeepSplit(list: seq<Inst>, drop: set<Inst>, p: nat)
    requires p < |list|
    ensures Keep(list, drop)
            == Keep(list[..p], drop) + (if list[p] in drop then [] else [list[p]]) + Keep(list[p + 1..], drop)
  {
    assert list == list[..p] + list[p..];
    KeepConcat(list[..p], list[p..], drop);
    assert list[p..][1..] == list[p + 1..];
  }

  lemma MovedAt(list: seq<Inst>, drop: set<Inst>, p: nat)
    requires p < |list| && list[p] !in drop
    ensures Moved(list, drop, p) < |Keep(list, drop)| && Keep(list, drop)[Moved(list, drop, p)] == list[p]
  {
    KeepSplit(list, drop, p);
  }

  lemma MovedStep(list: seq<Inst>, drop: set<Inst>, p: nat)
    requires p < |list|
    ensures Moved(list, drop, p + 1) == Moved(list, drop, p) + if list[p] in drop then 0 else 1
  {
    assert list[..p + 1] == list[..p] + [list[p]];
    KeepConcat(list[..p], [list[p]], drop);
  }

  lemma {:induction false} MovedMonotone(list: seq<Inst>, drop: set<Inst>, p: nat, q: nat)
    requires p <= q <= |list|
    ensures Moved(list, drop, p) <= Moved(list, drop, q)
    ensures p < q && list[p] !in drop ==> Moved(list, drop, p) < Moved(list, drop, q)
    decreases q - p
  {
    if p < q {
      MovedMonotone(list, drop, p, q - 1);
      MovedStep(list, drop, q - 1);
    }
  }

  /** Every kept position comes from one of the list. */
  lemma MovedTail(list: seq<Inst>, drop: set<Inst>, p: nat)
    requires p < |list|
    ensures Moved(list, drop, p + 1) == Moved(list[1..], drop, p) + if list[0] in drop then 0 else 1
  {
    assert list[..p + 1] == [list[0]] + list[1..][..p];
    KeepConcat([list[0]], list[1..][..p], drop);
    assert Keep([list[0]], drop) == if list[0] in drop then [] else [list[0]];
  }

  lemma {:induction false} KeptFrom(list: seq<Inst>, drop: set<Inst>, r: nat) returns (p: nat)
    requires r < |Keep(list, drop)|
    ensures p < |list| && list[p] == Keep(list, drop)[r] && list[p] !in drop && Moved(list, drop, p) == r
  {
    if list[0] !in drop && r == 0 {
      p := 0;
      assert list[..0] == [];
    } else {
      var r' := if list[0] in drop then r else r - 1;
      var p' := KeptFrom(list[1..], drop, r');
      p := p' + 1;
      MovedTail(list, drop, p');
    }
  }

  lemma KeepContents(list: seq<Inst>, drop: set<Inst>)
    ensures forall i :: i in Keep(list, drop) <==> i in list && i !in drop
  {
    forall i | i in Keep(list, drop)
      ensures i in list && i !in drop
    {
      var r :| 0 <= r < |Keep(list, drop)| && Keep(list, drop)[r] == i;
      var p := KeptFrom(list, drop, r);
    }
    forall i | i in list && i !in drop
      ensures i in Keep(list, drop)
    {
      var p :| 0 <= p < |list| && list[p] == i;
      MovedAt(list, drop, p);
    }
  }

  /** Deleting one instruction after others. */
  lemma {:induction false} KeepWithout(list: seq<Inst>, drop: set<Inst>, i: Inst)
    ensures Without(Keep(list, drop), i) == Keep(list, drop + {i})
  {
    if list != [] {
      KeepWithout(list[1..], drop, i);
      if list[0] in drop {
        assert Keep(list, drop) == Keep(list[1..], drop);
      } else {
        assert Keep(list, drop)[1..] == Keep(list[1..], drop);
      }
      if list[0] in drop + {i} {
        assert Keep(list, drop + {i}) == Keep(list[1..], drop + {i});
      }
    }
  }

  lemma {:induction false} KeepNothing(list: seq<Inst>)
    ensures Keep(list, {}) == list
  {
    if list != [] {
      KeepNothing(list[1..]);
    }
  }

  /** Deleting twice. */
  lemma {:induction false} KeepTwice(list: seq<Inst>, drop: set<Inst>, drop': set<Inst>)
    ensures Keep(Keep(list, drop), drop') == Keep(list, drop + drop')
  {
    if list != [] {
      KeepTwice(list[1..], drop, drop');
      if list[0] in drop {
        assert Keep(list, drop) == Keep(list[1..], drop);
        assert Keep(list, drop + drop') == Keep(list[1..], drop + drop');
      } else {
        assert Keep(list, drop)[1..] == Keep(list[1..], drop);
      }
    }
  }

  lemma {:induction false} KeepSame(list: seq<Inst>, drop: set<Inst>, drop': set<Inst>)
    requires forall i :: i in list ==> (i in drop <==> i in drop')
    ensures Keep(list, drop) == Keep(list, drop')
  {
    if list != [] {
      KeepSame(list[1..], drop, drop');
    }
  }
}
