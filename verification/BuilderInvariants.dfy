/** What the builder's operations keep true about the flow graph they build. */
module BuilderInvariants {
  import opened FlowGraphs
  import opened BlockBuilder
  import opened Lists

  // ----- blocks and their edges -----

  function GraphOf(b: Builder): FlowGraph {
    FlowGraph(b.entry, b.succs, b.preds)
  }

  /** The edges a block's last instruction calls for. */
  function EdgesOf(items: seq<Item>): seq<Block> {
    if !Terminated(items) then []
    else match items[|items| - 1]
         case Jump(t) => [t]
         case Branch(t, f) => [f, t]
         case _ => []
  }

  /** At most one terminator, in last place, and the edges it calls for. */
  ghost predicate BlockOk(items: seq<Item>, succs: seq<Block>) {
    (forall k :: 0 <= k < |items| - 1 ==> !IsTerminator(items[k])) && succs == EdgesOf(items)
  }

  ghost predicate BodiesOk(body: map<Block, seq<Item>>, succs: map<Block, seq<Block>>) {
    body.Keys == succs.Keys && forall x :: x in body ==> BlockOk(body[x], succs[x])
  }

  /** All blocks, in the order of their creation. */
  ghost predicate ListOk(list: seq<Block>, blocks: set<Block>) {
    Ascending(list) && forall x :: x in list <==> x in blocks
  }

  ghost predicate Ascending(list: seq<Block>) {
    forall i, j :: 0 <= i < j < |list| ==> list[i] < list[j]
  }

  /** Edges mirror each other, one entry for one, and none leads to the entry. */
  ghost predicate GraphOk(g: FlowGraph) {
    g.Valid() && Balanced(g) && g.preds[g.entry] == []
  }

  /** As many edges on one side as on the other. */
  ghost predicate Balanced(g: FlowGraph) {
    forall x, y :: x in g.succs && y in g.preds ==> multiset(g.preds[y])[x] == multiset(g.succs[x])[y]
  }

  ghost predicate KeysOk(b: Builder) {
    && b.body.Keys == b.succs.Keys == b.preds.Keys
    && (forall x :: x in b.body ==> x < b.next)
    && b.insert in b.body && b.ret in b.body && b.entry in b.body && b.entry != b.ret
  }

  ghost predicate Shape(b: Builder) {
    KeysOk(b) && ListOk(b.list, b.body.Keys) && GraphOk(GraphOf(b)) && BodiesOk(b.body, b.succs)
  }

  ghost function OpenSet(body: map<Block, seq<Item>>): set<Block> {
    set x | x in body && !Terminated(body[x])
  }

  // ----- paths -----

  ghost predicate HasPath(g: FlowGraph, x: Block, y: Block) {
    exists p :: g.PathFromTo(p, x, y)
  }

  ghost predicate ReachesOpen(g: FlowGraph, open: set<Block>, x: Block) {
    exists o :: o in open && HasPath(g, x, o)
  }

  /** Every block reaches an open one, and all but the pending are reached. */
  ghost predicate Linked(g: FlowGraph, open: set<Block>, pending: set<Block>, blocks: set<Block>) {
    && (forall x :: x in blocks ==> ReachesOpen(g, open, x))
    && (forall x :: x in blocks && x !in pending ==> HasPath(g, g.entry, x))
  }

  /** `reserved` are the blocks to be filled later, `pending` those of them that
      nothing may lead to yet. Apart from them only the insertion block can be open. */
  ghost predicate SetsOk(open: set<Block>, insert: Block, ret: Block, reserved: set<Block>, pending: set<Block>) {
    && pending <= reserved && insert !in reserved && ret in reserved
    && open == reserved + (if insert in open then {insert} else {})
  }

  ghost predicate Sane(b: Builder, reserved: set<Block>, pending: set<Block>) {
    && Shape(b) && b.entry !in reserved
    && SetsOk(OpenSet(b.body), b.insert, b.ret, reserved, pending)
    && Linked(GraphOf(b), OpenSet(b.body), pending, b.body.Keys)
  }

  /** Edges are only added. */
  ghost predicate MoreEdges(g: FlowGraph, g': FlowGraph) {
    forall x :: x in g.succs ==> x in g'.succs && forall s :: s in g.succs[x] ==> s in g'.succs[x]
  }

  lemma PathKept(g: FlowGraph, g': FlowGraph, x: Block, y: Block)
    requires MoreEdges(g, g') && HasPath(g, x, y)
    ensures HasPath(g', x, y)
  {
    var p :| g.PathFromTo(p, x, y);
    assert g'.PathFromTo(p, x, y);
  }

  lemma PathJoined(g: FlowGraph, x: Block, y: Block, z: Block)
    requires HasPath(g, x, y) && HasPath(g, y, z)
    ensures HasPath(g, x, z)
  {
    var p :| g.PathFromTo(p, x, y);
    var q :| g.PathFromTo(q, y, z);
    PathConcat(g, p, q, x, y, z);
  }

  lemma PathOfEdge(g: FlowGraph, x: Block, y: Block)
    requires x in g.succs && y in g.succs && y in g.succs[x]
    ensures HasPath(g, x, y)
  {
    assert g.PathFromTo([x, y], x, y);
  }

  lemma PathToSelf(g: FlowGraph, x: Block)
    requires x in g.succs
    ensures HasPath(g, x, x)
  {
    assert g.PathFromTo([x], x, x);
  }

  lemma MoreEdgesTrans(g: FlowGraph, g': FlowGraph, g'': FlowGraph)
    requires MoreEdges(g, g') && MoreEdges(g', g'')
    ensures MoreEdges(g, g'')
  {
  }

  lemma SaneParts(b: Builder, reserved: set<Block>, pending: set<Block>)
    requires Sane(b, reserved, pending)
    ensures KeysOk(b) && b.insert < b.next && b.next !in b.body && b.preds[b.entry] == []
    ensures pending <= reserved && b.insert !in reserved && b.ret in reserved && b.entry !in reserved
            && reserved <= b.body.Keys
    ensures forall x :: x in reserved ==> IsOpen(b, x)
    ensures IsOpen(b, b.insert) <==> b.insert in OpenSet(b.body)
  {
    hide Linked, ListOk, BodiesOk;
    assert forall x :: x in reserved ==> x in OpenSet(b.body);
  }

  lemma SaneWeaker(b: Builder, reserved: set<Block>, pending: set<Block>, pending': set<Block>)
    requires Sane(b, reserved, pending) && pending <= pending' <= reserved
    ensures Sane(b, reserved, pending')
  {
    hide Shape, ReachesOpen, HasPath, OpenSet;
  }

  // ----- a new block -----

  lemma LinkedNewBlock(g: FlowGraph, g': FlowGraph, x: Block, open: set<Block>, pending: set<Block>, blocks: set<Block>)
    requires Linked(g, open, pending, blocks) && MoreEdges(g, g') && x in g'.succs && g'.entry == g.entry
    ensures Linked(g', open + {x}, pending + {x}, blocks + {x})
  {
    hide HasPath, MoreEdges;
    forall y | y in blocks + {x}
      ensures ReachesOpen(g', open + {x}, y)
      ensures y !in pending + {x} ==> HasPath(g', g'.entry, y)
    {
      if y == x {
        PathToSelf(g', x);
      } else {
        assert ReachesOpen(g, open, y);
        var o :| o in open && HasPath(g, y, o);
        PathKept(g, g', y, o);
        if y !in pending {
          PathKept(g, g', g.entry, y);
        }
      }
    }
  }

  lemma NewBlockValid(g: FlowGraph, g': FlowGraph, x: Block)
    requires g.Valid() && x !in g.succs && x !in g.preds
    requires g' == FlowGraph(g.entry, g.succs[x := []], g.preds[x := []])
    ensures g'.Valid() && MoreEdges(g, g')
  {
    forall a, c | a in g'.succs && c in g'.succs[a]
      ensures c in g'.preds && a in g'.preds[c]
    {
      assert c in g.preds && a in g.preds[c];
    }
    forall a, c | c in g'.preds && a in g'.preds[c]
      ensures a in g'.succs && c in g'.succs[a]
    {
      assert a in g.succs && c in g.succs[a];
    }
  }

  lemma GraphNewBlock(g: FlowGraph, g': FlowGraph, x: Block)
    requires GraphOk(g) && x !in g.succs && x !in g.preds
    requires g' == FlowGraph(g.entry, g.succs[x := []], g.preds[x := []])
    ensures GraphOk(g') && MoreEdges(g, g')
  {
    hide MoreEdges, Balanced;
    NewBlockValid(g, g', x);
    NewBlockBalanced(g, g', x);
    hide FlowGraph.Valid;
  }

  lemma NewBlockBalanced(g: FlowGraph, g': FlowGraph, x: Block)
    requires g.Valid() && Balanced(g) && x !in g.succs && x !in g.preds
    requires g' == FlowGraph(g.entry, g.succs[x := []], g.preds[x := []])
    ensures Balanced(g')
  {
    hide FlowGraph.Valid;
    forall a, c | a in g'.succs && c in g'.preds
      ensures multiset(g'.preds[c])[a] == multiset(g'.succs[a])[c]
    {
      MirrorAt(g, a, c);
      if a != x && c != x {
        assert multiset(g.preds[c])[a] == multiset(g.succs[a])[c];
      } else {
        assert c !in g'.succs[a] && a !in g'.preds[c];
      }
    }
  }

  lemma OpenNewBlock(body: map<Block, seq<Item>>, x: Block)
    ensures OpenSet(body[x := []]) == OpenSet(body) + {x}
  {
  }

  lemma BodiesNewBlock(body: map<Block, seq<Item>>, succs: map<Block, seq<Block>>, x: Block)
    requires BodiesOk(body, succs)
    ensures BodiesOk(body[x := []], succs[x := []])
  {
  }

  lemma ListNewBlock(list: seq<Block>, blocks: set<Block>, x: Block)
    requires ListOk(list, blocks) && forall y :: y in blocks ==> y < x
    ensures ListOk(list + [x], blocks + {x})
  {
    assert forall i :: 0 <= i < |list| ==> list[i] in list;
  }

  lemma SetsNewBlock(open: set<Block>, insert: Block, ret: Block, reserved: set<Block>, pending: set<Block>, x: Block)
    requires SetsOk(open, insert, ret, reserved, pending) && x != insert
    ensures SetsOk(open + {x}, insert, ret, reserved + {x}, pending + {x})
  {
  }

  lemma NewBlockSane(b: Builder, reserved: set<Block>, pending: set<Block>)
    requires Sane(b, reserved, pending)
    ensures Sane(NewBlock(b), reserved + {b.next}, pending + {b.next})
    ensures b.next !in b.body && MoreEdges(GraphOf(b), GraphOf(NewBlock(b))) && Isolated(NewBlock(b), b.next)
  {
    hide GraphOk, MoreEdges, Linked, OpenSet, HasPath, BodiesOk, ListOk, SetsOk;
    SaneParts(b, reserved, pending);
    var b', x := NewBlock(b), b.next;
    GraphNewBlock(GraphOf(b), GraphOf(b'), x);
    OpenNewBlock(b.body, x);
    BodiesNewBlock(b.body, b.succs, x);
    ListNewBlock(b.list, b.body.Keys, x);
    SetsNewBlock(OpenSet(b.body), b.insert, b.ret, reserved, pending, x);
    LinkedNewBlock(GraphOf(b), GraphOf(b'), x, OpenSet(b.body), pending, b.body.Keys);
    assert b'.body.Keys == b.body.Keys + {x};
  }

  // ----- an instruction -----

  lemma BodiesEmit(body: map<Block, seq<Item>>, succs: map<Block, seq<Block>>, x: Block, i: Item)
    requires BodiesOk(body, succs) && x in body && !Terminated(body[x]) && !IsTerminator(i)
    ensures BodiesOk(body[x := body[x] + [i]], succs) && OpenSet(body[x := body[x] + [i]]) == OpenSet(body)
  {
    var body' := body[x := body[x] + [i]];
    forall y | y in body'
      ensures BlockOk(body'[y], succs[y]) && (Terminated(body'[y]) <==> Terminated(body[y]))
    {
      assert BlockOk(body[y], succs[y]);
    }
  }

  /** Other bodies over the same graph. */
  lemma BodySane(b: Builder, body': map<Block, seq<Item>>, reserved: set<Block>, pending: set<Block>)
    requires Sane(b, reserved, pending) && BodiesOk(body', b.succs) && OpenSet(body') == OpenSet(b.body)
    ensures Sane(b.(body := body'), reserved, pending)
  {
    hide GraphOk, Linked, OpenSet, BodiesOk, SetsOk, ListOk;
    SameKeys(body', b.succs);
    SameKeys(b.body, b.succs);
    assert body'.Keys == b.body.Keys;
    var b' := b.(body := body');
    assert KeysOk(b') && GraphOf(b') == GraphOf(b);
    assert SetsOk(OpenSet(b'.body), b'.insert, b'.ret, reserved, pending);
  }

  lemma SameKeys(body: map<Block, seq<Item>>, succs: map<Block, seq<Block>>)
    requires BodiesOk(body, succs)
    ensures body.Keys == succs.Keys
  {
  }

  lemma EmitSane(b: Builder, i: Item, reserved: set<Block>, pending: set<Block>)
    requires Sane(b, reserved, pending) && IsOpen(b, b.insert) && !IsTerminator(i)
    ensures Sane(Emit(b, i), reserved, pending) && IsOpen(Emit(b, i), b.insert) && GraphOf(Emit(b, i)) == GraphOf(b)
  {
    hide GraphOk, Linked, OpenSet, BodiesOk, SetsOk, ListOk;
    BodiesEmit(b.body, b.succs, b.insert, i);
    BodySane(b, Emit(b, i).body, reserved, pending);
    assert Emit(b, i) == b.(body := Emit(b, i).body);
  }

  /** The stacks do not matter to the graph. */
  lemma StacksSane(b: Builder, b': Builder, reserved: set<Block>, pending: set<Block>)
    requires Sane(b, reserved, pending)
    requires b' == b.(orStack := b'.orStack, whileStack := b'.whileStack, curList := b'.curList)
    ensures Sane(b', reserved, pending) && GraphOf(b') == GraphOf(b)
  {
    hide GraphOk, Linked, OpenSet, BodiesOk, ListOk;
  }

  // ----- a branch -----

  /** Edges from `x` to `ts`, on both sides. */
  ghost predicate EdgesAdded(g: FlowGraph, g': FlowGraph, x: Block, ts: seq<Block>) {
    && g'.entry == g.entry && x in g.succs && g.succs[x] == [] && g'.succs == g.succs[x := ts]
    && g'.preds.Keys == g.preds.Keys
    && forall y, z :: y in g'.preds ==> multiset(g'.preds[y])[z] == PredAfter(g, x, ts, y, z)
  }

  /** How often `z` is among the predecessors of `y` then. */
  ghost function PredAfter(g: FlowGraph, x: Block, ts: seq<Block>, y: Block, z: Block): nat {
    (if y in g.preds then multiset(g.preds[y])[z] else 0) + if z == x then multiset(ts)[y] else 0
  }

  lemma MirrorAt(g: FlowGraph, a: Block, c: Block)
    requires g.Valid()
    ensures (a in g.succs && c in g.succs[a]) <==> (c in g.preds && a in g.preds[c])
  {
  }

  lemma AddedAt(g: FlowGraph, g': FlowGraph, x: Block, ts: seq<Block>, a: Block, c: Block)
    requires EdgesAdded(g, g', x, ts)
    ensures c in g'.preds ==> multiset(g'.preds[c])[a] == PredAfter(g, x, ts, c, a)
    ensures a in g'.succs ==> a in g.succs && g'.succs[a] == if a == x then ts else g.succs[a]
    ensures g'.entry == g.entry && g'.preds.Keys == g.preds.Keys && g'.succs.Keys == g.succs.Keys && x in g.succs
            && g.succs[x] == []
  {
    hide PredAfter;
  }

  lemma MirrorBranch(g: FlowGraph, g': FlowGraph, x: Block, ts: seq<Block>, a: Block, c: Block)
    requires g.Valid() && (forall t :: t in ts ==> t in g.succs) && EdgesAdded(g, g', x, ts)
    ensures (a in g'.succs && c in g'.succs[a]) <==> (c in g'.preds && a in g'.preds[c])
  {
    hide EdgesAdded;
    AddedAt(g, g', x, ts, a, c);
    MirrorAt(g, a, c);
    assert g.succs.Keys == g.preds.Keys;
    hide FlowGraph.Valid;
    assert c in g'.preds ==> (a in g'.preds[c] <==> multiset(g'.preds[c])[a] > 0);
    assert c in g.preds ==> (a in g.preds[c] <==> multiset(g.preds[c])[a] > 0);
    assert c in ts <==> multiset(ts)[c] > 0;
  }

  lemma BranchBalanced(g: FlowGraph, g': FlowGraph, x: Block, ts: seq<Block>)
    requires GraphOk(g) && EdgesAdded(g, g', x, ts)
    ensures Balanced(g')
  {
    hide EdgesAdded, FlowGraph.Valid;
    forall a, c | a in g'.succs && c in g'.preds
      ensures multiset(g'.preds[c])[a] == multiset(g'.succs[a])[c]
    {
      AddedAt(g, g', x, ts, a, c);
    }
  }

  lemma HeadIn(s: seq<Block>)
    ensures s == [] || s[0] in s
  {
  }

  lemma EntryBranch(g: FlowGraph, g': FlowGraph, x: Block, ts: seq<Block>)
    requires GraphOk(g) && (forall t :: t in ts ==> t != g.entry) && EdgesAdded(g, g', x, ts)
    ensures g'.entry == g.entry && g'.entry in g'.preds && g'.preds[g'.entry] == [] && g'.entry in g'.succs
            && g'.succs.Keys == g'.preds.Keys
  {
    hide EdgesAdded, Balanced;
    AddedAt(g, g', x, ts, x, g.entry);
    forall z
      ensures z !in g'.preds[g.entry]
    {
      AddedAt(g, g', x, ts, z, g.entry);
      assert z in g'.preds[g.entry] <==> multiset(g'.preds[g.entry])[z] > 0;
      assert g.entry !in ts && multiset(ts)[g.entry] == 0;
      assert multiset(g.preds[g.entry])[z] == 0;
    }
    HeadIn(g'.preds[g.entry]);
  }

  lemma ValidOf(g: FlowGraph)
    requires g.entry in g.succs && g.succs.Keys == g.preds.Keys
    requires forall a, c :: (a in g.succs && c in g.succs[a]) <==> (c in g.preds && a in g.preds[c])
    ensures g.Valid()
  {
  }

  lemma GraphBranch(g: FlowGraph, g': FlowGraph, x: Block, ts: seq<Block>)
    requires GraphOk(g) && (forall t :: t in ts ==> t in g.succs && t != g.entry) && EdgesAdded(g, g', x, ts)
    ensures GraphOk(g') && MoreEdges(g, g')
  {
    hide EdgesAdded, FlowGraph.Valid;
    forall a, c
      ensures (a in g'.succs && c in g'.succs[a]) <==> (c in g'.preds && a in g'.preds[c])
    {
      MirrorBranch(g, g', x, ts, a, c);
    }
    EntryBranch(g, g', x, ts);
    ValidOf(g');
    BranchBalanced(g, g', x, ts);
    BranchAddsEdges(g, g', x, ts);
  }

  lemma BranchAddsEdges(g: FlowGraph, g': FlowGraph, x: Block, ts: seq<Block>)
    requires EdgesAdded(g, g', x, ts)
    ensures MoreEdges(g, g')
  {
    hide PredAfter;
  }

  lemma LinkedBranch(g: FlowGraph, g': FlowGraph, x: Block, ts: seq<Block>, t: Block, o: Block,
                     open: set<Block>, pending: set<Block>, pending': set<Block>, blocks: set<Block>)
    requires Linked(g, open, pending, blocks) && MoreEdges(g, g') && g'.entry == g.entry && x in g'.succs
             && g'.succs[x] == ts
    requires x in blocks && x !in pending && (forall y :: y in ts ==> y in g'.succs)
    requires t in ts && o in open && o != x && HasPath(g, t, o)
    requires forall y :: y in pending && y !in pending' ==> y in ts
    ensures Linked(g', open - {x}, pending', blocks)
  {
    hide HasPath, MoreEdges;
    PathKept(g, g', t, o);
    PathOfEdge(g', x, t);
    PathJoined(g', x, t, o);
    PathKept(g, g', g.entry, x);
    forall y | y in blocks
      ensures ReachesOpen(g', open - {x}, y)
      ensures y !in pending' ==> HasPath(g', g'.entry, y)
    {
      assert ReachesOpen(g, open, y);
      var o' :| o' in open && HasPath(g, y, o');
      PathKept(g, g', y, o');
      if o' == x {
        PathJoined(g', y, x, o);
        assert o in open - {x} && HasPath(g', y, o);
      } else {
        assert o' in open - {x} && HasPath(g', y, o');
      }
      if y !in pending' {
        if y in pending {
          PathOfEdge(g', x, y);
          PathJoined(g', g'.entry, x, y);
        } else {
          PathKept(g, g', g.entry, y);
        }
      }
    }
  }

  lemma BodiesBranch(body: map<Block, seq<Item>>, succs: map<Block, seq<Block>>, x: Block, i: Item, ts: seq<Block>)
    requires BodiesOk(body, succs) && x in body && !Terminated(body[x]) && IsTerminator(i) && ts == EdgesOf([i])
    ensures BodiesOk(body[x := body[x] + [i]], succs[x := ts])
            && OpenSet(body[x := body[x] + [i]]) == OpenSet(body) - {x}
    ensures succs[x] == []
  {
    var body', succs' := body[x := body[x] + [i]], succs[x := ts];
    assert BlockOk(body[x], succs[x]);
    forall y | y in body'
      ensures BlockOk(body'[y], succs'[y]) && (y != x ==> (Terminated(body'[y]) <==> Terminated(body[y])))
    {
      assert BlockOk(body[y], succs[y]);
    }
  }

  lemma SetsBranch(open: set<Block>, insert: Block, ret: Block, reserved: set<Block>, pending: set<Block>,
                   pending': set<Block>)
    requires SetsOk(open, insert, ret, reserved, pending) && pending' <= pending
    ensures SetsOk(open - {insert}, insert, ret, reserved, pending')
  {
  }

  /** A branch ends the insertion block; `t`, one of its targets, reaches a reserved block. */
  lemma BranchSane(b: Builder, b': Builder, i: Item, ts: seq<Block>, t: Block, o: Block, reserved: set<Block>,
                   pending: set<Block>, pending': set<Block>)
    requires Sane(b, reserved, pending) && IsOpen(b, b.insert) && IsTerminator(i) && ts == EdgesOf([i])
    requires b' == b.(body := b.body[b.insert := At(b.body, b.insert) + [i]], succs := b.succs[b.insert := ts],
                      preds := b'.preds)
    requires EdgesAdded(GraphOf(b), GraphOf(b'), b.insert, ts)
    requires (forall y :: y in ts ==> y in b.body && y != b.entry) && t in ts && o in reserved
             && HasPath(GraphOf(b), t, o)
    requires pending' <= pending && forall y :: y in pending && y !in pending' ==> y in ts
    ensures Sane(b', reserved, pending') && MoreEdges(GraphOf(b), GraphOf(b')) && !IsOpen(b', b'.insert)
  {
    hide HasPath, Linked, MoreEdges, GraphOk, BodiesOk, ListOk, PredAfter, OpenSet, SetsOk;
    SaneParts(b, reserved, pending);
    SetsBranch(OpenSet(b.body), b.insert, b.ret, reserved, pending, pending');
    assert Terminated(b'.body[b.insert]);
    BodiesBranch(b.body, b.succs, b.insert, i, ts);
    GraphBranch(GraphOf(b), GraphOf(b'), b.insert, ts);
    LinkedBranch(GraphOf(b), GraphOf(b'), b.insert, ts, t, o, OpenSet(b.body), pending, pending', b.body.Keys);
    assert KeysOk(b');
    assert b'.body.Keys == b.body.Keys;
    assert Shape(b');
    assert SetsOk(OpenSet(b'.body), b'.insert, b'.ret, reserved, pending');
  }

  lemma BrSane(b: Builder, t: Block, o: Block, reserved: set<Block>, pending: set<Block>)
    requires Sane(b, reserved, pending) && IsOpen(b, b.insert) && t in b.body && t != b.entry
    requires o in reserved && HasPath(GraphOf(b), t, o)
    ensures Sane(Br(b, t), reserved, pending - {t}) && MoreEdges(GraphOf(b), GraphOf(Br(b, t)))
            && !IsOpen(Br(b, t), b.insert)
  {
    hide HasPath, MoreEdges, Sane;
    SaneParts(b, reserved, pending);
    NoEdgesYet(b, reserved, pending);
    var b' := Br(b, t);
    assert At(b.succs, b.insert) + [t] == [t];
    BranchSane(b, b', Jump(t), [t], t, o, reserved, pending, pending - {t});
  }

  lemma NoEdgesYet(b: Builder, reserved: set<Block>, pending: set<Block>)
    requires Sane(b, reserved, pending) && IsOpen(b, b.insert)
    ensures b.insert in b.succs && b.succs[b.insert] == []
  {
    hide Linked, GraphOk, ListOk, SetsOk;
    assert BlockOk(b.body[b.insert], b.succs[b.insert]);
  }

  lemma CondBrPreds(b: Builder, t: Block, f: Block, y: Block)
    requires t in b.preds && f in b.preds && y in b.preds
    ensures y in CondBr(b, t, f).preds
    ensures var once := if y == t then b.preds[y] + [b.insert] else b.preds[y];
            CondBr(b, t, f).preds[y] == if y == f then once + [b.insert] else once
  {
  }

  lemma CondBrCount(b: Builder, t: Block, f: Block, y: Block, z: Block)
    requires t in b.preds && f in b.preds && y in b.preds
    ensures y in CondBr(b, t, f).preds
    ensures multiset(CondBr(b, t, f).preds[y])[z] == PredAfter(GraphOf(b), b.insert, [f, t], y, z)
  {
    hide CondBr;
    CondBrPreds(b, t, f, y);
    TwoAdded(b.preds[y], b.insert, t, f, y, z);
  }

  lemma CondBrEdges(b: Builder, t: Block, f: Block)
    requires b.insert in b.succs && b.succs[b.insert] == [] && t in b.preds && f in b.preds
    ensures EdgesAdded(GraphOf(b), GraphOf(CondBr(b, t, f)), b.insert, [f, t])
  {
    hide PredAfter;
    var b' := CondBr(b, t, f);
    assert At(b.succs, b.insert) + [f] + [t] == [f, t];
    assert b'.preds.Keys == b.preds.Keys && b'.succs == b.succs[b.insert := [f, t]] && b'.entry == b.entry;
    hide CondBr;
    forall y, z | y in b'.preds
      ensures multiset(b'.preds[y])[z] == PredAfter(GraphOf(b), b.insert, [f, t], y, z)
    {
      CondBrCount(b, t, f, y, z);
    }
  }

  lemma TwoAdded(s: seq<Block>, x: Block, t: Block, f: Block, y: Block, z: Block)
    ensures multiset(s + [x])[z] == multiset(s)[z] + if z == x then 1 else 0
    ensures multiset(s + [x] + [x])[z] == multiset(s)[z] + if z == x then 2 else 0
    ensures multiset([f, t])[y] == (if y == t then 1 else 0) + if y == f then 1 else 0
  {
  }

  lemma CondBrSane(b: Builder, t: Block, f: Block, reserved: set<Block>, pending: set<Block>)
    requires Sane(b, reserved, pending) && IsOpen(b, b.insert) && t in reserved && f in reserved && t != b.entry
             && f != b.entry
    ensures Sane(CondBr(b, t, f), reserved, pending - {t, f}) && MoreEdges(GraphOf(b), GraphOf(CondBr(b, t, f)))
    ensures !IsOpen(CondBr(b, t, f), b.insert)
    ensures HasPath(GraphOf(CondBr(b, t, f)), b.insert, f)
  {
    hide HasPath, MoreEdges, Sane, EdgesAdded;
    SaneParts(b, reserved, pending);
    NoEdgesYet(b, reserved, pending);
    var b' := CondBr(b, t, f);
    assert At(b.succs, b.insert) + [f] + [t] == [f, t];
    CondBrEdges(b, t, f);
    PathToSelf(GraphOf(b), t);
    BranchSane(b, b', Branch(t, f), [f, t], t, t, reserved, pending, pending - {t, f});
    PathOfEdge(GraphOf(b'), b.insert, f);
  }

  // ----- erasing a block -----

  /** An erased block has no edges. */
  ghost predicate Isolated(b: Builder, x: Block) {
    x in b.body && x in b.preds && x in b.succs && b.preds[x] == [] && b.succs[x] == []
  }

  ghost predicate Cut(g: FlowGraph, g': FlowGraph, x: Block) {
    && g'.entry == g.entry
    && g'.succs == (map y | y in g.succs && y != x :: g.succs[y])
    && g'.preds == (map y | y in g.preds && y != x :: g.preds[y])
  }

  lemma EraseCuts(b: Builder, x: Block)
    requires Isolated(b, x)
    ensures Cut(GraphOf(b), GraphOf(Erase(b, x)), x)
  {
  }

  lemma CutValid(g: FlowGraph, g': FlowGraph, x: Block)
    requires g.Valid() && x in g.preds && g.preds[x] == [] && g.succs[x] == [] && x != g.entry && Cut(g, g', x)
    ensures g'.Valid() && g'.preds[g'.entry] == g.preds[g.entry]
  {
    assert g.succs.Keys == g.preds.Keys && g.entry in g.succs;
    hide FlowGraph.Valid;
    forall a, c
      ensures (a in g'.succs && c in g'.succs[a]) <==> (c in g'.preds && a in g'.preds[c])
    {
      MirrorAt(g, a, c);
    }
    ValidOf(g');
  }

  lemma GraphCut(g: FlowGraph, g': FlowGraph, x: Block)
    requires GraphOk(g) && x in g.preds && g.preds[x] == [] && g.succs[x] == [] && x != g.entry && Cut(g, g', x)
    ensures GraphOk(g')
  {
    hide Balanced;
    CutBalanced(g, g', x);
    CutValid(g, g', x);
    hide FlowGraph.Valid, Cut;
  }

  lemma CutBalanced(g: FlowGraph, g': FlowGraph, x: Block)
    requires GraphOk(g) && Cut(g, g', x)
    ensures Balanced(g')
  {
    forall a, c | a in g'.succs && c in g'.preds
      ensures multiset(g'.preds[c])[a] == multiset(g'.succs[a])[c]
    {
      assert multiset(g.preds[c])[a] == multiset(g.succs[a])[c];
    }
  }

  lemma PathAvoids(g: FlowGraph, g': FlowGraph, x: Block, y: Block, z: Block)
    requires g.Valid() && x in g.preds && g.preds[x] == [] && Cut(g, g', x) && y != x && HasPath(g, y, z)
    ensures z != x && HasPath(g', y, z)
  {
    var p :| g.PathFromTo(p, y, z);
    forall i | 0 <= i < |p|
      ensures p[i] != x
    {
      if i > 0 {
        EdgeHasPred(g, p[i - 1], p[i]);
      }
    }
    assert g'.PathFromTo(p, y, z);
  }

  lemma EdgeHasPred(g: FlowGraph, a: Block, c: Block)
    requires g.Valid() && a in g.succs && c in g.succs[a]
    ensures c in g.preds && g.preds[c] != []
  {
    assert a in g.preds[c];
  }

  lemma LinkedCut(g: FlowGraph, g': FlowGraph, x: Block, open: set<Block>, pending: set<Block>, blocks: set<Block>)
    requires g.Valid() && x in g.preds && g.preds[x] == [] && Cut(g, g', x) && x != g.entry
             && Linked(g, open, pending, blocks)
    ensures Linked(g', open - {x}, pending - {x}, blocks - {x})
  {
    hide HasPath, FlowGraph.Valid, Cut;
    forall y | y in blocks - {x}
      ensures ReachesOpen(g', open - {x}, y)
      ensures y !in pending - {x} ==> HasPath(g', g'.entry, y)
    {
      assert ReachesOpen(g, open, y);
      var o :| o in open && HasPath(g, y, o);
      PathAvoids(g, g', x, y, o);
      assert o in open - {x} && HasPath(g', y, o);
      if y !in pending {
        PathAvoids(g, g', x, g.entry, y);
        CutEntry(g, g', x);
      }
    }
  }

  lemma CutEntry(g: FlowGraph, g': FlowGraph, x: Block)
    requires Cut(g, g', x)
    ensures g'.entry == g.entry
  {
  }

  lemma BodiesCut(body: map<Block, seq<Item>>, succs: map<Block, seq<Block>>, x: Block, body': map<Block, seq<Item>>,
                  succs': map<Block, seq<Block>>)
    requires BodiesOk(body, succs)
    requires body' == (map y | y in body && y != x :: body[y]) && succs' == (map y | y in succs && y != x :: succs[y])
    ensures BodiesOk(body', succs') && OpenSet(body') == OpenSet(body) - {x} && body'.Keys == body.Keys - {x}
  {
    hide BlockOk;
  }

  lemma EraseKeys(b: Builder, x: Block)
    requires KeysOk(b) && Isolated(b, x) && x != b.insert && x != b.ret && x != b.entry
    ensures KeysOk(Erase(b, x)) && Erase(b, x).body.Keys == b.body.Keys - {x}
    ensures Erase(b, x).body == (map y | y in b.body && y != x :: b.body[y])
  {
  }

  lemma EraseSane(b: Builder, x: Block, reserved: set<Block>, pending: set<Block>)
    requires Sane(b, reserved, pending) && Isolated(b, x) && x in reserved && x != b.ret && x != b.entry
    ensures Sane(Erase(b, x), reserved - {x}, pending - {x})
  {
    hide HasPath, Linked, GraphOk, BodiesOk, Cut, OpenSet, SetsOk, ListOk, Without, KeysOk;
    SaneParts(b, reserved, pending);
    SetsCut(OpenSet(b.body), b.insert, b.ret, reserved, pending, x);
    ListCut(b.list, b.body.Keys, x);
    var b' := Erase(b, x);
    EraseKeys(b, x);
    EraseCuts(b, x);
    CutSuccs(GraphOf(b), GraphOf(b'), x);
    BodiesCut(b.body, b.succs, x, b'.body, b'.succs);
    GraphCut(GraphOf(b), GraphOf(b'), x);
    GraphIsValid(GraphOf(b));
    LinkedCut(GraphOf(b), GraphOf(b'), x, OpenSet(b.body), pending, b.body.Keys);
  }

  lemma SetsCut(open: set<Block>, insert: Block, ret: Block, reserved: set<Block>, pending: set<Block>, x: Block)
    requires SetsOk(open, insert, ret, reserved, pending) && x in reserved && x != ret
    ensures SetsOk(open - {x}, insert, ret, reserved - {x}, pending - {x})
  {
  }

  lemma ListCut(list: seq<Block>, blocks: set<Block>, x: Block)
    requires ListOk(list, blocks)
    ensures ListOk(Without(list, x), blocks - {x})
  {
    WithoutContents(list, x);
    WithoutAscends(list, x);
  }

  lemma {:induction false} WithoutAscends(list: seq<Block>, x: Block)
    requires Ascending(list)
    ensures Ascending(Without(list, x))
  {
    if list != [] {
      WithoutAscends(list[1..], x);
      WithoutContents(list[1..], x);
      var rest := Without(list[1..], x);
      forall j | 0 <= j < |rest|
        ensures list[0] < rest[j]
      {
        assert rest[j] in rest;
        var k :| 0 <= k < |list[1..]| && list[1..][k] == rest[j];
        assert list[1..][k] == list[k + 1];
      }
    }
  }

  lemma CutSuccs(g: FlowGraph, g': FlowGraph, x: Block)
    requires Cut(g, g', x)
    ensures g'.succs == (map y | y in g.succs && y != x :: g.succs[y]) && g'.preds.Keys == g.preds.Keys - {x}
  {
  }

  lemma GraphIsValid(g: FlowGraph)
    requires GraphOk(g)
    ensures g.Valid()
  {
  }

  // ----- moving the insertion point -----

  /** From a closed block to a reserved one. */
  lemma MoveSane(b: Builder, x: Block, reserved: set<Block>, pending: set<Block>)
    requires Sane(b, reserved, pending) && !IsOpen(b, b.insert) && x in reserved && x !in pending && x != b.ret
    ensures Sane(SetInsert(b, x), reserved - {x}, pending) && IsOpen(SetInsert(b, x), x)
            && GraphOf(SetInsert(b, x)) == GraphOf(b)
  {
    hide Linked, GraphOk, BodiesOk, ListOk;
    SaneParts(b, reserved, pending);
  }

  /** Back to a closed block. */
  lemma MoveBackSane(b: Builder, x: Block, reserved: set<Block>, pending: set<Block>)
    requires Sane(b, reserved, pending) && !IsOpen(b, b.insert) && x in b.body && !IsOpen(b, x)
    ensures Sane(SetInsert(b, x), reserved, pending) && GraphOf(SetInsert(b, x)) == GraphOf(b)
  {
    hide Linked, GraphOk, BodiesOk, ListOk;
    SaneParts(b, reserved, pending);
  }
}
