/** getElementById: the id index and the explicit-stack search against the plain
    document order. */
module Queries {
  import opened Shapes
  import opened Nodes
  import opened Moves
  import opened Inserts

  /** The first node of an order whose id attribute is s. */
  ghost function FirstWithId(a: Arena, order: seq<NodeId>, s: string): Option<NodeId> {
    if order == [] then None
    else if order[0] in a && AttrOf(a[order[0]].data, "id") == Some(s) then Some(order[0])
    else FirstWithId(a, order[1..], s)
  }

  /** The document in tree order. */
  ghost function DocumentOrder(a: Arena, root: NodeId): seq<NodeId> {
    if Acyclic(Kids(a)) && root in a then Preorder(Kids(a), root) else []
  }

  lemma {:induction false} NoneWithId(a: Arena, order: seq<NodeId>, s: string)
    requires forall x :: x in order && x in a ==> AttrOf(a[x].data, "id") != Some(s)
    ensures FirstWithId(a, order, s) == None
  {
    if order != [] {
      assert order[0] in order;
      forall x | x in order[1..] ensures x in order { }
      NoneWithId(a, order[1..], s);
    }
  }

  /** Nothing before the i-th node has the id, the i-th has it. */
  lemma {:induction false} FirstWithIdAt(a: Arena, order: seq<NodeId>, s: string, i: nat)
    requires i < |order| && order[i] in a && AttrOf(a[order[i]].data, "id") == Some(s)
    requires forall j :: 0 <= j < i && order[j] in a ==> AttrOf(a[order[j]].data, "id") != Some(s)
    ensures FirstWithId(a, order, s) == Some(order[i])
  {
    if i > 0 {
      FirstWithIdAt(a, order[1..], s, i - 1);
    }
  }

  /** Whoever bears a non-empty id is in the document order, and everybody in the
      order with that attribute bears it. */
  lemma OrderBears(a: Arena, root: NodeId, s: string, x: NodeId)
    requires Tree(a, root) && Flags(a, root) && s != ""
    ensures Bears(a, s, x) <==> x in DocumentOrder(a, root) && x in a && AttrOf(a[x].data, "id") == Some(s)
  {
    hide Preorder, RankOK, AttrOf;
    TreeForest(a, root);
    InDocumentIsReachable(a, root);
    if x in a { assert Under(Kids(a), root, x) <==> x in DocumentOrder(a, root); }
  }

  lemma EntryBears(a: Arena, ix: IdIndex, s: string)
    requires Index(a, ix) && s in ix
    ensures |ix[s]| > 0 && Bears(a, s, ix[s][0]) && s != ""
  {
    hide AttrOf;
    assert Indexed(ix, s, ix[s][0]);
  }

  /** No entry: nobody has the id. One node listed: it is the only one. */
  lemma OnlyBearer(a: Arena, root: NodeId, ix: IdIndex, s: string)
    requires Tree(a, root) && Flags(a, root) && Index(a, ix) && s != ""
    ensures s !in ix ==> FirstWithId(a, DocumentOrder(a, root), s) == None
    ensures s in ix && |ix[s]| == 1 ==> FirstWithId(a, DocumentOrder(a, root), s) == Some(ix[s][0])
  {
    hide Tree, Flags, AttrOf, DocumentOrder, FirstWithId;
    var order := DocumentOrder(a, root);
    forall x ensures Indexed(ix, s, x) <==> x in order && x in a && AttrOf(a[x].data, "id") == Some(s) {
      OrderBears(a, root, s, x);
    }
    if s !in ix {
      NoneWithId(a, order, s);
    } else if |ix[s]| == 1 {
      var x := ix[s][0];
      assert Indexed(ix, s, x);
      var i := IndexOf(order, x);
      forall j | 0 <= j < i && order[j] in a ensures AttrOf(a[order[j]].data, "id") != Some(s) {
        assert order[j] in order[..i] && !Indexed(ix, s, order[j]);
      }
      FirstWithIdAt(a, order, s, i);
    }
  }

  // ------------------------------------------------------ the explicit stack

  function Reversed(s: seq<NodeId>): (r: seq<NodeId>)
    ensures |r| == |s| && forall x :: x in r <==> x in s
  {
    if s == [] then [] else Reversed(s[1..]) + [s[0]]
  }

  lemma {:induction false} ReversedAppend(s: seq<NodeId>, t: seq<NodeId>)
    ensures Reversed(s + t) == Reversed(t) + Reversed(s)
  {
    if s == [] {
      assert s + t == t;
    } else {
      assert (s + t)[1..] == s[1..] + t;
      ReversedAppend(s[1..], t);
    }
  }

  lemma {:induction false} ReversedTwice(s: seq<NodeId>)
    ensures Reversed(Reversed(s)) == s
  {
    if s != [] {
      ReversedAppend(Reversed(s[1..]), [s[0]]);
      ReversedTwice(s[1..]);
      assert Reversed([s[0]]) == [s[0]];
    }
  }

  /** The stack holds, top first, the roots of what is still to be visited. */
  ghost predicate Visiting(a: Arena, root: NodeId, seen: seq<NodeId>, stack: seq<NodeId>) {
    && Acyclic(Kids(a)) && (forall x :: x in stack ==> x in a)
    && DocumentOrder(a, root) == seen + PreorderAll(Kids(a), Reversed(stack))
  }

  lemma VisitStart(a: Arena, root: NodeId)
    requires Tree(a, root)
    ensures Visiting(a, root, [], [root])
  {
    TreeForest(a, root);
    assert Reversed([root]) == [root];
    PreorderAllOne(Kids(a), root);
  }

  /** Popping a node and pushing its children, last first, visits it. */
  lemma VisitStep(a: Arena, root: NodeId, seen: seq<NodeId>, stack: seq<NodeId>)
    requires Visiting(a, root, seen, stack) && stack != []
    ensures var id := stack[|stack| - 1];
            && id in a && |seen| < |DocumentOrder(a, root)| && DocumentOrder(a, root)[|seen|] == id
            && Visiting(a, root, seen + [id], stack[..|stack| - 1] + Reversed(a[id].children))
  {
    hide Acyclic, Reversed, Preorder;
    var S, id, rest := Kids(a), stack[|stack| - 1], stack[..|stack| - 1];
    assert id in stack;
    ChildrenRank(S, id);
    assert stack == rest + [id];
    ReversedAppend(rest, [id]);
    ReversedAppend(rest, Reversed(a[id].children));
    ReversedTwice(a[id].children);
    ReversedOne(id);
    assert Reversed(stack) == [id] + Reversed(rest);
    PreorderAllAppend(S, [id], Reversed(rest));
    PreorderAllOne(S, id);
    PreorderAllAppend(S, a[id].children, Reversed(rest));
    PreorderUnfold(S, id);
  }

  lemma ReversedOne(x: NodeId)
    ensures Reversed([x]) == [x]
  {
    assert [x][1..] == [];
  }

  lemma PreorderUnfold(S: Shape, n: NodeId)
    requires Acyclic(S) && n in S
    ensures (forall c :: c in S[n] ==> c in S) && Preorder(S, n) == [n] + PreorderAll(S, S[n])
  {
    ChildrenRank(S, n);
  }

  lemma VisitEnd(a: Arena, root: NodeId, seen: seq<NodeId>)
    requires Visiting(a, root, seen, [])
    ensures DocumentOrder(a, root) == seen
  {
  }

  /** r is the first member of `candidates` in document order. */
  ghost predicate FirstAmong(a: Arena, root: NodeId, candidates: seq<NodeId>, r: Option<NodeId>) {
    var order := DocumentOrder(a, root);
    match r
    case None => forall x :: x in order ==> x !in candidates
    case Some(x) => exists i :: 0 <= i < |order| && order[i] == x && x in candidates && forall j :: 0 <= j < i ==> order[j] !in candidates
  }

  /** Searching the entry of an id finds the first node in tree order with it. */
  lemma AmongBearers(a: Arena, root: NodeId, ix: IdIndex, s: string, r: Option<NodeId>)
    requires Tree(a, root) && Flags(a, root) && Index(a, ix) && s in ix && FirstAmong(a, root, ix[s], r)
    ensures r == FirstWithId(a, DocumentOrder(a, root), s)
  {
    hide Tree, Flags, AttrOf, DocumentOrder;
    EntryBears(a, ix, s);
    var order := DocumentOrder(a, root);
    forall x ensures x in ix[s] <==> x in order && x in a && AttrOf(a[x].data, "id") == Some(s) {
      OrderBears(a, root, s, x);
      assert Indexed(ix, s, x) <==> x in ix[s];
    }
    match r {
      case None => NoneWithId(a, order, s);
      case Some(x) =>
        var i :| 0 <= i < |order| && order[i] == x && x in ix[s] && forall j :: 0 <= j < i ==> order[j] !in ix[s];
        forall j | 0 <= j < i && order[j] in a ensures AttrOf(a[order[j]].data, "id") != Some(s) {
          assert order[j] in order && order[j] !in ix[s];
        }
        FirstWithIdAt(a, order, s, i);
    }
  }
}
