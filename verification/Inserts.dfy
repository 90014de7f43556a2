/** Inserting nodes: detach from the old parents, splice, link one by one. */
module Inserts {
  import opened Shapes
  import opened Nodes
  import opened Edits
  import opened Moves
  import opened Ancestry

  datatype Place = AtEnd | Before(anchor: NodeId)

  /** What the callers of an insertion owe: distinct live nodes, none of them the
      document root or an inclusive ancestor of the new parent. */
  ghost predicate Insertable(a: Arena, root: NodeId, P: NodeId, N: seq<NodeId>) {
    && P in a && NoDup(N)
    && forall c :: c in N ==> c in a && c != root && !Above(a, c, P)
  }

  /** The insertion point: an index of P's child list. */
  function Position(s: seq<NodeId>, place: Place): nat {
    match place
    case AtEnd => |s|
    case Before(x) => IndexOf(s, x)
  }

  function IndexOf(s: seq<NodeId>, x: NodeId): (i: nat)
    ensures i <= |s| && (x in s ==> i < |s| && s[i] == x && x !in s[..i])
  {
    if s == [] || s[0] == x then 0 else 1 + IndexOf(s[1..], x)
  }

  /** Placed, totalised for contracts. */
  ghost function PlacedAt(S: Shape, P: NodeId, a: nat, b: nat, N: seq<NodeId>): Shape {
    if P in S && a <= b <= |S[P]| then Placed(S, P, a, b, N) else S
  }

  // ------------------------------------------------ phase one: out of the old

  /** The arena with at most some child lists taken whose members are all in M. */
  ghost predicate Stripped(whole: Arena, a: Arena, M: set<NodeId>) {
    && a.Keys == whole.Keys
    && forall x :: x in a ==>
         && a[x] == whole[x].(children := a[x].children)
         && (a[x].children == whole[x].children || (a[x].children == [] && forall y :: y in whole[x].children ==> y in M))
  }

  /** The removal log of a move: one entry per child that had a parent. */
  ghost function MoveLog(a: Arena, N: seq<NodeId>): seq<Record> {
    if N == [] then [] else MoveLog(a, N[..|N| - 1]) + CutLog(a, N[|N| - 1])
  }

  lemma MoveLogMore(a: Arena, N: seq<NodeId>, i: nat)
    requires i < |N|
    ensures MoveLog(a, N[..i + 1]) == MoveLog(a, N[..i]) + CutLog(a, N[i]) && N[..i + 1] == N[..i] + [N[i]]
  {
    assert N[..i + 1] == N[..i] + [N[i]] && N[..i + 1][..i] == N[..i];
  }

  lemma NothingMoved(a: Arena)
    ensures MoveLog(a, []) == []
  {
  }

  lemma StrippedMeans(whole: Arena, a: Arena, M: set<NodeId>)
    requires Stripped(whole, a, M)
    ensures a.Keys == whole.Keys
    ensures forall x :: x in a ==> a[x].parent == whole[x].parent && forall y :: y in a[x].children ==> y in whole[x].children
  {
  }

  /** Detaching one more child: no list but its old parent's changes. */
  lemma DetachMoreLists(whole: Arena, a: Arena, N: seq<NodeId>, i: nat)
    requires DownLinks(whole) && UpLinks(whole) && Stripped(whole, a, Members(N)) && NoDup(N) && i < |N| && N[i] in a
    ensures forall x :: x in a ==>
      (Minus(a[x].children, Members(N[..i + 1])) ==
       if whole[N[i]].parent == Some(x) then Minus(Minus(a[x].children, Members(N[..i])), {N[i]})
       else Minus(a[x].children, Members(N[..i])))
  {
    hide Minus, UpLinks, DownLinks, NoDup, Members, Stripped;
    NoDupPrefix(N, i);
    StrippedMeans(whole, a, Members(N));
    OneList(whole, N[i]);
    forall x | x in a ensures Minus(a[x].children, Members(N[..i + 1])) ==
      if whole[N[i]].parent == Some(x) then Minus(Minus(a[x].children, Members(N[..i])), {N[i]}) else Minus(a[x].children, Members(N[..i]))
    {
      MinusTwice(a[x].children, Members(N[..i]), {N[i]});
      if whole[N[i]].parent != Some(x) { MinusNothing(Minus(a[x].children, Members(N[..i])), {N[i]}); }
    }
  }

  lemma DetachMore(whole: Arena, a: Arena, N: seq<NodeId>, i: nat)
    requires DownLinks(whole) && UpLinks(whole) && Stripped(whole, a, Members(N)) && NoDup(N) && i < |N| && N[i] in a
    requires whole[N[i]].parent != Some(N[i])
    ensures N[i] in DetachedArena(a, Members(N[..i]))
    ensures var b, c := DetachedArena(a, Members(N[..i])), N[i];
            var d := DetachedArena(a, Members(N[..i + 1]));
            && c in b && b[c].parent == whole[c].parent
            && (whole[c].parent == None ==> d == b)
            && (whole[c].parent.Some? ==>
                  var q := whole[c].parent.value;
                  q in b && q != c && d == b[c := b[c].(parent := None)][q := b[q].(children := Minus(b[q].children, {c}))])
  {
    hide Minus, UpLinks, DownLinks, NoDup, Members, Stripped, DetachedArena;
    NoDupPrefix(N, i);
    StrippedMeans(whole, a, Members(N));
    OneList(whole, N[i]);
    DetachMoreLists(whole, a, N, i);
    DetachedPoint(a, Members(N[..i]), N[i]);
    if whole[N[i]].parent.Some? { DetachedPoint(a, Members(N[..i]), whole[N[i]].parent.value); }
    if whole[N[i]].parent.Some? {
      DetachedTwo(a, Members(N[..i]), Members(N[..i + 1]), N[i], whole[N[i]].parent.value);
    } else {
      DetachedSame(a, Members(N[..i]), Members(N[..i + 1]), N[i]);
    }
  }

  lemma DetachedPoint(a: Arena, M: set<NodeId>, x: NodeId)
    requires x in a
    ensures x in DetachedArena(a, M)
    ensures DetachedArena(a, M)[x].parent == if x in M then None else a[x].parent
  {
    hide Minus;
  }

  lemma DetachedTwo(a: Arena, M: set<NodeId>, M': set<NodeId>, c: NodeId, q: NodeId)
    requires c in a && q in a && q != c && M' == M + {c}
    requires forall x :: x in a ==>
      Minus(a[x].children, M') == if x == q then Minus(Minus(a[x].children, M), {c}) else Minus(a[x].children, M)
    ensures var b := DetachedArena(a, M);
            DetachedArena(a, M') == b[c := b[c].(parent := None)][q := b[q].(children := Minus(b[q].children, {c}))]
  {
    hide Minus, DetachedArena;
    var b := DetachedArena(a, M);
    DetachedEntry(a, M, c);
    DetachedEntry(a, M', c);
    DetachedEntry(a, M, q);
    forall x | x in a
      ensures x in b
      ensures DetachedArena(a, M')[x] ==
        if x == c then b[x].(parent := None) else if x == q then b[x].(children := Minus(b[q].children, {c})) else b[x]
    {
      DetachedEntry(a, M, x);
      DetachedEntry(a, M', x);
    }
  }

  lemma DetachedEntry(a: Arena, M: set<NodeId>, x: NodeId)
    requires x in a
    ensures DetachedArena(a, M).Keys == a.Keys
    ensures DetachedArena(a, M)[x] == a[x].(parent := if x in M then None else a[x].parent, children := Minus(a[x].children, M))
  {
    hide Minus;
  }

  lemma DetachedSame(a: Arena, M: set<NodeId>, M': set<NodeId>, c: NodeId)
    requires c in a && a[c].parent == None && M' == M + {c}
    requires forall x :: x in a ==> Minus(a[x].children, M') == Minus(a[x].children, M)
    ensures DetachedArena(a, M') == DetachedArena(a, M)
  {
    hide Minus;
  }

  lemma NoDupPrefix(N: seq<NodeId>, i: nat)
    requires NoDup(N) && i < |N|
    ensures N[i] !in Members(N[..i]) && Members(N[..i + 1]) == Members(N[..i]) + {N[i]}
  {
    assert N[..i + 1] == N[..i] + [N[i]];
  }

  lemma OneList(a: Arena, c: NodeId)
    requires DownLinks(a) && UpLinks(a) && c in a
    ensures forall x :: x in a && c in a[x].children ==> a[c].parent == Some(x)
    ensures a[c].parent.Some? ==> a[c].parent.value in a
  {
  }

  /** With every member of M out of the lists, a taken list makes no difference. */
  lemma StrippedDetached(whole: Arena, a: Arena, M: set<NodeId>)
    requires Stripped(whole, a, M)
    ensures DetachedArena(a, M) == DetachedArena(whole, M)
  {
    hide Minus;
    forall x | x in a ensures Minus(a[x].children, M) == Minus(whole[x].children, M) {
      if a[x].children == [] {
        MinusAll(whole[x].children, M) by { assert forall y :: y in whole[x].children ==> y in M; }
        MinusAll(a[x].children, M);
      }
    }
  }

  /** Those of N that were children of p. */
  ghost function MovedFrom(a: Arena, N: seq<NodeId>, p: NodeId): set<NodeId> {
    set c | c in N && c in a && a[c].parent == Some(p)
  }

  lemma MovedFromSnoc(a: Arena, N: seq<NodeId>, c: NodeId, p: NodeId)
    ensures MovedFrom(a, N + [c], p) == MovedFrom(a, N, p) + if c in a && a[c].parent == Some(p) then {c} else {}
  {
  }

  lemma {:induction false} MoveReplay(a: Arena, base: map<NodeId, set<NodeId>>, recs: seq<Record>, N: seq<NodeId>, p: NodeId)
    ensures Replay(base, recs + MoveLog(a, N), p) == Replay(base, recs, p) - MovedFrom(a, N, p)
  {
    hide MovedFrom, Replay;
    if N == [] {
      assert recs + [] == recs;
      assert MovedFrom(a, [], p) == {} by { NoneMoved(a, p); }
    } else {
      var M, c := N[..|N| - 1], N[|N| - 1];
      assert N == M + [c];
      MoveReplay(a, base, recs, M, p);
      MovedFromSnoc(a, M, c, p);
      assert recs + MoveLog(a, N) == (recs + MoveLog(a, M)) + CutLog(a, c);
      CutReplay(a, base, recs + MoveLog(a, M), c, p);
    }
  }

  lemma NoneMoved(a: Arena, p: NodeId)
    ensures MovedFrom(a, [], p) == {}
  {
  }

  lemma CutReplay(a: Arena, base: map<NodeId, set<NodeId>>, recs: seq<Record>, c: NodeId, p: NodeId)
    ensures Replay(base, recs + CutLog(a, c), p) == Replay(base, recs, p) - if c in a && a[c].parent == Some(p) then {c} else {}
  {
    hide Replay;
    if c in a && a[c].parent.Some? {
      ReplaySnoc(base, recs, ChildList(a[c].parent.value, [], [c]), p);
    } else {
      assert recs + [] == recs;
    }
  }

  lemma {:induction false} MoveTargets(a: Arena, N: seq<NodeId>, next: NodeId)
    requires UpLinks(a) && (forall c :: c in N ==> c in a) && forall x :: x in a ==> x < next
    ensures forall i :: 0 <= i < |MoveLog(a, N)| ==> MoveLog(a, N)[i].target < next
  {
    if N != [] {
      assert N[|N| - 1] in N;
      MoveTargets(a, N[..|N| - 1], next);
    }
  }

  /** One node_inserted call per child, and one record for all of them. */
  function InsertedEach(p: NodeId, cs: seq<NodeId>): seq<Record> {
    if cs == [] then [] else InsertedEach(p, cs[..|cs| - 1]) + [ChildList(p, [cs[|cs| - 1]], [])]
  }

  function InsertedAtOnce(p: NodeId, cs: seq<NodeId>): seq<Record> {
    if cs == [] then [] else [ChildList(p, cs, [])]
  }

  lemma {:induction false} InsertReplay(base: map<NodeId, set<NodeId>>, recs: seq<Record>, p: NodeId, cs: seq<NodeId>, x: NodeId)
    ensures Replay(base, recs + InsertedEach(p, cs), x) == Replay(base, recs, x) + if x == p then Members(cs) else {}
  {
    hide Replay;
    if cs == [] {
      assert recs + [] == recs;
    } else {
      var n := |cs| - 1;
      InsertReplay(base, recs, p, cs[..n], x);
      assert recs + InsertedEach(p, cs) == (recs + InsertedEach(p, cs[..n])) + [ChildList(p, [cs[n]], [])];
      ReplaySnoc(base, recs + InsertedEach(p, cs[..n]), ChildList(p, [cs[n]], []), x);
      assert cs == cs[..n] + [cs[n]];
    }
  }

  lemma InsertAtOnceReplay(base: map<NodeId, set<NodeId>>, recs: seq<Record>, p: NodeId, cs: seq<NodeId>, x: NodeId)
    ensures Replay(base, recs + InsertedAtOnce(p, cs), x) == Replay(base, recs, x) + if x == p then Members(cs) else {}
  {
    if cs == [] {
      assert recs + [] == recs;
    } else {
      ReplaySnoc(base, recs, ChildList(p, cs, []), x);
    }
  }

  lemma {:induction false} InsertTargets(p: NodeId, cs: seq<NodeId>)
    ensures forall i :: 0 <= i < |InsertedEach(p, cs)| ==> InsertedEach(p, cs)[i].target == p
  {
    if cs != [] { InsertTargets(p, cs[..|cs| - 1]); }
  }

  // --------------------------------------------------- phase two: the splice

  lemma {:induction false} IndexAfter(u: seq<NodeId>, x: NodeId, v: seq<NodeId>)
    requires x !in u
    ensures IndexOf(u + [x] + v, x) == |u|
  {
    if u != [] {
      assert (u + [x] + v)[1..] == u[1..] + [x] + v;
      assert u[0] in u;
      IndexAfter(u[1..], x, v);
    }
  }

  /** The anchor keeps its place when members of M leave the list. */
  lemma SplicePosition(s: seq<NodeId>, M: set<NodeId>, place: Place)
    requires place.Before? ==> place.anchor in s && place.anchor !in M
    ensures var i, j := Position(s, place), Position(Minus(s, M), place);
            Minus(s, M)[..j] == Minus(s[..i], M) && Minus(s, M)[j..] == Minus(s[i..], M)
  {
    hide Minus, IndexOf;
    var i := Position(s, place);
    assert s == s[..i] + s[i..];
    MinusAppend(s[..i], s[i..], M);
    if place.Before? {
      var x := place.anchor;
      assert s[i..] == [x] + s[i + 1..];
      MinusAppend([x], s[i + 1..], M);
      MinusNothing([x], M);
      assert Minus(s, M) == Minus(s[..i], M) + [x] + Minus(s[i + 1..], M);
      IndexAfter(Minus(s[..i], M), x, Minus(s[i + 1..], M));
    } else {
      MinusAll(s[i..], M);
    }
  }

  /** The arena after the splice: N listed under P, not yet linked back. */
  ghost function Spliced(whole: Arena, P: NodeId, at: nat, N: seq<NodeId>): Arena
    requires P in whole && at <= |whole[P].children|
  {
    var d, M := DetachedArena(whole, Members(N)), Members(N);
    d[P := d[P].(children := Minus(whole[P].children[..at], M) + N + Minus(whole[P].children[at..], M))]
  }

  lemma SplicedEntry(whole: Arena, P: NodeId, at: nat, N: seq<NodeId>, x: NodeId)
    requires P in whole && at <= |whole[P].children| && x in whole
    ensures Spliced(whole, P, at, N).Keys == whole.Keys == PlacedAt(Kids(whole), P, at, at, N).Keys
    ensures Spliced(whole, P, at, N)[x] ==
      whole[x].(parent := if x in N then None else whole[x].parent, children := PlacedAt(Kids(whole), P, at, at, N)[x])
  {
    hide Minus;
  }

  lemma SplicedShape(whole: Arena, P: NodeId, at: nat, N: seq<NodeId>)
    requires P in whole && at <= |whole[P].children|
    ensures Kids(Spliced(whole, P, at, N)) == PlacedAt(Kids(whole), P, at, at, N)
    ensures Relinked(whole, Spliced(whole, P, at, N))
    ensures forall x :: x in whole ==>
      Spliced(whole, P, at, N)[x].parent == if x in N then None else whole[x].parent
  {
    hide Minus, Spliced, PlacedAt;
    var b, S := Spliced(whole, P, at, N), PlacedAt(Kids(whole), P, at, at, N);
    SplicedEntry(whole, P, at, N, P);
    forall x | x in whole ensures b[x] == whole[x].(parent := if x in N then None else whole[x].parent, children := S[x]) {
      SplicedEntry(whole, P, at, N, x);
    }
    assert Kids(b) == S;
  }

  // --------------------------------------------------- phase three: the links

  ghost predicate Within(S: Shape, c: NodeId, x: NodeId) {
    Acyclic(S) && c in S && Under(S, c, x)
  }

  /** IS_IN_DOCUMENT is inherited along every edge of S but those into `skip`. */
  ghost predicate EdgeFlags(a: Arena, S: Shape, root: NodeId, skip: set<NodeId>) {
    && root in a && a[root].inDoc && a.Keys == S.Keys
    && (forall q, c :: q in S && c in S[q] && c in a && c !in skip ==> a[c].inDoc == a[q].inDoc)
    && (forall x :: x in a && x != root && (forall q :: q in S ==> x !in S[q]) ==> !a[x].inDoc)
  }

  lemma EdgeStep(a: Arena, S: Shape, root: NodeId, skip: set<NodeId>, P: NodeId, c: NodeId, b: Arena, skip': set<NodeId>)
    requires Forest(S) && EdgeFlags(a, S, root, skip) && skip <= skip' + {c}
    requires P in S && c in S && c in S[P] && !Within(S, c, root) && !Within(S, c, P)
    requires b.Keys == a.Keys
    requires (forall x :: x in a ==> b[x].inDoc == if Within(S, c, x) then a[P].inDoc else a[x].inDoc)
      || (a[c].inDoc == a[P].inDoc && forall x :: x in a ==> b[x].inDoc == a[x].inDoc)
    ensures EdgeFlags(b, S, root, skip')
  {
    hide Under, RankOK, Acyclic, NoDup;
    forall q, x | q in S && x in S[q] && x in b && x !in skip' ensures b[x].inDoc == b[q].inDoc {
      if x == c {
        assert q == P;
        UnderSelf(S, c);
      } else {
        EdgeWithin(S, c, q, x);
      }
    }
    forall x | x in b && x != root && (forall q :: q in S ==> x !in S[q]) ensures !b[x].inDoc {
      if Within(S, c, x) && x != c { var q := UnderUp(S, c, x); }
    }
  }

  lemma EdgeWithin(S: Shape, c: NodeId, q: NodeId, x: NodeId)
    requires Forest(S) && q in S && x in S[q] && x in S && x != c && c in S
    ensures Within(S, c, x) <==> Within(S, c, q)
  {
    hide Under, RankOK, NoDup;
    if Under(S, c, x) { UnderParent(S, c, x, q); }
    if Under(S, c, q) { UnderDown(S, c, q, x); }
  }

  /** Ready to link: the spliced shape is a forest and every new child's subtree
      is in place. */
  lemma AttachReady(whole: Arena, root: NodeId, P: NodeId, at: nat, N: seq<NodeId>)
    requires Tree(whole, root) && Flags(whole, root) && Insertable(whole, root, P, N) && at <= |whole[P].children|
    ensures Attachable(Spliced(whole, P, at, N), Kids(Spliced(whole, P, at, N)), root, P, N)
  {
    hide Tree, Flags, Minus, Under, RankOK, Acyclic, OneParent, NoDup, Spliced, Placed, Detached, EdgeFlags, Climbs, Holds;
    var e := Spliced(whole, P, at, N);
    var S := Kids(e);
    TreeForest(whole, root);
    SplicedShape(whole, P, at, N);
    forall c | c in N ensures !Under(Kids(whole), c, P) { assert !Above(whole, c, P); }
    PlacedForest(Kids(whole), P, at, at, N);
    SplicedClimbs(whole, root, P, at, N);
    SplicedFlags(whole, root, P, at, N);
    forall c | c in N ensures Holds(e, S, c) && c in S[P] && !Within(S, c, root) && !Within(S, c, P) {
      SplicedChild(whole, root, P, at, N, c);
    }
  }

  lemma SplicedClimbs(whole: Arena, root: NodeId, P: NodeId, at: nat, N: seq<NodeId>)
    requires Tree(whole, root) && P in whole && at <= |whole[P].children|
    requires Acyclic(Kids(Spliced(whole, P, at, N)))
    ensures Climbs(Spliced(whole, P, at, N), Kids(Spliced(whole, P, at, N)))
  {
    hide Tree, Minus, Under, RankOK, Acyclic;
    var e := Spliced(whole, P, at, N);
    forall x, p | x in e && e[x].parent == Some(p) ensures p in e && x in e[p].children {
      SplicedUp(whole, root, P, at, N, x, p);
    }
  }

  /** Edges outside N survive the splice. */
  lemma SplicedUp(whole: Arena, root: NodeId, P: NodeId, at: nat, N: seq<NodeId>, x: NodeId, p: NodeId)
    requires Tree(whole, root) && P in whole && at <= |whole[P].children| && x in whole && x !in N
    requires whole[x].parent == Some(p)
    ensures p in whole && x in Spliced(whole, P, at, N)[p].children
  {
    hide Minus, Forest;
    assert whole[P].children == whole[P].children[..at] + whole[P].children[at..];
  }

  /** Edges of the spliced shape come from the old tree or lead from P to N. */
  lemma SplicedDown(whole: Arena, root: NodeId, P: NodeId, at: nat, N: seq<NodeId>, p: NodeId, c: NodeId)
    requires Tree(whole, root) && P in whole && at <= |whole[P].children| && forall c :: c in N ==> c in whole
    requires p in whole && c in Spliced(whole, P, at, N)[p].children
    ensures c in whole && if c in N then p == P else whole[c].parent == Some(p)
  {
    hide Minus, Forest;
  }

  lemma SplicedFlags(whole: Arena, root: NodeId, P: NodeId, at: nat, N: seq<NodeId>)
    requires Tree(whole, root) && Flags(whole, root) && Insertable(whole, root, P, N) && at <= |whole[P].children|
    ensures EdgeFlags(Spliced(whole, P, at, N), Kids(Spliced(whole, P, at, N)), root, Members(N))
  {
    hide Tree, Minus, Spliced, Above, NoDup, Flags;
    var e := Spliced(whole, P, at, N);
    SplicedShape(whole, P, at, N);
    assert root in whole && whole[root].inDoc by { RootFlag(whole, root); }
    forall q, c | q in Kids(e) && c in Kids(e)[q] && c in e && c !in Members(N) ensures e[c].inDoc == e[q].inDoc {
      SplicedDown(whole, root, P, at, N, q, c);
      ParentFlag(whole, root, c);
    }
    forall x | x in e && x != root && (forall q :: q in Kids(e) ==> x !in Kids(e)[q]) ensures !e[x].inDoc {
      SplicedOrphan(whole, root, P, at, N, x);
    }
  }

  lemma RootFlag(a: Arena, root: NodeId)
    requires Flags(a, root)
    ensures root in a && a[root].inDoc
    ensures forall x :: x in a && a[x].parent == None && x != root ==> !a[x].inDoc
  {
  }

  lemma SplicedOrphan(whole: Arena, root: NodeId, P: NodeId, at: nat, N: seq<NodeId>, x: NodeId)
    requires Tree(whole, root) && Flags(whole, root) && Insertable(whole, root, P, N) && at <= |whole[P].children|
    requires x in whole && x != root && forall q :: q in Kids(Spliced(whole, P, at, N)) ==> x !in Kids(Spliced(whole, P, at, N))[q]
    ensures !whole[x].inDoc
  {
    hide Tree, Minus, Spliced, Above, NoDup, Flags;
    var S := Kids(Spliced(whole, P, at, N));
    SplicedShape(whole, P, at, N);
    RootFlag(whole, root);
    if x in N {
      SplicedNew(whole, P, at, N, x);
    } else if whole[x].parent.Some? {
      assert whole[x].parent.value in whole by { ParentFacts(whole, root, x); }
      assert whole[x].parent.value in S;
      SplicedUp(whole, root, P, at, N, x, whole[x].parent.value);
    }
  }

  lemma SplicedNew(whole: Arena, P: NodeId, at: nat, N: seq<NodeId>, c: NodeId)
    requires P in whole && at <= |whole[P].children| && c in N
    ensures P in Kids(Spliced(whole, P, at, N)) && c in Kids(Spliced(whole, P, at, N))[P]
  {
    hide Minus;
  }

  lemma SplicedChild(whole: Arena, root: NodeId, P: NodeId, at: nat, N: seq<NodeId>, c: NodeId)
    requires Tree(whole, root) && Insertable(whole, root, P, N) && at <= |whole[P].children| && c in N
    requires Forest(Kids(Spliced(whole, P, at, N)))
    ensures var e := Spliced(whole, P, at, N); var S := Kids(e);
            Holds(e, S, c) && P in S && c in S[P] && !Within(S, c, root) && !Within(S, c, P)
  {
    hide Tree, Minus, Under, RankOK, OneParent, NoDup, Spliced;
    var e := Spliced(whole, P, at, N);
    var S := Kids(e);
    SplicedShape(whole, P, at, N);
    SplicedNew(whole, P, at, N, c);
    forall y | Under(S, c, y) ensures y in S { UnderLive(S, c, y); }
    EdgeRank(S, P, c);
    if Under(S, c, P) { UnderLive(S, c, P); }
    if Under(S, c, root) {
      assert c in whole && c != root;
      var p := UnderUp(S, c, root);
      SplicedDown(whole, root, P, at, N, p, root);
      RootParentless(whole, root);
    }
  }

  /** All links in place: a tree again, flags inherited along every edge. */
  lemma Attached(whole: Arena, root: NodeId, P: NodeId, at: nat, N: seq<NodeId>, b: Arena)
    requires Tree(whole, root) && Insertable(whole, root, P, N) && at <= |whole[P].children|
    requires Forest(Kids(Spliced(whole, P, at, N)))
    requires b.Keys == whole.Keys
    requires forall x :: x in whole ==> b[x].children == Spliced(whole, P, at, N)[x].children
    requires forall x :: x in whole ==> b[x].parent == if x in N then Some(P) else whole[x].parent
    requires EdgeFlags(b, Kids(Spliced(whole, P, at, N)), root, {})
    ensures Tree(b, root) && Flags(b, root) && Kids(b) == Kids(Spliced(whole, P, at, N))
  {
    hide Tree, Minus, Spliced, Above, NoDup, Forest, EdgeFlags, UpLinks, DownLinks;
    var e := Spliced(whole, P, at, N);
    SplicedShape(whole, P, at, N);
    assert Kids(b) == Kids(e);
    RootParentless(whole, root);
    AttachedUp(whole, root, P, at, N, b);
    AttachedDown(whole, root, P, at, N, b);
    MakeTree(b, root);
    LinkedFlags(b, root);
  }

  lemma AttachedUp(whole: Arena, root: NodeId, P: NodeId, at: nat, N: seq<NodeId>, b: Arena)
    requires Tree(whole, root) && P in whole && at <= |whole[P].children| && b.Keys == whole.Keys
    requires forall x :: x in whole ==> b[x].children == Spliced(whole, P, at, N)[x].children
    requires forall x :: x in whole ==> b[x].parent == if x in N then Some(P) else whole[x].parent
    ensures UpLinks(b)
  {
    hide Tree, Minus, Spliced;
    forall x, p | x in b && b[x].parent == Some(p) ensures p in b && x in b[p].children {
      if x in N { SplicedNew(whole, P, at, N, x); } else { SplicedUp(whole, root, P, at, N, x, p); }
    }
  }

  lemma AttachedDown(whole: Arena, root: NodeId, P: NodeId, at: nat, N: seq<NodeId>, b: Arena)
    requires Tree(whole, root) && P in whole && at <= |whole[P].children| && b.Keys == whole.Keys
    requires forall c :: c in N ==> c in whole
    requires forall x :: x in whole ==> b[x].children == Spliced(whole, P, at, N)[x].children
    requires forall x :: x in whole ==> b[x].parent == if x in N then Some(P) else whole[x].parent
    ensures DownLinks(b)
  {
    hide Tree, Minus, Spliced;
    forall p, c | p in b && c in b[p].children ensures c in b && b[c].parent == Some(p) {
      SplicedDown(whole, root, P, at, N, p, c);
    }
  }

  lemma LinkedFlags(b: Arena, root: NodeId)
    requires Tree(b, root) && EdgeFlags(b, Kids(b), root, {})
    ensures Flags(b, root)
  {
    hide Forest;
    forall x, p | x in b && b[x].parent == Some(p) && p in b ensures b[x].inDoc == b[p].inDoc {
      assert x in Kids(b)[p];
    }
    forall x | x in b && b[x].parent == None && x != root ensures !b[x].inDoc {
      forall q | q in Kids(b) ensures x !in Kids(b)[q] { }
    }
  }

  /** An insertion of nothing but detached pieces outside the document shows nowhere. */
  lemma SplicedView(whole: Arena, root: NodeId, P: NodeId, at: nat, N: seq<NodeId>, b: Arena)
    requires Tree(whole, root) && Flags(whole, root) && Insertable(whole, root, P, N) && at <= |whole[P].children|
    requires !whole[P].inDoc || N == []
    requires forall c :: c in N ==> c in whole && !whole[c].inDoc
    requires b.Keys == whole.Keys
    requires forall x :: x in whole ==> b[x].inDoc == whole[x].inDoc && b[x].data == whole[x].data
    requires forall x :: x in whole ==> b[x].children == Spliced(whole, P, at, N)[x].children
    requires forall x :: x in whole ==> b[x].parent == if x in N then Some(P) else whole[x].parent
    ensures View(b) == View(whole)
  {
    hide Tree, Minus, Spliced, Above, NoDup, Flags;
    forall x | x in whole && whole[x].inDoc ensures b[x].children == whole[x].children && x !in N {
      SplicedList(whole, root, P, at, N, x);
    }
    ViewSame(whole, b);
  }

  lemma SplicedList(whole: Arena, root: NodeId, P: NodeId, at: nat, N: seq<NodeId>, x: NodeId)
    requires Tree(whole, root) && Flags(whole, root) && P in whole && at <= |whole[P].children|
    requires !whole[P].inDoc || N == []
    requires forall c :: c in N ==> c in whole && !whole[c].inDoc
    requires x in whole && whole[x].inDoc
    ensures Spliced(whole, P, at, N)[x].children == whole[x].children
  {
    hide Tree, Minus, Flags;
    var M := Members(N);
    forall y | y in whole[x].children ensures y !in M {
      ChildLink(whole, root, x, y);
      ParentFlag(whole, root, y);
    }
    if x == P {
      assert whole[P].children == whole[P].children[..at] + whole[P].children[at..];
      MinusNothing(whole[P].children[..at], M);
      MinusNothing(whole[P].children[at..], M);
    } else {
      MinusNothing(whole[x].children, M);
    }
  }

  /** The logs of an insertion keep both replays exact. */
  lemma SplicedReplayed(whole: Arena, root: NodeId, P: NodeId, at: nat, N: seq<NodeId>, b: Arena,
                        base: map<NodeId, set<NodeId>>, recs: seq<Record>, calls: seq<Record>, next: NodeId)
    requires Tree(whole, root) && Insertable(whole, root, P, N) && at <= |whole[P].children|
    requires Replayed(whole, base, recs) && Replayed(whole, base, calls)
    requires Logged(base, recs, next) && Logged(base, calls, next) && forall x :: x in whole ==> x < next
    requires b.Keys == whole.Keys
    requires forall x :: x in whole ==> b[x].children == Spliced(whole, P, at, N)[x].children
    ensures Replayed(b, base, recs + MoveLog(whole, N) + InsertedAtOnce(P, N))
    ensures Replayed(b, base, calls + MoveLog(whole, N) + InsertedEach(P, N))
    ensures Logged(base, recs + MoveLog(whole, N) + InsertedAtOnce(P, N), next)
    ensures Logged(base, calls + MoveLog(whole, N) + InsertedEach(P, N), next)
  {
    hide Tree, Minus, Spliced, Above, NoDup, Replay, MovedFrom, InsertedAtOnce, InsertedEach, MoveLog;
    forall x | x in b
      ensures Members(b[x].children) == Members(whole[x].children) - MovedFrom(whole, N, x) + if x == P then Members(N) else {}
      ensures Replay(base, recs + MoveLog(whole, N) + InsertedAtOnce(P, N), x) == Members(b[x].children)
      ensures Replay(base, calls + MoveLog(whole, N) + InsertedEach(P, N), x) == Members(b[x].children)
    {
      SplicedMembers(whole, root, P, at, N, x);
      MoveReplay(whole, base, recs, N, x);
      MoveReplay(whole, base, calls, N, x);
      InsertAtOnceReplay(base, recs + MoveLog(whole, N), P, N, x);
      InsertReplay(base, calls + MoveLog(whole, N), P, N, x);
    }
    MoveTargets(whole, N, next) by { TreeForest(whole, root); }
    InsertTargets(P, N);
    OnceTargets(P, N);
    LoggedMore(base, recs, MoveLog(whole, N), next);
    LoggedMore(base, calls, MoveLog(whole, N), next);
    LoggedMore(base, recs + MoveLog(whole, N), InsertedAtOnce(P, N), next);
    LoggedMore(base, calls + MoveLog(whole, N), InsertedEach(P, N), next);
  }

  lemma OnceTargets(p: NodeId, cs: seq<NodeId>)
    ensures forall i :: 0 <= i < |InsertedAtOnce(p, cs)| ==> InsertedAtOnce(p, cs)[i].target == p
  {
  }

  lemma SplicedMembers(whole: Arena, root: NodeId, P: NodeId, at: nat, N: seq<NodeId>, x: NodeId)
    requires Tree(whole, root) && P in whole && at <= |whole[P].children| && x in whole
    requires forall c :: c in N ==> c in whole
    ensures Members(Spliced(whole, P, at, N)[x].children) ==
      Members(whole[x].children) - MovedFrom(whole, N, x) + if x == P then Members(N) else {}
  {
    hide Minus, Forest;
    assert whole[P].children == whole[P].children[..at] + whole[P].children[at..];
    forall y ensures y in Spliced(whole, P, at, N)[x].children <==>
      (y in whole[x].children && y !in MovedFrom(whole, N, x)) || (x == P && y in N)
    {
    }
  }

  // ---------------------------------------------------- the loops, step by step

  lemma NothingDetached(a: Arena)
    ensures DetachedArena(a, {}) == a && Members([]) == {}
  {
    hide Minus;
    forall x | x in a ensures Minus(a[x].children, {}) == a[x].children { MinusNothing(a[x].children, {}); }
  }

  lemma StrippedNode(whole: Arena, a: Arena, M: set<NodeId>, K: set<NodeId>, c: NodeId)
    requires Stripped(whole, a, M) && c in whole
    ensures c in a && c in DetachedArena(a, K) && DetachedArena(a, K)[c].inDoc == whole[c].inDoc
  {
    hide Minus;
  }

  /** b is e with the nodes of N linked to P, flags and bookkeeping aside. */
  ghost predicate Linked(e: Arena, P: NodeId, N: seq<NodeId>, b: Arena) {
    && b.Keys == e.Keys
    && forall x :: x in e ==>
         && b[x].children == e[x].children && b[x].data == e[x].data
         && b[x].parent == if x in N then Some(P) else e[x].parent
  }

  lemma LinkedNone(e: Arena, P: NodeId)
    ensures Linked(e, P, [], e) && QuietFlags(e, P, [], e)
    ensures forall N :: QuietFlags(e, P, N, e)
  {
  }

  /** If neither P nor any child was in the document, no flag has changed. */
  ghost predicate QuietFlags(e: Arena, P: NodeId, N: seq<NodeId>, b: Arena) {
    (N == [] || (P in e && !e[P].inDoc)) && (forall c :: c in N ==> c in e && !e[c].inDoc) ==>
      b.Keys == e.Keys && forall x :: x in e ==> b[x].inDoc == e[x].inDoc
  }

  /** The state in which the children of N can be linked to P. */
  ghost predicate Attachable(e: Arena, S: Shape, root: NodeId, P: NodeId, N: seq<NodeId>) {
    && Forest(S) && Kids(e) == S && P in S && NoDup(N) && EdgeFlags(e, S, root, Members(N)) && Climbs(e, S)
    && forall c :: c in N ==> Holds(e, S, c) && c in S[P] && !Within(S, c, root) && !Within(S, c, P)
  }

  lemma AttachableMeans(e: Arena, S: Shape, root: NodeId, P: NodeId, N: seq<NodeId>)
    requires Attachable(e, S, root, P, N)
    ensures Forest(S) && P in S && P in e && NoDup(N) && EdgeFlags(e, S, root, Members(N)) && Climbs(e, S)
    ensures forall c :: c in N ==> c in e && c in S && Holds(e, S, c) && c in S[P] && !Within(S, c, root) && !Within(S, c, P)
  {
    hide Forest, NoDup, EdgeFlags, Climbs, Within, Under, Preorder;
    assert P in Kids(e);
  }

  /** Linking the i-th child: everything its subtree walk needs. */
  lemma LinkReady(e: Arena, S: Shape, root: NodeId, P: NodeId, N: seq<NodeId>, i: nat, a: Arena, ix: IdIndex, ui: Ui,
                  snaps: map<NodeId, Snapshot>, was: map<NodeId, Flushed>, deps: set<StateBit>)
    requires i < |N| && Attachable(e, S, root, P, N) && Linked(e, P, N[..i], a) && Climbs(a, S)
    requires Index(a, ix) && UiLive(a, ui) && Journal(a, snaps, was, deps)
    ensures Forest(S) && N[i] in a && P in a
    ensures var b := a[N[i] := a[N[i]].(parent := Some(P))];
            && Climbs(b, S) && Holds(b, S, N[i])
            && Index(b, ix) && UiLive(b, ui) && Journal(b, snaps, was, deps)
  {
    hide Under, RankOK, Index, UiLive, Journal, Acyclic, Attachable, OneParent, NoDup, EdgeFlags, Within, Climbs, Holds;
    AttachableMeans(e, S, root, P, N);
    assert N[i] in N;
    HoldsRoot(e, S, N[i]);
    LinkedHolds(e, S, P, N, i, a);
    RelinkedKeeps(a, a[N[i] := a[N[i]].(parent := Some(P))], ix, ui, snaps, was, deps);
  }

  lemma LinkedHolds(e: Arena, S: Shape, P: NodeId, N: seq<NodeId>, i: nat, a: Arena)
    requires i < |N| && Linked(e, P, N[..i], a) && Climbs(a, S) && Holds(e, S, N[i]) && P in S && N[i] in S[P] && N[i] in a
    ensures var b := a[N[i] := a[N[i]].(parent := Some(P))]; Climbs(b, S) && Holds(b, S, N[i])
  {
    hide Under, RankOK, Acyclic;
  }

  /** After the i-th child: linked, and flags agree along one more edge. */
  lemma LinkDone(e: Arena, S: Shape, root: NodeId, P: NodeId, N: seq<NodeId>, i: nat, a: Arena,
                 f: Option<NodeId>, b: Arena)
    requires i < |N| && Attachable(e, S, root, P, N) && Linked(e, P, N[..i], a) && QuietFlags(e, P, N, a)
    requires EdgeFlags(a, S, root, Members(N[i..])) && N[i] in a && P in a && Forest(S) && N[i] in S
    requires var a' := a[N[i] := a[N[i]].(parent := Some(P))];
             && Climbs(a', S)
             && b == if a[P].inDoc && !a[N[i]].inDoc then MountedArena(a', Members(Preorder(S, N[i])))
                     else if !a[P].inDoc && a[N[i]].inDoc then UnmountedArena(a', Members(Preorder(S, N[i])), f)
                     else a'
    ensures Linked(e, P, N[..i + 1], b) && EdgeFlags(b, S, root, Members(N[i + 1..])) && Climbs(b, S)
    ensures P in b && b[P].inDoc == a[P].inDoc && QuietFlags(e, P, N, b)
  {
    hide EdgeFlags, OneParent, NoDup, Preorder, RankOK, Linked, Attachable, Acyclic, Climbs, QuietFlags, Under, Within,
         MountedArena, UnmountedArena;
    AttachableMeans(e, S, root, P, N);
    assert N[i] in N;
    LinkEffect(a, S, P, N[i], f, b);
    assert Members(N[i..]) <= Members(N[i + 1..]) + {N[i]} by { assert N[i..] == [N[i]] + N[i + 1..]; }
    EdgeStep(a, S, root, Members(N[i..]), P, N[i], b, Members(N[i + 1..]));
    LinkMore(e, P, N, i, a, b);
    SameClimbs(a[N[i] := a[N[i]].(parent := Some(P))], b, S);
    QuietMore(e, P, N, a, b, N[i]);
  }

  lemma LinkEffect(a: Arena, S: Shape, P: NodeId, c: NodeId, f: Option<NodeId>, b: Arena)
    requires Acyclic(S) && c in S && c in a && P in a
    requires var a' := a[c := a[c].(parent := Some(P))];
             b == if a[P].inDoc && !a[c].inDoc then MountedArena(a', Members(Preorder(S, c)))
                  else if !a[P].inDoc && a[c].inDoc then UnmountedArena(a', Members(Preorder(S, c)), f)
                  else a'
    ensures b.Keys == a.Keys
    ensures forall x :: x in a ==> b[x].children == a[x].children && b[x].data == a[x].data
    ensures forall x :: x in a ==> b[x].parent == if x == c then Some(P) else a[x].parent
    ensures forall x :: x in a ==>
      b[x].inDoc == if a[P].inDoc != a[c].inDoc && Within(S, c, x) then a[P].inDoc else a[x].inDoc
  {
    hide Preorder, Acyclic, UnmountedArena, MountedArena, Members, Within;
    var a' := a[c := a[c].(parent := Some(P))];
    assert forall x :: x in a ==> a'[x] == if x == c then a[c].(parent := Some(P)) else a[x];
    WithinMeans(S, c);
    if a[P].inDoc && !a[c].inDoc {
      MountedFacts(a', Members(Preorder(S, c)));
    } else if !a[P].inDoc && a[c].inDoc {
      UnmountedFacts(a', Members(Preorder(S, c)), f);
    }
  }

  lemma WithinMeans(S: Shape, c: NodeId)
    requires Acyclic(S) && c in S
    ensures forall x :: x in Members(Preorder(S, c)) <==> Within(S, c, x)
  {
    hide Preorder;
  }

  lemma MountedFacts(a: Arena, D: set<NodeId>)
    ensures var b := MountedArena(a, D);
            && b.Keys == a.Keys
            && (forall x :: x in a ==> b[x].parent == a[x].parent && b[x].children == a[x].children && b[x].data == a[x].data)
            && (forall x :: x in a ==> b[x].inDoc == (x in D || a[x].inDoc))
  {
  }

  lemma QuietMore(e: Arena, P: NodeId, N: seq<NodeId>, a: Arena, b: Arena, c: NodeId)
    requires QuietFlags(e, P, N, a) && c in N && P in a && c in a && a.Keys == b.Keys
    requires !a[P].inDoc && !a[c].inDoc ==> forall x :: x in a ==> b[x].inDoc == a[x].inDoc
    ensures QuietFlags(e, P, N, b)
  {
  }

  lemma SameClimbs(a: Arena, b: Arena, S: Shape)
    requires Climbs(a, S) && b.Keys == a.Keys && forall x :: x in a ==> b[x].parent == a[x].parent
    ensures Climbs(b, S)
  {
    hide Acyclic;
  }

  lemma LinkMore(e: Arena, P: NodeId, N: seq<NodeId>, i: nat, a: Arena, b: Arena)
    requires i < |N| && Linked(e, P, N[..i], a) && b.Keys == a.Keys && N[i] in a
    requires forall x :: x in a ==> b[x].children == a[x].children && b[x].data == a[x].data
    requires forall x :: x in a ==> b[x].parent == if x == N[i] then Some(P) else a[x].parent
    ensures Linked(e, P, N[..i + 1], b)
  {
    assert N[..i + 1] == N[..i] + [N[i]];
  }

  // ---------------------------------------------------------- the whole routine

  /** The shape after inserting N below P at `place`. */
  ghost function Inserted(whole: Arena, P: NodeId, N: seq<NodeId>, place: Place): Shape {
    if P in whole then
      PlacedAt(Kids(whole), P, Position(whole[P].children, place), Position(whole[P].children, place), N)
    else Kids(whole)
  }

  lemma InsertableMeans(a: Arena, root: NodeId, P: NodeId, N: seq<NodeId>)
    requires Insertable(a, root, P, N)
    ensures P in a && NoDup(N) && forall c :: c in N ==> c in a && c != root && !Above(a, c, P)
  {
  }

  ghost function SpliceInto(d: Arena, P: NodeId, i: nat, N: seq<NodeId>): Arena
    requires P in d && i <= |d[P].children|
  {
    d[P := d[P].(children := d[P].children[..i] + N + d[P].children[i..])]
  }

  lemma InsertedIs(whole: Arena, P: NodeId, N: seq<NodeId>, place: Place)
    requires P in whole
    ensures Inserted(whole, P, N, place) ==
      PlacedAt(Kids(whole), P, Position(whole[P].children, place), Position(whole[P].children, place), N)
  {
  }

  /** What is known before any step: the first phase may start, the splice will
      land at the old position, and the links can then be set. */
  lemma AddPlan(whole: Arena, root: NodeId, P: NodeId, N: seq<NodeId>, place: Place, a: Arena)
    requires Tree(whole, root) && Flags(whole, root) && Insertable(whole, root, P, N)
    requires place.Before? ==> P in whole && place.anchor in whole[P].children && place.anchor !in N
    requires Stripped(whole, a, Members(N))
    ensures P in whole && P in a && a[P].inDoc == whole[P].inDoc
    ensures UpLinks(whole) && DownLinks(whole) && NoDup(N)
    ensures forall c :: c in N ==> c in whole && whole[c].parent != Some(c)
    ensures var at := Position(whole[P].children, place);
            var d := DetachedArena(whole, Members(N));
            && at <= |whole[P].children| && P in d && Position(d[P].children, place) <= |d[P].children|
            && SpliceInto(d, P, Position(d[P].children, place), N) == Spliced(whole, P, at, N)
            && Attachable(Spliced(whole, P, at, N), Kids(Spliced(whole, P, at, N)), root, P, N)
  {
    hide Tree, Flags, UpLinks, DownLinks, Forest, NoDup, Attachable, Above, Insertable, Members, RankOK,
         Spliced, SpliceInto, Stripped, DetachedArena, Kids;
    InsertableMeans(whole, root, P, N);
    TreeForest(whole, root);
    LinksMean(whole);
    StrippedPoint(whole, a, Members(N), P);
    SpliceLands(whole, P, N, place);
    AttachReady(whole, root, P, Position(whole[P].children, place), N);
    SplicedShape(whole, P, Position(whole[P].children, place), N);
    forall c | c in N ensures whole[c].parent != Some(c) {
      if whole[c].parent.Some? { ParentFacts(whole, root, c); }
    }
  }

  lemma SpliceLands(whole: Arena, P: NodeId, N: seq<NodeId>, place: Place)
    requires P in whole
    requires place.Before? ==> place.anchor in whole[P].children && place.anchor !in N
    ensures var at := Position(whole[P].children, place);
            var d := DetachedArena(whole, Members(N));
            && at <= |whole[P].children| && P in d && Position(d[P].children, place) <= |d[P].children|
            && SpliceInto(d, P, Position(d[P].children, place), N) == Spliced(whole, P, at, N)
  {
    hide Minus, IndexOf, Members;
    MembersMean(N);
    SplicePosition(whole[P].children, Members(N), place);
    DetachedPoint(whole, Members(N), P);
    assert DetachedArena(whole, Members(N))[P].children == Minus(whole[P].children, Members(N));
  }

  lemma MembersMean(N: seq<NodeId>)
    ensures forall x :: x in Members(N) <==> x in N
  {
  }

  lemma LinksMean(a: Arena)
    requires Links(a)
    ensures UpLinks(a) && DownLinks(a)
  {
  }

  lemma StrippedPoint(whole: Arena, a: Arena, M: set<NodeId>, x: NodeId)
    requires Stripped(whole, a, M) && x in whole
    ensures x in a && a[x].inDoc == whole[x].inDoc
  {
  }

  lemma SpliceKeeps(whole: Arena, root: NodeId, P: NodeId, at: nat, N: seq<NodeId>, ix: IdIndex, ui: Ui,
                    snaps: map<NodeId, Snapshot>, was: map<NodeId, Flushed>, deps: set<StateBit>)
    requires P in whole && at <= |whole[P].children|
    requires Index(whole, ix) && UiLive(whole, ui) && Journal(whole, snaps, was, deps)
    ensures var e := Spliced(whole, P, at, N); Index(e, ix) && UiLive(e, ui) && Journal(e, snaps, was, deps)
  {
    hide Index, UiLive, Journal, Spliced;
    SplicedShape(whole, P, at, N);
    RelinkedKeeps(whole, Spliced(whole, P, at, N), ix, ui, snaps, was, deps);
  }

  /** What holds once all links are set. */
  lemma AddDone(whole: Arena, root: NodeId, P: NodeId, at: nat, N: seq<NodeId>, b: Arena,
                base: map<NodeId, set<NodeId>>, recs0: seq<Record>, calls0: seq<Record>, next: NodeId)
    requires Tree(whole, root) && Flags(whole, root) && IdCached(whole) && Insertable(whole, root, P, N)
    requires P in whole && at <= |whole[P].children|
    requires var e := Spliced(whole, P, at, N);
             && Attachable(e, Kids(e), root, P, N)
             && Linked(e, P, N, b) && EdgeFlags(b, Kids(e), root, {}) && QuietFlags(e, P, N, b)
    requires Replayed(whole, base, recs0) && Replayed(whole, base, calls0)
    requires Logged(base, recs0, next) && Logged(base, calls0, next)
    requires forall x :: x in whole ==> x < next
    ensures Tree(b, root) && Flags(b, root) && IdCached(b) && b.Keys == whole.Keys
    ensures Kids(b) == PlacedAt(Kids(whole), P, at, at, N) && DataOf(b) == DataOf(whole)
    ensures Replayed(b, base, recs0 + MoveLog(whole, N) + InsertedAtOnce(P, N))
    ensures Replayed(b, base, calls0 + MoveLog(whole, N) + InsertedEach(P, N))
    ensures Logged(base, recs0 + MoveLog(whole, N) + InsertedAtOnce(P, N), next)
    ensures Logged(base, calls0 + MoveLog(whole, N) + InsertedEach(P, N), next)
    ensures (!whole[P].inDoc || N == []) && (forall c :: c in N ==> c in whole && !whole[c].inDoc) ==> View(b) == View(whole)
  {
    hide Tree, Flags, IdCached, Minus, UpLinks, DownLinks, Forest, NoDup, EdgeFlags, Climbs, Holds, Within, Above,
         Replayed, Logged, View, Insertable, Attachable, Spliced, MoveLog, InsertedAtOnce, InsertedEach;
    var e := Spliced(whole, P, at, N);
    AttachableMeans(e, Kids(e), root, P, N);
    SplicedShape(whole, P, at, N);
    SplicedBasics(whole, P, at, N, b);
    Attached(whole, root, P, at, N, b);
    SameIds(whole, b);
    SplicedReplayed(whole, root, P, at, N, b, base, recs0, calls0, next);
    if (!whole[P].inDoc || N == []) && (forall c :: c in N ==> c in whole && !whole[c].inDoc) {
      QuietSplice(whole, P, at, N, b);
      SplicedView(whole, root, P, at, N, b);
    }
  }

  lemma SplicedBasics(whole: Arena, P: NodeId, at: nat, N: seq<NodeId>, b: Arena)
    requires P in whole && at <= |whole[P].children| && Linked(Spliced(whole, P, at, N), P, N, b)
    ensures b.Keys == whole.Keys && DataOf(b) == DataOf(whole)
    ensures forall x :: x in whole ==> b[x].data == whole[x].data
    ensures forall x :: x in whole ==> b[x].children == Spliced(whole, P, at, N)[x].children
    ensures forall x :: x in whole ==> b[x].parent == if x in N then Some(P) else whole[x].parent
  {
    hide Minus, Spliced;
    SplicedShape(whole, P, at, N);
  }

  lemma QuietSplice(whole: Arena, P: NodeId, at: nat, N: seq<NodeId>, b: Arena)
    requires P in whole && at <= |whole[P].children| && Linked(Spliced(whole, P, at, N), P, N, b)
    requires QuietFlags(Spliced(whole, P, at, N), P, N, b)
    requires !whole[P].inDoc || N == []
    requires forall c :: c in N ==> c in whole && !whole[c].inDoc
    ensures forall x :: x in whole ==> x in b && b[x].inDoc == whole[x].inDoc
  {
    hide Minus, Spliced;
    SplicedShape(whole, P, at, N);
  }
}
