/** The placement law of the ParentNode and ChildNode operations: detaching the
    inserted nodes first does not disturb where they end up. */
module Placement {
  import opened Shapes
  import opened Nodes
  import opened Edits
  import opened Moves
  import opened Ancestry
  import opened Paint
  import opened Inserts

  /** Splitting a list at i, after members of M are out. */
  lemma SplitMinus(s: seq<NodeId>, M: set<NodeId>, i: nat)
    requires i <= |s|
    ensures var j := |Minus(s[..i], M)|;
            j <= |Minus(s, M)| && Minus(s, M)[..j] == Minus(s[..i], M) && Minus(s, M)[j..] == Minus(s[i..], M)
  {
    hide Minus;
    assert s == s[..i] + s[i..];
    MinusAppend(s[..i], s[i..], M);
  }

  /** A stretch of excluded nodes does not matter to where a list is cut. */
  lemma SkipExcluded(s: seq<NodeId>, M: set<NodeId>, i: nat, k: nat)
    requires i <= k <= |s| && forall j :: i <= j < k ==> s[j] in M
    ensures Minus(s[..i], M) == Minus(s[..k], M) && Minus(s[i..], M) == Minus(s[k..], M)
  {
    hide Minus;
    assert s[..k] == s[..i] + s[i..k] && s[i..] == s[i..k] + s[k..];
    MinusAppend(s[..i], s[i..k], M);
    MinusAppend(s[i..k], s[k..], M);
    MinusAll(s[i..k], M);
  }

  lemma MinusAgain(s: seq<NodeId>, M: set<NodeId>)
    ensures Minus(Minus(s, M), M) == Minus(s, M)
  {
    MinusNothing(Minus(s, M), M);
  }

  /** Inserting after detaching is inserting at the corresponding cut. */
  lemma PlacedDetached(S: Shape, P: NodeId, a: nat, b: nat, a': nat, b': nat, N: seq<NodeId>)
    requires P in S && a <= b <= |S[P]| && a' <= b' <= |Minus(S[P], Members(N))|
    requires Minus(S[P], Members(N))[..a'] == Minus(S[P][..a], Members(N))
    requires Minus(S[P], Members(N))[b'..] == Minus(S[P][b..], Members(N))
    ensures PlacedAt(Detached(S, Members(N)), P, a', b', N) == PlacedAt(S, P, a, b, N)
  {
    hide Minus;
    var M := Members(N);
    var D := Detached(S, M);
    forall x | x in S ensures Minus(D[x], M) == D[x] { MinusAgain(S[x], M); }
    MinusAgain(S[P][..a], M);
    MinusAgain(S[P][b..], M);
    assert Detached(D, M) == D;
  }

  /** Insertability survives detaching: subtrees only shrink. */
  lemma StillInsertable(a: Arena, root: NodeId, P: NodeId, N: seq<NodeId>, b: Arena, M: set<NodeId>)
    requires Tree(a, root) && Insertable(a, root, P, N) && Kids(b) == Detached(Kids(a), M) && Tree(b, root)
    ensures Insertable(b, root, P, N)
  {
    hide Tree, RankOK, Minus, Under, OneParent, NoDup;
    TreeForest(a, root);
    TreeForest(b, root);
    forall c | c in N ensures c in b && !Above(b, c, P) {
      assert c in a && !Above(a, c, P) && c in Kids(b);
      if Above(b, c, P) {
        forall x, y | x in Kids(b) && y in Kids(b)[x] ensures y in Kids(b) && y in Kids(a)[x] { ChildrenRank(Kids(b), x); }
        ThinnerUnder(Kids(b), Kids(a), c, P);
      }
    }
    assert P in Kids(b);
  }

  lemma CutShape(a: Arena, root: NodeId, n: NodeId, f: Option<NodeId>)
    requires Tree(a, root) && n in a
    ensures Kids(CutArena(a, n, f)) == Detached(Kids(a), {n}) && DataOf(CutArena(a, n, f)) == DataOf(a)
    ensures CutArena(a, n, f).Keys == a.Keys && n in CutArena(a, n, f) && CutArena(a, n, f)[n].parent == None
    ensures forall x :: x in a && x != n ==> CutArena(a, n, f)[x].parent == a[x].parent
  {
    hide Tree, Minus, SubtreeOf, UnmountedArena;
    var b := UnmountedArena(a, SubtreeOf(a, n), f);
    UnmountedFacts(a, SubtreeOf(a, n), f);
    assert Kids(b) == Kids(a) && DataOf(b) == DataOf(a);
    DetachedRelinked(b, {n});
  }

  /** Taking one more node out of the lists. */
  lemma DetachedTwice(S: Shape, M: set<NodeId>, N: set<NodeId>)
    ensures Detached(Detached(S, M), N) == Detached(S, M + N)
  {
    hide Minus;
    forall x | x in S ensures Minus(Minus(S[x], M), N) == Minus(S[x], M + N) { MinusTwice(S[x], M, N); }
  }

  /** A parentless node is in no list. */
  lemma DetachedAlready(a: Arena, root: NodeId, c: NodeId)
    requires Tree(a, root) && c in a && a[c].parent == None
    ensures Detached(Kids(a), {c}) == Kids(a)
  {
    hide Minus, Tree;
    forall x | x in a ensures Minus(a[x].children, {c}) == a[x].children {
      if c in a[x].children { ChildLink(a, root, x, c); }
      MinusNothing(a[x].children, {c});
    }
  }

  lemma DetachedNone(S: Shape)
    ensures Detached(S, {}) == S
  {
    hide Minus;
    forall x | x in S ensures Minus(S[x], {}) == S[x] { MinusNothing(S[x], {}); }
  }

  lemma DetachedMore(S: Shape, N: seq<NodeId>, i: nat)
    requires i < |N|
    ensures Detached(Detached(S, Members(N[..i])), {N[i]}) == Detached(S, Members(N[..i + 1]))
  {
    DetachedTwice(S, Members(N[..i]), {N[i]});
    assert N[..i + 1] == N[..i] + [N[i]];
    assert Members(N[..i + 1]) == Members(N[..i]) + {N[i]};
  }

  /** Cutting the anchor from a list into which N was spliced before it. */
  lemma CutSpliced(C: seq<NodeId>, i: nat, N: seq<NodeId>, M: set<NodeId>)
    requires i < |C| && NoDup(C) && C[i] !in N && M == Members(N)
    ensures Minus(Minus(C[..i], M) + N + Minus(C[i..], M), {C[i]}) == Minus(C[..i], M) + N + Minus(C[i + 1..], M)
  {
    hide Minus;
    var x := C[i];
    var u, v := Minus(C[..i], M), Minus(C[i + 1..], M);
    assert C[i..] == [x] + C[i + 1..];
    MinusAppend([x], C[i + 1..], M);
    MinusNothing([x], M);
    assert u + N + ([x] + v) == u + N + [x] + v;
    MinusAppend(u + N + [x], v, {x});
    MinusAppend(u + N, [x], {x});
    MinusAll([x], {x});
    assert x !in C[..i] && x !in C[i + 1..];
    MinusNothing(u + N, {x});
    MinusNothing(v, {x});
  }

  /** Replacing: inserting before the anchor, then cutting the anchor. */
  lemma PlacedThenCut(a: Arena, root: NodeId, P: NodeId, i: nat, N: seq<NodeId>)
    requires Tree(a, root) && P in a && i < |a[P].children| && a[P].children[i] !in N
    ensures Detached(PlacedAt(Kids(a), P, i, i, N), {a[P].children[i]}) == PlacedAt(Kids(a), P, i, i + 1, N)
  {
    hide Tree, Minus, Acyclic;
    var C, M := a[P].children, Members(N);
    TreeForest(a, root);
    assert NoDup(Kids(a)[P]);
    CutSpliced(C, i, N, M);
    forall p | p in a && p != P ensures Minus(Minus(a[p].children, M), {C[i]}) == Minus(a[p].children, M) {
      OtherList(a, root, P, C[i], p);
      MinusNothing(Minus(a[p].children, M), {C[i]});
    }
  }

  lemma OtherList(a: Arena, root: NodeId, P: NodeId, x: NodeId, p: NodeId)
    requires Tree(a, root) && P in a && x in a[P].children && p in a && p != P
    ensures x !in a[p].children
  {
    ChildLink(a, root, P, x);
    if x in a[p].children { ChildLink(a, root, p, x); }
  }

  lemma StrippedSelf(a: Arena, M: set<NodeId>)
    ensures Stripped(a, a, M)
  {
  }

  lemma InsertedAtEnd(a: Arena, root: NodeId, P: NodeId, N: seq<NodeId>)
    requires Insertable(a, root, P, N)
    ensures Inserted(a, P, N, AtEnd) == PlacedAt(Kids(a), P, |a[P].children|, |a[P].children|, N)
  {
  }

  lemma IndexUnique(s: seq<NodeId>, i: nat)
    requires NoDup(s) && i < |s|
    ensures IndexOf(s, s[i]) == i
  {
    hide IndexOf;
    assert s[i] in s;
    assert IndexOf(s, s[i]) < |s|;
  }

  lemma SiblingFacts(a: Arena, root: NodeId, P: NodeId, i: nat)
    requires Tree(a, root) && P in a && i < |a[P].children|
    ensures var x := a[P].children[i]; x in a && a[x].parent == Some(P) && IndexOf(a[P].children, x) == i
  {
    hide Acyclic, UpLinks;
    ChildLink(a, root, P, a[P].children[i]);
    assert NoDup(Kids(a)[P]);
    IndexUnique(a[P].children, i);
  }

  lemma StrippedTaken(a: Arena, p: NodeId)
    requires p in a
    ensures Stripped(a, Taken(a, p), Members(a[p].children))
  {
  }

  lemma KeysOfData(a: Arena, b: Arena)
    requires DataOf(a) == DataOf(b)
    ensures a.Keys == b.Keys && forall x :: x in a ==> a[x].data == b[x].data
  {
    assert DataOf(a).Keys == a.Keys && DataOf(b).Keys == b.Keys;
    assert forall x :: x in a ==> DataOf(a)[x] == a[x].data;
  }

  // ---------------------------------------------------------- after detaching

  /** The nodes of M are parentless in b, everything else hangs as in a. */
  ghost predicate Unparented(a: Arena, M: set<NodeId>, b: Arena) {
    && b.Keys == a.Keys
    && forall x :: x in a ==> b[x].parent == if x in M then None else a[x].parent
  }

  lemma UnparentedNone(a: Arena)
    ensures Unparented(a, {}, a) && Members([]) == {}
    ensures MoveLog(a, []) == []
  {
  }

  /** One more node of N: if it has a parent it is cut, otherwise nothing is to do. */
  lemma DetachOneMore(a: Arena, root: NodeId, N: seq<NodeId>, i: nat, b: Arena, f: Option<NodeId>)
    requires Tree(b, root) && NoDup(N) && i < |N| && N[i] in a && Unparented(a, Members(N[..i]), b)
    ensures N[i] in b && b[N[i]].parent == a[N[i]].parent
    ensures MoveLog(a, N[..i + 1]) == MoveLog(a, N[..i]) + CutLog(b, N[i])
    ensures Kids(CutArena(b, N[i], f)) == Detached(Kids(b), {N[i]}) && DataOf(CutArena(b, N[i], f)) == DataOf(b)
    ensures Unparented(a, Members(N[..i + 1]), CutArena(b, N[i], f))
    ensures b[N[i]].parent == None ==>
      && Detached(Kids(b), {N[i]}) == Kids(b) && Unparented(a, Members(N[..i + 1]), b) && CutLog(b, N[i]) == []
  {
    hide Tree, CutArena, Kids, DataOf, Detached;
    NoDupPrefix(N, i);
    assert N[..i + 1][..i] == N[..i];
    CutShape(b, root, N[i], f);
    if b[N[i]].parent == None { DetachedAlready(b, root, N[i]); }
  }

  /** What a search for a viable sibling found. */
  ghost predicate Viable(C: seq<NodeId>, start: int, offset: int, excluded: seq<NodeId>, r: Option<NodeId>) {
    match r
    case None => forall j :: 0 <= j < |C| && (if offset == 1 then start < j else j < start) ==> C[j] in excluded
    case Some(x) =>
      exists k :: 0 <= k < |C| && C[k] == x && x !in excluded && (if offset == 1 then start < k else k < start)
        && forall j :: (if offset == 1 then start < j < k else k < j < start) ==> 0 <= j < |C| && C[j] in excluded
  }

  /** After detaching N, cutting P's old list at i is cutting the new one at the
      number of survivors before i. */
  lemma AfterDetach(a: Arena, root: NodeId, P: NodeId, N: seq<NodeId>, b: Arena, i: nat, j: nat)
    requires Tree(a, root) && Tree(b, root) && Insertable(a, root, P, N) && Kids(b) == Detached(Kids(a), Members(N))
    requires i <= j <= |a[P].children|
    ensures P in b && b[P].children == Minus(a[P].children, Members(N)) && Insertable(b, root, P, N)
    ensures forall y :: y in b[P].children ==> y !in N
    ensures var i', j' := |Minus(a[P].children[..i], Members(N))|, |b[P].children| - |Minus(a[P].children[j..], Members(N))|;
            && 0 <= i' <= j' <= |b[P].children| && (i == j ==> i' == j')
            && PlacedAt(Kids(b), P, i', j', N) == PlacedAt(Kids(a), P, i, j, N)
  {
    hide Tree, Minus, NoDup, Above, PlacedAt;
    StillInsertable(a, root, P, N, b, Members(N));
    assert P in Kids(a) && P in Kids(b);
    assert Kids(b)[P] == Minus(Kids(a)[P], Members(N));
    var C, M := a[P].children, Members(N);
    SplitMinus(C, M, i);
    SplitMinus(C, M, j);
    SplitMinus(C[..j], M, i);
    assert C[..j][..i] == C[..i];
    PlacedDetached(Kids(a), P, i, j, |Minus(C[..i], M)|, |b[P].children| - |Minus(C[j..], M)|, N);
  }

  lemma Excluded(C: seq<NodeId>, N: seq<NodeId>, i: nat, k: nat)
    requires i <= k <= |C| && forall j :: i <= j < k ==> C[j] in N
    ensures Minus(C[..i], Members(N)) == Minus(C[..k], Members(N)) && Minus(C[i..], Members(N)) == Minus(C[k..], Members(N))
  {
    hide Minus;
    MembersMean(N);
    SkipExcluded(C, Members(N), i, k);
  }

  /** after() and replaceWith(): the cut at i is the cut before the next viable
      sibling, or the end. */
  lemma AfterCut(a: Arena, root: NodeId, P: NodeId, N: seq<NodeId>, b: Arena, i: nat, r: Option<NodeId>, j: nat)
    requires Tree(a, root) && Tree(b, root) && Insertable(a, root, P, N) && Kids(b) == Detached(Kids(a), Members(N))
    requires i < |a[P].children| && Viable(a[P].children, i, 1, N, r)
    requires j == i + 1 || (j == i && a[P].children[i] in N)
    ensures P in b && Insertable(b, root, P, N)
    ensures r == None ==> PlacedAt(Kids(b), P, |b[P].children|, |b[P].children|, N) == PlacedAt(Kids(a), P, j, j, N)
    ensures r.Some? ==>
      && r.value in b && b[r.value].parent == Some(P) && r.value !in N
      && var k := IndexOf(b[P].children, r.value);
         PlacedAt(Kids(b), P, k, k, N) == PlacedAt(Kids(a), P, j, j, N)
  {
    hide Tree, Minus, NoDup, Above, PlacedAt, Insertable;
    InsertableMeans(a, root, P, N);
    var C := a[P].children;
    match r {
      case None =>
        Excluded(C, N, j, |C|);
        AfterDetach(a, root, P, N, b, j, j);
        assert C[|C|..] == [] && C[..|C|] == C;
        MinusEmpty(Members(N));
      case Some(x) =>
        var k :| i < k < |C| && C[k] == x && x !in N && forall j :: i < j < k ==> C[j] in N;
        Excluded(C, N, j, k);
        AfterDetach(a, root, P, N, b, j, j);
        SurvivorIndex(a, root, P, N, b, k);
    }
  }

  lemma MinusEmpty(M: set<NodeId>)
    ensures Minus([], M) == []
  {
  }

  /** Where a survivor of the detachment now sits. */
  lemma SurvivorIndex(a: Arena, root: NodeId, P: NodeId, N: seq<NodeId>, b: Arena, k: nat)
    requires Tree(a, root) && Tree(b, root) && P in a && Kids(b) == Detached(Kids(a), Members(N))
    requires k < |a[P].children| && a[P].children[k] !in N
    ensures P in b && var x := a[P].children[k];
            && x in b && b[x].parent == Some(P)
            && IndexOf(b[P].children, x) == |Minus(a[P].children[..k], Members(N))|
            && |Minus(a[P].children[..k], Members(N))| < |b[P].children|
  {
    hide Tree, Minus, IndexOf, Acyclic;
    var C, M, x := a[P].children, Members(N), a[P].children[k];
    MembersMean(N);
    assert P in Kids(b) && Kids(b)[P] == Minus(Kids(a)[P], M);
    SplitMinus(C, M, k);
    assert C[k..] == [x] + C[k + 1..];
    MinusAppend([x], C[k + 1..], M);
    MinusNothing([x], M);
    var i := |Minus(C[..k], M)|;
    assert b[P].children[i..] == [x] + Minus(C[k + 1..], M);
    assert b[P].children[i] == x;
    SiblingFacts(b, root, P, i);
  }

  /** before(): the cut at i is the cut after the previous viable sibling, or the
      start. */
  lemma BeforeCut(a: Arena, root: NodeId, P: NodeId, N: seq<NodeId>, b: Arena, i: nat, r: Option<NodeId>)
    requires Tree(a, root) && Tree(b, root) && Insertable(a, root, P, N) && Kids(b) == Detached(Kids(a), Members(N))
    requires i < |a[P].children| && Viable(a[P].children, i, -1, N, r)
    ensures P in b && Insertable(b, root, P, N) && forall y :: y in b[P].children ==> y !in N
    ensures r == None ==> PlacedAt(Kids(b), P, 0, 0, N) == PlacedAt(Kids(a), P, i, i, N)
    ensures r.Some? ==>
      && r.value in b && b[r.value].parent == Some(P)
      && var k := IndexOf(b[P].children, r.value) + 1;
         PlacedAt(Kids(b), P, k, k, N) == PlacedAt(Kids(a), P, i, i, N)
         && (k < |b[P].children| ==> b[P].children[k] !in N)
  {
    hide Tree, Minus, NoDup, Above, PlacedAt, Insertable, IndexOf, Detached, Members;
    InsertableMeans(a, root, P, N);
    var C := a[P].children;
    match r {
      case None =>
        AfterDetach(a, root, P, N, b, i, i);
        Excluded(C, N, 0, i);
        assert C[..0] == [];
        MinusEmpty(Members(N));
      case Some(x) =>
        AfterDetach(a, root, P, N, b, 0, 0);
        var k :| 0 <= k < i && C[k] == x && x !in N && forall j :: k < j < i ==> C[j] in N;
        BeforeFrom(a, root, P, N, b, i, k);
    }
  }

  lemma BeforeFrom(a: Arena, root: NodeId, P: NodeId, N: seq<NodeId>, b: Arena, i: nat, k: nat)
    requires Tree(a, root) && Tree(b, root) && Insertable(a, root, P, N) && Kids(b) == Detached(Kids(a), Members(N))
    requires P in a && k < i < |a[P].children| && a[P].children[k] !in N && forall j :: k < j < i ==> a[P].children[j] in N
    ensures P in b && var x := a[P].children[k];
            && x in b && b[x].parent == Some(P)
            && var n := IndexOf(b[P].children, x) + 1;
               PlacedAt(Kids(b), P, n, n, N) == PlacedAt(Kids(a), P, i, i, N)
               && (n < |b[P].children| ==> b[P].children[n] !in N)
  {
    hide Tree, Minus, NoDup, Above, PlacedAt, Insertable, IndexOf, Kids, Detached, Members;
    var C, x := a[P].children, a[P].children[k];
    Excluded(C, N, k + 1, i);
    AfterDetach(a, root, P, N, b, i, i);
    SurvivorIndex(a, root, P, N, b, k);
    MembersMean(N);
    assert C[..k + 1] == C[..k] + [x];
    MinusAppend(C[..k], [x], Members(N));
    MinusNothing([x], Members(N));
  }

  /** replaceWith(): with the anchor kept it is cut out, with the anchor among N
      the next viable sibling marks the place. */
  lemma ReplaceCut(a: Arena, root: NodeId, P: NodeId, N: seq<NodeId>, b: Arena, i: nat, r: Option<NodeId>)
    requires Tree(a, root) && Tree(b, root) && Insertable(a, root, P, N) && Kids(b) == Detached(Kids(a), Members(N))
    requires Unparented(a, Members(N), b)
    requires i < |a[P].children| && Viable(a[P].children, i, 1, N, r)
    ensures P in b && Insertable(b, root, P, N)
    ensures var x := a[P].children[i];
            && x in b
            && (b[x].parent.Some? <==> x !in N)
            && (x !in N ==>
                  && b[x].parent == Some(P)
                  && var k := IndexOf(b[P].children, x);
                     PlacedAt(Kids(b), P, k, k + 1, N) == PlacedAt(Kids(a), P, i, i + 1, N))
            && (x in N && r == None ==>
                  PlacedAt(Kids(b), P, |b[P].children|, |b[P].children|, N) == PlacedAt(Kids(a), P, i, i + 1, N))
            && (x in N && r.Some? ==>
                  && r.value in b && b[r.value].parent == Some(P) && r.value !in N
                  && var k := IndexOf(b[P].children, r.value);
                     PlacedAt(Kids(b), P, k, k, N) == PlacedAt(Kids(a), P, i, i + 1, N))
  {
    hide Tree, Minus, NoDup, Above, PlacedAt, Insertable, Viable, IndexOf, Detached, Members, Kids;
    InsertableMeans(a, root, P, N);
    var C, x := a[P].children, a[P].children[i];
    MembersMean(N);
    ChildLink(a, root, P, x);
    AfterCut(a, root, P, N, b, i, r, i + 1);
    if x !in N {
      ReplaceKept(a, root, P, N, b, i);
    } else {
      Excluded(C, N, i, i + 1);
      SamePlaced(a, P, i, i + 1, N);
    }
  }

  lemma ReplaceKept(a: Arena, root: NodeId, P: NodeId, N: seq<NodeId>, b: Arena, i: nat)
    requires Tree(a, root) && Tree(b, root) && Insertable(a, root, P, N) && Kids(b) == Detached(Kids(a), Members(N))
    requires P in a && i < |a[P].children| && a[P].children[i] !in N
    ensures P in b && var k := IndexOf(b[P].children, a[P].children[i]);
            PlacedAt(Kids(b), P, k, k + 1, N) == PlacedAt(Kids(a), P, i, i + 1, N)
  {
    hide Tree, Minus, NoDup, Above, PlacedAt, Insertable, IndexOf, Detached, Members, Kids;
    var C, x := a[P].children, a[P].children[i];
    MembersMean(N);
    SurvivorIndex(a, root, P, N, b, i);
    AfterDetach(a, root, P, N, b, i, i + 1);
    SplitMinus(C, Members(N), i);
    assert C[i..] == [x] + C[i + 1..];
    MinusAppend([x], C[i + 1..], Members(N));
    MinusNothing([x], Members(N));
  }

  /** Cutting at i and at i+1 is the same when the node between is in N. */
  lemma SamePlaced(a: Arena, P: NodeId, i: nat, k: nat, N: seq<NodeId>)
    requires P in a && i <= k <= |a[P].children|
    requires Minus(a[P].children[..i], Members(N)) == Minus(a[P].children[..k], Members(N))
    ensures PlacedAt(Kids(a), P, k, k, N) == PlacedAt(Kids(a), P, i, k, N)
  {
    hide Minus;
  }

  // ---------------------------------------------------------- replaceChildren

  lemma ChildrenFacts(a: Arena, root: NodeId, P: NodeId)
    requires Tree(a, root) && P in a
    ensures NoDup(a[P].children)
    ensures forall i :: 0 <= i < |a[P].children| ==> a[P].children[i] in a && a[P].children[i] != root
  {
    hide Acyclic, UpLinks;
    assert NoDup(Kids(a)[P]);
  }

  lemma ClearedReady(a: Arena, root: NodeId, P: NodeId, N: seq<NodeId>, b: Arena)
    requires Tree(a, root) && Tree(b, root) && Insertable(a, root, P, N) && Kids(b) == Detached(Kids(a), Members(N))
    ensures P in b && b[P].children == Minus(a[P].children, Members(N))
  {
    hide Tree, Minus, NoDup, Above;
    assert P in Kids(b) && Kids(b)[P] == Minus(Kids(a)[P], Members(N));
  }

  lemma ClearedDone(a: Arena, root: NodeId, P: NodeId, N: seq<NodeId>, b: Arena, c: Arena)
    requires Tree(a, root) && Tree(b, root) && Tree(c, root) && Insertable(a, root, P, N)
    requires Kids(b) == Detached(Kids(a), Members(N)) && Unparented(a, Members(N), b)
    requires P in b && Kids(c) == Detached(Kids(b), Members(b[P].children)) && Unparented(b, Members(b[P].children), c)
    ensures Insertable(c, root, P, N) && c[P].children == []
    ensures PlacedAt(Kids(c), P, 0, 0, N) == PlacedAt(Kids(a), P, 0, |a[P].children|, N)
    ensures MoveLog(c, N) == []
  {
    hide Tree, Minus, NoDup, Above, Insertable;
    var C, M := a[P].children, Members(N);
    AfterDetach(a, root, P, N, b, 0, |C|);
    StillInsertable(b, root, P, N, c, Members(b[P].children));
    assert P in Kids(c) && Kids(c)[P] == Minus(Kids(b)[P], Members(b[P].children));
    MinusAll(b[P].children, Members(b[P].children));
    assert C[..0] == [] && C[|C|..] == [];
    MinusEmpty(M);
    ClearedPlaced(b, c, root, P, N);
    NoMoves(c, N) by { InsertableMeans(a, root, P, N); }
  }

  lemma ClearedPlaced(b: Arena, c: Arena, root: NodeId, P: NodeId, N: seq<NodeId>)
    requires Tree(b, root) && P in b && Kids(c) == Detached(Kids(b), Members(b[P].children))
    ensures PlacedAt(Kids(c), P, 0, 0, N) == PlacedAt(Kids(b), P, 0, |b[P].children|, N)
  {
    hide Tree, Minus;
    var C, M := b[P].children, Members(N);
    MinusAll(C, Members(C));
    assert Kids(c)[P] == [] && Kids(c)[P][..0] == [] && Kids(c)[P][0..] == [] && C[..0] == [] && C[|C|..] == [];
    MinusEmpty(M);
    forall x | x in b && x != P ensures Minus(b[x].children, Members(C)) == b[x].children {
      forall y | y in b[x].children ensures y !in C {
        if y in C { OtherList(b, root, P, y, x); }
      }
      MinusNothing(b[x].children, Members(C));
    }
  }

  lemma {:induction false} NoMoves(a: Arena, N: seq<NodeId>)
    requires forall c :: c in N ==> c in a && a[c].parent == None
    ensures MoveLog(a, N) == []
  {
    if N != [] {
      assert N[|N| - 1] in N;
      NoMoves(a, N[..|N| - 1]);
    }
  }

  lemma ClearedReplayed(a: Arena, root: NodeId, P: NodeId, c: Arena, base: map<NodeId, set<NodeId>>,
                        recs: seq<Record>, next: NodeId)
    requires Tree(a, root) && P in a && c.Keys == a.Keys && Kids(c) == Detached(Kids(a), Members(a[P].children))
    requires Replayed(a, base, recs) && Logged(base, recs, next) && P < next
    ensures Replayed(c, base, recs + RemovedAtOnce(P, a[P].children))
    ensures Logged(base, recs + RemovedAtOnce(P, a[P].children), next)
  {
    hide Tree, Minus, Replay;
    var C := a[P].children;
    forall x | x in c ensures c[x].children == if x == P then [] else a[x].children {
      assert Kids(c)[x] == Minus(Kids(a)[x], Members(C));
      if x == P {
        MinusAll(C, Members(C));
      } else {
        forall y | y in a[x].children ensures y !in C {
          if y in C { OtherList(a, root, P, y, x); }
        }
        MinusNothing(a[x].children, Members(C));
      }
    }
    if C == [] {
      ReplayedSame(a, c, base, recs);
      assert recs + [] == recs;
    } else {
      ReplayedStep(a, c, base, recs, ChildList(P, [], C));
    }
  }

  lemma AtOnce(P: NodeId, C: seq<NodeId>, recs: seq<Record>)
    ensures (if C == [] then recs else recs + [ChildList(P, [], C)]) == recs + RemovedAtOnce(P, C)
  {
    assert recs + [] == recs;
  }

  /** What the law says of the target's list: prepend, append, replaceChildren,
      and any cut when the inserted nodes come from elsewhere. */
  lemma PlacementLaw(S: Shape, P: NodeId, a: nat, b: nat, N: seq<NodeId>)
    requires P in S && a <= b <= |S[P]|
    ensures var C, M := S[P], Members(N);
            && PlacedAt(S, P, 0, 0, N)[P] == N + Minus(C, M)
            && PlacedAt(S, P, |C|, |C|, N)[P] == Minus(C, M) + N
            && PlacedAt(S, P, 0, |C|, N)[P] == N
            && ((forall x :: x in C ==> x !in N) ==> PlacedAt(S, P, a, b, N)[P] == C[..a] + N + C[b..])
    ensures forall x :: x in S && x != P ==> PlacedAt(S, P, a, b, N)[x] == Minus(S[x], Members(N))
  {
    hide Minus;
    var C, M := S[P], Members(N);
    MinusEmpty(M);
    assert C[..0] == [] && C[0..] == C && C[..|C|] == C && C[|C|..] == [];
    if forall x :: x in C ==> x !in N {
      MinusNothing(C[..a], M);
      MinusNothing(C[b..], M);
    }
  }
}
