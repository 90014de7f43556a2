/** Detaching, inserting and freeing: how the links of the arena change and why
    the derived structures stay right. */
module Moves {
  import opened Shapes
  import opened Nodes
  import opened Edits

  /** Only parent links and child lists differ. */
  ghost predicate Relinked(a: Arena, b: Arena) {
    && a.Keys == b.Keys
    && forall x :: x in a ==> b[x] == a[x].(parent := b[x].parent, children := b[x].children)
  }

  lemma RelinkedKeeps(a: Arena, b: Arena, ix: IdIndex, ui: Ui, snaps: map<NodeId, Snapshot>,
                      was: map<NodeId, Flushed>, deps: set<StateBit>)
    requires Relinked(a, b)
    requires Index(a, ix) && UiLive(a, ui) && Journal(a, snaps, was, deps)
    ensures Index(b, ix) && UiLive(b, ui) && Journal(b, snaps, was, deps)
  {
    hide Mentions, Entries, AttrOf;
    forall s, x ensures Indexed(ix, s, x) <==> Bears(b, s, x) {
      assert Indexed(ix, s, x) <==> Bears(a, s, x);
    }
  }

  /** The nodes of M taken out of every child list and made parentless. */
  ghost function DetachedArena(a: Arena, M: set<NodeId>): Arena {
    map x | x in a :: a[x].(parent := if x in M then None else a[x].parent, children := Minus(a[x].children, M))
  }

  lemma DetachedRelinked(a: Arena, M: set<NodeId>)
    ensures Relinked(a, DetachedArena(a, M)) && Kids(DetachedArena(a, M)) == Detached(Kids(a), M)
  {
  }

  lemma DetachedLinks(a: Arena, M: set<NodeId>)
    requires Links(a)
    ensures Links(DetachedArena(a, M))
  {
    hide UpLinks, DownLinks;
    DetachedUp(a, M);
    DetachedDown(a, M);
  }

  lemma DetachedUp(a: Arena, M: set<NodeId>)
    requires UpLinks(a)
    ensures UpLinks(DetachedArena(a, M))
  {
  }

  lemma DetachedDown(a: Arena, M: set<NodeId>)
    requires DownLinks(a)
    ensures DownLinks(DetachedArena(a, M))
  {
  }

  lemma DetachedTree(a: Arena, root: NodeId, M: set<NodeId>)
    requires Tree(a, root)
    ensures Tree(DetachedArena(a, M), root)
  {
    hide Forest, Links;
    DetachedRelinked(a, M);
    DetachedForest(Kids(a), M);
    DetachedLinks(a, M);
  }

  /** Taking one node out touches its parent's list only. */
  lemma DetachOne(a: Arena, root: NodeId, n: NodeId)
    requires Tree(a, root) && n in a
    ensures a[n].parent == None ==> DetachedArena(a, {n}) == a
    ensures a[n].parent.Some? ==>
              var q := a[n].parent.value;
              q in a && q != n && n in a[q].children &&
              DetachedArena(a, {n}) == a[n := a[n].(parent := None)][q := a[q].(children := Minus(a[q].children, {n}))]
  {
    hide Minus, Forest, UpLinks, DownLinks;
    OtherLists(a, n);
    if a[n].parent.Some? {
      ParentFacts(a, root, n);
      var q := a[n].parent.value;
      var b := a[n := a[n].(parent := None)][q := a[q].(children := Minus(a[q].children, {n}))];
      forall x | x in a ensures b[x] == DetachedArena(a, {n})[x] {
      }
    } else {
      forall x | x in a ensures a[x] == DetachedArena(a, {n})[x] { }
    }
  }

  lemma ParentFacts(a: Arena, root: NodeId, n: NodeId)
    requires Tree(a, root) && n in a && a[n].parent.Some?
    ensures var q := a[n].parent.value; q in a && q != n && n in a[q].children
  {
    hide RankOK;
    LoopFree(Kids(a), a[n].parent.value, n);
  }

  lemma OtherLists(a: Arena, n: NodeId)
    requires Links(a)
    ensures forall x :: x in a && (n in a ==> a[n].parent != Some(x)) ==> Minus(a[x].children, {n}) == a[x].children
  {
    forall x | x in a && (n in a ==> a[n].parent != Some(x)) ensures Minus(a[x].children, {n}) == a[x].children {
      MinusNothing(a[x].children, {n});
    }
  }

  lemma LoopFree(S: Shape, p: NodeId, c: NodeId)
    requires Acyclic(S) && p in S && c in S[p]
    ensures c != p
  {
    ChildrenRank(S, p);
    ListRankAbove(S, S[p], c);
  }

  /** Subtree membership is inherited along every edge but the one above n. */
  lemma UnderEdge(a: Arena, root: NodeId, n: NodeId, x: NodeId)
    requires Tree(a, root) && n in a && x in a && x != n && a[x].parent.Some?
    ensures a[x].parent.value in a
    ensures Under(Kids(a), n, x) <==> Under(Kids(a), n, a[x].parent.value)
  {
    hide RankOK, Under;
    var p := a[x].parent.value;
    assert x in Kids(a)[p];
    if Under(Kids(a), n, x) {
      UnderParent(Kids(a), n, x, p);
    }
    if Under(Kids(a), n, p) {
      UnderDown(Kids(a), n, p, x);
    }
  }

  lemma RootAbove(a: Arena, root: NodeId, n: NodeId)
    requires Tree(a, root) && n in a && n != root
    ensures !Under(Kids(a), n, root)
  {
    hide RankOK, Under;
    forall p | p in a ensures root !in Kids(a)[p] { }
    if Under(Kids(a), n, root) {
      var p := UnderUp(Kids(a), n, root);
    }
  }

  /** Parent and flag of every node after n's subtree left the document and n
      left its parent. */
  lemma CutFlags(a: Arena, root: NodeId, n: NodeId, b: Arena)
    requires Tree(a, root) && Flags(a, root) && n in a && n != root
    requires forall x :: x in b ==>
      && x in a
      && b[x].parent == (if x == n then None else a[x].parent)
      && b[x].inDoc == (if Under(Kids(a), n, x) then false else a[x].inDoc)
    requires root in b
    ensures Flags(b, root)
  {
    hide Tree, Under;
    RootAbove(a, root, n);
    UnderSelf(Kids(a), n) by { assert Acyclic(Kids(a)) by { TreeForest(a, root); } }
    forall x, p | x in b && b[x].parent == Some(p) && p in b ensures b[x].inDoc == b[p].inDoc {
      UnderEdge(a, root, n, x);
    }
    forall x | x in b && b[x].parent == None && x != root ensures !b[x].inDoc { }
  }

  lemma TreeForest(a: Arena, root: NodeId)
    requires Tree(a, root)
    ensures Forest(Kids(a)) && Acyclic(Kids(a)) && Links(a) && root in a
  {
  }

  // ------------------------------------------------- leaving: what it preserves

  lemma UnmountedFacts(a: Arena, D: set<NodeId>, f: Option<NodeId>)
    ensures var b := UnmountedArena(a, D, f);
            && b.Keys == a.Keys
            && (forall x :: x in a ==> b[x].parent == a[x].parent && b[x].children == a[x].children && b[x].data == a[x].data)
            && (forall x :: x in a ==> b[x].inDoc == (if x in D then false else a[x].inDoc))
            && (forall x :: x in a && x !in D ==> b[x] == a[x])
  {
  }

  /** Structure untouched: shape, links and tree-ness carry over. */
  lemma SameTree(a: Arena, b: Arena, root: NodeId)
    requires Tree(a, root) && b.Keys == a.Keys
    requires forall x :: x in a ==> b[x].parent == a[x].parent && b[x].children == a[x].children
    ensures Kids(b) == Kids(a) && Tree(b, root)
  {
    hide Forest, UpLinks, DownLinks;
    assert Kids(b) == Kids(a);
    SameUp(a, b);
    SameDown(a, b);
  }

  lemma SameUp(a: Arena, b: Arena)
    requires UpLinks(a) && b.Keys == a.Keys
    requires forall x :: x in a ==> b[x].parent == a[x].parent && b[x].children == a[x].children
    ensures UpLinks(b)
  {
  }

  lemma SameDown(a: Arena, b: Arena)
    requires DownLinks(a) && b.Keys == a.Keys
    requires forall x :: x in a ==> b[x].parent == a[x].parent && b[x].children == a[x].children
    ensures DownLinks(b)
  {
  }

  lemma SameIds(a: Arena, b: Arena)
    requires IdCached(a) && forall x :: x in b ==> x in a && b[x].data == a[x].data
    ensures IdCached(b)
  {
  }

  lemma CutLit(S: Shape, n: NodeId, b: Arena, c: Arena, bit: StateBit, who: Option<NodeId>)
    requires Forest(S) && n in S && Climbs(b, S) && Lit(b, S, bit, who)
    requires who.Some? ==> who.value in b && !Under(S, n, who.value)
    requires forall z :: z in c ==> z in b && c[z].inDoc == b[z].inDoc && c[z].data == b[z].data && c[z].state == b[z].state
    requires forall z :: z in c && c[z].inDoc ==> !Under(S, n, z)
    requires Kids(c) == Detached(S, {n})
    requires Climbs(c, Kids(c)) && Forest(Kids(c))
    ensures Lit(c, Kids(c), bit, who)
  {
    hide Under, RankOK, Climbs, Minus, OneParent;
    assert forall z :: z in c ==> z in Kids(c);
    forall z | z in c && c[z].inDoc && c[z].data.Element?
      ensures bit in c[z].state <==> who.Some? && Under(Kids(c), z, who.value)
    {
      assert z in S by { ClimbsIn(b, S, z); }
      if who.Some? {
        DetachedUnder(S, n, z, who.value);
      }
    }
  }

  lemma ClimbsIn(a: Arena, S: Shape, x: NodeId)
    requires Climbs(a, S) && x in a
    ensures x in S
  {
  }

  /** Queueing r keeps the replay exact when r describes the change of every list. */
  lemma ReplayedStep(a: Arena, c: Arena, base: map<NodeId, set<NodeId>>, recs: seq<Record>, r: Record)
    requires Replayed(a, base, recs)
    requires forall p :: p in c ==> p in a && Members(c[p].children) == Apply(Members(a[p].children), r, p)
    ensures Replayed(c, base, recs + [r])
  {
    forall p | p in c ensures Replay(base, recs + [r], p) == Members(c[p].children) {
      ReplaySnoc(base, recs, r, p);
    }
  }

  lemma ReplayedSame(a: Arena, c: Arena, base: map<NodeId, set<NodeId>>, recs: seq<Record>)
    requires Replayed(a, base, recs)
    requires forall p :: p in c ==> p in a && c[p].children == a[p].children
    ensures Replayed(c, base, recs)
  {
  }

  /** The record of taking n from under q describes the lists of c. */
  lemma CutRecord(a: Arena, root: NodeId, n: NodeId, c: Arena, r: Record)
    requires Tree(a, root) && n in a && a[n].parent.Some?
    requires r == ChildList(a[n].parent.value, [], [n])
    requires forall p :: p in c ==> p in a && c[p].children == Minus(a[p].children, {n})
    ensures forall p :: p in c ==> Members(c[p].children) == Apply(Members(a[p].children), r, p)
  {
    hide Minus, Forest, UpLinks, DownLinks;
    OtherLists(a, n);
    assert Members([n]) == {n};
  }

  lemma ViewSame(a: Arena, c: Arena)
    requires forall x :: (x in a && a[x].inDoc) <==> (x in c && c[x].inDoc)
    requires forall x :: x in a && a[x].inDoc ==>
      x in c && c[x].parent == a[x].parent && c[x].children == a[x].children && c[x].data == a[x].data
    ensures View(c) == View(a)
  {
  }

  /** Cutting a subtree that is not in the document shows nowhere. */
  lemma CutView(a: Arena, root: NodeId, n: NodeId, c: Arena)
    requires Tree(a, root) && Flags(a, root) && n in a && !a[n].inDoc
    requires forall x :: x in c ==>
      && x in a && c[x].data == a[x].data
      && c[x].parent == (if x == n then None else a[x].parent)
      && c[x].children == Minus(a[x].children, {n})
      && c[x].inDoc == (if Under(Kids(a), n, x) then false else a[x].inDoc)
    requires forall x :: x in a && !Under(Kids(a), n, x) ==> x in c
    ensures View(c) == View(a)
  {
    hide Minus, Forest, Tree, UpLinks, DownLinks, Under, Flags;
    TreeForest(a, root);
    OtherLists(a, n);
    if a[n].parent.Some? { ParentFlag(a, root, n); }
    forall x | x in a && a[x].inDoc ensures !Under(Kids(a), n, x) && x != n {
      if Under(Kids(a), n, x) { SubtreeFlag(a, root, n, x); }
    }
    ViewSame(a, c);
  }

  lemma ParentFlag(a: Arena, root: NodeId, n: NodeId)
    requires Tree(a, root) && Flags(a, root) && n in a && a[n].parent.Some?
    ensures a[n].parent.value in a && a[a[n].parent.value].inDoc == a[n].inDoc
  {
    hide Forest;
  }

  // -------------------------------------------------------------- remove_node

  /** n's subtree out of the document and n out of its parent. */
  ghost function CutArena(a: Arena, n: NodeId, focus: Option<NodeId>): Arena {
    DetachedArena(UnmountedArena(a, SubtreeOf(a, n), focus), {n})
  }

  ghost function SubtreeOf(a: Arena, n: NodeId): set<NodeId> {
    if n in a && Acyclic(Kids(a)) then Members(Preorder(Kids(a), n)) else {}
  }

  lemma CutReady(a: Arena, root: NodeId, n: NodeId)
    requires Tree(a, root) && n in a
    ensures Forest(Kids(a)) && Acyclic(Kids(a)) && Holds(a, Kids(a), n)
    ensures Climbs(a, Kids(a)) && Rooted(a, Kids(a))
  {
    hide RankOK, UpLinks, DownLinks;
    forall y | Under(Kids(a), n, y) ensures y in Kids(a) { UnderLive(Kids(a), n, y); }
    assert Climbs(a, Kids(a)) && Rooted(a, Kids(a)) by { LinksClimb(a); }
  }

  lemma CutTree(a: Arena, root: NodeId, n: NodeId, f: Option<NodeId>)
    requires Tree(a, root) && Flags(a, root) && IdCached(a) && n in a && n != root
    ensures Acyclic(Kids(a))
    ensures var b := UnmountedArena(a, SubtreeOf(a, n), f);
            var c := CutArena(a, n, f);
            && Tree(b, root) && Relinked(b, c) && Kids(b) == Kids(a) && c.Keys == a.Keys
            && Tree(c, root) && Flags(c, root) && IdCached(c)
            && Kids(c) == Detached(Kids(a), {n})
            && (!a[n].inDoc ==> View(c) == View(a))
            && (forall x :: x in c ==> c[x].inDoc ==> !Under(Kids(a), n, x))
  {
    hide Tree, Flags, IdCached, Minus, Preorder, View, Unmounted;
    TreeForest(a, root);
    var D := SubtreeOf(a, n);
    var b := UnmountedArena(a, D, f);
    var c := CutArena(a, n, f);
    UnmountedFacts(a, D, f);
    assert forall x :: x in D <==> Under(Kids(a), n, x);
    SameTree(a, b, root);
    SameIds(a, b);
    DetachedRelinked(b, {n});
    DetachedTree(b, root, {n});
    SameIds(b, c);
    assert root in a;
    CutFlags(a, root, n, c);
    if !a[n].inDoc { CutView(a, root, n, c); }
  }

  lemma CutStep(a: Arena, root: NodeId, n: NodeId, f: Option<NodeId>)
    requires Tree(a, root) && Flags(a, root) && n in a && n != root
    ensures Acyclic(Kids(a))
    ensures var b := UnmountedArena(a, SubtreeOf(a, n), f);
            var c := CutArena(a, n, f);
            && b.Keys == a.Keys && b[n].parent == a[n].parent
            && (a[n].parent == None ==> c == b && !a[n].inDoc)
            && (a[n].parent.Some? ==>
                  var q := a[n].parent.value;
                  q in a && q != n &&
                  c == b[n := b[n].(parent := None)][q := b[q].(children := Minus(b[q].children, {n}))])
  {
    hide Tree, Minus, Preorder, Unmounted;
    TreeForest(a, root);
    var D := SubtreeOf(a, n);
    UnmountedFacts(a, D, f);
    SameTree(a, UnmountedArena(a, D, f), root);
    DetachOne(UnmountedArena(a, D, f), root, n);
  }

  lemma CutLitChains(a: Arena, root: NodeId, n: NodeId, f: Option<NodeId>, ui: Ui)
    requires Tree(a, root) && Flags(a, root) && IdCached(a) && n in a && n != root && Acyclic(Kids(a))
    requires var b := UnmountedArena(a, SubtreeOf(a, n), f);
             Climbs(b, Kids(a)) && LitChains(b, Kids(a), ui) && UiLive(b, ui)
    ensures var c := CutArena(a, n, f); Climbs(c, Kids(c)) && LitChains(c, Kids(c), ui)
  {
    hide Tree, Flags, IdCached, Minus, Preorder, Unmounted, Climbs, Lit, Mentions, View;
    TreeForest(a, root);
    var b := UnmountedArena(a, SubtreeOf(a, n), f);
    var c := CutArena(a, n, f);
    UnmountedFacts(a, SubtreeOf(a, n), f);
    CutTree(a, root, n, f);
    CutReady(c, root, root) by { TreeForest(c, root); }
    TreeForest(c, root);
    CutLit(Kids(a), n, b, c, Hover, ui.hover);
    CutLit(Kids(a), n, b, c, Active, ui.active);
  }

  /** The log entry of a cut, if n had a parent, keeps the replay exact. */
  lemma CutReplayed(a: Arena, root: NodeId, n: NodeId, f: Option<NodeId>,
                    base: map<NodeId, set<NodeId>>, recs: seq<Record>)
    requires Tree(a, root) && Flags(a, root) && n in a && n != root && Acyclic(Kids(a))
    requires Replayed(a, base, recs)
    ensures Replayed(CutArena(a, n, f), base, recs + CutLog(a, n))
  {
    hide Tree, Flags, Minus, Preorder, Unmounted, Replay;
    var c := CutArena(a, n, f);
    UnmountedFacts(a, SubtreeOf(a, n), f);
    CutStep(a, root, n, f);
    if a[n].parent.Some? {
      CutRecord(a, root, n, c, ChildList(a[n].parent.value, [], [n]));
      ReplayedStep(a, c, base, recs, ChildList(a[n].parent.value, [], [n]));
    } else {
      ReplayedSame(a, c, base, recs);
      assert recs + [] == recs;
    }
  }

  ghost function CutLog(a: Arena, n: NodeId): seq<Record> {
    if n in a && a[n].parent.Some? then [ChildList(a[n].parent.value, [], [n])] else []
  }

  lemma LoggedMore(base: map<NodeId, set<NodeId>>, recs: seq<Record>, more: seq<Record>, next: NodeId)
    requires Logged(base, recs, next) && forall i :: 0 <= i < |more| ==> more[i].target < next
    ensures Logged(base, recs + more, next)
  {
  }

  // ------------------------------------------------------------------ freeing

  /** The arena without the nodes of E. */
  ghost function FreedArena(a: Arena, E: set<NodeId>): Arena {
    map x | x in a && x !in E :: a[x].(children := Minus(a[x].children, E))
  }

  /** E is what some subtrees of a consist of, the root outside. */
  ghost predicate Removable(a: Arena, root: NodeId, E: set<NodeId>) {
    DownClosed(Kids(a), E) && root !in E && E <= a.Keys
  }

  lemma SurvivorParent(a: Arena, root: NodeId, E: set<NodeId>, x: NodeId)
    requires Tree(a, root) && Removable(a, root, E) && x in a && x !in E && a[x].parent.Some?
    ensures a[x].parent.value in a && a[x].parent.value !in E && x in a[a[x].parent.value].children
  {
    hide RankOK, Forest;
    assert x in Kids(a)[a[x].parent.value];
  }

  lemma FreedTree(a: Arena, root: NodeId, E: set<NodeId>)
    requires Tree(a, root) && Flags(a, root) && IdCached(a) && Removable(a, root, E)
    ensures var c := FreedArena(a, E);
            && Tree(c, root) && Flags(c, root) && IdCached(c) && Kids(c) == Freed(Kids(a), E)
            && c.Keys == a.Keys - E
  {
    hide Tree, Forest, Flags, Removable, RankOK, UpLinks, DownLinks, Minus, Under;
    var c := FreedArena(a, E);
    TreeForest(a, root);
    RemovableMeans(a, root, E);
    FreedForest(Kids(a), E);
    assert Kids(c) == Freed(Kids(a), E);
    SameIds(a, c);
    FreedLinks(a, root, E);
    FreedFlags(a, root, E);
    RootParentless(a, root);
    assert Tree(c, root) by { MakeTree(c, root); }
  }

  lemma MakeTree(a: Arena, root: NodeId)
    requires Forest(Kids(a)) && Links(a) && root in a && a[root].parent == None
    ensures Tree(a, root)
  {
  }

  lemma RootParentless(a: Arena, root: NodeId)
    requires Tree(a, root)
    ensures root in a && a[root].parent == None
  {
  }

  lemma RemovableMeans(a: Arena, root: NodeId, E: set<NodeId>)
    requires Removable(a, root, E)
    ensures DownClosed(Kids(a), E) && root !in E && forall x :: x in E ==> x in a
  {
  }

  lemma FreedLinks(a: Arena, root: NodeId, E: set<NodeId>)
    requires Tree(a, root) && Removable(a, root, E)
    ensures Links(FreedArena(a, E))
  {
    hide Tree, Removable, Minus, Forest;
    var c := FreedArena(a, E);
    forall x, p | x in c && c[x].parent == Some(p) ensures p in c && x in c[p].children {
      SurvivorParent(a, root, E, x);
    }
    forall p, d | p in c && d in c[p].children ensures d in c && c[d].parent == Some(p) {
      assert d in a[p].children;
      ChildLink(a, root, p, d);
    }
  }

  lemma ChildLink(a: Arena, root: NodeId, p: NodeId, c: NodeId)
    requires Tree(a, root) && p in a && c in a[p].children
    ensures c in a && a[c].parent == Some(p)
  {
  }

  lemma FreedFlags(a: Arena, root: NodeId, E: set<NodeId>)
    requires Tree(a, root) && Flags(a, root) && Removable(a, root, E)
    ensures Flags(FreedArena(a, E), root)
  {
    hide Tree, Minus;
    RootParentless(a, root);
  }

  /** A freed set outside the document shows nowhere. */
  lemma FreedView(a: Arena, root: NodeId, E: set<NodeId>)
    requires Tree(a, root) && Flags(a, root) && Removable(a, root, E)
    requires forall x :: x in E ==> x in a && !a[x].inDoc
    ensures View(FreedArena(a, E)) == View(a)
  {
    hide Tree, Minus, Removable, Flags, Forest;
    var c := FreedArena(a, E);
    forall x | x in a && a[x].inDoc ensures Minus(a[x].children, E) == a[x].children {
      forall y | y in a[x].children ensures y !in E {
        ChildLink(a, root, x, y);
        if y in E { ParentFlag(a, root, y); }
      }
      MinusNothing(a[x].children, E);
    }
    ViewSame(a, c);
  }

  lemma FreedLit(S: Shape, E: set<NodeId>, b: Arena, c: Arena, bit: StateBit, who: Option<NodeId>)
    requires Forest(S) && DownClosed(S, E) && Lit(b, S, bit, who)
    requires who.Some? ==> who.value !in E
    requires forall z :: z in c ==> z in b && z !in E && c[z].inDoc == b[z].inDoc && c[z].data == b[z].data && c[z].state == b[z].state
    requires Kids(c) == Freed(S, E) && Climbs(c, Kids(c)) && Forest(Kids(c))
    ensures Lit(c, Kids(c), bit, who)
  {
    hide Under, RankOK, Climbs, Minus, OneParent, DownClosed;
    assert forall z :: z in c ==> z in Kids(c);
    forall z | z in c && c[z].inDoc && c[z].data.Element?
      ensures bit in c[z].state <==> who.Some? && Under(Kids(c), z, who.value)
    {
      assert z in S by { ClimbsIn(b, S, z); }
      if who.Some? { FreedUnder(S, E, z, who.value); }
    }
  }

  /** Freeing unreferenced nodes that are out of the document leaves no trace. */
  lemma FewerKeeps(a: Arena, E: set<NodeId>, ix: IdIndex, ui: Ui, snaps: map<NodeId, Snapshot>,
                   was: map<NodeId, Flushed>, deps: set<StateBit>, b: Arena)
    requires Index(a, ix) && UiLive(a, ui) && Journal(a, snaps, was, deps)
    requires b.Keys == a.Keys - E
    requires forall x :: x in b ==> b[x] == a[x].(children := b[x].children)
    requires forall x :: x in E && x in a ==> !a[x].inDoc && !a[x].hasSnapshot && !Mentions(ui, x)
    ensures Index(b, ix) && UiLive(b, ui) && Journal(b, snaps, was, deps)
  {
    hide Mentions, Entries, AttrOf;
    forall s, x ensures Indexed(ix, s, x) <==> Bears(b, s, x) {
      assert Indexed(ix, s, x) <==> Bears(a, s, x);
    }
  }

  lemma FewerRooted(a: Arena, S: Shape, E: set<NodeId>)
    requires Climbs(a, S) && DownClosed(S, E)
    ensures Climbs(a - E, S) && (Rooted(a, S) ==> Rooted(a - E, S))
  {
    hide RankOK;
  }

  lemma FewerLit(a: Arena, S: Shape, E: set<NodeId>, bit: StateBit, who: Option<NodeId>)
    requires Lit(a, S, bit, who) && DownClosed(S, E)
    ensures Lit(a - E, S, bit, who)
  {
    hide RankOK, Under;
  }

  /** A subtree processed as removed and then freed: only its slots are gone. */
  lemma FreedSubtree(a: Arena, S: Shape, n: NodeId, f: Option<NodeId>, b: Arena, c: Arena, ix: IdIndex,
                     ui: Ui, snaps: map<NodeId, Snapshot>, was: map<NodeId, Flushed>, deps: set<StateBit>)
    requires Acyclic(S) && n in S && Climbs(a, S) && Climbs(b, S)
    requires b == UnmountedArena(a, Members(Preorder(S, n)), f) && c == b - Members(Preorder(S, n))
    requires Index(b, ix) && UiLive(b, ui) && Journal(b, snaps, was, deps)
    requires forall y :: Under(S, n, y) ==> !Mentions(ui, y)
    ensures c == a - Members(Preorder(S, n))
    ensures Index(c, ix) && UiLive(c, ui) && Journal(c, snaps, was, deps)
    ensures Climbs(c, S) && (Rooted(a, S) ==> Rooted(c, S))
    ensures LitChains(b, S, ui) ==> LitChains(c, S, ui)
  {
    hide Index, UiLive, Journal, Climbs, Rooted, Mentions, Lit, Preorder, RankOK;
    var D := Members(Preorder(S, n));
    SubtreeDownClosed(S, n);
    FewerRooted(a, S, D);
    assert forall x :: x in D <==> Under(S, n, x);
    assert c == a - D;
    FewerKeeps(b, D, ix, ui, snaps, was, deps, c);
    if LitChains(b, S, ui) {
      FewerLit(b, S, D, Hover, ui.hover);
      FewerLit(b, S, D, Active, ui.active);
    }
  }

  lemma UnmountedHolds(a: Arena, S: Shape, n: NodeId, f: Option<NodeId>)
    requires Holds(a, S, n)
    ensures Holds(UnmountedArena(a, Members(Preorder(S, n)), f), S, n)
  {
    hide Under, Preorder, RankOK;
  }

  lemma CutLogged(a: Arena, root: NodeId, n: NodeId, base: map<NodeId, set<NodeId>>, recs: seq<Record>, next: NodeId)
    requires Tree(a, root) && n in a && Logged(base, recs, next) && forall x :: x in a ==> x < next
    ensures Logged(base, recs + CutLog(a, n), next)
  {
    if a[n].parent.Some? { ParentFacts(a, root, n); }
  }
}
