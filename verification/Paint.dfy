/** Derived paint lists: what purging them after a drop achieves, and when it
    is enough. */
module Paint {
  import opened Shapes
  import opened Nodes
  import opened Edits
  import opened Moves
  import opened Ancestry

  function Without(l: Option<seq<NodeId>>, D: set<NodeId>): (r: Option<seq<NodeId>>)
    ensures r.Some? <==> l.Some?
    ensures r.Some? ==> forall y :: y in r.value <==> y in l.value && y !in D
  {
    match l
    case None => None
    case Some(s) => Some(Minus(s, D))
  }

  function Purged(nd: Node, D: set<NodeId>): Node {
    nd.(paint := Without(nd.paint, D), stacking := Without(nd.stacking, D))
  }

  ghost function PurgedArena(a: Arena, from: NodeId, D: set<NodeId>): Arena {
    map x | x in a :: if Above(a, x, from) then Purged(a[x], D) else a[x]
  }

  /** The arena after the climb has purged everything below `next`. */
  ghost function PurgedBelow(a: Arena, from: NodeId, next: Option<NodeId>, D: set<NodeId>): Arena {
    map x | x in a ::
      if Above(a, x, from) && !(next.Some? && Above(a, x, next.value)) then Purged(a[x], D) else a[x]
  }

  ghost function ClimbLeft(a: Arena, next: Option<NodeId>): int {
    if next.Some? && next.value in a && Acyclic(Kids(a))
    then TheRank(Kids(a)).top - Rank(Kids(a), next.value) + 1 else 0
  }

  lemma PurgedStart(a: Arena, root: NodeId, from: NodeId, D: set<NodeId>)
    requires Tree(a, root) && from in a
    ensures PurgedBelow(a, from, Some(from), D) == a && Above(a, from, from)
    ensures PurgedBelow(a, from, None, D) == PurgedArena(a, from, D)
  {
    hide Tree, Minus, Above, Purged, RankOK;
    assert Above(a, from, from) by { AboveStep(a, root, from, from); }
  }

  lemma PurgedStep(a: Arena, root: NodeId, from: NodeId, id: NodeId, D: set<NodeId>)
    requires Tree(a, root) && id in a && Above(a, id, from)
    ensures var b := PurgedBelow(a, from, Some(id), D);
            && id in b && b[id].parent == a[id].parent
            && b[id := Purged(b[id], D)] == PurgedBelow(a, from, a[id].parent, D)
  {
    hide Tree, Minus, Above, Purged, RankOK, Acyclic;
    forall x | x in a
      ensures Above(a, x, id) <==> x == id || (a[id].parent.Some? && Above(a, x, a[id].parent.value))
      ensures a[id].parent.Some? ==> !Above(a, id, a[id].parent.value)
    {
      AboveStep(a, root, id, x);
    }
    var b := PurgedBelow(a, from, Some(id), D);
    forall x | x in a
      ensures (if x == id then Purged(b[id], D) else b[x]) == PurgedBelow(a, from, a[id].parent, D)[x]
    {
    }
  }

  lemma ClimbStep(a: Arena, root: NodeId, from: NodeId, id: NodeId)
    requires Tree(a, root) && id in a && Above(a, id, from)
    ensures a[id].parent.Some? ==> a[id].parent.value in a && Above(a, a[id].parent.value, from)
    ensures 0 <= ClimbLeft(a, a[id].parent) < ClimbLeft(a, Some(id))
  {
    hide Tree, Above;
    TreeForest(a, root);
    if a[id].parent.Some? {
      UpwardsEnds(a, root, a[id].parent.value, id);
      AboveStep(a, root, id, a[id].parent.value);
      AboveStep(a, root, a[id].parent.value, a[id].parent.value);
      AboveTrans(a, a[id].parent.value, id, from);
    }
  }

  /** Only derived paint lists differ. */
  ghost predicate Repainted(a: Arena, b: Arena) {
    && a.Keys == b.Keys
    && forall x :: x in a ==> b[x] == a[x].(paint := b[x].paint, stacking := b[x].stacking)
  }

  lemma RepaintedTree(a: Arena, b: Arena, root: NodeId)
    requires Repainted(a, b) && Tree(a, root) && Flags(a, root) && IdCached(a)
    ensures Tree(b, root) && Flags(b, root) && IdCached(b) && Kids(b) == Kids(a) && View(b) == View(a)
  {
    hide Tree, View;
    SameTree(a, b, root);
    SameIds(a, b);
    ViewSame(a, b);
  }

  lemma RepaintedKeeps(a: Arena, b: Arena, ix: IdIndex, ui: Ui, snaps: map<NodeId, Snapshot>,
                       was: map<NodeId, Flushed>, deps: set<StateBit>)
    requires Repainted(a, b) && Index(a, ix) && UiLive(a, ui) && Journal(a, snaps, was, deps)
    ensures Index(b, ix) && UiLive(b, ui) && Journal(b, snaps, was, deps)
  {
    hide Mentions, Entries, AttrOf;
    forall s, x ensures Indexed(ix, s, x) <==> Bears(b, s, x) {
      assert Indexed(ix, s, x) <==> Bears(a, s, x);
    }
  }

  lemma RepaintedLit(a: Arena, b: Arena, S: Shape, ui: Ui)
    requires Repainted(a, b) && LitChains(a, S, ui)
    ensures LitChains(b, S, ui)
  {
    hide Under, RankOK;
  }

  lemma PurgedRepainted(a: Arena, from: NodeId, D: set<NodeId>)
    ensures Repainted(a, PurgedArena(a, from, D))
  {
    hide Minus, Above;
  }

  // ------------------------------------------------------- stale references

  ghost predicate Paints(nd: Node, y: NodeId) {
    || (nd.paint.Some? && y in nd.paint.value)
    || (nd.stacking.Some? && y in nd.stacking.value)
  }

  /** No paint or stacking list names a freed node. */
  ghost predicate PaintLive(a: Arena) {
    forall x, y :: x in a && Paints(a[x], y) ==> y in a
  }

  /** After freeing E below q, the chain from q to its root is clean, and the
      whole document is clean exactly if no other surviving list named E. */
  lemma PurgeExact(a: Arena, E: set<NodeId>, q: NodeId, c: Arena)
    requires PaintLive(a) && c == PurgedArena(FreedArena(a, E), q, E)
    ensures forall x, y :: x in c && Above(FreedArena(a, E), x, q) && Paints(c[x], y) ==> y in c
    ensures PaintLive(c) <==>
      forall x, y :: x in a && x !in E && !Above(FreedArena(a, E), x, q) && y in E ==> !Paints(a[x], y)
  {
    hide Minus, Above;
    var b := FreedArena(a, E);
    forall x, y | x in c
      ensures Paints(c[x], y) <==> Paints(a[x], y) && (Above(b, x, q) ==> y !in E)
    {
      PurgedPaints(a, E, q, c, x, y);
    }
    if PaintLive(c) {
      forall x, y | x in a && x !in E && !Above(b, x, q) && y in E ensures !Paints(a[x], y) {
        PurgedPaints(a, E, q, c, x, y);
        assert y !in c;
      }
    }
  }

  lemma PurgedPaints(a: Arena, E: set<NodeId>, q: NodeId, c: Arena, x: NodeId, y: NodeId)
    requires c == PurgedArena(FreedArena(a, E), q, E) && x in c
    ensures x in a && x !in E
    ensures Paints(c[x], y) <==> Paints(a[x], y) && (Above(FreedArena(a, E), x, q) ==> y !in E)
  {
    hide Minus, Above;
    var b := FreedArena(a, E);
    assert x in b && b[x].paint == a[x].paint && b[x].stacking == a[x].stacking;
    assert c[x] == if Above(b, x, q) then Purged(b[x], E) else b[x];
  }

  /** A detached tree is freed without any purge: clean exactly if no surviving
      list named it. */
  lemma UnpurgedExact(a: Arena, E: set<NodeId>, c: Arena)
    requires PaintLive(a) && c == FreedArena(a, E) && forall y :: y in E ==> y in a
    ensures PaintLive(c) <==> forall x, y :: x in a && x !in E && y in E ==> !Paints(a[x], y)
  {
    hide Minus;
    assert forall x :: x in c ==> c[x].paint == a[x].paint && c[x].stacking == a[x].stacking;
    if PaintLive(c) {
      forall x, y | x in a && x !in E && y in E ensures !Paints(a[x], y) { assert x in c; }
    }
  }

  // ---------------------------------------------------------- freeing a node

  /** Taking n's subtree out of a list outside it takes out n at most. */
  lemma OutsideMinus(a: Arena, root: NodeId, n: NodeId, x: NodeId)
    requires Tree(a, root) && n in a && x in a && x !in SubtreeOf(a, n)
    ensures Minus(a[x].children, SubtreeOf(a, n)) == if a[n].parent == Some(x) then Minus(a[x].children, {n}) else a[x].children
  {
    hide Tree, Minus, RankOK, Under, Preorder, OneParent, NoDup;
    TreeForest(a, root);
    var D := SubtreeOf(a, n);
    SubtreeMeans(a, n);
    UnderSelf(Kids(a), n);
    forall y | y in a[x].children && y in D ensures y == n && a[n].parent == Some(x) {
      ChildLink(a, root, x, y);
      if y != n { UnderEdge(a, root, n, y); }
    }
    SameMinus(a[x].children, D, {n});
    if a[n].parent != Some(x) { MinusNothing(a[x].children, D); }
  }

  lemma FreedLists(a: Arena, root: NodeId, n: NodeId)
    requires Tree(a, root) && n in a && (a[n].parent.Some? ==> a[n].parent.value in a - SubtreeOf(a, n))
    ensures var D := SubtreeOf(a, n);
            FreedArena(a, D) == match a[n].parent
                                case None => a - D
                                case Some(q) => (a - D)[q := a[q].(children := Minus(a[q].children, {n}))]
  {
    hide Tree, Minus, SubtreeOf, RankOK, OneParent;
    var D := SubtreeOf(a, n);
    forall x | x in a && x !in D
      ensures Minus(a[x].children, D) == if a[n].parent == Some(x) then Minus(a[x].children, {n}) else a[x].children
    {
      OutsideMinus(a, root, n, x);
    }
  }

  /** Fixing the parent's list completes the freeing of n's subtree. */
  lemma FreeStep(a: Arena, root: NodeId, n: NodeId)
    requires Tree(a, root) && n in a && n != root
    ensures var D := SubtreeOf(a, n);
            && Removable(a, root, D)
            && (a[n].parent == None ==> FreedArena(a, D) == a - D)
            && (a[n].parent.Some? ==>
                  var q := a[n].parent.value;
                  && q in a - D
                  && FreedArena(a, D) == (a - D)[q := a[q].(children := Minus(a[q].children, {n}))])
  {
    hide FreedArena;
    hide Tree, Minus, RankOK, Under, Preorder, OneParent, DownClosed, NoDup;
    TreeForest(a, root);
    var D := SubtreeOf(a, n);
    var S := Kids(a);
    SubtreeDownClosed(S, n);
    RootAbove(a, root, n);
    UnderSelf(S, n);
    assert forall x :: x in D <==> Under(S, n, x) by { SubtreeMeans(a, n); }
    forall x | x in D ensures x in a { UnderLive(S, n, x); }
    if a[n].parent.Some? {
      ParentFacts(a, root, n);
      var q := a[n].parent.value;
      EdgeRank(S, q, n);
      if Under(S, n, q) { UnderLive(S, n, q); }
    }
    FreedLists(a, root, n);
  }

  lemma SubtreeMeans(a: Arena, n: NodeId)
    requires n in a && Acyclic(Kids(a))
    ensures forall x :: x in SubtreeOf(a, n) <==> Under(Kids(a), n, x)
  {
    hide Preorder;
  }

  lemma OrderKids(a: Arena, S: Shape, n: NodeId, x: NodeId)
    requires Holds(a, S, n) && (x == n || x in Preorder(S, n))
    ensures n in Preorder(S, n) && x in a && forall c :: c in a[x].children ==> c in Preorder(S, n)
  {
    hide RankOK, Preorder;
    UnderSelf(S, n);
    assert Under(S, n, x);
    forall c | c in S[x] ensures c in Preorder(S, n) { UnderDown(S, n, x, c); }
  }

  lemma OrderLeast(a: Arena, S: Shape, n: NodeId, ids: set<NodeId>)
    requires Holds(a, S, n) && n in ids && ids <= Members(Preorder(S, n))
    requires forall y, c :: y in ids && y in a && c in a[y].children ==> c in ids
    ensures ids == Members(Preorder(S, n))
  {
    hide RankOK, Preorder;
    forall y, c | y in ids && y in S && c in S[y] ensures c in ids { assert Under(S, n, y); }
    forall y | y in Preorder(S, n) ensures y in ids {
      ClosedContains(S, n, ids, y);
    }
  }

  /** Minus depends only on which members of the list are taken out. */
  lemma {:induction false} SameMinus(s: seq<NodeId>, M: set<NodeId>, N: set<NodeId>)
    requires forall y :: y in s && y in M ==> y in N
    requires forall y :: y in N ==> y in M
    ensures Minus(s, M) == Minus(s, N)
  {
    if s != [] {
      assert s[0] in s;
      forall y | y in s[1..] && y in M ensures y in N { assert y in s; }
      SameMinus(s[1..], M, N);
    }
  }

  /** The whole effect of freeing E on the derived structures: `b` is the arena
      with the slots gone, the lists of the survivors still to be fixed. */
  lemma FreedKeeps(a: Arena, root: NodeId, E: set<NodeId>, b: Arena, ix: IdIndex, ui: Ui,
                   snaps: map<NodeId, Snapshot>, was: map<NodeId, Flushed>, deps: set<StateBit>)
    requires Tree(a, root) && Flags(a, root) && IdCached(a) && Removable(a, root, E)
    requires Relinked(a - E, b)
    requires Index(b, ix) && UiLive(b, ui) && Journal(b, snaps, was, deps)
    ensures var c := FreedArena(a, E);
            && Index(c, ix) && UiLive(c, ui) && Journal(c, snaps, was, deps)
            && (LitChains(b, Kids(a), ui) ==> LitChains(c, Kids(c), ui))
  {
    hide Tree, Flags, IdCached, Removable, Minus, Index, UiLive, Journal, Lit, RankOK, DownClosed, View;
    var c := FreedArena(a, E);
    TreeForest(a, root);
    RemovableMeans(a, root, E);
    FreedTree(a, root, E);
    assert Relinked(b, c);
    RelinkedKeeps(b, c, ix, ui, snaps, was, deps);
    if LitChains(b, Kids(a), ui) {
      CutReady(c, root, root) by { RootParentless(c, root); }
      UiAlive(c, ui);
      FreedLit(Kids(a), E, b, c, Hover, ui.hover);
      FreedLit(Kids(a), E, b, c, Active, ui.active);
    }
  }

  lemma UiAlive(a: Arena, ui: Ui)
    requires UiLive(a, ui)
    ensures ui.hover.Some? ==> ui.hover.value in a && a[ui.hover.value].inDoc
    ensures ui.active.Some? ==> ui.active.value in a && a[ui.active.value].inDoc
  {
  }

  /** Record of the freed children of q: what the lists of the survivors lost. */
  lemma FreedRecord(a: Arena, E: set<NodeId>, q: NodeId, gone: seq<NodeId>)
    requires forall y :: y in gone <==> q in a && y in a[q].children && y in E
    requires forall x, y :: x in a && x !in E && x != q && y in a[x].children ==> y !in E
    ensures var c := FreedArena(a, E);
            forall p :: p in c ==> Members(c[p].children) == Apply(Members(a[p].children), ChildList(q, [], gone), p)
  {
    hide Minus;
  }

  lemma FreeRecord(a: Arena, root: NodeId, n: NodeId)
    requires Tree(a, root) && n in a && n != root && a[n].parent.Some?
    ensures var D := SubtreeOf(a, n); var q := a[n].parent.value;
            forall p :: p in FreedArena(a, D) ==>
              p in a && Members(FreedArena(a, D)[p].children) == Apply(Members(a[p].children), ChildList(q, [], [n]), p)
  {
    hide Tree, Minus, RankOK, Under, Preorder, OneParent, DownClosed;
    var D := SubtreeOf(a, n);
    var q := a[n].parent.value;
    TreeForest(a, root);
    SubtreeMeans(a, n);
    UnderSelf(Kids(a), n);
    ParentFacts(a, root, n);
    EdgeRank(Kids(a), q, n);
    if q in D { UnderLive(Kids(a), n, q); }
    forall x, y | x in a && x !in D && y in a[x].children && y in D ensures x == q && y == n {
      ChildLink(a, root, x, y);
      if y != n { UnderEdge(a, root, n, y); }
    }
    FreedRecord(a, D, q, [n]);
  }

  lemma {:induction false} UpwardsEnds(a: Arena, root: NodeId, p: NodeId, id: NodeId)
    requires Tree(a, root) && id in a && a[id].parent == Some(p)
    ensures p in a && Acyclic(Kids(a)) && Rank(Kids(a), id) < Rank(Kids(a), p) <= TheRank(Kids(a)).top
  {
    TreeForest(a, root);
    ParentFacts(a, root, id);
    EdgeRank(Kids(a), p, id);
  }

  /** Freeing E, then purging E from the lists of `from` and its ancestors. */
  ghost function DroppedArena(a: Arena, E: set<NodeId>, from: Option<NodeId>): Arena {
    if from.Some? then PurgedArena(FreedArena(a, E), from.value, E) else FreedArena(a, E)
  }

  lemma DroppedRepainted(a: Arena, E: set<NodeId>, from: Option<NodeId>)
    ensures Repainted(FreedArena(a, E), DroppedArena(a, E, from))
  {
    hide Minus;
    if from.Some? { PurgedRepainted(FreedArena(a, E), from.value, E); }
  }

  lemma DroppedTree(a: Arena, root: NodeId, E: set<NodeId>, from: Option<NodeId>)
    requires Tree(a, root) && Flags(a, root) && IdCached(a) && Removable(a, root, E)
    ensures var c := DroppedArena(a, E, from);
            && Tree(c, root) && Flags(c, root) && IdCached(c) && Kids(c) == Freed(Kids(a), E)
            && c.Keys == a.Keys - E
            && ((forall x :: x in E ==> !a[x].inDoc) ==> View(c) == View(a))
  {
    hide Tree, Flags, IdCached, Minus, View, DroppedArena, FreedArena, Repainted;
    RemovableMeans(a, root, E);
    FreedTree(a, root, E);
    DroppedRepainted(a, E, from);
    RepaintedTree(FreedArena(a, E), DroppedArena(a, E, from), root);
    RepaintedKeys(FreedArena(a, E), DroppedArena(a, E, from));
    if forall x :: x in E ==> !a[x].inDoc { FreedView(a, root, E); }
  }

  lemma RepaintedKeys(a: Arena, b: Arena)
    requires Repainted(a, b)
    ensures a.Keys == b.Keys && forall x :: x in a ==> a[x].children == b[x].children
  {
  }

  lemma DroppedKeeps(a: Arena, root: NodeId, E: set<NodeId>, from: Option<NodeId>, b: Arena, ix: IdIndex, ui: Ui,
                     snaps: map<NodeId, Snapshot>, was: map<NodeId, Flushed>, deps: set<StateBit>)
    requires Tree(a, root) && Flags(a, root) && IdCached(a) && Removable(a, root, E)
    requires Relinked(a - E, b)
    requires Index(b, ix) && UiLive(b, ui) && Journal(b, snaps, was, deps)
    ensures var c := DroppedArena(a, E, from);
            && Index(c, ix) && UiLive(c, ui) && Journal(c, snaps, was, deps)
            && (LitChains(b, Kids(a), ui) ==> LitChains(c, Kids(c), ui))
  {
    hide Tree, Flags, IdCached, Removable, Minus, Index, UiLive, Journal, LitChains, View, DroppedArena, FreedArena, Repainted,
         Relinked;
    var d, c := FreedArena(a, E), DroppedArena(a, E, from);
    FreedKeeps(a, root, E, b, ix, ui, snaps, was, deps);
    FreedTree(a, root, E);
    DroppedRepainted(a, E, from);
    DroppedTree(a, root, E, from);
    RepaintedKeeps(d, c, ix, ui, snaps, was, deps);
    if LitChains(d, Kids(d), ui) { RepaintedLit(d, c, Kids(d), ui); }
  }

  /** The log of a drop is that of a cut. */
  lemma DropReplayed(a: Arena, root: NodeId, n: NodeId, base: map<NodeId, set<NodeId>>, recs: seq<Record>)
    requires Tree(a, root) && Flags(a, root) && IdCached(a) && n in a && n != root && Replayed(a, base, recs)
    ensures Replayed(DroppedArena(a, SubtreeOf(a, n), a[n].parent), base, recs + CutLog(a, n))
  {
    hide Tree, Flags, IdCached, Minus, DroppedArena, FreedArena, Repainted, Replay, SubtreeOf;
    var E := SubtreeOf(a, n);
    var d, c := FreedArena(a, E), DroppedArena(a, E, a[n].parent);
    FreeStep(a, root, n);
    FreedTree(a, root, E);
    DroppedRepainted(a, E, a[n].parent);
    RepaintedKeys(d, c);
    if a[n].parent.Some? {
      FreeRecord(a, root, n);
      ReplayedStep(a, c, base, recs, ChildList(a[n].parent.value, [], [n]));
    } else {
      ReplayedSame(a, c, base, recs);
      assert recs + [] == recs;
    }
  }

  lemma SelfRelinked(a: Arena)
    ensures Relinked(a, a)
  {
  }

  lemma DropFlags(a: Arena, root: NodeId, n: NodeId)
    requires Tree(a, root) && Flags(a, root) && n in a && n != root
    ensures SubtreeOf(a, n) == Members(Preorder(Kids(a), n))
    ensures !a[n].inDoc ==> forall x :: x in SubtreeOf(a, n) ==> x in a && !a[x].inDoc
  {
    hide Preorder, RankOK, Flags;
    SubtreeMeans(a, n);
    if !a[n].inDoc {
      forall x | x in SubtreeOf(a, n) ensures x in a && !a[x].inDoc { SubtreeFlag(a, root, n, x); }
    }
  }

  /** Everything known about dropping n before any step is taken. */
  lemma DropPlan(a: Arena, root: NodeId, n: NodeId, base: map<NodeId, set<NodeId>>,
                 recs: seq<Record>, calls: seq<Record>, next: NodeId)
    requires Tree(a, root) && Flags(a, root) && IdCached(a) && n in a && n != root
    requires Replayed(a, base, recs) && Replayed(a, base, calls)
    requires Logged(base, recs, next) && Logged(base, calls, next) && forall x :: x in a ==> x < next
    ensures Forest(Kids(a)) && Holds(a, Kids(a), n) && Climbs(a, Kids(a)) && Rooted(a, Kids(a))
    ensures NoDup(Preorder(Kids(a), n))
    ensures var E, q := SubtreeOf(a, n), a[n].parent;
            var c := DroppedArena(a, E, q);
            && E == Members(Preorder(Kids(a), n)) && Removable(a, root, E)
            && Tree(c, root) && Flags(c, root) && IdCached(c) && c.Keys == a.Keys - E
            && (!a[n].inDoc ==> View(c) == View(a))
            && Replayed(c, base, recs + CutLog(a, n)) && Replayed(c, base, calls + CutLog(a, n))
            && Logged(base, recs + CutLog(a, n), next) && Logged(base, calls + CutLog(a, n), next)
            && Tree(FreedArena(a, E), root)
            && (q == None ==> c == a - E)
            && (q.Some? ==>
                  && q.value in a - E && q.value in FreedArena(a, E)
                  && FreedArena(a, E) == (a - E)[q.value := a[q.value].(children := Minus(a[q.value].children, {n}))])
  {
    hide Tree, Flags, IdCached, Replayed, Logged, View, Minus, Preorder, Holds, Climbs, Rooted, RankOK,
         PurgedArena, FreedArena, Removable, NoDup, Under, SubtreeOf, CutLog;
    CutReady(a, root, n);
    FreeStep(a, root, n);
    DropFlags(a, root, n);
    DroppedTree(a, root, SubtreeOf(a, n), a[n].parent);
    FreedTree(a, root, SubtreeOf(a, n));
    DropReplayed(a, root, n, base, calls);
    DropReplayed(a, root, n, base, recs);
    CutLogged(a, root, n, base, calls, next);
    CutLogged(a, root, n, base, recs, next);
    PreorderNoDup(Kids(a), n);
  }

  // ------------------------------------------------------ freeing all children

  /** p with its child list taken. */
  ghost function Taken(a: Arena, p: NodeId): Arena
    requires p in a
  {
    a[p := a[p].(children := [])]
  }

  ghost function Below(a: Arena, p: NodeId): set<NodeId> {
    if p in a && Acyclic(Kids(a)) then (ChildrenRank(Kids(a), p); Members(PreorderAll(Kids(a), a[p].children))) else {}
  }

  lemma TakenReady(a: Arena, root: NodeId, p: NodeId)
    requires Tree(a, root) && p in a
    ensures Forest(Kids(a)) && (forall c :: c in a[p].children ==> c in Kids(a))
    ensures Climbs(Taken(a, p), Kids(a)) && Rooted(Taken(a, p), Kids(a)) && Relinked(a, Taken(a, p))
    ensures Holds(a, Kids(a), p)
    ensures forall c :: c in a[p].children ==> Holds(Taken(a, p), Kids(a), c)
  {
    hide Tree, RankOK, Under, Climbs, Rooted, OneParent;
    CutReady(a, root, p);
    ChildrenRank(Kids(a), p);
    UnmountedClimbs(a, Kids(a), p, a[p].(children := []));
    forall c | c in a[p].children ensures Holds(Taken(a, p), Kids(a), c) {
      HoldsChild(a, Kids(a), p, c);
      forall y | Under(Kids(a), c, y) ensures y != p { UnderLive(Kids(a), c, y); }
    }
  }

  lemma NextChild(a: Arena, p: NodeId, i: nat, b: Arena)
    requires p in a && Holds(a, Kids(a), p) && Forest(Kids(a)) && Climbs(a, Kids(a)) && i < |a[p].children|
    requires forall c :: c in a[p].children ==> c in Kids(a)
    requires b == Taken(a, p) - Members(PreorderAll(Kids(a), a[p].children[..i]))
    ensures Holds(b, Kids(a), a[p].children[i])
  {
    hide RankOK, Under, Climbs, OneParent;
    var S, c := Kids(a), a[p].children[i];
    NextSubtree(a, S, p, i, a - Members([p] + PreorderAll(S, S[p][..i])));
    forall y | Under(S, c, y) ensures y in S && y in b && b[y].children == S[y] {
      UnderLive(S, c, y);
    }
  }

  lemma BelowMeans(a: Arena, root: NodeId, p: NodeId, x: NodeId)
    requires Tree(a, root) && p in a
    ensures Acyclic(Kids(a)) && forall c :: c in a[p].children ==> c in Kids(a)
    ensures x in Below(a, p) <==> exists c :: c in a[p].children && Under(Kids(a), c, x)
  {
    hide Tree, RankOK, Under, OneParent;
    TreeForest(a, root);
    ChildrenRank(Kids(a), p);
    PreorderAllMember(Kids(a), a[p].children, x);
  }

  lemma BelowMember(a: Arena, root: NodeId, p: NodeId, x: NodeId)
    requires Tree(a, root) && p in a && x in Below(a, p)
    ensures x in a && x != p && x != root
  {
    hide Tree, RankOK, Under, OneParent, Below;
    BelowMeans(a, root, p, x);
    var c :| c in a[p].children && Under(Kids(a), c, x);
    EdgeRank(Kids(a), p, c);
    UnderLive(Kids(a), c, x);
    ChildLink(a, root, p, c);
    RootParentless(a, root);
    RootAbove(a, root, c);
  }

  lemma BelowChild(a: Arena, root: NodeId, p: NodeId, c: NodeId)
    requires Tree(a, root) && p in a && c in a[p].children
    ensures c in Below(a, p)
  {
    hide Tree, RankOK, Under, OneParent, Below;
    BelowMeans(a, root, p, c);
    UnderSelf(Kids(a), c);
  }

  lemma BelowRemovable(a: Arena, root: NodeId, p: NodeId)
    requires Tree(a, root) && p in a
    ensures Removable(a, root, Below(a, p)) && p !in Below(a, p)
    ensures forall y :: y in a[p].children ==> y in Below(a, p)
    ensures forall x, y :: x in a && x != p && x !in Below(a, p) && y in a[x].children ==> y !in Below(a, p)
  {
    hide Tree, RankOK, DownClosed, Below;
    var E := Below(a, p);
    forall x | x in E ensures x in a && x != p && x != root { BelowMember(a, root, p, x); }
    forall c | c in a[p].children ensures c in E { BelowChild(a, root, p, c); }
    forall x, y | x in a && x != p && x !in E && y in a[x].children ensures y !in E {
      if y in E { BelowEdge(a, root, p, x, y); }
    }
    BelowDownClosed(a, root, p);
  }

  lemma BelowDownClosed(a: Arena, root: NodeId, p: NodeId)
    requires Tree(a, root) && p in a
    ensures DownClosed(Kids(a), Below(a, p))
  {
    hide Tree, RankOK, DownClosed, OneParent;
    TreeForest(a, root);
    ChildrenRank(Kids(a), p);
    SubtreesDownClosed(Kids(a), a[p].children);
  }

  lemma BelowFreed(a: Arena, root: NodeId, p: NodeId)
    requires Tree(a, root) && p in a
    ensures FreedArena(a, Below(a, p)) == Taken(a, p) - Below(a, p)
  {
    hide Tree, Minus, Below, Removable;
    var E := Below(a, p);
    BelowRemovable(a, root, p);
    forall x | x in a && x !in E ensures Minus(a[x].children, E) == if x == p then [] else a[x].children {
      if x == p { MinusAll(a[p].children, E); } else { MinusNothing(a[x].children, E); }
    }
  }

  lemma BelowEdge(a: Arena, root: NodeId, p: NodeId, x: NodeId, y: NodeId)
    requires Tree(a, root) && p in a && x in a && x != p && y in a[x].children && y in Below(a, p)
    ensures x in Below(a, p)
  {
    hide Tree, RankOK, Under, OneParent;
    TreeForest(a, root);
    var S := Kids(a);
    ChildrenRank(S, p);
    PreorderAllMember(S, a[p].children, y);
    var c :| c in a[p].children && Under(S, c, y);
    ChildLink(a, root, x, y);
    ChildLink(a, root, p, c);
    UnderEdge(a, root, c, y);
    PreorderAllMember(S, a[p].children, x);
  }

  lemma BelowFlags(a: Arena, root: NodeId, p: NodeId)
    requires Tree(a, root) && Flags(a, root) && p in a && !a[p].inDoc
    ensures forall x :: x in Below(a, p) ==> x in a && !a[x].inDoc
  {
    hide Tree, Flags, RankOK, Under, OneParent;
    TreeForest(a, root);
    ChildrenRank(Kids(a), p);
    forall x | x in Below(a, p) ensures x in a && !a[x].inDoc {
      PreorderAllMember(Kids(a), a[p].children, x);
      var c :| c in a[p].children && Under(Kids(a), c, x);
      ChildLink(a, root, p, c);
      ParentFlag(a, root, c);
      SubtreeFlag(a, root, c, x);
    }
  }

  /** One node_removed call per child. */
  function RemovedEach(p: NodeId, cs: seq<NodeId>): seq<Record> {
    if cs == [] then [] else RemovedEach(p, cs[..|cs| - 1]) + [ChildList(p, [], [cs[|cs| - 1]])]
  }

  function RemovedAtOnce(p: NodeId, cs: seq<NodeId>): seq<Record> {
    if cs == [] then [] else [ChildList(p, [], cs)]
  }

  lemma {:induction false} ReplayEach(base: map<NodeId, set<NodeId>>, recs: seq<Record>, p: NodeId, cs: seq<NodeId>, x: NodeId)
    ensures Replay(base, recs + RemovedEach(p, cs), x) == Replay(base, recs, x) - if x == p then Members(cs) else {}
  {
    hide Replay;
    if cs == [] {
      assert recs + [] == recs;
    } else {
      var n := |cs| - 1;
      ReplayEach(base, recs, p, cs[..n], x);
      assert recs + RemovedEach(p, cs) == (recs + RemovedEach(p, cs[..n])) + [ChildList(p, [], [cs[n]])];
      ReplaySnoc(base, recs + RemovedEach(p, cs[..n]), ChildList(p, [], [cs[n]]), x);
      assert cs == cs[..n] + [cs[n]];
    }
  }

  lemma {:induction false} RemovedEachTargets(p: NodeId, cs: seq<NodeId>)
    ensures forall i :: 0 <= i < |RemovedEach(p, cs)| ==> RemovedEach(p, cs)[i].target == p
  {
    if cs != [] { RemovedEachTargets(p, cs[..|cs| - 1]); }
  }

  lemma BelowReplayed(a: Arena, root: NodeId, p: NodeId, base: map<NodeId, set<NodeId>>,
                      recs: seq<Record>, calls: seq<Record>, next: NodeId)
    requires Tree(a, root) && p in a && Replayed(a, base, recs) && Replayed(a, base, calls)
    requires Logged(base, recs, next) && Logged(base, calls, next) && p < next
    ensures var c, cs := FreedArena(a, Below(a, p)), a[p].children;
            && Replayed(c, base, recs + RemovedAtOnce(p, cs)) && Logged(base, recs + RemovedAtOnce(p, cs), next)
            && Replayed(c, base, calls + RemovedEach(p, cs)) && Logged(base, calls + RemovedEach(p, cs), next)
  {
    hide Tree, Minus, Below, Removable, Replay, FreedArena;
    var c, cs := FreedArena(a, Below(a, p)), a[p].children;
    BelowRemovable(a, root, p);
    BelowFreed(a, root, p);
    forall x | x in c ensures x in a && c[x].children == if x == p then [] else a[x].children { }
    if cs == [] {
      ReplayedSame(a, c, base, recs);
      assert recs + [] == recs;
    } else {
      ReplayedStep(a, c, base, recs, ChildList(p, [], cs));
    }
    forall x | x in c ensures Replay(base, calls + RemovedEach(p, cs), x) == Members(c[x].children) {
      ReplayEach(base, calls, p, cs, x);
    }
    RemovedEachTargets(p, cs);
    LoggedMore(base, recs, RemovedAtOnce(p, cs), next);
    LoggedMore(base, calls, RemovedEach(p, cs), next);
  }

  /** Everything known about freeing p's children before any step is taken. */
  lemma BelowPlan(a: Arena, root: NodeId, p: NodeId, base: map<NodeId, set<NodeId>>,
                  recs: seq<Record>, calls: seq<Record>, next: NodeId)
    requires Tree(a, root) && Flags(a, root) && IdCached(a) && p in a
    requires Replayed(a, base, recs) && Replayed(a, base, calls)
    requires Logged(base, recs, next) && Logged(base, calls, next) && forall x :: x in a ==> x < next
    ensures Forest(Kids(a)) && (forall c :: c in a[p].children ==> c in Kids(a))
    ensures Climbs(a, Kids(a)) && Holds(a, Kids(a), p)
    ensures Climbs(Taken(a, p), Kids(a)) && Rooted(Taken(a, p), Kids(a))
    ensures forall c :: c in a[p].children ==> Holds(Taken(a, p), Kids(a), c)
    ensures var E, cs := Below(a, p), a[p].children;
            var c := DroppedArena(a, E, Some(p));
            && E == Members(PreorderAll(Kids(a), cs)) && Removable(a, root, E) && p !in E
            && Taken(a, p) - E == FreedArena(a, E) && Relinked(a - E, Taken(a, p) - E)
            && Tree(FreedArena(a, E), root)
            && Tree(c, root) && Flags(c, root) && IdCached(c) && c.Keys == a.Keys - E
            && (!a[p].inDoc || cs == [] ==> View(c) == View(a))
            && Replayed(c, base, recs + RemovedAtOnce(p, cs)) && Logged(base, recs + RemovedAtOnce(p, cs), next)
            && Replayed(c, base, calls + RemovedEach(p, cs)) && Logged(base, calls + RemovedEach(p, cs), next)
  {
    hide Tree, Flags, IdCached, Replayed, Logged, View, Minus, Preorder, Holds, Climbs, Rooted, RankOK, OneParent,
         PurgedArena, FreedArena, Removable, NoDup, Under, RemovedAtOnce, RemovedEach, DroppedArena;
    var E, cs := Below(a, p), a[p].children;
    TakenReady(a, root, p);
    CutReady(a, root, p);
    BelowRemovable(a, root, p);
    BelowFreed(a, root, p);
    FreedTree(a, root, E);
    DroppedTree(a, root, E, Some(p));
    if !a[p].inDoc { BelowFlags(a, root, p); }
    BelowReplayed(a, root, p, base, recs, calls, next);
    DroppedRepainted(a, E, Some(p));
    RepaintedKeys(FreedArena(a, E), DroppedArena(a, E, Some(p)));
    ReplayedSame(FreedArena(a, E), DroppedArena(a, E, Some(p)), base, recs + RemovedAtOnce(p, cs));
    ReplayedSame(FreedArena(a, E), DroppedArena(a, E, Some(p)), base, calls + RemovedEach(p, cs));
  }

  lemma TakenKeeps(a: Arena, root: NodeId, p: NodeId, ix: IdIndex, ui: Ui, snaps: map<NodeId, Snapshot>,
                   was: map<NodeId, Flushed>, deps: set<StateBit>)
    requires Tree(a, root) && p in a && Index(a, ix) && UiLive(a, ui) && Journal(a, snaps, was, deps)
    ensures var b := Taken(a, p);
            && Index(b, ix) && UiLive(b, ui) && Journal(b, snaps, was, deps)
            && (LitChains(a, Kids(a), ui) ==> LitChains(b, Kids(a), ui))
  {
    hide Tree, Index, UiLive, Journal, Climbs, Rooted, Under;
    TakenReady(a, root, p);
    RelinkedKeeps(a, Taken(a, p), ix, ui, snaps, was, deps);
  }

  lemma NothingBelow(a: Arena, p: NodeId)
    ensures p in a && a[p].children == [] ==> Below(a, p) == {}
  {
  }
}
