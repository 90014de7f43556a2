/** What may be left naming freed nodes. Derived paint and stacking lists: a rebuild
    lists nodes below the owner of the list; drops keep that, detaching and moving
    may not. And the slider of a range drag, which no removal clears. */
module Listing {
  import opened Shapes
  import opened Nodes
  import opened Edits
  import opened Moves
  import opened Ancestry
  import opened Paint
  import opened Inserts
  import opened Placement
  import opened Creation
  import opened Keeping
  import opened Lighting

  /** Lists name only nodes below their owner. */
  ghost predicate ListsBelow(a: Arena) {
    forall x, y :: x in a && Paints(a[x], y) ==> Above(a, x, y)
  }

  lemma ListsLive(a: Arena)
    requires ListsBelow(a)
    ensures PaintLive(a)
  {
    hide Above;
    forall x, y | x in a && Paints(a[x], y) ensures y in a { AboveLive(a, x, y); }
  }

  // ------------------------------------------------------------------- drops

  /** E hangs below `from`: of the survivors, exactly `from` and its ancestors are
      above any node of E. */
  ghost predicate Hangs(a: Arena, E: set<NodeId>, from: Option<NodeId>) {
    forall x, y :: x in a && x !in E && y in E ==> (Above(a, x, y) <==> OnChain(a, from, x))
  }

  lemma SubtreeHangs(a: Arena, root: NodeId, n: NodeId)
    requires Tree(a, root) && n in a
    ensures Hangs(a, SubtreeOf(a, n), a[n].parent)
  {
    hide Tree, Above, SubtreeOf;
    forall x, y | x in a && x !in SubtreeOf(a, n) && y in SubtreeOf(a, n) ensures Above(a, x, y) <==> OnChain(a, a[n].parent, x) {
      SubtreeIn(a, root, n, y);
      InSubtree(a, root, n, x);
      AboveStep(a, root, n, x);
      if Above(a, x, y) { AboveNested(a, root, x, n, y); }
      if Above(a, x, n) { AboveTrans(a, x, n, y); }
    }
  }

  lemma SubtreeIn(a: Arena, root: NodeId, n: NodeId, y: NodeId)
    requires Tree(a, root) && n in a && y in SubtreeOf(a, n)
    ensures y in a && Above(a, n, y)
  {
    hide Tree, Preorder, Under, RankOK, OneParent, SubtreeOf;
    TreeForest(a, root);
    SubtreeMeans(a, n);
    UnderLive(Kids(a), n, y);
  }

  lemma BelowHangs(a: Arena, root: NodeId, p: NodeId)
    requires Tree(a, root) && p in a
    ensures Hangs(a, Below(a, p), Some(p))
  {
    hide Tree, Above, Below;
    forall x, y | x in a && x !in Below(a, p) && y in Below(a, p) ensures Above(a, x, y) <==> Above(a, x, p) {
      BelowIs(a, root, p, y);
      BelowIs(a, root, p, x);
      AboveStep(a, root, p, p);
      if Above(a, x, y) { AboveNested(a, root, x, p, y); }
      if Above(a, x, p) { AboveTrans(a, x, p, y); }
    }
  }

  lemma BelowIs(a: Arena, root: NodeId, p: NodeId, y: NodeId)
    requires Tree(a, root) && p in a
    ensures y in Below(a, p) <==> Above(a, p, y) && y != p
  {
    hide Tree, Preorder, Under, RankOK, OneParent, Below;
    TreeForest(a, root);
    BelowMeans(a, root, p, y);
    UnderUnfold(Kids(a), p, y);
    if Under(Kids(a), p, y) { UnderLive(Kids(a), p, y); }
    if c :| c in a[p].children && Under(Kids(a), c, y) {
      EdgeRank(Kids(a), p, c);
      UnderLive(Kids(a), c, y);
    }
  }

  /** Some surviving list names a doomed node that is not below its owner. */
  ghost predicate Strayed(a: Arena, E: set<NodeId>) {
    exists x, y :: x in a && x !in E && y in E && Paints(a[x], y) && !Above(a, x, y)
  }

  lemma AboveFreed(a: Arena, root: NodeId, E: set<NodeId>, x: NodeId, q: NodeId)
    requires Tree(a, root) && Removable(a, root, E) && x in a && x !in E && q in a && q !in E
    ensures Above(FreedArena(a, E), x, q) <==> Above(a, x, q)
  {
    hide Tree, Minus, Under, RankOK, OneParent, DownClosed;
    TreeForest(a, root);
    RemovableMeans(a, root, E);
    FreedForest(Kids(a), E);
    assert Kids(FreedArena(a, E)) == Freed(Kids(a), E);
    FreedUnder(Kids(a), E, x, q);
  }

  /** Drops keep the lists from the removal parent to the root clean, and all lists
      clean exactly if no list held a doomed node that is not below its owner. */
  lemma DroppedPaint(a: Arena, root: NodeId, E: set<NodeId>, from: Option<NodeId>)
    requires Tree(a, root) && Removable(a, root, E) && Hangs(a, E, from) && PaintLive(a)
    requires from.Some? ==> from.value in a && from.value !in E
    ensures var c := DroppedArena(a, E, from);
            && (from.Some? ==> forall x, y :: x in c && Above(a, x, from.value) && Paints(c[x], y) ==> y in c)
            && (PaintLive(c) <==> !Strayed(a, E))
  {
    hide Tree, Minus, Above, Paints, PurgedArena, FreedArena, PaintLive, Removable;
    RemovableMeans(a, root, E);
    var c := DroppedArena(a, E, from);
    if from.Some? {
      forall x | x in a && x !in E ensures Above(FreedArena(a, E), x, from.value) <==> Above(a, x, from.value) {
        AboveFreed(a, root, E, x, from.value);
      }
      PurgeExact(a, E, from.value, c);
      SurvivorKeys(a, E, from.value);
    } else {
      UnpurgedExact(a, E, c);
    }
  }

  lemma SurvivorKeys(a: Arena, E: set<NodeId>, q: NodeId)
    ensures PurgedArena(FreedArena(a, E), q, E).Keys == a.Keys - E
  {
    hide Minus, Above;
  }

  /** Where lists name only nodes below their owner, a drop keeps it so, attached
      or not. */
  lemma DroppedBelow(a: Arena, root: NodeId, E: set<NodeId>, from: Option<NodeId>)
    requires Tree(a, root) && Flags(a, root) && IdCached(a) && Removable(a, root, E) && Hangs(a, E, from) && ListsBelow(a)
    requires from.Some? ==> from.value in a && from.value !in E
    ensures ListsBelow(DroppedArena(a, E, from))
  {
    hide Tree, Flags, IdCached, Minus, Above, Paints, PurgedArena, FreedArena, Removable, View, Kids;
    RemovableMeans(a, root, E);
    DroppedTree(a, root, E, from);
    var c := DroppedArena(a, E, from);
    forall x, y | x in c && Paints(c[x], y) ensures Above(c, x, y) {
      DroppedEntry(a, root, E, from, x, y);
    }
  }

  lemma DroppedEntry(a: Arena, root: NodeId, E: set<NodeId>, from: Option<NodeId>, x: NodeId, y: NodeId)
    requires Tree(a, root) && Flags(a, root) && IdCached(a) && Removable(a, root, E) && Hangs(a, E, from) && ListsBelow(a)
    requires from.Some? ==> from.value in a && from.value !in E
    requires x in DroppedArena(a, E, from) && Paints(DroppedArena(a, E, from)[x], y)
    ensures Above(DroppedArena(a, E, from), x, y)
  {
    hide Tree, Flags, IdCached, Minus, Above, Paints, PurgedArena, FreedArena, Removable, View, Kids, DroppedArena;
    RemovableMeans(a, root, E);
    DroppedTree(a, root, E, from);
    DroppedPaints(a, E, from, x, y);
    AboveLive(a, x, y);
    if from.Some? { AboveFreed(a, root, E, x, from.value); }
    AboveFreed(a, root, E, x, y);
    SameKidsAbove(FreedArena(a, E), DroppedArena(a, E, from), x, y) by { FreedTree(a, root, E); DroppedKeys(a, E, from); }
  }

  lemma DroppedKeys(a: Arena, E: set<NodeId>, from: Option<NodeId>)
    ensures DroppedArena(a, E, from).Keys == a.Keys - E == FreedArena(a, E).Keys
  {
    hide Minus, Above;
  }

  lemma SameKidsAbove(a: Arena, b: Arena, x: NodeId, y: NodeId)
    requires Kids(a) == Kids(b) && a.Keys == b.Keys
    ensures Above(a, x, y) <==> Above(b, x, y)
  {
    hide Under;
  }

  lemma DroppedPaints(a: Arena, E: set<NodeId>, from: Option<NodeId>, x: NodeId, y: NodeId)
    requires x in DroppedArena(a, E, from) && Paints(DroppedArena(a, E, from)[x], y)
    ensures x in a && x !in E && Paints(a[x], y) && (OnChain(FreedArena(a, E), from, x) ==> y !in E)
  {
    hide Above;
  }

  // -------------------------------------------------------- detaching, moving

  /** Some proper ancestor of n lists a node of n's subtree. */
  ghost predicate Held(a: Arena, n: NodeId) {
    exists x, y :: x in a && x != n && Above(a, x, n) && Above(a, n, y) && Paints(a[x], y)
  }

  /** Ancestry inside a detached subtree. */
  lemma {:induction false} CutAboveIn(a: Arena, root: NodeId, n: NodeId, f: Option<NodeId>, x: NodeId, y: NodeId)
    requires Tree(a, root) && Flags(a, root) && IdCached(a) && n in a && n != root && x in a && y in a && Above(a, n, y)
    ensures Above(CutArena(a, n, f), x, y) <==> Above(a, n, x) && Above(a, x, y)
    decreases Depth(a, y)
  {
    hide Tree, Flags, IdCached, Above, CutArena, UnmountedArena, Relinked, View, Detached, Depth;
    var c := CutArena(a, n, f);
    CutTree(a, root, n, f);
    CutParent(a, n, f, y);
    AboveStep(c, root, y, x);
    AboveStep(a, root, y, x);
    if y == n {
      AboveStep(a, root, n, n);
      if Above(a, n, x) && Above(a, x, n) { AboveBoth(a, n, x); }
    } else {
      AboveStep(a, root, y, n);
      DepthUp(a, root, y);
      CutAboveIn(a, root, n, f, x, a[y].parent.value);
    }
  }

  lemma CutParent(a: Arena, n: NodeId, f: Option<NodeId>, y: NodeId)
    requires y in a
    ensures var c := CutArena(a, n, f);
            && y in c && c[y].parent == (if y == n then None else a[y].parent)
            && c[y].paint == a[y].paint && c[y].stacking == a[y].stacking
  {
    hide SubtreeOf, Minus;
  }

  /** Detaching n keeps lists to nodes below their owners exactly if no ancestor
      lists a node of n's subtree: nothing is purged. */
  lemma CutLists(a: Arena, root: NodeId, n: NodeId, f: Option<NodeId>)
    requires Tree(a, root) && Flags(a, root) && IdCached(a) && n in a && n != root && ListsBelow(a)
    ensures ListsBelow(CutArena(a, n, f)) <==> !Held(a, n)
  {
    hide Tree, Flags, IdCached, Above, CutArena, UnmountedArena, Relinked, View, Detached, Paints;
    var c := CutArena(a, n, f);
    CutTree(a, root, n, f);
    forall x, y | x in a && Paints(a[x], y)
      ensures Paints(c[x], y) && (Above(c, x, y) <==> !(x != n && Above(a, x, n) && Above(a, n, y)))
    {
      CutEntry(a, root, n, f, x, y);
    }
    forall x, y | x in c && Paints(c[x], y) ensures Paints(a[x], y) { CutPaints(a, n, f, x, y); }
  }

  lemma CutPaints(a: Arena, n: NodeId, f: Option<NodeId>, x: NodeId, y: NodeId)
    requires x in a
    ensures x in CutArena(a, n, f) && (Paints(CutArena(a, n, f)[x], y) <==> Paints(a[x], y))
  {
    hide CutArena;
    CutParent(a, n, f, x);
  }

  lemma CutEntry(a: Arena, root: NodeId, n: NodeId, f: Option<NodeId>, x: NodeId, y: NodeId)
    requires Tree(a, root) && Flags(a, root) && IdCached(a) && n in a && n != root && ListsBelow(a) && x in a && Paints(a[x], y)
    ensures x in CutArena(a, n, f) && Paints(CutArena(a, n, f)[x], y)
    ensures Above(CutArena(a, n, f), x, y) <==> !(x != n && Above(a, x, n) && Above(a, n, y))
  {
    hide Tree, Flags, IdCached, Above, CutArena, Paints;
    CutPaints(a, n, f, x, y);
    AboveLive(a, x, y);
    if Above(a, n, y) {
      CutAboveIn(a, root, n, f, x, y);
      AboveNested(a, root, n, x, y);
      AboveStep(a, root, n, n);
      if Above(a, n, x) && Above(a, x, n) { AboveBoth(a, n, x); }
    } else {
      CutAbove(a, root, n, f, x, y);
    }
  }

  lemma SameSubtree(a: Arena, root: NodeId, n: NodeId, f: Option<NodeId>, x: NodeId)
    requires Tree(a, root) && Flags(a, root) && IdCached(a) && n in a && n != root && x in a
    ensures x in SubtreeOf(CutArena(a, n, f), n) <==> Above(a, n, x)
  {
    hide Tree, Flags, IdCached, Above, CutArena, UnmountedArena, Relinked, View, Detached, SubtreeOf;
    CutTree(a, root, n, f);
    InSubtree(CutArena(a, n, f), root, n, x);
    AboveStep(a, root, n, n);
    if Above(a, n, x) { CutAboveIn(a, root, n, f, n, x); } else { CutAbove(a, root, n, f, n, x); }
  }

  lemma CutKeepsLive(a: Arena, n: NodeId, f: Option<NodeId>)
    requires PaintLive(a)
    ensures PaintLive(CutArena(a, n, f))
  {
    hide CutArena, Paints;
    forall x | x in a ensures x in CutArena(a, n, f) { CutParent(a, n, f, x); }
    forall x, y | x in CutArena(a, n, f) && Paints(CutArena(a, n, f)[x], y) ensures y in CutArena(a, n, f) {
      CutOnlyOld(a, n, f, x);
      CutPaints(a, n, f, x, y);
    }
  }

  lemma CutOnlyOld(a: Arena, n: NodeId, f: Option<NodeId>, x: NodeId)
    requires x in CutArena(a, n, f)
    ensures x in a
  {
    hide SubtreeOf, Minus;
  }

  /** Detaching n and dropping it afterwards keeps the lists clean exactly if no
      ancestor listed a node of n's subtree before. */
  lemma DetachedDropPaint(a: Arena, root: NodeId, n: NodeId, f: Option<NodeId>)
    requires Tree(a, root) && Flags(a, root) && IdCached(a) && n in a && n != root && ListsBelow(a)
    ensures var b := CutArena(a, n, f); PaintLive(DroppedArena(b, SubtreeOf(b, n), None)) <==> !Held(a, n)
  {
    hide Tree, Flags, IdCached, Above, CutArena, UnmountedArena, Relinked, View, Detached, Paints, PaintLive, Removable,
         SubtreeOf,
         DroppedArena, FreedArena;
    var b := CutArena(a, n, f);
    CutTree(a, root, n, f);
    CutParent(a, n, f, n);
    ListsLive(a);
    CutKeepsLive(a, n, f);
    SubtreeHangs(b, root, n);
    FreeStep(b, root, n);
    DroppedPaint(b, root, SubtreeOf(b, n), None);
    forall x, y | x in a && Paints(a[x], y)
      ensures x !in SubtreeOf(b, n) && y in SubtreeOf(b, n) && !Above(b, x, y) <==> x != n && Above(a, x, n) && Above(a, n, y)
    {
      AboveLive(a, x, y);
      CutEntry(a, root, n, f, x, y);
      SameSubtree(a, root, n, f, x);
      SameSubtree(a, root, n, f, y);
      AboveStep(a, root, n, n);
      if Above(a, n, y) { AboveNested(a, root, n, x, y); }
      if Above(a, n, x) && Above(a, x, n) { AboveBoth(a, n, x); }
    }
    forall x, y | x in a ensures Paints(b[x], y) <==> Paints(a[x], y) { CutPaints(a, n, f, x, y); }
  }

  /** Where the list entries of moved and cut-off nodes may be for the lists to stay
      right: in their own subtrees or, of an inserted node's subtree, at the target
      and above it. */
  ghost predicate KeepsLists(a: Arena, P: NodeId, N: seq<NodeId>, D: seq<NodeId>) {
    forall x, y, c :: x in a && Paints(a[x], y) && Carries(a, N + D, c, y) ==> Above(a, c, x) || (c in N && Above(a, x, P))
  }

  ghost predicate SamePaint(a: Arena, b: Arena) {
    b.Keys == a.Keys && forall x :: x in a ==> b[x].paint == a[x].paint && b[x].stacking == a[x].stacking
  }

  /** Moving N below P and cutting D off keeps lists to nodes below their owners
      exactly under that. */
  lemma MovedLists(a: Arena, root: NodeId, b: Arena, P: NodeId, N: seq<NodeId>, D: seq<NodeId>)
    requires Tree(a, root) && Tree(b, root) && Reparented(a, b, P, N, D) && SamePaint(a, b) && ListsBelow(a)
    requires (forall d :: d in N + D ==> d in a) && (N != [] ==> P in a && P !in UnderAny(a, N + D))
    ensures ListsBelow(b) <==> KeepsLists(a, P, N, D)
  {
    hide Tree, Above, UnderAny, Carries, Reparented;
    forall x, y | x in a && Paints(a[x], y)
      ensures Above(b, x, y) <==> forall c :: Carries(a, N + D, c, y) ==> Above(a, c, x) || (c in N && Above(a, x, P))
    {
      AboveLive(a, x, y);
      HasCarrier(a, root, N + D, y);
      if c :| Carries(a, N + D, c, y) {
        forall d | Carries(a, N + D, d, y) ensures Above(b, x, y) <==> Above(a, d, x) || (d in N && Above(a, x, P)) {
          CarriedAbove(a, root, b, P, N, D, d, x, y);
        }
      } else {
        KeptAbove(a, root, b, P, N, D, x, y);
      }
    }
    forall x, y | x in a ensures Paints(b[x], y) <==> Paints(a[x], y) { }
  }

  /** For cut-off nodes only: exactly if no ancestor of theirs lists their subtrees. */
  lemma HeldAny(a: Arena, root: NodeId, P: NodeId, D: seq<NodeId>)
    requires Tree(a, root) && ListsBelow(a) && forall d :: d in D ==> d in a
    ensures KeepsLists(a, P, [], D) <==> forall n :: n in D ==> !Held(a, n)
  {
    hide Tree, Above, Paints;
    assert [] + D == D;
    if n :| n in D && Held(a, n) {
      var x, y :| x in a && x != n && Above(a, x, n) && Above(a, n, y) && Paints(a[x], y);
      var c := NearestCarrier(a, root, D, n, y);
      if Above(a, c, x) { AboveTrans(a, n, c, x); AboveBoth(a, n, x); }
      assert !KeepsLists(a, P, [], D);
    }
    forall x, y, c | x in a && Paints(a[x], y) && Carries(a, [] + D, c, y) && !Held(a, c) ensures Above(a, c, x) {
      AboveNested(a, root, c, x, y);
      AboveStep(a, root, c, c);
    }
  }

  // --------------------------------------------------- as the operations use it

  lemma ShiftedPaint(a: Arena, b: Arena, f: Option<NodeId>)
    requires Shifted(a, b, f)
    ensures SamePaint(a, b)
  {
    forall x | x in a ensures b[x].paint == a[x].paint && b[x].stacking == a[x].stacking { assert ShiftedNode(a[x], b[x], f == Some(x)); }
  }

  lemma OutsidePaint(a: Arena, ui: Ui, was: map<NodeId, Flushed>, b: Arena, ui': Ui, was': map<NodeId, Flushed>, X: set<NodeId>)
    requires Outside(a, ui, was, b, ui', was', X)
    ensures SamePaint(a, b)
  {
    hide UiOutside, FlushedOutside;
    forall x | x in a ensures b[x].paint == a[x].paint && b[x].stacking == a[x].stacking { assert SettledNode(a[x], b[x], x in X); }
  }

  /** Lists after any placement. */
  lemma PlacementLists(a: Arena, root: NodeId, b: Arena, P: NodeId, i: nat, j: nat, N: seq<NodeId>, D: seq<NodeId>)
    requires Tree(a, root) && Tree(b, root) && Insertable(a, root, P, N) && i <= j <= |a[P].children| && Kids(b) == PlacedAt(Kids(a), P, i, j, N)
    requires SamePaint(a, b) && D == a[P].children[i..j]
    ensures ListsBelow(a) ==> (ListsBelow(b) <==> KeepsLists(a, P, N, D))
  {
    hide Tree, PlacedAt, ListsBelow, KeepsLists, SamePaint, Kids, UnderAny, Reparented, NoDup, Above;
    PlacedParents(a, root, b, P, i, j, N);
    TargetOutside(a, root, P, N);
    UnderAnyMono(a, N + D, N + a[P].children);
    forall d | d in D ensures d in a { ChildLink(a, root, P, d); }
    if ListsBelow(a) { MovedLists(a, root, b, P, N, D); }
  }

  lemma InsertionLists(a: Arena, root: NodeId, ui: Ui, was: map<NodeId, Flushed>, b: Arena, ui': Ui, was': map<NodeId, Flushed>,
                       P: NodeId, i: nat, N: seq<NodeId>)
    requires Tree(a, root) && Tree(b, root) && Insertable(a, root, P, N) && i <= |a[P].children| && Kids(b) == PlacedAt(Kids(a), P, i, i, N)
    requires Moved(a, ui, was, b, ui', was', N)
    ensures ListsBelow(a) ==> (ListsBelow(b) <==> KeepsLists(a, P, N, []))
  {
    hide Tree, Insertable, PlacedAt, ListsBelow, KeepsLists, Shifted, Kids, UnderAny, Left, ForgetAll, SamePaint;
    ShiftedPaint(a, b, ui.focus);
    InsertableMeans(a, root, P, N);
    PlacementLists(a, root, b, P, i, i, N, []);
  }

  lemma PlacedLists(a: Arena, root: NodeId, ui: Ui, was: map<NodeId, Flushed>, b: Arena, ui': Ui, was': map<NodeId, Flushed>,
                    X: set<NodeId>, P: NodeId, i: nat, j: nat, N: seq<NodeId>)
    requires Tree(a, root) && Tree(b, root) && Insertable(a, root, P, N) && i <= j <= |a[P].children| && Kids(b) == PlacedAt(Kids(a), P, i, j, N)
    requires Outside(a, ui, was, b, ui', was', X)
    ensures ListsBelow(a) ==> (ListsBelow(b) <==> KeepsLists(a, P, N, a[P].children[i..j]))
  {
    hide Tree, Insertable, PlacedAt, ListsBelow, KeepsLists, Kids, Outside, SamePaint;
    OutsidePaint(a, ui, was, b, ui', was', X);
    InsertableMeans(a, root, P, N);
    PlacementLists(a, root, b, P, i, j, N, a[P].children[i..j]);
  }

  /** Lists after nodes were detached one by one. */
  lemma DetachedLists(a: Arena, root: NodeId, ui: Ui, was: map<NodeId, Flushed>, b: Arena, ui': Ui, was': map<NodeId, Flushed>,
                      N: seq<NodeId>, X: set<NodeId>)
    requires Tree(a, root) && Tree(b, root) && Unparented(a, Members(N), b) && Outside(a, ui, was, b, ui', was', X) && forall n :: n in N ==> n in a
    ensures ListsBelow(a) ==> (ListsBelow(b) <==> forall n :: n in N ==> !Held(a, n))
  {
    hide Tree, ListsBelow, KeepsLists, Held, Outside, SamePaint, UnderAny;
    OutsidePaint(a, ui, was, b, ui', was', X);
    assert [] + N == N;
    assert Reparented(a, b, root, [], N);
    if ListsBelow(a) {
      MovedLists(a, root, b, root, [], N);
      HeldAny(a, root, root, N);
    }
  }

  /** Nodes and child lists apart, an operation that touches no list keeps them. */
  lemma SameLists(a: Arena, b: Arena)
    requires Kids(a) == Kids(b) && SamePaint(a, b)
    ensures ListsBelow(b) <==> ListsBelow(a)
  {
    hide Above;
    forall x, y ensures Above(a, x, y) <==> Above(b, x, y) { SameKidsAbove(a, b, x, y); }
    forall x, y | x in a ensures Paints(b[x], y) <==> Paints(a[x], y) { }
  }

  /** One node changed, its children and lists apart. */
  lemma EditedLists(a: Arena, n: NodeId, nd: Node)
    requires n in a && nd.children == a[n].children && nd.paint == a[n].paint && nd.stacking == a[n].stacking
    ensures ListsBelow(a[n := nd]) <==> ListsBelow(a)
  {
    hide ListsBelow;
    assert Kids(a[n := nd]) == Kids(a);
    SameLists(a, a[n := nd]);
  }

  /** New nodes without lists of their own. */
  ghost predicate Unlisting(a: Arena, b: Arena) {
    forall x :: x in b && x !in a ==> b[x].paint == None && b[x].stacking == None
  }

  lemma FreshUnlisting(a: Arena, m: NodeId, data: NodeData, state: set<StateBit>)
    ensures Unlisting(a, a[m := NewNode(data, state)])
  {
  }

  lemma UnlistingTwice(a: Arena, b: Arena, c: Arena)
    requires Unlisting(a, b) && Unlisting(b, c) && Extends(b, c)
    ensures Unlisting(a, c)
  {
  }

  lemma AdoptedUnlisting(a: Arena, b: Arena, m: NodeId, N: seq<NodeId>)
    requires Unlisting(a, b)
    ensures Unlisting(a, Adopted(b, m, N))
  {
  }

  lemma ExtendedLists(a: Arena, root: NodeId, b: Arena)
    requires Tree(a, root) && Tree(b, root) && Extends(a, b) && Unlisting(a, b)
    ensures ListsBelow(b) <==> ListsBelow(a)
  {
    hide Tree, Above;
    forall x, y | x in a ensures Paints(b[x], y) <==> Paints(a[x], y) { }
    forall x, y | x in a && Paints(a[x], y) ensures Above(b, x, y) <==> Above(a, x, y) {
      ExtendedAbove(a, root, b, x, y);
    }
    if ListsBelow(b) {
      forall x, y | x in a && Paints(a[x], y) ensures Above(a, x, y) { assert Paints(b[x], y); }
    }
  }

  lemma RemovalLists(a: Arena, root: NodeId, n: NodeId, f: Option<NodeId>)
    requires Tree(a, root) && Flags(a, root) && IdCached(a) && n in a && n != root
    ensures ListsBelow(a) ==> (ListsBelow(CutArena(a, n, f)) <==> !Held(a, n))
  {
    hide Tree, Flags, IdCached, ListsBelow, Held, CutArena;
    if ListsBelow(a) { CutLists(a, root, n, f); }
  }

  lemma DropLists(a: Arena, root: NodeId, n: NodeId)
    requires Tree(a, root) && Flags(a, root) && IdCached(a) && n in a && n != root
    ensures var E := SubtreeOf(a, n); var c := DroppedArena(a, E, a[n].parent);
            (PaintLive(a) ==> (PaintLive(c) <==> !Strayed(a, E))) && (ListsBelow(a) ==> ListsBelow(c))
  {
    hide Tree, Flags, IdCached, ListsBelow, PaintLive, Strayed, DroppedArena, FreedArena, Removable, Hangs, SubtreeOf;
    FreeStep(a, root, n);
    SubtreeHangs(a, root, n);
    var E := SubtreeOf(a, n);
    if PaintLive(a) { DroppedPaint(a, root, E, a[n].parent); }
    if ListsBelow(a) { DroppedBelow(a, root, E, a[n].parent); }
  }

  lemma DropAllLists(a: Arena, root: NodeId, p: NodeId)
    requires Tree(a, root) && Flags(a, root) && IdCached(a) && p in a
    ensures var E := Below(a, p); var c := DroppedArena(a, E, Some(p));
            (PaintLive(a) ==> (PaintLive(c) <==> !Strayed(a, E))) && (ListsBelow(a) ==> ListsBelow(c))
  {
    hide Tree, Flags, IdCached, ListsBelow, PaintLive, Strayed, DroppedArena, FreedArena, Removable, Hangs, Below;
    BelowRemovable(a, root, p);
    BelowHangs(a, root, p);
    var E := Below(a, p);
    if PaintLive(a) { DroppedPaint(a, root, E, Some(p)); }
    if ListsBelow(a) { DroppedBelow(a, root, E, Some(p)); }
  }

  /** Lists rebuilt to name only nodes below their owners do so. */
  lemma RebuiltBelow(a: Arena, b: Arena)
    requires Repainted(a, b) && forall x, y :: x in b && Paints(b[x], y) ==> Above(a, x, y)
    ensures ListsBelow(b)
  {
    hide Above, Paints;
    RepaintedKeys(a, b);
    forall x, y | x in b && Paints(b[x], y) ensures Above(b, x, y) { SameKidsAbove(a, b, x, y); }
  }

  // ----------------------------------------------------------- the range drag

  /** After a drop of E the range drag names a freed node exactly if it named one
      of E. */
  lemma DroppedRangeDrag(a: Arena, E: set<NodeId>, from: Option<NodeId>, ui: Ui, heir: Option<NodeId>)
    ensures RangeDragLive(a, ui) ==>
      (RangeDragLive(DroppedArena(a, E, from), ForgetAll(ui, E, heir)) <==> ui.rangeDrag == None || ui.rangeDrag.value !in E)
  {
    hide DroppedArena;
    DroppedKeys(a, E, from);
  }
}
