/** The document: the node arena, its derived structures, and the operations
    that live on them (packages/strake-dom/src/document.rs and
    query_selector.rs). */
module Document {
  import opened Shapes
  import opened Nodes
  import opened Edits
  import opened Moves
  import opened Ancestry
  import opened Paint
  import opened Listing
  import opened Creation
  import opened Journaling
  import opened Queries
  import opened Focusing
  import opened Inputs

  lemma LoneRoot(nd: Node, deps: set<StateBit>)
    requires nd == Node(None, [], true, NodeData.Document, {}, true, false, None, None)
    ensures Tree(map[0 := nd], 0) && Flags(map[0 := nd], 0) && IdCached(map[0 := nd])
    ensures Index(map[0 := nd], map[]) && UiLive(map[0 := nd], IDLE)
    ensures Journal(map[0 := nd], map[], map[], deps) && Replayed(map[0 := nd], map[], [])
  {
    hide Mentions, Tree, Acyclic;
    LoneTree(nd);
    NobodyMentioned();
  }

  lemma LoneTree(nd: Node)
    requires nd.parent == None && nd.children == []
    ensures Tree(map[0 := nd], 0)
  {
    assert RankOK(Kids(map[0 := nd]), Ranking(map[0 := 0], 0));
  }

  lemma NobodyMentioned()
    ensures forall x :: !Mentions(IDLE, x)
  {
  }

  class BaseDocument {
    var nodes: Arena
    const root: NodeId
    var nextId: NodeId
    var nodesToId: IdIndex
    var ui: Ui
    var snapshots: map<NodeId, Snapshot>
    /** The ElementState bits some style rule depends on. */
    const deps: set<StateBit>
    /** What the embedder's hooks were told: queued records, per-child calls. */
    var records: seq<Record>
    var calls: seq<Record>
    ghost var flushed: map<NodeId, Flushed>
    ghost var base: map<NodeId, set<NodeId>>

    /** Everything but the record stream, which bulk operations queue last, as
        it would hold of the arena a. */
    ghost predicate CoreOf(a: Arena)
      reads this
    {
      && Tree(a, root) && Flags(a, root)
      && Index(a, nodesToId) && IdCached(a)
      && UiLive(a, ui)
      && Journal(a, snapshots, flushed, deps)
      && Replayed(a, base, calls)
      && (forall x :: x in a ==> x < nextId)
      && Logged(base, records, nextId) && Logged(base, calls, nextId)
    }

    ghost predicate ValidOf(a: Arena)
      reads this
    {
      CoreOf(a) && Replayed(a, base, records)
    }

    ghost predicate Core()
      reads this
    {
      CoreOf(nodes)
    }

    ghost predicate Valid()
      reads this
    {
      ValidOf(nodes)
    }

    constructor (deps: set<StateBit>)
      ensures Valid()
      ensures root == 0 && nodes == map[0 := Node(None, [], true, NodeData.Document, {}, true, false, None, None)] && nextId == 1
      ensures ui == IDLE && records == [] && this.deps == deps
    {
      root := 0;
      nodes := map[0 := Node(None, [], true, NodeData.Document, {}, true, false, None, None)];
      nextId := 1;
      nodesToId, ui, snapshots, this.deps := map[], IDLE, map[], deps;
      records, calls, flushed, base := [], [], map[], map[];
      new;
      hide Tree, Flags, IdCached, Index, UiLive, Journal, Replayed;
      LoneRoot(nodes[0], deps);
    }

    // ------------------------------------------------------------ id index

    /** Adds a node to the entry of a non-empty id. */
    method AddToIdMap(id: string, x: NodeId)
      requires Entries(nodesToId)
      modifies `nodesToId
      ensures Entries(nodesToId)
      ensures forall s, y :: Indexed(nodesToId, s, y) <==>
        Indexed(old(nodesToId), s, y) || (s == id && y == x && id != "")
    {
      if id == "" { return; }
      var entry := if id in nodesToId then nodesToId[id] else [];
      if x !in entry {
        entry := entry + [x];
      }
      nodesToId := nodesToId[id := entry];
    }

    /** Removes a node from the entry of an id, and the entry when it empties. */
    method RemoveFromIdMap(id: string, x: NodeId)
      requires Entries(nodesToId)
      modifies `nodesToId
      ensures Entries(nodesToId)
      ensures forall s, y :: Indexed(nodesToId, s, y) <==>
        Indexed(old(nodesToId), s, y) && !(s == id && y == x)
    {
      if id in nodesToId {
        var entry := Minus(nodesToId[id], {x});
        MinusNoDup(nodesToId[id], {x});
        nodesToId := if entry == [] then nodesToId - {id} else nodesToId[id := entry];
        assert entry == [] ==> forall y :: y !in entry;
      }
    }

    // ------------------------------------------------- leaving the document

    /** Climbs to the nearest element ancestor that is still in the document. */
    method NearestSurvivingElementAncestor(x: NodeId, ghost S: Shape) returns (h: Option<NodeId>)
      requires Climbs(nodes, S) && x in nodes
      ensures h == Heir(nodes, S, x)
    {
      var current := nodes[x].parent;
      ghost var at := x;
      while current.Some?
        invariant at in nodes && nodes[at].parent == current
        invariant Heir(nodes, S, at) == Heir(nodes, S, x)
        decreases TheRank(S).top - Rank(S, at)
      {
        var id := current.value;
        if id !in nodes { return None; }
        if nodes[id].data.Element? && nodes[id].inDoc { return Some(id); }
        assert Rank(S, at) < Rank(S, id) <= TheRank(S).top;
        at := id;
        current := nodes[id].parent;
      }
      return None;
    }

    /** Drops every interaction reference to x, blurring it if it was focused. */
    method ClearInteractionState(x: NodeId, ghost S: Shape)
      requires x in nodes ==> Climbs(nodes, S)
      modifies `nodes, `ui
      ensures x !in old(nodes) ==> nodes == old(nodes) && ui == old(ui)
      ensures x in old(nodes) ==>
        && nodes == old(nodes)[x := if old(ui).focus == Some(x) then Blurred(old(nodes)[x]) else old(nodes)[x]]
        && ui == Forget(old(ui), x, Heir(old(nodes), S, x)) && Unselected(old(ui), {x}, ui)
    {
      if x !in nodes { return; }
      hide Heir, Climbs, Blurred;
      ForgetUnselects(ui, x, Heir(nodes, S, x));
      ClearPointer(x, S);
      if ui.focus == Some(x) {
        nodes := nodes[x := Blurred(nodes[x])];
        ui := ui.(focus := None);
      }
      ClearHeld(x);
    }

    /** Hover and active fall back to the nearest surviving element. */
    method ClearPointer(x: NodeId, ghost S: Shape)
      requires x in nodes && Climbs(nodes, S)
      modifies `ui
      ensures ui == old(ui).(hover := if old(ui).hover == Some(x) then Heir(nodes, S, x) else old(ui).hover,
                             hit := Cleared(old(ui).hit, x),
                             active := if old(ui).active == Some(x) then Heir(nodes, S, x) else old(ui).active)
    {
      hide Heir, Climbs;
      if ui.hover == Some(x) {
        var heir := NearestSurvivingElementAncestor(x, S);
        ui := ui.(hover := heir);
      }
      if ui.hit == Some(x) {
        ui := ui.(hit := None);
      }
      if ui.active == Some(x) {
        var heir := NearestSurvivingElementAncestor(x, S);
        ui := ui.(active := heir);
      }
    }

    /** The press, the selection, the scrollbar and the drag that speak of x. */
    method ClearHeld(x: NodeId)
      modifies `ui
      ensures ui == old(ui).(mousedown := ui.mousedown, anchor := ui.anchor, selFocus := ui.selFocus, scrollbar := ui.scrollbar,
                             drag := ui.drag, fading := old(ui).fading - {x})
      ensures ui.mousedown == Cleared(old(ui).mousedown, x) && ui.scrollbar == Cleared(old(ui).scrollbar, x)
      ensures Unselected(old(ui), {x}, ui)
    {
      if ui.mousedown == Some(x) {
        ui := ui.(mousedown := None);
      }
      if ui.anchor == Some(x) || ui.selFocus == Some(x) {
        ui := ui.(anchor := None, selFocus := None);
      }
      if ui.scrollbar == Some(x) {
        ui := ui.(scrollbar := None);
      }
      var dragReferencesNode :=
        match ui.drag
        case Panning(target) => target == x
        case ScrollbarDrag(thumb) => thumb == x
        case _ => false;
      if dragReferencesNode {
        ui := ui.(drag := NoDrag);
      }
      ui := ui.(fading := ui.fading - {x});
    }

    /** The preorder walk behind iter_subtree_mut. */
    method Walk(x: NodeId, ghost S: Shape) returns (order: seq<NodeId>)
      requires Holds(nodes, S, x)
      ensures order == Preorder(S, x)
      decreases Rank(S, x)
    {
      UnderSelf(S, x);
      ChildrenRank(S, x);
      order := [x];
      var children := nodes[x].children;
      for i := 0 to |children|
        invariant forall c :: c in children[..i] ==> c in S
        invariant order == [x] + PreorderAll(S, children[..i])
      {
        HoldsChild(nodes, S, x, children[i]);
        var below := Walk(children[i], S);
        PreorderAllSnoc(S, children, i);
        order := order + below;
      }
      assert children[..|children|] == children;
    }

    /** What process_removed_subtree does to one node. */
    method ForgetNode(x: NodeId, ghost S: Shape)
      requires x in nodes && Climbs(nodes, S)
      requires Index(nodes, nodesToId) && UiLive(nodes, ui) && Journal(nodes, snapshots, flushed, deps)
      modifies `nodes, `ui, `nodesToId, `snapshots, `flushed
      ensures nodes == old(nodes)[x := Unmounted(old(nodes)[x], old(ui).focus == Some(x))]
      ensures Index(nodes, nodesToId) && UiLive(nodes, ui) && Journal(nodes, snapshots, flushed, deps)
      ensures Climbs(nodes, S) && (Rooted(old(nodes), S) ==> Rooted(nodes, S))
      ensures Rooted(old(nodes), S) && LitChains(old(nodes), S, old(ui)) ==> LitChains(nodes, S, ui)
      ensures ui.focus == Cleared(old(ui).focus, x) && !Mentions(ui, x)
      ensures ui == Forget(old(ui), x, HeirOr(old(nodes), S, x)) && flushed == old(flushed) - {x}
      ensures forall y :: Mentions(ui, y) ==> Mentions(old(ui), y) || (y in nodes && nodes[y].inDoc)
    {
      hide Index, Entries, Indexed, UiLive, Journal, Climbs, Rooted, LitChains, Mentions, HeirOr, Forget;
      ghost var a, u, ix := nodes, ui, nodesToId;
      IndexEntries(a, ix);
      LeaveDocument(x, S);
      ForgetSnapshot(x);
      flushed := flushed - {x};
      ForgetId(x);
      assert nodes == a[x := Unmounted(a[x], u.focus == Some(x))];
      ForgottenAll(a, S, u, x, ix, old(snapshots), old(flushed), deps, nodes, nodesToId);
    }

    /** The flag goes first, then the references to the node. */
    method LeaveDocument(x: NodeId, ghost S: Shape)
      requires x in nodes && Climbs(nodes, S)
      modifies `nodes, `ui
      ensures var nd := old(nodes)[x];
              nodes == old(nodes)[x := (if old(ui).focus == Some(x) then Blurred(nd) else nd).(inDoc := false)]
      ensures ui == Forget(old(ui), x, HeirOr(old(nodes), S, x))
    {
      hide Climbs, Rooted, Heir, Forget;
      ghost var a, u := nodes, ui;
      UnmountedClimbs(a, S, x, a[x].(inDoc := false));
      nodes := nodes[x := nodes[x].(inDoc := false)];
      ClearInteractionState(x, S);
      ForgottenIs(a, S, u, x);
    }

    method ForgetSnapshot(x: NodeId)
      requires x in nodes
      modifies `nodes, `snapshots
      ensures nodes == old(nodes)[x := old(nodes)[x].(hasSnapshot := false)]
      ensures snapshots == if old(nodes)[x].hasSnapshot then old(snapshots) - {x} else old(snapshots)
    {
      if nodes[x].hasSnapshot {
        snapshots := snapshots - {x};
        nodes := nodes[x := nodes[x].(hasSnapshot := false)];
      }
    }

    method ForgetId(x: NodeId)
      requires x in nodes && Entries(nodesToId)
      modifies `nodesToId
      ensures Entries(nodesToId)
      ensures forall s, y :: Indexed(nodesToId, s, y) <==>
        Indexed(old(nodesToId), s, y) && !(y == x && AttrOf(nodes[x].data, "id") == Some(s))
    {
      hide Entries, Indexed;
      var id := AttrOf(nodes[x].data, "id");
      if id.Some? {
        RemoveFromIdMap(id.value, x);
      }
    }

    /** process_removed_subtree: every node of the subtree leaves the document. */
    method ProcessRemovedSubtree(n: NodeId, ghost S: Shape)
      requires Holds(nodes, S, n) && Forest(S) && Climbs(nodes, S)
      requires Index(nodes, nodesToId) && UiLive(nodes, ui) && Journal(nodes, snapshots, flushed, deps)
      modifies `nodes, `ui, `nodesToId, `snapshots, `flushed
      ensures nodes == UnmountedArena(old(nodes), Members(Preorder(S, n)), old(ui).focus)
      ensures Index(nodes, nodesToId) && UiLive(nodes, ui) && Journal(nodes, snapshots, flushed, deps)
      ensures Climbs(nodes, S)
      ensures Rooted(old(nodes), S) && LitChains(old(nodes), S, old(ui)) ==> LitChains(nodes, S, ui)
      ensures forall y :: Under(S, n, y) ==> !Mentions(ui, y)
      ensures Heritable(old(nodes), S, n) ==> ui == ForgetAll(old(ui), Members(Preorder(S, n)), HeirOr(old(nodes), S, n))
      ensures Heritable(old(nodes), S, n) ==> Unselected(old(ui), Members(Preorder(S, n)), ui)
      ensures flushed == old(flushed) - Members(Preorder(S, n))
    {
      hide Index, UiLive, Journal, Climbs, Rooted, LitChains, Mentions, Unmounted, Preorder, Heritable, HeirOr, Forget, ForgetAll, Unselected;
      ForgetAllUnselects(ui, Members(Preorder(S, n)), HeirOr(nodes, S, n));
      var order := Walk(n, S);
      HoldsOrder(nodes, S, n);
      ghost var focus := ui.focus;
      ForgetAllNone(ui, HeirOr(nodes, S, n));
      assert order[..0] == [] && Members(order[..0]) == {} && flushed - {} == flushed;
      for i := 0 to |order|
        invariant Heritable(old(nodes), S, n) ==> ui == ForgetAll(old(ui), Members(order[..i]), HeirOr(old(nodes), S, n))
        invariant flushed == old(flushed) - Members(order[..i])
        invariant nodes == UnmountedArena(old(nodes), Members(order[..i]), focus)
        invariant ui.focus == if focus.Some? && focus.value in order[..i] then None else focus
        invariant forall y :: y in order[..i] ==> !Mentions(ui, y)
        invariant Index(nodes, nodesToId) && UiLive(nodes, ui) && Journal(nodes, snapshots, flushed, deps)
        invariant Climbs(nodes, S) && (Rooted(old(nodes), S) ==> Rooted(nodes, S))
        invariant Rooted(old(nodes), S) && LitChains(old(nodes), S, old(ui)) ==> LitChains(nodes, S, ui)
      {
        ghost var a, u := nodes, ui;
        ghost var was := flushed;
        ForgetNode(order[i], S);
        VisitForgets(old(nodes), S, n, i, focus, a, old(ui), u, ui);
        FewerFlushed(old(flushed), order, i, was, flushed);
        UnmountedMore(old(nodes), order, i, focus, a, u.focus, nodes);
        NotMentioned(order, i, u, nodes, ui);
      }
      assert order[..|order|] == order;
    }

    /** process_added_subtree: every node of the subtree enters the document. */
    method ProcessAddedSubtree(n: NodeId, ghost S: Shape)
      requires Holds(nodes, S, n)
      requires Index(nodes, nodesToId) && UiLive(nodes, ui) && Journal(nodes, snapshots, flushed, deps)
      modifies `nodes, `nodesToId
      ensures nodes == MountedArena(old(nodes), Members(Preorder(S, n)))
      ensures Index(nodes, nodesToId) && UiLive(nodes, ui) && Journal(nodes, snapshots, flushed, deps)
    {
      hide Index, Entries, Indexed, Bears, UiLive, Journal, Preorder, AttrOf;
      var order := Walk(n, S);
      forall y | y in order ensures y in nodes { assert Under(S, n, y); }
      for i := 0 to |order|
        invariant nodes == MountedArena(old(nodes), Members(order[..i]))
        invariant Index(nodes, nodesToId) && UiLive(nodes, ui) && Journal(nodes, snapshots, flushed, deps)
      {
        var x := order[i];
        ghost var a, ix := nodes, nodesToId;
        IndexEntries(a, ix);
        nodes := nodes[x := nodes[x].(inDoc := true)];
        var id := AttrOf(nodes[x].data, "id");
        if id.Some? {
          AddToIdMap(id.value, x);
        }
        MountKeeps(a, ix, ui, snapshots, flushed, deps, x, nodesToId);
        MountedMore(old(nodes), order, i);
      }
      assert order[..|order|] == order;
    }

    /** remove_node_from_tree: clears references to x, then frees its slot. */
    method RemoveNodeFromTree(x: NodeId, ghost S: Shape)
      requires x in nodes && Climbs(nodes, S) && !Mentions(ui, x)
      modifies `nodes, `ui
      ensures nodes == old(nodes) - {x} && ui == old(ui)
    {
      hide Climbs, Mentions, Forget, Heir;
      ForgetNothing(ui, x, Heir(nodes, S, x));
      ClearInteractionState(x, S);
      nodes := nodes - {x};
    }

    /** Frees x and its subtree, children after parents; returns what it freed. */
    method DropNodeIgnoringParent(x: NodeId, ghost S: Shape) returns (dropped: seq<NodeId>)
      requires Holds(nodes, S, x) && Forest(S) && Climbs(nodes, S)
      requires forall y :: Under(S, x, y) ==> !Mentions(ui, y)
      modifies `nodes, `ui
      ensures nodes == old(nodes) - Members(Preorder(S, x)) && ui == old(ui)
      ensures dropped == Preorder(S, x)
      decreases Rank(S, x)
    {
      hide Climbs, Mentions, Holds, Under, RankOK, OneParent, NoDup, ListRank, Acyclic;
      HoldsRoot(nodes, S, x);
      ghost var a := nodes;
      var children := nodes[x].children;
      RemoveNodeFromTree(x, S);
      dropped := [x];
      for i := 0 to |children|
        invariant forall c :: c in children[..i] ==> c in S
        invariant dropped == [x] + PreorderAll(S, children[..i])
        invariant nodes == a - Members(dropped) && ui == old(ui)
      {
        NextSubtree(a, S, x, i, nodes);
        var below := DropNodeIgnoringParent(children[i], S);
        PreorderAllSnoc(S, children, i);
        dropped := dropped + below;
      }
      assert children[..|children|] == children;
    }

    // ------------------------------------------------------------- new nodes

    /** A new detached leaf under an id never used before. */
    method CreateNode(data: NodeData, state: set<StateBit>) returns (m: NodeId)
      requires Valid() && (data.Element? ==> data.id == AttrOf(data, "id"))
      modifies `nodes, `nextId
      ensures Valid() && m == old(nextId) && nextId == m + 1 && m !in old(nodes)
      ensures nodes == old(nodes)[m := NewNode(data, state)] && Extends(old(nodes), nodes)
      ensures View(nodes) == View(old(nodes))
      ensures ListsBelow(nodes) <==> old(ListsBelow(nodes))
      ensures !(data.Element? && (Focus in state || FocusRing in state)) ==>
        old(FocusLit(nodes, ui.focus)) ==> FocusLit(nodes, ui.focus)
    {
      hide Tree, Flags, Index, IdCached, UiLive, Journal, Replayed, Logged, View, AttrOf, ListsBelow, FocusLit;
      m := nextId;
      ghost var nd := NewNode(data, state);
      FreshTree(nodes, root, m, nd);
      FreshKeeps(nodes, m, nd, nodesToId, ui, snapshots, flushed, deps);
      FreshReplayed(nodes, m, nd, base, records);
      FreshReplayed(nodes, m, nd, base, calls);
      ghost var a := nodes;
      nodes := nodes[m := NewNode(data, state)];
      ExtendedLists(a, root, nodes);
      NewFocus(a, m, data, state, ui);
      nextId := nextId + 1;
    }

    /** Clones a subtree, children in order, and links the clones last. No mutation
        record is queued, so the clones' lists enter the base of the replay. */
    method DeepClone(n: NodeId, ghost S: Shape) returns (m: NodeId)
      requires Valid() && Holds(nodes, S, n)
      modifies `nodes, `nextId, `base
      ensures Valid() && Extends(old(nodes), nodes) && old(nextId) <= m
      ensures m in nodes && m !in old(nodes) && nodes[m].parent == None
      ensures Copied(old(nodes), n, nodes, m)
      ensures View(nodes) == View(old(nodes))
      ensures forall p :: p < old(nextId) ==> Lookup(base, p) == Lookup(old(base), p)
      ensures old(nextId) <= nextId
      ensures NewBelow(old(nodes), [m], nodes)
      ensures Unlisting(old(nodes), nodes)
      ensures ListsBelow(nodes) <==> old(ListsBelow(nodes))
      decreases Rank(S, n)
    {
      hide Tree, Flags, Index, IdCached, UiLive, Journal, Replayed, Logged, View, AttrOf, Holds, Copied, RankOK, Under, Acyclic,
           Adoptable, Clones, NoDup, ListsBelow, Unlisting, Adopted, NewBelow;
      ghost var a0 := nodes;
      HoldsRoot(nodes, S, n);
      CloneSource(nodes, n);
      LoggedMeans(base, records, nextId);
      LoggedMeans(base, calls, nextId);
      var data := nodes[n].data;
      var children := nodes[n].children;
      m := CreateNode(data, if data.Element? then nodes[n].state else {});
      ghost var a1 := nodes;
      FreshUnlisting(a0, m, data, nodes[m].state);
      NoClones(a0, root, m, nodes);
      NewBelowFresh(a0, root, m, nodes);
      var copies := [];
      assert [m] + copies == [m];
      for i := 0 to |children|
        invariant Valid() && Extends(a0, nodes) && Extends(a1, nodes) && View(nodes) == View(a0)
        invariant Unlisting(a0, nodes) && NewBelow(a0, [m] + copies, nodes)
        invariant m + 1 <= nextId && Clones(a0, children[..i], root, m, nodes, copies)
        invariant forall p :: p < old(nextId) ==> Lookup(base, p) == Lookup(old(base), p)
      {
        ghost var a := nodes;
        CloneReady(a0, S, n, i, nodes);
        var c := DeepClone(children[i], S);
        CloneMore(a0, root, children, i, m, a, copies, nodes, c);
        UnlistingTwice(a0, a, nodes);
        NewBelowMore(a0, root, a, [m] + copies, nodes, c);
        assert [m] + copies + [c] == [m] + (copies + [c]);
        copies := copies + [c];
      }
      assert children[..|children|] == children;
      CloneLink(a0, root, n, m, nodes, copies, base, records, calls, nextId);
      AdoptedUnlisting(a0, nodes, m, copies);
      Adopt(m, copies);
      ExtendedLists(a0, root, nodes);
    }

    /** Links the nodes of N below m: their parents first, then m's list. */
    method Adopt(m: NodeId, N: seq<NodeId>)
      requires m in nodes && m !in N && forall c :: c in N ==> c in nodes
      requires var b, base' := Adopted(nodes, m, N), base[m := Members(N)];
               && Tree(b, root) && Flags(b, root) && IdCached(b) && Relinked(nodes, b) && b.Keys == nodes.Keys
               && Replayed(b, base', records) && Replayed(b, base', calls)
               && Logged(base', records, nextId) && Logged(base', calls, nextId)
      requires Valid()
      modifies `nodes, `base
      ensures Valid() && nodes == Adopted(old(nodes), m, N) && base == old(base)[m := Members(N)]
    {
      hide Tree, Flags, Index, IdCached, UiLive, Journal, Replayed, Logged, Parented, Adopted, Relinked, Members;
      ghost var a := nodes;
      ParentedAll(a, m, N);
      assert N[..0] == [];
      for i := 0 to |N|
        invariant nodes == Parented(a, m, N[..i])
        modifies `nodes
      {
        ParentedMore(a, m, N, i);
        nodes := nodes[N[i] := nodes[N[i]].(parent := Some(m))];
      }
      assert N[..|N|] == N;
      nodes := nodes[m := nodes[m].(children := N)];
      base := base[m := Members(N)];
      RelinkedKeeps(a, nodes, nodesToId, ui, snapshots, flushed, deps);
    }

    // ---------------------------------------------------------------- queries

    /** The first of the candidates in tree order, by a search with an explicit
        stack. */
    method FirstInTreeOrder(candidates: seq<NodeId>) returns (r: Option<NodeId>)
      requires Tree(nodes, root)
      ensures FirstAmong(nodes, root, candidates, r)
    {
      hide Tree, Visiting, DocumentOrder, Reversed;
      VisitStart(nodes, root);
      ghost var seen := [];
      var stack := [root];
      while stack != []
        invariant Visiting(nodes, root, seen, stack)
        invariant |seen| <= |DocumentOrder(nodes, root)| && seen == DocumentOrder(nodes, root)[..|seen|]
        invariant forall x :: x in seen ==> x !in candidates
        decreases |DocumentOrder(nodes, root)| - |seen|
      {
        VisitStep(nodes, root, seen, stack);
        var id := stack[|stack| - 1];
        stack := stack[..|stack| - 1];
        if id in candidates {
          assert forall j :: 0 <= j < |seen| ==> seen[j] in seen;
          return Some(id);
        }
        stack := stack + Reversed(nodes[id].children);
        seen := seen + [id];
      }
      VisitEnd(nodes, root, seen);
      return None;
    }

    /** getElementById: the first node in tree order with that id. */
    method GetElementById(id: string) returns (r: Option<NodeId>)
      requires Valid()
      ensures r == if id == "" then None else FirstWithId(nodes, DocumentOrder(nodes, root), id)
    {
      hide Tree, Flags, Index, IdCached, UiLive, Journal, Replayed, Logged, FirstWithId, DocumentOrder;
      if id in nodesToId { EntryBears(nodes, nodesToId, id); }
      if id != "" { OnlyBearer(nodes, root, nodesToId, id); }
      if id !in nodesToId { return None; }
      var entry := nodesToId[id];
      if |entry| == 1 { return Some(entry[0]); }
      r := FirstInTreeOrder(entry);
      AmongBearers(nodes, root, nodesToId, id, r);
    }

    // -------------------------------------------------------------- snapshots

    /** Snapshots a styled node ahead of a change. */
    method SnapshotNode(x: NodeId, captureAttrs: bool)
      requires x in nodes && Journal(nodes, snapshots, flushed, deps)
      modifies `nodes, `snapshots
      ensures Journal(nodes, snapshots, flushed, deps)
      ensures nodes == old(nodes)[x := old(nodes)[x].(hasSnapshot := old(nodes)[x].hasSnapshot || old(nodes)[x].styled)]
      ensures snapshots == if !old(nodes)[x].styled then old(snapshots)
                           else old(snapshots)[x := Snapped(old(nodes)[x], Lookup(old(snapshots), x), captureAttrs)]
    {
      hide Journal;
      if !nodes[x].styled { return; }
      SnapshotFaithful(nodes, snapshots, flushed, deps, x, captureAttrs);
      nodes := nodes[x := nodes[x].(hasSnapshot := true)];
      var needsAttrs := captureAttrs && (x in snapshots ==> snapshots[x].attrs == None);
      var attrs := if needsAttrs then AttrsOf(nodes[x].data) else None;
      if x in snapshots {
        if needsAttrs {
          snapshots := snapshots[x := snapshots[x].(attrs := attrs)];
        }
      } else {
        snapshots := snapshots[x := Snapshot(nodes[x].state, attrs)];
      }
      assert snapshots == old(snapshots)[x := Snapped(old(nodes)[x], Lookup(old(snapshots), x), captureAttrs)];
    }

    /** Sets or clears state bits of a node, after a state-only snapshot if some
        style rule depends on them. */
    method SnapshotNodeAnd(x: NodeId, bits: set<StateBit>, on: bool)
      requires x in nodes && Journal(nodes, snapshots, flushed, deps)
      modifies `nodes, `snapshots
      ensures Journal(nodes, snapshots, flushed, deps)
      ensures nodes.Keys == old(nodes).Keys && forall y :: y in nodes && y != x ==> nodes[y] == old(nodes)[y]
      ensures nodes[x] == old(nodes)[x].(state := Flipped(old(nodes)[x], bits, on), hasSnapshot := nodes[x].hasSnapshot)
      ensures snapshots == if old(nodes)[x].styled && bits * deps != {}
                           then old(snapshots)[x := Snapped(old(nodes)[x], Lookup(old(snapshots), x), false)] else old(snapshots)
      ensures nodes[x].hasSnapshot == (old(nodes)[x].hasSnapshot || (old(nodes)[x].styled && bits * deps != {}))
    {
      hide Journal, Flipped, Snapped;
      ghost var a := nodes;
      if bits * deps != {} {
        SnapshotNode(x, false);
      }
      ToggledJournal(a, old(snapshots), flushed, deps, x, bits, on, nodes, snapshots);
      FlippedSame(a[x], nodes[x], bits, on);
      nodes := nodes[x := nodes[x].(state := Flipped(nodes[x], bits, on))];
    }

    /** The same for every node of a path. */
    method ToggleAll(path: seq<NodeId>, bits: set<StateBit>, on: bool)
      requires Journal(nodes, snapshots, flushed, deps) && forall x :: x in path ==> x in nodes
      modifies `nodes, `snapshots
      ensures Journal(nodes, snapshots, flushed, deps)
      ensures Toggled(old(nodes), Members(path), bits, on, nodes) && nodes.Keys == old(nodes).Keys
    {
      hide Journal, Flipped, Toggled;
      ToggledNone(nodes, bits, on);
      assert path[..0] == [] && Members([]) == {};
      for i := 0 to |path|
        invariant Journal(nodes, snapshots, flushed, deps) && nodes.Keys == old(nodes).Keys
        invariant Toggled(old(nodes), Members(path[..i]), bits, on, nodes)
      {
        ghost var b := nodes;
        assert path[i] in path;
        SnapshotNodeAnd(path[i], bits, on);
        ToggledMore(old(nodes), path, i, bits, on, b, nodes);
      }
      assert path[..|path|] == path;
    }

    /** The root-first chain of ancestors of x, x included. */
    method NodeLayoutAncestors(x: NodeId) returns (path: seq<NodeId>)
      requires Tree(nodes, root) && x in nodes
      ensures IsChain(nodes, path, x)
    {
      hide Tree, Above, IsChain, ChainSoFar, ClimbLeft;
      AboveStep(nodes, root, x, x);
      var ancestors := [];
      var current := Some(x);
      ChainStart(nodes, x);
      while current.Some?
        invariant ChainSoFar(nodes, x, Reversed(ancestors), current)
        invariant current.Some? ==> current.value in nodes && Above(nodes, current.value, x)
        decreases ClimbLeft(nodes, current)
      {
        var id := current.value;
        ClimbStep(nodes, root, x, id);
        ChainMore(nodes, x, Reversed(ancestors), id);
        ReversedAppend(ancestors, [id]);
        ReversedOne(id);
        ancestors := ancestors + [id];
        current := nodes[id].parent;
      }
      path := Reversed(ancestors);
      ChainEnd(nodes, x, path);
    }

    method MaybeNodeLayoutAncestors(who: Option<NodeId>) returns (path: seq<NodeId>)
      requires Tree(nodes, root) && (who.Some? ==> who.value in nodes)
      ensures PathOf(nodes, who, path)
    {
      hide Tree, IsChain;
      path := [];
      if who.Some? { path := NodeLayoutAncestors(who.value); }
    }

    // ---------------------------------------------------- hover, active, focus

    /** Moves `bit` from the chain of one node to that of another, leaving their
        common prefix alone. */
    method MoveLight(bit: StateBit, from: Option<NodeId>, to: Option<NodeId>)
      requires Valid() && (from.Some? ==> from.value in nodes) && (to.Some? ==> to.value in nodes)
      modifies `nodes, `snapshots
      ensures Valid() && Restated(old(nodes), nodes) && View(nodes) == View(old(nodes))
      ensures Lit(old(nodes), Kids(old(nodes)), bit, from) ==> Lit(nodes, Kids(nodes), bit, to)
      ensures forall other, who :: other != bit && Lit(old(nodes), Kids(old(nodes)), other, who) ==> Lit(nodes, Kids(nodes), other, who)
      ensures forall x :: x in old(nodes) && (OnChain(old(nodes), from, x) <==> OnChain(old(nodes), to, x)) ==>
        x in nodes && nodes[x] == old(nodes)[x]
      ensures ListsBelow(nodes) <==> old(ListsBelow(nodes))
      ensures OtherBits(old(nodes), {bit}, nodes)
      ensures bit != Focus && bit != FocusRing ==> FocusLit(old(nodes), ui.focus) ==> FocusLit(nodes, ui.focus)
    {
      hide Tree, Flags, Index, IdCached, UiLive, Journal, Replayed, Logged, View, Lit, PathOf, OnChain, Toggled, IsChain,
           Restated, ListsBelow, FocusLit, OtherBits;
      ghost var a := nodes;
      var oldPath := MaybeNodeLayoutAncestors(from);
      var newPath := MaybeNodeLayoutAncestors(to);
      var same := 0;
      while same < |oldPath| && same < |newPath| && oldPath[same] == newPath[same]
        invariant same <= |oldPath| && same <= |newPath| && oldPath[..same] == newPath[..same]
        modifies {}
      {
        same := same + 1;
      }
      PathDifference(a, root, from, oldPath, to, newPath, same);
      ToggleAll(oldPath[same..], {bit}, false);
      ghost var b := nodes;
      ToggleAll(newPath[same..], {bit}, true);
      TogglesCompose(a, Members(oldPath[same..]), {bit}, false, b, Members(newPath[same..]), true, nodes);
      RestatedAll(a, nodes, root, nodesToId, ui, base, records, calls);
      RestatedLists(a, nodes);
      RestatedFocus(a, nodes, bit, ui.focus);
      LightMoved(a, root, bit, from, oldPath, to, newPath, same, b, nodes);
    }

    /** set_hover_to: what a hit test resolved the pointer to, and the scrollbar
        thumb under it. */
    method SetHoverTo(hit: Option<NodeId>, scrollbar: Option<NodeId>) returns (changed: bool)
      requires Valid()
      requires hit.Some? ==> hit.value in nodes && nodes[hit.value].inDoc
      requires scrollbar.Some? ==> scrollbar.value in nodes
      modifies `nodes, `snapshots, `ui
      ensures Valid() && Restated(old(nodes), nodes) && View(nodes) == View(old(nodes))
      ensures changed <==> hit != old(ui).hover || scrollbar != old(ui).scrollbar
      ensures ui == old(ui).(hover := hit, hit := hit, scrollbar := scrollbar, fading := old(ui).fading + Shown(old(ui).scrollbar, scrollbar))
      ensures LitChains(old(nodes), Kids(old(nodes)), old(ui)) ==> LitChains(nodes, Kids(nodes), ui)
      ensures forall x :: x in old(nodes) && (OnChain(old(nodes), old(ui).hover, x) <==> OnChain(old(nodes), hit, x)) ==>
        x in nodes && nodes[x] == old(nodes)[x]
      ensures ListsBelow(nodes) <==> old(ListsBelow(nodes))
      ensures OtherBits(old(nodes), {Hover}, nodes)
      ensures FocusLit(old(nodes), ui.focus) ==> FocusLit(nodes, ui.focus)
    {
      hide Tree, Flags, Index, IdCached, UiLive, Journal, Replayed, Logged, View, Lit, OnChain, Restated, Shown, ListsBelow, FocusLit, OtherBits;
      ghost var a := nodes;
      var scrollbarChanged := scrollbar != ui.scrollbar;
      var shown := {};
      if scrollbarChanged {
        if ui.scrollbar.Some? { shown := shown + {ui.scrollbar.value}; }
        if scrollbar.Some? { shown := shown + {scrollbar.value}; }
      }
      ShownIs(ui.scrollbar, scrollbar);
      UiAlive(nodes, ui);
      HoverLive(nodes, ui, hit, scrollbar, shown);
      ghost var from := ui.hover;
      ui := ui.(scrollbar := scrollbar, fading := ui.fading + shown, hit := hit);
      if hit == ui.hover {
        RestatedSelf(a);
        OtherBitsSelf(a, {Hover});
        return scrollbarChanged;
      }
      MoveLight(Hover, ui.hover, hit);
      ui := ui.(hover := hit);
      RestatedUi(a, nodes, ui);
      return true;
    }

    /** clear_hover: the pointer left the document. */
    method ClearHover() returns (changed: bool)
      requires Valid()
      modifies `nodes, `snapshots, `ui
      ensures Valid() && Restated(old(nodes), nodes) && View(nodes) == View(old(nodes))
      ensures changed <==> old(ui).hover.Some?
      ensures ui == old(ui).(hover := None, hit := None)
      ensures LitChains(old(nodes), Kids(old(nodes)), old(ui)) ==> LitChains(nodes, Kids(nodes), ui)
      ensures ListsBelow(nodes) <==> old(ListsBelow(nodes))
      ensures OtherBits(old(nodes), {Hover}, nodes)
      ensures FocusLit(old(nodes), ui.focus) ==> FocusLit(nodes, ui.focus)
    {
      hide Tree, Flags, Index, IdCached, UiLive, Journal, Replayed, Logged, View, Lit, OnChain, Restated, ListsBelow, FocusLit, OtherBits;
      ghost var a := nodes;
      UiAlive(nodes, ui);
      FewerRefs(nodes, ui, ui.(hit := None));
      FewerRefs(nodes, ui, ui.(hover := None, hit := None));
      ui := ui.(hit := None);
      if ui.hover == None {
        RestatedSelf(a);
        OtherBitsSelf(a, {Hover});
        return false;
      }
      MoveLight(Hover, ui.hover, None);
      ui := ui.(hover := None);
      RestatedUi(a, nodes, ui);
      return true;
    }

    /** unactive_node: the pressed chain is released. */
    method UnactiveNode() returns (was: bool)
      requires Valid()
      modifies `nodes, `snapshots, `ui
      ensures Valid() && Restated(old(nodes), nodes) && View(nodes) == View(old(nodes))
      ensures was <==> old(ui).active.Some?
      ensures ui == old(ui).(active := None)
      ensures LitChains(old(nodes), Kids(old(nodes)), old(ui)) ==> LitChains(nodes, Kids(nodes), ui)
      ensures ListsBelow(nodes) <==> old(ListsBelow(nodes))
      ensures OtherBits(old(nodes), {Active}, nodes)
      ensures FocusLit(old(nodes), ui.focus) ==> FocusLit(nodes, ui.focus)
    {
      hide Tree, Flags, Index, IdCached, UiLive, Journal, Replayed, Logged, View, Lit, OnChain, Restated, ListsBelow, FocusLit, OtherBits;
      ghost var a := nodes;
      UiAlive(nodes, ui);
      FewerRefs(nodes, ui, ui.(active := None));
      var active := ui.active;
      if active == None {
        RestatedSelf(a);
        OtherBitsSelf(a, {Active});
        return false;
      }
      ui := ui.(active := None);
      MoveLight(Active, active, None);
      return true;
    }

    /** active_node: the hovered chain is pressed. */
    method ActiveNode() returns (pressed: bool)
      requires Valid()
      modifies `nodes, `snapshots, `ui
      ensures Valid() && Restated(old(nodes), nodes) && View(nodes) == View(old(nodes))
      ensures pressed <==> old(ui).hover.Some?
      ensures ui == if pressed then old(ui).(active := old(ui).hover) else old(ui)
      ensures LitChains(old(nodes), Kids(old(nodes)), old(ui)) ==> LitChains(nodes, Kids(nodes), ui)
      ensures ListsBelow(nodes) <==> old(ListsBelow(nodes))
      ensures OtherBits(old(nodes), {Active}, nodes)
      ensures FocusLit(old(nodes), ui.focus) ==> FocusLit(nodes, ui.focus)
    {
      hide Tree, Flags, Index, IdCached, UiLive, Journal, Replayed, Logged, View, Lit, OnChain, Restated, ListsBelow, FocusLit, OtherBits;
      ghost var a := nodes;
      UiAlive(nodes, ui);
      RestatedSelf(a);
      OtherBitsSelf(a, {Active});
      var hover := ui.hover;
      if hover == None { return false; }
      if ui.active.Some? {
        if ui.active == hover { return true; }
        var _ := UnactiveNode();
      }
      ghost var b := nodes;
      UiAlive(nodes, ui);
      PressLive(nodes, ui);
      MoveLight(Active, None, hover);
      RestatedTwice(a, b, nodes);
      OtherBitsTwice(a, {Active}, b, nodes);
      ui := ui.(active := hover);
      RestatedUi(b, nodes, ui);
      return true;
    }

    /** set_focus_to: blurs the focused node, then focuses x. */
    method SetFocusTo(x: NodeId) returns (changed: bool)
      requires Valid()
      modifies `nodes, `snapshots, `ui
      ensures Valid() && Restated(old(nodes), nodes) && View(nodes) == View(old(nodes))
      ensures changed <==> x in old(nodes) && old(ui).focus != Some(x)
      ensures ui == if changed then old(ui).(focus := Some(x)) else old(ui)
      ensures FocusLit(old(nodes), old(ui).focus) ==> FocusLit(nodes, ui.focus)
      ensures LitChains(old(nodes), Kids(old(nodes)), old(ui)) ==> LitChains(nodes, Kids(nodes), ui)
      ensures ListsBelow(nodes) <==> old(ListsBelow(nodes))
      ensures forall y, bit :: y in nodes ==>
        (bit in nodes[y].state <==>
         if changed && old(nodes)[y].data.Element? && bit in {Focus, FocusRing} && (y == x || old(ui).focus == Some(y)) then y == x
         else bit in old(nodes)[y].state)
    {
      hide Tree, Flags, Index, IdCached, UiLive, Journal, Replayed, Logged, View, Lit, Restated, Toggled, FocusLit, ListsBelow;
      ghost var a := nodes;
      RestatedSelf(a);
      if x !in nodes || ui.focus == Some(x) { return false; }
      FocusLive(nodes, ui, x);
      var path := if ui.focus.Some? then [ui.focus.value] else [];
      ToggleAll(path, {Focus, FocusRing}, false);
      ghost var b := nodes;
      ToggleAll([x], {Focus, FocusRing}, true);
      TogglesCompose(a, Members(path), {Focus, FocusRing}, false, b, Members([x]), true, nodes);
      FocusMoved(a, ui.focus, path, b, x, nodes, ui);
      RestatedAll(a, nodes, root, nodesToId, ui, base, records, calls);
      RestatedLists(a, nodes);
      ui := ui.(focus := Some(x));
      FocusLive(nodes, old(ui), x);
      return true;
    }

    /** clear_focus: blurs the focused node. */
    method ClearFocus()
      requires Valid()
      modifies `nodes, `snapshots, `ui
      ensures Valid() && Restated(old(nodes), nodes) && View(nodes) == View(old(nodes))
      ensures ui == old(ui).(focus := None)
      ensures FocusLit(old(nodes), old(ui).focus) ==> FocusLit(nodes, None)
      ensures LitChains(old(nodes), Kids(old(nodes)), old(ui)) ==> LitChains(nodes, Kids(nodes), ui)
      ensures ListsBelow(nodes) <==> old(ListsBelow(nodes))
      ensures forall y, bit :: y in nodes ==>
        (bit in nodes[y].state <==>
         bit in old(nodes)[y].state && !(old(nodes)[y].data.Element? && bit in {Focus, FocusRing} && old(ui).focus == Some(y)))
    {
      hide Tree, Flags, Index, IdCached, UiLive, Journal, Replayed, Logged, View, Lit, Restated, Toggled, FocusLit, ListsBelow;
      ghost var a := nodes;
      RestatedSelf(a);
      if ui.focus.Some? {
        var id := ui.focus.value;
        MentionsLive(nodes, ui, id);
        ToggleAll([id], {Focus, FocusRing}, false);
        FocusGone(a, id, nodes, ui);
        RestatedAll(a, nodes, root, nodesToId, ui, base, records, calls);
        RestatedLists(a, nodes);
        FewerRefs(nodes, ui, ui.(focus := None));
        ui := ui.(focus := None);
      }
    }

    /** Event handlers store references to nodes they have just resolved. */
    method Refer(u: Ui)
      requires Valid() && UiLive(nodes, u) && u.hover == ui.hover && u.active == ui.active && u.focus == ui.focus && u.rangeDrag == ui.rangeDrag
      modifies `ui
      ensures Valid() && ui == u
    {
      hide Tree, Flags, Index, IdCached, UiLive, Journal, Replayed, Logged;
      ui := u;
    }

    /** A main-button press on a range slider captures the drag. */
    method StartRangeDrag(n: NodeId)
      requires Valid() && n in nodes
      modifies `ui
      ensures Valid() && ui == old(ui).(rangeDrag := Some(n))
    {
      hide Tree, Flags, Index, IdCached, Journal, Replayed, Logged;
      ui := ui.(rangeDrag := Some(n));
    }

    /** Releasing the button ends it. */
    method EndRangeDrag()
      requires Valid()
      modifies `ui
      ensures Valid() && ui == old(ui).(rangeDrag := None)
    {
      hide Tree, Flags, Index, IdCached, Journal, Replayed, Logged;
      ui := ui.(rangeDrag := None);
    }

    // ------------------------------------------------- checkboxes, radio buttons

    /** Layout builds the input of a node: text fields, checkboxes, radio buttons and
        sliders, by the type attribute. The document stays valid exactly if no styles
        are left depending on a Checked bit this changes. */
    method BuildInput(n: NodeId)
      requires Valid() && n in nodes
      modifies `nodes
      ensures nodes == old(nodes)[n := InputBuilt(old(nodes)[n])]
      ensures Valid() <==> !Untold(old(nodes)[n], n in flushed, n in snapshots, deps)
      ensures ListsBelow(nodes) <==> old(ListsBelow(nodes))
      ensures FocusLit(old(nodes), ui.focus) ==> FocusLit(nodes, ui.focus)
    {
      hide Tree, Flags, Index, IdCached, UiLive, Journal, Replayed, Logged, View, ListsBelow, InputBuilt, Untold, Kids, FocusLit;
      ghost var a := nodes;
      BuiltAll(a, root, n, nodesToId, ui);
      BuiltJournal(a, snapshots, flushed, deps, n);
      BuiltKeeps(a[n]);
      EditedLists(a, n, InputBuilt(a[n]));
      FlushedReplayed(a, a[n := InputBuilt(a[n])], base, records);
      FlushedReplayed(a, a[n := InputBuilt(a[n])], base, calls);
      ConstructInput(n);
      SameFocus(a, nodes, ui.focus);
    }

    method ConstructInput(n: NodeId)
      requires n in nodes
      modifies `nodes
      ensures nodes == old(nodes)[n := InputBuilt(old(nodes)[n])]
    {
      var node := nodes[n];
      if !node.data.Element? { return; }
      var tag := node.data.tag;
      if tag == "input" || tag == "textarea" {
        var kind := Lookup(node.data.attrs, "type");
        if tag == "textarea" || kind in TEXT_TYPES {
          nodes := nodes[n := node.(data := node.data.(special := OtherSpecial))];
        } else if kind == Some("checkbox") || kind == Some("radio") {
          CreateCheckboxInput(n);
        } else if kind == Some("range") {
          nodes := nodes[n := node.(data := node.data.(special := OtherSpecial))];
        }
      }
    }

    /** create_checkbox_input. */
    method CreateCheckboxInput(n: NodeId)
      requires n in nodes && nodes[n].data.Element?
      modifies `nodes
      ensures nodes == old(nodes)[n := CheckboxBuilt(old(nodes)[n])]
    {
      var node := nodes[n];
      if !node.data.special.CheckboxInput? {
        var checked := "checked" in node.data.attrs;
        node := node.(data := node.data.(special := CheckboxInput));
        node := node.(state := if checked then node.state + {Checked} else node.state - {Checked});
        nodes := nodes[n := node];
      }
    }

    /** A press on a checkbox: a built one changes over, after a snapshot. */
    method PressCheckbox(n: NodeId) returns (checked: bool)
      requires Valid() && n in nodes && nodes[n].data.Element?
      modifies `nodes, `snapshots
      ensures Valid() && Restated(old(nodes), nodes) && View(nodes) == View(old(nodes))
      ensures checked <==> old(nodes)[n].data.special.CheckboxInput? && Checked !in old(nodes)[n].state
      ensures forall x :: x in nodes && x != n ==> nodes[x] == old(nodes)[x]
      ensures forall bit :: bit in nodes[n].state <==>
        if bit == Checked && old(nodes)[n].data.special.CheckboxInput? then checked else bit in old(nodes)[n].state
      ensures LitChains(old(nodes), Kids(old(nodes)), ui) ==> LitChains(nodes, Kids(nodes), ui)
      ensures ListsBelow(nodes) <==> old(ListsBelow(nodes))
      ensures nodes[n].hasSnapshot == (old(nodes)[n].hasSnapshot || (old(nodes)[n].styled && Checked in deps))
      ensures FocusLit(old(nodes), ui.focus) ==> FocusLit(nodes, ui.focus)
    {
      hide Tree, Flags, Index, IdCached, UiLive, Journal, Replayed, Logged, View, ListsBelow, Lit, Kids, Flipped, Restated, FocusLit;
      ghost var a := nodes;
      assert {Checked} * deps != {} <==> Checked in deps by { assert Checked in {Checked} * deps <==> Checked in deps; }
      checked := false;
      if nodes[n].data.special.CheckboxInput? {
        checked := Checked !in nodes[n].state;
        SnapshotNodeAnd(n, {Checked}, checked);
        CheckedFlip(a[n], checked);
      } else if {Checked} * deps != {} {
        SnapshotNode(n, false);
      }
      OneRestated(a, n, nodes);
      RestatedAll(a, nodes, root, nodesToId, ui, base, records, calls);
      RestatedLists(a, nodes);
      CheckedLit(a, root, nodes, ui);
      SameFocus(a, nodes, ui.focus);
    }

    /** toggle_radio: of all built inputs of that name, wherever they are, the target
        is checked and the others are not. */
    method ToggleRadio(name: string, target: NodeId)
      requires Valid()
      modifies `nodes, `snapshots
      ensures Valid() && Restated(old(nodes), nodes) && View(nodes) == View(old(nodes))
      ensures forall x :: x in nodes ==>
        var d := old(nodes)[x].data;
        if AttrOf(d, "name") == Some(name) && d.special.CheckboxInput? then Checked in nodes[x].state <==> x == target
        else nodes[x] == old(nodes)[x]
      ensures forall x, bit :: x in nodes && bit != Checked ==> (bit in nodes[x].state <==> bit in old(nodes)[x].state)
      ensures LitChains(old(nodes), Kids(old(nodes)), ui) ==> LitChains(nodes, Kids(nodes), ui)
      ensures ListsBelow(nodes) <==> old(ListsBelow(nodes))
      ensures FocusLit(old(nodes), ui.focus) ==> FocusLit(nodes, ui.focus)
    {
      hide Tree, Flags, Index, IdCached, UiLive, Journal, Replayed, Logged, View, ListsBelow, Lit, Kids, Chosen, Flipped, Restated, FocusLit;
      ghost var a := nodes;
      var radios := set x | x in nodes && nodes[x].data.Element? && AttrOf(nodes[x].data, "name") == Some(name)
                            && nodes[x].data.special.CheckboxInput?;
      ghost var G := radios;
      var left := radios;
      ChosenNone(a, target);
      assert G - left == {};
      while left != {}
        invariant left <= G && Journal(nodes, snapshots, flushed, deps) && nodes.Keys == a.Keys
        invariant Chosen(a, G - left, target, nodes)
      {
        var i :| i in left;
        ghost var b := nodes;
        SnapshotNodeAnd(i, {Checked}, i == target);
        ChosenMore(a, G - left, target, b, i, nodes);
        assert G - (left - {i}) == G - left + {i};
        left := left - {i};
      }
      assert G - {} == G;
      RadioLaw(a, G, target, nodes);
      RestatedAll(a, nodes, root, nodesToId, ui, base, records, calls);
      RestatedLists(a, nodes);
      CheckedLit(a, root, nodes, ui);
      SameFocus(a, nodes, ui.focus);
    }

    /** A press on a radio button: a named one is chosen in its group, a nameless one
        just checked. */
    method PressRadio(n: NodeId)
      requires Valid() && n in nodes && nodes[n].data.Element?
      modifies `nodes, `snapshots
      ensures Valid() && Restated(old(nodes), nodes) && View(nodes) == View(old(nodes))
      ensures old(nodes)[n].data.special.CheckboxInput? ==> Checked in nodes[n].state
      ensures forall x :: x in nodes && x != n ==>
        var d, own := old(nodes)[x].data, AttrOf(old(nodes)[n].data, "name");
        if own.Some? && AttrOf(d, "name") == own && d.special.CheckboxInput? then Checked !in nodes[x].state
        else nodes[x] == old(nodes)[x]
      ensures forall x, bit :: x in nodes && (bit != Checked || (x == n && !old(nodes)[n].data.special.CheckboxInput?)) ==>
        (bit in nodes[x].state <==> bit in old(nodes)[x].state)
      ensures LitChains(old(nodes), Kids(old(nodes)), ui) ==> LitChains(nodes, Kids(nodes), ui)
      ensures ListsBelow(nodes) <==> old(ListsBelow(nodes))
      ensures FocusLit(old(nodes), ui.focus) ==> FocusLit(nodes, ui.focus)
    {
      hide Tree, Flags, Index, IdCached, UiLive, Journal, Replayed, Logged, View, ListsBelow, Lit, Kids, AttrOf, Flipped, FocusLit;
      ghost var a := nodes;
      var name := AttrOf(nodes[n].data, "name");
      if name.Some? {
        ToggleRadio(name.value, n);
      } else {
        if nodes[n].data.special.CheckboxInput? {
          SnapshotNodeAnd(n, {Checked}, true);
          CheckedFlip(a[n], true);
        }
        OneRestated(a, n, nodes);
        RestatedAll(a, nodes, root, nodesToId, ui, base, records, calls);
        RestatedLists(a, nodes);
        CheckedLit(a, root, nodes, ui);
      }
      SameFocus(a, nodes, ui.focus);
    }

    // ------------------------------------------------------------ style flush

    /** The style traversal: `styled` are the nodes with styles afterwards; all
        snapshots are consumed. */
    method FlushStyles(styled: set<NodeId>)
      requires Valid()
      modifies `nodes, `snapshots, `flushed
      ensures Valid() && snapshots == map[] && View(nodes) == View(old(nodes))
      ensures nodes == FlushedArena(old(nodes), styled) && flushed == FlushedNow(nodes)
      ensures ListsBelow(nodes) <==> old(ListsBelow(nodes))
      ensures FocusLit(old(nodes), ui.focus) ==> FocusLit(nodes, ui.focus)
    {
      hide Tree, Flags, Index, IdCached, UiLive, Replayed, Logged, View, FlushedNow, Journal, FlushedArena, Restyled, ListsBelow, FocusLit;
      FlushedAll(nodes, styled, root, nodesToId, ui, snapshots, flushed, deps, base, records, calls);
      nodes := Restyled(nodes, styled);
      ClearSnapshotFlags(old(nodes), styled);
      FlushedLists(old(nodes), styled);
      snapshots := map[];
      flushed := FlushedNow(nodes);
      FlushedFocus(old(nodes), styled, ui.focus);
    }

    /** Every node with a snapshot loses its flag. */
    method ClearSnapshotFlags(ghost a: Arena, ghost styled: set<NodeId>)
      requires nodes == Restyled(a, styled)
      requires forall x :: x in a && a[x].hasSnapshot ==> x in snapshots
      modifies `nodes
      ensures nodes == FlushedArena(a, styled)
    {
      hide Unflagged, Restyled, FlushedArena;
      var left := snapshots.Keys;
      UnflaggedStart(a, styled, left);
      while left != {}
        invariant Unflagged(a, styled, left, nodes)
      {
        var x :| x in left;
        UnflaggedMore(a, styled, left, nodes, x);
        left := left - {x};
        if x in nodes { nodes := nodes[x := nodes[x].(hasSnapshot := false)]; }
      }
      UnflaggedEnd(a, styled, nodes);
    }

    /** Layout rebuilds the derived paint and stacking lists of all nodes. */
    method RebuildPaint(lists: map<NodeId, Lists>)
      requires Valid() && lists.Keys == nodes.Keys
      requires forall x, y :: Listed(lists, x, y) ==> y in nodes
      modifies `nodes
      ensures Valid() && PaintLive(nodes) && Repainted(old(nodes), nodes)
      ensures forall x :: x in nodes ==> nodes[x].paint == lists[x].0 && nodes[x].stacking == lists[x].1
      ensures (forall x, y :: Listed(lists, x, y) ==> Above(old(nodes), x, y)) ==> ListsBelow(nodes)
    {
      hide Tree, Flags, Index, IdCached, UiLive, Journal, Replayed, Logged, View, ListsBelow, PaintLive, Above, Repainted,
           Rebuilt;
      ghost var a := nodes;
      RebuiltFacts(a, lists);
      RepaintedTree(a, Rebuilt(a, lists), root);
      RepaintedKeeps(a, Rebuilt(a, lists), nodesToId, ui, snapshots, flushed, deps);
      FlushedReplayed(a, Rebuilt(a, lists), base, records);
      FlushedReplayed(a, Rebuilt(a, lists), base, calls);
      nodes := Rebuilt(nodes, lists);
    }
  }

  /** The thumbs a change of the hovered one shows again: both. */
  function Shown(before: Option<NodeId>, after: Option<NodeId>): set<NodeId> {
    set o | o in {before, after} && o.Some? && before != after :: o.value
  }

  lemma ShownIs(before: Option<NodeId>, after: Option<NodeId>)
    ensures Shown(before, after) ==
      if before == after then {}
      else (if before.Some? then {before.value} else {}) + (if after.Some? then {after.value} else {})
  {
    assert forall o :: o in {before, after} && o.Some? && before != after ==> o.value in Shown(before, after);
  }

  lemma FewerFlushed(f0: map<NodeId, Flushed>, order: seq<NodeId>, i: nat, f1: map<NodeId, Flushed>, f2: map<NodeId, Flushed>)
    requires i < |order| && f1 == f0 - Members(order[..i]) && f2 == f1 - {order[i]}
    ensures f2 == f0 - Members(order[..i + 1])
  {
    assert order[..i + 1] == order[..i] + [order[i]];
  }

  lemma LoggedMeans(base: map<NodeId, set<NodeId>>, recs: seq<Record>, next: NodeId)
    requires Logged(base, recs, next)
    ensures forall i :: 0 <= i < |recs| ==> recs[i].target != next
  {
  }

  lemma FlippedSame(nd: Node, nd': Node, bits: set<StateBit>, on: bool)
    requires nd'.data == nd.data && nd'.state == nd.state
    ensures Flipped(nd', bits, on) == Flipped(nd, bits, on)
  {
  }

  lemma ChainStart(a: Arena, x: NodeId)
    ensures ChainSoFar(a, x, Reversed([]), Some(x))
  {
  }

  function Restyled(a: Arena, styled: set<NodeId>): Arena {
    map x | x in a :: a[x].(styled := x in styled)
  }

  ghost function FlushedArena(a: Arena, styled: set<NodeId>): Arena {
    map x | x in a :: a[x].(styled := x in styled, hasSnapshot := false)
  }

  /** Restyled, with flags left at most on `left`. */
  ghost predicate Unflagged(a: Arena, styled: set<NodeId>, left: set<NodeId>, b: Arena) {
    && b.Keys == a.Keys
    && forall x :: x in a ==> b[x] == a[x].(styled := x in styled, hasSnapshot := b[x].hasSnapshot) && (b[x].hasSnapshot ==> x in left)
  }

  lemma UnflaggedStart(a: Arena, styled: set<NodeId>, left: set<NodeId>)
    requires forall x :: x in a && a[x].hasSnapshot ==> x in left
    ensures Unflagged(a, styled, left, Restyled(a, styled))
  {
  }

  lemma UnflaggedMore(a: Arena, styled: set<NodeId>, left: set<NodeId>, b: Arena, x: NodeId)
    requires Unflagged(a, styled, left, b)
    ensures Unflagged(a, styled, left - {x}, if x in b then b[x := b[x].(hasSnapshot := false)] else b)
  {
  }

  lemma UnflaggedEnd(a: Arena, styled: set<NodeId>, b: Arena)
    requires Unflagged(a, styled, {}, b)
    ensures b == FlushedArena(a, styled)
  {
  }

  lemma FlushedAll(a: Arena, styled: set<NodeId>, root: NodeId, ix: IdIndex, ui: Ui, snaps: map<NodeId, Snapshot>,
                   was: map<NodeId, Flushed>, deps: set<StateBit>, base: map<NodeId, set<NodeId>>, recs: seq<Record>, calls: seq<Record>)
    requires Tree(a, root) && Flags(a, root) && IdCached(a) && Index(a, ix) && UiLive(a, ui)
    requires Journal(a, snaps, was, deps) && Replayed(a, base, recs) && Replayed(a, base, calls)
    ensures forall x :: x in a && a[x].hasSnapshot ==> x in snaps
    ensures var b := FlushedArena(a, styled);
            && Tree(b, root) && Flags(b, root) && IdCached(b) && Index(b, ix) && UiLive(b, ui) && b.Keys == a.Keys
            && Journal(b, map[], FlushedNow(b), deps) && Replayed(b, base, recs) && Replayed(b, base, calls)
            && View(b) == View(a)
  {
    hide Tree, Flags, IdCached, Index, UiLive, Replayed, View, Faithful;
    var b := FlushedArena(a, styled);
    FlushedTree(a, b, root, ix, ui);
    FlushJournal(b, deps);
    FlushedReplayed(a, b, base, recs);
    FlushedReplayed(a, b, base, calls);
  }

  lemma FlushedFocus(a: Arena, styled: set<NodeId>, focus: Option<NodeId>)
    ensures FocusLit(a, focus) ==> FocusLit(FlushedArena(a, styled), focus)
  {
    SameFocus(a, FlushedArena(a, styled), focus);
  }

  lemma FlushedLists(a: Arena, styled: set<NodeId>)
    ensures ListsBelow(FlushedArena(a, styled)) <==> ListsBelow(a)
  {
    hide ListsBelow;
    assert Kids(FlushedArena(a, styled)) == Kids(a);
    SameLists(a, FlushedArena(a, styled));
  }

  lemma RestatedLists(a: Arena, b: Arena)
    requires Restated(a, b)
    ensures ListsBelow(b) <==> ListsBelow(a)
  {
    hide ListsBelow;
    RestatedKids(a, b);
    SameLists(a, b);
  }

  lemma FlushedReplayed(a: Arena, b: Arena, base: map<NodeId, set<NodeId>>, recs: seq<Record>)
    requires Replayed(a, base, recs) && forall x :: x in b ==> x in a && b[x].children == a[x].children
    ensures Replayed(b, base, recs)
  {
    hide Replay;
  }

  lemma MentionsLive(a: Arena, ui: Ui, x: NodeId)
    requires UiLive(a, ui) && Mentions(ui, x)
    ensures x in a
  {
  }

  lemma RestatedSelf(a: Arena)
    ensures Restated(a, a)
  {
  }

  lemma RestatedTwice(a: Arena, b: Arena, c: Arena)
    requires Restated(a, b) && Restated(b, c)
    ensures Restated(a, c)
  {
  }

  lemma RestatedUi(a: Arena, b: Arena, ui: Ui)
    requires Restated(a, b) && UiLive(a, ui)
    ensures UiLive(b, ui)
  {
    hide Mentions;
  }

  lemma HoverLive(a: Arena, ui: Ui, hit: Option<NodeId>, scrollbar: Option<NodeId>, shown: set<NodeId>)
    requires UiLive(a, ui) && (hit.Some? ==> hit.value in a && a[hit.value].inDoc)
    requires scrollbar.Some? ==> scrollbar.value in a
    requires shown <= (if ui.scrollbar.Some? then {ui.scrollbar.value} else {}) + (if scrollbar.Some? then {scrollbar.value} else {})
    ensures var v := ui.(scrollbar := scrollbar, fading := ui.fading + shown, hit := hit);
            UiLive(a, v) && UiLive(a, v.(hover := hit))
  {
    assert ui.scrollbar.Some? ==> Mentions(ui, ui.scrollbar.value);
    assert forall x :: Mentions(ui.(scrollbar := scrollbar, fading := ui.fading + shown, hit := hit), x) ==>
      Mentions(ui, x) || x in shown || scrollbar == Some(x) || hit == Some(x);
    assert forall x :: Mentions(ui.(scrollbar := scrollbar, fading := ui.fading + shown, hit := hit, hover := hit), x) ==>
      Mentions(ui, x) || x in shown || scrollbar == Some(x) || hit == Some(x);
  }

  lemma FewerRefs(a: Arena, ui: Ui, v: Ui)
    requires UiLive(a, ui)
    requires v.hover in {ui.hover, None} && v.hit in {ui.hit, None} && v.active in {ui.active, None} && v.focus in {ui.focus, None}
    requires v == ui.(hover := v.hover, hit := v.hit, active := v.active, focus := v.focus)
    ensures UiLive(a, v)
  {
    forall x | Mentions(v, x) ensures Mentions(ui, x) { }
  }

  lemma PressLive(a: Arena, ui: Ui)
    requires UiLive(a, ui)
    ensures UiLive(a, ui.(active := ui.hover))
  {
    forall x | Mentions(ui.(active := ui.hover), x) ensures Mentions(ui, x) { }
  }

  lemma FocusLive(a: Arena, ui: Ui, x: NodeId)
    requires UiLive(a, ui) && x in a
    ensures UiLive(a, ui.(focus := Some(x))) && (ui.focus.Some? ==> ui.focus.value in a)
  {
    assert ui.focus.Some? ==> Mentions(ui, ui.focus.value);
    forall y | Mentions(ui.(focus := Some(x)), y) ensures y == x || Mentions(ui, y) { }
  }

  lemma FocusMoved(a: Arena, focus: Option<NodeId>, path: seq<NodeId>, b: Arena, x: NodeId, c: Arena, ui: Ui)
    requires path == (if focus.Some? then [focus.value] else []) && x in a && focus != Some(x)
    requires Toggled(a, Members(path), {Focus, FocusRing}, false, b) && Toggled(b, Members([x]), {Focus, FocusRing}, true, c)
    ensures FocusLit(a, focus) ==> FocusLit(c, Some(x))
    ensures LitChains(a, Kids(a), ui) ==> LitChains(c, Kids(c), ui)
    ensures forall y, bit :: y in c ==>
      (bit in c[y].state <==>
       if a[y].data.Element? && bit in {Focus, FocusRing} && (y == x || focus == Some(y)) then y == x else bit in a[y].state)
  {
    hide Lit;
    RestatedKids(a, b);
    RestatedKids(b, c);
    if LitChains(a, Kids(a), ui) {
      OtherChains(a, Kids(a), Members(path), false, b, ui);
      OtherChains(b, Kids(a), Members([x]), true, c, ui);
    }
  }

  lemma OtherChains(a: Arena, S: Shape, X: set<NodeId>, on: bool, b: Arena, ui: Ui)
    requires Toggled(a, X, {Focus, FocusRing}, on, b) && LitChains(a, S, ui)
    ensures LitChains(b, S, ui)
  {
    hide Lit, Toggled;
    ToggledOther(a, S, X, {Focus, FocusRing}, on, b, Hover, ui.hover);
    ToggledOther(a, S, X, {Focus, FocusRing}, on, b, Active, ui.active);
  }

  lemma FocusGone(a: Arena, id: NodeId, b: Arena, ui: Ui)
    requires Toggled(a, Members([id]), {Focus, FocusRing}, false, b)
    ensures FocusLit(a, Some(id)) ==> FocusLit(b, None)
    ensures Restated(a, b)
    ensures LitChains(a, Kids(a), ui) ==> LitChains(b, Kids(b), ui)
    ensures forall y, bit :: y in b ==>
      (bit in b[y].state <==> bit in a[y].state && !(a[y].data.Element? && bit in {Focus, FocusRing} && y == id))
  {
    hide Lit;
    RestatedKids(a, b);
    if LitChains(a, Kids(a), ui) { OtherChains(a, Kids(a), Members([id]), false, b, ui); }
  }

  type Lists = (Option<seq<NodeId>>, Option<seq<NodeId>>)

  /** The arena with its paint and stacking lists replaced. */
  function Rebuilt(a: Arena, lists: map<NodeId, Lists>): Arena {
    map x | x in a :: if x in lists then a[x].(paint := lists[x].0, stacking := lists[x].1) else a[x]
  }

  ghost predicate Listed(lists: map<NodeId, Lists>, x: NodeId, y: NodeId) {
    x in lists && (ListMember(lists[x].0, y) || ListMember(lists[x].1, y))
  }

  lemma RebuiltFacts(a: Arena, lists: map<NodeId, Lists>)
    requires lists.Keys == a.Keys && forall x, y :: Listed(lists, x, y) ==> y in a
    ensures var b := Rebuilt(a, lists);
            && PaintLive(b) && Repainted(a, b) && b.Keys == a.Keys
            && (forall x :: x in b ==> x in a && b[x].children == a[x].children && b[x].paint == lists[x].0 && b[x].stacking == lists[x].1)
            && ((forall x, y :: Listed(lists, x, y) ==> Above(a, x, y)) ==> ListsBelow(b))
  {
    hide Above, ListsBelow;
    var b := Rebuilt(a, lists);
    forall x, y | x in b && Paints(b[x], y) ensures Listed(lists, x, y) { }
    if forall x, y :: Listed(lists, x, y) ==> Above(a, x, y) { RebuiltBelow(a, b); }
  }

  ghost predicate ListMember(l: Option<seq<NodeId>>, y: NodeId) {
    l.Some? && y in l.value
  }

  lemma CloneSource(a: Arena, n: NodeId)
    requires IdCached(a) && n in a
    ensures a[n].data.Element? ==> a[n].data.id == AttrOf(a[n].data, "id")
  {
  }
}
