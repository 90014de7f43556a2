/** The edits the mutator makes to the arena, as values, and what they keep. */
module Edits {
  import opened Shapes
  import opened Nodes

  // ------------------------------------------- leaving the document (flags)

  function Blurred(nd: Node): Node {
    if nd.data.Element? then nd.(state := nd.state - {Focus, FocusRing}) else nd
  }

  /** A node that has just left the document; the focused one is blurred. */
  function Unmounted(nd: Node, focused: bool): Node {
    (if focused then Blurred(nd) else nd).(inDoc := false, hasSnapshot := false)
  }

  ghost function UnmountedArena(a: Arena, D: set<NodeId>, focus: Option<NodeId>): Arena {
    map x | x in a :: if x in D then Unmounted(a[x], focus == Some(x)) else a[x]
  }

  /** One visit keeps the lit chain: the bit's owner retreats to the nearest
      in-document element, and the nodes between are not in-document elements. */
  lemma UnmountKeepsLit(a: Arena, S: Shape, bit: StateBit, who: Option<NodeId>, x: NodeId, b: Arena)
    requires Climbs(a, S) && Climbs(b, S) && Rooted(b, S) && Lit(a, S, bit, who)
    requires bit != Focus && bit != FocusRing
    requires a.Keys == b.Keys && forall z :: z in a && z != x ==> b[z] == a[z]
    requires x in b && !b[x].inDoc
    ensures Lit(b, S, bit, if who == Some(x) then Heir(b, S, x) else who)
  {
    if who == Some(x) {
      HeirInDocument(b, S, x);
      forall z | z in b && b[z].inDoc && b[z].data.Element?
        ensures bit in b[z].state <==> Heir(b, S, x).Some? && Under(S, z, Heir(b, S, x).value)
      {
        if Under(S, z, x) {
          HeirNearest(b, S, x, z);
        } else if Heir(b, S, x).Some? && Under(S, z, Heir(b, S, x).value) {
          UnderTrans(S, z, Heir(b, S, x).value, x);
        }
      }
    }
  }

  lemma UnmountKeepsUi(a: Arena, ui: Ui, x: NodeId, S: Shape, b: Arena)
    requires UiLive(a, ui) && x in a && a.Keys == b.Keys && Climbs(b, S)
    requires forall z :: z in a && z != x ==> b[z].inDoc == a[z].inDoc
    requires !b[x].inDoc
    ensures UiLive(b, Forget(ui, x, Heir(b, S, x)))
    ensures !Mentions(Forget(ui, x, Heir(b, S, x)), x)
    ensures forall y :: Mentions(Forget(ui, x, Heir(b, S, x)), y) ==> Mentions(ui, y) || (y in b && b[y].inDoc)
  {
    HeirInDocument(b, S, x);
  }

  lemma IndexEntries(a: Arena, ix: IdIndex)
    requires Index(a, ix)
    ensures Entries(ix)
  {
  }

  lemma UnmountKeepsIndex(a: Arena, ix: IdIndex, x: NodeId, b: Arena, jx: IdIndex)
    requires Index(a, ix) && x in a && a.Keys == b.Keys && !b[x].inDoc
    requires forall z :: z in a ==> b[z].data == a[z].data
    requires forall z :: z in a && z != x ==> b[z].inDoc == a[z].inDoc
    requires Entries(jx)
    requires forall s, y :: Indexed(jx, s, y) <==> Indexed(ix, s, y) && !(y == x && AttrOf(a[x].data, "id") == Some(s))
    ensures Index(b, jx)
  {
    forall s, y ensures Indexed(jx, s, y) <==> Bears(b, s, y) {
      assert Indexed(ix, s, y) <==> Bears(a, s, y);
    }
  }

  /** HOVER and ACTIVE bits match the chains of the hovered and active node. */
  ghost predicate LitChains(a: Arena, S: Shape, ui: Ui) {
    Lit(a, S, Hover, ui.hover) && Lit(a, S, Active, ui.active)
  }

  /** The subtree at n, as S has it, is what the arena holds. */
  ghost predicate Holds(a: Arena, S: Shape, n: NodeId) {
    && Acyclic(S) && n in S
    && forall y :: Under(S, n, y) ==> y in S && y in a && a[y].children == S[y]
  }

  lemma HoldsChild(a: Arena, S: Shape, n: NodeId, c: NodeId)
    requires Holds(a, S, n) && c in S[n]
    ensures c in S && Rank(S, c) < Rank(S, n) && Holds(a, S, c)
  {
    ChildrenRank(S, n);
    ListRankAbove(S, S[n], c);
    forall y | Under(S, c, y) ensures Under(S, n, y) { UnderUnfold(S, n, y); }
  }

  lemma ForgetJournal(a: Arena, snaps: map<NodeId, Snapshot>, was: map<NodeId, Flushed>, deps: set<StateBit>, x: NodeId, nd: Node)
    requires Journal(a, snaps, was, deps) && x in a && !nd.hasSnapshot
    ensures Journal(a[x := nd], snaps - {x}, was - {x}, deps)
    ensures !a[x].hasSnapshot ==> snaps - {x} == snaps
  {
  }

  lemma UnmountedClimbs(a: Arena, S: Shape, x: NodeId, nd: Node)
    requires Climbs(a, S) && x in a && nd.parent == a[x].parent
    ensures Climbs(a[x := nd], S)
    ensures Rooted(a, S) ==> Rooted(a[x := nd], S)
  {
  }

  /** What one visit of process_removed_subtree does to the interaction state. */
  ghost function Forgotten(a: Arena, S: Shape, ui: Ui, x: NodeId): Ui
    requires x in a && Climbs(a, S)
  {
    UnmountedClimbs(a, S, x, a[x].(inDoc := false));
    Forget(ui, x, Heir(a[x := a[x].(inDoc := false)], S, x))
  }

  lemma ForgottenUi(a: Arena, S: Shape, ui: Ui, x: NodeId, c: Arena)
    requires x in a && Climbs(a, S) && UiLive(a, ui)
    requires c == a[x := Unmounted(a[x], ui.focus == Some(x))]
    ensures UiLive(c, Forgotten(a, S, ui, x)) && !Mentions(Forgotten(a, S, ui, x), x)
    ensures Forgotten(a, S, ui, x).focus == Cleared(ui.focus, x)
    ensures forall y :: Mentions(Forgotten(a, S, ui, x), y) ==> Mentions(ui, y) || (y in c && c[y].inDoc)
  {
    hide Heir, Mentions, Climbs;
    var b := a[x := a[x].(inDoc := false)];
    UnmountedClimbs(a, S, x, b[x]);
    UnmountKeepsUi(a, ui, x, S, b);
  }

  lemma ForgottenLit(a: Arena, S: Shape, ui: Ui, x: NodeId, c: Arena)
    requires x in a && Climbs(a, S) && UiLive(a, ui)
    requires c == a[x := Unmounted(a[x], ui.focus == Some(x))]
    ensures Climbs(c, S) && (Rooted(a, S) ==> Rooted(c, S))
    ensures Rooted(a, S) && LitChains(a, S, ui) ==> LitChains(c, S, Forgotten(a, S, ui, x))
  {
    hide Heir, Mentions, Climbs, Rooted;
    var b := a[x := a[x].(inDoc := false)];
    UnmountedClimbs(a, S, x, b[x]);
    UnmountedClimbs(b, S, x, c[x]);
    assert c == b[x := c[x]];
    if Rooted(a, S) && LitChains(a, S, ui) {
      UnmountKeepsLit(a, S, Hover, ui.hover, x, b);
      UnmountKeepsLit(a, S, Active, ui.active, x, b);
    }
  }

  lemma ForgottenRest(a: Arena, ix: IdIndex, snaps: map<NodeId, Snapshot>, was: map<NodeId, Flushed>,
                      deps: set<StateBit>, x: NodeId, c: Arena, jx: IdIndex)
    requires x in a && Index(a, ix) && Entries(jx) && Journal(a, snaps, was, deps)
    requires c == a[x := Unmounted(a[x], true)] || c == a[x := Unmounted(a[x], false)]
    requires forall s, y :: Indexed(jx, s, y) <==> Indexed(ix, s, y) && !(y == x && AttrOf(c[x].data, "id") == Some(s))
    ensures Index(c, jx)
    ensures Journal(c, if a[x].hasSnapshot then snaps - {x} else snaps, was - {x}, deps)
  {
    hide Index, Entries, Indexed, Journal;
    UnmountKeepsIndex(a, ix, x, c, jx);
    ForgetJournal(a, snaps, was, deps, x, c[x]);
  }

  lemma HoldsOrder(a: Arena, S: Shape, n: NodeId)
    requires Holds(a, S, n) && Forest(S)
    ensures NoDup(Preorder(S, n)) && forall y :: y in Preorder(S, n) ==> y in a
  {
    PreorderNoDup(S, n);
    forall y | y in Preorder(S, n) ensures y in a { assert Under(S, n, y); }
  }

  /** Visiting one more node of a repetition-free order. */
  lemma UnmountedMore(a0: Arena, order: seq<NodeId>, i: nat, focus0: Option<NodeId>,
                      a: Arena, focus: Option<NodeId>, b: Arena)
    requires i < |order| && NoDup(order) && forall y :: y in order ==> y in a0
    requires a == UnmountedArena(a0, Members(order[..i]), focus0)
    requires focus == if focus0.Some? && focus0.value in order[..i] then None else focus0
    requires b == a[order[i] := Unmounted(a[order[i]], focus == Some(order[i]))]
    ensures b == UnmountedArena(a0, Members(order[..i + 1]), focus0)
    ensures forall y :: y in order[..i] ==> y in b && !b[y].inDoc
  {
    var x := order[i];
    assert x !in order[..i];
    assert Members(order[..i + 1]) == Members(order[..i]) + {x} by { assert order[..i + 1] == order[..i] + [x]; }
  }

  lemma NotMentioned(order: seq<NodeId>, i: nat, u: Ui, b: Arena, v: Ui)
    requires i < |order| && !Mentions(v, order[i])
    requires forall y :: y in order[..i] ==> !Mentions(u, y) && y in b && !b[y].inDoc
    requires forall y :: Mentions(v, y) ==> Mentions(u, y) || (y in b && b[y].inDoc)
    ensures forall y :: y in order[..i + 1] ==> !Mentions(v, y)
  {
    hide Mentions;
    assert order[..i + 1] == order[..i] + [order[i]];
  }

  // ----------------------------------------------------- entering the document

  ghost function MountedArena(a: Arena, D: set<NodeId>): Arena {
    map x | x in a :: if x in D then a[x].(inDoc := true) else a[x]
  }

  lemma MountedMore(a: Arena, order: seq<NodeId>, i: nat)
    requires i < |order| && order[i] in a
    ensures var b := MountedArena(a, Members(order[..i]));
            b[order[i] := b[order[i]].(inDoc := true)] == MountedArena(a, Members(order[..i + 1]))
  {
    assert order[..i + 1] == order[..i] + [order[i]];
  }

  lemma MountKeeps(a: Arena, ix: IdIndex, ui: Ui, snaps: map<NodeId, Snapshot>, was: map<NodeId, Flushed>,
                   deps: set<StateBit>, x: NodeId, jx: IdIndex)
    requires x in a && Index(a, ix) && Entries(jx) && UiLive(a, ui) && Journal(a, snaps, was, deps)
    requires forall s, y :: Indexed(jx, s, y) <==>
      Indexed(ix, s, y) || (AttrOf(a[x].data, "id") == Some(s) && y == x && s != "")
    ensures var b := a[x := a[x].(inDoc := true)];
            Index(b, jx) && UiLive(b, ui) && Journal(b, snaps, was, deps)
  {
    hide Mentions, Faithful;
    var b := a[x := a[x].(inDoc := true)];
    forall s, y ensures Indexed(jx, s, y) <==> Bears(b, s, y) {
      assert Indexed(ix, s, y) <==> Bears(a, s, y);
    }
  }

  // ------------------------------------------------------------------ freeing

  lemma ForgetNothing(ui: Ui, x: NodeId, heir: Option<NodeId>)
    requires !Mentions(ui, x)
    ensures Forget(ui, x, heir) == ui && ui.focus != Some(x)
  {
    assert ui.fading - {x} == ui.fading;
  }

  lemma HoldsRoot(a: Arena, S: Shape, x: NodeId)
    requires Holds(a, S, x)
    ensures x in S && x in a && a[x].children == S[x] && Under(S, x, x)
    ensures forall c :: c in S[x] ==> c in S
  {
    UnderSelf(S, x);
    ChildrenRank(S, x);
  }

  lemma FewerClimb(a: Arena, S: Shape, D: set<NodeId>)
    requires Climbs(a, S)
    ensures Climbs(a - D, S)
  {
  }

  /** After freeing the root and the first i child subtrees, the next is intact. */
  lemma NextSubtree(a: Arena, S: Shape, x: NodeId, i: nat, b: Arena)
    requires Holds(a, S, x) && Forest(S) && Climbs(a, S) && i < |S[x]|
    requires forall c :: c in S[x] ==> c in S
    requires b == a - Members([x] + PreorderAll(S, S[x][..i]))
    ensures Holds(b, S, S[x][i]) && Climbs(b, S) && Rank(S, S[x][i]) < Rank(S, x)
    ensures forall y :: Under(S, S[x][i], y) ==> Under(S, x, y)
  {
    hide Climbs, RankOK;
    FewerClimb(a, S, Members([x] + PreorderAll(S, S[x][..i])));
    var c := S[x][i];
    forall y | Under(S, c, y) ensures Under(S, x, y) { UnderUnfold(S, x, y); }
    HoldsChild(a, S, x, c);
    forall y | Under(S, c, y) ensures y in S && y in b && b[y].children == S[y] {
      UnderLive(S, c, y);
      if y in PreorderAll(S, S[x][..i]) {
        PreorderAllMember(S, S[x][..i], y);
        var d :| d in S[x][..i] && Under(S, d, y);
        SiblingsApart(S, x, c, d, y);
      }
    }
  }

  // ------------------------------------------- forgetting a whole subtree

  /** Heir, totalised for contracts. */
  ghost function HeirOr(a: Arena, S: Shape, x: NodeId): Option<NodeId> {
    if Climbs(a, S) && x in a then Heir(a, S, x) else None
  }

  function ClearedAll(o: Option<NodeId>, D: set<NodeId>): Option<NodeId> {
    if o.Some? && o.value in D then None else o
  }

  function Inherited(o: Option<NodeId>, D: set<NodeId>, heir: Option<NodeId>): Option<NodeId> {
    if o.Some? && o.value in D then heir else o
  }

  /** All references into D dropped; hover and active fall back to `heir`. */
  function ForgetAll(ui: Ui, D: set<NodeId>, heir: Option<NodeId>): Ui {
    var unselect := ui.anchor != ClearedAll(ui.anchor, D) || ui.selFocus != ClearedAll(ui.selFocus, D);
    ui.(hover := Inherited(ui.hover, D, heir),
        hit := ClearedAll(ui.hit, D),
        active := Inherited(ui.active, D, heir),
        focus := ClearedAll(ui.focus, D),
        mousedown := ClearedAll(ui.mousedown, D),
        anchor := if unselect then None else ui.anchor,
        selFocus := if unselect then None else ui.selFocus,
        scrollbar := ClearedAll(ui.scrollbar, D),
        drag := if (ui.drag.Panning? && ui.drag.target in D) || (ui.drag.ScrollbarDrag? && ui.drag.thumb in D) then NoDrag else ui.drag,
        fading := ui.fading - D)
  }

  /** The nodes of E are gone: a selection with either endpoint there is cleared
      whole, and so is a drag that works on one of them. */
  ghost predicate Unselected(ui: Ui, E: set<NodeId>, ui': Ui) {
    && (if (exists x :: x in E && (ui.anchor == Some(x) || ui.selFocus == Some(x))) then ui'.anchor == None && ui'.selFocus == None
        else ui'.anchor == ui.anchor && ui'.selFocus == ui.selFocus)
    && (if (exists x :: x in E && (ui.drag == Panning(x) || ui.drag == ScrollbarDrag(x))) then ui'.drag == NoDrag
        else ui'.drag == ui.drag)
  }

  lemma ForgetAllUnselects(ui: Ui, E: set<NodeId>, heir: Option<NodeId>)
    ensures Unselected(ui, E, ForgetAll(ui, E, heir))
  {
  }

  lemma ForgetUnselects(ui: Ui, x: NodeId, heir: Option<NodeId>)
    ensures Unselected(ui, {x}, Forget(ui, x, heir))
  {
  }

  lemma ForgetAllNone(ui: Ui, heir: Option<NodeId>)
    ensures ForgetAll(ui, {}, heir) == ui
  {
    assert ui.fading - {} == ui.fading;
  }

  /** Forgetting one more node, whose heir is the common one if it matters. */
  lemma ForgetAllMore(ui: Ui, D: set<NodeId>, x: NodeId, heir: Option<NodeId>, h: Option<NodeId>)
    requires heir != Some(x) && (ui.hover == Some(x) || ui.active == Some(x) ==> h == heir)
    ensures Forget(ForgetAll(ui, D, heir), x, h) == ForgetAll(ui, D + {x}, heir)
  {
    assert ui.fading - D - {x} == ui.fading - (D + {x});
  }

  /** Forgetting two sets with a common heir outside the second. */
  lemma ForgetAllTwice(ui: Ui, D: set<NodeId>, E: set<NodeId>, heir: Option<NodeId>)
    requires heir.Some? ==> heir.value !in E
    ensures ForgetAll(ForgetAll(ui, D, heir), E, heir) == ForgetAll(ui, D + E, heir)
  {
    assert ui.fading - D - E == ui.fading - (D + E);
  }

  /** z is a proper ancestor of x. */
  ghost predicate Over(S: Shape, z: NodeId, x: NodeId) {
    Acyclic(S) && z in S && z != x && Under(S, z, x)
  }

  lemma OverParent(S: Shape, p: NodeId, x: NodeId, z: NodeId)
    requires Acyclic(S) && p in S && x in S[p]
    ensures Over(S, p, x) && (Over(S, z, p) ==> Over(S, z, x))
  {
    hide RankOK, Under;
    EdgeRank(S, p, x);
    UnderSelf(S, x);
    UnderUnfold(S, p, x);
    if Over(S, z, p) {
      UnderLive(S, z, p);
      UnderDown(S, z, p, x);
    }
  }

  /** The heir depends on the proper ancestors only. */
  lemma {:induction false} HeirFrame(a: Arena, b: Arena, S: Shape, x: NodeId)
    requires Climbs(a, S) && Climbs(b, S) && x in a && x in b && b[x].parent == a[x].parent
    requires forall z :: Over(S, z, x) ==>
      (z in a <==> z in b) && (z in a ==> b[z].parent == a[z].parent && b[z].inDoc == a[z].inDoc && b[z].data == a[z].data)
    ensures Heir(b, S, x) == Heir(a, S, x)
    decreases TheRank(S).top - Rank(S, x)
  {
    hide RankOK, Under, Over;
    if a[x].parent.Some? {
      var p := a[x].parent.value;
      EdgeRank(S, p, x);
      assert Rank(S, p) <= TheRank(S).top by { RankTop(S, p); }
      forall z ensures Over(S, p, x) && (Over(S, z, p) ==> Over(S, z, x)) { OverParent(S, p, x, z); }
      if p in a && !(a[p].data.Element? && a[p].inDoc) { HeirFrame(a, b, S, p); }
    }
  }

  lemma RankTop(S: Shape, x: NodeId)
    requires Acyclic(S) && x in S
    ensures Rank(S, x) <= TheRank(S).top
  {
  }

  /** Nobody above is in the document: nobody inherits. */
  lemma {:induction false} HeirNone(a: Arena, S: Shape, x: NodeId)
    requires Climbs(a, S) && x in a && forall z :: Over(S, z, x) && z in a ==> !a[z].inDoc
    ensures Heir(a, S, x) == None
    decreases TheRank(S).top - Rank(S, x)
  {
    hide RankOK, Under, Over;
    if a[x].parent.Some? {
      var p := a[x].parent.value;
      EdgeRank(S, p, x);
      assert Rank(S, p) <= TheRank(S).top by { RankTop(S, p); }
      forall z ensures Over(S, p, x) && (Over(S, z, p) ==> Over(S, z, x)) { OverParent(S, p, x, z); }
      if p in a { HeirNone(a, S, p); }
    }
  }

  /** Below n everybody on the way down to x has left: x and n have the same heir. */
  lemma {:induction false} HeirThrough(a: Arena, S: Shape, n: NodeId, x: NodeId)
    requires Climbs(a, S) && Rooted(a, S) && n in a && x in a && n in S && Under(S, n, x)
    requires forall z :: Over(S, z, x) && Under(S, n, z) ==> z in a && !a[z].inDoc
    ensures Heir(a, S, x) == Heir(a, S, n)
    decreases TheRank(S).top - Rank(S, x)
  {
    hide RankOK, Under, Over;
    if x != n {
      var p := UnderUp(S, n, x);
      EdgeRank(S, p, x);
      assert Rank(S, p) <= TheRank(S).top by { RankTop(S, p); }
      forall z ensures Over(S, p, x) && (Over(S, z, p) ==> Over(S, z, x)) { OverParent(S, p, x, z); }
      assert a[x].parent == Some(p) && p in a;
      HeirThrough(a, S, n, p);
    }
  }

  /** In preorder every node but the first comes after a parent of it. */
  lemma {:induction false} ParentFirst(S: Shape, n: NodeId, i: nat)
    requires Acyclic(S) && n in S && 0 < i < |Preorder(S, n)|
    ensures exists j :: 0 <= j < i && Preorder(S, n)[j] in S && Preorder(S, n)[i] in S[Preorder(S, n)[j]]
    decreases Rank(S, n), 1, 0
  {
    ChildrenRank(S, n);
    var all := PreorderAll(S, S[n]);
    ParentFirstAll(S, S[n], i - 1);
    if all[i - 1] in S[n] {
      assert Preorder(S, n)[0] == n;
    } else {
      var j :| 0 <= j < i - 1 && all[j] in S && all[i - 1] in S[all[j]];
      assert Preorder(S, n)[j + 1] == all[j];
    }
  }

  lemma {:induction false} ParentFirstAll(S: Shape, cs: seq<NodeId>, i: nat)
    requires Acyclic(S) && (forall c :: c in cs ==> c in S) && i < |PreorderAll(S, cs)|
    ensures PreorderAll(S, cs)[i] in cs ||
      exists j :: 0 <= j < i && PreorderAll(S, cs)[j] in S && PreorderAll(S, cs)[i] in S[PreorderAll(S, cs)[j]]
    decreases ListRank(S, cs), 0, |cs|
  {
    hide RankOK;
    var all, u, v := PreorderAll(S, cs), Preorder(S, cs[0]), PreorderAll(S, cs[1..]);
    assert all == u + v;
    ListRankAbove(S, cs, cs[0]);
    if i == 0 {
      assert u[0] == cs[0];
    } else if i < |u| {
      ParentFirst(S, cs[0], i);
      var j :| 0 <= j < i && u[j] in S && u[i] in S[u[j]];
      assert all[j] == u[j];
    } else {
      ParentFirstAll(S, cs[1..], i - |u|);
      if v[i - |u|] !in cs[1..] {
        var j :| 0 <= j < i - |u| && v[j] in S && v[i - |u|] in S[v[j]];
        assert all[j + |u|] == v[j];
      }
    }
  }

  /** All ancestors inside the walk have been visited before. */
  lemma {:induction false} AncestorsFirst(S: Shape, n: NodeId, i: nat, z: NodeId)
    requires Forest(S) && n in S && i < |Preorder(S, n)| && Over(S, z, Preorder(S, n)[i]) && Under(S, n, z)
    ensures z in Preorder(S, n)[..i]
    decreases i
  {
    hide RankOK, Under, Preorder;
    var order := Preorder(S, n);
    PreorderHead(S, n);
    if i == 0 {
      UnderLive(S, z, n);
      UnderLive(S, n, z);
      assert false;
    } else {
      ParentFirst(S, n, i);
      var j :| 0 <= j < i && order[j] in S && order[i] in S[order[j]];
      if z == order[j] {
        assert z in order[..i];
      } else {
        UnderParent(S, z, order[i], order[j]);
        AncestorsFirst(S, n, j, z);
      }
    }
  }

  lemma PreorderHead(S: Shape, n: NodeId)
    requires Acyclic(S) && n in S
    ensures Preorder(S, n) != [] && Preorder(S, n)[0] == n
  {
  }

  /** Whoever may still inherit: the links below are those of S, or nobody above n
      is in the document. */
  ghost predicate Heritable(a: Arena, S: Shape, n: NodeId) {
    Rooted(a, S) || forall z :: Over(S, z, n) && z in a ==> !a[z].inDoc
  }

  /** At every visit of the walk the heir is the heir of the subtree's root. */
  lemma VisitHeir(a0: Arena, S: Shape, n: NodeId, i: nat, f: Option<NodeId>, a: Arena)
    requires Holds(a0, S, n) && Forest(S) && Climbs(a0, S) && Heritable(a0, S, n) && i < |Preorder(S, n)|
    requires a == UnmountedArena(a0, Members(Preorder(S, n)[..i]), f) && Climbs(a, S)
    ensures Preorder(S, n)[i] in a && n in a0 && HeirOr(a, S, Preorder(S, n)[i]) == HeirOr(a0, S, n)
    ensures HeirOr(a0, S, n).Some? ==> !Under(S, n, HeirOr(a0, S, n).value)
  {
    hide RankOK, Preorder, Climbs, Heir, Over, OneParent, Unmounted, Members, Rooted, Under;
    var order := Preorder(S, n);
    var x := order[i];
    HoldsRoot(a0, S, n);
    UnmountedNodes(a0, order[..i], f);
    assert Under(S, n, x) && x in a0 by { HoldsMember(a0, S, n, i); }
    forall z | Over(S, z, x) && Under(S, n, z) ensures z in a && !a[z].inDoc { AncestorsFirst(S, n, i, z); HoldsNode(a0, S, n, z); }
    forall z | Over(S, z, n) ensures z !in order[..i] { NotBelow(S, n, order, i, z); }
    HeirFrame(a0, a, S, n);
    HeirOutside(a0, S, n);
    if Rooted(a0, S) {
      UnmountedRooted(a0, a, S);
      HeirThrough(a, S, n, x);
    } else {
      HeirNone(a0, S, n);
      forall z | Over(S, z, x) && z in a ensures !a[z].inDoc { AboveOrBelow(S, n, x, z); }
      HeirNone(a, S, x);
    }
  }

  lemma UnmountedNodes(a: Arena, seen: seq<NodeId>, f: Option<NodeId>)
    ensures var b := UnmountedArena(a, Members(seen), f);
            && b.Keys == a.Keys
            && (forall x :: x in a ==> b[x].parent == a[x].parent && b[x].data == a[x].data)
            && (forall x :: x in a ==> b[x].inDoc == (a[x].inDoc && x !in seen))
  {
  }

  lemma UnmountedRooted(a: Arena, b: Arena, S: Shape)
    requires Rooted(a, S) && b.Keys == a.Keys && forall x :: x in a ==> b[x].parent == a[x].parent
    ensures Rooted(b, S)
  {
  }

  lemma HoldsMember(a: Arena, S: Shape, n: NodeId, i: nat)
    requires Holds(a, S, n) && i < |Preorder(S, n)|
    ensures Under(S, n, Preorder(S, n)[i]) && Preorder(S, n)[i] in a
  {
    hide Preorder;
    assert Under(S, n, Preorder(S, n)[i]);
  }

  lemma HoldsNode(a: Arena, S: Shape, n: NodeId, z: NodeId)
    requires Holds(a, S, n) && Under(S, n, z)
    ensures z in a
  {
  }

  lemma NotBelow(S: Shape, n: NodeId, order: seq<NodeId>, i: nat, z: NodeId)
    requires Acyclic(S) && n in S && order == Preorder(S, n) && i <= |order| && Over(S, z, n)
    ensures z !in order[..i] && !Under(S, n, z)
  {
    hide RankOK, Preorder;
    UnderLive(S, z, n);
    if z in order { assert Under(S, n, z); UnderLive(S, n, z); }
  }

  lemma HeirOutside(a: Arena, S: Shape, n: NodeId)
    requires Climbs(a, S) && n in a
    ensures Heir(a, S, n).Some? ==> !Under(S, n, Heir(a, S, n).value)
  {
    hide RankOK, Preorder, Under;
    HeirInDocument(a, S, n);
    if Heir(a, S, n).Some? {
      UnderLive(S, Heir(a, S, n).value, n);
      if Under(S, n, Heir(a, S, n).value) { UnderLive(S, n, Heir(a, S, n).value); }
    }
  }

  lemma AboveOrBelow(S: Shape, n: NodeId, x: NodeId, z: NodeId)
    requires Forest(S) && n in S && Under(S, n, x) && Over(S, z, x)
    ensures Over(S, z, n) || Under(S, n, z)
  {
    hide RankOK, Under, OneParent;
    Nested(S, n, z, x);
    if z == n { UnderSelf(S, n); }
  }

  /** What a visit does to the interaction state, in terms of the arena before. */
  lemma ForgottenIs(a: Arena, S: Shape, ui: Ui, x: NodeId)
    requires x in a && Climbs(a, S)
    ensures Forgotten(a, S, ui, x) == Forget(ui, x, HeirOr(a, S, x))
  {
    hide Heir, Climbs, Forget, RankOK, Under;
    UnmountedClimbs(a, S, x, a[x].(inDoc := false));
    HeirFrame(a, a[x := a[x].(inDoc := false)], S, x);
  }

  /** One node forgotten: everything at once. */
  lemma ForgottenAll(a: Arena, S: Shape, ui: Ui, x: NodeId, ix: IdIndex, snaps: map<NodeId, Snapshot>, was: map<NodeId, Flushed>,
                     deps: set<StateBit>, c: Arena, jx: IdIndex)
    requires x in a && Climbs(a, S) && Index(a, ix) && UiLive(a, ui) && Journal(a, snaps, was, deps) && Entries(jx)
    requires c == a[x := Unmounted(a[x], ui.focus == Some(x))]
    requires forall s, y :: Indexed(jx, s, y) <==> Indexed(ix, s, y) && !(y == x && AttrOf(c[x].data, "id") == Some(s))
    ensures var v := Forget(ui, x, HeirOr(a, S, x));
            && Index(c, jx) && UiLive(c, v) && Journal(c, if a[x].hasSnapshot then snaps - {x} else snaps, was - {x}, deps)
            && Climbs(c, S) && (Rooted(a, S) ==> Rooted(c, S))
            && (Rooted(a, S) && LitChains(a, S, ui) ==> LitChains(c, S, v))
            && v.focus == Cleared(ui.focus, x) && !Mentions(v, x)
            && (forall y :: Mentions(v, y) ==> Mentions(ui, y) || (y in c && c[y].inDoc))
  {
    hide Index, Entries, Indexed, UiLive, Journal, Climbs, Rooted, LitChains, Mentions, HeirOr, Forget, Forgotten, Unmounted;
    ForgottenIs(a, S, ui, x);
    ForgottenUi(a, S, ui, x, c);
    ForgottenLit(a, S, ui, x, c);
    ForgottenRest(a, ix, snaps, was, deps, x, c, jx);
  }

  /** One more visit of the walk forgets one more node, with the common heir. */
  lemma VisitForgets(a0: Arena, S: Shape, n: NodeId, i: nat, f: Option<NodeId>, a: Arena, ui0: Ui, ui: Ui, v: Ui)
    requires Holds(a0, S, n) && Forest(S) && Climbs(a0, S) && i < |Preorder(S, n)|
    requires a == UnmountedArena(a0, Members(Preorder(S, n)[..i]), f) && Climbs(a, S) && Preorder(S, n)[i] in a
    requires v == Forget(ui, Preorder(S, n)[i], HeirOr(a, S, Preorder(S, n)[i]))
    requires Heritable(a0, S, n) ==> ui == ForgetAll(ui0, Members(Preorder(S, n)[..i]), HeirOr(a0, S, n))
    ensures Heritable(a0, S, n) ==> v == ForgetAll(ui0, Members(Preorder(S, n)[..i + 1]), HeirOr(a0, S, n))
  {
    hide Holds, RankOK, Preorder, Climbs, HeirOr, OneParent, UnmountedArena, Heritable, Forget, ForgetAll, Under, Acyclic;
    HoldsRoot(a0, S, n);
    if Heritable(a0, S, n) {
      VisitHeir(a0, S, n, i, f, a);
      var x := Preorder(S, n)[i];
      HoldsMember(a0, S, n, i);
      ForgetAllMore(ui0, Members(Preorder(S, n)[..i]), x, HeirOr(a0, S, n), HeirOr(a, S, x));
      assert Preorder(S, n)[..i + 1] == Preorder(S, n)[..i] + [x];
      assert Members(Preorder(S, n)[..i + 1]) == Members(Preorder(S, n)[..i]) + {x};
    }
  }
}
