/** The focus bits: among elements, exactly the focused one carries them, and what
    every kind of edit does to that. */
module Focusing {
  import opened Shapes
  import opened Nodes
  import opened Edits
  import opened Moves
  import opened Ancestry
  import opened Paint
  import opened Creation
  import opened Keeping
  import opened Journaling

  /** Among elements, exactly the focused one carries the focus bits. */
  ghost predicate FocusLit(a: Arena, focus: Option<NodeId>) {
    forall z :: z in a ==> FocusedAt(a[z], focus == Some(z))
  }

  ghost predicate FocusedAt(nd: Node, focused: bool) {
    nd.data.Element? ==> (Focus in nd.state <==> focused) && (FocusRing in nd.state <==> focused)
  }

  lemma SameFocus(a: Arena, b: Arena, focus: Option<NodeId>)
    requires b.Keys <= a.Keys && forall x :: x in b ==>
      && b[x].data.Element? == a[x].data.Element?
      && (Focus in b[x].state <==> Focus in a[x].state) && (FocusRing in b[x].state <==> FocusRing in a[x].state)
    ensures FocusLit(a, focus) ==> FocusLit(b, focus)
  {
  }

  /** Leaving the document takes the focus bits away. */
  lemma CutFocus(a: Arena, n: NodeId, ui: Ui, heir: Option<NodeId>)
    ensures FocusLit(a, ui.focus) ==> FocusLit(CutArena(a, n, ui.focus), ForgetAll(ui, SubtreeOf(a, n), heir).focus)
  {
    hide SubtreeOf, Minus;
  }

  lemma DropFocus(a: Arena, E: set<NodeId>, from: Option<NodeId>, ui: Ui, heir: Option<NodeId>)
    ensures FocusLit(a, ui.focus) ==> FocusLit(DroppedArena(a, E, from), ForgetAll(ui, E, heir).focus)
  {
    hide Minus, Above, Purged;
    forall nd: Node ensures Purged(nd, E).data == nd.data && Purged(nd, E).state == nd.state { PurgedSame(nd, E); }
  }

  lemma PurgedSame(nd: Node, D: set<NodeId>)
    ensures Purged(nd, D).data == nd.data && Purged(nd, D).state == nd.state
  {
  }

  lemma MovedFocus(a: Arena, ui: Ui, was: map<NodeId, Flushed>, b: Arena, ui': Ui, was': map<NodeId, Flushed>, N: seq<NodeId>)
    requires Moved(a, ui, was, b, ui', was', N)
    ensures FocusLit(a, ui.focus) ==> FocusLit(b, ui'.focus)
    ensures Unselected(ui, Left(a, b), ui')
  {
    hide UnderAny, Unselected;
    ForgetAllUnselects(ui, Left(a, b), None);
    if FocusLit(a, ui.focus) {
      forall z | z in b ensures FocusedAt(b[z], ui'.focus == Some(z)) {
        assert ShiftedNode(a[z], b[z], ui.focus == Some(z)) && FocusedAt(a[z], ui.focus == Some(z));
        assert z in Left(a, b) <==> a[z].inDoc && !b[z].inDoc;
      }
    }
  }

  /** A new node carries no focus bits and is not the focused one. */
  lemma NewFocus(a: Arena, m: NodeId, data: NodeData, state: set<StateBit>, ui: Ui)
    requires UiLive(a, ui) && m !in a
    ensures !(data.Element? && (Focus in state || FocusRing in state)) ==> FocusLit(a, ui.focus) ==> FocusLit(a[m := NewNode(data, state)], ui.focus)
  {
    assert ui.focus.Some? ==> Mentions(ui, ui.focus.value);
  }

  lemma RestatedFocus(a: Arena, b: Arena, bit: StateBit, focus: Option<NodeId>)
    requires Restated(a, b) && OtherBits(a, {bit}, b)
    ensures bit != Focus && bit != FocusRing ==> FocusLit(a, focus) ==> FocusLit(b, focus)
  {
    hide OtherBits, FocusLit;
    if bit != Focus && bit != FocusRing { OtherBitsFocus(a, b, {bit}, focus); }
  }

  lemma OtherBitsFocus(a: Arena, b: Arena, bits: set<StateBit>, focus: Option<NodeId>)
    requires Restated(a, b) && OtherBits(a, bits, b) && Focus !in bits && FocusRing !in bits
    ensures FocusLit(a, focus) ==> FocusLit(b, focus)
  {
  }

  // ------------------------------------------------------------------- cloning

  /** Some node of the tree holds v. */
  ghost predicate Has<T(!new)>(t: Branch<T>, v: T) {
    t.item == v || exists i :: 0 <= i < |t.kids| && Has(t.kids[i], v)
  }

  lemma {:induction false} CopyHas<T(!new)>(S: Shape, L: map<NodeId, T>, n: NodeId, v: T)
    requires Acyclic(S) && L.Keys == S.Keys && n in S
    ensures Has(Copy(S, L, n), v) <==> exists x :: Under(S, n, x) && x in L && L[x] == v
    decreases Rank(S, n)
  {
    hide Acyclic, Under, RankOK;
    ChildrenRank(S, n);
    CopyUnfold(S, L, n);
    CopyAllAt(S, L, S[n]);
    UnderUnfold(S, n, n);
    forall i | 0 <= i < |S[n]|
      ensures Has(Copy(S, L, n).kids[i], v) <==> exists x :: Under(S, S[n][i], x) && x in L && L[x] == v
    {
      EdgeRank(S, n, S[n][i]);
      CopyHas(S, L, S[n][i], v);
    }
    forall x ensures Under(S, n, x) <==> x == n || exists c :: c in S[n] && Under(S, c, x) { UnderUnfold(S, n, x); }
    if x :| Under(S, n, x) && x in L && L[x] == v && x != n {
      var c :| c in S[n] && Under(S, c, x);
      var i :| 0 <= i < |S[n]| && S[n][i] == c;
      assert Has(Copy(S, L, n).kids[i], v);
    }
  }

  /** A state found below n is found below its clone, and conversely. */
  lemma CloneStates(a: Arena, root: NodeId, n: NodeId, b: Arena, m: NodeId, s: set<StateBit>)
    requires Tree(a, root) && Tree(b, root) && n in a && m in b && Copied(a, n, b, m)
    ensures (exists x :: x in a && Above(a, n, x) && StateOf(a)[x] == s) <==> (exists y :: y in b && Above(b, m, y) && StateOf(b)[y] == s)
  {
    hide Tree, Under, RankOK, Copy, OneParent;
    TreeForest(a, root);
    TreeForest(b, root);
    CopyHas(Kids(a), StateOf(a), n, s);
    CopyHas(Kids(b), StateOf(b), m, s);
    forall x | Under(Kids(a), n, x) ensures x in a { UnderLive(Kids(a), n, x); }
    forall y | Under(Kids(b), m, y) ensures y in b { UnderLive(Kids(b), m, y); }
  }

  /** Nothing old hangs below anything new. */
  lemma {:induction false} OldAbove(a: Arena, root: NodeId, b: Arena, x: NodeId, y: NodeId)
    requires Tree(a, root) && Tree(b, root) && Extends(a, b) && Above(b, x, y) && y in a
    ensures x in a
    decreases Depth(b, y)
  {
    hide Tree, Above, Depth;
    AboveStep(b, root, y, x);
    if x != y {
      DepthUp(b, root, y);
      ParentFacts(a, root, y);
      OldAbove(a, root, b, x, b[y].parent.value);
    }
  }

  /** A clone carries the bits of what it is a clone of: the focus bits stay with the
      focused element alone exactly if that is not among the cloned. */
  lemma CloneFocus(a: Arena, root: NodeId, n: NodeId, b: Arena, m: NodeId, focus: Option<NodeId>)
    requires Tree(a, root) && Tree(b, root) && n in a && m in b && m !in a && Extends(a, b) && Copied(a, n, b, m) && NewBelow(a, [m], b)
    requires FocusLit(a, focus) && (focus.Some? ==> focus.value in a)
    ensures FocusLit(b, focus) <==> !(focus.Some? && a[focus.value].data.Element? && Above(a, n, focus.value))
  {
    hide Tree, Above, Copied;
    if focus.Some? && a[focus.value].data.Element? && Above(a, n, focus.value) {
      var s := StateOf(a)[focus.value];
      CloneStates(a, root, n, b, m, s);
      var y :| y in b && Above(b, m, y) && StateOf(b)[y] == s;
      AboveLive(b, m, y);
      if y in a { OldAbove(a, root, b, m, y); }
      assert FocusedAt(a[focus.value], true) && !FocusedAt(b[y], false);
    } else {
      forall y | y in b ensures FocusedAt(b[y], focus == Some(y)) {
        if y in a {
          assert FocusedAt(a[y], focus == Some(y));
        } else {
          var c :| c in [m] && Above(b, c, y);
          UnfocusedClone(a, root, n, b, m, focus, y);
        }
      }
    }
  }

  lemma UnfocusedClone(a: Arena, root: NodeId, n: NodeId, b: Arena, m: NodeId, focus: Option<NodeId>, y: NodeId)
    requires Tree(a, root) && Tree(b, root) && n in a && m in b && Copied(a, n, b, m) && Above(b, m, y)
    requires FocusLit(a, focus) && !(focus.Some? && focus.value in a && a[focus.value].data.Element? && Above(a, n, focus.value))
    ensures y in b && FocusedAt(b[y], false)
  {
    hide Tree, Above, Copied;
    AboveLive(b, m, y);
    if b[y].data.Element? {
      var s := b[y].state;
      CloneStates(a, root, n, b, m, s);
      assert StateOf(b)[y] == s;
      var x :| x in a && Above(a, n, x) && StateOf(a)[x] == s;
      AboveLive(a, n, x);
      assert FocusedAt(a[x], focus == Some(x));
    }
  }
}
