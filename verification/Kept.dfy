/** What tree operations leave alone: node fields, interaction references and
    flush-time records outside the subtrees they move. */
module Keeping {
  import opened Shapes
  import opened Nodes
  import opened Edits
  import opened Moves
  import opened Ancestry
  import opened Paint
  import opened Inserts
  import opened Placement

  /** The nodes that were in the document in a and are not in b. */
  ghost function Left(a: Arena, b: Arena): set<NodeId> {
    set x | x in a && a[x].inDoc && x in b && !b[x].inDoc
  }

  /** nd after nd0 up to links and flags, and what leaving the document does. */
  ghost predicate ShiftedNode(nd0: Node, nd: Node, focused: bool) {
    nd == (if nd0.inDoc && !nd.inDoc then Unmounted(nd0, focused) else nd0)
          .(parent := nd.parent, children := nd.children, inDoc := nd.inDoc)
  }

  /** b differs from a in links and flags, and in what leaving the document does. */
  ghost predicate Shifted(a: Arena, b: Arena, focus: Option<NodeId>) {
    b.Keys == a.Keys && forall x :: x in a ==> ShiftedNode(a[x], b[x], focus == Some(x))
  }

  // ------------------------------------------------------ attaching, in steps

  /** Along the way up from the target all flags are the target's. */
  lemma {:induction false} FlagsAbove(a: Arena, S: Shape, root: NodeId, skip: set<NodeId>, P: NodeId, z: NodeId)
    requires Forest(S) && EdgeFlags(a, S, root, skip) && P in S && z in S && Under(S, z, P)
    requires forall c :: c in skip ==> !Within(S, c, P)
    ensures z in a && P in a && a[z].inDoc == a[P].inDoc
    decreases Rank(S, z)
  {
    hide RankOK, Under, OneParent;
    UnderUnfold(S, z, P);
    if z != P {
      var c :| c in S[z] && Under(S, c, P);
      EdgeRank(S, z, c);
      FlagsAbove(a, S, root, skip, P, c);
    }
  }

  /** Below a child to be linked all flags are the child's. */
  lemma {:induction false} FlagsBelow(a: Arena, S: Shape, root: NodeId, skip: set<NodeId>, c: NodeId, x: NodeId)
    requires Forest(S) && EdgeFlags(a, S, root, skip) && c in S && Under(S, c, x)
    requires forall d :: d in skip ==> !Over(S, c, d)
    ensures x in a && c in a && a[x].inDoc == a[c].inDoc
    decreases TheRank(S).top - (UnderLive(S, c, x); Rank(S, x))
  {
    hide RankOK, Under, OneParent;
    UnderLive(S, c, x);
    if x != c {
      var p := UnderUp(S, c, x);
      EdgeRank(S, p, x);
      RankTop(S, p);
      FlagsBelow(a, S, root, skip, c, p);
      assert Over(S, c, x);
    }
  }

  /** Flags move one way only: everything enters the document, or everything leaves. */
  ghost predicate OneWay(e: Arena, P: NodeId, a: Arena) {
    && a.Keys == e.Keys && P in e
    && (if e[P].inDoc then forall x :: x in e && e[x].inDoc ==> a[x].inDoc
        else forall x :: x in e && a[x].inDoc ==> e[x].inDoc)
  }

  /** What has happened to nodes, interaction state and flush records so far. */
  ghost predicate Progress(e: Arena, P: NodeId, ui0: Ui, was0: map<NodeId, Flushed>, a: Arena, ui: Ui, was: map<NodeId, Flushed>) {
    && OneWay(e, P, a) && Shifted(e, a, ui0.focus)
    && ui == ForgetAll(ui0, Left(e, a), None) && was == was0 - Left(e, a)
  }

  lemma ProgressNone(e: Arena, P: NodeId, ui: Ui, was: map<NodeId, Flushed>)
    requires P in e
    ensures Progress(e, P, ui, was, e, ui, was)
  {
    assert Left(e, e) == {};
    ForgetAllNone(ui, None);
    assert was - {} == was;
  }

  /** The subtree of the next child is uniform, and nobody above it would inherit. */
  lemma LinkUniform(e: Arena, S: Shape, root: NodeId, P: NodeId, N: seq<NodeId>, i: nat, a: Arena)
    requires i < |N| && Attachable(e, S, root, P, N) && EdgeFlags(a, S, root, Members(N[i..])) && Forest(S) && N[i] in S && N[i] in a && P in a
    ensures forall x :: x in Members(Preorder(S, N[i])) ==> x in a && a[x].inDoc == a[N[i]].inDoc
    ensures !a[P].inDoc ==> forall z :: Over(S, z, N[i]) && z in a ==> !a[z].inDoc
  {
    hide Attachable, EdgeFlags, RankOK, Under, OneParent, NoDup, Within, Climbs, Holds, Preorder, Over;
    AttachableMeans(e, S, root, P, N);
    var c := N[i];
    forall d | d in Members(N[i..]) ensures d in N && !Within(S, d, P) && !Over(S, c, d) {
      assert d in N[i..] && d in N;
      SiblingNotOver(S, P, c, d);
    }
    forall x | x in Members(Preorder(S, c)) ensures x in a && a[x].inDoc == a[c].inDoc {
      assert Under(S, c, x) by { WithinMeans(S, c); WithinUnder(S, c, x); }
      FlagsBelow(a, S, root, Members(N[i..]), c, x);
    }
    forall z | Over(S, z, c) && z in a && !a[P].inDoc ensures !a[z].inDoc {
      OverChild(S, P, c, z);
      FlagsAbove(a, S, root, Members(N[i..]), P, z);
    }
  }

  lemma WithinUnder(S: Shape, c: NodeId, x: NodeId)
    requires Within(S, c, x)
    ensures Acyclic(S) && c in S && Under(S, c, x)
  {
    hide Under, RankOK;
  }

  lemma SiblingNotOver(S: Shape, P: NodeId, c: NodeId, d: NodeId)
    requires Forest(S) && P in S && c in S[P] && d in S[P] && c in S && d in S
    ensures !Over(S, c, d)
  {
    hide Under, RankOK, OneParent;
    UnderSelf(S, d);
    if Over(S, c, d) {
      SiblingsApart(S, P, c, d, d);
      assert false;
    }
  }

  lemma OverChild(S: Shape, P: NodeId, c: NodeId, z: NodeId)
    requires Forest(S) && P in S && c in S[P] && Over(S, z, c)
    ensures z in S && Under(S, z, P)
  {
    hide Under, RankOK, OneParent;
    UnderParent(S, z, c, P);
  }

  /** One child linked: the progress after its subtree was walked or left alone. */
  lemma ProgressMore(e: Arena, S: Shape, P: NodeId, c: NodeId, ui0: Ui, was0: map<NodeId, Flushed>, a: Arena, ui: Ui, was: map<NodeId, Flushed>,
                     b: Arena, ui': Ui, was': map<NodeId, Flushed>)
    requires Progress(e, P, ui0, was0, a, ui, was) && Acyclic(S) && c in S && c in a && P in a && a[P].inDoc == e[P].inDoc
    requires var a' := a[c := a[c].(parent := Some(P))]; var D := Members(Preorder(S, c));
             if a[P].inDoc && !a[c].inDoc then b == MountedArena(a', D) && ui' == ui && was' == was
             else if !a[P].inDoc && a[c].inDoc then
               && b == UnmountedArena(a', D, ui.focus) && was' == was - D && ui' == ForgetAll(ui, D, None)
               && (forall x :: x in D ==> x in a && a[x].inDoc)
             else b == a' && ui' == ui && was' == was
    ensures Progress(e, P, ui0, was0, b, ui', was')
  {
    hide Preorder, Acyclic, ForgetAll, Unmounted, Shifted, OneWay, Left;
    var D := Members(Preorder(S, c));
    if a[P].inDoc && !a[c].inDoc {
      MountProgress(e, P, c, ui0, a, D, b);
    } else if !a[P].inDoc && a[c].inDoc {
      FocusKept(ui0, Left(e, a));
      UnmountLeft(e, P, c, a, D, ui, b);
      UnmountProgress(e, P, c, ui0, a, D, ui, b);
      ForgetAllTwice(ui0, Left(e, a), D, None);
      assert was0 - Left(e, a) - D == was0 - (Left(e, a) + D);
    } else {
      LinkProgress(e, P, c, ui0, a, b);
    }
  }

  lemma FocusKept(ui0: Ui, D: set<NodeId>)
    ensures ForgetAll(ui0, D, None).focus == ClearedAll(ui0.focus, D)
  {
  }

  lemma LinkProgress(e: Arena, P: NodeId, c: NodeId, ui0: Ui, a: Arena, b: Arena)
    requires OneWay(e, P, a) && Shifted(e, a, ui0.focus) && c in a && b == a[c := a[c].(parent := Some(P))]
    ensures Left(e, b) == Left(e, a) && OneWay(e, P, b) && Shifted(e, b, ui0.focus)
  {
    hide Unmounted;
  }

  lemma MountProgress(e: Arena, P: NodeId, c: NodeId, ui0: Ui, a: Arena, D: set<NodeId>, b: Arena)
    requires OneWay(e, P, a) && Shifted(e, a, ui0.focus) && c in a && e[P].inDoc
    requires b == MountedArena(a[c := a[c].(parent := Some(P))], D)
    ensures Left(e, b) == Left(e, a) && OneWay(e, P, b) && Shifted(e, b, ui0.focus)
  {
    hide ShiftedNode, Left;
    forall x | x in e ensures ShiftedNode(e[x], b[x], ui0.focus == Some(x)) && (e[x].inDoc ==> b[x].inDoc) {
      assert ShiftedNode(e[x], a[x], ui0.focus == Some(x));
      ShiftedEntering(e[x], a[x], ui0.focus == Some(x), Some(P));
    }
    NobodyLeft(e, P, a);
    NobodyLeft(e, P, b);
  }

  lemma NobodyLeft(e: Arena, P: NodeId, a: Arena)
    requires OneWay(e, P, a) && e[P].inDoc
    ensures Left(e, a) == {}
  {
  }

  lemma ShiftedEntering(nd0: Node, nd: Node, focused: bool, p: Option<NodeId>)
    requires ShiftedNode(nd0, nd, focused) && (nd0.inDoc ==> nd.inDoc)
    ensures ShiftedNode(nd0, nd.(parent := p), focused) && ShiftedNode(nd0, nd.(inDoc := true), focused)
    ensures ShiftedNode(nd0, nd.(parent := p).(inDoc := true), focused)
  {
    hide Unmounted;
  }

  lemma UnmountLeft(e: Arena, P: NodeId, c: NodeId, a: Arena, D: set<NodeId>, ui: Ui, b: Arena)
    requires OneWay(e, P, a) && c in a && !e[P].inDoc
    requires b == UnmountedArena(a[c := a[c].(parent := Some(P))], D, ui.focus)
    requires forall x :: x in D ==> x in a && a[x].inDoc
    ensures Left(e, b) == Left(e, a) + D && Left(e, a) !! D
  {
    hide UnmountedArena;
    var a' := a[c := a[c].(parent := Some(P))];
    UnmountedFacts(a', D, ui.focus);
    assert b.Keys == a.Keys && forall x :: x in b ==> b[x].inDoc == (a'[x].inDoc && x !in D);
    LeftMore(e, P, a, D, b);
  }

  lemma LeftMore(e: Arena, P: NodeId, a: Arena, D: set<NodeId>, b: Arena)
    requires OneWay(e, P, a) && !e[P].inDoc && b.Keys == a.Keys && forall x :: x in D ==> x in a && a[x].inDoc
    requires forall x :: x in b ==> b[x].inDoc == (a[x].inDoc && x !in D)
    ensures Left(e, b) == Left(e, a) + D && Left(e, a) !! D
  {
  }

  lemma UnmountProgress(e: Arena, P: NodeId, c: NodeId, ui0: Ui, a: Arena, D: set<NodeId>, ui: Ui, b: Arena)
    requires OneWay(e, P, a) && Shifted(e, a, ui0.focus) && c in a && !e[P].inDoc
    requires ui.focus == ClearedAll(ui0.focus, Left(e, a)) && Left(e, a) !! D
    requires b == UnmountedArena(a[c := a[c].(parent := Some(P))], D, ui.focus)
    requires forall x :: x in D ==> x in a && a[x].inDoc
    ensures OneWay(e, P, b) && Shifted(e, b, ui0.focus)
  {
    hide Left, ShiftedNode, Unmounted;
    forall x | x in e ensures ShiftedNode(e[x], b[x], ui0.focus == Some(x)) && (b[x].inDoc ==> e[x].inDoc) {
      assert ShiftedNode(e[x], a[x], ui0.focus == Some(x)) && (a[x].inDoc ==> e[x].inDoc);
      ShiftedParent(e[x], a[x], ui0.focus == Some(x), Some(P));
      var nd := if x == c then a[x].(parent := Some(P)) else a[x];
      if x in D {
        ShiftedLeaving(e[x], nd, ui0.focus == Some(x));
        assert b[x] == Unmounted(nd, ui.focus == Some(x));
      } else {
        assert b[x] == nd;
      }
    }
  }

  lemma ShiftedParent(nd0: Node, nd: Node, focused: bool, p: Option<NodeId>)
    requires ShiftedNode(nd0, nd, focused)
    ensures ShiftedNode(nd0, nd.(parent := p), focused)
  {
    hide Unmounted;
  }

  lemma ShiftedLeaving(nd0: Node, nd: Node, focused: bool)
    requires ShiftedNode(nd0, nd, focused) && nd0.inDoc && nd.inDoc
    ensures ShiftedNode(nd0, Unmounted(nd, focused), focused) && !Unmounted(nd, focused).inDoc
  {
  }

  // ------------------------------------------------------- which flags may change

  /** Only subtrees of N changed their flag. */
  ghost predicate FlagsWithin(e: Arena, S: Shape, N: seq<NodeId>, b: Arena) {
    b.Keys == e.Keys && forall x :: x in e && b[x].inDoc != e[x].inDoc ==> exists c :: c in N && Within(S, c, x)
  }

  lemma FlagsWithinMore(e: Arena, S: Shape, N: seq<NodeId>, P: NodeId, c: NodeId, a: Arena, f: Option<NodeId>, b: Arena)
    requires FlagsWithin(e, S, N, a) && c in N && Acyclic(S) && c in S && c in a && P in a
    requires var a' := a[c := a[c].(parent := Some(P))];
             b == if a[P].inDoc && !a[c].inDoc then MountedArena(a', Members(Preorder(S, c)))
                  else if !a[P].inDoc && a[c].inDoc then UnmountedArena(a', Members(Preorder(S, c)), f)
                  else a'
    ensures FlagsWithin(e, S, N, b)
  {
    hide Within, Preorder, Acyclic, MountedArena, UnmountedArena;
    LinkEffect(a, S, P, c, f, b);
  }

  /** Seen from before the splice, which only rearranges links. */
  lemma ProgressWhole(whole: Arena, e: Arena, P: NodeId, ui0: Ui, was0: map<NodeId, Flushed>, b: Arena, ui: Ui, was: map<NodeId, Flushed>)
    requires Relinked(whole, e) && Progress(e, P, ui0, was0, b, ui, was)
    ensures Left(whole, b) == Left(e, b) && Shifted(whole, b, ui0.focus)
    ensures ui == ForgetAll(ui0, Left(whole, b), None) && was == was0 - Left(whole, b)
  {
    hide ForgetAll, Unmounted;
    assert Left(whole, b) == Left(e, b);
    forall x | x in whole ensures ShiftedNode(whole[x], b[x], ui0.focus == Some(x)) {
      assert ShiftedNode(e[x], b[x], ui0.focus == Some(x));
      ShiftedFrom(whole[x], e[x], b[x], ui0.focus == Some(x));
    }
  }

  lemma ShiftedFrom(nd0: Node, nd1: Node, nd: Node, focused: bool)
    requires nd1 == nd0.(parent := nd1.parent, children := nd1.children) && ShiftedNode(nd1, nd, focused)
    ensures ShiftedNode(nd0, nd, focused)
  {
  }

  /** The nodes below some of N. */
  ghost function UnderAny(a: Arena, N: seq<NodeId>): set<NodeId> {
    set x | x in a && exists c :: c in N && Above(a, c, x)
  }

  /** Subtrees away from the target are not enlarged by an insertion. */
  lemma {:induction false} PlacedUnder(S: Shape, P: NodeId, i: nat, j: nat, N: seq<NodeId>, y: NodeId, x: NodeId)
    requires P in S && i <= j <= |S[P]| && y in S
    requires Acyclic(S) && Acyclic(PlacedAt(S, P, i, j, N))
    requires !Under(PlacedAt(S, P, i, j, N), y, P) && Under(PlacedAt(S, P, i, j, N), y, x)
    ensures Under(S, y, x)
    decreases Rank(PlacedAt(S, P, i, j, N), y)
  {
    hide RankOK, Under, Minus;
    var T := PlacedAt(S, P, i, j, N);
    UnderSelf(T, y);
    UnderUnfold(T, y, x);
    UnderUnfold(S, y, x);
    if x != y {
      var c :| c in T[y] && Under(T, c, x);
      EdgeRank(T, y, c);
      assert c in S[y];
      ChildrenRank(S, y);
      UnderUnfold(T, y, P);
      PlacedUnder(S, P, i, j, N, c, x);
    }
  }

  /** Flags of an insertion change below the inserted nodes only. */
  lemma PlacedFlags(whole: Arena, root: NodeId, P: NodeId, at: nat, N: seq<NodeId>, b: Arena)
    requires Tree(whole, root) && P in whole && at <= |whole[P].children| && Relinked(whole, Spliced(whole, P, at, N))
    requires var e := Spliced(whole, P, at, N); Attachable(e, Kids(e), root, P, N) && FlagsWithin(e, Kids(e), N, b)
    ensures b.Keys == whole.Keys && forall x :: x in whole && b[x].inDoc != whole[x].inDoc ==> x in UnderAny(whole, N)
  {
    hide Tree, RankOK, Under, Minus, OneParent, NoDup, Spliced, Holds, Climbs, EdgeFlags, Attachable, PlacedAt;
    var e := Spliced(whole, P, at, N);
    var S := Kids(e);
    TreeForest(whole, root);
    SplicedShape(whole, P, at, N);
    AttachableMeans(e, S, root, P, N);
    forall x | x in whole && b[x].inDoc != whole[x].inDoc ensures x in UnderAny(whole, N) {
      assert b[x].inDoc != e[x].inDoc;
      var c :| c in N && Within(S, c, x);
      assert c in whole && !Within(S, c, P);
      PlacedUnder(Kids(whole), P, at, at, N, c, x);
      assert Above(whole, c, x);
    }
  }

  // ------------------------------------------------- what lies outside stays put

  /** Outside X a node keeps everything but its links; inside, it may enter or
      leave the document, and lose its focus. */
  ghost predicate SettledNode(nd0: Node, nd: Node, inside: bool) {
    && nd.data == nd0.data && nd.styled == nd0.styled && nd.paint == nd0.paint && nd.stacking == nd0.stacking
    && (nd.state == nd0.state || (inside && nd.state == Blurred(nd0).state))
    && (inside || (nd.inDoc == nd0.inDoc && nd.hasSnapshot == nd0.hasSnapshot))
  }

  ghost predicate Settled(a: Arena, b: Arena, X: set<NodeId>) {
    b.Keys == a.Keys && forall x :: x in a ==> SettledNode(a[x], b[x], x in X)
  }

  predicate KeptRef(o: Option<NodeId>, o': Option<NodeId>, X: set<NodeId>) {
    o == o' || (o.Some? && o.value in X)
  }

  /** References outside X are kept. */
  predicate UiOutside(u: Ui, v: Ui, X: set<NodeId>) {
    && KeptRef(u.hover, v.hover, X) && KeptRef(u.active, v.active, X) && KeptRef(u.hit, v.hit, X)
    && KeptRef(u.focus, v.focus, X) && KeptRef(u.mousedown, v.mousedown, X) && KeptRef(u.scrollbar, v.scrollbar, X)
    && ((v.anchor == u.anchor && v.selFocus == u.selFocus)
        || (u.anchor.Some? && u.anchor.value in X) || (u.selFocus.Some? && u.selFocus.value in X))
    && (v.drag == u.drag || (u.drag.Panning? && u.drag.target in X) || (u.drag.ScrollbarDrag? && u.drag.thumb in X))
    && u.fading - X <= v.fading <= u.fading && v.rangeDrag == u.rangeDrag
  }

  /** Nothing is recorded anew, and what is recorded of nodes outside X stays. */
  ghost predicate FlushedOutside(was: map<NodeId, Flushed>, was': map<NodeId, Flushed>, X: set<NodeId>) {
    && (forall x :: x in was' ==> x in was && was'[x] == was[x])
    && (forall x :: x in was && x !in X ==> x in was')
  }

  ghost predicate Outside(a: Arena, ui: Ui, was: map<NodeId, Flushed>, b: Arena, ui': Ui, was': map<NodeId, Flushed>, X: set<NodeId>) {
    Settled(a, b, X) && UiOutside(ui, ui', X) && FlushedOutside(was, was', X)
  }

  lemma OutsideNone(a: Arena, ui: Ui, was: map<NodeId, Flushed>, X: set<NodeId>)
    ensures Outside(a, ui, was, a, ui, was, X)
  {
  }

  lemma OutsideTrans(a: Arena, ui: Ui, was: map<NodeId, Flushed>, b: Arena, ui1: Ui, was1: map<NodeId, Flushed>,
                     c: Arena, ui2: Ui, was2: map<NodeId, Flushed>, X: set<NodeId>)
    requires Outside(a, ui, was, b, ui1, was1, X) && Outside(b, ui1, was1, c, ui2, was2, X)
    ensures Outside(a, ui, was, c, ui2, was2, X)
  {
    hide UiOutside, FlushedOutside;
    UiTrans(ui, ui1, ui2, X);
    FlushedTrans(was, was1, was2, X);
  }

  lemma UiTrans(u: Ui, v: Ui, w: Ui, X: set<NodeId>)
    requires UiOutside(u, v, X) && UiOutside(v, w, X)
    ensures UiOutside(u, w, X)
  {
  }

  lemma FlushedTrans(u: map<NodeId, Flushed>, v: map<NodeId, Flushed>, w: map<NodeId, Flushed>, X: set<NodeId>)
    requires FlushedOutside(u, v, X) && FlushedOutside(v, w, X)
    ensures FlushedOutside(u, w, X)
  {
  }

  lemma OutsideMore(a: Arena, ui: Ui, was: map<NodeId, Flushed>, b: Arena, ui': Ui, was': map<NodeId, Flushed>, X: set<NodeId>, Y: set<NodeId>)
    requires Outside(a, ui, was, b, ui', was', X) && X <= Y
    ensures Outside(a, ui, was, b, ui', was', Y)
  {
  }

  lemma ForgottenOutside(ui: Ui, D: set<NodeId>, heir: Option<NodeId>, X: set<NodeId>)
    requires D <= X
    ensures UiOutside(ui, ForgetAll(ui, D, heir), X)
  {
  }

  /** A cut touches the subtree only. */
  lemma CutOutside(a: Arena, n: NodeId, ui: Ui, was: map<NodeId, Flushed>, heir: Option<NodeId>, X: set<NodeId>)
    requires SubtreeOf(a, n) <= X
    ensures Outside(a, ui, was, CutArena(a, n, ui.focus), ForgetAll(ui, SubtreeOf(a, n), heir), was - SubtreeOf(a, n), X)
  {
    hide SubtreeOf, Minus, ForgetAll, UiOutside;
    ForgottenOutside(ui, SubtreeOf(a, n), heir, X);
  }

  /** An insertion touches the inserted subtrees only. */
  lemma ShiftedOutside(a: Arena, b: Arena, ui: Ui, was: map<NodeId, Flushed>, X: set<NodeId>)
    requires Shifted(a, b, ui.focus) && forall x :: x in a && b[x].inDoc != a[x].inDoc ==> x in X
    ensures Outside(a, ui, was, b, ForgetAll(ui, Left(a, b), None), was - Left(a, b), X)
  {
    hide ForgetAll, UiOutside;
    ForgottenOutside(ui, Left(a, b), None, X);
    forall x | x in a ensures SettledNode(a[x], b[x], x in X) { assert ShiftedNode(a[x], b[x], ui.focus == Some(x)); }
  }

  /** The whole effect of an insertion besides the links. */
  ghost predicate Moved(a: Arena, ui: Ui, was: map<NodeId, Flushed>, b: Arena, ui': Ui, was': map<NodeId, Flushed>, N: seq<NodeId>) {
    && Shifted(a, b, ui.focus)
    && ui' == ForgetAll(ui, Left(a, b), None) && was' == was - Left(a, b)
    && forall x :: x in a && b[x].inDoc != a[x].inDoc ==> x in UnderAny(a, N)
  }

  lemma MovedOutside(a: Arena, ui: Ui, was: map<NodeId, Flushed>, b: Arena, ui': Ui, was': map<NodeId, Flushed>, N: seq<NodeId>, X: set<NodeId>)
    requires Moved(a, ui, was, b, ui', was', N) && UnderAny(a, N) <= X
    ensures Outside(a, ui, was, b, ui', was', X)
  {
    hide Shifted, ForgetAll, Outside, UnderAny, Left;
    ShiftedKeys(a, b, ui.focus);
    ShiftedOutside(a, b, ui, was, X);
  }

  lemma ShiftedKeys(a: Arena, b: Arena, f: Option<NodeId>)
    requires Shifted(a, b, f)
    ensures a.Keys == b.Keys
  {
  }

  /** All links set: the insertion as a whole. */
  lemma MovedDone(whole: Arena, root: NodeId, P: NodeId, at: nat, N: seq<NodeId>, ui0: Ui, was0: map<NodeId, Flushed>,
                  b: Arena, ui: Ui, was: map<NodeId, Flushed>)
    requires Tree(whole, root) && P in whole && at <= |whole[P].children|
    requires var e := Spliced(whole, P, at, N);
             Attachable(e, Kids(e), root, P, N) && FlagsWithin(e, Kids(e), N, b) && Progress(e, P, ui0, was0, b, ui, was)
    ensures Moved(whole, ui0, was0, b, ui, was, N)
  {
    hide Tree, Spliced, Attachable, FlagsWithin, Progress, Shifted, Left, ForgetAll, UnderAny, Minus, Kids, PlacedAt;
    SplicedShape(whole, P, at, N);
    PlacedFlags(whole, root, P, at, N, b);
    ProgressWhole(whole, Spliced(whole, P, at, N), P, ui0, was0, b, ui, was);
  }

  // --------------------------------------------------------- freeing all children

  /** Who inherits from the children of p. */
  ghost function HeirBelow(a: Arena, S: Shape, p: NodeId): Option<NodeId> {
    if p in a && a[p].data.Element? && a[p].inDoc then Some(p) else HeirOr(a, S, p)
  }

  /** Every child of a node whose list was taken has the same heir, at any time. */
  lemma TakenHeir(a: Arena, S: Shape, p: NodeId, i: nat, b: Arena)
    requires Acyclic(S) && p in a && Climbs(a, S) && S == Kids(a) && i < |a[p].children| && (forall c :: c in a[p].children ==> c in S)
    requires b == Taken(a, p) - Members(PreorderAll(S, a[p].children[..i])) && Climbs(b, S) && Rooted(b, S)
    requires a[p].children[i] in b
    ensures HeirOr(b, S, a[p].children[i]) == HeirBelow(a, S, p)
    ensures HeirBelow(a, S, p).Some? ==> HeirBelow(a, S, p).value !in Preorder(S, a[p].children[i])
  {
    hide RankOK, Under, Climbs, Rooted, Over, Preorder;
    var c := a[p].children[i];
    EdgeRank(S, p, c);
    forall z | z == p || Over(S, z, p) ensures z !in PreorderAll(S, a[p].children[..i]) && !Under(S, c, z) {
      AboveNotBelow(S, p, i, z);
    }
    HeirFrame(a, b, S, p);
    RootedAt(b, S, p, c);
    HeirUnfold(b, S, c);
    HeirInDocument(a, S, p);
    if Heir(a, S, p).Some? { assert Over(S, Heir(a, S, p).value, p) by { OverMeans(S, Heir(a, S, p).value, p); } }
    NotInOrder(S, c, HeirBelow(a, S, p));
  }

  lemma NotInOrder(S: Shape, c: NodeId, h: Option<NodeId>)
    requires Acyclic(S) && c in S && (h.Some? ==> !Under(S, c, h.value))
    ensures h.Some? ==> h.value !in Preorder(S, c)
  {
    hide Preorder;
  }

  lemma OverMeans(S: Shape, z: NodeId, x: NodeId)
    requires Acyclic(S) && z in S && z != x && Under(S, z, x)
    ensures Over(S, z, x)
  {
    hide Under;
  }

  lemma RootedAt(a: Arena, S: Shape, p: NodeId, c: NodeId)
    requires Rooted(a, S) && p in S && c in S[p] && c in a
    ensures p in a && a[c].parent == Some(p)
  {
  }

  lemma HeirUnfold(a: Arena, S: Shape, x: NodeId)
    requires Climbs(a, S) && x in a && a[x].parent.Some? && a[x].parent.value in a
    ensures var p := a[x].parent.value;
            HeirOr(a, S, x) == if a[p].data.Element? && a[p].inDoc then Some(p) else HeirOr(a, S, p)
  {
    hide RankOK;
  }

  lemma AboveNotBelow(S: Shape, p: NodeId, i: nat, z: NodeId)
    requires Acyclic(S) && p in S && i < |S[p]| && (forall c :: c in S[p] ==> c in S) && (z == p || Over(S, z, p))
    ensures z !in PreorderAll(S, S[p][..i]) && !Under(S, S[p][i], z)
  {
    hide RankOK, Under;
    if z != p { UnderLive(S, z, p); }
    assert z in S && Rank(S, p) <= Rank(S, z);
    if z in PreorderAll(S, S[p][..i]) {
      PreorderAllMember(S, S[p][..i], z);
      var d :| d in S[p][..i] && Under(S, d, z);
      EdgeRank(S, p, d);
      UnderLive(S, d, z);
      assert false;
    }
    EdgeRank(S, p, S[p][i]);
    if Under(S, S[p][i], z) { UnderLive(S, S[p][i], z); }
  }

  /** One more child subtree freed. */
  lemma FreedProgress(ui0: Ui, was0: map<NodeId, Flushed>, D: set<NodeId>, E: set<NodeId>, heir: Option<NodeId>,
                      ui: Ui, was: map<NodeId, Flushed>, ui': Ui, was': map<NodeId, Flushed>)
    requires heir.Some? ==> heir.value !in E
    requires ui == ForgetAll(ui0, D, heir) && was == was0 - D && ui' == ForgetAll(ui, E, heir) && was' == was - E
    ensures ui' == ForgetAll(ui0, D + E, heir) && was' == was0 - (D + E)
  {
    ForgetAllTwice(ui0, D, E, heir);
    assert was0 - D - E == was0 - (D + E);
  }

  /** Linking a child to a parent outside the document: nobody inherits. */
  lemma NoHeir(a: Arena, S: Shape, P: NodeId, c: NodeId)
    requires c in a && Climbs(a[c := a[c].(parent := Some(P))], S)
    requires forall z :: Over(S, z, c) && z in a ==> !a[z].inDoc
    ensures var b := a[c := a[c].(parent := Some(P))]; Heritable(b, S, c) && HeirOr(b, S, c) == None
  {
    hide Over, Climbs;
    HeirNone(a[c := a[c].(parent := Some(P))], S, c);
  }

  lemma WithinNone(e: Arena, S: Shape, N: seq<NodeId>)
    ensures FlagsWithin(e, S, N, e)
  {
  }

  // --------------------------------------------------- composing operations

  lemma UnderAnyMono(a: Arena, N: seq<NodeId>, K: seq<NodeId>)
    requires forall c :: c in N ==> c in K
    ensures UnderAny(a, N) <= UnderAny(a, K)
  {
    hide Above;
  }

  /** Detaching does not enlarge subtrees. */
  lemma DetachedAbove(a: Arena, root: NodeId, b: Arena, M: set<NodeId>, c: NodeId, x: NodeId)
    requires Tree(a, root) && Tree(b, root) && Kids(b) == Detached(Kids(a), M) && Above(b, c, x)
    ensures Above(a, c, x)
  {
    hide Tree, RankOK, Under, Minus, OneParent;
    TreeForest(a, root);
    TreeForest(b, root);
    forall y, d | y in Kids(b) && d in Kids(b)[y] ensures d in Kids(b) && d in Kids(a)[y] { ChildrenRank(Kids(b), y); }
    assert c in Kids(b) && x in Kids(b);
    ThinnerUnder(Kids(b), Kids(a), c, x);
  }

  lemma UnderAnyShrinks(a: Arena, root: NodeId, b: Arena, M: set<NodeId>, N: seq<NodeId>)
    requires Tree(a, root) && Tree(b, root) && Kids(b) == Detached(Kids(a), M)
    ensures UnderAny(b, N) <= UnderAny(a, N)
  {
    hide Tree, Above, Detached;
    forall x | x in UnderAny(b, N) ensures x in UnderAny(a, N) {
      var c :| c in N && Above(b, c, x);
      DetachedAbove(a, root, b, M, c, x);
      AboveLive(a, c, x);
    }
  }

  lemma SubtreeUnderAny(a: Arena, root: NodeId, n: NodeId, N: seq<NodeId>)
    requires Tree(a, root) && n in a && n in N
    ensures SubtreeOf(a, n) <= UnderAny(a, N)
  {
    hide Tree, RankOK, Under, Preorder, OneParent, SubtreeOf;
    TreeForest(a, root);
    SubtreeMeans(a, n);
    forall x | x in SubtreeOf(a, n) ensures x in UnderAny(a, N) {
      UnderLive(Kids(a), n, x);
      assert Above(a, n, x);
    }
  }

  /** An insertion does not enlarge the subtree of the target's own child. */
  lemma PlacedAnchor(a: Arena, root: NodeId, b: Arena, P: NodeId, i: nat, j: nat, N: seq<NodeId>, n: NodeId)
    requires Tree(a, root) && Tree(b, root) && P in a && i <= j <= |a[P].children| && n in a
    requires Kids(b) == PlacedAt(Kids(a), P, i, j, N) && n in b && b[n].parent == Some(P)
    ensures SubtreeOf(b, n) <= UnderAny(a, [n])
  {
    hide Tree, RankOK, Under, Preorder, OneParent, SubtreeOf, PlacedAt;
    TreeForest(a, root);
    TreeForest(b, root);
    ParentFacts(b, root, n);
    SubtreeMeans(b, n);
    EdgeRank(Kids(b), P, n);
    forall x | x in SubtreeOf(b, n) ensures x in UnderAny(a, [n]) {
      if Under(Kids(b), n, P) { UnderLive(Kids(b), n, P); }
      PlacedUnder(Kids(a), P, i, j, N, n, x);
      UnderLive(Kids(a), n, x);
      assert Above(a, n, x);
    }
  }

  /** One more node of a list detached. */
  lemma DetachStep(a: Arena, root: NodeId, ui: Ui, was: map<NodeId, Flushed>, N: seq<NodeId>, i: nat, b: Arena, u: Ui, w: map<NodeId, Flushed>)
    requires Tree(a, root) && Tree(b, root) && i < |N| && N[i] in b && Kids(b) == Detached(Kids(a), Members(N[..i]))
    requires Outside(a, ui, was, b, u, w, UnderAny(a, N))
    ensures Outside(a, ui, was, CutArena(b, N[i], u.focus), ForgetAll(u, SubtreeOf(b, N[i]), HeirOr(b, Kids(b), N[i])),
                    w - SubtreeOf(b, N[i]), UnderAny(a, N))
  {
    hide Tree, Outside, UnderAny, SubtreeOf, CutArena, ForgetAll, HeirOr, Detached;
    SubtreeUnderAny(b, root, N[i], N);
    UnderAnyShrinks(a, root, b, Members(N[..i]), N);
    CutOutside(b, N[i], u, w, HeirOr(b, Kids(b), N[i]), UnderAny(a, N));
    OutsideTrans(a, ui, was, b, u, w, CutArena(b, N[i], u.focus), ForgetAll(u, SubtreeOf(b, N[i]), HeirOr(b, Kids(b), N[i])),
                 w - SubtreeOf(b, N[i]), UnderAny(a, N));
  }

  /** Detaching some nodes, then inserting them. */
  lemma DetachThenMove(a: Arena, root: NodeId, ui: Ui, was: map<NodeId, Flushed>, N: seq<NodeId>, M: set<NodeId>, K: seq<NodeId>,
                       b: Arena, u: Ui, w: map<NodeId, Flushed>, c: Arena, v: Ui, z: map<NodeId, Flushed>)
    requires Tree(a, root) && Tree(b, root) && Kids(b) == Detached(Kids(a), M) && forall x :: x in N ==> x in K
    requires Outside(a, ui, was, b, u, w, UnderAny(a, K)) && Moved(b, u, w, c, v, z, N)
    ensures Outside(a, ui, was, c, v, z, UnderAny(a, K))
  {
    hide Tree, Outside, UnderAny, Moved, Detached;
    UnderAnyMono(a, N, K);
    UnderAnyShrinks(a, root, b, M, N);
    MovedOutside(b, u, w, c, v, z, N, UnderAny(a, K));
    OutsideTrans(a, ui, was, b, u, w, c, v, z, UnderAny(a, K));
  }

  /** Detaching some nodes, then another step on those or others. */
  lemma DetachThenStep(a: Arena, root: NodeId, ui: Ui, was: map<NodeId, Flushed>, N: seq<NodeId>, L: seq<NodeId>, K: seq<NodeId>,
                       b: Arena, u: Ui, w: map<NodeId, Flushed>, c: Arena, v: Ui, z: map<NodeId, Flushed>)
    requires Tree(a, root) && Tree(b, root) && Kids(b) == Detached(Kids(a), Members(N))
    requires (forall x :: x in N ==> x in K) && forall x :: x in L ==> x in K
    requires Outside(a, ui, was, b, u, w, UnderAny(a, N)) && Outside(b, u, w, c, v, z, UnderAny(b, L))
    ensures Outside(a, ui, was, c, v, z, UnderAny(a, K))
  {
    hide Tree, Outside, UnderAny, Detached;
    UnderAnyMono(a, N, K);
    UnderAnyMono(b, L, K);
    UnderAnyShrinks(a, root, b, Members(N), K);
    OutsideMore(a, ui, was, b, u, w, UnderAny(a, N), UnderAny(a, K));
    OutsideMore(b, u, w, c, v, z, UnderAny(b, L), UnderAny(a, K));
    OutsideTrans(a, ui, was, b, u, w, c, v, z, UnderAny(a, K));
  }

  lemma MinusWithin(s: seq<NodeId>, M: set<NodeId>)
    ensures forall x :: x in Minus(s, M) ==> x in s
  {
  }

  /** Two rounds of detaching, then an insertion. */
  lemma ClearThenMove(a: Arena, root: NodeId, ui: Ui, was: map<NodeId, Flushed>, N: seq<NodeId>, L: set<NodeId>, K: seq<NodeId>, b: Arena,
                      c: Arena, v: Ui, z: map<NodeId, Flushed>, d: Arena, v': Ui, z': map<NodeId, Flushed>)
    requires Tree(a, root) && Tree(b, root) && Tree(c, root) && Kids(b) == Detached(Kids(a), Members(N)) && Kids(c) == Detached(Kids(b), L)
    requires (forall x :: x in N ==> x in K) && Outside(a, ui, was, c, v, z, UnderAny(a, K)) && Moved(c, v, z, d, v', z', N)
    ensures Outside(a, ui, was, d, v', z', UnderAny(a, K))
  {
    hide Tree, Outside, UnderAny, Moved, Detached;
    UnderAnyMono(a, N, K);
    UnderAnyShrinks(a, root, b, Members(N), N);
    UnderAnyShrinks(b, root, c, L, N);
    MovedOutside(c, v, z, d, v', z', N, UnderAny(a, K));
    OutsideTrans(a, ui, was, c, v, z, d, v', z', UnderAny(a, K));
  }

  /** After detaching them, moving the nodes queues no further removals. */
  lemma NothingToLog(a: Arena, b: Arena, N: seq<NodeId>)
    requires Unparented(a, Members(N), b) && forall c :: c in N ==> c in a
    ensures MoveLog(b, N) == []
  {
    forall c | c in N ensures c in b && b[c].parent == None { }
    NoMoves(b, N);
  }

  /** What removing a child queues. */
  lemma ChildCutLog(a: Arena, n: NodeId, P: NodeId)
    requires n in a && a[n].parent == Some(P)
    ensures CutLog(a, n) == [ChildList(P, [], [n])]
  {
  }

  /** Inserting before an anchor leaves the anchor where it was. */
  lemma StillChild(a: Arena, b: Arena, root: NodeId, P: NodeId, i: nat, N: seq<NodeId>, anchor: NodeId)
    requires Tree(a, root) && Tree(b, root) && P in a && i < |a[P].children| && a[P].children[i] == anchor && anchor !in N
    requires Kids(b) == PlacedAt(Kids(a), P, i, i, N)
    ensures anchor in b && b[anchor].parent == Some(P)
  {
    hide Tree, Minus;
    var C, M := a[P].children, Members(N);
    assert anchor in C[i..];
    assert anchor in Minus(C[i..], M);
    assert P in Kids(b) && anchor in Kids(b)[P];
    ChildLink(b, root, P, anchor);
  }

  /** Inserting the nodes, then removing the anchor. */
  lemma ReplaceOutside(a: Arena, root: NodeId, P: NodeId, i: nat, N: seq<NodeId>, n: NodeId, ui: Ui, was: map<NodeId, Flushed>,
                       b: Arena, u: Ui, w: map<NodeId, Flushed>)
    requires Tree(a, root) && Tree(b, root) && P in a && i <= |a[P].children| && n in a && n in b && b[n].parent == Some(P)
    requires Kids(b) == PlacedAt(Kids(a), P, i, i, N) && Moved(a, ui, was, b, u, w, N)
    ensures Outside(a, ui, was, CutArena(b, n, u.focus), ForgetAll(u, SubtreeOf(b, n), HeirOr(b, Kids(b), n)),
                    w - SubtreeOf(b, n), UnderAny(a, N + [n]))
  {
    hide Tree, Outside, UnderAny, SubtreeOf, CutArena, ForgetAll, HeirOr, PlacedAt, Moved;
    var X := UnderAny(a, N + [n]);
    UnderAnyMono(a, N, N + [n]);
    UnderAnyMono(a, [n], N + [n]);
    PlacedAnchor(a, root, b, P, i, i, N, n);
    MovedOutside(a, ui, was, b, u, w, N, X);
    CutOutside(b, n, u, w, HeirOr(b, Kids(b), n), X);
    OutsideTrans(a, ui, was, b, u, w, CutArena(b, n, u.focus), ForgetAll(u, SubtreeOf(b, n), HeirOr(b, Kids(b), n)), w - SubtreeOf(b, n), X);
  }
}
