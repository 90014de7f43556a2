/** Which insertions keep the HOVER and ACTIVE bits in step with the tree. The
    moved nodes take their bits along, and the chains they leave keep theirs. */
module Lighting {
  import opened Shapes
  import opened Nodes
  import opened Edits
  import opened Moves
  import opened Ancestry
  import opened Paint
  import opened Inserts
  import opened Placement
  import opened Keeping

  /** b is a after the nodes moved to index i of P's list. */
  ghost predicate Insertion(a: Arena, root: NodeId, b: Arena, P: NodeId, i: nat, N: seq<NodeId>) {
    && Tree(a, root) && Tree(b, root) && Insertable(a, root, P, N)
    && i <= |a[P].children| && Kids(b) == PlacedAt(Kids(a), P, i, i, N)
  }

  // ---------------------------------------------- ancestry after nodes have moved

  /** c is the moved node that carries y along: the nearest of N above it. */
  ghost predicate Carries(a: Arena, N: seq<NodeId>, c: NodeId, y: NodeId) {
    c in N && Above(a, c, y) && forall d :: d in N && Above(a, d, y) ==> Above(a, d, c)
  }

  lemma {:induction false} NearestCarrier(a: Arena, root: NodeId, N: seq<NodeId>, c: NodeId, y: NodeId) returns (d: NodeId)
    requires Tree(a, root) && c in N && Above(a, c, y)
    ensures Carries(a, N, d, y)
    decreases if Acyclic(Kids(a)) && c in a then Rank(Kids(a), c) else 0
  {
    hide Tree, Above;
    if Carries(a, N, c, y) {
      d := c;
    } else {
      var e :| e in N && Above(a, e, y) && !Above(a, e, c);
      AboveNested(a, root, c, e, y);
      AboveRank(a, c, e);
      d := NearestCarrier(a, root, N, e, y);
    }
  }

  lemma AboveRank(a: Arena, c: NodeId, e: NodeId)
    requires Above(a, c, e) && !Above(a, e, c)
    ensures Acyclic(Kids(a)) && c in a && e in a && Rank(Kids(a), e) < Rank(Kids(a), c)
  {
    hide RankOK, Under;
    UnderSelf(Kids(a), c);
    UnderLive(Kids(a), c, e);
  }

  lemma CarriedSelf(a: Arena, root: NodeId, c: NodeId, x: NodeId)
    requires Tree(a, root) && c in a && x in a
    ensures Above(a, c, x) && Above(a, x, c) <==> x == c
  {
    hide Tree, Above;
    AboveStep(a, root, c, c);
    if Above(a, c, x) && Above(a, x, c) { AboveBoth(a, c, x); }
  }

  lemma CarriedUp(a: Arena, root: NodeId, N: seq<NodeId>, c: NodeId, y: NodeId)
    requires Tree(a, root) && Carries(a, N, c, y) && y in a && y != c && c in a && forall d :: d in N ==> d in a
    ensures y !in N && a[y].parent.Some? && Carries(a, N, c, a[y].parent.value)
  {
    hide Tree, Above;
    AboveStep(a, root, y, c);
    AboveStep(a, root, y, y);
    if y in N { AboveBoth(a, c, y); }
    forall d | d in N && Above(a, d, a[y].parent.value) ensures Above(a, d, c) { AboveStep(a, root, y, d); }
  }

  /** The nodes of N hang below P, those of D nowhere, all others where they hung. */
  ghost predicate Reparented(a: Arena, b: Arena, P: NodeId, N: seq<NodeId>, D: seq<NodeId>) {
    b.Keys == a.Keys && forall y :: y in a ==> b[y].parent == if y in N then Some(P) else if y in D then None else a[y].parent
  }

  /** Nodes that are not carried along keep their ancestors. */
  lemma {:induction false} KeptAbove(a: Arena, root: NodeId, b: Arena, P: NodeId, N: seq<NodeId>, D: seq<NodeId>, x: NodeId, y: NodeId)
    requires Tree(a, root) && Tree(b, root) && Reparented(a, b, P, N, D) && x in a && y in a && y !in UnderAny(a, N + D)
    ensures Above(b, x, y) <==> Above(a, x, y)
    decreases Depth(a, y)
  {
    hide Tree, Above, Depth;
    AboveStep(a, root, y, x);
    AboveStep(b, root, y, x);
    AboveStep(a, root, y, y);
    assert y !in N + D;
    if a[y].parent.Some? {
      DepthUp(a, root, y);
      CarriedDown(a, root, N + D, y);
      KeptAbove(a, root, b, P, N, D, x, a[y].parent.value);
    }
  }

  /** What is carried along keeps the ancestors up to its carrier and, if that one
      was inserted, gets the target and the target's ancestors above that. */
  lemma {:induction false} CarriedAbove(a: Arena, root: NodeId, b: Arena, P: NodeId, N: seq<NodeId>, D: seq<NodeId>,
                                        c: NodeId, x: NodeId, y: NodeId)
    requires Tree(a, root) && Tree(b, root) && Reparented(a, b, P, N, D) && x in a && y in a && Carries(a, N + D, c, y)
    requires (forall d :: d in N + D ==> d in a) && (c in N ==> P in a && P !in UnderAny(a, N + D))
    ensures Above(b, x, y) <==> (Above(a, c, x) && Above(a, x, y)) || (c in N && Above(a, x, P))
    decreases Depth(a, y)
  {
    hide Tree, Above, Depth, UnderAny;
    AboveStep(b, root, y, x);
    if y == c {
      if c in N { KeptAbove(a, root, b, P, N, D, x, P); } else { assert c in D; }
      CarriedSelf(a, root, c, x);
    } else {
      CarriedUp(a, root, N + D, c, y);
      assert y !in N && y !in D;
      var p := a[y].parent.value;
      DepthUp(a, root, y);
      CarriedAbove(a, root, b, P, N, D, c, x, p);
      AboveStep(a, root, y, x);
      AboveStep(a, root, y, c);
      AboveStep(a, root, x, c);
    }
  }

  lemma CarriedDown(a: Arena, root: NodeId, N: seq<NodeId>, y: NodeId)
    requires Tree(a, root) && y in a && a[y].parent.Some?
    ensures a[y].parent.value in UnderAny(a, N) ==> y in UnderAny(a, N)
  {
    hide Tree, Above;
    if a[y].parent.value in UnderAny(a, N) {
      var c :| c in N && Above(a, c, a[y].parent.value);
      AboveLive(a, c, a[y].parent.value);
      AboveStep(a, root, y, c);
    }
  }

  /** A placement moves the nodes below the target and cuts what it skips off. */
  lemma PlacedParents(a: Arena, root: NodeId, b: Arena, P: NodeId, i: nat, j: nat, N: seq<NodeId>)
    requires Tree(a, root) && Tree(b, root) && Insertable(a, root, P, N) && i <= j <= |a[P].children| && Kids(b) == PlacedAt(Kids(a), P, i, j, N)
    ensures Reparented(a, b, P, N, a[P].children[i..j])
  {
    hide Tree, Insertable, PlacedAt;
    InsertableMeans(a, root, P, N);
    assert b.Keys == a.Keys by { PlacedKeys(Kids(a), P, i, j, N); assert a.Keys == Kids(a).Keys && b.Keys == Kids(b).Keys; }
    forall y | y in a ensures b[y].parent == if y in N then Some(P) else if y in a[P].children[i..j] then None else a[y].parent {
      PlacedParent(a, root, b, P, i, j, N, y);
    }
  }

  lemma PlacedKeys(S: Shape, P: NodeId, i: nat, j: nat, N: seq<NodeId>)
    ensures PlacedAt(S, P, i, j, N).Keys == S.Keys
  {
    hide Minus;
  }

  lemma PlacedParent(a: Arena, root: NodeId, b: Arena, P: NodeId, i: nat, j: nat, N: seq<NodeId>, y: NodeId)
    requires Tree(a, root) && Tree(b, root) && P in a && i <= j <= |a[P].children| && Kids(b) == PlacedAt(Kids(a), P, i, j, N) && y in a
    ensures y in b && b[y].parent == if y in N then Some(P) else if y in a[P].children[i..j] then None else a[y].parent
  {
    hide Tree, PlacedAt;
    var S, T := Kids(a), Kids(b);
    PlacedKeys(S, P, i, j, N);
    assert y in T && P in T;
    TreeForest(a, root);
    PlacedMember(S, P, i, j, N, P, y);
    if y in N {
      ChildLink(b, root, P, y);
    } else {
      if a[y].parent.Some? {
        var p := a[y].parent.value;
        ParentFacts(a, root, y);
        PlacedMember(S, P, i, j, N, p, y);
        if y in T[p] { ChildLink(b, root, p, y); }
      }
      if y in a[P].children[i..j] { ChildLink(a, root, P, y); }
      if b[y].parent.Some? {
        var q := b[y].parent.value;
        ParentFacts(b, root, y);
        assert q in T && y in T[q] && q in S;
        PlacedMember(S, P, i, j, N, q, y);
        ChildLink(a, root, q, y);
      }
    }
  }

  /** What a list holds after a placement. */
  lemma PlacedMember(S: Shape, P: NodeId, i: nat, j: nat, N: seq<NodeId>, p: NodeId, y: NodeId)
    requires Forest(S) && P in S && p in S && i <= j <= |S[P]|
    ensures var T := PlacedAt(S, P, i, j, N);
            && p in T
            && (y in N ==> (y in T[p] <==> p == P))
            && (y !in N ==> (y in T[p] <==> y in S[p] && !(p == P && y in S[P][i..j])))
  {
    hide Acyclic;
    var C := S[P];
    assert C == C[..i] + C[i..j] + C[j..] && NoDup(C);
    if y in C[i..j] { assert y !in C[..i] && y !in C[j..]; }
  }

  /** The inserted nodes hang below the target, all others where they hung. */
  lemma InsertedParents(a: Arena, root: NodeId, b: Arena, P: NodeId, i: nat, N: seq<NodeId>)
    requires Insertion(a, root, b, P, i, N)
    ensures Reparented(a, b, P, N, []) && P in a && P !in UnderAny(a, N + []) && forall c :: c in N + [] ==> c in a
  {
    hide Tree, Insertable, PlacedAt, Above, NoDup;
    InsertableMeans(a, root, P, N);
    PlacedParents(a, root, b, P, i, i, N);
    assert N + [] == N && a[P].children[i..i] == [];
  }

  lemma InsertedParent(a: Arena, root: NodeId, b: Arena, P: NodeId, i: nat, N: seq<NodeId>, y: NodeId)
    requires Insertion(a, root, b, P, i, N) && y in a
    ensures y in b && P in b && b[y].parent == if y in N then Some(P) else a[y].parent
  {
    hide Tree, Insertable, PlacedAt, UnderAny;
    InsertedParents(a, root, b, P, i, N);
  }

  lemma StaysAbove(a: Arena, root: NodeId, b: Arena, P: NodeId, i: nat, N: seq<NodeId>, x: NodeId, y: NodeId)
    requires Insertion(a, root, b, P, i, N) && x in a && y in a && y !in UnderAny(a, N)
    ensures Above(b, x, y) <==> Above(a, x, y)
  {
    hide Tree, Insertable, PlacedAt, Above, UnderAny, Reparented;
    InsertedParents(a, root, b, P, i, N);
    assert N + [] == N;
    KeptAbove(a, root, b, P, N, [], x, y);
  }

  /** What is carried along by an insertion keeps the ancestors up to its carrier
      and gets the target and the target's ancestors above that. */
  lemma MovedAbove(a: Arena, root: NodeId, b: Arena, P: NodeId, i: nat, N: seq<NodeId>, c: NodeId, x: NodeId, y: NodeId)
    requires Insertion(a, root, b, P, i, N) && x in a && y in a && Carries(a, N, c, y)
    ensures Above(b, x, y) <==> (Above(a, c, x) && Above(a, x, y)) || Above(a, x, P)
  {
    hide Tree, Insertable, PlacedAt, Above, UnderAny, Reparented;
    InsertedParents(a, root, b, P, i, N);
    assert N + [] == N;
    CarriedAbove(a, root, b, P, N, [], c, x, y);
  }

  // --------------------------------------------------- the light after a move

  /** The moved subtrees take on the target's flag. */
  lemma InsertedFlag(a: Arena, root: NodeId, b: Arena, P: NodeId, i: nat, N: seq<NodeId>, x: NodeId)
    requires Insertion(a, root, b, P, i, N) && Flags(b, root) && x in a && x in b && P in b
    requires forall y :: y in a && y in b && b[y].inDoc != a[y].inDoc ==> y in UnderAny(a, N)
    ensures P !in UnderAny(a, N) && b[P].inDoc == a[P].inDoc
    ensures b[x].inDoc == if x in UnderAny(a, N) then a[P].inDoc else a[x].inDoc
  {
    hide Tree, Insertable, PlacedAt, Above, Flags;
    InsertableMeans(a, root, P, N);
    if x in UnderAny(a, N) {
      var c0 :| c0 in N && Above(a, c0, x);
      var c := NearestCarrier(a, root, N, c0, x);
      MovedAbove(a, root, b, P, i, N, c, P, x);
      AboveStep(a, root, P, P);
      AboveFlag(b, root, P, x);
    }
  }

  /** A move keeps the light of `bit` exact if and only if no lit element enters
      the document with the moved subtrees and, where one of them carries the
      owner of the bit along, the elements above its old place that stay in the
      document are those above its new one. */
  ghost predicate KeepsLight(a: Arena, P: NodeId, N: seq<NodeId>, bit: StateBit, who: Option<NodeId>) {
    P in a && forall x :: x in a && a[x].data.Element? ==> KeepsLightAt(a, P, N, bit, who, x)
  }

  ghost predicate KeepsLightAt(a: Arena, P: NodeId, N: seq<NodeId>, bit: StateBit, who: Option<NodeId>, x: NodeId)
    requires P in a && x in a
  {
    if !a[x].inDoc then a[P].inDoc && x in UnderAny(a, N) ==> bit !in a[x].state
    else if !a[P].inDoc && x in UnderAny(a, N) then true
    else forall c :: who.Some? && Carries(a, N, c, who.value) ==> ((x != c && Above(a, x, c)) <==> (a[P].inDoc && Above(a, x, P)))
  }

  /** One element that was in the document and stays. */
  lemma LightStays(a: Arena, root: NodeId, b: Arena, P: NodeId, i: nat, N: seq<NodeId>, w: NodeId, x: NodeId)
    requires Insertion(a, root, b, P, i, N) && w in a && x in a && P in a
    ensures w !in UnderAny(a, N) ==> (Above(b, x, w) <==> Above(a, x, w))
    ensures forall c :: Carries(a, N, c, w) ==>
      && (a[P].inDoc ==> ((Above(b, x, w) <==> Above(a, x, w)) <==> ((x != c && Above(a, x, c)) <==> Above(a, x, P))))
      && (x !in UnderAny(a, N) ==> (Above(a, x, w) <==> (x != c && Above(a, x, c))))
  {
    hide Tree, Insertable, PlacedAt, Above;
    InsertableMeans(a, root, P, N);
    if w !in UnderAny(a, N) { StaysAbove(a, root, b, P, i, N, x, w); }
    forall c | Carries(a, N, c, w) ensures
      && ((Above(b, x, w) <==> Above(a, x, w)) <==> ((x != c && Above(a, x, c)) <==> Above(a, x, P)))
      && (x !in UnderAny(a, N) ==> (Above(a, x, w) <==> (x != c && Above(a, x, c))))
    {
      MovedAbove(a, root, b, P, i, N, c, x, w);
      AboveStep(a, root, c, c);
      if Above(a, x, w) { AboveNested(a, root, x, c, w); }
      if Above(a, x, c) { AboveTrans(a, x, c, w); }
      if Above(a, c, x) && Above(a, x, c) { AboveBoth(a, c, x); }
      if Above(a, c, x) && Above(a, x, P) { AboveTrans(a, c, x, P); }
    }
  }

  /** A node that enters the document is above nothing that was in it. */
  lemma NewcomerBelow(a: Arena, root: NodeId, b: Arena, P: NodeId, i: nat, N: seq<NodeId>, w: NodeId, x: NodeId)
    requires Insertion(a, root, b, P, i, N) && Flags(a, root) && P in a && a[P].inDoc
    requires w in a && a[w].inDoc && x in a && !a[x].inDoc
    ensures !Above(b, x, w)
  {
    hide Tree, Insertable, PlacedAt, Above, Flags;
    if Above(a, x, w) { AboveFlag(a, root, x, w); }
    if Above(a, x, P) { AboveFlag(a, root, x, P); }
    if w in UnderAny(a, N) {
      var c0 :| c0 in N && Above(a, c0, w);
      var c := NearestCarrier(a, root, N, c0, w);
      MovedAbove(a, root, b, P, i, N, c, x, w);
    } else {
      StaysAbove(a, root, b, P, i, N, x, w);
    }
  }

  /** The condition, element by element. */
  lemma LightAt(a: Arena, root: NodeId, b: Arena, P: NodeId, i: nat, N: seq<NodeId>, bit: StateBit, who: Option<NodeId>, x: NodeId)
    requires Insertion(a, root, b, P, i, N) && Flags(a, root) && Flags(b, root) && P in a && b.Keys == a.Keys
    requires forall y :: y in a && b[y].inDoc != a[y].inDoc ==> y in UnderAny(a, N)
    requires who.Some? ==> who.value in a && a[who.value].inDoc
    requires x in a && a[x].data.Element? && b[x].data == a[x].data && (bit in b[x].state <==> bit in a[x].state)
    requires LitAt(a, bit, who, x)
    ensures LitAt(b, bit, Inherited(who, Left(a, b), None), x) <==> KeepsLightAt(a, P, N, bit, who, x)
  {
    hide Tree, Insertable, PlacedAt, Above, Flags, UnderAny, Carries;
    InsertedFlag(a, root, b, P, i, N, x);
    if who.Some? {
      var w := who.value;
      InsertedFlag(a, root, b, P, i, N, w);
      LightStays(a, root, b, P, i, N, w, x);
      HasCarrier(a, root, N, w);
      if a[P].inDoc && !a[x].inDoc { NewcomerBelow(a, root, b, P, i, N, w, x); }
    }
  }

  lemma HasCarrier(a: Arena, root: NodeId, N: seq<NodeId>, w: NodeId)
    requires Tree(a, root) && w in a
    ensures w in UnderAny(a, N) <==> exists c :: Carries(a, N, c, w)
  {
    hide Tree, Above;
    if w in UnderAny(a, N) {
      var c0 :| c0 in N && Above(a, c0, w);
      var c := NearestCarrier(a, root, N, c0, w);
    }
  }

  /** An insertion keeps a lit chain exact if and only if KeepsLight says so. */
  lemma InsertionLight(a: Arena, root: NodeId, ui: Ui, was: map<NodeId, Flushed>, b: Arena, ui': Ui, was': map<NodeId, Flushed>,
                       P: NodeId, i: nat, N: seq<NodeId>, bit: StateBit, who: Option<NodeId>)
    requires Insertion(a, root, b, P, i, N) && Flags(a, root) && Flags(b, root) && Moved(a, ui, was, b, ui', was', N)
    requires bit != Focus && bit != FocusRing && (who.Some? ==> who.value in a && a[who.value].inDoc)
    requires Lit(a, Kids(a), bit, who)
    ensures Lit(b, Kids(b), bit, Inherited(who, Left(a, b), None)) <==> KeepsLight(a, P, N, bit, who)
  {
    hide Tree, Insertable, PlacedAt, Above, Flags, UnderAny, Carries, Lit, LitAt, KeepsLightAt, Left, Kids, ForgetAll;
    InsertableMeans(a, root, P, N);
    ShiftedKeys(a, b, ui.focus);
    LitMeans(a, root, bit, who);
    LitMeans(b, root, bit, Inherited(who, Left(a, b), None));
    forall x | x in a ensures LitAt(b, bit, Inherited(who, Left(a, b), None), x) <==> a[x].data.Element? ==> KeepsLightAt(a, P, N, bit, who, x) {
      ShiftedBit(a[x], b[x], ui.focus == Some(x), bit);
      if a[x].data.Element? {
        LightAt(a, root, b, P, i, N, bit, who, x);
      } else {
        NotLit(b, bit, Inherited(who, Left(a, b), None), x);
      }
    }
  }

  lemma NotLit(a: Arena, bit: StateBit, who: Option<NodeId>, x: NodeId)
    requires x in a && !a[x].data.Element?
    ensures LitAt(a, bit, who, x)
  {
  }

  lemma ShiftedBit(nd0: Node, nd: Node, focused: bool, bit: StateBit)
    requires ShiftedNode(nd0, nd, focused) && bit != Focus && bit != FocusRing
    ensures nd.data == nd0.data && (bit in nd.state <==> bit in nd0.state)
  {
  }

  ghost predicate KeepsLights(a: Arena, P: NodeId, N: seq<NodeId>, ui: Ui) {
    KeepsLight(a, P, N, Hover, ui.hover) && KeepsLight(a, P, N, Active, ui.active)
  }

  /** The hover and active chains after an insertion into a valid document. */
  lemma InsertionLitChains(a: Arena, root: NodeId, ui: Ui, was: map<NodeId, Flushed>, b: Arena, ui': Ui, was': map<NodeId, Flushed>,
                           P: NodeId, i: nat, N: seq<NodeId>)
    requires Tree(a, root) && Tree(b, root) && Insertable(a, root, P, N) && i <= |a[P].children| && Kids(b) == PlacedAt(Kids(a), P, i, i, N)
    requires Flags(a, root) && Flags(b, root) && UiLive(a, ui) && Moved(a, ui, was, b, ui', was', N)
    ensures LitChains(a, Kids(a), ui) ==> (LitChains(b, Kids(b), ui') <==> KeepsLights(a, P, N, ui))
  {
    hide Tree, Insertable, PlacedAt, Flags, Lit, KeepsLight, Left, Shifted, Mentions, Kids;
    if LitChains(a, Kids(a), ui) {
      InsertionLight(a, root, ui, was, b, ui', was', P, i, N, Hover, ui.hover);
      InsertionLight(a, root, ui, was, b, ui', was', P, i, N, Active, ui.active);
    }
  }

  // --------------------------------------------- detaching before inserting

  /** A detached set keeps the subtrees of N whole, except where N cuts them. */
  lemma {:induction false} DetachedCarries(a: Arena, root: NodeId, b: Arena, M: set<NodeId>, N: seq<NodeId>, c: NodeId, x: NodeId)
    requires Tree(a, root) && Tree(b, root) && Unparented(a, M, b) && Carries(a, N, c, x) && c in a && x in a
    requires (forall d :: d in N ==> d in a) && forall y :: y in M && y in UnderAny(a, N) ==> y in N
    ensures Above(b, c, x)
    decreases Depth(a, x)
  {
    hide Tree, Above, Depth;
    AboveStep(b, root, x, c);
    if x != c {
      CarriedUp(a, root, N, c, x);
      var p := a[x].parent.value;
      DepthUp(a, root, x);
      assert x in UnderAny(a, N);
      DetachedCarries(a, root, b, M, N, c, p);
    }
  }

  lemma UnderAnyKept(a: Arena, root: NodeId, b: Arena, M: set<NodeId>, N: seq<NodeId>)
    requires Tree(a, root) && Tree(b, root) && Unparented(a, M, b) && Kids(b) == Detached(Kids(a), M)
    requires (forall d :: d in N ==> d in a) && forall y :: y in M && y in UnderAny(a, N) ==> y in N
    ensures UnderAny(b, N) == UnderAny(a, N)
  {
    hide Tree, Above, Detached;
    UnderAnyShrinks(a, root, b, M, N);
    forall x | x in UnderAny(a, N) ensures x in UnderAny(b, N) {
      var c0 :| c0 in N && Above(a, c0, x);
      var c := NearestCarrier(a, root, N, c0, x);
      DetachedCarries(a, root, b, M, N, c, x);
    }
  }

  /** Same data, same HOVER and ACTIVE bits. */
  ghost predicate SameLight(a: Arena, b: Arena) {
    && b.Keys == a.Keys
    && forall x :: x in a ==>
         b[x].data == a[x].data && (Hover in b[x].state <==> Hover in a[x].state) && (Active in b[x].state <==> Active in a[x].state)
  }

  lemma OutsideLight(a: Arena, ui: Ui, was: map<NodeId, Flushed>, b: Arena, u: Ui, w: map<NodeId, Flushed>, X: set<NodeId>)
    requires Outside(a, ui, was, b, u, w, X)
    ensures SameLight(a, b) && forall x :: x in a && x !in X ==> b[x].inDoc == a[x].inDoc
  {
    hide UiOutside, FlushedOutside;
    forall x | x in a ensures b[x].data == a[x].data && (Hover in b[x].state <==> Hover in a[x].state)
      && (Active in b[x].state <==> Active in a[x].state) && (x !in X ==> b[x].inDoc == a[x].inDoc)
    {
      assert SettledNode(a[x], b[x], x in X);
    }
  }

  /** No element below the nodes would enter the document lit. */
  ghost predicate EntersUnlit(a: Arena, P: NodeId, N: seq<NodeId>) {
    P in a && (a[P].inDoc ==> forall x :: x in UnderAny(a, N) && x in a && a[x].data.Element? ==> Hover !in a[x].state && Active !in a[x].state)
  }

  /** Once the nodes are detached, what an insertion needs to keep the light exact
      is that they hold no lit element. */
  lemma DetachedLights(a: Arena, root: NodeId, b: Arena, u: Ui, P: NodeId, N: seq<NodeId>)
    requires Tree(b, root) && Flags(b, root) && UiLive(b, u) && SameLight(a, b) && UnderAny(b, N) == UnderAny(a, N)
    requires P in a && b[P].inDoc == a[P].inDoc && forall c :: c in N ==> c in b && c != root && b[c].parent == None
    ensures KeepsLights(b, P, N, u) <==> EntersUnlit(a, P, N)
  {
    hide Tree, Flags, Above, Mentions, Carries, UnderAny, KeepsLightAt;
    forall x | x in UnderAny(b, N) ensures x in b && !b[x].inDoc { NothingBelowDetached(b, root, N, x); }
    forall x | x in b ensures
      && (KeepsLightAt(b, P, N, Hover, u.hover, x) <==> (a[P].inDoc && x in UnderAny(a, N) ==> Hover !in a[x].state))
      && (KeepsLightAt(b, P, N, Active, u.active, x) <==> (a[P].inDoc && x in UnderAny(a, N) ==> Active !in a[x].state))
    {
      UncarriedLight(b, root, P, N, Hover, u.hover, x);
      UncarriedLight(b, root, P, N, Active, u.active, x);
    }
    forall x | x in UnderAny(a, N) ensures x in a { }
  }

  lemma NothingBelowDetached(a: Arena, root: NodeId, N: seq<NodeId>, x: NodeId)
    requires Tree(a, root) && Flags(a, root) && x in UnderAny(a, N) && forall c :: c in N ==> c in a && c != root && a[c].parent == None
    ensures x in a && !a[x].inDoc
  {
    hide Tree, Above;
    var c :| c in N && Above(a, c, x);
    AboveFlag(a, root, c, x);
  }

  lemma UncarriedLight(a: Arena, root: NodeId, P: NodeId, N: seq<NodeId>, bit: StateBit, who: Option<NodeId>, x: NodeId)
    requires Tree(a, root) && P in a && x in a && (forall y :: y in UnderAny(a, N) ==> y in a && !a[y].inDoc)
    requires who.Some? ==> who.value in a && a[who.value].inDoc
    ensures KeepsLightAt(a, P, N, bit, who, x) <==> (a[P].inDoc && x in UnderAny(a, N) ==> bit !in a[x].state)
  {
    hide Tree, Above, Carries, UnderAny;
    if who.Some? { HasCarrier(a, root, N, who.value); }
  }

  /** The nodes are detached: what the coming insertion needs, said of before. */
  lemma DetachedReady(a: Arena, root: NodeId, ui: Ui, was: map<NodeId, Flushed>, b: Arena, u: Ui, w: map<NodeId, Flushed>, P: NodeId, N: seq<NodeId>)
    requires Tree(a, root) && Insertable(a, root, P, N) && Tree(b, root) && Flags(b, root) && UiLive(b, u)
    requires Kids(b) == Detached(Kids(a), Members(N)) && Unparented(a, Members(N), b)
    requires Outside(a, ui, was, b, u, w, UnderAny(a, N))
    ensures forall c :: c in N ==> c in b && b[c].parent == None
    ensures (KeepsLights(b, P, N, u) <==> EntersUnlit(a, P, N)) && (EntersUnlit(b, P, N) <==> EntersUnlit(a, P, N))
  {
    hide Tree, Flags, UiLive, Insertable, Outside, Detached, KeepsLights, EntersUnlit, Above, SameLight, NoDup;
    InsertableMeans(a, root, P, N);
    UnderAnyKept(a, root, b, Members(N), N);
    OutsideLight(a, ui, was, b, u, w, UnderAny(a, N));
    DetachedLights(a, root, b, u, P, N);
    SameEntering(a, b, P, N);
  }

  lemma SameEntering(a: Arena, b: Arena, P: NodeId, N: seq<NodeId>)
    requires SameLight(a, b) && UnderAny(b, N) == UnderAny(a, N) && P in a && b[P].inDoc == a[P].inDoc
    ensures EntersUnlit(b, P, N) <==> EntersUnlit(a, P, N)
  {
    hide UnderAny;
  }

  /** The nodes and then P's remaining children are detached. */
  lemma ClearedLights(a: Arena, root: NodeId, ui: Ui, was: map<NodeId, Flushed>, b: Arena, c: Arena,
                      v: Ui, z: map<NodeId, Flushed>, P: NodeId, N: seq<NodeId>)
    requires Tree(a, root) && Insertable(a, root, P, N) && Tree(b, root) && Tree(c, root) && Flags(c, root) && UiLive(c, v) && P in b
    requires Kids(b) == Detached(Kids(a), Members(N)) && Unparented(a, Members(N), b)
    requires Kids(c) == Detached(Kids(b), Members(b[P].children)) && Unparented(b, Members(b[P].children), c)
    requires Outside(a, ui, was, c, v, z, UnderAny(a, N + a[P].children))
    ensures KeepsLights(c, P, N, v) <==> EntersUnlit(a, P, N)
  {
    hide Tree, Flags, UiLive, Insertable, Outside, Detached, KeepsLights, EntersUnlit, Above, SameLight, NoDup, UnderAny;
    InsertableMeans(a, root, P, N);
    UnderAnyKept(a, root, b, Members(N), N);
    TargetOutside(a, root, P, N);
    forall y | y in Members(b[P].children) && y in UnderAny(b, N) ensures y in N {
      ChildLink(b, root, P, y);
      ChildCarried(b, root, N, P, y);
    }
    UnderAnyKept(b, root, c, Members(b[P].children), N);
    OutsideLight(a, ui, was, c, v, z, UnderAny(a, N + a[P].children));
    DetachedLights(a, root, c, v, P, N);
  }

  /** The target is below none of the nodes, nor below its own children. */
  lemma TargetOutside(a: Arena, root: NodeId, P: NodeId, N: seq<NodeId>)
    requires Tree(a, root) && Insertable(a, root, P, N)
    ensures P !in UnderAny(a, N) && P !in UnderAny(a, N + a[P].children)
  {
    hide Tree, Above, NoDup;
    forall c | c in a[P].children ensures !Above(a, c, P) {
      ChildLink(a, root, P, c);
      AboveStep(a, root, P, P);
      AboveStep(a, root, c, P);
      if Above(a, c, P) { AboveBoth(a, c, P); DepthUp(a, root, c); }
    }
  }

  lemma ChildCarried(a: Arena, root: NodeId, N: seq<NodeId>, P: NodeId, y: NodeId)
    requires Tree(a, root) && y in UnderAny(a, N) && y in a && a[y].parent == Some(P) && P !in UnderAny(a, N)
    ensures y in N
  {
    hide Tree, Above;
    var c :| c in N && Above(a, c, y);
    AboveLive(a, c, y);
    AboveStep(a, root, y, c);
    if c != y { AboveLive(a, c, P); }
  }

  // -------------------------------------- removing the anchor after an insertion

  /** The target's other child is not above what came in. */
  lemma AnchorApart(a: Arena, root: NodeId, b: Arena, P: NodeId, i: nat, N: seq<NodeId>, n: NodeId, x: NodeId)
    requires Insertion(a, root, b, P, i, N) && x in UnderAny(a, N) && n in b && b[n].parent == Some(P) && n !in N
    ensures !Above(b, n, x)
  {
    hide Tree, Insertable, PlacedAt, Above;
    InsertableMeans(a, root, P, N);
    var c0 :| c0 in N && Above(a, c0, x);
    var c := NearestCarrier(a, root, N, c0, x);
    AboveStep(a, root, c, c);
    MovedAbove(a, root, b, P, i, N, c, c, x);
    InsertedParent(a, root, b, P, i, N, c);
    if Above(b, n, x) {
      AboveNested(b, root, n, c, x);
      ChildrenApart(b, root, P, n, c);
      ChildrenApart(b, root, P, c, n);
    }
  }

  lemma ChildrenApart(a: Arena, root: NodeId, P: NodeId, c: NodeId, d: NodeId)
    requires Tree(a, root) && c in a && d in a && a[c].parent == Some(P) && a[d].parent == Some(P) && c != d
    ensures !Above(a, c, d)
  {
    hide Tree, Above;
    AboveStep(a, root, d, c);
    DepthUp(a, root, c);
    AboveStep(a, root, P, P);
    AboveStep(a, root, c, P);
    if Above(a, c, P) { AboveBoth(a, c, P); }
  }

  lemma CutKeepsNode(a: Arena, root: NodeId, n: NodeId, f: Option<NodeId>, x: NodeId)
    requires Tree(a, root) && n in a && x in a && !Above(a, n, x)
    ensures var c := CutArena(a, n, f); x in c && c[x].data == a[x].data && c[x].state == a[x].state && c[x].inDoc == a[x].inDoc
  {
    hide Tree, Preorder, Under, Unmounted, UnmountedArena, RankOK, OneParent, Minus;
    TreeForest(a, root);
    UnmountedFacts(a, SubtreeOf(a, n), f);
    SubtreeMeans(a, n);
  }

  lemma HeirAbove(a: Arena, root: NodeId, n: NodeId)
    requires Tree(a, root) && n in a && HeirOr(a, Kids(a), n).Some?
    ensures var h := HeirOr(a, Kids(a), n).value; h in a && h != n && Above(a, h, n)
  {
    hide Tree, Under, Heir, Climbs, RankOK, OneParent;
    TreeForest(a, root);
    HeirInDocument(a, Kids(a), n);
  }

  /** Away from the removed subtree the light is right afterwards exactly where it
      was: the heir's in-document ancestors are those of what was removed. */
  lemma CutLightAt(a: Arena, root: NodeId, n: NodeId, f: Option<NodeId>, bit: StateBit, who: Option<NodeId>, x: NodeId)
    requires Tree(a, root) && Flags(a, root) && IdCached(a) && n in a && n != root && x in a && !Above(a, n, x)
    requires who.Some? ==> who.value in a
    ensures var c, w := CutArena(a, n, f), Inherited(who, SubtreeOf(a, n), HeirOr(a, Kids(a), n));
            x in c && (LitAt(c, bit, w, x) <==> LitAt(a, bit, who, x))
  {
    hide Tree, Above, Flags, IdCached, SubtreeOf, HeirOr, CutArena, UnmountedArena, Relinked, View, Kids;
    CutKeepsNode(a, root, n, f, x);
    if who.Some? {
      InSubtree(a, root, n, who.value);
      if who.value !in SubtreeOf(a, n) {
        CutAbove(a, root, n, f, x, who.value);
      } else if a[x].inDoc && a[x].data.Element? {
        if Above(a, x, who.value) { AboveNested(a, root, x, n, who.value); }
        if Above(a, x, n) { AboveTrans(a, x, n, who.value); }
        HeirLight(a, root, n, f, x);
      }
    }
  }

  lemma InSubtree(a: Arena, root: NodeId, n: NodeId, x: NodeId)
    requires Tree(a, root) && n in a && x in a
    ensures x in SubtreeOf(a, n) <==> Above(a, n, x)
  {
    hide Tree, Preorder, Under, RankOK, OneParent, SubtreeOf;
    TreeForest(a, root);
    SubtreeMeans(a, n);
  }

  /** An in-document element is above n exactly if it is above n's heir, also once
      n is removed. */
  lemma HeirLight(a: Arena, root: NodeId, n: NodeId, f: Option<NodeId>, x: NodeId)
    requires Tree(a, root) && Flags(a, root) && IdCached(a) && n in a && n != root && x in a && !Above(a, n, x)
    requires a[x].inDoc && a[x].data.Element?
    ensures var c, h := CutArena(a, n, f), HeirOr(a, Kids(a), n); Above(a, x, n) <==> h.Some? && Above(c, x, h.value)
  {
    hide Tree, Above, Flags, IdCached, CutArena, UnmountedArena, Relinked, View, Heir, Climbs, Rooted;
    if Above(a, x, n) { NearestHeir(a, root, n, x); }
    if HeirOr(a, Kids(a), n).Some? {
      var h := HeirOr(a, Kids(a), n).value;
      HeirAbove(a, root, n);
      if Above(a, n, h) { AboveBoth(a, n, h); }
      CutAbove(a, root, n, f, x, h);
      if Above(a, x, h) { AboveTrans(a, x, h, n); }
    }
  }

  lemma NearestHeir(a: Arena, root: NodeId, n: NodeId, x: NodeId)
    requires Tree(a, root) && Above(a, x, n) && x != n && a[x].inDoc && a[x].data.Element?
    ensures HeirOr(a, Kids(a), n).Some? && Above(a, x, HeirOr(a, Kids(a), n).value)
  {
    hide Tree, Under, Heir, Climbs, Rooted, RankOK, OneParent;
    TreeForest(a, root);
    CutReady(a, root, n);
    HeirNearest(a, Kids(a), n, x);
    HeirAbove(a, root, n);
  }

  /** Removing n changes no ancestry outside its subtree. */
  lemma CutAbove(a: Arena, root: NodeId, n: NodeId, f: Option<NodeId>, x: NodeId, y: NodeId)
    requires Tree(a, root) && Flags(a, root) && IdCached(a) && n in a && n != root && x in a && y in a && !Above(a, n, y)
    ensures Above(CutArena(a, n, f), x, y) <==> Above(a, x, y)
  {
    hide Tree, Under, Flags, IdCached, CutArena, UnmountedArena, Relinked, View, RankOK, OneParent, Detached;
    TreeForest(a, root);
    CutTree(a, root, n, f);
    TreeForest(CutArena(a, n, f), root);
    DetachedUnder(Kids(a), n, x, y);
  }

  /** What a replacement needs to keep the light of `bit` exact: the condition on a
      move, asked of the elements that do not leave with the replaced node n. */
  ghost predicate ReplacesLight(a: Arena, n: NodeId, P: NodeId, N: seq<NodeId>, bit: StateBit, who: Option<NodeId>) {
    P in a && forall x :: x in a && a[x].data.Element? && (x in UnderAny(a, N) || !Above(a, n, x)) ==> KeepsLightAt(a, P, N, bit, who, x)
  }

  ghost predicate ReplacesLights(a: Arena, n: NodeId, P: NodeId, N: seq<NodeId>, ui: Ui) {
    ReplacesLight(a, n, P, N, Hover, ui.hover) && ReplacesLight(a, n, P, N, Active, ui.active)
  }

  /** What leaves with the anchor: its old subtree without what was moved. */
  lemma LeavesWithAnchor(a: Arena, root: NodeId, b: Arena, P: NodeId, i: nat, N: seq<NodeId>, n: NodeId, x: NodeId)
    requires Insertion(a, root, b, P, i, N) && n in a && n in b && b[n].parent == Some(P) && n !in N && x in a
    ensures Above(b, n, x) <==> x !in UnderAny(a, N) && Above(a, n, x)
  {
    hide Tree, Insertable, PlacedAt, Above, UnderAny;
    if x in UnderAny(a, N) { AnchorApart(a, root, b, P, i, N, n, x); } else { StaysAbove(a, root, b, P, i, N, n, x); }
  }

  /** Moving nodes next to n and then removing n keeps a lit chain exact if and
      only if ReplacesLight says so. */
  lemma ReplacedLight(a: Arena, root: NodeId, ui: Ui, was: map<NodeId, Flushed>, b: Arena, u: Ui, w: map<NodeId, Flushed>,
                      P: NodeId, i: nat, N: seq<NodeId>, n: NodeId, bit: StateBit, who: Option<NodeId>)
    requires Insertion(a, root, b, P, i, N) && Flags(a, root) && Flags(b, root) && IdCached(b) && Moved(a, ui, was, b, u, w, N)
    requires n in a && n in b && b[n].parent == Some(P) && n !in N && n != root && bit != Focus && bit != FocusRing
    requires (who.Some? ==> who.value in a && a[who.value].inDoc) && Lit(a, Kids(a), bit, who)
    ensures var c, w := CutArena(b, n, u.focus), Inherited(Inherited(who, Left(a, b), None), SubtreeOf(b, n), HeirOr(b, Kids(b), n));
            Lit(c, Kids(c), bit, w) <==> ReplacesLight(a, n, P, N, bit, who)
  {
    hide Tree, Insertable, PlacedAt, Above, Flags, UnderAny, Carries, Lit, LitAt, KeepsLightAt, Left, ForgetAll, IdCached,
         SubtreeOf, HeirOr, CutArena, UnmountedArena, Relinked, View, Detached, Shifted;
    var c, v := CutArena(b, n, u.focus), Inherited(who, Left(a, b), None);
    var z := Inherited(v, SubtreeOf(b, n), HeirOr(b, Kids(b), n));
    InsertableMeans(a, root, P, N);
    ShiftedKeys(a, b, ui.focus);
    CutTree(b, root, n, u.focus);
    if HeirOr(b, Kids(b), n).Some? { HeirAbove(b, root, n); }
    LitMeans(a, root, bit, who);
    LitMeans(c, root, bit, z);
    forall x | x in a ensures
      LitAt(c, bit, z, x) <==> (a[x].data.Element? && (x in UnderAny(a, N) || !Above(a, n, x)) ==> KeepsLightAt(a, P, N, bit, who, x))
    {
      LeavesWithAnchor(a, root, b, P, i, N, n, x);
      ShiftedAt(a, b, ui.focus, x, bit);
      if Above(b, n, x) {
        Darkened(b, root, n, u.focus, bit, z, x);
      } else {
        CutLightAt(b, root, n, u.focus, bit, v, x);
        if a[x].data.Element? { LightAt(a, root, b, P, i, N, bit, who, x); } else { NotLit(b, bit, v, x); }
      }
    }
  }

  /** Nothing is asked of what has left the document. */
  lemma Darkened(a: Arena, root: NodeId, n: NodeId, f: Option<NodeId>, bit: StateBit, who: Option<NodeId>, x: NodeId)
    requires Tree(a, root) && Flags(a, root) && IdCached(a) && n in a && n != root && Above(a, n, x)
    ensures x in CutArena(a, n, f) && LitAt(CutArena(a, n, f), bit, who, x)
  {
    hide Tree, Flags, IdCached, CutArena, UnmountedArena, Relinked, View, Detached;
    CutTree(a, root, n, f);
  }

  /** The hover and active chains after a replacement in a valid document. */
  lemma ReplacedLights(a: Arena, root: NodeId, ui: Ui, was: map<NodeId, Flushed>, b: Arena, u: Ui, w: map<NodeId, Flushed>,
                       P: NodeId, i: nat, N: seq<NodeId>, n: NodeId)
    requires Tree(a, root) && Tree(b, root) && Insertable(a, root, P, N) && i <= |a[P].children| && Kids(b) == PlacedAt(Kids(a), P, i, i, N)
    requires Flags(a, root) && Flags(b, root) && IdCached(b) && UiLive(a, ui) && Moved(a, ui, was, b, u, w, N)
    requires n in a && n in b && b[n].parent == Some(P) && n !in N && n != root
    ensures var c := CutArena(b, n, u.focus);
            LitChains(a, Kids(a), ui) ==>
              (LitChains(c, Kids(c), ForgetAll(u, SubtreeOf(b, n), HeirOr(b, Kids(b), n))) <==> ReplacesLights(a, n, P, N, ui))
  {
    hide Tree, Insertable, PlacedAt, Flags, Lit, ReplacesLight, Left, SubtreeOf, HeirOr, IdCached, CutArena, Mentions, Shifted;
    if LitChains(a, Kids(a), ui) {
      ReplacedLight(a, root, ui, was, b, u, w, P, i, N, n, Hover, ui.hover);
      ReplacedLight(a, root, ui, was, b, u, w, P, i, N, n, Active, ui.active);
    }
  }

  /** For parentless nodes that is again that no lit element enters. */
  lemma DetachedReplaces(a: Arena, root: NodeId, ui: Ui, P: NodeId, N: seq<NodeId>, n: NodeId)
    requires Tree(a, root) && Flags(a, root) && UiLive(a, ui) && P in a && forall c :: c in N ==> c in a && c != root && a[c].parent == None
    ensures ReplacesLights(a, n, P, N, ui) <==> EntersUnlit(a, P, N)
  {
    hide Tree, Flags, Above, Mentions, Carries, UnderAny, KeepsLightAt;
    forall x | x in UnderAny(a, N) ensures x in a && !a[x].inDoc { NothingBelowDetached(a, root, N, x); }
    forall x | x in a ensures
      && (KeepsLightAt(a, P, N, Hover, ui.hover, x) <==> (a[P].inDoc && x in UnderAny(a, N) ==> Hover !in a[x].state))
      && (KeepsLightAt(a, P, N, Active, ui.active, x) <==> (a[P].inDoc && x in UnderAny(a, N) ==> Active !in a[x].state))
    {
      UncarriedLight(a, root, P, N, Hover, ui.hover, x);
      UncarriedLight(a, root, P, N, Active, ui.active, x);
    }
  }

  lemma ShiftedAt(a: Arena, b: Arena, f: Option<NodeId>, x: NodeId, bit: StateBit)
    requires Shifted(a, b, f) && x in a && bit != Focus && bit != FocusRing
    ensures x in b && b[x].data == a[x].data && (bit in b[x].state <==> bit in a[x].state)
  {
    hide ShiftedNode;
    ShiftedBit(a[x], b[x], f == Some(x), bit);
  }
}
