/** New nodes and deep clones. */
module Creation {
  import opened Shapes
  import opened Nodes
  import opened Edits
  import opened Moves
  import opened Ancestry
  import opened Inserts

  function NewNode(data: NodeData, state: set<StateBit>): Node {
    Node(None, [], false, data, state, false, false, None, None)
  }

  /** b is a with more nodes. */
  ghost predicate Extends(a: Arena, b: Arena) {
    a.Keys <= b.Keys && forall x :: x in a ==> b[x] == a[x]
  }

  // -------------------------------------------------------------- a new node

  /** A fresh leaf disturbs nothing. */
  lemma FreshTree(a: Arena, root: NodeId, m: NodeId, nd: Node)
    requires Tree(a, root) && Flags(a, root) && IdCached(a) && m !in a
    requires nd.parent == None && nd.children == [] && !nd.inDoc
    requires nd.data.Element? ==> nd.data.id == AttrOf(nd.data, "id")
    ensures var b := a[m := nd];
            Tree(b, root) && Flags(b, root) && IdCached(b) && View(b) == View(a) && Extends(a, b)
  {
    hide Tree, Flags, Acyclic, OneParent, UpLinks, DownLinks, AttrOf;
    var b := a[m := nd];
    TreeForest(a, root);
    RootParentless(a, root);
    FreshAcyclic(Kids(a), m);
    assert Kids(b) == Kids(a)[m := []];
    FreshLinks(a, m, nd);
    FreshFlags(a, root, m, nd);
    FreshOneParent(a, m, nd);
    ViewSame(a, b);
    MakeTree(b, root);
  }

  lemma FreshAcyclic(S: Shape, m: NodeId)
    requires Acyclic(S) && m !in S
    ensures Acyclic(S[m := []])
  {
    hide RankOK;
    var r := TheRank(S);
    RankMeans(S, r);
    RankWitness(S[m := []], Ranking(r.of[m := 0], r.top));
  }

  lemma RankMeans(S: Shape, r: Ranking)
    requires RankOK(S, r)
    ensures r.of.Keys == S.Keys && (forall x :: x in S ==> r.of[x] <= r.top)
    ensures forall x, c :: x in S && c in S[x] ==> c in S && r.of[c] < r.of[x]
  {
  }

  lemma FreshLinks(a: Arena, m: NodeId, nd: Node)
    requires Links(a) && m !in a && nd.parent == None && nd.children == []
    ensures Links(a[m := nd])
  {
  }

  lemma FreshFlags(a: Arena, root: NodeId, m: NodeId, nd: Node)
    requires Flags(a, root) && UpLinks(a) && m !in a && nd.parent == None && !nd.inDoc
    ensures Flags(a[m := nd], root)
  {
  }

  lemma FreshOneParent(a: Arena, m: NodeId, nd: Node)
    requires OneParent(Kids(a)) && m !in a && nd.children == []
    ensures OneParent(Kids(a[m := nd]))
  {
    var S, T := Kids(a), Kids(a[m := nd]);
    forall p, q, c | p in T && q in T && c in T[p] && c in T[q] ensures p == q {
      assert p in S && q in S && c in S[p] && c in S[q];
    }
    forall p | p in T ensures NoDup(T[p]) { assert T[p] == if p in S then S[p] else []; }
  }

  lemma FreshKeeps(a: Arena, m: NodeId, nd: Node, ix: IdIndex, ui: Ui, snaps: map<NodeId, Snapshot>,
                   was: map<NodeId, Flushed>, deps: set<StateBit>)
    requires Index(a, ix) && UiLive(a, ui) && Journal(a, snaps, was, deps) && m !in a && !nd.inDoc && !nd.hasSnapshot
    ensures var b := a[m := nd]; Index(b, ix) && UiLive(b, ui) && Journal(b, snaps, was, deps)
  {
    hide Mentions, Entries, AttrOf, Faithful;
    var b := a[m := nd];
    forall s, x ensures Indexed(ix, s, x) <==> Bears(b, s, x) {
      assert Indexed(ix, s, x) <==> Bears(a, s, x);
    }
  }

  lemma FreshReplayed(a: Arena, m: NodeId, nd: Node, base: map<NodeId, set<NodeId>>, recs: seq<Record>)
    requires Replayed(a, base, recs) && Logged(base, recs, m) && nd.children == []
    ensures Replayed(a[m := nd], base, recs) && Logged(base, recs, m + 1)
  {
    hide Replay;
    ReplayFresh(base, recs, m, m);
  }

  // --------------------------------------------------------- what a tree holds

  datatype Branch<T> = Branch(item: T, kids: seq<Branch<T>>)

  /** The subtree at n as a tree of items. */
  ghost function Copy<T>(S: Shape, L: map<NodeId, T>, n: NodeId): Branch<T>
    requires Acyclic(S) && L.Keys == S.Keys && n in S
    decreases Rank(S, n), 1, 0
  {
    ChildrenRank(S, n);
    Branch(L[n], CopyAll(S, L, S[n]))
  }

  ghost function CopyAll<T>(S: Shape, L: map<NodeId, T>, cs: seq<NodeId>): seq<Branch<T>>
    requires Acyclic(S) && L.Keys == S.Keys && forall c :: c in cs ==> c in S
    decreases ListRank(S, cs), 0, |cs|
  {
    if cs == [] then [] else [Copy(S, L, cs[0])] + CopyAll(S, L, cs[1..])
  }

  /** Copy, totalised for contracts. */
  ghost function CopyAt<T>(S: Shape, L: map<NodeId, T>, n: NodeId): Option<Branch<T>> {
    if Acyclic(S) && L.Keys == S.Keys && n in S then Some(Copy(S, L, n)) else None
  }

  lemma {:induction false} CopyAllAt<T>(S: Shape, L: map<NodeId, T>, cs: seq<NodeId>)
    requires Acyclic(S) && L.Keys == S.Keys && forall c :: c in cs ==> c in S
    ensures |CopyAll(S, L, cs)| == |cs|
    ensures forall i :: 0 <= i < |cs| ==> CopyAll(S, L, cs)[i] == Copy(S, L, cs[i])
    decreases |cs|
  {
    if cs != [] {
      CopyAllAt(S, L, cs[1..]);
      forall i | 0 < i < |cs| ensures CopyAll(S, L, cs)[i] == Copy(S, L, cs[i]) {
        assert cs[i] == cs[1..][i - 1];
      }
    }
  }

  /** The copy of a subtree only looks at that subtree. */
  lemma {:induction false} CopyFrame<T>(S: Shape, L: map<NodeId, T>, U: Shape, M: map<NodeId, T>, n: NodeId)
    requires Acyclic(S) && Acyclic(U) && L.Keys == S.Keys && M.Keys == U.Keys && n in S
    requires forall x :: Under(S, n, x) ==> x in S && x in U && U[x] == S[x] && M[x] == L[x]
    ensures n in U && Copy(U, M, n) == Copy(S, L, n)
    decreases Rank(S, n)
  {
    hide Under, RankOK;
    UnderSelf(S, n);
    ChildrenRank(S, n);
    CopyAllAt(S, L, S[n]);
    ChildrenRank(U, n);
    CopyAllAt(U, M, S[n]);
    forall i | 0 <= i < |S[n]| ensures CopyAll(U, M, S[n])[i] == CopyAll(S, L, S[n])[i] {
      EdgeRank(S, n, S[n][i]);
      forall x | Under(S, S[n][i], x) ensures Under(S, n, x) { UnderUnfold(S, n, x); }
      CopyFrame(S, L, U, M, S[n][i]);
    }
  }

  ghost function StateOf(a: Arena): map<NodeId, set<StateBit>> {
    map x | x in a :: if a[x].data.Element? then a[x].state else {}
  }

  /** More nodes elsewhere do not change what a tree holds. */
  lemma CopyExtends(a: Arena, b: Arena, n: NodeId)
    requires Acyclic(Kids(a)) && Acyclic(Kids(b)) && Extends(a, b) && n in a
    ensures CopyAt(Kids(b), DataOf(b), n) == CopyAt(Kids(a), DataOf(a), n)
    ensures CopyAt(Kids(b), StateOf(b), n) == CopyAt(Kids(a), StateOf(a), n)
  {
    hide Under, RankOK, Copy, Acyclic;
    forall x | Under(Kids(a), n, x) ensures x in a { UnderLive(Kids(a), n, x); }
    assert DataOf(a).Keys == Kids(a).Keys && DataOf(b).Keys == Kids(b).Keys;
    assert StateOf(a).Keys == Kids(a).Keys && StateOf(b).Keys == Kids(b).Keys;
    CopyFrame(Kids(a), DataOf(a), Kids(b), DataOf(b), n);
    CopyFrame(Kids(a), StateOf(a), Kids(b), StateOf(b), n);
  }

  /** m holds in b what n holds in a. */
  ghost predicate Copied(a: Arena, n: NodeId, b: Arena, m: NodeId) {
    && CopyAt(Kids(a), DataOf(a), n).Some?
    && CopyAt(Kids(b), DataOf(b), m) == CopyAt(Kids(a), DataOf(a), n)
    && CopyAt(Kids(b), StateOf(b), m) == CopyAt(Kids(a), StateOf(a), n)
  }

  // --------------------------------------------------- linking the cloned children

  /** The parentless nodes of N become the children of the leaf m. */
  ghost function Adopted(a: Arena, m: NodeId, N: seq<NodeId>): Arena {
    map x | x in a ::
      if x in N then a[x].(parent := Some(m)) else if x == m then a[x].(children := N) else a[x]
  }

  /** m is a detached leaf and N lists other detached roots. */
  ghost predicate Adoptable(a: Arena, root: NodeId, m: NodeId, N: seq<NodeId>) {
    && m in a && a[m].parent == None && a[m].children == [] && m != root && m !in N && NoDup(N)
    && forall c :: c in N ==> c in a && a[c].parent == None && c != root
  }

  lemma AdoptedForest(a: Arena, root: NodeId, m: NodeId, N: seq<NodeId>)
    requires Tree(a, root) && Adoptable(a, root, m, N)
    ensures Kids(Adopted(a, m, N)) == Kids(a)[m := N] && Forest(Kids(a)[m := N])
    ensures forall c :: c in N ==> c in Kids(a) && Acyclic(Kids(a)) && !Under(Kids(a), c, m)
  {
    hide Tree, Acyclic, Under, UpLinks, DownLinks;
    var S := Kids(a);
    TreeForest(a, root);
    assert Kids(Adopted(a, m, N)) == S[m := N];
    forall c | c in N ensures c in S && !Under(S, c, m) {
      if Under(S, c, m) { NoParent(a, root, m, c); }
    }
    GrownAcyclic(S, m, N, N);
    AdoptedOneParent(a, root, m, N);
  }

  lemma AdoptedOneParent(a: Arena, root: NodeId, m: NodeId, N: seq<NodeId>)
    requires Tree(a, root) && Adoptable(a, root, m, N)
    ensures OneParent(Kids(a)[m := N])
  {
    hide Tree, Acyclic, NoDup;
    var S, T := Kids(a), Kids(a)[m := N];
    TreeForest(a, root);
    forall p, q, c | p in T && q in T && c in T[p] && c in T[q] ensures p == q {
      if p != m { ChildLink(a, root, p, c); }
      if q != m { ChildLink(a, root, q, c); }
    }
    forall p | p in T ensures NoDup(T[p]) { assert T[p] == if p == m then N else S[p]; }
  }

  lemma AdoptedUp(a: Arena, root: NodeId, m: NodeId, N: seq<NodeId>)
    requires Tree(a, root) && Adoptable(a, root, m, N)
    ensures UpLinks(Adopted(a, m, N))
  {
    hide Tree, NoDup;
    var b := Adopted(a, m, N);
    forall x, p | x in b && b[x].parent == Some(p) ensures p in b && x in b[p].children {
      if x !in N { ParentFacts(a, root, x); }
    }
  }

  lemma AdoptedDown(a: Arena, root: NodeId, m: NodeId, N: seq<NodeId>)
    requires Tree(a, root) && Adoptable(a, root, m, N)
    ensures DownLinks(Adopted(a, m, N))
  {
    hide Tree, NoDup;
    var b := Adopted(a, m, N);
    forall p, c | p in b && c in b[p].children ensures c in b && b[c].parent == Some(p) {
      if p != m { ChildLink(a, root, p, c); }
    }
  }

  lemma AdoptedFlags(a: Arena, root: NodeId, m: NodeId, N: seq<NodeId>)
    requires Tree(a, root) && Flags(a, root) && Adoptable(a, root, m, N)
    ensures Flags(Adopted(a, m, N), root) && View(Adopted(a, m, N)) == View(a)
  {
    hide Tree, NoDup;
    RootFlag(a, root);
    ViewSame(a, Adopted(a, m, N));
  }

  /** Linking the clones gives a tree again, and shows nowhere. */
  lemma AdoptedTree(a: Arena, root: NodeId, m: NodeId, N: seq<NodeId>)
    requires Tree(a, root) && Flags(a, root) && IdCached(a) && Adoptable(a, root, m, N)
    ensures var b := Adopted(a, m, N);
            Tree(b, root) && Flags(b, root) && IdCached(b) && View(b) == View(a) && Relinked(a, b) && b.Keys == a.Keys
  {
    hide Tree, Flags, IdCached, Forest, UpLinks, DownLinks, View, NoDup;
    var b := Adopted(a, m, N);
    AdoptedForest(a, root, m, N);
    AdoptedUp(a, root, m, N);
    AdoptedDown(a, root, m, N);
    AdoptedFlags(a, root, m, N);
    SameIds(a, b);
    RootParentless(a, root);
    MakeTree(b, root);
  }

  /** A list no record speaks of may be entered into the replay's base. */
  lemma {:induction false} ReplayRebase(base: map<NodeId, set<NodeId>>, recs: seq<Record>, m: NodeId, X: set<NodeId>, p: NodeId)
    requires forall i :: 0 <= i < |recs| ==> recs[i].target != m
    ensures Replay(base[m := X], recs, p) == if p == m then X else Replay(base, recs, p)
  {
    if recs != [] {
      ReplayRebase(base, recs[..|recs| - 1], m, X, p);
    }
  }

  lemma AdoptedReplayed(a: Arena, m: NodeId, N: seq<NodeId>, base: map<NodeId, set<NodeId>>, recs: seq<Record>, next: NodeId)
    requires Replayed(a, base, recs) && Logged(base, recs, next) && m < next
    requires m in a && m !in N && forall i :: 0 <= i < |recs| ==> recs[i].target != m
    ensures Replayed(Adopted(a, m, N), base[m := Members(N)], recs) && Logged(base[m := Members(N)], recs, next)
  {
    hide Replay;
    var b := Adopted(a, m, N);
    forall p | p in b ensures Replay(base[m := Members(N)], recs, p) == Members(b[p].children) {
      ReplayRebase(base, recs, m, Members(N), p);
    }
  }

  lemma AdoptedCopies<T>(a: Arena, root: NodeId, m: NodeId, N: seq<NodeId>, L: map<NodeId, T>)
    requires Tree(a, root) && Adoptable(a, root, m, N) && L.Keys == a.Keys
    ensures var S, U := Kids(a), Kids(Adopted(a, m, N));
            && Acyclic(S) && Acyclic(U) && L.Keys == S.Keys == U.Keys && (forall c :: c in N ==> c in S && c in U)
            && CopyAll(U, L, N) == CopyAll(S, L, N)
  {
    hide Tree, Under, RankOK, NoDup, OneParent, Adopted;
    var S, U := Kids(a), Kids(Adopted(a, m, N));
    TreeForest(a, root);
    AdoptedForest(a, root, m, N);
    CopyAllAt(S, L, N);
    CopyAllAt(U, L, N);
    forall i | 0 <= i < |N| ensures CopyAll(U, L, N)[i] == CopyAll(S, L, N)[i] {
      AdoptedFrame(a, root, m, N, L, N[i]);
    }
  }

  /** m now holds its own item over what the adopted nodes held. */
  lemma AdoptedCopy<T>(a: Arena, root: NodeId, m: NodeId, N: seq<NodeId>, L: map<NodeId, T>)
    requires Tree(a, root) && Adoptable(a, root, m, N) && L.Keys == a.Keys
    ensures var S, U := Kids(a), Kids(Adopted(a, m, N));
            && Acyclic(S) && Acyclic(U) && L.Keys == S.Keys == U.Keys && (forall c :: c in N ==> c in S && c in U)
            && Copy(U, L, m) == Branch(L[m], CopyAll(S, L, N))
  {
    hide Tree, Under, RankOK, NoDup, OneParent, CopyAll, Adopted;
    var S, U := Kids(a), Kids(Adopted(a, m, N));
    TreeForest(a, root);
    AdoptedForest(a, root, m, N);
    assert U[m] == N;
    AdoptedCopies(a, root, m, N, L);
  }

  lemma AdoptedFrame<T>(a: Arena, root: NodeId, m: NodeId, N: seq<NodeId>, L: map<NodeId, T>, c: NodeId)
    requires Tree(a, root) && Adoptable(a, root, m, N) && L.Keys == a.Keys && c in N
    ensures var S, U := Kids(a), Kids(Adopted(a, m, N));
            && Acyclic(S) && Acyclic(U) && L.Keys == S.Keys == U.Keys && c in S && c in U && Copy(U, L, c) == Copy(S, L, c)
  {
    hide Tree, Under, RankOK, NoDup, OneParent;
    var S, U := Kids(a), Kids(Adopted(a, m, N));
    TreeForest(a, root);
    AdoptedForest(a, root, m, N);
    forall x | Under(S, c, x) ensures x in S && x != m { UnderLive(S, c, x); }
    CopyFrame(S, L, U, L, c);
  }

  /** b is a with more nodes, none of them linked to the old ones. */
  ghost predicate Grown(a: Arena, b: Arena) {
    a.Keys <= b.Keys && forall x :: x in a ==> b[x].parent == a[x].parent && b[x].children == a[x].children
  }

  /** Nothing new hangs below what was there. */
  lemma {:induction false} ExtendedAbove(a: Arena, root: NodeId, b: Arena, x: NodeId, y: NodeId)
    requires Tree(a, root) && Tree(b, root) && Grown(a, b) && x in a
    ensures Above(b, x, y) <==> Above(a, x, y)
    decreases Depth(b, y)
  {
    hide Tree, Above, Depth;
    if y in b {
      AboveStep(b, root, y, x);
      if y in a {
        AboveStep(a, root, y, x);
      }
      if b[y].parent.Some? {
        DepthUp(b, root, y);
        ParentFacts(b, root, y);
        var p := b[y].parent.value;
        ExtendedAbove(a, root, b, x, p);
        if p in a { ChildLink(a, root, p, y); }
      }
      if Above(a, x, y) { AboveLive(a, x, y); }
      if y !in a && b[y].parent.Some? && Above(a, x, b[y].parent.value) { AboveLive(a, x, b[y].parent.value); }
    } else {
      if Above(b, x, y) { AboveLive(b, x, y); }
      if Above(a, x, y) { AboveLive(a, x, y); }
    }
  }

  /** All nodes of b that are not in a hang below one of the given ones. */
  ghost predicate NewBelow(a: Arena, roots: seq<NodeId>, b: Arena) {
    forall x :: x in b && x !in a ==> exists c :: c in roots && Above(b, c, x)
  }

  lemma NoneBelow(a: Arena)
    ensures NewBelow(a, [], a)
  {
  }

  lemma BelowOne(a: Arena, b: Arena, m: NodeId)
    requires forall x :: x in b && x !in a ==> Above(b, m, x)
    ensures NewBelow(a, [m], b)
  {
    hide Above;
    assert m in [m];
  }

  lemma NewBelowFresh(a: Arena, root: NodeId, m: NodeId, b: Arena)
    requires Tree(b, root) && b.Keys == a.Keys + {m}
    ensures NewBelow(a, [m], b)
  {
    hide Tree, Above;
    AboveStep(b, root, m, m);
    assert m in [m];
  }

  lemma NewBelowMore(a0: Arena, root: NodeId, a: Arena, roots: seq<NodeId>, b: Arena, c: NodeId)
    requires Tree(a, root) && Tree(b, root) && Grown(a, b) && NewBelow(a0, roots, a) && NewBelow(a, [c], b)
    ensures NewBelow(a0, roots + [c], b)
  {
    hide Tree, Above, Grown;
    forall x | x in b && x !in a0 ensures exists d :: d in roots + [c] && Above(b, d, x) {
      if x in a {
        var d :| d in roots && Above(a, d, x);
        AboveLive(a, d, x);
        ExtendedAbove(a, root, b, d, x);
        assert d in roots + [c];
      } else {
        var d :| d in [c] && Above(b, d, x);
        assert d == c && c in roots + [c];
      }
    }
  }

  lemma {:induction false} AdoptedAbove(a: Arena, root: NodeId, m: NodeId, N: seq<NodeId>, c: NodeId, x: NodeId)
    requires Tree(a, root) && Tree(Adopted(a, m, N), root) && Adoptable(a, root, m, N) && Above(a, c, x)
    ensures Above(Adopted(a, m, N), c, x)
    decreases Depth(a, x)
  {
    hide Tree, Above, Depth, NoDup;
    AboveLive(a, c, x);
    AboveStep(a, root, x, c);
    AboveStep(Adopted(a, m, N), root, x, c);
    if c != x {
      DepthUp(a, root, x);
      AdoptedAbove(a, root, m, N, c, a[x].parent.value);
    }
  }

  lemma NewBelowAdopted(a0: Arena, root: NodeId, a: Arena, m: NodeId, N: seq<NodeId>)
    requires Tree(a, root) && Tree(Adopted(a, m, N), root) && Adoptable(a, root, m, N) && NewBelow(a0, [m] + N, a)
    ensures NewBelow(a0, [m], Adopted(a, m, N))
  {
    hide Tree, Above, NoDup;
    var b := Adopted(a, m, N);
    forall x | x in b && x !in a0 ensures m in [m] && Above(b, m, x) {
      var c :| c in [m] + N && Above(a, c, x);
      AdoptedAbove(a, root, m, N, c, x);
      if c != m {
        AboveStep(b, root, c, m);
        AboveStep(b, root, m, m);
        AboveTrans(b, m, c, x);
      }
    }
  }

  // ------------------------------------------------------------ the clone, in steps

  /** copies are detached clones of the nodes cs of a0, none of them m. */
  ghost predicate Clones(a0: Arena, cs: seq<NodeId>, root: NodeId, m: NodeId, a: Arena, copies: seq<NodeId>) {
    && |copies| == |cs| && NoDup(copies) && m !in copies
    && (forall j :: 0 <= j < |copies| ==> copies[j] in a && a[copies[j]].parent == None && copies[j] !in a0 && copies[j] != root)
    && (forall j :: 0 <= j < |copies| ==> Copied(a0, cs[j], a, copies[j]))
  }

  lemma CopiedExtends(a0: Arena, n: NodeId, a: Arena, m: NodeId, b: Arena)
    requires Copied(a0, n, a, m) && Extends(a, b) && Acyclic(Kids(b))
    ensures Copied(a0, n, b, m)
  {
    hide Copy, Acyclic;
    CopyExtends(a, b, m);
  }

  /** The next child to clone is still as it was. */
  lemma CloneReady(a0: Arena, S: Shape, n: NodeId, i: nat, a: Arena)
    requires Holds(a0, S, n) && Extends(a0, a) && n in a0 && i < |a0[n].children|
    ensures var c := a0[n].children[i]; n in S && c in S && Rank(S, c) < Rank(S, n) && Holds(a, S, c) && c in a0
  {
    hide Under, RankOK;
    HoldsRoot(a0, S, n);
    HoldsChild(a0, S, n, a0[n].children[i]);
    HoldsRoot(a0, S, a0[n].children[i]);
  }

  lemma CloneMore(a0: Arena, root: NodeId, cs: seq<NodeId>, i: nat, m: NodeId, a: Arena, copies: seq<NodeId>, b: Arena, c: NodeId)
    requires i < |cs| && Clones(a0, cs[..i], root, m, a, copies) && m in a
    requires Tree(a0, root) && Tree(a, root) && Tree(b, root) && Extends(a0, a) && Extends(a, b)
    requires cs[i] in a0 && c in b && c !in a && b[c].parent == None && Copied(a, cs[i], b, c)
    ensures Clones(a0, cs[..i + 1], root, m, b, copies + [c]) && Extends(a0, b)
  {
    hide Copied, Acyclic, Tree;
    TreeForest(a0, root);
    TreeForest(a, root);
    TreeForest(b, root);
    CopiedThrough(a0, cs[i], a, b, c);
    forall j | 0 <= j < i ensures Copied(a0, cs[j], b, copies[j]) {
      assert Copied(a0, cs[..i][j], a, copies[j]);
      CopiedExtends(a0, cs[j], a, copies[j], b);
    }
  }

  lemma CopiedThrough(a0: Arena, n: NodeId, a: Arena, b: Arena, m: NodeId)
    requires Acyclic(Kids(a0)) && Acyclic(Kids(a)) && Extends(a0, a) && n in a0 && Copied(a, n, b, m)
    ensures Copied(a0, n, b, m)
  {
    hide Copy, Acyclic;
    CopyExtends(a0, a, n);
  }

  lemma CloneDoneIn<T>(a0: Arena, L0: map<NodeId, T>, n: NodeId, root: NodeId, m: NodeId, a: Arena, L: map<NodeId, T>, copies: seq<NodeId>)
    requires Tree(a0, root) && Tree(a, root) && n in a0 && Adoptable(a, root, m, copies) && m in a
    requires L0.Keys == a0.Keys && L.Keys == a.Keys && L[m] == L0[n] && |copies| == |a0[n].children|
    requires forall j :: 0 <= j < |copies| ==> copies[j] in a
    requires forall j :: 0 <= j < |copies| ==>
      CopyAt(Kids(a), L, copies[j]) == CopyAt(Kids(a0), L0, a0[n].children[j])
    ensures CopyAt(Kids(a0), L0, n).Some?
    ensures CopyAt(Kids(Adopted(a, m, copies)), L, m) == CopyAt(Kids(a0), L0, n)
  {
    hide Tree, RankOK, Adoptable, NoDup, OneParent, Acyclic, Copy, CopyAll, Adopted;
    TreeForest(a0, root);
    TreeForest(a, root);
    ChildrenRank(Kids(a0), n);
    AdoptedCopy(a, root, m, copies, L);
    CopyAllAt(Kids(a), L, copies);
    CopyAllAt(Kids(a0), L0, a0[n].children);
    assert CopyAll(Kids(a), L, copies) == CopyAll(Kids(a0), L0, a0[n].children);
    CopyUnfold(Kids(a0), L0, n);
  }

  lemma CopyUnfold<T>(S: Shape, L: map<NodeId, T>, n: NodeId)
    requires Acyclic(S) && L.Keys == S.Keys && n in S
    ensures (forall c :: c in S[n] ==> c in S) && Copy(S, L, n) == Branch(L[n], CopyAll(S, L, S[n]))
  {
    hide Acyclic;
    ChildrenRank(S, n);
  }

  /** With all children cloned and linked, m holds what n held. */
  lemma CloneDone(a0: Arena, n: NodeId, root: NodeId, m: NodeId, a: Arena, copies: seq<NodeId>)
    requires Tree(a0, root) && Tree(a, root) && n in a0 && Clones(a0, a0[n].children, root, m, a, copies)
    requires Adoptable(a, root, m, copies) && m in a
    requires a[m].data == a0[n].data && a[m].state == if a0[n].data.Element? then a0[n].state else {}
    ensures Copied(a0, n, Adopted(a, m, copies), m)
  {
    hide Tree, Adoptable, NoDup, CopyAt;
    var b := Adopted(a, m, copies);
    assert DataOf(b) == DataOf(a) && StateOf(b) == StateOf(a);
    CloneDoneIn(a0, DataOf(a0), n, root, m, a, DataOf(a), copies);
    CloneDoneIn(a0, StateOf(a0), n, root, m, a, StateOf(a), copies);
  }

  lemma NoClones(a0: Arena, root: NodeId, m: NodeId, a: Arena)
    ensures Clones(a0, [], root, m, a, [])
  {
  }

  /** m's link set on the first i clones. */
  ghost function Parented(a: Arena, m: NodeId, N: seq<NodeId>): Arena {
    map x | x in a :: if x in N then a[x].(parent := Some(m)) else a[x]
  }

  lemma ParentedMore(a: Arena, m: NodeId, N: seq<NodeId>, i: nat)
    requires i < |N| && N[i] in a
    ensures var b := Parented(a, m, N[..i]);
            N[i] in b && b[N[i] := b[N[i]].(parent := Some(m))] == Parented(a, m, N[..i + 1])
  {
    assert N[..i + 1] == N[..i] + [N[i]];
  }

  lemma ParentedAll(a: Arena, m: NodeId, N: seq<NodeId>)
    requires m in a && m !in N
    ensures Parented(a, m, []) == a
    ensures var b := Parented(a, m, N); m in b && b[m := b[m].(children := N)] == Adopted(a, m, N)
  {
  }

  /** Everything known when the clones of n's children are about to be linked. */
  lemma CloneLink(a0: Arena, root: NodeId, n: NodeId, m: NodeId, a: Arena, copies: seq<NodeId>,
                  base: map<NodeId, set<NodeId>>, recs: seq<Record>, calls: seq<Record>, next: NodeId)
    requires Tree(a0, root) && n in a0 && m !in a0 && Extends(a0, a) && Clones(a0, a0[n].children, root, m, a, copies)
    requires Tree(a, root) && Flags(a, root) && IdCached(a)
    requires m in a && a[m] == NewNode(a0[n].data, if a0[n].data.Element? then a0[n].state else {})
    requires Replayed(a, base, recs) && Replayed(a, base, calls) && Logged(base, recs, next) && Logged(base, calls, next)
    requires m < next && forall i :: 0 <= i < |recs| ==> recs[i].target != m
    requires forall i :: 0 <= i < |calls| ==> calls[i].target != m
    ensures m !in copies && forall c :: c in copies ==> c in a
    ensures var b, base' := Adopted(a, m, copies), base[m := Members(copies)];
            && Tree(b, root) && Flags(b, root) && IdCached(b) && View(b) == View(a) && Relinked(a, b) && b.Keys == a.Keys
            && Replayed(b, base', recs) && Replayed(b, base', calls) && Logged(base', recs, next) && Logged(base', calls, next)
            && Copied(a0, n, b, m) && Extends(a0, b) && b[m].parent == None
    ensures NewBelow(a0, [m] + copies, a) ==> NewBelow(a0, [m], Adopted(a, m, copies))
  {
    hide NewBelow;
    hide Tree, Flags, IdCached, Replayed, Logged, View, Copied, NoDup, Members;
    RootParentless(a0, root);
    AdoptedTree(a, root, m, copies);
    AdoptedReplayed(a, m, copies, base, recs, next);
    AdoptedReplayed(a, m, copies, base, calls, next);
    CloneDone(a0, n, root, m, a, copies);
    if NewBelow(a0, [m] + copies, a) { NewBelowAdopted(a0, root, a, m, copies); }
  }
}
