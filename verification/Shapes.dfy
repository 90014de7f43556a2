/** The tree theory behind the node arena: a shape maps every live node to its
    ordered child list. Preorder, subtrees, and how they react to the three
    edits the mutator makes (detach, splice, drop). */
module Shapes {

  type NodeId = nat

  datatype Option<+T> = None | Some(value: T)

  function Lookup<K, V>(m: map<K, V>, k: K): Option<V> {
    if k in m then Some(m[k]) else None
  }

  type Shape = map<NodeId, seq<NodeId>>

  // ---------------------------------------------------------------- ranks

  datatype Ranking = Ranking(of: map<NodeId, nat>, top: nat)

  /** Every child list names ranked nodes only, and ranks fall from parent to child. */
  ghost predicate RankOK(S: Shape, r: Ranking) {
    && r.of.Keys == S.Keys
    && (forall x :: x in S ==> r.of[x] <= r.top)
    && (forall x, c :: x in S && c in S[x] ==> c in S && r.of[c] < r.of[x])
  }

  ghost predicate Acyclic(S: Shape) {
    exists r :: RankOK(S, r)
  }

  ghost function TheRank(S: Shape): (r: Ranking)
    requires Acyclic(S)
    ensures RankOK(S, r)
  {
    var r :| RankOK(S, r); r
  }

  ghost function Rank(S: Shape, x: NodeId): nat
    requires Acyclic(S) && x in S
  {
    TheRank(S).of[x]
  }

  ghost function ListRank(S: Shape, cs: seq<NodeId>): nat
    requires Acyclic(S) && forall c :: c in cs ==> c in S
  {
    if cs == [] then 0
    else
      var r := ListRank(S, cs[1..]);
      if Rank(S, cs[0]) < r then r else Rank(S, cs[0]) + 1
  }

  lemma {:induction false} ListRankBelow(S: Shape, cs: seq<NodeId>, b: nat)
    requires Acyclic(S) && forall c :: c in cs ==> c in S
    requires forall c :: c in cs ==> Rank(S, c) < b
    ensures ListRank(S, cs) <= b
  {
    if cs != [] {
      ListRankBelow(S, cs[1..], b);
      assert cs[0] in cs;
    }
  }

  lemma {:induction false} ListRankAbove(S: Shape, cs: seq<NodeId>, c: NodeId)
    requires Acyclic(S) && forall c :: c in cs ==> c in S
    requires c in cs
    ensures Rank(S, c) < ListRank(S, cs)
  {
    if c != cs[0] {
      ListRankAbove(S, cs[1..], c);
    }
  }

  lemma ChildrenRank(S: Shape, n: NodeId)
    requires Acyclic(S) && n in S
    ensures forall c :: c in S[n] ==> c in S
    ensures ListRank(S, S[n]) <= Rank(S, n)
  {
    ListRankBelow(S, S[n], Rank(S, n));
  }

  lemma EdgeRank(S: Shape, p: NodeId, c: NodeId)
    requires Acyclic(S) && p in S && c in S[p]
    ensures c in S && Rank(S, c) < Rank(S, p)
  {
  }

  // ------------------------------------------------------------- preorder

  ghost function Preorder(S: Shape, n: NodeId): seq<NodeId>
    requires Acyclic(S) && n in S
    decreases Rank(S, n), 1, 0
  {
    ChildrenRank(S, n);
    [n] + PreorderAll(S, S[n])
  }

  ghost function PreorderAll(S: Shape, cs: seq<NodeId>): seq<NodeId>
    requires Acyclic(S) && forall c :: c in cs ==> c in S
    decreases ListRank(S, cs), 0, |cs|
  {
    if cs == [] then [] else Preorder(S, cs[0]) + PreorderAll(S, cs[1..])
  }

  /** x lies in the subtree rooted at a (a included). */
  ghost predicate Under(S: Shape, a: NodeId, x: NodeId)
    requires Acyclic(S) && a in S
  {
    x in Preorder(S, a)
  }

  lemma {:induction false} PreorderAllAppend(S: Shape, cs: seq<NodeId>, ds: seq<NodeId>)
    requires Acyclic(S) && (forall c :: c in cs ==> c in S) && (forall c :: c in ds ==> c in S)
    ensures forall c :: c in cs + ds ==> c in S
    ensures PreorderAll(S, cs + ds) == PreorderAll(S, cs) + PreorderAll(S, ds)
  {
    if cs == [] {
      assert cs + ds == ds;
    } else {
      assert (cs + ds)[1..] == cs[1..] + ds;
      PreorderAllAppend(S, cs[1..], ds);
    }
  }

  lemma PreorderAllOne(S: Shape, c: NodeId)
    requires Acyclic(S) && c in S
    ensures PreorderAll(S, [c]) == Preorder(S, c)
  {
    assert [c][1..] == [];
    assert PreorderAll(S, []) == [];
  }

  lemma PreorderAllSnoc(S: Shape, cs: seq<NodeId>, i: nat)
    requires Acyclic(S) && (forall c :: c in cs ==> c in S) && i < |cs|
    ensures forall c :: c in cs[..i] ==> c in S
    ensures forall c :: c in cs[..i + 1] ==> c in S
    ensures PreorderAll(S, cs[..i + 1]) == PreorderAll(S, cs[..i]) + Preorder(S, cs[i])
  {
    assert cs[..i + 1] == cs[..i] + [cs[i]];
    PreorderAllAppend(S, cs[..i], [cs[i]]);
    PreorderAllOne(S, cs[i]);
  }

  /** Membership in a forest walk is membership in one of the trees. */
  lemma {:induction false} PreorderAllMember(S: Shape, cs: seq<NodeId>, x: NodeId)
    requires Acyclic(S) && forall c :: c in cs ==> c in S
    ensures x in PreorderAll(S, cs) <==> exists c :: c in cs && Under(S, c, x)
    decreases |cs|
  {
    if cs != [] {
      PreorderAllMember(S, cs[1..], x);
      assert forall c :: c in cs <==> c == cs[0] || c in cs[1..];
      assert Under(S, cs[0], x) <==> x in Preorder(S, cs[0]);
    }
  }

  /** A subtree is its root and the subtrees of the root's children. */
  lemma UnderUnfold(S: Shape, a: NodeId, x: NodeId)
    requires Acyclic(S) && a in S
    ensures forall c :: c in S[a] ==> c in S
    ensures Under(S, a, x) <==> x == a || exists c :: c in S[a] && Under(S, c, x)
  {
    ChildrenRank(S, a);
    PreorderAllMember(S, S[a], x);
  }

  lemma UnderSelf(S: Shape, a: NodeId)
    requires Acyclic(S) && a in S
    ensures Under(S, a, a)
  {
    UnderUnfold(S, a, a);
  }

  lemma {:induction false} UnderLive(S: Shape, a: NodeId, x: NodeId)
    requires Acyclic(S) && a in S && Under(S, a, x)
    ensures x in S && Rank(S, x) <= Rank(S, a)
    ensures x != a ==> Rank(S, x) < Rank(S, a)
    decreases Rank(S, a)
  {
    UnderUnfold(S, a, x);
    if x != a {
      var c :| c in S[a] && Under(S, c, x);
      UnderLive(S, c, x);
    }
  }

  /** Subtrees are closed downwards. */
  lemma {:induction false} UnderDown(S: Shape, a: NodeId, x: NodeId, c: NodeId)
    requires Acyclic(S) && a in S && Under(S, a, x) && x in S && c in S[x]
    ensures Under(S, a, c)
    decreases Rank(S, a)
  {
    UnderUnfold(S, a, x);
    UnderUnfold(S, a, c);
    if x == a {
      UnderSelf(S, c);
    } else {
      var d :| d in S[a] && Under(S, d, x);
      UnderDown(S, d, x, c);
    }
  }

  /** Every proper descendant hangs below another node of the subtree. */
  lemma {:induction false} UnderUp(S: Shape, a: NodeId, x: NodeId) returns (p: NodeId)
    requires Acyclic(S) && a in S && Under(S, a, x) && x != a
    ensures p in S && Under(S, a, p) && x in S[p]
    decreases Rank(S, a)
  {
    UnderUnfold(S, a, x);
    var c :| c in S[a] && Under(S, c, x);
    if c == x {
      p := a;
      UnderSelf(S, a);
    } else {
      p := UnderUp(S, c, x);
      UnderUnfold(S, a, p);
    }
  }

  lemma {:induction false} UnderTrans(S: Shape, a: NodeId, b: NodeId, x: NodeId)
    requires Acyclic(S) && a in S && b in S && Under(S, a, b) && Under(S, b, x)
    ensures Under(S, a, x)
    decreases Rank(S, a)
  {
    if a != b {
      UnderUnfold(S, a, b);
      var c :| c in S[a] && Under(S, c, b);
      UnderTrans(S, c, b, x);
      UnderUnfold(S, a, x);
    }
  }

  /** A set containing a and closed under children contains the whole subtree. */
  lemma {:induction false} ClosedContains(S: Shape, a: NodeId, D: set<NodeId>, x: NodeId)
    requires Acyclic(S) && a in S && a in D && Under(S, a, x)
    requires forall y, c :: y in D && y in S && c in S[y] ==> c in D
    ensures x in D
    decreases Rank(S, a)
  {
    UnderUnfold(S, a, x);
    if x != a {
      var c :| c in S[a] && Under(S, c, x);
      ClosedContains(S, c, D, x);
    }
  }

  /** The walk of a subtree only looks at that subtree. */
  lemma {:induction false} PreorderFrame(S: Shape, T: Shape, a: NodeId)
    requires Acyclic(S) && Acyclic(T) && a in S
    requires forall x :: Under(S, a, x) ==> x in T && T[x] == (if x in S then S[x] else [])
    ensures a in T && Preorder(T, a) == Preorder(S, a)
    decreases Rank(S, a), 1, 0
  {
    UnderSelf(S, a);
    ChildrenRank(S, a);
    forall x | x in PreorderAll(S, S[a]) ensures Under(S, a, x) {
      assert x in [a] + PreorderAll(S, S[a]);
    }
    PreorderAllFrame(S, T, S[a]);
  }

  lemma {:induction false} PreorderAllFrame(S: Shape, T: Shape, cs: seq<NodeId>)
    requires Acyclic(S) && Acyclic(T) && forall c :: c in cs ==> c in S
    requires forall x :: x in PreorderAll(S, cs) ==> x in T && T[x] == (if x in S then S[x] else [])
    ensures forall c :: c in cs ==> c in T
    ensures PreorderAll(T, cs) == PreorderAll(S, cs)
    decreases ListRank(S, cs), 0, |cs|
  {
    if cs != [] {
      assert PreorderAll(S, cs) == Preorder(S, cs[0]) + PreorderAll(S, cs[1..]);
      forall x | Under(S, cs[0], x) ensures x in PreorderAll(S, cs) { }
      ListRankAbove(S, cs, cs[0]);
      PreorderFrame(S, T, cs[0]);
      PreorderAllFrame(S, T, cs[1..]);
    }
  }

  // -------------------------------------------------------------- forests

  ghost predicate NoDup(s: seq<NodeId>) {
    forall i, j :: 0 <= i < j < |s| ==> s[i] != s[j]
  }

  lemma NoDupAppend(s: seq<NodeId>, t: seq<NodeId>)
    requires NoDup(s) && NoDup(t) && forall x :: x in s ==> x !in t
    ensures NoDup(s + t)
  {
    forall i, j | 0 <= i < j < |s + t| ensures (s + t)[i] != (s + t)[j] {
      if i < |s| <= j {
        assert s[i] in s && t[j - |s|] in t;
      }
    }
  }

  ghost predicate OneParent(S: Shape) {
    && (forall p, q, c :: p in S && q in S && c in S[p] && c in S[q] ==> p == q)
    && (forall p :: p in S ==> NoDup(S[p]))
  }

  ghost predicate Forest(S: Shape) {
    Acyclic(S) && OneParent(S)
  }

  /** In a forest the parent of a proper descendant stays in the subtree. */
  lemma UnderParent(S: Shape, a: NodeId, x: NodeId, p: NodeId)
    requires Forest(S) && a in S && Under(S, a, x) && x != a && p in S && x in S[p]
    ensures Under(S, a, p)
  {
    var q := UnderUp(S, a, x);
  }

  /** Two subtrees that meet are nested. */
  lemma {:induction false} Nested(S: Shape, a: NodeId, b: NodeId, x: NodeId)
    requires Forest(S) && a in S && b in S && Under(S, a, x) && Under(S, b, x)
    ensures Under(S, a, b) || Under(S, b, a)
    decreases TheRank(S).top - (UnderLive(S, a, x); Rank(S, x))
  {
    UnderLive(S, a, x);
    if x != a && x != b {
      var p := UnderUp(S, a, x);
      UnderParent(S, b, x, p);
      UnderLive(S, a, p);
      Nested(S, a, b, p);
    }
  }

  /** Sibling subtrees are disjoint. */
  lemma SiblingsApart(S: Shape, p: NodeId, c: NodeId, d: NodeId, x: NodeId)
    requires Forest(S) && p in S && c in S[p] && d in S[p] && c in S && d in S && c != d
    requires Under(S, c, x)
    ensures !Under(S, d, x)
  {
    if Under(S, d, x) {
      Nested(S, c, d, x);
      if Under(S, c, d) {
        UnderParent(S, c, d, p);
        UnderLive(S, c, p);
      } else {
        UnderParent(S, d, c, p);
        UnderLive(S, d, p);
      }
      assert false;
    }
  }

  lemma {:induction false} PreorderNoDup(S: Shape, a: NodeId)
    requires Forest(S) && a in S
    ensures NoDup(Preorder(S, a))
    decreases Rank(S, a), 1, 0
  {
    ChildrenRank(S, a);
    PreorderAllNoDup(S, a, S[a]);
    forall x | x in PreorderAll(S, S[a]) ensures x != a {
      PreorderAllMember(S, S[a], x);
      var c :| c in S[a] && Under(S, c, x);
      UnderLive(S, c, x);
    }
    NoDupAppend([a], PreorderAll(S, S[a]));
  }

  lemma {:induction false} PreorderAllNoDup(S: Shape, p: NodeId, cs: seq<NodeId>)
    requires Forest(S) && p in S && NoDup(cs) && (forall c :: c in cs ==> c in S[p])
    requires forall c :: c in cs ==> c in S
    ensures NoDup(PreorderAll(S, cs))
    decreases ListRank(S, cs), 0, |cs|
  {
    if cs != [] {
      ListRankAbove(S, cs, cs[0]);
      PreorderNoDup(S, cs[0]);
      PreorderAllNoDup(S, p, cs[1..]);
      forall x | x in PreorderAll(S, cs[1..]) ensures x !in Preorder(S, cs[0]) {
        PreorderAllMember(S, cs[1..], x);
        var d :| d in cs[1..] && Under(S, d, x);
        SiblingsApart(S, p, d, cs[0], x);
      }
      NoDupAppend(Preorder(S, cs[0]), PreorderAll(S, cs[1..]));
    }
  }

  // ----------------------------------------------- removing from child lists

  /** s without the members of N, in order. */
  function Minus(s: seq<NodeId>, N: set<NodeId>): (r: seq<NodeId>)
    ensures forall x :: x in r <==> x in s && x !in N
    ensures |r| <= |s|
  {
    if s == [] then [] else (if s[0] in N then [] else [s[0]]) + Minus(s[1..], N)
  }

  lemma {:induction false} MinusAppend(s: seq<NodeId>, t: seq<NodeId>, N: set<NodeId>)
    ensures Minus(s + t, N) == Minus(s, N) + Minus(t, N)
  {
    if s == [] {
      assert s + t == t;
    } else {
      assert (s + t)[1..] == s[1..] + t;
      MinusAppend(s[1..], t, N);
    }
  }

  lemma {:induction false} MinusNoDup(s: seq<NodeId>, N: set<NodeId>)
    requires NoDup(s)
    ensures NoDup(Minus(s, N))
  {
    if s != [] {
      MinusNoDup(s[1..], N);
      assert s[0] !in s[1..];
    }
  }

  lemma {:induction false} MinusNothing(s: seq<NodeId>, N: set<NodeId>)
    requires forall x :: x in s ==> x !in N
    ensures Minus(s, N) == s
  {
    if s != [] {
      assert s[0] in s;
      forall x | x in s[1..] ensures x !in N { assert x in s; }
      MinusNothing(s[1..], N);
    }
  }

  lemma {:induction false} MinusAll(s: seq<NodeId>, N: set<NodeId>)
    requires forall x :: x in s ==> x in N
    ensures Minus(s, N) == []
  {
    if s != [] {
      assert s[0] in s;
      forall x | x in s[1..] ensures x in N { assert x in s; }
      MinusAll(s[1..], N);
    }
  }

  lemma {:induction false} MinusTwice(s: seq<NodeId>, M: set<NodeId>, N: set<NodeId>)
    ensures Minus(Minus(s, M), N) == Minus(s, M + N)
  {
    if s != [] {
      var h := if s[0] in M then [] else [s[0]];
      MinusTwice(s[1..], M, N);
      MinusAppend(h, Minus(s[1..], M), N);
      assert Minus(h, N) == if s[0] in M + N then [] else [s[0]];
    }
  }

  /** The shape S with the nodes of N taken out of every child list. */
  ghost function Detached(S: Shape, N: set<NodeId>): Shape {
    map x | x in S :: Minus(S[x], N)
  }

  ghost function Members(s: seq<NodeId>): set<NodeId> {
    set x | x in s
  }

  /** Replaces positions a..b of P's list by N after taking N out everywhere:
      the law every insertion of the mutator obeys. */
  ghost function Placed(S: Shape, P: NodeId, a: nat, b: nat, N: seq<NodeId>): Shape
    requires P in S && a <= b <= |S[P]|
  {
    Detached(S, Members(N))[P := Minus(S[P][..a], Members(N)) + N + Minus(S[P][b..], Members(N))]
  }

  /** E contains the children of its members: freeing it orphans nobody. */
  ghost predicate DownClosed(S: Shape, E: set<NodeId>) {
    forall x, c :: x in E && x in S && c in S[x] ==> c in E
  }

  /** The shape after the nodes of E have been freed. */
  ghost function Freed(S: Shape, E: set<NodeId>): Shape {
    map x | x in S && x !in E :: Minus(S[x], E)
  }

  /** T keeps some nodes of S and a subsequence-like part of their children. */
  ghost predicate Thinner(T: Shape, S: Shape) {
    && T.Keys <= S.Keys
    && (forall x, c :: x in T && c in T[x] ==> c in T && c in S[x])
  }

  lemma ThinnerAcyclic(T: Shape, S: Shape)
    requires Acyclic(S) && Thinner(T, S)
    ensures Acyclic(T)
  {
    var r := TheRank(S);
    assert RankOK(T, Ranking(map x | x in T :: r.of[x], r.top));
  }

  lemma {:induction false} ThinnerUnder(T: Shape, S: Shape, a: NodeId, x: NodeId)
    requires Acyclic(S) && Acyclic(T) && Thinner(T, S) && a in T && Under(T, a, x)
    ensures Under(S, a, x)
    decreases Rank(T, a)
  {
    UnderUnfold(T, a, x);
    UnderUnfold(S, a, x);
    if x != a {
      var c :| c in T[a] && Under(T, c, x);
      ThinnerUnder(T, S, c, x);
    }
  }

  lemma DetachedForest(S: Shape, N: set<NodeId>)
    requires Forest(S)
    ensures Forest(Detached(S, N))
  {
    var T := Detached(S, N);
    forall x, c | x in T && c in T[x] ensures c in T && c in S[x] {
      assert c in S[x];
      ChildrenRank(S, x);
    }
    ThinnerAcyclic(T, S);
    forall p | p in T ensures NoDup(T[p]) { MinusNoDup(S[p], N); }
  }

  /** Outside the cut subtree, detaching a node changes no subtree membership. */
  lemma {:induction false} DetachedUnder(S: Shape, n: NodeId, a: NodeId, x: NodeId)
    requires Forest(S) && n in S && a in S && !Under(S, n, x)
    requires Forest(Detached(S, {n}))
    ensures Under(Detached(S, {n}), a, x) <==> Under(S, a, x)
    decreases Rank(S, a)
  {
    var T := Detached(S, {n});
    UnderUnfold(S, a, x);
    UnderUnfold(T, a, x);
    forall c | c in S[a] && c != n ensures Under(T, c, x) <==> Under(S, c, x) {
      DetachedUnder(S, n, c, x);
    }
  }

  /** Among the survivors, membership is as before. */
  lemma {:induction false} FreedUnder(S: Shape, E: set<NodeId>, a: NodeId, x: NodeId)
    requires Forest(S) && DownClosed(S, E) && a in S && a !in E && x !in E
    requires Forest(Freed(S, E))
    ensures Under(Freed(S, E), a, x) <==> Under(S, a, x)
    decreases Rank(S, a)
  {
    hide Under, RankOK, Minus, DownClosed;
    var T := Freed(S, E);
    UnderUnfold(S, a, x);
    UnderUnfold(T, a, x);
    forall c | c in S[a] ensures c in T[a] ==> (Under(T, c, x) <==> Under(S, c, x)) {
      ChildrenRank(S, a);
      ListRankAbove(S, S[a], c);
      if c !in E { FreedUnder(S, E, c, x); }
    }
    forall c | c in S[a] && Under(S, c, x) ensures c in T[a] {
      if c in E { ClosedContains(S, c, E, x) by { DownClosedMeans(S, E); } }
    }
  }

  lemma DownClosedMeans(S: Shape, E: set<NodeId>)
    requires DownClosed(S, E)
    ensures forall x, c :: x in E && x in S && c in S[x] ==> c in E
  {
  }

  lemma FreedForest(S: Shape, E: set<NodeId>)
    requires Forest(S) && DownClosed(S, E)
    ensures Forest(Freed(S, E))
  {
    hide RankOK;
    var T := Freed(S, E);
    forall x, c | x in T && c in T[x] ensures c in T && c in S[x] {
      assert c in S[x];
      ChildrenRank(S, x);
    }
    ThinnerAcyclic(T, S);
    forall p | p in T ensures NoDup(T[p]) { MinusNoDup(S[p], E); }
  }

  lemma SubtreeDownClosed(S: Shape, n: NodeId)
    requires Acyclic(S) && n in S
    ensures DownClosed(S, Members(Preorder(S, n)))
  {
    hide RankOK;
    forall x, c | x in Preorder(S, n) && x in S && c in S[x] ensures c in Preorder(S, n) {
      assert Under(S, n, x);
      UnderDown(S, n, x, c);
    }
  }

  lemma SubtreesDownClosed(S: Shape, cs: seq<NodeId>)
    requires Acyclic(S) && forall c :: c in cs ==> c in S
    ensures DownClosed(S, Members(PreorderAll(S, cs)))
  {
    hide RankOK, Under;
    forall x, c | x in PreorderAll(S, cs) && x in S && c in S[x] ensures c in PreorderAll(S, cs) {
      PreorderAllMember(S, cs, x);
      var d :| d in cs && Under(S, d, x);
      UnderDown(S, d, x, c);
      PreorderAllMember(S, cs, c);
    }
  }

  /** The ranking of S with P and its ancestors lifted by m. */
  ghost function Lifted(S: Shape, P: NodeId, m: nat): Ranking
    requires Acyclic(S)
  {
    var r := TheRank(S);
    Ranking(map x | x in S :: r.of[x] + if Under(S, x, P) then m else 0, r.top + m)
  }

  lemma LiftedEdge(S: Shape, P: NodeId, m: nat, x: NodeId, c: NodeId)
    requires Acyclic(S) && x in S && c in S[x]
    ensures c in S && Lifted(S, P, m).of[c] < Lifted(S, P, m).of[x]
  {
    ChildrenRank(S, x);
    UnderUnfold(S, x, P);
  }

  lemma LiftedNewEdge(S: Shape, P: NodeId, N: seq<NodeId>, c: NodeId)
    requires Acyclic(S) && P in S && c in N && (forall c :: c in N ==> c in S)
    requires !Under(S, c, P)
    ensures Lifted(S, P, ListRank(S, N)).of[c] < Lifted(S, P, ListRank(S, N)).of[P]
  {
    UnderSelf(S, P);
    ListRankAbove(S, N, c);
  }

  /** Hanging parentless nodes below P keeps the shape acyclic as long as P is
      in none of their subtrees: lift the ranks of P and its ancestors. */
  lemma GrownAcyclic(S: Shape, P: NodeId, N: seq<NodeId>, kids: seq<NodeId>)
    requires Acyclic(S) && P in S
    requires forall c :: c in N ==> c in S && !Under(S, c, P)
    requires forall c :: c in kids ==> c in S[P] || c in N
    ensures Acyclic(S[P := kids])
  {
    hide Under, Acyclic;
    var r := Lifted(S, P, ListRank(S, N));
    var T := S[P := kids];
    forall x, c | x in T && c in T[x] ensures c in S && r.of[c] < r.of[x] {
      if c in S[x] {
        LiftedEdge(S, P, ListRank(S, N), x, c);
      } else {
        LiftedNewEdge(S, P, N, c);
      }
    }
    assert r.of.Keys == T.Keys;
    forall x | x in T ensures r.of[x] <= r.top { assert TheRank(S).of[x] <= TheRank(S).top; }
    RankWitness(T, r);
  }

  lemma RankWitness(T: Shape, r: Ranking)
    requires r.of.Keys == T.Keys
    requires forall x :: x in T ==> r.of[x] <= r.top
    requires forall x, c :: x in T && c in T[x] ==> c in T && r.of[c] < r.of[x]
    ensures Acyclic(T)
  {
    assert RankOK(T, r);
  }

  lemma DetachedKeepsRoot(S: Shape, M: set<NodeId>, c: NodeId, P: NodeId)
    requires Forest(S) && Forest(Detached(S, M)) && c in S && !Under(S, c, P)
    ensures !Under(Detached(S, M), c, P)
  {
    var D := Detached(S, M);
    forall x, c | x in D && c in D[x] ensures c in D && c in S[x] { ChildrenRank(S, x); }
    if Under(D, c, P) {
      ThinnerUnder(D, S, c, P);
    }
  }

  lemma SpliceNoDup(s: seq<NodeId>, a: nat, b: nat, N: seq<NodeId>)
    requires a <= b <= |s| && NoDup(s) && NoDup(N)
    ensures NoDup(Minus(s[..a], Members(N)) + N + Minus(s[b..], Members(N)))
  {
    var M := Members(N);
    var u, v := Minus(s[..a], M), Minus(s[b..], M);
    MinusNoDup(s[..a], M);
    MinusNoDup(s[b..], M);
    NoDupAppend(u, N);
    forall x | x in u + N ensures x !in v {
      assert x in s[..a] ==> x !in s[b..];
    }
    NoDupAppend(u + N, v);
  }

  /** Under the callers' conditions every insertion keeps the arena a forest. */
  lemma PlacedForest(S: Shape, P: NodeId, a: nat, b: nat, N: seq<NodeId>)
    requires Forest(S) && P in S && a <= b <= |S[P]| && NoDup(N)
    requires forall c :: c in N ==> c in S && !Under(S, c, P)
    ensures Forest(Placed(S, P, a, b, N))
  {
    hide RankOK, Under, Minus, NoDup;
    var M := Members(N);
    var D := Detached(S, M);
    DetachedForest(S, M);
    forall c | c in N ensures !Under(D, c, P) {
      DetachedKeepsRoot(S, M, c, P);
    }
    var kids := Minus(S[P][..a], M) + N + Minus(S[P][b..], M);
    GrownAcyclic(D, P, N, kids);
    SpliceNoDup(S[P], a, b, N);
    assert Placed(S, P, a, b, N) == D[P := kids];
    OneParentGrown(S, P, M, kids);
  }

  lemma OneParentGrown(S: Shape, P: NodeId, M: set<NodeId>, kids: seq<NodeId>)
    requires OneParent(S) && P in S && OneParent(Detached(S, M)) && NoDup(kids)
    requires forall c :: c in kids ==> c in S[P] || c in M
    ensures OneParent(Detached(S, M)[P := kids])
  {
    var T := Detached(S, M)[P := kids];
    forall p, q, c | p in T && q in T && c in T[p] && c in T[q] ensures p == q {
      assert p != P ==> c in S[p] && c !in M;
      assert q != P ==> c in S[q] && c !in M;
    }
  }
}
