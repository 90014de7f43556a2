/** Who is above whom in the arena: climbing from a node to its parent, and the
    chains of lit elements in those terms. */
module Ancestry {
  import opened Shapes
  import opened Nodes
  import opened Edits
  import opened Moves

  /** x is `from` or one of its ancestors. */
  ghost predicate Above(a: Arena, x: NodeId, from: NodeId) {
    Acyclic(Kids(a)) && x in a && from in a && Under(Kids(a), x, from)
  }

  /** One step of the climb: the ancestors of id are id and those of its parent. */
  lemma AboveStep(a: Arena, root: NodeId, id: NodeId, x: NodeId)
    requires Tree(a, root) && id in a
    ensures Above(a, x, id) <==> x == id || (a[id].parent.Some? && Above(a, x, a[id].parent.value))
    ensures a[id].parent.Some? ==> a[id].parent.value in a && !Above(a, id, a[id].parent.value)
  {
    hide Tree, RankOK, Under;
    TreeForest(a, root);
    UnderSelf(Kids(a), id);
    if a[id].parent.Some? {
      var p := a[id].parent.value;
      ParentFacts(a, root, id);
      EdgeRank(Kids(a), p, id);
      if Above(a, id, p) { UnderLive(Kids(a), id, p); }
      if x in a && x != id {
        UnderEdge(a, root, x, id);
      }
    } else if x in a && x != id && Under(Kids(a), x, id) {
      NoParent(a, root, id, x);
    }
  }

  lemma AboveTrans(a: Arena, x: NodeId, z: NodeId, y: NodeId)
    requires Above(a, x, z) && Above(a, z, y)
    ensures Above(a, x, y)
  {
    hide RankOK, Under;
    UnderTrans(Kids(a), x, z, y);
  }

  lemma NoParent(a: Arena, root: NodeId, id: NodeId, x: NodeId)
    requires Tree(a, root) && id in a && a[id].parent == None && x in a && Under(Kids(a), x, id)
    ensures x == id
  {
    hide RankOK, Under;
    forall p | p in a ensures id !in Kids(a)[p] { }
    if x != id {
      var p := UnderUp(Kids(a), x, id);
    }
  }

  lemma AboveNested(a: Arena, root: NodeId, x: NodeId, z: NodeId, y: NodeId)
    requires Tree(a, root) && Above(a, x, y) && Above(a, z, y)
    ensures Above(a, x, z) || Above(a, z, x)
  {
    hide RankOK, Under, OneParent;
    Nested(Kids(a), x, z, y);
  }

  lemma AboveBoth(a: Arena, x: NodeId, z: NodeId)
    requires Above(a, x, z) && Above(a, z, x)
    ensures x == z
  {
    hide RankOK, Under;
    UnderLive(Kids(a), x, z);
    UnderLive(Kids(a), z, x);
  }

  /** How far a node can be below the top. */
  ghost function Depth(a: Arena, y: NodeId): nat {
    if Acyclic(Kids(a)) && y in a then RankTop(Kids(a), y); TheRank(Kids(a)).top - Rank(Kids(a), y) else 0
  }

  lemma DepthUp(a: Arena, root: NodeId, y: NodeId)
    requires Tree(a, root) && y in a && a[y].parent.Some?
    ensures a[y].parent.value in a && Depth(a, a[y].parent.value) < Depth(a, y)
  {
    hide RankOK, OneParent;
    EdgeRank(Kids(a), a[y].parent.value, y);
    RankTop(Kids(a), a[y].parent.value);
  }

  lemma AboveLive(a: Arena, c: NodeId, x: NodeId)
    requires Above(a, c, x)
    ensures c in a && x in a
  {
    hide Under;
  }

  lemma AboveFlag(a: Arena, root: NodeId, x: NodeId, y: NodeId)
    requires Tree(a, root) && Flags(a, root) && Above(a, x, y)
    ensures a[x].inDoc == a[y].inDoc
  {
    hide RankOK, Under, OneParent;
    SubtreeFlag(a, root, x, y);
  }

  // ------------------------------------------------------------- lit chains

  /** x is the owner of a lit chain or one of its ancestors. */
  ghost predicate OnChain(a: Arena, who: Option<NodeId>, x: NodeId) {
    who.Some? && Above(a, x, who.value)
  }

  /** The light of `bit` is right at x. */
  ghost predicate LitAt(a: Arena, bit: StateBit, who: Option<NodeId>, x: NodeId)
    requires x in a
  {
    a[x].inDoc && a[x].data.Element? ==> (bit in a[x].state <==> OnChain(a, who, x))
  }

  /** Lit in terms of the arena's own tree. */
  lemma LitMeans(a: Arena, root: NodeId, bit: StateBit, who: Option<NodeId>)
    requires Tree(a, root) && (who.Some? ==> who.value in a)
    ensures Lit(a, Kids(a), bit, who) <==> forall x :: x in a ==> LitAt(a, bit, who, x)
  {
    hide RankOK, Under, OneParent;
  }
}
