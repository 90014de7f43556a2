/** The node arena and the structures derived from it: what each of them must
    agree with, and how the single-node edits of the mutator keep it so. */
module Nodes {
  import opened Shapes

  // ------------------------------------------------------------ node data

  datatype StateBit = Hover | Active | Focus | FocusRing | Enabled | Disabled | Checked | Unvisited

  type Attrs = map<string, string>

  /** What layout has built for an input. The flag a checkbox or radio button keeps
      is always its Checked bit. */
  datatype Special = Unbuilt | CheckboxInput | OtherSpecial

  /** `id` is the element's cached id attribute; `repeats` are the values of further
      `checked` attributes behind the first. */
  datatype NodeData =
    | Document
    | Element(tag: string, attrs: Attrs, id: Option<string>, special: Special, repeats: seq<string>)
    | Text(content: string)
    | Comment(contents: string)

  datatype Node = Node(
    parent: Option<NodeId>,
    children: seq<NodeId>,
    inDoc: bool,
    data: NodeData,
    state: set<StateBit>,
    styled: bool,
    hasSnapshot: bool,
    paint: Option<seq<NodeId>>,
    stacking: Option<seq<NodeId>>)

  type Arena = map<NodeId, Node>

  function AttrOf(d: NodeData, name: string): Option<string> {
    if d.Element? then Lookup(d.attrs, name) else None
  }

  function AttrsOf(d: NodeData): Option<Attrs> {
    if d.Element? then Some(d.attrs) else None
  }

  ghost function Kids(a: Arena): Shape {
    map x | x in a :: a[x].children
  }

  ghost function DataOf(a: Arena): map<NodeId, NodeData> {
    map x | x in a :: a[x].data
  }

  // --------------------------------------------------------------- the tree

  /** Parent links and child lists name each other, and only live nodes. */
  ghost predicate Links(a: Arena) {
    UpLinks(a) && DownLinks(a)
  }

  ghost predicate UpLinks(a: Arena) {
    forall x, p :: x in a && a[x].parent == Some(p) ==> p in a && x in a[p].children
  }

  ghost predicate DownLinks(a: Arena) {
    forall p, c :: p in a && c in a[p].children ==> c in a && a[c].parent == Some(p)
  }

  ghost predicate Tree(a: Arena, root: NodeId) {
    && Forest(Kids(a))
    && Links(a)
    && root in a && a[root].parent == None
  }

  /** IS_IN_DOCUMENT: set on the root, inherited along every edge, clear on
      every other parentless node. */
  ghost predicate Flags(a: Arena, root: NodeId) {
    && root in a && a[root].inDoc
    && (forall x, p :: x in a && a[x].parent == Some(p) && p in a ==> a[x].inDoc == a[p].inDoc)
    && (forall x :: x in a && a[x].parent == None && x != root ==> !a[x].inDoc)
  }

  lemma {:induction false} SubtreeFlag(a: Arena, root: NodeId, n: NodeId, x: NodeId)
    requires Tree(a, root) && Flags(a, root) && n in a && Under(Kids(a), n, x)
    ensures x in a && a[x].inDoc == a[n].inDoc
    decreases Rank(Kids(a), n)
  {
    UnderUnfold(Kids(a), n, x);
    if x != n {
      var c :| c in Kids(a)[n] && Under(Kids(a), c, x);
      SubtreeFlag(a, root, c, x);
    }
  }

  lemma {:induction false} ReachesRoot(a: Arena, root: NodeId, x: NodeId)
    requires Tree(a, root) && Flags(a, root) && x in a && a[x].inDoc
    ensures Under(Kids(a), root, x)
    decreases TheRank(Kids(a)).top - Rank(Kids(a), x)
  {
    if x == root {
      UnderSelf(Kids(a), root);
    } else {
      var p := a[x].parent.value;
      assert x in Kids(a)[p];
      ReachesRoot(a, root, p);
      UnderDown(Kids(a), root, p, x);
    }
  }

  /** IS_IN_DOCUMENT holds exactly for the nodes reachable from the root. */
  lemma InDocumentIsReachable(a: Arena, root: NodeId)
    requires Tree(a, root) && Flags(a, root)
    ensures forall x :: x in a ==> (a[x].inDoc <==> Under(Kids(a), root, x))
  {
    forall x | x in a ensures a[x].inDoc <==> Under(Kids(a), root, x) {
      if a[x].inDoc {
        ReachesRoot(a, root, x);
      } else if Under(Kids(a), root, x) {
        SubtreeFlag(a, root, root, x);
      }
    }
  }

  /** What a well-linked arena promises: parent links and child lists are the same
      relation, every child is listed once, nobody descends from itself, and the
      flag is reachability. */
  lemma TreeMeans(a: Arena, root: NodeId)
    requires Tree(a, root) && Flags(a, root)
    ensures forall p, c :: c in a ==> (a[c].parent == Some(p) <==> p in a && c in a[p].children)
    ensures forall p, i, j :: p in a && 0 <= i < j < |a[p].children| ==> a[p].children[i] != a[p].children[j]
    ensures forall p, c :: p in a && c in a[p].children ==> c in a && c != root && Acyclic(Kids(a)) && !Under(Kids(a), c, p)
    ensures forall x :: x in a ==> (a[x].inDoc <==> Acyclic(Kids(a)) && Under(Kids(a), root, x))
  {
    hide RankOK, Under;
    InDocumentIsReachable(a, root);
    forall p | p in a ensures NoDup(a[p].children) { assert NoDup(Kids(a)[p]); }
    forall p, c | p in a && c in a[p].children ensures c in a && c != root && !Under(Kids(a), c, p) {
      EdgeRank(Kids(a), p, c);
      if Under(Kids(a), c, p) { UnderLive(Kids(a), c, p); }
    }
  }

  // --------------------------------------------------------------- id index

  type IdIndex = map<string, seq<NodeId>>

  ghost predicate Indexed(ix: IdIndex, s: string, x: NodeId) {
    s in ix && x in ix[s]
  }

  ghost predicate Bears(a: Arena, s: string, x: NodeId) {
    x in a && a[x].inDoc && AttrOf(a[x].data, "id") == Some(s) && s != ""
  }

  /** No entry is empty or repeats a node. */
  ghost predicate Entries(ix: IdIndex) {
    forall s :: s in ix ==> ix[s] != [] && NoDup(ix[s])
  }

  /** Each entry lists exactly the in-document nodes with that (non-empty) id. */
  ghost predicate Index(a: Arena, ix: IdIndex) {
    && Entries(ix)
    && (forall s, x :: Indexed(ix, s, x) <==> Bears(a, s, x))
  }

  /** The cached id of every element is its id attribute. */
  ghost predicate IdCached(a: Arena) {
    forall x :: x in a && a[x].data.Element? ==> a[x].data.id == AttrOf(a[x].data, "id")
  }

  // ------------------------------------------------------ interaction state

  datatype Drag = NoDrag | Selecting | Panning(target: NodeId) | ScrollbarDrag(thumb: NodeId)

  datatype Ui = Ui(
    hover: Option<NodeId>,
    hit: Option<NodeId>,
    active: Option<NodeId>,
    focus: Option<NodeId>,
    mousedown: Option<NodeId>,
    anchor: Option<NodeId>,
    selFocus: Option<NodeId>,
    scrollbar: Option<NodeId>,
    drag: Drag,
    fading: set<NodeId>,
    rangeDrag: Option<NodeId>)

  const IDLE: Ui := Ui(None, None, None, None, None, None, None, None, NoDrag, {}, None)

  predicate Mentions(ui: Ui, x: NodeId) {
    || Some(x) in {ui.hover, ui.hit, ui.active, ui.focus, ui.mousedown, ui.anchor, ui.selFocus, ui.scrollbar}
    || ui.drag == Panning(x) || ui.drag == ScrollbarDrag(x)
    || x in ui.fading
  }

  /** The slider of a running range drag is live. No removal clears this reference,
      so it is not among those `Mentions` speaks of. */
  predicate RangeDragLive(a: Arena, ui: Ui) {
    ui.rangeDrag.Some? ==> ui.rangeDrag.value in a
  }

  /** Every reference names a live node; hover and active name in-document ones. */
  ghost predicate UiLive(a: Arena, ui: Ui) {
    && (forall x :: Mentions(ui, x) ==> x in a)
    && (ui.hover.Some? ==> ui.hover.value in a && a[ui.hover.value].inDoc)
    && (ui.active.Some? ==> ui.active.value in a && a[ui.active.value].inDoc)
  }

  function Cleared(o: Option<NodeId>, x: NodeId): Option<NodeId> {
    if o == Some(x) then None else o
  }

  /** All references to x dropped; hover and active fall back to `heir`. */
  function Forget(ui: Ui, x: NodeId, heir: Option<NodeId>): Ui {
    var unselect := ui.anchor == Some(x) || ui.selFocus == Some(x);
    ui.(hover := if ui.hover == Some(x) then heir else ui.hover,
        hit := Cleared(ui.hit, x),
        active := if ui.active == Some(x) then heir else ui.active,
        focus := Cleared(ui.focus, x),
        mousedown := Cleared(ui.mousedown, x),
        anchor := if unselect then None else ui.anchor,
        selFocus := if unselect then None else ui.selFocus,
        scrollbar := Cleared(ui.scrollbar, x),
        drag := if ui.drag == Panning(x) || ui.drag == ScrollbarDrag(x) then NoDrag else ui.drag,
        fading := ui.fading - {x})
  }

  /** Parent links of a climb towards edges of S, whose ranks bound the climb. */
  ghost predicate Climbs(a: Arena, S: Shape) {
    && Acyclic(S)
    && (forall x :: x in a ==> x in S)
    && (forall x, p :: x in a && a[x].parent == Some(p) ==> p in S && x in S[p])
  }

  /** Parent links of a are exactly the edges of S, and lead to live nodes. */
  ghost predicate Rooted(a: Arena, S: Shape) {
    forall x, p :: x in a && p in S && x in S[p] ==> p in a && a[x].parent == Some(p)
  }

  lemma LinksClimb(a: Arena)
    requires Links(a) && Acyclic(Kids(a))
    ensures Climbs(a, Kids(a)) && Rooted(a, Kids(a))
  {
  }

  /** The nearest in-document element among the proper ancestors of x. */
  ghost function Heir(a: Arena, S: Shape, x: NodeId): Option<NodeId>
    requires Climbs(a, S) && x in a
    decreases TheRank(S).top - Rank(S, x)
  {
    match a[x].parent
    case None => None
    case Some(p) =>
      if p !in a then None
      else if a[p].data.Element? && a[p].inDoc then Some(p)
      else assert Rank(S, x) < Rank(S, p) <= TheRank(S).top; Heir(a, S, p)
  }

  lemma {:induction false} HeirInDocument(a: Arena, S: Shape, x: NodeId)
    requires Climbs(a, S) && x in a
    ensures Heir(a, S, x).Some? ==>
              var h := Heir(a, S, x).value;
              h in a && a[h].data.Element? && a[h].inDoc && Under(S, h, x) && h != x
    decreases TheRank(S).top - Rank(S, x)
  {
    if a[x].parent.Some? && a[x].parent.value in a {
      var p := a[x].parent.value;
      UnderSelf(S, x);
      UnderUnfold(S, p, x);
      assert Rank(S, x) < Rank(S, p) <= TheRank(S).top;
      if !(a[p].data.Element? && a[p].inDoc) {
        HeirInDocument(a, S, p);
        if Heir(a, S, p).Some? {
          UnderTrans(S, Heir(a, S, p).value, p, x);
          UnderLive(S, Heir(a, S, p).value, p);
        }
      }
    }
  }

  lemma {:induction false} HeirNearest(a: Arena, S: Shape, x: NodeId, z: NodeId)
    requires Climbs(a, S) && Rooted(a, S) && x in a
    requires z in a && a[z].data.Element? && a[z].inDoc && z != x && Under(S, z, x)
    ensures Heir(a, S, x).Some? && Heir(a, S, x).value in S && Under(S, z, Heir(a, S, x).value)
    decreases TheRank(S).top - Rank(S, x)
  {
    var p := UnderUp(S, z, x);
    assert a[x].parent == Some(p) && p in a;
    assert Rank(S, x) < Rank(S, p) <= TheRank(S).top;
    if !(a[p].data.Element? && a[p].inDoc) {
      HeirNearest(a, S, p, z);
    }
  }

  /** Among in-document elements, exactly `who` and its ancestors carry `bit`. */
  ghost predicate Lit(a: Arena, S: Shape, bit: StateBit, who: Option<NodeId>) {
    && Climbs(a, S)
    && forall z :: z in a && a[z].inDoc && a[z].data.Element? ==>
         (bit in a[z].state <==> who.Some? && Under(S, z, who.value))
  }

  // ------------------------------------------------------- snapshot journal

  datatype Snapshot = Snapshot(state: set<StateBit>, attrs: Option<Attrs>)

  /** State and attributes of a node at the last style flush. */
  datatype Flushed = Flushed(state: set<StateBit>, attrs: Option<Attrs>)

  ghost predicate Faithful(nd: Node, snap: Option<Snapshot>, was: Flushed, deps: set<StateBit>) {
    match snap
    case Some(s) =>
      && s.state * deps == was.state * deps
      && (if s.attrs.Some? then s.attrs == was.attrs else AttrsOf(nd.data) == was.attrs)
    case None =>
      && nd.state * deps == was.state * deps
      && AttrsOf(nd.data) == was.attrs
  }

  /** `was` records the styled nodes that stayed in the document since the last
      flush; for them the snapshots tell what they were then. */
  ghost predicate Journal(a: Arena, snaps: map<NodeId, Snapshot>, was: map<NodeId, Flushed>, deps: set<StateBit>) {
    && (forall x :: x in snaps ==> x in a)
    && (forall x :: x in a ==> (a[x].hasSnapshot <==> x in snaps))
    && (forall x :: x in was ==> x in a && a[x].inDoc && a[x].styled && Faithful(a[x], Lookup(snaps, x), was[x], deps))
  }

  // ------------------------------------------------------- mutation records

  datatype Record =
    | ChildList(target: NodeId, added: seq<NodeId>, removed: seq<NodeId>)
    | Attributes(target: NodeId, name: string)
    | CharacterData(target: NodeId)

  ghost function Apply(s: set<NodeId>, r: Record, p: NodeId): set<NodeId> {
    if r.ChildList? && r.target == p then s - Members(r.removed) + Members(r.added) else s
  }

  /** The child set of p after replaying the records, in order, on `base`. */
  ghost function Replay(base: map<NodeId, set<NodeId>>, recs: seq<Record>, p: NodeId): set<NodeId> {
    if recs == [] then (if p in base then base[p] else {})
    else Apply(Replay(base, recs[..|recs| - 1], p), recs[|recs| - 1], p)
  }

  ghost predicate Replayed(a: Arena, base: map<NodeId, set<NodeId>>, recs: seq<Record>) {
    forall p :: p in a ==> Replay(base, recs, p) == Members(a[p].children)
  }

  /** The log speaks only of ids handed out so far. */
  ghost predicate Logged(base: map<NodeId, set<NodeId>>, recs: seq<Record>, next: NodeId) {
    && (forall p :: p in base ==> p < next)
    && (forall i :: 0 <= i < |recs| ==> recs[i].target < next)
  }

  lemma ReplaySnoc(base: map<NodeId, set<NodeId>>, recs: seq<Record>, r: Record, p: NodeId)
    ensures Replay(base, recs + [r], p) == Apply(Replay(base, recs, p), r, p)
  {
    assert (recs + [r])[..|recs|] == recs;
  }

  lemma {:induction false} ReplayFresh(base: map<NodeId, set<NodeId>>, recs: seq<Record>, next: NodeId, p: NodeId)
    requires Logged(base, recs, next) && next <= p
    ensures Replay(base, recs, p) == {}
  {
    if recs != [] {
      ReplayFresh(base, recs[..|recs| - 1], next, p);
    }
  }

  // ------------------------------------------------------------- the picture

  datatype Seen = Seen(parent: Option<NodeId>, children: seq<NodeId>, data: NodeData)

  /** What a redraw could show: structure, order, attributes and text of the
      in-document tree. */
  ghost function View(a: Arena): map<NodeId, Seen> {
    map x | x in a && a[x].inDoc :: Seen(a[x].parent, a[x].children, a[x].data)
  }
}
