/** The Dioxus mutation writer: a stack machine over the mutator, with a forward
    and a reverse id map and a template cache
    (packages/dioxus-native-dom/src/mutation_writer.rs). */
module Writer {
  import opened Shapes
  import opened Nodes
  import opened Edits
  import opened Moves
  import opened Paint
  import opened Inserts
  import opened Placement
  import opened Keeping
  import opened Focusing
  import opened Listing
  import opened Lighting
  import opened Ancestry
  import opened Creation
  import opened Attributes
  import opened Templates
  import opened Document
  import opened Mutator

  type ElementId = nat

  // --------------------------------------------------------------- the id maps

  type Forward = seq<Option<NodeId>>

  type Reverse = map<NodeId, ElementId>

  function NodeOf(fwd: Forward, e: ElementId): Option<NodeId> {
    if e < |fwd| then fwd[e] else None
  }

  /** The reverse map is inverted by the forward map. */
  ghost predicate Synced(fwd: Forward, rev: Reverse) {
    forall n :: n in rev ==> NodeOf(fwd, rev[n]) == Some(n)
  }

  /** The maps are inverse to each other. */
  ghost predicate Inverse(fwd: Forward, rev: Reverse) {
    Synced(fwd, rev) && forall e: ElementId, n :: NodeOf(fwd, e) == Some(n) ==> n in rev && rev[n] == e
  }

  function Padded(fwd: Forward, n: nat): (r: Forward)
    ensures |r| == (if |fwd| < n then n else |fwd|) && forall e: nat :: NodeOf(r, e) == NodeOf(fwd, e)
    decreases n - |fwd|
  {
    if |fwd| < n then Padded(fwd + [None], n) else fwd
  }

  /** An update of the maps which names n as e, and only that. */
  ghost predicate Renamed(fwd: Forward, rev: Reverse, n: NodeId, e: ElementId, fwd': Forward, rev': Reverse) {
    && (forall i: ElementId :: NodeOf(fwd', i) == if i == e then Some(n) else NodeOf(fwd, i))
    && (forall m :: m in rev' <==> m == n || (m in rev && !(NodeOf(fwd, e) == Some(m) && rev[m] == e)))
    && (forall m :: m in rev' ==> rev'[m] == if m == n then e else rev[m])
  }

  /** Naming keeps the maps in step, and inverse exactly if n had no other name. */
  lemma RenamedInverse(fwd: Forward, rev: Reverse, n: NodeId, e: ElementId, fwd': Forward, rev': Reverse)
    requires Synced(fwd, rev) && Renamed(fwd, rev, n, e, fwd', rev')
    ensures Synced(fwd', rev')
    ensures Inverse(fwd, rev) ==> (Inverse(fwd', rev') <==> n !in rev || rev[n] == e)
  {
    hide NodeOf;
    forall m | m in rev' ensures NodeOf(fwd', rev'[m]) == Some(m) {
      if m != n { assert NodeOf(fwd, rev[m]) == Some(m); }
    }
    if Inverse(fwd, rev) {
      if n in rev && rev[n] != e {
        assert NodeOf(fwd', rev[n]) == Some(n);
      } else {
        forall i: ElementId, m | NodeOf(fwd', i) == Some(m) ensures m in rev' && rev'[m] == i {
          if i != e { assert NodeOf(fwd, i) == Some(m); }
        }
      }
    }
  }

  /** The maps after the nodes of D were dropped one by one: a name is cleared if
      it is the one the reverse map knows. */
  ghost predicate Unnamed(fwd: Forward, rev: Reverse, D: set<NodeId>, fwd': Forward, rev': Reverse) {
    && rev' == rev - D
    && forall e: ElementId :: NodeOf(fwd', e) ==
         (match NodeOf(fwd, e) case Some(n) => (if n in D && n in rev && rev[n] == e then None else Some(n)) case None => None)
  }

  lemma UnnamedNone(fwd: Forward, rev: Reverse)
    ensures Unnamed(fwd, rev, {}, fwd, rev)
  {
    assert rev - {} == rev;
  }

  lemma UnnamedMore(fwd: Forward, rev: Reverse, D: set<NodeId>, f1: Forward, r1: Reverse, d: NodeId, f2: Forward, r2: Reverse)
    requires Synced(fwd, rev) && Unnamed(fwd, rev, D, f1, r1) && d !in D && r2 == r1 - {d}
    requires forall i: ElementId :: NodeOf(f2, i) == if d in r1 && r1[d] == i && NodeOf(f1, i) == Some(d) then None else NodeOf(f1, i)
    ensures Unnamed(fwd, rev, D + {d}, f2, r2)
  {
    hide NodeOf;
    assert rev - (D + {d}) == rev - D - {d};
  }

  /** Dropping keeps the maps in step; inverse maps stay inverse and no longer
      name a dropped node, otherwise exactly the second names are left dangling. */
  lemma UnnamedInverse(fwd: Forward, rev: Reverse, D: set<NodeId>, fwd': Forward, rev': Reverse)
    requires Synced(fwd, rev) && Unnamed(fwd, rev, D, fwd', rev')
    ensures Synced(fwd', rev')
    ensures Inverse(fwd, rev) ==> Inverse(fwd', rev')
    ensures forall e: ElementId, d :: d in D ==>
      (NodeOf(fwd', e) == Some(d) <==> NodeOf(fwd, e) == Some(d) && !(d in rev && rev[d] == e))
  {
    hide NodeOf;
    forall m | m in rev' ensures NodeOf(fwd', rev'[m]) == Some(m) { assert NodeOf(fwd, rev[m]) == Some(m); }
    if Inverse(fwd, rev) {
      forall i: ElementId, m | NodeOf(fwd', i) == Some(m) ensures m in rev' && rev'[m] == i {
        assert NodeOf(fwd, i) == Some(m);
      }
    }
  }

  /** The maps after e's old node was dropped with all of D, and e given to n. */
  ghost predicate Reassigned(fwd: Forward, rev: Reverse, D: set<NodeId>, n: NodeId, e: ElementId, fwd': Forward, rev': Reverse) {
    exists f, r :: Unnamed(fwd, rev, D, f, r) && Renamed(f, r, n, e, fwd', rev')
  }

  // ------------------------------------------------------------- the templates

  /** ids are detached trees inside X that hold what the template's roots stand for. */
  ghost predicate Holding(a: Arena, X: set<NodeId>, T: Template, ids: seq<NodeId>) {
    && |ids| == |T|
    && (forall i :: 0 <= i < |ids| ==> ids[i] in X && ids[i] in a && a[ids[i]].parent == None)
    && (forall i :: 0 <= i < |ids| ==> Stands(a, ids[i], T[i]))
  }

  /** Every cached template is held by its cached roots. */
  ghost predicate Cached(a: Arena, X: set<NodeId>, templates: map<Template, seq<NodeId>>) {
    forall T :: T in templates ==> Holding(a, X, T, templates[T])
  }

  lemma HoldingStep(a: Arena, b: Arena, root: NodeId, X: set<NodeId>, T: Template, ids: seq<NodeId>)
    requires Tree(a, root) && Tree(b, root) && Closed(a, X) && Undisturbed(a, b, X) && Holding(a, X, T, ids)
    ensures Holding(b, X, T, ids)
  {
    hide Tree, CopyAt, Build, BuildStates, Closed, Undisturbed;
    ClosedStep(a, b, root, X);
    UndisturbedKeys(a, b, X);
    forall i | 0 <= i < |ids| ensures Stands(b, ids[i], T[i]) {
      UndisturbedCopy(a, b, root, X, ids[i]);
    }
  }

  lemma CachedStep(a: Arena, b: Arena, root: NodeId, X: set<NodeId>, templates: map<Template, seq<NodeId>>)
    requires Tree(a, root) && Tree(b, root) && Closed(a, X) && Undisturbed(a, b, X) && Cached(a, X, templates)
    ensures Closed(b, X) && Cached(b, X, templates)
  {
    hide Tree, Closed, Undisturbed, Holding;
    ClosedStep(a, b, root, X);
    forall T | T in templates ensures Holding(b, X, T, templates[T]) {
      HoldingStep(a, b, root, X, T, templates[T]);
    }
  }

  /** Nothing the writer can name lies in a cached template. */
  ghost predicate Apart(X: set<NodeId>, fwd: Forward, stack: seq<NodeId>, next: NodeId) {
    && (forall n :: n in stack ==> n !in X && n < next)
    && (forall e: ElementId, n :: NodeOf(fwd, e) == Some(n) ==> n !in X && n < next)
  }

  /** Everything the writer's state promises about an arena. */
  ghost predicate Sound(a: Arena, root: NodeId, next: NodeId, X: set<NodeId>, templates: map<Template, seq<NodeId>>,
                        stack: seq<NodeId>, fwd: Forward, rev: Reverse) {
    && Closed(a, X) && root !in X && Cached(a, X, templates)
    && Apart(X, fwd, stack, next)
    && Synced(fwd, rev) && (forall n :: n in rev ==> n in a)
    && (forall n :: n in stack ==> n in a)
  }

  lemma SoundStep(a: Arena, b: Arena, root: NodeId, next: NodeId, next': NodeId, X: set<NodeId>,
                  templates: map<Template, seq<NodeId>>, stack: seq<NodeId>, fwd: Forward, rev: Reverse)
    requires Tree(a, root) && Tree(b, root) && Undisturbed(a, b, X) && next <= next'
    requires Sound(a, root, next, X, templates, stack, fwd, rev) && a.Keys <= b.Keys
    ensures Sound(b, root, next', X, templates, stack, fwd, rev)
  {
    hide Tree, Closed, Undisturbed, Cached, NodeOf, Synced;
    CachedStep(a, b, root, X, templates);
  }

  lemma HoldingMore(a: Arena, X: set<NodeId>, Y: set<NodeId>, T: Template, ids: seq<NodeId>)
    requires Holding(a, X, T, ids) && X <= Y
    ensures Holding(a, Y, T, ids)
  {
    hide CopyAt;
  }

  /** A freshly built template joins the cache. */
  lemma SoundCached(a: Arena, b: Arena, root: NodeId, next: NodeId, next': NodeId, X: set<NodeId>,
                    templates: map<Template, seq<NodeId>>, stack: seq<NodeId>, fwd: Forward, rev: Reverse, T: Template, ids: seq<NodeId>)
    requires Tree(a, root) && Tree(b, root) && Undisturbed(a, b, a.Keys) && next <= next'
    requires Sound(a, root, next, X, templates, stack, fwd, rev)
    requires forall x :: x in b && x !in a ==> next <= x
    requires Made(T, root, a, b, ids)
    ensures var Y := X + (b.Keys - a.Keys);
            Sound(b, root, next', Y, templates[T := ids], stack, fwd, rev) && Holding(b, Y, T, ids)
  {
    hide Tree, Closed, Undisturbed, NodeOf, Synced, CopyAt, Build;
    var Y := X + (b.Keys - a.Keys);
    NewPart(a, b, root, X);
    UndisturbedKeys(a, b, a.Keys);
    RootParentless(a, root);
    assert Cached(b, X, templates) by { CachedStep(a, b, root, X, templates); }
    assert Holding(b, Y, T, ids);
    forall S | S in templates ensures Holding(b, Y, S, templates[S]) { HoldingMore(b, X, Y, S, templates[S]); }
    assert forall e: ElementId, n :: NodeOf(fwd, e) == Some(n) ==> n !in Y;
  }

  lemma SoundStack(a: Arena, root: NodeId, next: NodeId, X: set<NodeId>, templates: map<Template, seq<NodeId>>,
                   stack: seq<NodeId>, fwd: Forward, rev: Reverse, stack': seq<NodeId>)
    requires Sound(a, root, next, X, templates, stack, fwd, rev)
    requires forall n :: n in stack' ==> n in stack || (n in a && n !in X && n < next)
    ensures Sound(a, root, next, X, templates, stack', fwd, rev)
  {
    hide Closed, Cached, NodeOf, Synced;
  }

  /** A live node outside the templates gets a name. */
  lemma SoundRenamed(a: Arena, root: NodeId, next: NodeId, X: set<NodeId>, templates: map<Template, seq<NodeId>>,
                     stack: seq<NodeId>, fwd: Forward, rev: Reverse, n: NodeId, e: ElementId, fwd': Forward, rev': Reverse)
    requires Sound(a, root, next, X, templates, stack, fwd, rev) && Renamed(fwd, rev, n, e, fwd', rev')
    requires n in a && n !in X && n < next
    ensures Sound(a, root, next, X, templates, stack, fwd', rev')
    ensures Inverse(fwd, rev) ==> (Inverse(fwd', rev') <==> n !in rev || rev[n] == e)
    ensures NodeOf(fwd', e) == Some(n)
  {
    hide Closed, Cached, NodeOf, Synced, Inverse;
    RenamedInverse(fwd, rev, n, e, fwd', rev');
  }

  // ---------------------------------------------------------------- node paths

  /** The path can be followed from n. */
  predicate Reaches(a: Arena, n: NodeId, path: seq<nat>)
    decreases |path|
  {
    n in a && (path != [] ==> path[0] < |a[n].children| && Reaches(a, a[n].children[path[0]], path[1..]))
  }

  /** The node at a path of child indices. */
  function Follow(a: Arena, n: NodeId, path: seq<nat>): NodeId
    decreases |path|
  {
    if path == [] || n !in a || |a[n].children| <= path[0] then n else Follow(a, a[n].children[path[0]], path[1..])
  }

  lemma {:induction false} FollowOutside(a: Arena, root: NodeId, X: set<NodeId>, n: NodeId, path: seq<nat>)
    requires Tree(a, root) && Closed(a, X) && Reaches(a, n, path) && n !in X
    ensures Follow(a, n, path) in a && Follow(a, n, path) !in X
    decreases |path|
  {
    hide Tree;
    if path != [] {
      ChildLink(a, root, n, a[n].children[path[0]]);
      FollowOutside(a, root, X, a[n].children[path[0]], path[1..]);
    }
  }

  /** Freeing a detached tree leaves the paths of other trees alone. */
  lemma {:induction false} FollowKept(a: Arena, b: Arena, root: NodeId, E: set<NodeId>, n: NodeId, path: seq<nat>)
    requires Tree(b, root) && b == a - E && Reaches(a, n, path) && n in b
    ensures Reaches(b, n, path) && Follow(b, n, path) == Follow(a, n, path) && Follow(a, n, path) in b
    decreases |path|
  {
    hide Tree;
    if path != [] {
      ChildLink(b, root, n, a[n].children[path[0]]);
      FollowKept(a, b, root, E, a[n].children[path[0]], path[1..]);
    }
  }

  // ------------------------------------------------------- building a template

  /** An attribute write: falsy `checked` and absent values clear. */
  method SetAttributeInner(docm: DocumentMutator, name: string, value: Option<string>, falsy: bool, n: NodeId)
    requires docm.Valid() && n in docm.doc.nodes && name != "dangerous_inner_html"
    modifies docm`mutationsOccurred, docm.doc`nodes, docm.doc`snapshots, docm.doc`nodesToId, docm.doc`records
    ensures docm.Valid()
    ensures docm.doc.nodes == old(docm.doc.nodes)[n := AttrEdit(old(docm.doc.nodes)[n], name, InnerValue(name, value, falsy))]
  {
    hide AttrEdit;
    match value {
      case None => docm.ClearAttribute(n, name);
      case Some(v) =>
        if name == "checked" && falsy {
          docm.ClearAttribute(n, name);
        } else {
          docm.SetAttribute(n, name, v);
        }
    }
  }

  method SetTemplateAttributes(docm: DocumentMutator, n: NodeId, tag: string, attrs: seq<TemplateAttribute>, ghost X: set<NodeId>)
    requires docm.Valid() && n in docm.doc.nodes && n !in X && Closed(docm.doc.nodes, X)
    requires forall i :: 0 <= i < |attrs| ==> attrs[i].Static? ==> attrs[i].name != "dangerous_inner_html"
    requires var nd := docm.doc.nodes[n];
             nd.data == ElementOf(tag, map[]) && nd.state == ElementState(tag, map[]) && nd.parent == None && nd.children == [] && !nd.inDoc
    modifies docm`mutationsOccurred, docm.doc`nodes, docm.doc`snapshots, docm.doc`nodesToId, docm.doc`records
    ensures docm.Valid() && Undisturbed(old(docm.doc.nodes), docm.doc.nodes, X) && docm.doc.nodes.Keys == old(docm.doc.nodes).Keys
    ensures var nd, m := docm.doc.nodes[n], BuildAttrs(attrs);
            nd.data == ElementOf(tag, m) && nd.state == ElementState(tag, m) && nd.parent == None && nd.children == [] && !nd.inDoc
  {
    hide LitChains, FocusLit, ListsBelow, Moved, Outside, UnderAny, KeepsLights, EntersUnlit, MoveLog, InsertedAtOnce;
    hide Tree, Flags, Index, IdCached, UiLive, Journal, Replayed, Logged, View, Closed, Undisturbed, ElementOf, BuildAttrs,
         AttrEdit, ElementState;
    ghost var a := docm.doc.nodes;
    NothingDone(a, X, docm.doc.root);
    NoAttrs(attrs);
    for i := 0 to |attrs|
      invariant docm.Valid() && Undisturbed(a, docm.doc.nodes, X) && docm.doc.nodes.Keys == a.Keys && Closed(docm.doc.nodes, X)
      invariant var nd, m := docm.doc.nodes[n], BuildAttrs(attrs[..i]);
                nd.data == ElementOf(tag, m) && nd.state == ElementState(tag, m) && nd.parent == None && nd.children == [] && !nd.inDoc
    {
      ghost var b := docm.doc.nodes;
      BuildMore(b[n], tag, attrs, i);
      match attrs[i] {
        case Static(name, value) =>
          SetAttributeInner(docm, name, Some(value), value == "false", n);
          EditUndisturbed(b, n, docm.doc.nodes[n], docm.doc.root, X);
          ClosedStep(b, docm.doc.nodes, docm.doc.root, X);
          UndisturbedTrans(a, b, docm.doc.nodes, X);
        case DynamicAttribute =>
      }
    }
    assert attrs[..|attrs|] == attrs;
  }

  lemma NothingDone(a: Arena, X: set<NodeId>, root: NodeId)
    requires Tree(a, root) && Closed(a, X)
    ensures Undisturbed(a, a, X)
  {
    hide Forest;
    forall p, c | p in a && c in a[p].children && c in X ensures p in X { ChildLink(a, root, p, c); }
  }

  lemma NoAttrs(attrs: seq<TemplateAttribute>)
    ensures BuildAttrs(attrs[..0]) == map[]
  {
  }

  /** create_template_node: a fresh detached tree that holds what t stands for. */
  method CreateTemplateNode(docm: DocumentMutator, t: TemplateNode) returns (n: NodeId)
    requires docm.Valid() && Plain(t)
    modifies docm`mutationsOccurred, docm.doc
    ensures docm.Valid() && Undisturbed(old(docm.doc.nodes), docm.doc.nodes, old(docm.doc.nodes).Keys)
    ensures n in docm.doc.nodes && n !in old(docm.doc.nodes) && docm.doc.nodes[n].parent == None
    ensures Stands(docm.doc.nodes, n, t) && NewBelow(old(docm.doc.nodes), [n], docm.doc.nodes)
    ensures forall x :: x in docm.doc.nodes && x !in old(docm.doc.nodes) ==> old(docm.doc.nextId) <= x
    ensures old(docm.doc.nextId) <= docm.doc.nextId
    decreases t, 1
  {
    hide NewBelow, Grown, LitChains, FocusLit, ListsBelow, Moved, Outside, UnderAny, KeepsLights, EntersUnlit, MoveLog, InsertedAtOnce;
    hide Tree, Flags, Index, IdCached, UiLive, Journal, Replayed, Logged, View, Closed, Undisturbed, ElementOf, BuildAttrs,
         AttrEdit,
         Made, Adoptable, Insertable, PlacedAt, CopyAt, DataOf, StateOf, Kids, BuildAll, BuildStatesAll, ElementState, SameStates;
    ghost var a0 := docm.doc.nodes;
    match t {
      case TemplateElement(tag, attrs, children) =>
        n := docm.CreateElement(tag, map[]);
        ElementMade(a0, docm.doc.root, n, tag, docm.doc.nodes);
        ghost var b := docm.doc.nodes;
        SetTemplateAttributes(docm, n, tag, attrs, a0.Keys);
        UndisturbedTrans(a0, b, docm.doc.nodes, a0.Keys);
        ghost var a1 := docm.doc.nodes;
        var childIds := CreateTemplateChildren(docm, t, a1);
        ghost var a := docm.doc.nodes;
        MadeReady(a1, docm.doc.root, n, children, a, childIds);
        LeafAppend(a, docm.doc.root, n, childIds);
        ghost var u, w := docm.doc.ui, docm.doc.flushed;
        docm.AppendChildren(n, childIds);
        DetachedStates(a, docm.doc.root, u, w, docm.doc.nodes, docm.doc.ui, docm.doc.flushed, n, childIds);
        MadeDone(a0, a1, docm.doc.root, n, tag, BuildAttrs(attrs), children, a, childIds, docm.doc.nodes);
        KeysOfData(a, docm.doc.nodes);
        TemplateBelow(a0, a1, docm.doc.root, n, a, childIds, docm.doc.nodes);
      case TemplateText(text) =>
        n := docm.CreateTextNode(text);
        LeafMade(a0, docm.doc.root, n, docm.doc.nodes);
        NewBelowFresh(a0, docm.doc.root, n, docm.doc.nodes);
      case TemplateDynamic =>
        n := docm.CreateCommentNode("");
        LeafMade(a0, docm.doc.root, n, docm.doc.nodes);
        NewBelowFresh(a0, docm.doc.root, n, docm.doc.nodes);
    }
  }

  method CreateTemplateChildren(docm: DocumentMutator, t: TemplateNode, ghost a1: Arena) returns (ids: seq<NodeId>)
    requires docm.Valid() && Plain(t) && t.TemplateElement? && a1 == docm.doc.nodes
    modifies docm`mutationsOccurred, docm.doc
    ensures docm.Valid() && Undisturbed(a1, docm.doc.nodes, a1.Keys)
    ensures Made(t.children, docm.doc.root, a1, docm.doc.nodes, ids) && NewBelow(a1, ids, docm.doc.nodes)
    ensures forall x :: x in docm.doc.nodes && x !in a1 ==> old(docm.doc.nextId) <= x
    ensures old(docm.doc.nextId) <= docm.doc.nextId
    decreases t, 0
  {
    hide Tree, Flags, Index, IdCached, UiLive, Journal, Replayed, Logged, View, Closed, Undisturbed, Made, Stands, Grown, NewBelow;
    assert NewBelow(a1, [], a1) by { NoneBelow(a1); }
    AllClosed(a1, docm.doc.root);
    NothingDone(a1, a1.Keys, docm.doc.root);
    MadeNone(docm.doc.root, a1);
    assert t.children[..0] == [];
    ids := [];
    for i := 0 to |t.children|
      invariant docm.Valid() && Undisturbed(a1, docm.doc.nodes, a1.Keys)
      invariant Made(t.children[..i], docm.doc.root, a1, docm.doc.nodes, ids) && NewBelow(a1, ids, docm.doc.nodes)
      invariant forall x :: x in docm.doc.nodes && x !in a1 ==> old(docm.doc.nextId) <= x
      invariant old(docm.doc.nextId) <= docm.doc.nextId
    {
      ghost var b := docm.doc.nodes;
      var c := CreateTemplateNode(docm, t.children[i]);
      MadeMore(t.children, i, docm.doc.root, a1, b, ids, docm.doc.nodes, c);
      UndisturbedGrown(b, docm.doc.nodes, docm.doc.root);
      NewBelowMore(a1, docm.doc.root, b, ids, docm.doc.nodes, c);
      ids := ids + [c];
    }
    assert t.children[..|t.children|] == t.children;
  }

  lemma ElementMade(a0: Arena, root: NodeId, n: NodeId, tag: string, b: Arena)
    requires Tree(a0, root) && Tree(b, root) && n !in a0 && b == a0[n := NewElement(tag, map[])] && Extends(a0, b)
    ensures n in b && n !in a0.Keys && n != root && b[n].parent == None && b[n].children == []
    ensures b[n].data == ElementOf(tag, map[]) && b[n].state == ElementState(tag, map[])
    ensures Undisturbed(a0, b, a0.Keys) && Closed(b, a0.Keys)
  {
    hide Tree, Closed, Undisturbed;
    RootParentless(a0, root);
    AllClosed(a0, root);
    ExtendsUndisturbed(a0, b, root, a0.Keys);
    ClosedStep(a0, b, root, a0.Keys);
  }

  lemma LeafMade(a0: Arena, root: NodeId, n: NodeId, b: Arena)
    requires Tree(a0, root) && Tree(b, root) && n !in a0 && n in b && b == a0[n := b[n]] && b[n].children == [] && b[n].parent == None
    ensures Undisturbed(a0, b, a0.Keys)
    ensures CopyAt(Kids(b), DataOf(b), n) == Some(Branch(b[n].data, []))
    ensures !b[n].data.Element? ==> CopyAt(Kids(b), StateOf(b), n) == Some(Branch({}, []))
  {
    hide Tree, Closed, RankOK;
    AllClosed(a0, root);
    ExtendsUndisturbed(a0, b, root, a0.Keys);
    TreeForest(b, root);
    assert Kids(b)[n] == [] && DataOf(b)[n] == b[n].data && DataOf(b).Keys == Kids(b).Keys;
    CopyUnfold(Kids(b), DataOf(b), n);
    assert n in StateOf(b) && StateOf(b).Keys == Kids(b).Keys;
    CopyUnfold(Kids(b), StateOf(b), n);
  }

  /** Appending detached nodes to a detached one changes no state. */
  lemma DetachedStates(a: Arena, root: NodeId, ui: Ui, was: map<NodeId, Flushed>, b: Arena, ui': Ui, was': map<NodeId, Flushed>,
                       n: NodeId, ids: seq<NodeId>)
    requires Tree(a, root) && Flags(a, root) && Adoptable(a, root, n, ids) && Moved(a, ui, was, b, ui', was', ids)
    ensures SameStates(a, b, a.Keys)
  {
    hide Tree, Flags, UnderAny, Left, ForgetAll, NoDup;
    forall x | x in a && x in b ensures b[x].state == a[x].state {
      assert ShiftedNode(a[x], b[x], ui.focus == Some(x));
      if b[x].inDoc != a[x].inDoc { NothingBelowDetached(a, root, ids, x); }
    }
  }

  lemma LeafAppend(a: Arena, root: NodeId, n: NodeId, ids: seq<NodeId>)
    requires Adoptable(a, root, n, ids)
    ensures n in a && |a[n].children| == 0
  {
  }

  // ------------------------------------------------------------------ the state

  class DioxusState {
    var templates: map<Template, seq<NodeId>>
    var stack: seq<NodeId>
    var nodeIdMapping: Forward
    var elementIdMapping: Reverse
    /** The nodes of all cached template trees. */
    ghost var sealed: set<NodeId>

    ghost predicate SoundIn(a: Arena, root: NodeId, next: NodeId)
      reads this
    {
      Sound(a, root, next, sealed, templates, stack, nodeIdMapping, elementIdMapping)
    }

    ghost predicate Inverted()
      reads this
    {
      Inverse(nodeIdMapping, elementIdMapping)
    }

    constructor (rootId: NodeId)
      ensures templates == map[] && stack == [rootId]
      ensures nodeIdMapping == [Some(rootId)] && elementIdMapping == map[rootId := 0] && Inverted()
      ensures forall a: Arena, root, next: NodeId :: rootId in a && rootId < next ==> SoundIn(a, root, next)
    {
      templates, stack := map[], [rootId];
      nodeIdMapping, elementIdMapping, sealed := [Some(rootId)], map[rootId := 0], {};
    }

    method AnchorAndNodes(e: ElementId, m: nat) returns (anchor: NodeId, nodes: seq<NodeId>)
      requires NodeOf(nodeIdMapping, e).Some? && m <= |stack|
      modifies `stack
      ensures NodeOf(nodeIdMapping, e) == Some(anchor) && old(stack) == stack + nodes && |nodes| == m
    {
      anchor := NodeOf(nodeIdMapping, e).value;
      nodes := MStackNodes(m);
    }

    /** Splits the top m nodes off the stack. */
    method MStackNodes(m: nat) returns (nodes: seq<NodeId>)
      requires m <= |stack|
      modifies `stack
      ensures old(stack) == stack + nodes && |nodes| == m
    {
      nodes := stack[|stack| - m..];
      stack := stack[..|stack| - m];
    }

    /** The names of a dropped node are forgotten. */
    method ForgetNames(dropped: seq<NodeId>)
      requires Synced(nodeIdMapping, elementIdMapping) && NoDup(dropped)
      modifies `nodeIdMapping, `elementIdMapping
      ensures Unnamed(old(nodeIdMapping), old(elementIdMapping), Members(dropped), nodeIdMapping, elementIdMapping)
    {
      ghost var fwd, rev := nodeIdMapping, elementIdMapping;
      UnnamedNone(fwd, rev);
      assert Members(dropped[..0]) == {};
      for i := 0 to |dropped|
        invariant Unnamed(fwd, rev, Members(dropped[..i]), nodeIdMapping, elementIdMapping)
      {
        var d := dropped[i];
        ghost var f1, r1 := nodeIdMapping, elementIdMapping;
        if d in elementIdMapping {
          var e := elementIdMapping[d];
          elementIdMapping := elementIdMapping - {d};
          if NodeOf(nodeIdMapping, e) == Some(d) {
            nodeIdMapping := nodeIdMapping[e := None];
          }
        }
        NoDupPrefix(dropped, i);
        assert elementIdMapping == r1 - {d};
        UnnamedMore(fwd, rev, Members(dropped[..i]), f1, r1, d, nodeIdMapping, elementIdMapping);
      }
      assert dropped[..|dropped|] == dropped;
    }
  }

  // ----------------------------------------------------------------- the writer

  /** The records of a replacement: the nodes leave their old parents, come in, and
      the anchor goes. */
  ghost function ReplaceLog(a: Arena, anchor: NodeId, N: seq<NodeId>): seq<Record> {
    if anchor in a && a[anchor].parent.Some? then
      var P := a[anchor].parent.value;
      MoveLog(a, N) + InsertedAtOnce(P, N) + [ChildList(P, [], [anchor])]
    else []
  }

  class MutationWriter {
    const docm: DocumentMutator
    const state: DioxusState

    ghost predicate Valid()
      reads this, docm, docm.doc, state
    {
      docm.Valid() && state.SoundIn(docm.doc.nodes, docm.doc.root, docm.doc.nextId)
    }

    constructor (doc: BaseDocument, state: DioxusState)
      requires doc.Valid() && state.SoundIn(doc.nodes, doc.root, doc.nextId)
      ensures Valid() && docm.doc == doc && this.state == state && fresh(docm)
    {
      docm := new DocumentMutator(doc);
      this.state := state;
    }

    /** Names a node, taking the element id from whichever node had it. */
    method SetIdMapping(n: NodeId, e: ElementId)
      modifies state`nodeIdMapping, state`elementIdMapping
      ensures Renamed(old(state.nodeIdMapping), old(state.elementIdMapping), n, e, state.nodeIdMapping, state.elementIdMapping)
    {
      if |state.nodeIdMapping| <= e {
        state.nodeIdMapping := Padded(state.nodeIdMapping, e + 1);
      }
      var oldNode := state.nodeIdMapping[e];
      state.nodeIdMapping := state.nodeIdMapping[e := Some(n)];
      if oldNode.Some? && Lookup(state.elementIdMapping, oldNode.value) == Some(e) {
        state.elementIdMapping := state.elementIdMapping - {oldNode.value};
      }
      state.elementIdMapping := state.elementIdMapping[n := e];
    }

    /** Names a new node and pushes it. */
    method MapNewNode(n: NodeId, e: ElementId)
      requires Valid() && n in docm.doc.nodes && n !in state.sealed && n < docm.doc.nextId && n !in state.elementIdMapping
      modifies state`nodeIdMapping, state`elementIdMapping, state`stack
      ensures Valid() && state.stack == old(state.stack) + [n]
      ensures NodeOf(state.nodeIdMapping, e) == Some(n) && (old(state.Inverted()) ==> state.Inverted())
      ensures Renamed(old(state.nodeIdMapping), old(state.elementIdMapping), n, e, state.nodeIdMapping, state.elementIdMapping)
    {
      hide Sound, Inverse, Renamed, NodeOf;
      hide Tree, Flags, Index, IdCached, UiLive, Journal, Replayed, Logged, View;
      ghost var s, fwd, rev := state.stack, state.nodeIdMapping, state.elementIdMapping;
      SetIdMapping(n, e);
      SoundRenamed(docm.doc.nodes, docm.doc.root, docm.doc.nextId, state.sealed, state.templates, s, fwd, rev, n, e,
                   state.nodeIdMapping, state.elementIdMapping);
      state.stack := state.stack + [n];
      SoundStack(docm.doc.nodes, docm.doc.root, docm.doc.nextId, state.sealed, state.templates, s,
                 state.nodeIdMapping, state.elementIdMapping, state.stack);
    }

    /** The node at a path below the top of the stack. */
    method LoadChild(path: seq<nat>) returns (r: NodeId)
      requires state.stack != [] && Reaches(docm.doc.nodes, state.stack[|state.stack| - 1], path)
      ensures r == Follow(docm.doc.nodes, state.stack[|state.stack| - 1], path) && r in docm.doc.nodes
    {
      var top := state.stack[|state.stack| - 1];
      r := top;
      assert path[0..] == path;
      for i := 0 to |path|
        invariant Reaches(docm.doc.nodes, r, path[i..])
        invariant Follow(docm.doc.nodes, r, path[i..]) == Follow(docm.doc.nodes, top, path)
      {
        assert path[i..][0] == path[i] && path[i..][1..] == path[i + 1..];
        r := docm.doc.nodes[r].children[path[i]];
      }
    }

    /** create_placeholder: an empty comment. */
    method CreatePlaceholder(e: ElementId) returns (n: NodeId)
      requires Valid()
      modifies docm.doc`nodes, docm.doc`nextId, state
      ensures Valid() && n !in old(docm.doc.nodes) && docm.doc.nodes == old(docm.doc.nodes)[n := NewNode(Comment(""), {})]
      ensures n == old(docm.doc.nextId)
      ensures Renamed(old(state.nodeIdMapping), old(state.elementIdMapping), n, e, state.nodeIdMapping, state.elementIdMapping)
      ensures state.stack == old(state.stack) + [n] && NodeOf(state.nodeIdMapping, e) == Some(n)
      ensures (old(state.Inverted()) ==> state.Inverted()) && state.templates == old(state.templates)
    {
      hide Sound, Inverse, Renamed, NodeOf;
      hide Tree, Flags, Index, IdCached, UiLive, Journal, Replayed, Logged, View;
      ghost var a := docm.doc.nodes;
      n := docm.CreateCommentNode("");
      NewOutside(a, docm.doc.nodes, docm.doc.root, old(docm.doc.nextId), docm.doc.nextId, state.sealed, state.templates, state.stack,
                 state.nodeIdMapping, state.elementIdMapping, n);
      MapNewNode(n, e);
    }

    method CreateTextNode(value: string, e: ElementId) returns (n: NodeId)
      requires Valid()
      modifies docm.doc`nodes, docm.doc`nextId, state
      ensures Valid() && n !in old(docm.doc.nodes) && docm.doc.nodes == old(docm.doc.nodes)[n := NewNode(Text(value), {})]
      ensures n == old(docm.doc.nextId)
      ensures Renamed(old(state.nodeIdMapping), old(state.elementIdMapping), n, e, state.nodeIdMapping, state.elementIdMapping)
      ensures state.stack == old(state.stack) + [n] && NodeOf(state.nodeIdMapping, e) == Some(n)
      ensures (old(state.Inverted()) ==> state.Inverted()) && state.templates == old(state.templates)
    {
      hide Sound, Inverse, Renamed, NodeOf;
      hide Tree, Flags, Index, IdCached, UiLive, Journal, Replayed, Logged, View;
      ghost var a := docm.doc.nodes;
      n := docm.CreateTextNode(value);
      NewOutside(a, docm.doc.nodes, docm.doc.root, old(docm.doc.nextId), docm.doc.nextId, state.sealed, state.templates, state.stack,
                 state.nodeIdMapping, state.elementIdMapping, n);
      MapNewNode(n, e);
    }

    /** The named node, and whether it is still there. */
    ghost predicate Names(e: ElementId, n: NodeId)
      reads state, docm, docm.doc
    {
      NodeOf(state.nodeIdMapping, e) == Some(n) && n in docm.doc.nodes
    }

    /** The top m nodes of the stack. */
    ghost function Top(m: nat): seq<NodeId>
      reads state
    {
      if m <= |state.stack| then state.stack[|state.stack| - m..] else state.stack
    }

    method AppendChildren(e: ElementId, m: nat, ghost P: NodeId)
      requires Valid() && m <= |state.stack| && Names(e, P)
      requires Insertable(docm.doc.nodes, docm.doc.root, P, Top(m))
      modifies docm`mutationsOccurred, docm.doc, state`stack
      ensures Valid() && old(state.stack) == state.stack + old(Top(m))
      ensures var C := old(docm.doc.nodes)[P].children;
              Kids(docm.doc.nodes) == PlacedAt(old(Kids(docm.doc.nodes)), P, |C|, |C|, old(Top(m)))
      ensures DataOf(docm.doc.nodes) == old(DataOf(docm.doc.nodes))
      ensures Moved(old(docm.doc.nodes), old(docm.doc.ui), old(docm.doc.flushed), docm.doc.nodes, docm.doc.ui, docm.doc.flushed, old(Top(m)))
      ensures docm.doc.records == old(docm.doc.records) + MoveLog(old(docm.doc.nodes), old(Top(m))) + InsertedAtOnce(P, old(Top(m)))
    {
      hide Sound, NodeOf, Inverse, Insertable, PlacedAt, Kids, DataOf;
      hide Tree, Flags, Index, IdCached, UiLive, Journal, Replayed, Logged, View,
           LitChains, FocusLit, ListsBelow, Moved, Outside, UnderAny, KeepsLights, EntersUnlit, MoveLog, InsertedAtOnce, CutLog, ForgetAll, HeirOr,
           SubtreeOf, SameStates, Closed;
      ghost var a, s := docm.doc.nodes, state.stack;
      var parent, children := state.AnchorAndNodes(e, m);
      assert children == s[|s| - m..] == old(Top(m));
      NamedOutside(a, docm.doc.root, docm.doc.nextId, state.sealed, state.templates, s, state.nodeIdMapping, state.elementIdMapping, e, parent);
      ghost var u, w := docm.doc.ui, docm.doc.flushed;
      SoundClosed(a, docm.doc.root, docm.doc.nextId, state.sealed, state.templates, s, state.nodeIdMapping, state.elementIdMapping);
      docm.AppendChildren(parent, children);
      MovedStates(a, docm.doc.root, state.sealed, u, w, docm.doc.nodes, docm.doc.ui, docm.doc.flushed, children);
      SoundPlaced(a, docm.doc.nodes, docm.doc.root, docm.doc.nextId, state.sealed, state.templates, s, state.nodeIdMapping,
                  state.elementIdMapping, parent, |a[parent].children|, |a[parent].children|, children, state.stack);
    }

    method InsertNodesAfter(e: ElementId, m: nat, ghost anchor: NodeId)
      requires Valid() && m <= |state.stack| && Names(e, anchor) && docm.doc.nodes[anchor].parent.Some?
      requires Insertable(docm.doc.nodes, docm.doc.root, docm.doc.nodes[anchor].parent.value, Top(m))
      requires var C := docm.doc.nodes[docm.doc.nodes[anchor].parent.value].children;
               IndexOf(C, anchor) + 1 < |C| ==> C[IndexOf(C, anchor) + 1] !in Top(m)
      modifies docm`mutationsOccurred, docm.doc, state`stack
      ensures Valid() && old(state.stack) == state.stack + old(Top(m))
      ensures var P := old(docm.doc.nodes)[anchor].parent.value;
              var i := IndexOf(old(docm.doc.nodes)[P].children, anchor) + 1;
              Kids(docm.doc.nodes) == PlacedAt(old(Kids(docm.doc.nodes)), P, i, i, old(Top(m)))
      ensures DataOf(docm.doc.nodes) == old(DataOf(docm.doc.nodes))
      ensures Moved(old(docm.doc.nodes), old(docm.doc.ui), old(docm.doc.flushed), docm.doc.nodes, docm.doc.ui, docm.doc.flushed, old(Top(m)))
      ensures docm.doc.records == old(docm.doc.records) + MoveLog(old(docm.doc.nodes), old(Top(m)))
        + InsertedAtOnce(old(docm.doc.nodes)[anchor].parent.value, old(Top(m)))
    {
      hide Sound, NodeOf, Inverse, Insertable, PlacedAt, Kids, DataOf;
      hide Tree, Flags, Index, IdCached, UiLive, Journal, Replayed, Logged, View,
           LitChains, FocusLit, ListsBelow, Moved, Outside, UnderAny, KeepsLights, EntersUnlit, MoveLog, InsertedAtOnce, CutLog, ForgetAll, HeirOr,
           SubtreeOf, SameStates, Closed;
      ghost var a, s := docm.doc.nodes, state.stack;
      ghost var P := a[anchor].parent.value;
      var anchorId, nodes := state.AnchorAndNodes(e, m);
      assert nodes == s[|s| - m..] == old(Top(m));
      NamedOutside(a, docm.doc.root, docm.doc.nextId, state.sealed, state.templates, s, state.nodeIdMapping, state.elementIdMapping, e, anchor);
      ParentFacts(a, docm.doc.root, anchor);
      ghost var u, w := docm.doc.ui, docm.doc.flushed;
      SoundClosed(a, docm.doc.root, docm.doc.nextId, state.sealed, state.templates, s, state.nodeIdMapping, state.elementIdMapping);
      docm.InsertNodesAfter(anchorId, nodes);
      MovedStates(a, docm.doc.root, state.sealed, u, w, docm.doc.nodes, docm.doc.ui, docm.doc.flushed, nodes);
      ghost var i := IndexOf(a[P].children, anchor) + 1;
      SoundPlaced(a, docm.doc.nodes, docm.doc.root, docm.doc.nextId, state.sealed, state.templates, s, state.nodeIdMapping,
                  state.elementIdMapping, P, i, i, nodes, state.stack);
    }

    method InsertNodesBefore(e: ElementId, m: nat, ghost anchor: NodeId)
      requires Valid() && m <= |state.stack| && Names(e, anchor) && docm.doc.nodes[anchor].parent.Some? && anchor !in Top(m)
      requires Insertable(docm.doc.nodes, docm.doc.root, docm.doc.nodes[anchor].parent.value, Top(m))
      modifies docm`mutationsOccurred, docm.doc, state`stack
      ensures Valid() && old(state.stack) == state.stack + old(Top(m))
      ensures var P := old(docm.doc.nodes)[anchor].parent.value;
              var i := IndexOf(old(docm.doc.nodes)[P].children, anchor);
              Kids(docm.doc.nodes) == PlacedAt(old(Kids(docm.doc.nodes)), P, i, i, old(Top(m)))
      ensures DataOf(docm.doc.nodes) == old(DataOf(docm.doc.nodes))
      ensures Moved(old(docm.doc.nodes), old(docm.doc.ui), old(docm.doc.flushed), docm.doc.nodes, docm.doc.ui, docm.doc.flushed, old(Top(m)))
      ensures docm.doc.records == old(docm.doc.records) + MoveLog(old(docm.doc.nodes), old(Top(m)))
        + InsertedAtOnce(old(docm.doc.nodes)[anchor].parent.value, old(Top(m)))
    {
      hide Sound, NodeOf, Inverse, Insertable, PlacedAt, Kids, DataOf;
      hide Tree, Flags, Index, IdCached, UiLive, Journal, Replayed, Logged, View,
           LitChains, FocusLit, ListsBelow, Moved, Outside, UnderAny, KeepsLights, EntersUnlit, MoveLog, InsertedAtOnce, CutLog, ForgetAll, HeirOr,
           SubtreeOf, SameStates, Closed;
      ghost var a, s := docm.doc.nodes, state.stack;
      ghost var P := a[anchor].parent.value;
      var anchorId, nodes := state.AnchorAndNodes(e, m);
      assert nodes == s[|s| - m..] == old(Top(m));
      NamedOutside(a, docm.doc.root, docm.doc.nextId, state.sealed, state.templates, s, state.nodeIdMapping, state.elementIdMapping, e, anchor);
      ParentFacts(a, docm.doc.root, anchor);
      ghost var u, w := docm.doc.ui, docm.doc.flushed;
      SoundClosed(a, docm.doc.root, docm.doc.nextId, state.sealed, state.templates, s, state.nodeIdMapping, state.elementIdMapping);
      docm.InsertNodesBefore(anchorId, nodes);
      MovedStates(a, docm.doc.root, state.sealed, u, w, docm.doc.nodes, docm.doc.ui, docm.doc.flushed, nodes);
      ghost var i := IndexOf(a[P].children, anchor);
      SoundPlaced(a, docm.doc.nodes, docm.doc.root, docm.doc.nextId, state.sealed, state.templates, s, state.nodeIdMapping,
                  state.elementIdMapping, P, i, i, nodes, state.stack);
    }

    /** The common part of the two replacing operations. */
    method Replace(anchor: NodeId, nodes: seq<NodeId>)
      requires Valid() && anchor in docm.doc.nodes && anchor !in state.sealed && (forall n :: n in nodes ==> n !in state.sealed)
      requires docm.doc.nodes[anchor].parent.Some? && anchor !in nodes
      requires Insertable(docm.doc.nodes, docm.doc.root, docm.doc.nodes[anchor].parent.value, nodes)
      modifies docm`mutationsOccurred, docm.doc
      ensures Valid()
      ensures var P := old(docm.doc.nodes)[anchor].parent.value;
              var i := IndexOf(old(docm.doc.nodes)[P].children, anchor);
              Kids(docm.doc.nodes) == PlacedAt(old(Kids(docm.doc.nodes)), P, i, i + 1, nodes)
      ensures DataOf(docm.doc.nodes) == old(DataOf(docm.doc.nodes))
      ensures Outside(old(docm.doc.nodes), old(docm.doc.ui), old(docm.doc.flushed), docm.doc.nodes, docm.doc.ui, docm.doc.flushed,
                      UnderAny(old(docm.doc.nodes), nodes + [anchor]))
      ensures docm.doc.records == old(docm.doc.records) + ReplaceLog(old(docm.doc.nodes), anchor, nodes)
    {
      hide Sound, NodeOf, Inverse, Insertable, PlacedAt, Kids, DataOf;
      hide Tree, Flags, Index, IdCached, UiLive, Journal, Replayed, Logged, View,
           LitChains, FocusLit, ListsBelow, Moved, Outside, UnderAny, KeepsLights, EntersUnlit, MoveLog, InsertedAtOnce, CutLog, ForgetAll, HeirOr,
           SubtreeOf, SameStates, Closed;
      ghost var a := docm.doc.nodes;
      ghost var P := a[anchor].parent.value;
      ParentFacts(a, docm.doc.root, anchor);
      ParentOutside(a, docm.doc.root, docm.doc.nextId, state.sealed, state.templates, state.stack,
                    state.nodeIdMapping, state.elementIdMapping, anchor);
      ghost var u, w := docm.doc.ui, docm.doc.flushed;
      SoundClosed(a, docm.doc.root, docm.doc.nextId, state.sealed, state.templates, state.stack, state.nodeIdMapping, state.elementIdMapping);
      docm.ReplaceNodeWith(anchor, nodes);
      ApartStates(a, docm.doc.root, state.sealed, u, w, docm.doc.nodes, docm.doc.ui, docm.doc.flushed, nodes + [anchor]);
      ghost var i := IndexOf(a[P].children, anchor);
      SoundPlacedAt(a, docm.doc.nodes, docm.doc.root, docm.doc.nextId, state.sealed, state.templates, state.stack, state.nodeIdMapping,
                    state.elementIdMapping, P, i, i + 1, nodes);
    }

    method ReplaceNodeWith(e: ElementId, m: nat, ghost anchor: NodeId)
      requires Valid() && m <= |state.stack| && Names(e, anchor) && docm.doc.nodes[anchor].parent.Some? && anchor !in Top(m)
      requires Insertable(docm.doc.nodes, docm.doc.root, docm.doc.nodes[anchor].parent.value, Top(m))
      modifies docm`mutationsOccurred, docm.doc, state`stack
      ensures Valid() && old(state.stack) == state.stack + old(Top(m))
      ensures var P := old(docm.doc.nodes)[anchor].parent.value;
              var i := IndexOf(old(docm.doc.nodes)[P].children, anchor);
              Kids(docm.doc.nodes) == PlacedAt(old(Kids(docm.doc.nodes)), P, i, i + 1, old(Top(m)))
      ensures DataOf(docm.doc.nodes) == old(DataOf(docm.doc.nodes))
      ensures Outside(old(docm.doc.nodes), old(docm.doc.ui), old(docm.doc.flushed), docm.doc.nodes, docm.doc.ui, docm.doc.flushed,
                      UnderAny(old(docm.doc.nodes), old(Top(m)) + [anchor]))
      ensures docm.doc.records == old(docm.doc.records) + ReplaceLog(old(docm.doc.nodes), anchor, old(Top(m)))
    {
      hide Sound, NodeOf, Inverse, Insertable, PlacedAt, Kids, DataOf;
      hide Tree, Flags, Index, IdCached, UiLive, Journal, Replayed, Logged, View,
           LitChains, FocusLit, ListsBelow, Moved, Outside, UnderAny, KeepsLights, EntersUnlit, MoveLog, InsertedAtOnce, CutLog, ForgetAll, HeirOr,
           SubtreeOf, SameStates, Closed, ReplaceLog;
      ghost var a, s := docm.doc.nodes, state.stack;
      var anchorId, nodes := state.AnchorAndNodes(e, m);
      assert nodes == s[|s| - m..] == old(Top(m));
      NamedOutside(a, docm.doc.root, docm.doc.nextId, state.sealed, state.templates, s, state.nodeIdMapping, state.elementIdMapping, e, anchor);
      SoundStack(a, docm.doc.root, docm.doc.nextId, state.sealed, state.templates, s, state.nodeIdMapping, state.elementIdMapping, state.stack);
      Replace(anchorId, nodes);
    }

    /** The new nodes are taken off the stack before the placeholder is looked up
        below its new top. */
    method ReplacePlaceholderWithNodes(path: seq<nat>, m: nat)
      requires Valid() && m < |state.stack|
      requires var top := state.stack[|state.stack| - m - 1];
               && Reaches(docm.doc.nodes, top, path)
               && var anchor := Follow(docm.doc.nodes, top, path);
                  && anchor in docm.doc.nodes && docm.doc.nodes[anchor].parent.Some? && anchor !in Top(m)
                  && Insertable(docm.doc.nodes, docm.doc.root, docm.doc.nodes[anchor].parent.value, Top(m))
      modifies docm`mutationsOccurred, docm.doc, state`stack
      ensures Valid() && old(state.stack) == state.stack + old(Top(m))
      ensures var anchor := Follow(old(docm.doc.nodes), state.stack[|state.stack| - 1], path);
              anchor in old(docm.doc.nodes) && old(docm.doc.nodes)[anchor].parent.Some? &&
              var P := old(docm.doc.nodes)[anchor].parent.value;
              P in old(docm.doc.nodes) &&
              var i := IndexOf(old(docm.doc.nodes)[P].children, anchor);
              Kids(docm.doc.nodes) == PlacedAt(old(Kids(docm.doc.nodes)), P, i, i + 1, old(Top(m)))
      ensures DataOf(docm.doc.nodes) == old(DataOf(docm.doc.nodes))
    {
      hide Sound, NodeOf, Inverse, Insertable, PlacedAt, Kids, DataOf, Reaches, Follow;
      hide Tree, Flags, Index, IdCached, UiLive, Journal, Replayed, Logged, View,
           LitChains, FocusLit, ListsBelow, Moved, Outside, UnderAny, KeepsLights, EntersUnlit, MoveLog, InsertedAtOnce, CutLog, ForgetAll, HeirOr,
           SubtreeOf, SameStates, Closed, ReplaceLog;
      ghost var a, s := docm.doc.nodes, state.stack;
      var nodes := state.MStackNodes(m);
      assert nodes == s[|s| - m..] == old(Top(m));
      StackOutside(a, docm.doc.root, docm.doc.nextId, state.sealed, state.templates, s, state.nodeIdMapping, state.elementIdMapping,
                   s[|s| - m - 1], path);
      SoundStack(a, docm.doc.root, docm.doc.nextId, state.sealed, state.templates, s, state.nodeIdMapping, state.elementIdMapping, state.stack);
      var anchor := LoadChild(path);
      ParentFacts(a, docm.doc.root, anchor);
      Replace(anchor, nodes);
    }

    /** remove_node: detached, not dropped, so its name stays valid. */
    method RemoveNode(e: ElementId, ghost n: NodeId)
      requires Valid() && Names(e, n) && n != docm.doc.root
      modifies docm`mutationsOccurred, docm.doc
      ensures Valid() && Kids(docm.doc.nodes) == Detached(old(Kids(docm.doc.nodes)), {n})
      ensures DataOf(docm.doc.nodes) == old(DataOf(docm.doc.nodes))
      ensures docm.doc.nodes == CutArena(old(docm.doc.nodes), n, old(docm.doc.ui).focus)
      ensures docm.doc.records == old(docm.doc.records) + CutLog(old(docm.doc.nodes), n)
    {
      hide Sound, NodeOf, Inverse, Kids, DataOf, Detached, CutArena;
      hide Tree, Flags, Index, IdCached, UiLive, Journal, Replayed, Logged, View,
           LitChains, FocusLit, ListsBelow, Moved, Outside, UnderAny, KeepsLights, EntersUnlit, MoveLog, InsertedAtOnce, CutLog, ForgetAll, HeirOr,
           SubtreeOf, SameStates, Closed;
      ghost var a := docm.doc.nodes;
      var node := NodeOf(state.nodeIdMapping, e).value;
      NamedOutside(a, docm.doc.root, docm.doc.nextId, state.sealed, state.templates, state.stack,
                   state.nodeIdMapping, state.elementIdMapping, e, node);
      CutShape(a, docm.doc.root, node, docm.doc.ui.focus);
      SoundClosed(a, docm.doc.root, docm.doc.nextId, state.sealed, state.templates, state.stack, state.nodeIdMapping, state.elementIdMapping);
      CutStates(a, docm.doc.root, state.sealed, node, docm.doc.ui.focus);
      docm.RemoveNode(node);
      SoundCut(a, docm.doc.nodes, docm.doc.root, docm.doc.nextId, state.sealed, state.templates, state.stack, state.nodeIdMapping,
               state.elementIdMapping, node);
    }

    method PushRoot(e: ElementId, ghost n: NodeId)
      requires Valid() && Names(e, n)
      modifies state`stack
      ensures Valid() && state.stack == old(state.stack) + [n]
    {
      hide Sound, NodeOf, Inverse;
      hide Tree, Flags, Index, IdCached, UiLive, Journal, Replayed, Logged, View;
      var node := NodeOf(state.nodeIdMapping, e).value;
      NamedOutside(docm.doc.nodes, docm.doc.root, docm.doc.nextId, state.sealed, state.templates, state.stack, state.nodeIdMapping,
                   state.elementIdMapping, e, node);
      SoundStack(docm.doc.nodes, docm.doc.root, docm.doc.nextId, state.sealed, state.templates, state.stack, state.nodeIdMapping,
                 state.elementIdMapping, state.stack + [node]);
      state.stack := state.stack + [node];
    }

    method SetNodeText(value: string, e: ElementId, ghost n: NodeId)
      requires Valid() && Names(e, n)
      modifies docm`mutationsOccurred, docm.doc`nodes, docm.doc`records
      ensures Valid()
      ensures docm.doc.nodes == old(docm.doc.nodes)[n := old(docm.doc.nodes)[n].(data :=
                if old(docm.doc.nodes)[n].data.Text? then Text(value) else old(docm.doc.nodes)[n].data)]
      ensures docm.doc.records == old(docm.doc.records) +
        if old(docm.doc.nodes)[n].data.Text? && old(docm.doc.nodes)[n].data.content != value then [CharacterData(n)] else []
    {
      hide Sound, NodeOf, Inverse;
      hide Tree, Flags, Index, IdCached, UiLive, Journal, Replayed, Logged, View;
      ghost var a := docm.doc.nodes;
      var node := NodeOf(state.nodeIdMapping, e).value;
      NamedOutside(a, docm.doc.root, docm.doc.nextId, state.sealed, state.templates, state.stack,
                   state.nodeIdMapping, state.elementIdMapping, e, node);
      docm.SetNodeText(node, value);
      SoundEdited(a, docm.doc.nodes, docm.doc.root, docm.doc.nextId, state.sealed, state.templates, state.stack, state.nodeIdMapping,
                  state.elementIdMapping, node);
    }

    /** set_attribute for plain attributes: `falsy` is what is_falsy says of the value. */
    method SetAttribute(name: string, value: Option<string>, falsy: bool, e: ElementId, ghost n: NodeId)
      requires Valid() && Names(e, n) && name != "dangerous_inner_html"
      modifies docm`mutationsOccurred, docm.doc`nodes, docm.doc`snapshots, docm.doc`nodesToId, docm.doc`records
      ensures Valid()
      ensures docm.doc.nodes == old(docm.doc.nodes)[n := AttrEdit(old(docm.doc.nodes)[n], name, InnerValue(name, value, falsy))]
    {
      hide Sound, NodeOf, Inverse, AttrEdit;
      hide Tree, Flags, Index, IdCached, UiLive, Journal, Replayed, Logged, View;
      ghost var a := docm.doc.nodes;
      var node := NodeOf(state.nodeIdMapping, e).value;
      NamedOutside(a, docm.doc.root, docm.doc.nextId, state.sealed, state.templates, state.stack,
                   state.nodeIdMapping, state.elementIdMapping, e, node);
      SetAttributeInner(docm, name, value, falsy, node);
      AttrEditLists(a[node], name, InnerValue(name, value, falsy));
      SoundEdited(a, docm.doc.nodes, docm.doc.root, docm.doc.nextId, state.sealed, state.templates, state.stack, state.nodeIdMapping,
                  state.elementIdMapping, node);
    }

    /** The unparented node an element id names, which assigning the id drops. */
    ghost function Orphan(e: ElementId): set<NodeId>
      reads state, docm, docm.doc
    {
      match NodeOf(state.nodeIdMapping, e)
      case Some(n) => if n in docm.doc.nodes && docm.doc.nodes[n].parent == None then SubtreeOf(docm.doc.nodes, n) else {}
      case None => {}
    }

    /** assign_node_id: the old node of the id, if detached, is dropped with its
        whole subtree and every name in it; then the id names the node at the path. */
    method AssignNodeId(path: seq<nat>, e: ElementId)
      requires Valid() && state.stack != [] && Reaches(docm.doc.nodes, state.stack[|state.stack| - 1], path)
      requires NodeOf(state.nodeIdMapping, e) != Some(docm.doc.root)
      requires forall s :: s in state.stack ==> s !in Orphan(e)
      modifies docm`mutationsOccurred, docm.doc, state`nodeIdMapping, state`elementIdMapping
      ensures Valid() && docm.doc.nodes == old(docm.doc.nodes) - old(Orphan(e))
      ensures var child := Follow(old(docm.doc.nodes), state.stack[|state.stack| - 1], path);
              && child in docm.doc.nodes && NodeOf(state.nodeIdMapping, e) == Some(child)
              && Reassigned(old(state.nodeIdMapping), old(state.elementIdMapping), old(Orphan(e)), child, e,
                            state.nodeIdMapping, state.elementIdMapping)
              && (old(state.Inverted()) ==>
                    (state.Inverted() <==> child !in old(state.elementIdMapping) || old(state.elementIdMapping)[child] == e))
    {
      hide Sound, NodeOf, Inverse, Reaches, Follow, Renamed, Unnamed, SubtreeOf, NoDup, Orphan, Synced;
      hide Tree, Flags, Index, IdCached, UiLive, Journal, Replayed, Logged, View;
      ghost var a, E, fwd, rev := docm.doc.nodes, Orphan(e), state.nodeIdMapping, state.elementIdMapping;
      ghost var top := state.stack[|state.stack| - 1];
      DropOrphan(e);
      ghost var b, f1, r1 := docm.doc.nodes, state.nodeIdMapping, state.elementIdMapping;
      SoundDropped(a, b, docm.doc.root, docm.doc.nextId, state.sealed, state.templates, state.stack, fwd, rev, E, f1, r1);
      FollowKept(a, b, docm.doc.root, E, top, path);
      var child := LoadChild(path);
      StackOutside(b, docm.doc.root, docm.doc.nextId, state.sealed, state.templates, state.stack, f1, r1, top, path);
      BelowNext(b, docm.doc.nextId, child);
      SetIdMapping(child, e);
      SoundRenamed(b, docm.doc.root, docm.doc.nextId, state.sealed, state.templates, state.stack, f1, r1, child, e,
                   state.nodeIdMapping, state.elementIdMapping);
    }

    /** Drops the detached node an element id names, and the names in its tree. */
    method DropOrphan(e: ElementId)
      requires Valid() && NodeOf(state.nodeIdMapping, e) != Some(docm.doc.root)
      modifies docm`mutationsOccurred, docm.doc, state`nodeIdMapping, state`elementIdMapping
      ensures docm.Valid() && docm.doc.nodes == old(docm.doc.nodes) - old(Orphan(e)) && old(Orphan(e)) !! state.sealed
      ensures docm.doc.nextId == old(docm.doc.nextId)
      ensures Unnamed(old(state.nodeIdMapping), old(state.elementIdMapping), old(Orphan(e)), state.nodeIdMapping, state.elementIdMapping)
    {
      hide Sound, NodeOf, Inverse, Unnamed, SubtreeOf, NoDup, DroppedArena;
      hide Tree, Flags, Index, IdCached, UiLive, Journal, Replayed, Logged, View,
           LitChains, FocusLit, ListsBelow, Moved, Outside, UnderAny, KeepsLights, EntersUnlit, MoveLog, InsertedAtOnce, CutLog, ForgetAll, HeirOr,
           SubtreeOf, SameStates, Closed;
      ghost var a, fwd, rev := docm.doc.nodes, state.nodeIdMapping, state.elementIdMapping;
      OrphanFacts(a, docm.doc.root, docm.doc.nextId, state.sealed, state.templates, state.stack, fwd, rev, e, Orphan(e));
      SoundSynced(a, docm.doc.root, docm.doc.nextId, state.sealed, state.templates, state.stack, fwd, rev);
      UnnamedNone(fwd, rev);
      NoDupEmpty();
      assert a - {} == a;
      var oldNode := NodeOf(state.nodeIdMapping, e);
      if oldNode.Some? {
        var dropped := docm.RemoveNodeIfUnparentedWith(oldNode.value);
        state.ForgetNames(dropped);
      }
    }

    /** load_template: builds the template's roots once, then clones the wanted one. */
    method LoadTemplate(T: Template, index: nat, e: ElementId) returns (clone: NodeId)
      requires Valid() && index < |T| && forall i :: 0 <= i < |T| ==> Plain(T[i])
      modifies docm`mutationsOccurred, docm.doc, state
      ensures Valid() && Undisturbed(old(docm.doc.nodes), docm.doc.nodes, old(docm.doc.nodes).Keys)
      ensures clone in docm.doc.nodes && clone !in old(docm.doc.nodes) && docm.doc.nodes[clone].parent == None
      ensures Stands(docm.doc.nodes, clone, T[index])
      ensures state.stack == old(state.stack) + [clone] && NodeOf(state.nodeIdMapping, e) == Some(clone)
      ensures (old(state.Inverted()) ==> state.Inverted()) && T in state.templates
      ensures state.templates == old(state.templates)[T := state.templates[T]]
      ensures T in old(state.templates) ==> state.templates == old(state.templates) && Extends(old(docm.doc.nodes), docm.doc.nodes)
      ensures T in old(state.templates) ==> NewBelow(old(docm.doc.nodes), [clone], docm.doc.nodes)
    {
      hide Sound, NodeOf, Inverse, Renamed, Undisturbed, Stands, Holding, Copied, DataOf, Kids, Closed, NewBelow, FocusLit, ListsBelow, Above;
      hide Tree, Flags, Index, IdCached, UiLive, Journal, Replayed, Logged, View;
      ghost var a0 := docm.doc.nodes;
      NothingDoneAll(a0, docm.doc.root);
      RevLive(a0, docm.doc.root, docm.doc.nextId, state.sealed, state.templates, state.stack, state.nodeIdMapping, state.elementIdMapping);
      if T !in state.templates {
        var roots := BuildTemplate(T);
        state.templates := state.templates[T := roots];
      }
      ghost var a, next := docm.doc.nodes, docm.doc.nextId;
      CachedRoot(a, docm.doc.root, docm.doc.nextId, state.sealed, state.templates, state.stack, state.nodeIdMapping,
                 state.elementIdMapping, T, index);
      var root := state.templates[T][index];
      clone := docm.DeepCloneNode(root);
      BelowOne(a, docm.doc.nodes, clone);
      CloneHolds(a, root, docm.doc.nodes, clone, T[index]);
      ClonedApart(a0, a, docm.doc.nodes, docm.doc.root);
      NewOutside(a, docm.doc.nodes, docm.doc.root, next, docm.doc.nextId, state.sealed, state.templates, state.stack,
                 state.nodeIdMapping, state.elementIdMapping, clone);
      MapNewNode(clone, e);
    }

    /** Builds the roots of a template and seals their trees. */
    method BuildTemplate(T: Template) returns (roots: seq<NodeId>)
      requires Valid() && T !in state.templates && forall i :: 0 <= i < |T| ==> Plain(T[i])
      modifies docm`mutationsOccurred, docm.doc, state`sealed
      ensures docm.Valid() && Undisturbed(old(docm.doc.nodes), docm.doc.nodes, old(docm.doc.nodes).Keys)
      ensures Sound(docm.doc.nodes, docm.doc.root, docm.doc.nextId, state.sealed, state.templates[T := roots], state.stack,
                    state.nodeIdMapping, state.elementIdMapping)
    {
      hide Sound, NodeOf, Undisturbed, Stands, Made, Closed;
      hide Tree, Flags, Index, IdCached, UiLive, Journal, Replayed, Logged, View;
      ghost var a := docm.doc.nodes;
      NothingDoneAll(a, docm.doc.root);
      MadeNone(docm.doc.root, a);
      assert T[..0] == [];
      roots := [];
      for i := 0 to |T|
        invariant docm.Valid() && Undisturbed(a, docm.doc.nodes, a.Keys)
        invariant Made(T[..i], docm.doc.root, a, docm.doc.nodes, roots)
        invariant forall x :: x in docm.doc.nodes && x !in a ==> old(docm.doc.nextId) <= x
        invariant old(docm.doc.nextId) <= docm.doc.nextId
        modifies docm`mutationsOccurred, docm.doc
      {
        ghost var b := docm.doc.nodes;
        var root := CreateTemplateNode(docm, T[i]);
        MadeMore(T, i, docm.doc.root, a, b, roots, docm.doc.nodes, root);
        roots := roots + [root];
      }
      assert T[..|T|] == T;
      SoundCached(a, docm.doc.nodes, docm.doc.root, old(docm.doc.nextId), docm.doc.nextId, state.sealed, state.templates, state.stack,
                  state.nodeIdMapping, state.elementIdMapping, T, roots);
      state.sealed := state.sealed + (docm.doc.nodes.Keys - a.Keys);
    }
  }

  lemma BelowNext(a: Arena, next: NodeId, n: NodeId)
    requires n in a && forall x :: x in a ==> x < next
    ensures n < next
  {
  }

  lemma NoDupEmpty()
    ensures NoDup([]) && Members([]) == {}
  {
  }

  lemma NothingDoneAll(a: Arena, root: NodeId)
    requires Tree(a, root)
    ensures Undisturbed(a, a, a.Keys) && Extends(a, a)
  {
    hide Tree;
    AllClosed(a, root);
    NothingDone(a, a.Keys, root);
  }

  lemma SoundSynced(a: Arena, root: NodeId, next: NodeId, X: set<NodeId>, templates: map<Template, seq<NodeId>>,
                    stack: seq<NodeId>, fwd: Forward, rev: Reverse)
    requires Sound(a, root, next, X, templates, stack, fwd, rev)
    ensures Synced(fwd, rev)
  {
  }

  lemma RevLive(a: Arena, root: NodeId, next: NodeId, X: set<NodeId>, templates: map<Template, seq<NodeId>>,
                stack: seq<NodeId>, fwd: Forward, rev: Reverse)
    requires Sound(a, root, next, X, templates, stack, fwd, rev)
    ensures forall n :: n in rev ==> n in a
  {
  }

  /** What assigning an id drops is a detached tree away from the templates. */
  lemma OrphanFacts(a: Arena, root: NodeId, next: NodeId, X: set<NodeId>, templates: map<Template, seq<NodeId>>,
                    stack: seq<NodeId>, fwd: Forward, rev: Reverse, e: ElementId, E: set<NodeId>)
    requires Tree(a, root) && Sound(a, root, next, X, templates, stack, fwd, rev) && NodeOf(fwd, e) != Some(root)
    requires E == (match NodeOf(fwd, e)
                   case Some(n) => if n in a && a[n].parent == None then SubtreeOf(a, n) else {}
                   case None => {})
    ensures E !! X && DroppedArena(a, E, None) == a - E
  {
    hide Tree, Cached, Synced, NodeOf, SubtreeOf, Minus, Removable;
    match NodeOf(fwd, e) {
      case Some(n) =>
        if n in a && a[n].parent == None {
          SubtreeOutside(a, root, X, n);
          FreeStep(a, root, n);
        } else {
          NothingFreed(a);
        }
      case None => NothingFreed(a);
    }
  }

  lemma NothingFreed(a: Arena)
    ensures DroppedArena(a, {}, None) == a - {}
  {
    hide Minus;
    forall x | x in a ensures Minus(a[x].children, {}) == a[x].children { MinusNothing(a[x].children, {}); }
  }

  lemma SoundDropped(a: Arena, b: Arena, root: NodeId, next: NodeId, X: set<NodeId>, templates: map<Template, seq<NodeId>>,
                     stack: seq<NodeId>, fwd: Forward, rev: Reverse, E: set<NodeId>, fwd': Forward, rev': Reverse)
    requires Tree(a, root) && Tree(b, root) && Sound(a, root, next, X, templates, stack, fwd, rev)
    requires b == a - E && E !! X && (forall s :: s in stack ==> s !in E) && Unnamed(fwd, rev, E, fwd', rev')
    ensures Sound(b, root, next, X, templates, stack, fwd', rev')
    ensures Inverse(fwd, rev) ==> Inverse(fwd', rev')
    ensures forall m :: m in b ==> (m in rev' <==> m in rev) && (m in rev ==> rev'[m] == rev[m])
    ensures forall s :: s in stack ==> s in b
  {
    hide Tree, Synced, Inverse, NodeOf, Closed, Cached;
    UnnamedInverse(fwd, rev, E, fwd', rev');
    FewerUndisturbed(a, root, X, E);
    CachedStep(a, b, root, X, templates);
  }

  lemma FewerUndisturbed(a: Arena, root: NodeId, X: set<NodeId>, E: set<NodeId>)
    requires Tree(a, root) && Closed(a, X) && E !! X
    ensures Undisturbed(a, a - E, X)
  {
    hide Tree;
    forall p, c | p in a - E && c in a[p].children && c in X ensures p in X { ChildLink(a, root, p, c); }
  }

  lemma CachedRoot(a: Arena, root: NodeId, next: NodeId, X: set<NodeId>, templates: map<Template, seq<NodeId>>,
                   stack: seq<NodeId>, fwd: Forward, rev: Reverse, T: Template, i: nat)
    requires Sound(a, root, next, X, templates, stack, fwd, rev) && T in templates && i < |T|
    ensures i < |templates[T]| && templates[T][i] in a
    ensures Stands(a, templates[T][i], T[i])
  {
    hide Stands, Closed, NodeOf, Synced;
    assert Holding(a, X, T, templates[T]);
  }

  lemma CloneHolds(a: Arena, t: NodeId, b: Arena, m: NodeId, T: TemplateNode)
    requires Copied(a, t, b, m) && Stands(a, t, T)
    ensures Stands(b, m, T)
  {
    hide CopyAt, Build, BuildStates;
  }

  lemma ClonedApart(a0: Arena, a: Arena, b: Arena, root: NodeId)
    requires Tree(a0, root) && Tree(a, root) && Tree(b, root) && Undisturbed(a0, a, a0.Keys) && Extends(a, b)
    ensures Undisturbed(a0, b, a0.Keys) && a0.Keys <= a.Keys
  {
    hide Tree, Closed, Undisturbed;
    AllClosed(a0, root);
    UndisturbedKeys(a0, a, a0.Keys);
    ClosedStep(a0, a, root, a0.Keys);
    ExtendsUndisturbed(a, b, root, a0.Keys);
    UndisturbedTrans(a0, a, b, a0.Keys);
  }

  lemma AttrEditLists(nd: Node, name: string, value: Option<string>)
    ensures AttrEdit(nd, name, value).children == nd.children
  {
    hide LinkState;
  }

  lemma NamedOutside(a: Arena, root: NodeId, next: NodeId, X: set<NodeId>, templates: map<Template, seq<NodeId>>,
                     stack: seq<NodeId>, fwd: Forward, rev: Reverse, e: ElementId, n: NodeId)
    requires Tree(a, root) && Sound(a, root, next, X, templates, stack, fwd, rev) && NodeOf(fwd, e) == Some(n) && n in a
    ensures n !in X && n < next && (forall m :: m in stack ==> m in a && m !in X)
    ensures a[n].parent.Some? ==> a[n].parent.value in a && a[n].parent.value !in X
  {
    hide Tree, Cached, Synced, NodeOf;
    if a[n].parent.Some? { ParentFacts(a, root, n); }
  }

  lemma ParentOutside(a: Arena, root: NodeId, next: NodeId, X: set<NodeId>, templates: map<Template, seq<NodeId>>,
                      stack: seq<NodeId>, fwd: Forward, rev: Reverse, n: NodeId)
    requires Tree(a, root) && Sound(a, root, next, X, templates, stack, fwd, rev) && n in a && n !in X && a[n].parent.Some?
    ensures a[n].parent.value in a && a[n].parent.value !in X
  {
    hide Tree, Cached, Synced, NodeOf;
    ParentFacts(a, root, n);
  }

  lemma StackOutside(a: Arena, root: NodeId, next: NodeId, X: set<NodeId>, templates: map<Template, seq<NodeId>>,
                     stack: seq<NodeId>, fwd: Forward, rev: Reverse, top: NodeId, path: seq<nat>)
    requires Tree(a, root) && Sound(a, root, next, X, templates, stack, fwd, rev) && top in stack && Reaches(a, top, path)
    ensures Follow(a, top, path) in a && Follow(a, top, path) !in X && forall m :: m in stack ==> m in a && m !in X
  {
    hide Tree, Cached, Synced, NodeOf;
    FollowOutside(a, root, X, top, path);
  }

  /** Nodes of closed parts that nothing moved belongs to keep their state. */
  lemma ApartStates(a: Arena, root: NodeId, X: set<NodeId>, ui: Ui, was: map<NodeId, Flushed>, b: Arena, ui': Ui, was': map<NodeId, Flushed>,
                    N: seq<NodeId>)
    requires Tree(a, root) && Closed(a, X) && (forall c :: c in N ==> c !in X)
    requires Outside(a, ui, was, b, ui', was', UnderAny(a, N))
    ensures SameStates(a, b, X)
  {
    hide Tree, Closed, UnderAny, UiOutside, FlushedOutside;
    forall x | x in X && x in a && x in b ensures b[x].state == a[x].state {
      AwayFrom(a, root, X, N, x);
      assert SettledNode(a[x], b[x], x in UnderAny(a, N));
    }
  }

  lemma AwayFrom(a: Arena, root: NodeId, X: set<NodeId>, N: seq<NodeId>, x: NodeId)
    requires Tree(a, root) && Closed(a, X) && (forall c :: c in N ==> c !in X) && x in X
    ensures x !in UnderAny(a, N)
  {
    hide Tree, Closed, Above;
    if x in UnderAny(a, N) {
      var c :| c in N && Above(a, c, x);
      AboveLive(a, c, x);
      SubtreeOutside(a, root, X, c);
      InSubtree(a, root, c, x);
    }
  }

  lemma MovedStates(a: Arena, root: NodeId, X: set<NodeId>, ui: Ui, was: map<NodeId, Flushed>, b: Arena, ui': Ui, was': map<NodeId, Flushed>,
                    N: seq<NodeId>)
    requires Tree(a, root) && Closed(a, X) && (forall c :: c in N ==> c !in X) && Moved(a, ui, was, b, ui', was', N)
    ensures SameStates(a, b, X)
  {
    hide Tree, Closed, Moved, Outside, SameStates, UnderAny;
    MovedOutside(a, ui, was, b, ui', was', N, UnderAny(a, N));
    ApartStates(a, root, X, ui, was, b, ui', was', N);
  }

  lemma CutStates(a: Arena, root: NodeId, X: set<NodeId>, n: NodeId, f: Option<NodeId>)
    requires Tree(a, root) && Closed(a, X) && n in a && n !in X
    ensures SameStates(a, CutArena(a, n, f), X)
  {
    hide Tree, Closed, CutArena, SubtreeOf, Above;
    SubtreeOutside(a, root, X, n);
    forall x | x in X && x in a && x in CutArena(a, n, f) ensures CutArena(a, n, f)[x].state == a[x].state {
      InSubtree(a, root, n, x);
      CutKeepsNode(a, root, n, f, x);
    }
  }

  lemma SoundClosed(a: Arena, root: NodeId, next: NodeId, X: set<NodeId>, templates: map<Template, seq<NodeId>>,
                    stack: seq<NodeId>, fwd: Forward, rev: Reverse)
    requires Sound(a, root, next, X, templates, stack, fwd, rev)
    ensures Closed(a, X) && forall n :: n in stack ==> n in a && n !in X
  {
    hide Closed, Cached, Synced;
  }

  lemma SoundPlacedAt(a: Arena, b: Arena, root: NodeId, next: NodeId, X: set<NodeId>, templates: map<Template, seq<NodeId>>,
                      stack: seq<NodeId>, fwd: Forward, rev: Reverse, P: NodeId, i: nat, j: nat, N: seq<NodeId>)
    requires Tree(a, root) && Tree(b, root) && Sound(a, root, next, X, templates, stack, fwd, rev)
    requires P in a && i <= j <= |a[P].children| && P !in X && forall n :: n in N ==> n !in X
    requires Kids(b) == PlacedAt(Kids(a), P, i, j, N) && DataOf(b) == DataOf(a) && SameStates(a, b, X)
    ensures Sound(b, root, next, X, templates, stack, fwd, rev)
  {
    hide Tree, Cached, Synced, NodeOf, PlacedAt, Closed, Undisturbed, SameStates;
    PlacedUndisturbed(a, b, root, X, P, i, j, N);
    KeysOfData(a, b);
    SoundStep(a, b, root, next, next, X, templates, stack, fwd, rev);
  }

  /** Placing the top of the stack keeps the state sound. */
  lemma SoundPlaced(a: Arena, b: Arena, root: NodeId, next: NodeId, X: set<NodeId>, templates: map<Template, seq<NodeId>>,
                    stack: seq<NodeId>, fwd: Forward, rev: Reverse, P: NodeId, i: nat, j: nat, N: seq<NodeId>, stack': seq<NodeId>)
    requires Tree(a, root) && Tree(b, root) && Sound(a, root, next, X, templates, stack, fwd, rev) && stack == stack' + N
    requires P in a && i <= j <= |a[P].children| && P !in X
    requires Kids(b) == PlacedAt(Kids(a), P, i, j, N) && DataOf(b) == DataOf(a) && SameStates(a, b, X)
    ensures Sound(b, root, next, X, templates, stack', fwd, rev)
  {
    hide Tree, Cached, Synced, NodeOf, PlacedAt, Closed, Undisturbed, SameStates;
    assert forall n :: n in N ==> n in stack;
    SoundPlacedAt(a, b, root, next, X, templates, stack, fwd, rev, P, i, j, N);
    SoundStack(b, root, next, X, templates, stack, fwd, rev, stack');
  }

  lemma SoundCut(a: Arena, b: Arena, root: NodeId, next: NodeId, X: set<NodeId>, templates: map<Template, seq<NodeId>>,
                 stack: seq<NodeId>, fwd: Forward, rev: Reverse, n: NodeId)
    requires Tree(a, root) && Tree(b, root) && Sound(a, root, next, X, templates, stack, fwd, rev) && n !in X
    requires Kids(b) == Detached(Kids(a), {n}) && DataOf(b) == DataOf(a) && SameStates(a, b, X)
    ensures Sound(b, root, next, X, templates, stack, fwd, rev)
  {
    hide Tree, Cached, Synced, NodeOf, Closed, Undisturbed, SameStates;
    CutUndisturbed(a, b, root, X, n);
    KeysOfData(a, b);
    SoundStep(a, b, root, next, next, X, templates, stack, fwd, rev);
  }

  lemma SoundEdited(a: Arena, b: Arena, root: NodeId, next: NodeId, X: set<NodeId>, templates: map<Template, seq<NodeId>>,
                    stack: seq<NodeId>, fwd: Forward, rev: Reverse, n: NodeId)
    requires Tree(a, root) && Tree(b, root) && Sound(a, root, next, X, templates, stack, fwd, rev) && n in a && n in b && n !in X
    requires b == a[n := b[n]] && b[n].children == a[n].children
    ensures Sound(b, root, next, X, templates, stack, fwd, rev)
  {
    hide Tree, Cached, Synced, NodeOf, Closed, Undisturbed;
    EditUndisturbed(a, n, b[n], root, X);
    SoundStep(a, b, root, next, next, X, templates, stack, fwd, rev);
  }

  /** A new node is outside the templates and has no name yet. */
  lemma NewOutside(a: Arena, b: Arena, root: NodeId, next: NodeId, next': NodeId, X: set<NodeId>, templates: map<Template, seq<NodeId>>,
                   stack: seq<NodeId>, fwd: Forward, rev: Reverse, n: NodeId)
    requires Tree(a, root) && Tree(b, root) && Extends(a, b) && next <= next' && n !in a
    requires Sound(a, root, next, X, templates, stack, fwd, rev)
    ensures Sound(b, root, next', X, templates, stack, fwd, rev) && n !in X && n !in rev
  {
    hide Tree, Cached, NodeOf, Synced;
    ExtendsUndisturbed(a, b, root, X);
    SoundStep(a, b, root, next, next', X, templates, stack, fwd, rev);
  }
}
