/** Parts of the arena that no operation touches, and what a template stands for. */
module Templates {
  import opened Shapes
  import opened Nodes
  import opened Moves
  import opened Ancestry
  import opened Paint
  import opened Inserts
  import opened Placement
  import opened Creation
  import opened Attributes

  // ----------------------------------------------------------- closed parts

  /** X is a union of whole trees: closed under children and parents. */
  ghost predicate Closed(a: Arena, X: set<NodeId>) {
    forall x :: x in X ==>
      && x in a
      && (forall c :: c in a[x].children ==> c in X)
      && (a[x].parent.Some? ==> a[x].parent.value in X)
  }

  /** From a to b, X keeps its lists, data and state, and no list outside X gains one of its nodes. */
  ghost predicate Undisturbed(a: Arena, b: Arena, X: set<NodeId>) {
    && (forall x :: x in X ==> x in a && x in b && b[x].children == a[x].children && b[x].data == a[x].data && b[x].state == a[x].state)
    && (forall p, c :: p in b && c in b[p].children && c in X ==> p in X)
  }

  lemma ClosedStep(a: Arena, b: Arena, root: NodeId, X: set<NodeId>)
    requires Tree(a, root) && Tree(b, root) && Closed(a, X) && Undisturbed(a, b, X)
    ensures Closed(b, X)
    ensures forall x :: x in X && a[x].parent == None ==> b[x].parent == None
  {
    hide Tree;
    forall x | x in X ensures b[x].parent.Some? ==> b[x].parent.value in X && a[x].parent.Some? {
      if b[x].parent.Some? {
        ParentFacts(b, root, x);
        ChildLink(a, root, b[x].parent.value, x);
      }
    }
  }

  /** A tree inside an undisturbed part holds what it held. */
  lemma UndisturbedCopy(a: Arena, b: Arena, root: NodeId, X: set<NodeId>, t: NodeId)
    requires Tree(a, root) && Tree(b, root) && Closed(a, X) && Undisturbed(a, b, X) && t in X
    ensures CopyAt(Kids(b), DataOf(b), t) == CopyAt(Kids(a), DataOf(a), t)
    ensures CopyAt(Kids(b), StateOf(b), t) == CopyAt(Kids(a), StateOf(a), t)
  {
    hide Tree, RankOK, Under, Copy, OneParent;
    TreeForest(a, root);
    TreeForest(b, root);
    var S, U := Kids(a), Kids(b);
    forall x | Under(S, t, x) ensures x in X && x in S && x in U && U[x] == S[x] && DataOf(b)[x] == DataOf(a)[x] && StateOf(b)[x] == StateOf(a)[x] {
      ClosedContains(S, t, X, x);
    }
    CopyFrame(S, DataOf(a), U, DataOf(b), t);
    CopyFrame(S, StateOf(a), U, StateOf(b), t);
  }

  lemma UndisturbedTrans(a: Arena, b: Arena, c: Arena, X: set<NodeId>)
    requires Undisturbed(a, b, X) && Undisturbed(b, c, X)
    ensures Undisturbed(a, c, X)
  {
  }

  /** New nodes are a closed part of their own. */
  lemma NewPart(a: Arena, b: Arena, root: NodeId, X: set<NodeId>)
    requires Tree(a, root) && Tree(b, root) && Closed(a, X) && Undisturbed(a, b, a.Keys)
    ensures Undisturbed(a, b, X) && Closed(b, X + (b.Keys - a.Keys)) && X !! (b.Keys - a.Keys)
  {
    hide Forest;
    var W := b.Keys - a.Keys;
    forall p, c | p in b && c in b[p].children && c in X ensures p in X {
      assert p in a.Keys;
      ChildLink(a, root, p, c);
    }
    ClosedStep(a, b, root, X);
    forall w | w in W
      ensures forall c :: c in b[w].children ==> c in W
      ensures b[w].parent.Some? ==> b[w].parent.value in W
    {
      forall c | c in b[w].children ensures c in W { ChildLink(b, root, w, c); }
      if b[w].parent.Some? {
        ParentFacts(b, root, w);
        var p := b[w].parent.value;
        if p in a { ChildLink(a, root, p, w); }
      }
    }
  }

  /** The whole arena is closed. */
  lemma AllClosed(a: Arena, root: NodeId)
    requires Tree(a, root)
    ensures Closed(a, a.Keys)
  {
    hide Forest;
  }

  // ------------------------------------------------ what each operation disturbs

  lemma ExtendsUndisturbed(a: Arena, b: Arena, root: NodeId, X: set<NodeId>)
    requires Tree(a, root) && Tree(b, root) && Closed(a, X) && Extends(a, b)
    ensures Undisturbed(a, b, X)
  {
    hide Forest;
    forall p, c | p in b && c in b[p].children && c in X ensures p in X { ChildLink(b, root, p, c); }
  }

  lemma EditUndisturbed(a: Arena, n: NodeId, nd: Node, root: NodeId, X: set<NodeId>)
    requires Tree(a, root) && Closed(a, X) && n in a && n !in X && nd.children == a[n].children
    ensures Undisturbed(a, a[n := nd], X)
  {
    hide Forest;
    forall p, c | p in a && c in a[p].children && c in X ensures p in X { ChildLink(a, root, p, c); }
  }

  ghost predicate SameStates(a: Arena, b: Arena, X: set<NodeId>) {
    forall x :: x in X && x in a && x in b ==> b[x].state == a[x].state
  }

  lemma PlacedUndisturbed(a: Arena, b: Arena, root: NodeId, X: set<NodeId>, P: NodeId, i: nat, j: nat, N: seq<NodeId>)
    requires Tree(a, root) && Closed(a, X) && P in a && i <= j <= |a[P].children|
    requires Kids(b) == PlacedAt(Kids(a), P, i, j, N) && DataOf(b) == DataOf(a)
    requires P !in X && (forall c :: c in N ==> c !in X) && SameStates(a, b, X)
    ensures Undisturbed(a, b, X)
  {
    hide Tree, Minus;
    KeysOfData(a, b);
    forall x | x in X ensures b[x].children == a[x].children {
      assert Kids(b)[x] == Minus(Kids(a)[x], Members(N));
      MinusNothing(a[x].children, Members(N));
    }
    forall p, c | p in b && c in b[p].children && c in X ensures p in X {
      assert c in Kids(b)[p] && (c in a[p].children || c in N);
      ChildLink(a, root, p, c);
    }
  }

  lemma CutUndisturbed(a: Arena, b: Arena, root: NodeId, X: set<NodeId>, n: NodeId)
    requires Tree(a, root) && Closed(a, X) && n !in X
    requires Kids(b) == Detached(Kids(a), {n}) && DataOf(b) == DataOf(a) && SameStates(a, b, X)
    ensures Undisturbed(a, b, X)
  {
    hide Tree, Minus;
    KeysOfData(a, b);
    forall x | x in X ensures b[x].children == a[x].children {
      assert Kids(b)[x] == Minus(Kids(a)[x], {n});
      MinusNothing(a[x].children, {n});
    }
    forall p, c | p in b && c in b[p].children && c in X ensures p in X {
      assert c in Kids(b)[p] && c in a[p].children;
      ChildLink(a, root, p, c);
    }
  }

  /** The subtree of a node outside X is outside X. */
  lemma SubtreeOutside(a: Arena, root: NodeId, X: set<NodeId>, n: NodeId)
    requires Tree(a, root) && Closed(a, X) && n in a && n !in X
    ensures forall x :: x in SubtreeOf(a, n) ==> x !in X
  {
    hide RankOK, Preorder, OneParent;
    TreeForest(a, root);
    SubtreeMeans(a, n);
    var S := Kids(a);
    forall y, c | y in a.Keys - X && y in S && c in S[y] ensures c in a.Keys - X { ChildLink(a, root, y, c); }
    forall x | x in SubtreeOf(a, n) ensures x !in X { ClosedContains(S, n, a.Keys - X, x); }
  }

  // ------------------------------------------------------------- what to build

  datatype TemplateAttribute = Static(name: string, value: string) | DynamicAttribute

  datatype TemplateNode =
    | TemplateElement(tag: string, attrs: seq<TemplateAttribute>, children: seq<TemplateNode>)
    | TemplateText(text: string)
    | TemplateDynamic

  type Template = seq<TemplateNode>

  /** What an attribute write of the writer amounts to: a value, or none. */
  function InnerValue(name: string, value: Option<string>, falsy: bool): Option<string> {
    if name == "checked" && falsy then None else value
  }

  /** The attributes a template element ends up with. */
  function BuildAttrs(attrs: seq<TemplateAttribute>): Attrs {
    if attrs == [] then map[]
    else
      var m := BuildAttrs(attrs[..|attrs| - 1]);
      match attrs[|attrs| - 1]
      case Static(name, value) => if name == "checked" && value == "false" then m - {name} else m[name := value]
      case DynamicAttribute => m
  }

  function ElementOf(tag: string, attrs: Attrs): NodeData {
    Element(tag, attrs, Lookup(attrs, "id"), Unbuilt, [])
  }

  /** The tree a template stands for. */
  function Build(t: TemplateNode): Branch<NodeData> {
    match t
    case TemplateElement(tag, attrs, children) => Branch(ElementOf(tag, BuildAttrs(attrs)), BuildAll(children))
    case TemplateText(text) => Branch(Text(text), [])
    case TemplateDynamic => Branch(Comment(""), [])
  }

  /** The state of an element built like that: `checked` sets none there. */
  function ElementState(tag: string, attrs: Attrs): set<StateBit> {
    LinkState({}, tag, attrs) + if !CanBeDisabled(tag) then {} else if "disabled" in attrs then {Disabled} else {Enabled}
  }

  /** The element states of that tree. */
  function BuildStates(t: TemplateNode): Branch<set<StateBit>> {
    match t
    case TemplateElement(tag, attrs, children) => Branch(ElementState(tag, BuildAttrs(attrs)), BuildStatesAll(children))
    case TemplateText(_) => Branch({}, [])
    case TemplateDynamic => Branch({}, [])
  }

  function BuildStatesAll(ts: seq<TemplateNode>): seq<Branch<set<StateBit>>> {
    if ts == [] then [] else [BuildStates(ts[0])] + BuildStatesAll(ts[1..])
  }

  /** The tree at n is what t stands for. */
  ghost predicate Stands(a: Arena, n: NodeId, t: TemplateNode) {
    CopyAt(Kids(a), DataOf(a), n) == Some(Build(t)) && CopyAt(Kids(a), StateOf(a), n) == Some(BuildStates(t))
  }

  function BuildAll(ts: seq<TemplateNode>): seq<Branch<NodeData>> {
    if ts == [] then [] else [Build(ts[0])] + BuildAll(ts[1..])
  }

  lemma {:induction false} BuildAllAt(ts: seq<TemplateNode>)
    ensures |BuildAll(ts)| == |BuildStatesAll(ts)| == |ts|
    ensures forall i :: 0 <= i < |ts| ==> BuildAll(ts)[i] == Build(ts[i]) && BuildStatesAll(ts)[i] == BuildStates(ts[i])
  {
    if ts != [] {
      BuildAllAt(ts[1..]);
    }
  }

  /** Attributes whose write would replace the children are not part of the model. */
  predicate Plain(t: TemplateNode) {
    t.TemplateElement? ==>
      && (forall i :: 0 <= i < |t.attrs| ==> t.attrs[i].Static? ==> t.attrs[i].name != "dangerous_inner_html")
      && (forall i :: 0 <= i < |t.children| ==> Plain(t.children[i]))
  }

  /** One more attribute of a template element. */
  lemma BuildMore(nd: Node, tag: string, attrs: seq<TemplateAttribute>, i: nat)
    requires i < |attrs| && nd.data == ElementOf(tag, BuildAttrs(attrs[..i])) && nd.parent == None && nd.children == [] && !nd.inDoc
    requires nd.state == ElementState(tag, BuildAttrs(attrs[..i]))
    ensures attrs[i].Static? ==>
      var v := InnerValue(attrs[i].name, Some(attrs[i].value), attrs[i].value == "false");
      var nd' := AttrEdit(nd, attrs[i].name, v);
      && nd'.data == ElementOf(tag, BuildAttrs(attrs[..i + 1])) && nd'.parent == None && nd'.children == [] && !nd'.inDoc
      && nd'.state == ElementState(tag, BuildAttrs(attrs[..i + 1]))
    ensures !attrs[i].Static? ==> BuildAttrs(attrs[..i + 1]) == BuildAttrs(attrs[..i])
  {
    hide AttrEdit, ElementOf, ElementState;
    assert attrs[..i + 1][..i] == attrs[..i];
    if attrs[i].Static? {
      EditedElement(nd, tag, BuildAttrs(attrs[..i]), attrs[i].name, InnerValue(attrs[i].name, Some(attrs[i].value), attrs[i].value == "false"));
    }
  }

  /** One attribute edit takes an element in its own state to the next. */
  lemma EditedElement(nd: Node, tag: string, m: Attrs, name: string, v: Option<string>)
    requires nd.data == ElementOf(tag, m) && nd.state == ElementState(tag, m) && !nd.inDoc
    ensures var nd', m' := AttrEdit(nd, name, v), if v.Some? then m[name := v.value] else m - {name};
            && nd'.data == ElementOf(tag, m') && nd'.state == ElementState(tag, m')
            && nd'.parent == nd.parent && nd'.children == nd.children && !nd'.inDoc
  {
    if v == None && name !in m { assert m - {name} == m; }
  }

  // -------------------------------------------------------- building it, in steps

  /** ids are detached trees of a, built after a2, for the templates ts. */
  ghost predicate Made(ts: seq<TemplateNode>, root: NodeId, a2: Arena, a: Arena, ids: seq<NodeId>) {
    && |ids| == |ts| && NoDup(ids)
    && (forall j :: 0 <= j < |ids| ==> ids[j] in a && ids[j] !in a2 && ids[j] != root && a[ids[j]].parent == None)
    && (forall j :: 0 <= j < |ids| ==> Stands(a, ids[j], ts[j]))
  }

  lemma MadeNone(root: NodeId, a2: Arena)
    ensures Made([], root, a2, a2, [])
  {
  }

  lemma MadeMore(ts: seq<TemplateNode>, i: nat, root: NodeId, a2: Arena, a: Arena, ids: seq<NodeId>, b: Arena, c: NodeId)
    requires i < |ts| && Made(ts[..i], root, a2, a, ids) && Tree(a, root) && Tree(b, root) && Tree(a2, root)
    requires Undisturbed(a2, a, a2.Keys) && Undisturbed(a, b, a.Keys)
    requires c in b && c !in a && b[c].parent == None && Stands(b, c, ts[i])
    ensures Made(ts[..i + 1], root, a2, b, ids + [c]) && Undisturbed(a2, b, a2.Keys)
  {
    hide Tree, CopyAt, Closed, Undisturbed, Build, BuildStates;
    AllClosed(a, root);
    AllClosed(a2, root);
    RootParentless(a, root);
    UndisturbedKeys(a2, a, a2.Keys);
    UndisturbedKeys(a, b, a.Keys);
    NewPart(a, b, root, a2.Keys) by { ClosedStep(a2, a, root, a2.Keys); }
    UndisturbedTrans(a2, a, b, a2.Keys);
    ClosedStep(a, b, root, a.Keys);
    forall j | 0 <= j < i ensures Stands(b, ids[j], ts[j]) {
      assert ts[..i][j] == ts[j];
      UndisturbedCopy(a, b, root, a.Keys, ids[j]);
    }
  }

  lemma UndisturbedKeys(a: Arena, b: Arena, X: set<NodeId>)
    requires Undisturbed(a, b, X)
    ensures forall x :: x in X ==> x in a && x in b
  {
  }

  /** The children of a template element, all made, can be appended. */
  lemma MadeReady(a1: Arena, root: NodeId, n: NodeId, ts: seq<TemplateNode>, a: Arena, ids: seq<NodeId>)
    requires Tree(a1, root) && Tree(a, root) && n in a1 && n != root && a1[n].parent == None && a1[n].children == []
    requires Undisturbed(a1, a, a1.Keys) && Made(ts, root, a1, a, ids)
    ensures Adoptable(a, root, n, ids) && Insertable(a, root, n, ids)
  {
    hide Tree, CopyAt, Closed, Build;
    AllClosed(a1, root);
    ClosedStep(a1, a, root, a1.Keys);
    AdoptedForest(a, root, n, ids);
  }

  /** Nothing older than the element is disturbed by building it. */
  lemma MadeApart(a0: Arena, a1: Arena, root: NodeId, n: NodeId, ts: seq<TemplateNode>, a: Arena, ids: seq<NodeId>, b: Arena)
    requires Tree(a0, root) && Tree(a1, root) && Tree(a, root) && n in a
    requires Undisturbed(a0, a1, a0.Keys) && n !in a0
    requires Undisturbed(a1, a, a1.Keys) && Made(ts, root, a1, a, ids)
    requires Kids(b) == PlacedAt(Kids(a), n, 0, 0, ids) && DataOf(b) == DataOf(a) && SameStates(a, b, a.Keys)
    ensures Undisturbed(a0, b, a0.Keys)
  {
    hide Tree, NoDup, Minus, Build, Closed, Undisturbed, Stands, PlacedAt, Kids, DataOf;
    AllClosed(a0, root);
    UndisturbedKeys(a0, a1, a0.Keys);
    ClosedStep(a0, a1, root, a0.Keys);
    NewPart(a1, a, root, a0.Keys);
    UndisturbedTrans(a0, a1, a, a0.Keys);
    ClosedStep(a0, a, root, a0.Keys);
    PlacedUndisturbed(a, b, root, a0.Keys, n, 0, 0, ids);
    UndisturbedTrans(a0, a, b, a0.Keys);
  }

  /** Appending the children completes the element's tree and disturbs nothing older. */
  lemma MadeDone(a0: Arena, a1: Arena, root: NodeId, n: NodeId, tag: string, attrs: Attrs, ts: seq<TemplateNode>,
                 a: Arena, ids: seq<NodeId>, b: Arena)
    requires Tree(a0, root) && Tree(a1, root) && Tree(a, root) && Tree(b, root)
    requires Undisturbed(a0, a1, a0.Keys) && n !in a0 && n in a1 && a1[n].data == ElementOf(tag, attrs) && a1[n].state == ElementState(tag, attrs)
    requires Undisturbed(a1, a, a1.Keys) && Made(ts, root, a1, a, ids) && Adoptable(a, root, n, ids)
    requires Kids(b) == PlacedAt(Kids(a), n, 0, 0, ids) && DataOf(b) == DataOf(a) && SameStates(a, b, a.Keys)
    ensures Undisturbed(a0, b, a0.Keys) && n in b && b[n].parent == None
    ensures CopyAt(Kids(b), DataOf(b), n) == Some(Branch(ElementOf(tag, attrs), BuildAll(ts)))
    ensures CopyAt(Kids(b), StateOf(b), n) == Some(Branch(ElementState(tag, attrs), BuildStatesAll(ts)))
  {
    hide Tree, CopyAt, CopyAll, Adoptable, NoDup, Build, Closed, Undisturbed, PlacedAt, Kids, Made, ElementOf, BuildAll,
         ElementState,
         BuildStatesAll, DataOf, StateOf;
    SettledElement(a1, a, n, tag, attrs);
    MadeApart(a0, a1, root, n, ts, a, ids, b);
    AdoptedShape(a, root, n, ids, b);
    MadeCopies(ts, root, a1, a, ids);
    SameLooks(a, b);
    AdoptedHolds(a, b, root, n, ids, DataOf(a), BuildAll(ts));
    AdoptedHolds(a, b, root, n, ids, StateOf(a), BuildStatesAll(ts));
    StillRoot(a, b, root, n, ids);
  }

  lemma UndisturbedGrown(a: Arena, b: Arena, root: NodeId)
    requires Tree(a, root) && Tree(b, root) && Undisturbed(a, b, a.Keys)
    ensures Grown(a, b)
  {
    hide Forest;
    forall x | x in a ensures b[x].parent == a[x].parent {
      if b[x].parent.Some? { ParentFacts(b, root, x); }
      if a[x].parent.Some? { ParentFacts(a, root, x); }
    }
  }

  /** Besides the element and what hangs below it nothing new is made. */
  lemma TemplateBelow(a0: Arena, a1: Arena, root: NodeId, n: NodeId, a: Arena, ids: seq<NodeId>, b: Arena)
    requires Tree(a, root) && Flags(a, root) && IdCached(a) && Tree(b, root) && Adoptable(a, root, n, ids)
    requires a1.Keys == a0.Keys + {n} && NewBelow(a1, ids, a)
    requires Kids(b) == PlacedAt(Kids(a), n, 0, 0, ids) && b.Keys == a.Keys
    ensures NewBelow(a0, [n], b)
  {
    hide Tree, Flags, IdCached, Above, View, PlacedAt, NoDup, Adopted, Kids;
    forall x | x in a && x !in a0 ensures exists c :: c in [n] + ids && Above(a, c, x) {
      if x == n {
        AboveStep(a, root, n, n);
        assert n in [n] + ids;
      } else {
        var c :| c in ids && Above(a, c, x);
        assert c in [n] + ids;
      }
    }
    AdoptedTree(a, root, n, ids);
    NewBelowAdopted(a0, root, a, n, ids);
    AdoptedShape(a, root, n, ids, b);
    forall x | x in b && x !in a0 ensures n in [n] && Above(b, n, x) {
      var c :| c in [n] && Above(Adopted(a, n, ids), c, x);
      SameAbove(Adopted(a, n, ids), b, n, x);
    }
  }

  lemma SameAbove(a: Arena, b: Arena, x: NodeId, y: NodeId)
    requires Kids(a) == Kids(b) && a.Keys == b.Keys
    ensures Above(a, x, y) <==> Above(b, x, y)
  {
    hide Under;
  }

  lemma SettledElement(a1: Arena, a: Arena, n: NodeId, tag: string, attrs: Attrs)
    requires Undisturbed(a1, a, a1.Keys) && n in a1 && a1[n].data == ElementOf(tag, attrs) && a1[n].state == ElementState(tag, attrs)
    ensures n in a && n in DataOf(a) && DataOf(a)[n] == ElementOf(tag, attrs) && n in StateOf(a) && StateOf(a)[n] == ElementState(tag, attrs)
  {
    hide LinkState;
  }

  lemma SameLooks(a: Arena, b: Arena)
    requires DataOf(b) == DataOf(a) && SameStates(a, b, a.Keys)
    ensures StateOf(b) == StateOf(a) && DataOf(a).Keys == StateOf(a).Keys == a.Keys
  {
    KeysOfData(a, b);
    forall x | x in a ensures b[x].state == a[x].state && b[x].data == a[x].data { assert DataOf(b)[x] == DataOf(a)[x]; }
  }

  /** A leaf that adopts trees holds them below what it held. */
  lemma AdoptedHolds<T>(a: Arena, b: Arena, root: NodeId, n: NodeId, ids: seq<NodeId>, L: map<NodeId, T>, kids: seq<Branch<T>>)
    requires Tree(a, root) && Adoptable(a, root, n, ids) && L.Keys == a.Keys && n in L && Kids(b) == Kids(Adopted(a, n, ids))
    requires Acyclic(Kids(a)) && L.Keys == Kids(a).Keys && (forall c :: c in ids ==> c in Kids(a)) && CopyAll(Kids(a), L, ids) == kids
    ensures CopyAt(Kids(b), L, n) == Some(Branch(L[n], kids))
  {
    hide Tree, Copy, CopyAll, Adopted, Kids, Adoptable;
    AdoptedCopy(a, root, n, ids, L);
  }

  lemma MadeCopies(ts: seq<TemplateNode>, root: NodeId, a1: Arena, a: Arena, ids: seq<NodeId>)
    requires Tree(a, root) && Made(ts, root, a1, a, ids)
    ensures Acyclic(Kids(a)) && DataOf(a).Keys == StateOf(a).Keys == Kids(a).Keys && (forall c :: c in ids ==> c in Kids(a))
    ensures CopyAll(Kids(a), DataOf(a), ids) == BuildAll(ts) && CopyAll(Kids(a), StateOf(a), ids) == BuildStatesAll(ts)
  {
    hide Tree, RankOK, Build, BuildStates, OneParent, NoDup;
    TreeForest(a, root);
    CopyAllAt(Kids(a), DataOf(a), ids);
    CopyAllAt(Kids(a), StateOf(a), ids);
    BuildAllAt(ts);
  }

  /** Appending detached nodes to a leaf changes its list only. */
  lemma AdoptedShape(a: Arena, root: NodeId, n: NodeId, ids: seq<NodeId>, b: Arena)
    requires Tree(a, root) && Adoptable(a, root, n, ids) && Kids(b) == PlacedAt(Kids(a), n, 0, 0, ids)
    ensures Kids(b) == Kids(Adopted(a, n, ids)) == Kids(a)[n := ids]
  {
    hide Tree, Minus, NoDup;
    var S := Kids(a);
    MinusEmpty(Members(ids));
    assert S[n][..0] == [] && S[n][0..] == [];
    forall x | x in a ensures Minus(S[x], Members(ids)) == S[x] {
      forall y | y in S[x] ensures y !in Members(ids) { ChildLink(a, root, x, y); }
      MinusNothing(S[x], Members(ids));
    }
    assert Detached(S, Members(ids)) == S;
    assert Minus([], Members(ids)) + ids + Minus([], Members(ids)) == ids;
    assert Kids(Adopted(a, n, ids)) == S[n := ids];
  }

  lemma StillRoot(a: Arena, b: Arena, root: NodeId, n: NodeId, ids: seq<NodeId>)
    requires Tree(a, root) && Tree(b, root) && Adoptable(a, root, n, ids) && Kids(b) == Kids(a)[n := ids]
    ensures n in b && b[n].parent == None
  {
    hide Forest, NoDup;
    assert n in Kids(b);
    if b[n].parent.Some? {
      var p := b[n].parent.value;
      assert n in Kids(b)[p];
      ChildLink(a, root, p, n);
    }
  }
}
