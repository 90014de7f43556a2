/** Short runs of the operations from a new document that end with a reference to
    a freed node, or with a lit element that is not above the hovered one. */
module Runs {
  import opened Shapes
  import opened Nodes
  import opened Edits
  import opened Moves
  import opened Ancestry
  import opened Paint
  import opened Inserts
  import opened Placement
  import opened Keeping
  import opened Focusing
  import opened Lighting
  import opened Listing
  import opened Creation
  import opened Journaling
  import opened Attributes
  import opened Inputs
  import opened Document
  import opened Mutator
  import opened Writer

  /** A new document whose only child is an element with the given tag and
      attributes. */
  method OneElement(tag: string, attrs: Attrs, deps: set<StateBit>) returns (doc: BaseDocument, mutator: DocumentMutator, n: NodeId)
    ensures fresh(doc) && fresh(mutator) && mutator.doc == doc && mutator.Valid() && doc.ui == IDLE
    ensures doc.root == 0 && n == 1 && doc.nodes.Keys == {0, 1} && doc.nodes[1].parent == Some(0) && doc.deps == deps
    ensures doc.nodes[1].inDoc && doc.nodes[1].data == NewElement(tag, attrs).data
    ensures Checked in doc.nodes[1].state <==> Checked in InitialState(tag, attrs)
  {
    hide Tree, Flags, Index, IdCached, UiLive, Journal, Replayed, Logged, View, Insertable, Kids, PlacedAt, Above, LitChains,
         KeepsLights, ListsBelow, KeepsLists, Moved, MoveLog, InsertedAtOnce, InitialState;
    doc := new BaseDocument(deps);
    mutator := new DocumentMutator(doc);
    n := mutator.CreateElement(tag, attrs);
    ghost var a, was := doc.nodes, doc.flushed;
    OneInsertable(a);
    mutator.AppendChildren(0, [n]);
    OneAppended(a, doc.nodes);
    KeysOfData(a, doc.nodes);
    RootFlag(doc.nodes, 0);
    ParentFlag(doc.nodes, 0, 1);
    StillIdle(a, was, doc.nodes, doc.ui, doc.flushed, [1]);
  }

  lemma OneInsertable(a: Arena)
    requires Tree(a, 0) && a.Keys == {0, 1} && a[1].parent == None
    ensures Insertable(a, 0, 0, [1])
  {
    hide Tree, Above;
    RootParentless(a, 0);
    AboveStep(a, 0, 0, 1);
    assert forall c :: c in [1] ==> c == 1;
  }

  lemma OneAppended(a: Arena, b: Arena)
    requires Tree(b, 0) && a.Keys == {0, 1} && a[0].children == [] && Kids(b) == PlacedAt(Kids(a), 0, 0, 0, [1])
    ensures b.Keys == {0, 1} && b[1].parent == Some(0)
  {
    hide Tree, Minus;
    assert b.Keys == Kids(b).Keys;
    assert 1 in Kids(b)[0];
    ChildLink(b, 0, 0, 1);
  }

  lemma StillIdle(a: Arena, was: map<NodeId, Flushed>, b: Arena, ui: Ui, was': map<NodeId, Flushed>, N: seq<NodeId>)
    requires Moved(a, IDLE, was, b, ui, was', N) && 1 in a
    ensures ui == IDLE && 1 in b && (Checked in b[1].state <==> Checked in a[1].state)
  {
    hide Left, Shifted, UnderAny;
    ShiftedAt(a, b, None, 1, Checked);
  }

  /** The lists of a rebuild name the element in its parent's paint list; it is
      detached, which purges nothing, and dropped while it has no parent, which
      purges nothing either. */
  method DetachedDropLeavesStale() returns (doc: BaseDocument)
    ensures fresh(doc) && doc.Valid() && 0 in doc.nodes && 1 !in doc.nodes && Paints(doc.nodes[0], 1) && !PaintLive(doc.nodes)
  {
    hide Tree, Flags, Index, IdCached, UiLive, Journal, Replayed, Logged, View, Kids, Above, LitChains, ListsBelow, PaintLive,
         Paints,
         CutArena, DroppedArena, SubtreeOf, Held, Strayed, ForgetAll, HeirOr, CutLog;
    var mutator, n;
    doc, mutator, n := OneElement("div", map[], {});
    doc.RebuildPaint(map[0 := (Some([n]), None), 1 := (None, None)]);
    StaleEnd(doc.nodes, doc.ui.focus);
    mutator := new DocumentMutator(doc);
    mutator.RemoveNode(n);
    var dropped := mutator.RemoveNodeIfUnparentedWith(n);
  }

  lemma StaleEnd(a: Arena, f: Option<NodeId>)
    requires Tree(a, 0) && Flags(a, 0) && IdCached(a) && a.Keys == {0, 1} && a[1].parent == Some(0) && a[0].paint == Some([1])
    ensures var b := CutArena(a, 1, f); var c := DroppedArena(b, SubtreeOf(b, 1), None);
            1 in b && b[1].parent == None && 0 in c && 1 !in c && Paints(c[0], 1) && !PaintLive(c)
  {
    hide Tree, Flags, IdCached, CutArena, SubtreeOf, Above, Minus;
    CutParent(a, 1, f, 0);
    CutParent(a, 1, f, 1);
    SameSubtree(a, 0, 1, f, 0);
    SameSubtree(a, 0, 1, f, 1);
    AboveStep(a, 0, 0, 1);
    AboveStep(a, 0, 1, 1);
    AboveStep(a, 0, 0, 0);
    assert 1 in [1];
  }

  /** The slider of a running range drag is dropped; the drag goes on naming it. */
  method DroppedSliderDangles() returns (doc: BaseDocument)
    ensures fresh(doc) && doc.Valid() && doc.ui.rangeDrag == Some(1) && 1 !in doc.nodes && !RangeDragLive(doc.nodes, doc.ui)
  {
    hide Tree, Flags, Index, IdCached, UiLive, Journal, Replayed, Logged, View, Kids, Above, LitChains, ListsBelow, PaintLive,
         CutArena, DroppedArena, SubtreeOf, Held, Strayed, ForgetAll, HeirOr, CutLog;
    var mutator, n;
    doc, mutator, n := OneElement("input", map[], {});
    doc.StartRangeDrag(n);
    ghost var a := doc.nodes;
    InSubtree(a, 0, n, n);
    AboveStep(a, 0, n, n);
    DroppedKeys(a, SubtreeOf(a, n), a[n].parent);
    KeepsRangeDrag(doc.ui, SubtreeOf(a, n), HeirOr(a, Kids(a), n));
    var dropped := mutator.RemoveAndDropNodeWith(n);
  }

  lemma KeepsRangeDrag(ui: Ui, D: set<NodeId>, heir: Option<NodeId>)
    ensures ForgetAll(ui, D, heir).rangeDrag == ui.rangeDrag
  {
  }

  // ------------------------------------------------- moving what is hovered

  /** The document 0 and the elements 1, 2 and 3 with the given parents. */
  ghost predicate Kin(a: Arena, p: Option<NodeId>, q: Option<NodeId>, r: Option<NodeId>) {
    && Tree(a, 0) && Flags(a, 0) && a.Keys == {0, 1, 2, 3}
    && a[0].parent == None && a[1].parent == p && a[2].parent == q && a[3].parent == r
    && !a[0].data.Element? && a[1].data.Element? && a[2].data.Element? && a[3].data.Element?
  }

  /** 1 and 2 in the document, and 3 in 1. */
  ghost predicate Family(a: Arena) {
    Kin(a, Some(0), Some(0), Some(1))
  }

  ghost predicate Unlit(a: Arena) {
    forall x :: x in a ==> Hover !in a[x].state && Active !in a[x].state
  }

  lemma NewKin(a: Arena)
    requires Tree(a, 0) && Flags(a, 0)
    requires a == map[0 := Node(None, [], true, NodeData.Document, {}, true, false, None, None)]
                     [1 := NewElement("div", map[])][2 := NewElement("div", map[])][3 := NewElement("p", map[])]
    ensures Kin(a, None, None, None) && Unlit(a) && Insertable(a, 0, 0, [1, 2])
  {
    hide Tree, Flags, Above;
    forall x | x in a ensures Above(a, x, 0) <==> x == 0 { AboveStep(a, 0, 0, x); }
    assert forall c :: c in [1, 2] ==> c == 1 || c == 2;
  }

  lemma Adopts(a: Arena, was: map<NodeId, Flushed>, b: Arena, ui: Ui, was': map<NodeId, Flushed>, P: NodeId, N: seq<NodeId>,
               p: Option<NodeId>, q: Option<NodeId>, r: Option<NodeId>)
    requires Kin(a, p, q, r) && Unlit(a) && Insertable(a, 0, P, N) && 0 !in N && Tree(b, 0) && Flags(b, 0)
    requires Kids(b) == PlacedAt(Kids(a), P, |a[P].children|, |a[P].children|, N) && Moved(a, IDLE, was, b, ui, was', N)
    ensures Kin(b, if 1 in N then Some(P) else p, if 2 in N then Some(P) else q, if 3 in N then Some(P) else r)
    ensures Unlit(b) && ui == IDLE
  {
    hide Tree, Flags, Insertable, PlacedAt, Kids, Shifted, Left, UnderAny;
    InsertableMeans(a, 0, P, N);
    PlacedParents(a, 0, b, P, |a[P].children|, |a[P].children|, N);
    ShiftedKeys(a, b, None);
    forall x | x in a ensures b[x].data == a[x].data && Hover !in b[x].state && Active !in b[x].state {
      ShiftedAt(a, b, None, x, Hover);
      ShiftedAt(a, b, None, x, Active);
    }
  }

  lemma ThirdInsertable(a: Arena)
    requires Kin(a, Some(0), Some(0), None)
    ensures Insertable(a, 0, 1, [3])
  {
    hide Tree, Flags, Above;
    AboveStep(a, 0, 1, 3);
    AboveStep(a, 0, 0, 3);
    assert forall c :: c in [3] ==> c == 3;
  }

  lemma IdleLit(a: Arena, ui: Ui)
    requires Tree(a, 0) && Unlit(a) && ui.hover == None && ui.active == None
    ensures LitChains(a, Kids(a), ui)
  {
    hide Tree, Lit;
    LitMeans(a, 0, Hover, None);
    LitMeans(a, 0, Active, None);
  }

  lemma FamilyAbove(a: Arena, x: NodeId)
    requires Family(a) && x in a
    ensures Above(a, x, 0) <==> x == 0
    ensures Above(a, x, 1) <==> x == 0 || x == 1
    ensures Above(a, x, 2) <==> x == 0 || x == 2
    ensures Above(a, x, 3) <==> x == 0 || x == 1 || x == 3
  {
    hide Tree, Flags, Above;
    AboveStep(a, 0, 0, x);
    AboveStep(a, 0, 1, x);
    AboveStep(a, 0, 2, x);
    AboveStep(a, 0, 3, x);
  }

  lemma FamilyFacts(a: Arena)
    requires Family(a)
    ensures Insertable(a, 0, 2, [3]) && Insertable(a, 0, 0, [3]) && (forall x :: x in a ==> a[x].inDoc)
    ensures Carries(a, [3], 3, 3)
  {
    hide Tree, Flags, Above;
    FamilyAbove(a, 3);
    RootFlag(a, 0);
    ParentFlag(a, 0, 1);
    ParentFlag(a, 0, 2);
    ParentFlag(a, 0, 3);
    assert forall c :: c in [3] ==> c == 3;
  }

  lemma FamilyRestated(a: Arena, b: Arena)
    requires Family(a) && Restated(a, b)
    ensures Family(b)
  {
    hide Tree, View, IdCached;
    SameTree(a, b, 0);
  }

  /** Moving 3 into 2 is allowed and fails the condition for moves; unwrapping it,
      that is replacing 1 by it, meets the one for replacements: 1 leaves. */
  lemma FamilyLights(a: Arena, ui: Ui)
    requires Family(a) && ui.hover == Some(3) && ui.active == None
    ensures !KeepsLights(a, 2, [3], ui) && !KeepsLights(a, 0, [3], ui) && ReplacesLights(a, 1, 0, [3], ui)
  {
    hide Tree, Flags, Above, UnderAny, Insertable, Carries;
    FamilyFacts(a);
    FamilyAbove(a, 0);
    FamilyAbove(a, 1);
    FamilyAbove(a, 3);
    OutOfThird(a);
    assert !KeepsLightAt(a, 2, [3], Hover, Some(3), 1);
    assert !KeepsLightAt(a, 0, [3], Hover, Some(3), 1);
    forall x | x in a && a[x].data.Element? && (x in UnderAny(a, [3]) || !Above(a, 1, x)) ensures KeepsLightAt(a, 0, [3], Hover, Some(3), x) {
      FamilyAbove(a, x);
      CarriedThird(a);
    }
  }

  lemma OutOfThird(a: Arena)
    requires Family(a)
    ensures forall x :: x in UnderAny(a, [3]) <==> x == 3
  {
    hide Tree, Flags, Above;
    assert forall c :: c in [3] ==> c == 3;
    FamilyAbove(a, 3);
  }

  lemma CarriedThird(a: Arena)
    ensures forall c, y :: Carries(a, [3], c, y) ==> c == 3
  {
    hide Above;
  }

  /** The hovered 3 in 1, with the light exact. */
  method HoverInFirst() returns (doc: BaseDocument, mutator: DocumentMutator)
    ensures fresh(doc) && fresh(mutator) && mutator.doc == doc && mutator.Valid() && doc.root == 0
    ensures Family(doc.nodes) && doc.ui.hover == Some(3) && doc.ui.active == None && LitChains(doc.nodes, Kids(doc.nodes), doc.ui)
  {
    hide Tree, Flags, Index, IdCached, UiLive, Journal, Replayed, Logged, View, Insertable, Kids, PlacedAt, Above, LitChains,
         KeepsLights, ListsBelow, KeepsLists, Moved, MoveLog, InsertedAtOnce, Kin, Unlit, Restated, NewElement, OnChain;
    doc := new BaseDocument({});
    mutator := new DocumentMutator(doc);
    var x := mutator.CreateElement("div", map[]);
    var y := mutator.CreateElement("div", map[]);
    var z := mutator.CreateElement("p", map[]);
    ghost var a, was := doc.nodes, doc.flushed;
    NewKin(a);
    mutator.AppendChildren(0, [x, y]);
    Adopts(a, was, doc.nodes, doc.ui, doc.flushed, 0, [1, 2], None, None, None);
    ghost var b, was' := doc.nodes, doc.flushed;
    ThirdInsertable(b);
    mutator.AppendChildren(x, [z]);
    Adopts(b, was', doc.nodes, doc.ui, doc.flushed, 1, [3], Some(0), Some(0), None);
    FamilyFacts(doc.nodes);
    FamilyMeans(doc.nodes);
    IdleLit(doc.nodes, doc.ui);
    ghost var c := doc.nodes;
    var _ := doc.SetHoverTo(Some(z), None);
    FamilyRestated(c, doc.nodes);
  }

  /** The hovered 3 is moved into 2: it stays hovered, and 1 stays lit. */
  method MoveLeavesLight() returns (doc: BaseDocument)
    ensures fresh(doc) && doc.Valid() && doc.ui.hover == Some(3) && 1 in doc.nodes && doc.nodes[1].inDoc && Hover in doc.nodes[1].state
    ensures !Above(doc.nodes, 1, 3) && !LitChains(doc.nodes, Kids(doc.nodes), doc.ui)
  {
    hide Tree, Flags, Index, IdCached, UiLive, Journal, Replayed, Logged, View, Insertable, Kids, PlacedAt, Above, LitChains,
         KeepsLights, ListsBelow, KeepsLists, Moved, MoveLog, InsertedAtOnce, Kin;
    var mutator;
    doc, mutator := HoverInFirst();
    ghost var a, ui, was := doc.nodes, doc.ui, doc.flushed;
    FamilyFacts(a);
    FamilyLights(a, ui);
    mutator.AppendChildren(2, [3]);
    MovedFamily(a, ui, was, doc.nodes, doc.ui, doc.flushed);
  }

  lemma MovedFamily(a: Arena, ui: Ui, was: map<NodeId, Flushed>, b: Arena, ui': Ui, was': map<NodeId, Flushed>)
    requires Family(a) && ui.hover == Some(3) && LitChains(a, Kids(a), ui) && Moved(a, ui, was, b, ui', was', [3])
    requires Tree(b, 0) && Flags(b, 0) && Kids(b) == PlacedAt(Kids(a), 2, |a[2].children|, |a[2].children|, [3])
    ensures ui'.hover == Some(3) && 1 in b && b[1].inDoc && Hover in b[1].state && !Above(b, 1, 3)
  {
    hide Tree, Flags, Above, Lit, Shifted, Insertable, PlacedAt, Kids, UnderAny, Carries;
    FamilyFacts(a);
    FamilyAbove(a, 1);
    FamilyAbove(a, 3);
    LitMeans(a, 0, Hover, Some(3));
    assert LitAt(a, Hover, Some(3), 1);
    ShiftedKeys(a, b, ui.focus);
    ShiftedAt(a, b, ui.focus, 1, Hover);
    var n := |a[2].children|;
    MovedAbove(a, 0, b, 2, n, [3], 3, 1, 3);
    InsertedFlag(a, 0, b, 2, n, [3], 1);
    InsertedFlag(a, 0, b, 2, n, [3], 3);
    OutOfThird(a);
  }

  /** The hovered 3 takes the place of 1, its parent: the light stays exact. */
  method UnwrapKeepsLight() returns (doc: BaseDocument)
    ensures fresh(doc) && doc.Valid() && LitChains(doc.nodes, Kids(doc.nodes), doc.ui)
    ensures doc.nodes.Keys == {0, 1, 2, 3} && doc.nodes[3].parent == Some(0) && doc.nodes[1].parent == None
  {
    hide Tree, Flags, Index, IdCached, UiLive, Journal, Replayed, Logged, View, Insertable, Kids, PlacedAt, Above, LitChains,
         KeepsLights, ReplacesLights, ListsBelow, KeepsLists, Outside, UnderAny, MoveLog, InsertedAtOnce, Kin;
    var mutator;
    doc, mutator := HoverInFirst();
    ghost var a := doc.nodes;
    FamilyFacts(a);
    FamilyLights(a, doc.ui);
    FamilyMeans(a);
    mutator.ReplaceNodeWith(1, [3]);
    UnwrappedFamily(a, doc.nodes);
  }

  lemma FamilyMeans(a: Arena)
    requires Family(a)
    ensures a.Keys == {0, 1, 2, 3} && a[1].parent == Some(0)
  {
    hide Tree, Flags;
  }

  lemma UnwrappedFamily(a: Arena, b: Arena)
    requires Family(a) && Tree(b, 0) && var i := IndexOf(a[0].children, 1); Kids(b) == PlacedAt(Kids(a), 0, i, i + 1, [3])
    ensures b.Keys == {0, 1, 2, 3} && b[3].parent == Some(0) && b[1].parent == None
  {
    hide Tree, Flags, PlacedAt, Kids, Insertable;
    FamilyFacts(a);
    ParentFacts(a, 0, 1);
    var i := IndexOf(a[0].children, 1);
    PlacedParents(a, 0, b, 0, i, i + 1, [3]);
    assert 1 in a[0].children[i..i + 1];
  }

  // ------------------------------------------------------------- second names

  /** A text node is named 1 on creation and 2 by an empty path, and put into the
      document. */
  method NameTwice() returns (writer: MutationWriter)
    ensures fresh(writer) && fresh(writer.docm) && fresh(writer.docm.doc) && fresh(writer.state) && writer.Valid()
    ensures writer.docm.doc.root == 0 && writer.docm.doc.nodes.Keys == {0, 1} && writer.state.stack == [0]
    ensures TwiceNamed(writer.state.nodeIdMapping, writer.state.elementIdMapping)
  {
    hide Tree, Flags, Index, IdCached, UiLive, Journal, Replayed, Logged, View, Insertable, Kids, PlacedAt, Above, DataOf,
         Sound, NodeOf, Inverse, Renamed, Reassigned, Unnamed, SubtreeOf, TwiceNamed;
    var doc := new BaseDocument({});
    var state := new DioxusState(doc.root);
    assert state.SoundIn(doc.nodes, doc.root, doc.nextId);
    writer := new MutationWriter(doc, state);
    var n := writer.CreateTextNode("", 1);
    NamedOnce(state.nodeIdMapping, state.elementIdMapping);
    assert writer.Orphan(2) == {};
    ghost var a, f, r := doc.nodes, state.nodeIdMapping, state.elementIdMapping;
    assert a - {} == a;
    writer.AssignNodeId([], 2);
    NamedAgain(f, r, state.nodeIdMapping, state.elementIdMapping);
    OneInsertable(a);
    assert writer.Top(1) == [1];
    writer.AppendChildren(0, 1, 0);
    OneAppended(a, doc.nodes);
  }

  /** It is removed, and its second name given to another node, which drops it: the
      first goes on naming it. */
  method SecondNameDangles() returns (writer: MutationWriter)
    ensures fresh(writer) && writer.Valid() && NodeOf(writer.state.nodeIdMapping, 1) == Some(1) && 1 !in writer.docm.doc.nodes
  {
    hide Tree, Flags, Index, IdCached, UiLive, Journal, Replayed, Logged, View, Kids, Above, DataOf, Detached,
         Sound, NodeOf, Inverse, Renamed, Reassigned, Unnamed, SubtreeOf, TwiceNamed;
    writer := NameTwice();
    ghost var a, f, r := writer.docm.doc.nodes, writer.state.nodeIdMapping, writer.state.elementIdMapping;
    TwiceNamedMeans(f, r);
    writer.RemoveNode(2, 1);
    OneRemoved(a, writer.docm.doc.nodes);
    var p := writer.CreatePlaceholder(3);
    ThirdNamed(f, r, p, writer.state.nodeIdMapping, writer.state.elementIdMapping);
    LoneSubtree(writer.docm.doc.nodes, p);
    f, r := writer.state.nodeIdMapping, writer.state.elementIdMapping;
    TwiceNamedMeans(f, r);
    ghost var D := writer.Orphan(2);
    writer.AssignNodeId([], 2);
    FirstNameLeft(f, r, D, p, writer.state.nodeIdMapping, writer.state.elementIdMapping);
  }

  /** Both 1 and 2 name the node 1, which knows only the second. */
  ghost predicate TwiceNamed(f: Forward, r: Reverse) {
    && NodeOf(f, 0) == Some(0) && NodeOf(f, 1) == Some(1) && NodeOf(f, 2) == Some(1)
    && 1 in r && r[1] == 2
  }

  lemma TwiceNamedMeans(f: Forward, r: Reverse)
    requires TwiceNamed(f, r)
    ensures NodeOf(f, 0) == Some(0) && NodeOf(f, 2) == Some(1)
  {
    hide NodeOf;
  }

  /** 0 names 0 and 1 names 1. */
  lemma NamedOnce(f: Forward, r: Reverse)
    requires Renamed([Some(0)], map[0 := 0], 1, 1, f, r)
    ensures NodeOf(f, 0) == Some(0) && NodeOf(f, 1) == Some(1) && NodeOf(f, 2) == None
  {
  }

  lemma NamedAgain(f: Forward, r: Reverse, f': Forward, r': Reverse)
    requires NodeOf(f, 0) == Some(0) && NodeOf(f, 1) == Some(1) && NodeOf(f, 2) == None
    requires Reassigned(f, r, {}, 1, 2, f', r')
    ensures TwiceNamed(f', r') && NodeOf(f', 0) == Some(0)
  {
    hide NodeOf;
  }

  lemma ThirdNamed(f: Forward, r: Reverse, p: NodeId, f': Forward, r': Reverse)
    requires TwiceNamed(f, r) && Renamed(f, r, p, 3, f', r') && p != 1
    ensures TwiceNamed(f', r')
  {
    hide NodeOf;
  }

  lemma FirstNameLeft(f: Forward, r: Reverse, D: set<NodeId>, p: NodeId, f': Forward, r': Reverse)
    requires TwiceNamed(f, r) && Reassigned(f, r, D, p, 2, f', r')
    ensures NodeOf(f', 1) == Some(1)
  {
    hide NodeOf;
  }

  lemma OneRemoved(a: Arena, b: Arena)
    requires Tree(b, 0) && a.Keys == {0, 1} && Kids(b) == Detached(Kids(a), {1})
    ensures b.Keys == {0, 1} && b[1].parent == None
  {
    hide Tree, Minus;
    assert b.Keys == Kids(b).Keys;
    if b[1].parent.Some? { ParentFacts(b, 0, 1); }
  }

  lemma LoneSubtree(a: Arena, p: NodeId)
    requires Tree(a, 0) && 1 in a && a[1].parent == None && p in a && p != 1 && a[p].parent == None
    ensures 1 in SubtreeOf(a, 1) && 0 !in SubtreeOf(a, 1) && p !in SubtreeOf(a, 1)
  {
    hide Tree, SubtreeOf, Above;
    RootParentless(a, 0);
    InSubtree(a, 0, 1, 0);
    InSubtree(a, 0, 1, 1);
    InSubtree(a, 0, 1, p);
    AboveStep(a, 0, 0, 1);
    AboveStep(a, 0, 1, 1);
    AboveStep(a, 0, p, 1);
  }

  // ------------------------------------------------------------------- checked

  /** `checked` is set on an input that layout has not reached and removed again: the
      attribute is still there. */
  method RemovedCheckedStays() returns (doc: BaseDocument)
    ensures fresh(doc) && doc.Valid() && 1 in doc.nodes && AttrOf(doc.nodes[1].data, "checked") == Some("true")
  {
    hide Tree, Flags, Index, IdCached, UiLive, Journal, Replayed, Logged, View, ListsBelow, InitialState, AttrEdit;
    var mutator, n;
    doc, mutator, n := OneElement("input", map["type" := "checkbox"], {});
    CheckedTwice(doc.nodes[n]);
    mutator.SetAttribute(n, "checked", "true");
    mutator.ClearAttribute(n, "checked");
  }

  lemma CheckedTwice(nd: Node)
    requires nd.inDoc && nd.data == NewElement("input", map["type" := "checkbox"]).data
    ensures var b := AttrEdit(nd, "checked", Some("true"));
            && b.inDoc && b.data.Element? && b.data.tag == "input" && b.data.special == Unbuilt
            && Lookup(b.data.attrs, "type") == Some("checkbox") && "checked" in b.data.attrs && (Checked in b.state <==> Checked in nd.state)
            && AttrOf(AttrEdit(b, "checked", None).data, "checked") == Some("true")
  {
  }

  /** A checkbox is checked by its attribute before layout has built it: the styles
      are computed for an unchecked one, and building it checks it with no word. */
  method UntoldChecked() returns (doc: BaseDocument)
    ensures fresh(doc) && !doc.Valid() && doc.snapshots == map[] && Checked in doc.deps
    ensures 1 in doc.nodes && 1 in doc.flushed && Checked in doc.nodes[1].state && Checked !in doc.flushed[1].state
  {
    hide Tree, Flags, Index, IdCached, UiLive, Journal, Replayed, Logged, View, ListsBelow, InitialState, AttrEdit, InputBuilt;
    var mutator, n;
    doc, mutator, n := OneElement("input", map["type" := "checkbox"], {Checked});
    Unchecked();
    CheckedTwice(doc.nodes[n]);
    mutator.SetAttribute(n, "checked", "true");
    doc.FlushStyles({n});
    BuiltChecked(doc.nodes[n]);
    doc.BuildInput(n);
  }

  lemma Unchecked()
    ensures Checked !in InitialState("input", map["type" := "checkbox"])
  {
  }

  lemma BuiltChecked(nd: Node)
    requires nd.data.Element? && nd.data.tag == "input" && nd.data.special == Unbuilt
    requires Lookup(nd.data.attrs, "type") == Some("checkbox") && "checked" in nd.data.attrs
    ensures Checked in InputBuilt(nd).state
  {
  }

  /** The clone of the focused element carries the focus bits, too. */
  method CloneLooksFocused() returns (doc: BaseDocument, m: NodeId)
    ensures fresh(doc) && doc.Valid() && doc.ui.focus == Some(1) && m in doc.nodes && m != 1
    ensures doc.nodes[m].data.Element? && Focus in doc.nodes[m].state && !FocusLit(doc.nodes, doc.ui.focus)
  {
    hide Tree, Flags, Index, IdCached, UiLive, Journal, Replayed, Logged, View, ListsBelow, Copied, Kids, LitChains, InitialState;
    var mutator, n;
    doc, mutator, n := OneElement("div", map[], {});
    var _ := doc.SetFocusTo(n);
    ghost var a := doc.nodes;
    m := mutator.DeepCloneNode(n);
    CloneHead(a, doc.root, n, doc.nodes, m);
  }

  lemma CloneHead(a: Arena, root: NodeId, n: NodeId, b: Arena, m: NodeId)
    requires Tree(a, root) && Tree(b, root) && n in a && m in b && Copied(a, n, b, m)
    ensures b[m].data == a[n].data && (a[n].data.Element? ==> b[m].state == a[n].state)
  {
    hide Tree, CopyAll;
    TreeForest(a, root);
    TreeForest(b, root);
    CopyUnfold(Kids(a), DataOf(a), n);
    CopyUnfold(Kids(b), DataOf(b), m);
    CopyUnfold(Kids(a), StateOf(a), n);
    CopyUnfold(Kids(b), StateOf(b), m);
  }
}
