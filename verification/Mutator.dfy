/** DocumentMutator: every structural edit of the document
    (packages/strake-dom/src/mutator.rs). */
module Mutator {
  import opened Shapes
  import opened Nodes
  import opened Edits
  import opened Moves
  import opened Ancestry
  import opened Paint
  import opened Inserts
  import opened Placement
  import opened Keeping
  import opened Focusing
  import opened Lighting
  import opened Listing
  import opened Creation
  import opened Journaling
  import opened Attributes
  import opened Document

  class DocumentMutator {
    const doc: BaseDocument
    var mutationsOccurred: bool
    /** The in-document tree when this mutator was created. */
    ghost const startView: map<NodeId, Seen>

    /** While no mutation is flagged, the document looks as it did at the start. */
    ghost predicate RedrawOK()
      reads this, doc
    {
      !mutationsOccurred ==> View(doc.nodes) == startView
    }

    ghost predicate Valid()
      reads this, doc
    {
      doc.Valid() && RedrawOK()
    }

    constructor (doc: BaseDocument)
      requires doc.Valid()
      ensures Valid() && this.doc == doc && !mutationsOccurred && startView == View(doc.nodes)
    {
      this.doc := doc;
      mutationsOccurred := false;
      startView := View(doc.nodes);
    }

    /** Dropping the mutator asks for a redraw if a mutation was flagged. Without
        one, the in-document tree is the one the mutator started from. */
    method Drop() returns (redraw: bool)
      requires Valid()
      ensures redraw <==> mutationsOccurred
      ensures !redraw ==> View(doc.nodes) == startView
    {
      redraw := mutationsOccurred;
    }

    // -------------------------------------------------------------- creation

    method CreateElement(tag: string, attrs: Attrs) returns (m: NodeId)
      requires Valid()
      modifies doc`nodes, doc`nextId
      ensures Valid() && m !in old(doc.nodes) && m == old(doc.nextId) && doc.nextId == m + 1
      ensures doc.nodes == old(doc.nodes)[m := NewElement(tag, attrs)] && Extends(old(doc.nodes), doc.nodes)
      ensures ListsBelow(doc.nodes) <==> old(ListsBelow(doc.nodes))
      ensures old(FocusLit(doc.nodes, doc.ui.focus)) ==> FocusLit(doc.nodes, doc.ui.focus)
    {
      hide Tree, Flags, Index, IdCached, UiLive, Journal, Replayed, Logged, View, InitialState, ListsBelow, FocusLit;
      InitialAgrees(tag, attrs);
      assert Focus in {Hover, Active, Focus, FocusRing} && FocusRing in {Hover, Active, Focus, FocusRing};
      m := doc.CreateNode(Element(tag, attrs, Lookup(attrs, "id"), Unbuilt, []), InitialState(tag, attrs));
    }

    method CreateTextNode(content: string) returns (m: NodeId)
      requires Valid()
      modifies doc`nodes, doc`nextId
      ensures Valid() && m !in old(doc.nodes) && m == old(doc.nextId) && doc.nextId == m + 1
      ensures doc.nodes == old(doc.nodes)[m := NewNode(Text(content), {})] && Extends(old(doc.nodes), doc.nodes)
      ensures ListsBelow(doc.nodes) <==> old(ListsBelow(doc.nodes))
      ensures old(FocusLit(doc.nodes, doc.ui.focus)) ==> FocusLit(doc.nodes, doc.ui.focus)
    {
      hide Tree, Flags, Index, IdCached, UiLive, Journal, Replayed, Logged, View, ListsBelow, FocusLit;
      m := doc.CreateNode(Text(content), {});
    }

    method CreateCommentNode(contents: string) returns (m: NodeId)
      requires Valid()
      modifies doc`nodes, doc`nextId
      ensures Valid() && m !in old(doc.nodes) && m == old(doc.nextId) && doc.nextId == m + 1
      ensures doc.nodes == old(doc.nodes)[m := NewNode(Comment(contents), {})] && Extends(old(doc.nodes), doc.nodes)
      ensures ListsBelow(doc.nodes) <==> old(ListsBelow(doc.nodes))
      ensures old(FocusLit(doc.nodes, doc.ui.focus)) ==> FocusLit(doc.nodes, doc.ui.focus)
    {
      hide Tree, Flags, Index, IdCached, UiLive, Journal, Replayed, Logged, View, ListsBelow, FocusLit;
      m := doc.CreateNode(Comment(contents), {});
    }

    /** Clones a subtree into a fresh detached tree; nothing existing changes. */
    method DeepCloneNode(n: NodeId) returns (m: NodeId)
      requires Valid() && n in doc.nodes
      modifies doc`nodes, doc`nextId, doc`base
      ensures Valid() && Extends(old(doc.nodes), doc.nodes) && m in doc.nodes && m !in old(doc.nodes)
      ensures doc.nodes[m].parent == None && Copied(old(doc.nodes), n, doc.nodes, m)
      ensures old(doc.nextId) <= m && old(doc.nextId) <= doc.nextId
      ensures forall x :: x in doc.nodes && x !in old(doc.nodes) ==> Above(doc.nodes, m, x)
      ensures old(FocusLit(doc.nodes, doc.ui.focus)) ==>
        (FocusLit(doc.nodes, doc.ui.focus) <==>
         !(doc.ui.focus.Some? && doc.ui.focus.value in old(doc.nodes) && old(doc.nodes)[doc.ui.focus.value].data.Element?
           && Above(old(doc.nodes), n, doc.ui.focus.value)))
      ensures ListsBelow(doc.nodes) <==> old(ListsBelow(doc.nodes))
    {
      hide Tree, Flags, Index, IdCached, UiLive, Journal, Replayed, Logged, View, Holds, Copied, ListsBelow, FocusLit, NewBelow, Above;
      CutReady(doc.nodes, doc.root, n);
      ghost var a := doc.nodes;
      m := doc.DeepClone(n, Kids(doc.nodes));
      CloneFocused(a, doc.root, n, doc.nodes, m, doc.ui);
    }

    // ------------------------------------------------------- text and attributes

    /** Replaces the content of a text node; other nodes are left alone. */
    method SetNodeText(n: NodeId, value: string)
      requires Valid() && n in doc.nodes
      modifies this`mutationsOccurred, doc`nodes, doc`records
      ensures Valid()
      ensures var d := old(doc.nodes)[n].data;
              var changed := d.Text? && d.content != value;
              && doc.nodes == (if changed then old(doc.nodes)[n := old(doc.nodes)[n].(data := Text(value))] else old(doc.nodes))
              && doc.records == old(doc.records) + (if changed then [CharacterData(n)] else [])
              && (mutationsOccurred <==> old(mutationsOccurred) || (changed && old(doc.nodes)[n].inDoc))
      ensures ListsBelow(doc.nodes) <==> old(ListsBelow(doc.nodes))
      ensures old(FocusLit(doc.nodes, doc.ui.focus)) ==> FocusLit(doc.nodes, doc.ui.focus)
    {
      hide Tree, Flags, Index, IdCached, UiLive, Journal, Replayed, Logged, View, ListsBelow, FocusLit;
      var nodeIsInDocument := doc.nodes[n].inDoc;
      if !doc.nodes[n].data.Text? { return; }
      if doc.nodes[n].data.content != value {
        mutationsOccurred := mutationsOccurred || nodeIsInDocument;
        EditText(n, value);
      }
    }

    /** Appends to a text node; false is the source's NotTextNode error. */
    method AppendTextToNode(n: NodeId, text: string) returns (ok: bool)
      requires Valid() && n in doc.nodes
      modifies this`mutationsOccurred, doc`nodes, doc`records
      ensures Valid() && (ok <==> old(doc.nodes)[n].data.Text?)
      ensures var d := old(doc.nodes)[n].data;
              && doc.nodes == (if ok then old(doc.nodes)[n := old(doc.nodes)[n].(data := Text(d.content + text))] else old(doc.nodes))
              && doc.records == old(doc.records) + (if ok then [CharacterData(n)] else [])
              && (mutationsOccurred <==> old(mutationsOccurred) || (ok && old(doc.nodes)[n].inDoc))
      ensures ListsBelow(doc.nodes) <==> old(ListsBelow(doc.nodes))
      ensures old(FocusLit(doc.nodes, doc.ui.focus)) ==> FocusLit(doc.nodes, doc.ui.focus)
    {
      hide Tree, Flags, Index, IdCached, UiLive, Journal, Replayed, Logged, View, ListsBelow, FocusLit;
      var nodeIsInDocument := doc.nodes[n].inDoc;
      if !doc.nodes[n].data.Text? { return false; }
      mutationsOccurred := mutationsOccurred || nodeIsInDocument;
      EditText(n, doc.nodes[n].data.content + text);
      return true;
    }

    method EditText(n: NodeId, content: string)
      requires Valid() && n in doc.nodes && doc.nodes[n].data.Text? && (doc.nodes[n].inDoc ==> mutationsOccurred)
      modifies doc`nodes, doc`records
      ensures Valid()
      ensures doc.nodes == old(doc.nodes)[n := old(doc.nodes)[n].(data := Text(content))]
      ensures doc.records == old(doc.records) + [CharacterData(n)]
      ensures ListsBelow(doc.nodes) <==> old(ListsBelow(doc.nodes))
      ensures old(FocusLit(doc.nodes, doc.ui.focus)) ==> FocusLit(doc.nodes, doc.ui.focus)
    {
      hide Tree, Flags, Index, IdCached, UiLive, Journal, Replayed, Logged, View, Entries, Indexed, ListsBelow, FocusLit;
      EditFocus(doc.nodes, n, doc.nodes[n].(data := Text(content)), doc.ui.focus);
      ghost var a, nd := doc.nodes, doc.nodes[n].(data := Text(content));
      EditedLists(a, n, nd);
      SameIndex(a, doc.nodesToId, n, nd);
      EditedAll(a, doc.root, n, nd, doc.nodesToId, doc.nodesToId, doc.ui, doc.base, doc.records, doc.calls, CharacterData(n), doc.nextId);
      EditedJournal(a, doc.snapshots, doc.flushed, doc.deps, n, nd);
      doc.nodes := doc.nodes[n := doc.nodes[n].(data := Text(content))];
      doc.records := doc.records + [CharacterData(n)];
    }

    /** The index follows an id attribute being set (Some) or cleared (None). */
    method ReindexId(n: NodeId, value: Option<string>)
      requires Index(doc.nodes, doc.nodesToId) && IdCached(doc.nodes)
      requires n in doc.nodes && doc.nodes[n].inDoc && doc.nodes[n].data.Element?
      modifies doc`nodesToId
      ensures Reindexed(old(doc.nodesToId), doc.nodesToId, n, value)
    {
      hide Index, IdCached, Entries, Indexed;
      OwnEntries(doc.nodes, doc.nodesToId, n);
      var oldId := doc.nodes[n].data.id;
      if oldId.Some? {
        doc.RemoveFromIdMap(oldId.value, n);
      }
      if value.Some? {
        doc.AddToIdMap(value.value, n);
      }
    }

    /** Snapshot and index are ready for an edit of n; `ix` is the index before. */
    ghost predicate EditReady(n: NodeId, name: string, value: Option<string>, ix: IdIndex)
      reads doc
    {
      var a := doc.nodes;
      && n in a && Tree(a, doc.root) && Flags(a, doc.root) && Index(a, ix) && IdCached(a) && UiLive(a, doc.ui)
      && Journal(a, doc.snapshots, doc.flushed, doc.deps)
      && Replayed(a, doc.base, doc.records) && Replayed(a, doc.base, doc.calls)
      && (forall x :: x in a ==> x < doc.nextId)
      && Logged(doc.base, doc.records, doc.nextId) && Logged(doc.base, doc.calls, doc.nextId)
      && (a[n].inDoc && a[n].styled && a[n].data.Element? ==> n in doc.snapshots && doc.snapshots[n].attrs.Some?)
      && (if name == "id" && a[n].inDoc && a[n].data.Element? then Reindexed(ix, doc.nodesToId, n, value) else doc.nodesToId == ix)
    }

    /** What an attribute edit does first. */
    method PrepareEdit(n: NodeId, name: string, value: Option<string>)
      requires Valid() && n in doc.nodes
      modifies doc`nodes, doc`snapshots, doc`nodesToId
      ensures EditReady(n, name, value, old(doc.nodesToId))
      ensures var nd := old(doc.nodes)[n];
              doc.nodes == old(doc.nodes)[n := nd.(hasSnapshot := nd.hasSnapshot || (nd.inDoc && nd.styled))]
      ensures View(doc.nodes) == old(View(doc.nodes))
    {
      hide Tree, Flags, Index, IdCached, UiLive, Journal, Replayed, Logged, View, Reindexed;
      Snapshot(n);
      if name == "id" && doc.nodes[n].inDoc && doc.nodes[n].data.Element? {
        ReindexId(n, value);
      }
    }

    lemma EditDone(n: NodeId, name: string, value: Option<string>, ix: IdIndex, nd: Node)
      requires EditReady(n, name, value, ix) && doc.nodes[n].data.Element?
      requires nd == if value.Some? then WithAttr(doc.nodes[n], name, value.value) else WithoutAttr(doc.nodes[n], name)
      ensures var b, r := doc.nodes[n := nd], Attributes(n, name);
              && Tree(b, doc.root) && Flags(b, doc.root) && IdCached(b) && Index(b, doc.nodesToId) && UiLive(b, doc.ui)
              && Journal(b, doc.snapshots, doc.flushed, doc.deps)
              && Replayed(b, doc.base, doc.records + [r]) && Replayed(b, doc.base, doc.calls)
              && (forall x :: x in b ==> x < doc.nextId)
              && Logged(doc.base, doc.records + [r], doc.nextId) && Logged(doc.base, doc.calls, doc.nextId)
              && (!doc.nodes[n].inDoc ==> View(b) == View(doc.nodes))
    {
      hide Tree, Flags, Index, IdCached, UiLive, Journal, Replayed, Logged, View, WithAttr, WithoutAttr, Reindexed, Kids;
      AttrEdited(doc.nodes, doc.root, n, nd, name, value, ix, doc.nodesToId, doc.snapshots, doc.flushed, doc.deps, doc.ui,
                 doc.base, doc.records, doc.calls, doc.nextId);
    }

    lemma EditIdle(n: NodeId, name: string, value: Option<string>, ix: IdIndex)
      requires EditReady(n, name, value, ix)
      requires doc.nodes[n].data.Element? ==> value == None && name !in doc.nodes[n].data.attrs
      ensures doc.Valid()
    {
      hide Tree, Flags, Index, IdCached, UiLive, Journal, Replayed, Logged, Reindexed;
      if doc.nodes[n].data.Element? { NothingCleared(doc.nodes, n, name, ix, doc.nodesToId); }
    }

    /** setAttribute: snapshot, index, attribute, record, and the state bits that
        mirror the attribute. */
    method SetAttribute(n: NodeId, name: string, value: string)
      requires Valid() && n in doc.nodes
      modifies this`mutationsOccurred, doc`nodes, doc`snapshots, doc`nodesToId, doc`records
      ensures Valid()
      ensures doc.nodes == old(doc.nodes)[n := AttrEdit(old(doc.nodes)[n], name, Some(value))]
      ensures doc.records == old(doc.records) + if old(doc.nodes)[n].data.Element? then [Attributes(n, name)] else []
      ensures mutationsOccurred <==> old(mutationsOccurred) || (old(doc.nodes)[n].data.Element? && old(doc.nodes)[n].inDoc)
      ensures ListsBelow(doc.nodes) <==> old(ListsBelow(doc.nodes))
      ensures SameBits(old(doc.nodes)[n], doc.nodes[n])
      ensures old(LitChains(doc.nodes, Kids(doc.nodes), doc.ui)) ==> LitChains(doc.nodes, Kids(doc.nodes), doc.ui)
      ensures old(FocusLit(doc.nodes, doc.ui.focus)) ==> FocusLit(doc.nodes, doc.ui.focus)
    {
      hide Tree, Flags, Index, IdCached, UiLive, Journal, Replayed, Logged, View, WithAttr, WithoutAttr, AttrEdit, ListsBelow,
           EditReady, LitChains, FocusLit, SameBits, Kids;
      AttrEditKeeps(doc.nodes, doc.root, n, name, Some(value), doc.ui);
      var nodeIsInDocument := doc.nodes[n].inDoc;
      PrepareEdit(n, name, Some(value));
      EditIs(old(doc.nodes)[n], doc.nodes[n], name, Some(value));
      if !doc.nodes[n].data.Element? {
        EditIdle(n, name, Some(value), old(doc.nodesToId));
        return;
      }
      EditDone(n, name, Some(value), old(doc.nodesToId), WithAttr(doc.nodes[n], name, value));
      mutationsOccurred := mutationsOccurred || nodeIsInDocument;
      ApplyAttribute(n, name, value);
      doc.records := doc.records + [Attributes(n, name)];
    }

    /** Stores the attribute in the element and updates what mirrors it. */
    method ApplyAttribute(n: NodeId, name: string, value: string)
      requires n in doc.nodes && doc.nodes[n].data.Element?
      modifies doc`nodes
      ensures doc.nodes == old(doc.nodes)[n := WithAttr(old(doc.nodes)[n], name, value)]
    {
      var node := doc.nodes[n];
      var element := node.data;
      var attrs := element.attrs[name := value];
      node := node.(data := element.(attrs := attrs));
      if name == "href" {
        node := node.(state := LinkState(node.state, element.tag, attrs));
      }
      if name == "id" {
        node := node.(data := node.data.(id := Some(value)));
      }
      if name == "disabled" && CanBeDisabled(element.tag) {
        node := node.(state := node.state + {Disabled} - {Enabled});
      }
      if node.inDoc && element.tag == "input" && name == "checked" {
        node := SetInputCheckedState(node, value);
      }
      doc.nodes := doc.nodes[n := node];
    }

    /** set_input_checked_state. */
    method SetInputCheckedState(node: Node, value: string) returns (r: Node)
      requires node.data.Element?
      ensures r == Rechecked(node, value)
    {
      r := node;
      if value != "true" && value != "false" { return; }
      var checked := value == "true";
      match r.data.special {
        case CheckboxInput => r := r.(state := if checked then r.state + {Checked} else r.state - {Checked});
        case Unbuilt => r := r.(data := r.data.(repeats := r.data.repeats + [if checked then "true" else "false"]));
        case OtherSpecial =>
      }
    }

    /** The snapshot an attribute edit takes first, in the document. */
    method Snapshot(n: NodeId)
      requires Valid() && n in doc.nodes
      modifies doc`nodes, doc`snapshots
      ensures Valid()
      ensures var nd := old(doc.nodes)[n];
              doc.nodes == old(doc.nodes)[n := nd.(hasSnapshot := nd.hasSnapshot || (nd.inDoc && nd.styled))]
      ensures View(doc.nodes) == old(View(doc.nodes))
      ensures var nd := old(doc.nodes)[n];
              nd.inDoc && nd.styled && nd.data.Element? ==> n in doc.snapshots && doc.snapshots[n].attrs.Some?
    {
      hide Tree, Flags, Index, IdCached, UiLive, Journal, Replayed, Logged, View;
      ghost var a := doc.nodes;
      if doc.nodes[n].inDoc {
        CapturesAttrs(a[n], Lookup(doc.snapshots, n));
        doc.SnapshotNode(n, true);
        RestatedAll(a, doc.nodes, doc.root, doc.nodesToId, doc.ui, doc.base, doc.records, doc.calls);
      }
    }

    /** removeAttribute: nothing but the snapshot happens if it is not there. */
    method ClearAttribute(n: NodeId, name: string)
      requires Valid() && n in doc.nodes
      modifies this`mutationsOccurred, doc`nodes, doc`snapshots, doc`nodesToId, doc`records
      ensures Valid()
      ensures doc.nodes == old(doc.nodes)[n := AttrEdit(old(doc.nodes)[n], name, None)]
      ensures doc.records == old(doc.records) + if AttrOf(old(doc.nodes)[n].data, name).Some? then [Attributes(n, name)] else []
      ensures mutationsOccurred <==> old(mutationsOccurred) || (AttrOf(old(doc.nodes)[n].data, name).Some? && old(doc.nodes)[n].inDoc)
      ensures ListsBelow(doc.nodes) <==> old(ListsBelow(doc.nodes))
      ensures SameBits(old(doc.nodes)[n], doc.nodes[n])
      ensures old(LitChains(doc.nodes, Kids(doc.nodes), doc.ui)) ==> LitChains(doc.nodes, Kids(doc.nodes), doc.ui)
      ensures old(FocusLit(doc.nodes, doc.ui.focus)) ==> FocusLit(doc.nodes, doc.ui.focus)
    {
      hide Tree, Flags, Index, IdCached, UiLive, Journal, Replayed, Logged, View, WithAttr, WithoutAttr, AttrEdit, AttrOf,
           ListsBelow, EditReady, LitChains, FocusLit, SameBits, Kids;
      AttrEditKeeps(doc.nodes, doc.root, n, name, None, doc.ui);
      AttrPresent(doc.nodes[n].data, name);
      var nodeIsInDocument := doc.nodes[n].inDoc;
      PrepareEdit(n, name, None);
      EditIs(old(doc.nodes)[n], doc.nodes[n], name, None);
      if !doc.nodes[n].data.Element? || name !in doc.nodes[n].data.attrs {
        EditIdle(n, name, None, old(doc.nodesToId));
        return;
      }
      EditDone(n, name, None, old(doc.nodesToId), WithoutAttr(doc.nodes[n], name));
      mutationsOccurred := mutationsOccurred || nodeIsInDocument;
      RemoveAttribute(n, name);
      doc.records := doc.records + [Attributes(n, name)];
    }

    /** Takes the attribute out of the element and updates what mirrors it. */
    method RemoveAttribute(n: NodeId, name: string)
      requires n in doc.nodes && doc.nodes[n].data.Element? && name in doc.nodes[n].data.attrs
      modifies doc`nodes
      ensures doc.nodes == old(doc.nodes)[n := WithoutAttr(old(doc.nodes)[n], name)]
    {
      var node := doc.nodes[n];
      var element := node.data;
      if name == "checked" && element.repeats != [] {
        element := element.(attrs := element.attrs[name := element.repeats[0]], repeats := element.repeats[1..]);
      } else {
        element := element.(attrs := element.attrs - {name});
      }
      var attrs := element.attrs;
      node := node.(data := element);
      if name == "id" {
        node := node.(data := node.data.(id := None));
      }
      if name == "href" {
        node := node.(state := LinkState(node.state, element.tag, attrs));
      }
      if name == "disabled" && CanBeDisabled(element.tag) {
        node := node.(state := node.state + {Enabled} - {Disabled});
      }
      doc.nodes := doc.nodes[n := node];
    }

    /** Detaches n, queueing no mutation record; returns its former parent. */
    method DetachNodeNoRecord(n: NodeId) returns (parent: Option<NodeId>)
      requires doc.Core() && RedrawOK() && n in doc.nodes && n != doc.root
      modifies this`mutationsOccurred, doc
      ensures doc.Core() && RedrawOK()
      ensures parent == old(doc.nodes)[n].parent
      ensures doc.nodes == CutArena(old(doc.nodes), n, old(doc.ui).focus)
      ensures doc.calls == old(doc.calls) + CutLog(old(doc.nodes), n)
      ensures doc.records == old(doc.records) && doc.base == old(doc.base) && doc.nextId == old(doc.nextId)
      ensures doc.ui == ForgetAll(old(doc.ui), SubtreeOf(old(doc.nodes), n), HeirOr(old(doc.nodes), Kids(old(doc.nodes)), n))
      ensures doc.flushed == old(doc.flushed) - SubtreeOf(old(doc.nodes), n)
      ensures mutationsOccurred <==> old(mutationsOccurred) || (old(doc.nodes)[n].inDoc && old(doc.nodes)[n].parent.Some?)
      ensures old(LitChains(doc.nodes, Kids(doc.nodes), doc.ui)) ==> LitChains(doc.nodes, Kids(doc.nodes), doc.ui)
      ensures Unselected(old(doc.ui), SubtreeOf(old(doc.nodes), n), doc.ui)
      ensures old(FocusLit(doc.nodes, doc.ui.focus)) ==> FocusLit(doc.nodes, doc.ui.focus)
    {
      hide Tree, Flags, Index, IdCached, UiLive, Journal, Replayed, Logged, LitChains, Climbs, Rooted, Mentions, Minus, View,
           Preorder, Holds, Entries, Heir, RankOK, CutArena, UnmountedArena, DetachedArena, Relinked, ForgetAll, HeirOr,
           Heritable, Members, Kids, OneParent, NoDup, Unselected, FocusLit;
      CutFocus(doc.nodes, n, doc.ui, HeirOr(doc.nodes, Kids(doc.nodes), n));
      ForgetAllUnselects(doc.ui, SubtreeOf(doc.nodes, n), HeirOr(doc.nodes, Kids(doc.nodes), n));
      ghost var a, f, S := doc.nodes, doc.ui.focus, Kids(doc.nodes);
      CutReady(a, doc.root, n);
      RootedHeritable(a, S, n);
      CutStep(a, doc.root, n, f);
      CutTree(a, doc.root, n, f);
      CutReplayed(a, doc.root, n, f, doc.base, doc.calls);
      var wasInDocument := doc.nodes[n].inDoc;
      doc.ProcessRemovedSubtree(n, S);
      ghost var b := doc.nodes;
      parent := Unlink(n);
      mutationsOccurred := mutationsOccurred || (parent.Some? && wasInDocument);
      assert doc.calls == old(doc.calls) + CutLog(a, n);
      RelinkedKeeps(b, doc.nodes, doc.nodesToId, doc.ui, doc.snapshots, doc.flushed, doc.deps);
      LoggedMore(doc.base, old(doc.calls), CutLog(a, n), doc.nextId);
      if old(LitChains(doc.nodes, Kids(doc.nodes), doc.ui)) {
        CutLitChains(a, doc.root, n, f, doc.ui);
      }
    }

    /** Takes n out of its parent's list, with the hook call for it. */
    method Unlink(n: NodeId) returns (parent: Option<NodeId>)
      requires n in doc.nodes && (doc.nodes[n].parent.Some? ==> doc.nodes[n].parent.value in doc.nodes && doc.nodes[n].parent.value != n)
      modifies doc`nodes, doc`calls
      ensures parent == old(doc.nodes)[n].parent
      ensures parent == None ==> doc.nodes == old(doc.nodes) && doc.calls == old(doc.calls)
      ensures parent.Some? ==>
        var q, b := parent.value, old(doc.nodes);
        && doc.nodes == b[n := b[n].(parent := None)][q := b[q].(children := Minus(b[q].children, {n}))]
        && doc.calls == old(doc.calls) + [ChildList(q, [], [n])]
    {
      hide Minus;
      parent := doc.nodes[n].parent;
      if parent.Some? {
        doc.nodes := doc.nodes[n := doc.nodes[n].(parent := None)];
        var p := doc.nodes[parent.value];
        doc.nodes := doc.nodes[parent.value := p.(children := Minus(p.children, {n}))];
        doc.calls := doc.calls + [ChildList(parent.value, [], [n])];
      }
    }

    /** Removes n from its parent but does not drop it. */
    method RemoveNode(n: NodeId)
      requires Valid() && n in doc.nodes && n != doc.root
      modifies this`mutationsOccurred, doc
      ensures Valid()
      ensures doc.nodes == CutArena(old(doc.nodes), n, old(doc.ui).focus)
      ensures doc.records == old(doc.records) + CutLog(old(doc.nodes), n)
      ensures doc.calls == old(doc.calls) + CutLog(old(doc.nodes), n)
      ensures doc.base == old(doc.base) && doc.nextId == old(doc.nextId)
      ensures doc.ui == ForgetAll(old(doc.ui), SubtreeOf(old(doc.nodes), n), HeirOr(old(doc.nodes), Kids(old(doc.nodes)), n))
      ensures doc.flushed == old(doc.flushed) - SubtreeOf(old(doc.nodes), n)
      ensures mutationsOccurred <==> old(mutationsOccurred) || (old(doc.nodes)[n].inDoc && old(doc.nodes)[n].parent.Some?)
      ensures old(LitChains(doc.nodes, Kids(doc.nodes), doc.ui)) ==> LitChains(doc.nodes, Kids(doc.nodes), doc.ui)
      ensures old(ListsBelow(doc.nodes)) ==> (ListsBelow(doc.nodes) <==> !Held(old(doc.nodes), n))
      ensures Unselected(old(doc.ui), SubtreeOf(old(doc.nodes), n), doc.ui)
      ensures old(FocusLit(doc.nodes, doc.ui.focus)) ==> FocusLit(doc.nodes, doc.ui.focus)
    {
      hide Tree, Flags, Index, IdCached, UiLive, Journal, Replayed, Logged, LitChains, View, CutArena, ForgetAll, HeirOr,
           SubtreeOf, ListsBelow, PaintLive, Held, Strayed, KeepsLists, Unselected, FocusLit;
      CutFocus(doc.nodes, n, doc.ui, HeirOr(doc.nodes, Kids(doc.nodes), n));
      ForgetAllUnselects(doc.ui, SubtreeOf(doc.nodes, n), HeirOr(doc.nodes, Kids(doc.nodes), n));
      ghost var a, f := doc.nodes, doc.ui.focus;
      assert Tree(a, doc.root) && Flags(a, doc.root);
      TreeForest(a, doc.root);
      RemovalLists(a, doc.root, n, f);
      var parent := DetachNodeNoRecord(n);
      if parent.Some? {
        doc.records := doc.records + [ChildList(parent.value, [], [n])];
      }
      assert doc.records == old(doc.records) + CutLog(a, n);
      CutReplayed(a, doc.root, n, f, doc.base, old(doc.records));
      CutLogged(a, doc.root, n, doc.base, old(doc.records), doc.nextId);
    }

    // ------------------------------------------------------------- dropping

    /** Takes a subtree out of the document and frees it. */
    method FreeSubtree(n: NodeId, ghost S: Shape) returns (dropped: seq<NodeId>)
      requires Holds(doc.nodes, S, n) && Forest(S) && Climbs(doc.nodes, S)
      requires Index(doc.nodes, doc.nodesToId) && UiLive(doc.nodes, doc.ui)
      requires Journal(doc.nodes, doc.snapshots, doc.flushed, doc.deps)
      modifies doc
      ensures dropped == Preorder(S, n) && doc.nodes == old(doc.nodes) - Members(dropped)
      ensures Index(doc.nodes, doc.nodesToId) && UiLive(doc.nodes, doc.ui)
      ensures Journal(doc.nodes, doc.snapshots, doc.flushed, doc.deps)
      ensures Climbs(doc.nodes, S) && (Rooted(old(doc.nodes), S) ==> Rooted(doc.nodes, S))
      ensures Rooted(old(doc.nodes), S) && old(LitChains(doc.nodes, S, doc.ui)) ==> LitChains(doc.nodes, S, doc.ui)
      ensures Heritable(old(doc.nodes), S, n) ==> doc.ui == ForgetAll(old(doc.ui), Members(dropped), HeirOr(old(doc.nodes), S, n))
      ensures doc.flushed == old(doc.flushed) - Members(dropped)
      ensures doc.records == old(doc.records) && doc.calls == old(doc.calls)
      ensures doc.base == old(doc.base) && doc.nextId == old(doc.nextId)
    {
      hide Index, UiLive, Journal, Climbs, Rooted, Mentions, LitChains, Preorder, Under, RankOK, OneParent, Heritable, HeirOr,
           ForgetAll;
      ghost var a, f := doc.nodes, doc.ui.focus;
      HoldsOrder(a, S, n);
      doc.ProcessRemovedSubtree(n, S);
      ghost var b := doc.nodes;
      UnmountedHolds(a, S, n, f);
      dropped := doc.DropNodeIgnoringParent(n, S);
      FreedSubtree(a, S, n, f, b, doc.nodes, doc.nodesToId, doc.ui, doc.snapshots, doc.flushed, doc.deps);
    }

    /** Ids of a subtree, gathered with an explicit stack before a drop. */
    method CollectSubtreeIds(n: NodeId, ghost S: Shape) returns (ids: set<NodeId>)
      requires Holds(doc.nodes, S, n)
      ensures ids == Members(Preorder(S, n))
    {
      hide Under, Preorder, RankOK, Acyclic;
      OrderKids(doc.nodes, S, n, n);
      ghost var D := Members(Preorder(S, n));
      ids := {};
      var stack := [n];
      while stack != []
        invariant ids <= D && forall y :: y in stack ==> y in D
        invariant n in ids || n in stack
        invariant forall y, c :: y in ids && y in doc.nodes && c in doc.nodes[y].children ==> c in ids || c in stack
        decreases |D - ids|, |stack|
      {
        var id := stack[|stack| - 1];
        ghost var before := stack;
        assert id in stack;
        stack := stack[..|stack| - 1];
        assert before == stack + [id];
        if id !in ids {
          OrderKids(doc.nodes, S, n, id);
          SmallerSet(D - (ids + {id}), D - ids) by { assert id in D - ids; }
          ids := ids + {id};
          stack := stack + doc.nodes[id].children;
        }
      }
      OrderLeast(doc.nodes, S, n, ids);
    }

    /** Takes the dropped ids out of the paint and stacking lists of `from` and
        all its ancestors. */
    method PurgeDerivedPaintRefs(from: NodeId, dropped: set<NodeId>)
      requires Tree(doc.nodes, doc.root) && from in doc.nodes
      modifies doc`nodes
      ensures doc.nodes == PurgedArena(old(doc.nodes), from, dropped)
    {
      hide Tree, Above, Minus, Purged, PurgedBelow, PurgedArena, ClimbLeft;
      ghost var a := doc.nodes;
      PurgedStart(a, doc.root, from, dropped);
      var current := Some(from);
      while current.Some?
        invariant current.Some? ==> current.value in a && Above(a, current.value, from)
        invariant doc.nodes == PurgedBelow(a, from, current, dropped)
        decreases ClimbLeft(a, current)
      {
        PurgedStep(a, doc.root, from, current.value, dropped);
        ClimbStep(a, doc.root, from, current.value);
        var node := doc.nodes[current.value];
        doc.nodes := doc.nodes[current.value := Purged(node, dropped)];
        current := node.parent;
      }
    }

    /** Removes n from its parent and frees its subtree; the freed ids are what
        the source's on_drop callback is called with, in order. */
    method RemoveAndDropNodeWith(n: NodeId) returns (dropped: seq<NodeId>)
      requires Valid() && n in doc.nodes && n != doc.root
      modifies this`mutationsOccurred, doc
      ensures Valid()
      ensures Members(dropped) == SubtreeOf(old(doc.nodes), n) && NoDup(dropped)
      ensures doc.nodes == DroppedArena(old(doc.nodes), Members(dropped), old(doc.nodes)[n].parent)
      ensures doc.records == old(doc.records) + CutLog(old(doc.nodes), n)
      ensures doc.calls == old(doc.calls) + CutLog(old(doc.nodes), n)
      ensures doc.ui == ForgetAll(old(doc.ui), Members(dropped), HeirOr(old(doc.nodes), Kids(old(doc.nodes)), n))
      ensures doc.flushed == old(doc.flushed) - Members(dropped)
      ensures mutationsOccurred <==> old(mutationsOccurred) || old(doc.nodes)[n].inDoc
      ensures doc.base == old(doc.base) && doc.nextId == old(doc.nextId)
      ensures old(LitChains(doc.nodes, Kids(doc.nodes), doc.ui)) ==> LitChains(doc.nodes, Kids(doc.nodes), doc.ui)
      ensures old(PaintLive(doc.nodes)) ==> (PaintLive(doc.nodes) <==> !Strayed(old(doc.nodes), Members(dropped)))
      ensures old(ListsBelow(doc.nodes)) ==> ListsBelow(doc.nodes)
      ensures old(RangeDragLive(doc.nodes, doc.ui)) ==>
        (RangeDragLive(doc.nodes, doc.ui) <==> old(doc.ui).rangeDrag == None || old(doc.ui).rangeDrag.value !in Members(dropped))
      ensures Unselected(old(doc.ui), SubtreeOf(old(doc.nodes), n), doc.ui)
      ensures old(FocusLit(doc.nodes, doc.ui.focus)) ==> FocusLit(doc.nodes, doc.ui.focus)
    {
      hide Tree, Flags, Index, IdCached, UiLive, Journal, Replayed, Logged, LitChains, View, Minus, Preorder, Holds,
           Climbs, Rooted, RankOK, OneParent, PurgedArena, FreedArena, Removable, NoDup, Under, Relinked, SubtreeOf, Kids,
           Acyclic, Members, Heritable, HeirOr, ForgetAll, ListsBelow, PaintLive, Held, Strayed, KeepsLists, RangeDragLive, Unselected, FocusLit;
      DropFocus(doc.nodes, SubtreeOf(doc.nodes, n), doc.nodes[n].parent, doc.ui, HeirOr(doc.nodes, Kids(doc.nodes), n));
      ForgetAllUnselects(doc.ui, SubtreeOf(doc.nodes, n), HeirOr(doc.nodes, Kids(doc.nodes), n));
      ghost var a, S := doc.nodes, Kids(doc.nodes);
      DropPlan(a, doc.root, n, doc.base, doc.records, doc.calls, doc.nextId);
      RootedHeritable(a, S, n);
      DropLists(a, doc.root, n);
      DroppedRangeDrag(a, SubtreeOf(a, n), doc.nodes[n].parent, doc.ui, HeirOr(a, S, n));
      var wasInDocument := doc.nodes[n].inDoc;
      var parent := doc.nodes[n].parent;
      var doomed := CollectSubtreeIds(n, S);
      dropped := FreeSubtree(n, S);
      mutationsOccurred := mutationsOccurred || wasInDocument;
      SelfRelinked(doc.nodes);
      DroppedKeeps(a, doc.root, doomed, parent, doc.nodes, doc.nodesToId, doc.ui, doc.snapshots, doc.flushed, doc.deps);
      if parent.Some? {
        UnlinkDropped(n, parent.value, doomed, a);
      }
      assert doc.calls == old(doc.calls) + CutLog(a, n) && doc.records == old(doc.records) + CutLog(a, n);
    }

    /** The former parent's list, the paint lists above it, and the logs. */
    method UnlinkDropped(n: NodeId, parent: NodeId, doomed: set<NodeId>, ghost a: Arena)
      requires parent in doc.nodes && Tree(FreedArena(a, doomed), doc.root)
      requires FreedArena(a, doomed) == doc.nodes[parent := doc.nodes[parent].(children := Minus(doc.nodes[parent].children, {n}))]
      modifies doc`nodes, doc`calls, doc`records
      ensures doc.nodes == PurgedArena(FreedArena(a, doomed), parent, doomed)
      ensures doc.calls == old(doc.calls) + [ChildList(parent, [], [n])]
      ensures doc.records == old(doc.records) + [ChildList(parent, [], [n])]
    {
      hide Tree, Minus, PurgedArena, FreedArena;
      var p := doc.nodes[parent];
      doc.nodes := doc.nodes[parent := p.(children := Minus(p.children, {n}))];
      PurgeDerivedPaintRefs(parent, doomed);
      doc.calls := doc.calls + [ChildList(parent, [], [n])];
      doc.records := doc.records + [ChildList(parent, [], [n])];
    }

    /** The doomed ids of several subtrees. */
    method CollectAll(cs: seq<NodeId>, ghost S: Shape) returns (ids: set<NodeId>)
      requires forall c :: c in cs ==> Holds(doc.nodes, S, c)
      ensures forall c :: c in cs ==> c in S
      ensures cs != [] ==> Acyclic(S) && ids == Members(PreorderAll(S, cs))
      ensures cs == [] ==> ids == {}
    {
      hide Under, Preorder, Acyclic;
      ids := {};
      for i := 0 to |cs|
        invariant forall c :: c in cs[..i] ==> c in S
        invariant i > 0 ==> Acyclic(S) && ids == Members(PreorderAll(S, cs[..i]))
        invariant i == 0 ==> ids == {}
      {
        assert cs[i] in cs;
        var doomed := CollectSubtreeIds(cs[i], S);
        assert forall c :: c in cs ==> c in S;
        PreorderAllSnoc(S, cs, i);
        assert i == 0 ==> PreorderAll(S, cs[..i]) == [];
        ids := ids + doomed;
      }
      assert cs[..|cs|] == cs;
    }

    /** Frees the subtrees of p's taken children, one after the other. */
    method FreeTaken(p: NodeId, cs: seq<NodeId>, ghost a: Arena)
      requires p in a && a[p].children == cs && doc.nodes == Taken(a, p)
      requires Forest(Kids(a)) && Holds(a, Kids(a), p) && Climbs(a, Kids(a)) && forall c :: c in cs ==> c in Kids(a)
      requires Climbs(doc.nodes, Kids(a)) && Rooted(doc.nodes, Kids(a))
      requires Index(doc.nodes, doc.nodesToId) && UiLive(doc.nodes, doc.ui)
      requires Journal(doc.nodes, doc.snapshots, doc.flushed, doc.deps)
      modifies doc
      ensures doc.nodes == Taken(a, p) - Members(PreorderAll(Kids(a), cs))
      ensures Index(doc.nodes, doc.nodesToId) && UiLive(doc.nodes, doc.ui)
      ensures Journal(doc.nodes, doc.snapshots, doc.flushed, doc.deps)
      ensures old(LitChains(doc.nodes, Kids(a), doc.ui)) ==> LitChains(doc.nodes, Kids(a), doc.ui)
      ensures doc.ui == ForgetAll(old(doc.ui), Members(PreorderAll(Kids(a), cs)), HeirBelow(a, Kids(a), p))
      ensures doc.flushed == old(doc.flushed) - Members(PreorderAll(Kids(a), cs))
      ensures doc.records == old(doc.records) && doc.calls == old(doc.calls)
      ensures doc.base == old(doc.base) && doc.nextId == old(doc.nextId)
    {
      hide Index, UiLive, Journal, LitChains, Preorder, Holds, Climbs, Rooted, RankOK, OneParent, NoDup, Under, Acyclic,
           Heritable, HeirOr, HeirBelow, ForgetAll, Members;
      ghost var S, heir := Kids(a), HeirBelow(a, Kids(a), p);
      ForgetAllNone(doc.ui, heir);
      NothingFreedYet(S, cs, doc.flushed, doc.nodes);
      for i := 0 to |cs|
        invariant forall c :: c in cs[..i] ==> c in S
        invariant doc.nodes == Taken(a, p) - Members(PreorderAll(S, cs[..i]))
        invariant Index(doc.nodes, doc.nodesToId) && UiLive(doc.nodes, doc.ui)
        invariant Journal(doc.nodes, doc.snapshots, doc.flushed, doc.deps)
        invariant Climbs(doc.nodes, S) && Rooted(doc.nodes, S)
        invariant doc.ui == ForgetAll(old(doc.ui), Members(PreorderAll(S, cs[..i])), heir)
        invariant doc.flushed == old(doc.flushed) - Members(PreorderAll(S, cs[..i]))
        invariant old(LitChains(doc.nodes, S, doc.ui)) ==> LitChains(doc.nodes, S, doc.ui)
        invariant doc.records == old(doc.records) && doc.calls == old(doc.calls)
        invariant doc.base == old(doc.base) && doc.nextId == old(doc.nextId)
      {
        NextChild(a, p, i, doc.nodes);
        ghost var b, u, was := doc.nodes, doc.ui, doc.flushed;
        ChildThere(b, S, cs[i]);
        TakenHeir(a, S, p, i, b);
        RootedHeritable(b, S, cs[i]);
        var freed := FreeSubtree(cs[i], S);
        PreorderAllSnoc(S, cs, i);
        MembersMean(freed);
        FreedProgress(old(doc.ui), old(doc.flushed), Members(PreorderAll(S, cs[..i])), Members(freed), heir, u, was, doc.ui, doc.flushed);
        MembersSum(PreorderAll(S, cs[..i]), freed);
        assert Taken(a, p) - Members(PreorderAll(S, cs[..i])) - Members(freed) == Taken(a, p) - (Members(PreorderAll(S, cs[..i])) + Members(freed));
      }
      assert cs[..|cs|] == cs;
    }

    /** One node_removed call per child, then one record for all of them. */
    method LogRemovals(p: NodeId, cs: seq<NodeId>)
      modifies doc`calls, doc`records
      ensures doc.records == old(doc.records) + RemovedAtOnce(p, cs)
      ensures doc.calls == old(doc.calls) + RemovedEach(p, cs)
    {
      if cs != [] {
        for i := 0 to |cs|
          invariant doc.calls == old(doc.calls) + RemovedEach(p, cs[..i])
          modifies doc`calls
        {
          assert cs[..i + 1][..i] == cs[..i];
          doc.calls := doc.calls + [ChildList(p, [], [cs[i]])];
        }
        doc.records := doc.records + [ChildList(p, [], cs)];
      }
      assert cs[..|cs|] == cs;
    }

    /** Frees all children of p, whose list is taken first. */
    method RemoveAndDropAllChildren(p: NodeId)
      requires Valid() && p in doc.nodes
      modifies this`mutationsOccurred, doc
      ensures Valid()
      ensures doc.nodes == DroppedArena(old(doc.nodes), Below(old(doc.nodes), p), Some(p))
      ensures doc.records == old(doc.records) + RemovedAtOnce(p, old(doc.nodes)[p].children)
      ensures doc.calls == old(doc.calls) + RemovedEach(p, old(doc.nodes)[p].children)
      ensures doc.ui == ForgetAll(old(doc.ui), Below(old(doc.nodes), p), HeirBelow(old(doc.nodes), Kids(old(doc.nodes)), p))
      ensures doc.flushed == old(doc.flushed) - Below(old(doc.nodes), p)
      ensures mutationsOccurred <==> old(mutationsOccurred) || (old(doc.nodes)[p].inDoc && old(doc.nodes)[p].children != [])
      ensures doc.base == old(doc.base) && doc.nextId == old(doc.nextId)
      ensures old(LitChains(doc.nodes, Kids(doc.nodes), doc.ui)) ==> LitChains(doc.nodes, Kids(doc.nodes), doc.ui)
      ensures old(PaintLive(doc.nodes)) ==> (PaintLive(doc.nodes) <==> !Strayed(old(doc.nodes), Below(old(doc.nodes), p)))
      ensures old(ListsBelow(doc.nodes)) ==> ListsBelow(doc.nodes)
      ensures old(RangeDragLive(doc.nodes, doc.ui)) ==>
        (RangeDragLive(doc.nodes, doc.ui) <==> old(doc.ui).rangeDrag == None || old(doc.ui).rangeDrag.value !in Below(old(doc.nodes), p))
      ensures Unselected(old(doc.ui), Below(old(doc.nodes), p), doc.ui)
      ensures old(FocusLit(doc.nodes, doc.ui.focus)) ==> FocusLit(doc.nodes, doc.ui.focus)
    {
      hide Tree, Flags, Index, IdCached, UiLive, Journal, Replayed, Logged, LitChains, View, Minus, Preorder, Holds,
           Climbs, Rooted, RankOK, OneParent, PurgedArena, FreedArena, Removable, NoDup, Under, Relinked, Below, Acyclic,
           RemovedAtOnce, RemovedEach, PreorderAll, HeirBelow, ForgetAll, ListsBelow, PaintLive, Held, Strayed, KeepsLists,
           RangeDragLive, Unselected, FocusLit;
      DropFocus(doc.nodes, Below(doc.nodes, p), Some(p), doc.ui, HeirBelow(doc.nodes, Kids(doc.nodes), p));
      ForgetAllUnselects(doc.ui, Below(doc.nodes, p), HeirBelow(doc.nodes, Kids(doc.nodes), p));
      ghost var a, E := doc.nodes, Below(doc.nodes, p);
      BelowPlan(a, doc.root, p, doc.base, doc.records, doc.calls, doc.nextId);
      TakenKeeps(a, doc.root, p, doc.nodesToId, doc.ui, doc.snapshots, doc.flushed, doc.deps);
      DropAllLists(a, doc.root, p);
      DroppedRangeDrag(a, E, Some(p), doc.ui, HeirBelow(a, Kids(a), p));
      var parentIsInDocument := doc.nodes[p].inDoc;
      var children := doc.nodes[p].children;
      doc.nodes := doc.nodes[p := doc.nodes[p].(children := [])];
      mutationsOccurred := mutationsOccurred || (parentIsInDocument && children != []);
      var dropped := CollectAll(children, Kids(a));
      FreeTaken(p, children, a);
      DroppedKeeps(a, doc.root, E, Some(p), doc.nodes, doc.nodesToId, doc.ui, doc.snapshots, doc.flushed, doc.deps);
      assert dropped == E by { NothingBelow(a, p); }
      PurgeDerivedPaintRefs(p, dropped);
      LogRemovals(p, children);
    }

    /** Drops n unless it has a parent (or is already gone). */
    method RemoveNodeIfUnparentedWith(n: NodeId) returns (dropped: seq<NodeId>)
      requires Valid() && n != doc.root
      modifies this`mutationsOccurred, doc
      ensures Valid()
      ensures n in old(doc.nodes) && old(doc.nodes)[n].parent == None ==>
        && Members(dropped) == SubtreeOf(old(doc.nodes), n) && NoDup(dropped)
        && doc.nodes == DroppedArena(old(doc.nodes), Members(dropped), None)
      ensures !(n in old(doc.nodes) && old(doc.nodes)[n].parent == None) ==> dropped == [] && doc.nodes == old(doc.nodes)
      ensures doc.ui == ForgetAll(old(doc.ui), Members(dropped), None) && doc.flushed == old(doc.flushed) - Members(dropped)
      ensures mutationsOccurred == old(mutationsOccurred)
      ensures old(PaintLive(doc.nodes)) ==> (PaintLive(doc.nodes) <==> !Strayed(old(doc.nodes), Members(dropped)))
      ensures old(ListsBelow(doc.nodes)) ==> ListsBelow(doc.nodes)
      ensures old(LitChains(doc.nodes, Kids(doc.nodes), doc.ui)) ==> LitChains(doc.nodes, Kids(doc.nodes), doc.ui)
      ensures doc.records == old(doc.records) && doc.calls == old(doc.calls)
      ensures doc.base == old(doc.base) && doc.nextId == old(doc.nextId)
      ensures old(RangeDragLive(doc.nodes, doc.ui)) ==>
        (RangeDragLive(doc.nodes, doc.ui) <==> old(doc.ui).rangeDrag == None || old(doc.ui).rangeDrag.value !in Members(dropped))
      ensures Unselected(old(doc.ui), Members(dropped), doc.ui)
      ensures old(FocusLit(doc.nodes, doc.ui.focus)) ==> FocusLit(doc.nodes, doc.ui.focus)
    {
      hide Tree, Flags, Index, IdCached, UiLive, Journal, Replayed, Logged, LitChains, View, DroppedArena, SubtreeOf,
           ForgetAll, HeirOr,
           NoDup, ListsBelow, PaintLive, Unselected, FocusLit;
      ghost var ui := doc.ui;
      dropped := [];
      ForgetAllNone(doc.ui, None);
      assert Members(dropped) == {} && doc.flushed - {} == doc.flushed;
      if n in doc.nodes && doc.nodes[n].parent == None {
        Parentless(doc.nodes, doc.root, n);
        dropped := RemoveAndDropNodeWith(n);
      }
      ForgetAllUnselects(ui, Members(dropped), None);
    }

    // ------------------------------------------------------------ inserting

    /** Takes the nodes out of their old parents. `whole` is the arena with any
        child list its caller has taken put back. */
    method DetachForMove(N: seq<NodeId>, ghost whole: Arena)
      requires UpLinks(whole) && DownLinks(whole) && Stripped(whole, doc.nodes, Members(N)) && NoDup(N)
      requires forall c :: c in N ==> c in whole && whole[c].parent != Some(c)
      modifies this`mutationsOccurred, doc`nodes, doc`records, doc`calls
      ensures doc.nodes == DetachedArena(whole, Members(N))
      ensures doc.records == old(doc.records) + MoveLog(whole, N)
      ensures doc.calls == old(doc.calls) + MoveLog(whole, N)
      ensures mutationsOccurred <==> old(mutationsOccurred) || exists c :: c in N && whole[c].inDoc
    {
      hide UpLinks, DownLinks, NoDup, Minus, DetachedArena, Stripped, MoveLog;
      ghost var a := doc.nodes;
      NothingDetached(a);
      assert N[..0] == [];
      NothingMoved(whole);
      for i := 0 to |N|
        invariant doc.nodes == DetachedArena(a, Members(N[..i]))
        invariant doc.records == old(doc.records) + MoveLog(whole, N[..i])
        invariant doc.calls == old(doc.calls) + MoveLog(whole, N[..i])
        invariant mutationsOccurred <==> old(mutationsOccurred) || exists c :: c in N[..i] && whole[c].inDoc
      {
        var child := N[i];
        assert child in N;
        MoveLogMore(whole, N, i);
        StrippedNode(whole, a, Members(N), Members(N[..i]), child);
        DetachMore(whole, a, N, i);
        mutationsOccurred := mutationsOccurred || doc.nodes[child].inDoc;
        var oldParent := doc.nodes[child].parent;
        if oldParent.Some? {
          doc.nodes := doc.nodes[child := doc.nodes[child].(parent := None)];
          var p := doc.nodes[oldParent.value];
          doc.nodes := doc.nodes[oldParent.value := p.(children := Minus(p.children, {child}))];
          doc.calls := doc.calls + [ChildList(oldParent.value, [], [child])];
          doc.records := doc.records + [ChildList(oldParent.value, [], [child])];
        }
      }
      assert N[..|N|] == N;
      StrippedDetached(whole, a, Members(N));
    }

    /** Links the spliced children to P, one after the other, and moves their
        subtrees into or out of the document. */
    method AttachAll(P: NodeId, N: seq<NodeId>, ghost S: Shape)
      requires Attachable(doc.nodes, S, doc.root, P, N)
      requires Index(doc.nodes, doc.nodesToId) && UiLive(doc.nodes, doc.ui)
      requires Journal(doc.nodes, doc.snapshots, doc.flushed, doc.deps)
      modifies doc
      ensures Linked(old(doc.nodes), P, N, doc.nodes) && EdgeFlags(doc.nodes, S, doc.root, {})
      ensures QuietFlags(old(doc.nodes), P, N, doc.nodes)
      ensures Index(doc.nodes, doc.nodesToId) && UiLive(doc.nodes, doc.ui)
      ensures Journal(doc.nodes, doc.snapshots, doc.flushed, doc.deps)
      ensures Progress(old(doc.nodes), P, old(doc.ui), old(doc.flushed), doc.nodes, doc.ui, doc.flushed)
      ensures FlagsWithin(old(doc.nodes), S, N, doc.nodes)
      ensures doc.records == old(doc.records) && doc.calls == old(doc.calls)
      ensures doc.base == old(doc.base) && doc.nextId == old(doc.nextId)
    {
      hide Attachable, OneParent, NoDup, EdgeFlags, Holds, Within, Climbs, Index, UiLive, Journal, Linked, Under, Preorder,
           LitChains, RankOK, QuietFlags, Acyclic, UnmountedArena, MountedArena, Progress, FlagsWithin, Heritable, HeirOr,
           ForgetAll, Over;
      ghost var e := doc.nodes;
      AttachableMeans(e, S, doc.root, P, N);
      var parentIsInDocument := doc.nodes[P].inDoc;
      LinkedNone(e, P);
      ProgressNone(e, P, doc.ui, doc.flushed);
      WithinNone(e, S, N);
      assert N[..0] == [] && N[0..] == N;
      for i := 0 to |N|
        invariant Linked(e, P, N[..i], doc.nodes) && EdgeFlags(doc.nodes, S, doc.root, Members(N[i..]))
        invariant Climbs(doc.nodes, S) && P in doc.nodes && doc.nodes[P].inDoc == parentIsInDocument
        invariant Index(doc.nodes, doc.nodesToId) && UiLive(doc.nodes, doc.ui)
        invariant Journal(doc.nodes, doc.snapshots, doc.flushed, doc.deps)
        invariant QuietFlags(e, P, N, doc.nodes)
        invariant Progress(e, P, old(doc.ui), old(doc.flushed), doc.nodes, doc.ui, doc.flushed)
        invariant FlagsWithin(e, S, N, doc.nodes)
        invariant doc.records == old(doc.records) && doc.calls == old(doc.calls)
        invariant doc.base == old(doc.base) && doc.nextId == old(doc.nextId)
      {
        var child := N[i];
        ghost var a, f := doc.nodes, doc.ui.focus;
        LinkReady(e, S, doc.root, P, N, i, a, doc.nodesToId, doc.ui, doc.snapshots, doc.flushed, doc.deps);
        LinkUniform(e, S, doc.root, P, N, i, a);
        ghost var u, was := doc.ui, doc.flushed;
        var childWasInDocument := doc.nodes[child].inDoc;
        doc.nodes := doc.nodes[child := doc.nodes[child].(parent := Some(P))];
        if !parentIsInDocument { NoHeir(a, S, P, child); }
        if parentIsInDocument && !childWasInDocument {
          doc.ProcessAddedSubtree(child, S);
        } else if !parentIsInDocument && childWasInDocument {
          doc.ProcessRemovedSubtree(child, S);
        }
        FlagsWithinMore(e, S, N, P, child, a, f, doc.nodes);
        ProgressMore(e, S, P, child, old(doc.ui), old(doc.flushed), a, u, was, doc.nodes, doc.ui, doc.flushed);
        LinkDone(e, S, doc.root, P, N, i, a, f, doc.nodes);
      }
      assert N[..|N|] == N && Members(N[|N|..]) == {};
    }

    /** The insertion routine behind every operation that adds children. */
    method AddChildrenToParent(P: NodeId, N: seq<NodeId>, place: Place, ghost whole: Arena)
      requires doc.ValidOf(whole) && Stripped(whole, doc.nodes, Members(N))
      requires !mutationsOccurred ==> View(whole) == startView
      requires Insertable(whole, doc.root, P, N)
      requires place.Before? ==> place.anchor in whole[P].children && place.anchor !in N
      modifies this`mutationsOccurred, doc
      ensures Valid()
      ensures Kids(doc.nodes) == Inserted(whole, P, N, place) && DataOf(doc.nodes) == DataOf(whole)
      ensures doc.records == old(doc.records) + MoveLog(whole, N) + InsertedAtOnce(P, N)
      ensures doc.calls == old(doc.calls) + MoveLog(whole, N) + InsertedEach(P, N)
      ensures Moved(whole, old(doc.ui), old(doc.flushed), doc.nodes, doc.ui, doc.flushed, N)
      ensures mutationsOccurred <==> old(mutationsOccurred) || (whole[P].inDoc && N != []) || exists c :: c in N && whole[c].inDoc
      ensures doc.base == old(doc.base) && doc.nextId == old(doc.nextId)
      ensures FocusLit(whole, old(doc.ui).focus) ==> FocusLit(doc.nodes, doc.ui.focus)
      ensures Unselected(old(doc.ui), Left(whole, doc.nodes), doc.ui)
    {
      hide Tree, Flags, Index, IdCached, UiLive, Journal, Replayed, Logged, View, Minus, Spliced, Stripped, UpLinks, DownLinks,
           Forest, NoDup, Attachable, Linked, EdgeFlags, QuietFlags, DetachedArena, MoveLog, InsertedAtOnce, InsertedEach,
           Relinked, Above, Insertable, Position, Inserted, Members, PlacedAt, DataOf, Kids, RankOK, Progress, FlagsWithin,
           Moved, Shifted, FocusLit, Unselected, Left;
      InsertableMeans(whole, doc.root, P, N);
      AddPlan(whole, doc.root, P, N, place, doc.nodes);
      InsertedIs(whole, P, N, place);
      ghost var at := Position(whole[P].children, place);
      var newParentIsInDocument := doc.nodes[P].inDoc;
      mutationsOccurred := mutationsOccurred || (newParentIsInDocument && N != []);
      DetachForMove(N, whole);
      var list := doc.nodes[P].children;
      var i := Position(list, place);
      doc.nodes := doc.nodes[P := doc.nodes[P].(children := list[..i] + N + list[i..])];
      ghost var e := doc.nodes;
      SpliceKeeps(whole, doc.root, P, at, N, doc.nodesToId, doc.ui, doc.snapshots, doc.flushed, doc.deps);
      AttachAll(P, N, Kids(e));
      MovedDone(whole, doc.root, P, at, N, old(doc.ui), old(doc.flushed), doc.nodes, doc.ui, doc.flushed);
      AddDone(whole, doc.root, P, at, N, doc.nodes, doc.base, old(doc.records), old(doc.calls), doc.nextId);
      LogInsertions(P, N);
      MovedFocus(whole, old(doc.ui), old(doc.flushed), doc.nodes, doc.ui, doc.flushed, N);
    }

    /** One node_inserted call per child, then one record for all of them. */
    method LogInsertions(P: NodeId, N: seq<NodeId>)
      modifies doc`calls, doc`records
      ensures doc.records == old(doc.records) + InsertedAtOnce(P, N)
      ensures doc.calls == old(doc.calls) + InsertedEach(P, N)
    {
      if N != [] {
        for i := 0 to |N|
          invariant doc.calls == old(doc.calls) + InsertedEach(P, N[..i])
          modifies doc`calls
        {
          assert N[..i + 1][..i] == N[..i];
          doc.calls := doc.calls + [ChildList(P, [N[i]], [])];
        }
        doc.records := doc.records + [ChildList(P, N, [])];
      }
      assert N[..|N|] == N;
    }

    // --------------------------------------------------- tree mutation methods

    /** Appends the nodes to P's children, moving them from wherever they were. */
    method AppendChildren(P: NodeId, N: seq<NodeId>)
      requires Valid() && Insertable(doc.nodes, doc.root, P, N)
      modifies this`mutationsOccurred, doc
      ensures Valid() && DataOf(doc.nodes) == old(DataOf(doc.nodes))
      ensures Kids(doc.nodes) == PlacedAt(old(Kids(doc.nodes)), P, |old(doc.nodes)[P].children|, |old(doc.nodes)[P].children|, N)
      ensures doc.records == old(doc.records) + MoveLog(old(doc.nodes), N) + InsertedAtOnce(P, N)
      ensures Moved(old(doc.nodes), old(doc.ui), old(doc.flushed), doc.nodes, doc.ui, doc.flushed, N)
      ensures doc.base == old(doc.base)
      ensures old(LitChains(doc.nodes, Kids(doc.nodes), doc.ui)) ==>
        (LitChains(doc.nodes, Kids(doc.nodes), doc.ui) <==> KeepsLights(old(doc.nodes), P, N, old(doc.ui)))
      ensures doc.nextId == old(doc.nextId)
      ensures old(ListsBelow(doc.nodes)) ==> (ListsBelow(doc.nodes) <==> KeepsLists(old(doc.nodes), P, N, []))
      ensures old(FocusLit(doc.nodes, doc.ui.focus)) ==> FocusLit(doc.nodes, doc.ui.focus)
      ensures Unselected(old(doc.ui), Left(old(doc.nodes), doc.nodes), doc.ui)
    {
      hide Tree, Flags, Index, IdCached, UiLive, Journal, Replayed, Logged, View, Minus, Stripped, Insertable, Inserted, PlacedAt,
           DataOf, MoveLog, InsertedAtOnce, LitChains, CutArena, CutLog, Detached, Members, Kids, Outside, Moved, UnderAny,
           ForgetAll, HeirOr, SubtreeOf, Shifted, KeepsLights, ListsBelow, PaintLive, Held, Strayed, KeepsLists, FocusLit, Unselected, Left;
      ghost var a := doc.nodes;
      InsertableMeans(a, doc.root, P, N);
      StrippedSelf(doc.nodes, Members(N));
      InsertedAtEnd(doc.nodes, doc.root, P, N);
      AddChildrenToParent(P, N, AtEnd, doc.nodes);
      InsertionLitChains(a, doc.root, old(doc.ui), old(doc.flushed), doc.nodes, doc.ui, doc.flushed, P, |a[P].children|, N);
      InsertionLists(a, doc.root, old(doc.ui), old(doc.flushed), doc.nodes, doc.ui, doc.flushed, P, |a[P].children|, N);
      MovedFocus(a, old(doc.ui), old(doc.flushed), doc.nodes, doc.ui, doc.flushed, N);
    }

    /** Inserts the nodes before the anchor, which must not be one of them. */
    method InsertNodesBefore(anchor: NodeId, N: seq<NodeId>)
      requires Valid() && anchor in doc.nodes && doc.nodes[anchor].parent.Some? && anchor !in N
      requires Insertable(doc.nodes, doc.root, doc.nodes[anchor].parent.value, N)
      modifies this`mutationsOccurred, doc
      ensures Valid() && DataOf(doc.nodes) == old(DataOf(doc.nodes))
      ensures var P := old(doc.nodes)[anchor].parent.value;
              var i := IndexOf(old(doc.nodes)[P].children, anchor);
              Kids(doc.nodes) == PlacedAt(old(Kids(doc.nodes)), P, i, i, N)
      ensures Moved(old(doc.nodes), old(doc.ui), old(doc.flushed), doc.nodes, doc.ui, doc.flushed, N)
      ensures doc.base == old(doc.base)
      ensures doc.records == old(doc.records) + MoveLog(old(doc.nodes), N) + InsertedAtOnce(old(doc.nodes)[anchor].parent.value, N)
      ensures old(LitChains(doc.nodes, Kids(doc.nodes), doc.ui)) ==>
        (LitChains(doc.nodes, Kids(doc.nodes), doc.ui) <==> KeepsLights(old(doc.nodes), old(doc.nodes)[anchor].parent.value, N, old(doc.ui)))
      ensures doc.nextId == old(doc.nextId)
      ensures old(ListsBelow(doc.nodes)) ==> (ListsBelow(doc.nodes) <==> KeepsLists(old(doc.nodes), old(doc.nodes)[anchor].parent.value, N, []))
      ensures old(FocusLit(doc.nodes, doc.ui.focus)) ==> FocusLit(doc.nodes, doc.ui.focus)
      ensures Unselected(old(doc.ui), Left(old(doc.nodes), doc.nodes), doc.ui)
    {
      hide Tree, Flags, Index, IdCached, UiLive, Journal, Replayed, Logged, View, Minus, Stripped, Insertable, Inserted, PlacedAt,
           DataOf, MoveLog, InsertedAtOnce, LitChains, CutArena, CutLog, Detached, Members, Kids, Outside, Moved, UnderAny,
           ForgetAll, HeirOr, SubtreeOf, Shifted, KeepsLights, ListsBelow, PaintLive, Held, Strayed, KeepsLists, FocusLit, Unselected, Left;
      var P := doc.nodes[anchor].parent.value;
      ghost var a := doc.nodes;
      ParentFacts(doc.nodes, doc.root, anchor);
      StrippedSelf(doc.nodes, Members(N));
      InsertedIs(doc.nodes, P, N, Before(anchor));
      AddChildrenToParent(P, N, Before(anchor), doc.nodes);
      InsertionLitChains(a, doc.root, old(doc.ui), old(doc.flushed), doc.nodes, doc.ui, doc.flushed, P, IndexOf(a[P].children, anchor), N);
      InsertionLists(a, doc.root, old(doc.ui), old(doc.flushed), doc.nodes, doc.ui, doc.flushed, P, IndexOf(a[P].children, anchor), N);
      MovedFocus(a, old(doc.ui), old(doc.flushed), doc.nodes, doc.ui, doc.flushed, N);
    }

    /** Inserts the nodes after the anchor, whose next sibling must not be one of
        them. */
    method InsertNodesAfter(anchor: NodeId, N: seq<NodeId>)
      requires Valid() && anchor in doc.nodes && doc.nodes[anchor].parent.Some?
      requires Insertable(doc.nodes, doc.root, doc.nodes[anchor].parent.value, N)
      requires var C := doc.nodes[doc.nodes[anchor].parent.value].children;
               IndexOf(C, anchor) + 1 < |C| ==> C[IndexOf(C, anchor) + 1] !in N
      modifies this`mutationsOccurred, doc
      ensures Valid() && DataOf(doc.nodes) == old(DataOf(doc.nodes))
      ensures var P := old(doc.nodes)[anchor].parent.value;
              var i := IndexOf(old(doc.nodes)[P].children, anchor) + 1;
              Kids(doc.nodes) == PlacedAt(old(Kids(doc.nodes)), P, i, i, N)
      ensures Moved(old(doc.nodes), old(doc.ui), old(doc.flushed), doc.nodes, doc.ui, doc.flushed, N)
      ensures doc.base == old(doc.base)
      ensures doc.records == old(doc.records) + MoveLog(old(doc.nodes), N) + InsertedAtOnce(old(doc.nodes)[anchor].parent.value, N)
      ensures old(LitChains(doc.nodes, Kids(doc.nodes), doc.ui)) ==>
        (LitChains(doc.nodes, Kids(doc.nodes), doc.ui) <==> KeepsLights(old(doc.nodes), old(doc.nodes)[anchor].parent.value, N, old(doc.ui)))
      ensures doc.nextId == old(doc.nextId)
      ensures old(ListsBelow(doc.nodes)) ==> (ListsBelow(doc.nodes) <==> KeepsLists(old(doc.nodes), old(doc.nodes)[anchor].parent.value, N, []))
      ensures old(FocusLit(doc.nodes, doc.ui.focus)) ==> FocusLit(doc.nodes, doc.ui.focus)
      ensures Unselected(old(doc.ui), Left(old(doc.nodes), doc.nodes), doc.ui)
    {
      hide Tree, Flags, Index, IdCached, UiLive, Journal, Replayed, Logged, View, Minus, Stripped, Insertable, Inserted, PlacedAt,
           DataOf, MoveLog, InsertedAtOnce, LitChains, CutArena, CutLog, Detached, Members, Kids, Outside, Moved, UnderAny,
           ForgetAll, HeirOr, SubtreeOf, Shifted, KeepsLights, ListsBelow, PaintLive, Held, Strayed, KeepsLists, FocusLit, Unselected, Left;
      var P := doc.nodes[anchor].parent.value;
      ParentFacts(doc.nodes, doc.root, anchor);
      var C := doc.nodes[P].children;
      var next := IndexOf(C, anchor) + 1;
      if next < |C| {
        SiblingFacts(doc.nodes, doc.root, P, next);
        InsertNodesBefore(C[next], N);
      } else {
        AppendChildren(P, N);
      }
    }

    /** Moves all children of one node to the end of another's. */
    method ReparentChildren(oldParent: NodeId, newParent: NodeId)
      requires Valid() && oldParent in doc.nodes
      requires Insertable(doc.nodes, doc.root, newParent, doc.nodes[oldParent].children)
      modifies this`mutationsOccurred, doc
      ensures Valid() && DataOf(doc.nodes) == old(DataOf(doc.nodes))
      ensures var C := old(doc.nodes)[newParent].children;
              Kids(doc.nodes) == PlacedAt(old(Kids(doc.nodes)), newParent, |C|, |C|, old(doc.nodes)[oldParent].children)
      ensures Moved(old(doc.nodes), old(doc.ui), old(doc.flushed), doc.nodes, doc.ui, doc.flushed, old(doc.nodes)[oldParent].children)
      ensures doc.base == old(doc.base)
      ensures doc.records == old(doc.records) + MoveLog(old(doc.nodes), old(doc.nodes)[oldParent].children)
        + InsertedAtOnce(newParent, old(doc.nodes)[oldParent].children)
      ensures old(LitChains(doc.nodes, Kids(doc.nodes), doc.ui)) ==>
        (LitChains(doc.nodes, Kids(doc.nodes), doc.ui) <==> KeepsLights(old(doc.nodes), newParent, old(doc.nodes)[oldParent].children, old(doc.ui)))
      ensures doc.nextId == old(doc.nextId)
      ensures old(ListsBelow(doc.nodes)) ==>
        (ListsBelow(doc.nodes) <==> KeepsLists(old(doc.nodes), newParent, old(doc.nodes)[oldParent].children, []))
      ensures old(FocusLit(doc.nodes, doc.ui.focus)) ==> FocusLit(doc.nodes, doc.ui.focus)
      ensures Unselected(old(doc.ui), Left(old(doc.nodes), doc.nodes), doc.ui)
    {
      hide Tree, Flags, Index, IdCached, UiLive, Journal, Replayed, Logged, View, Minus, Stripped, Insertable, Inserted, PlacedAt,
           DataOf, MoveLog, InsertedAtOnce, LitChains, CutArena, CutLog, Detached, Members, Kids, Outside, Moved, UnderAny,
           ForgetAll, HeirOr, SubtreeOf, Shifted, KeepsLights, ListsBelow, PaintLive, Held, Strayed, KeepsLists, FocusLit, Unselected, Left;
      ghost var whole := doc.nodes;
      var children := doc.nodes[oldParent].children;
      doc.nodes := doc.nodes[oldParent := doc.nodes[oldParent].(children := [])];
      StrippedTaken(whole, oldParent);
      InsertableMeans(whole, doc.root, newParent, children);
      InsertedAtEnd(whole, doc.root, newParent, children);
      AddChildrenToParent(newParent, children, AtEnd, whole);
      InsertionLitChains(whole, doc.root, old(doc.ui), old(doc.flushed), doc.nodes, doc.ui, doc.flushed, newParent,
                         |whole[newParent].children|, children);
      InsertionLists(whole, doc.root, old(doc.ui), old(doc.flushed), doc.nodes, doc.ui, doc.flushed, newParent,
                         |whole[newParent].children|, children);
      MovedFocus(whole, old(doc.ui), old(doc.flushed), doc.nodes, doc.ui, doc.flushed, children);
    }

    /** Puts the nodes in the place of the anchor, which is detached. */
    method ReplaceNodeWith(anchor: NodeId, N: seq<NodeId>)
      requires Valid() && anchor in doc.nodes && doc.nodes[anchor].parent.Some? && anchor !in N
      requires Insertable(doc.nodes, doc.root, doc.nodes[anchor].parent.value, N)
      modifies this`mutationsOccurred, doc
      ensures Valid() && DataOf(doc.nodes) == old(DataOf(doc.nodes))
      ensures var P := old(doc.nodes)[anchor].parent.value;
              var i := IndexOf(old(doc.nodes)[P].children, anchor);
              Kids(doc.nodes) == PlacedAt(old(Kids(doc.nodes)), P, i, i + 1, N)
      ensures Outside(old(doc.nodes), old(doc.ui), old(doc.flushed), doc.nodes, doc.ui, doc.flushed, UnderAny(old(doc.nodes), N + [anchor]))
      ensures doc.base == old(doc.base) && doc.records == old(doc.records) + MoveLog(old(doc.nodes), N)
        + InsertedAtOnce(old(doc.nodes)[anchor].parent.value, N) + [ChildList(old(doc.nodes)[anchor].parent.value, [], [anchor])]
      ensures old(LitChains(doc.nodes, Kids(doc.nodes), doc.ui)) ==>
        (LitChains(doc.nodes, Kids(doc.nodes), doc.ui)
         <==> ReplacesLights(old(doc.nodes), anchor, old(doc.nodes)[anchor].parent.value, N, old(doc.ui)))
      ensures doc.nextId == old(doc.nextId)
      ensures old(ListsBelow(doc.nodes)) ==>
        (ListsBelow(doc.nodes) <==> KeepsLists(old(doc.nodes), old(doc.nodes)[anchor].parent.value, N, [anchor]))
      ensures old(FocusLit(doc.nodes, doc.ui.focus)) ==> FocusLit(doc.nodes, doc.ui.focus)
    {
      hide Tree, Flags, Index, IdCached, UiLive, Journal, Replayed, Logged, View, Minus, Stripped, Insertable, Inserted, PlacedAt,
           DataOf, MoveLog, InsertedAtOnce, LitChains, CutArena, CutLog, Detached, Members, Kids, Outside, Moved, UnderAny,
           ForgetAll, HeirOr, SubtreeOf, Shifted, KeepsLights, ReplacesLights, FocusLit;
      hide ListsBelow, KeepsLists, Held;
      ghost var a := doc.nodes;
      ghost var P := a[anchor].parent.value;
      ParentFacts(a, doc.root, anchor);
      ghost var i := IndexOf(a[P].children, anchor);
      RootParentless(a, doc.root);
      PlacedThenCut(a, doc.root, P, i, N);
      InsertNodesBefore(anchor, N);
      KeysOfData(a, doc.nodes);
      CutShape(doc.nodes, doc.root, anchor, doc.ui.focus);
      ghost var b, u, w := doc.nodes, doc.ui, doc.flushed;
      StillChild(a, b, doc.root, P, i, N, anchor);
      ReplaceOutside(a, doc.root, doc.nodes[anchor].parent.value, i, N, anchor,
                     old(doc.ui), old(doc.flushed), b, u, w);
      ChildCutLog(b, anchor, P);
      ReplacedLights(a, doc.root, old(doc.ui), old(doc.flushed), b, u, w, P, i, N, anchor);
      RemoveNode(anchor);
      PlacedLists(a, doc.root, old(doc.ui), old(doc.flushed), doc.nodes, doc.ui, doc.flushed, UnderAny(a, N + [anchor]), P, i, i + 1, N);
      assert a[P].children[i..i + 1] == [anchor];
    }

    // -------------------------------------- ParentNode and ChildNode operations

    /** Detaches (rather than drops) the nodes that have a parent. */
    method DetachAll(N: seq<NodeId>)
      requires Valid() && NoDup(N) && forall c :: c in N ==> c in doc.nodes && c != doc.root
      modifies this`mutationsOccurred, doc
      ensures Valid() && DataOf(doc.nodes) == old(DataOf(doc.nodes))
      ensures Kids(doc.nodes) == Detached(old(Kids(doc.nodes)), Members(N))
      ensures Unparented(old(doc.nodes), Members(N), doc.nodes)
      ensures doc.records == old(doc.records) + MoveLog(old(doc.nodes), N)
      ensures Outside(old(doc.nodes), old(doc.ui), old(doc.flushed), doc.nodes, doc.ui, doc.flushed, UnderAny(old(doc.nodes), N))
      ensures doc.base == old(doc.base) && doc.nextId == old(doc.nextId)
      ensures old(LitChains(doc.nodes, Kids(doc.nodes), doc.ui)) ==> LitChains(doc.nodes, Kids(doc.nodes), doc.ui)
      ensures old(ListsBelow(doc.nodes)) ==> (ListsBelow(doc.nodes) <==> forall n :: n in N ==> !Held(old(doc.nodes), n))
      ensures old(FocusLit(doc.nodes, doc.ui.focus)) ==> FocusLit(doc.nodes, doc.ui.focus)
    {
      hide Tree, Flags, Index, IdCached, UiLive, Journal, Replayed, Logged, View, Minus, Stripped, Insertable, Inserted, PlacedAt,
           DataOf, MoveLog, InsertedAtOnce, LitChains, CutArena, CutLog, Detached, Members, Kids, NoDup, RemovedAtOnce,
           Outside, Moved, UnderAny, ForgetAll, HeirOr, SubtreeOf, Shifted, FocusLit;
      hide ListsBelow, KeepsLists, Held;
      hide Unparented;
      ghost var a := doc.nodes;
      assert N[..0] == [];
      DetachedNone(Kids(a));
      UnparentedNone(a);
      OutsideNone(a, doc.ui, doc.flushed, UnderAny(a, N));
      for i := 0 to |N|
        invariant Valid() && DataOf(doc.nodes) == DataOf(a)
        invariant Kids(doc.nodes) == Detached(Kids(a), Members(N[..i]))
        invariant old(FocusLit(doc.nodes, doc.ui.focus)) ==> FocusLit(doc.nodes, doc.ui.focus)
        invariant old(LitChains(doc.nodes, Kids(doc.nodes), doc.ui)) ==> LitChains(doc.nodes, Kids(doc.nodes), doc.ui)
        invariant Unparented(a, Members(N[..i]), doc.nodes)
        invariant doc.records == old(doc.records) + MoveLog(a, N[..i])
        invariant Outside(a, old(doc.ui), old(doc.flushed), doc.nodes, doc.ui, doc.flushed, UnderAny(a, N))
        invariant doc.base == old(doc.base) && doc.nextId == old(doc.nextId)
      {
        var c := N[i];
        assert c in N;
        DetachedMore(Kids(a), N, i);
        DetachOneMore(a, doc.root, N, i, doc.nodes, doc.ui.focus);
        DetachStep(a, doc.root, old(doc.ui), old(doc.flushed), N, i, doc.nodes, doc.ui, doc.flushed);
        if doc.nodes[c].parent.Some? {
          RemoveNode(c);
        }
      }
      assert N[..|N|] == N;
      DetachedLists(a, doc.root, old(doc.ui), old(doc.flushed), doc.nodes, doc.ui, doc.flushed, N, UnderAny(a, N));
    }

    /** The nearest sibling of the anchor, after (+1) or before (-1) it, that is
        not excluded. */
    method ViableSibling(anchor: NodeId, offset: int, excluded: seq<NodeId>) returns (r: Option<NodeId>)
      requires Tree(doc.nodes, doc.root) && (offset == 1 || offset == -1)
      ensures if anchor in doc.nodes && doc.nodes[anchor].parent.Some? then
                var P := doc.nodes[anchor].parent.value;
                P in doc.nodes && Viable(doc.nodes[P].children, IndexOf(doc.nodes[P].children, anchor), offset, excluded, r)
              else r == None
    {
      hide Tree;
      if anchor !in doc.nodes || doc.nodes[anchor].parent == None { return None; }
      ParentFacts(doc.nodes, doc.root, anchor);
      var siblings := doc.nodes[doc.nodes[anchor].parent.value].children;
      ghost var start := IndexOf(siblings, anchor);
      var index: int := IndexOf(siblings, anchor);
      while true
        invariant 0 <= index < |siblings| && (offset == 1 ==> start <= index) && (offset == -1 ==> index <= start)
        invariant forall j :: start < j <= index || index <= j < start ==> siblings[j] in excluded
        decreases if offset == 1 then |siblings| - index else index
      {
        index := index + offset;
        if index < 0 || |siblings| <= index { return None; }
        if siblings[index] !in excluded { return Some(siblings[index]); }
      }
    }

    /** prepend(): the nodes become the first children of P. */
    method PrependNodes(P: NodeId, N: seq<NodeId>)
      requires Valid() && Insertable(doc.nodes, doc.root, P, N)
      modifies this`mutationsOccurred, doc
      ensures Valid() && DataOf(doc.nodes) == old(DataOf(doc.nodes))
      ensures Kids(doc.nodes) == PlacedAt(old(Kids(doc.nodes)), P, 0, 0, N)
      ensures Outside(old(doc.nodes), old(doc.ui), old(doc.flushed), doc.nodes, doc.ui, doc.flushed, UnderAny(old(doc.nodes), N))
      ensures doc.base == old(doc.base) && doc.records == old(doc.records) + MoveLog(old(doc.nodes), N) + InsertedAtOnce(P, N)
      ensures doc.nextId == old(doc.nextId)
      ensures old(LitChains(doc.nodes, Kids(doc.nodes), doc.ui)) ==>
        (LitChains(doc.nodes, Kids(doc.nodes), doc.ui) <==> EntersUnlit(old(doc.nodes), P, N))
      ensures old(ListsBelow(doc.nodes)) ==> (ListsBelow(doc.nodes) <==> KeepsLists(old(doc.nodes), P, N, []))
      ensures old(FocusLit(doc.nodes, doc.ui.focus)) ==> FocusLit(doc.nodes, doc.ui.focus)
    {
      hide Tree, Flags, Index, IdCached, UiLive, Journal, Replayed, Logged, View, Minus, Stripped, Insertable, Inserted, PlacedAt,
           DataOf, MoveLog, InsertedAtOnce, LitChains, CutArena, CutLog, Detached, Members, Kids, NoDup, RemovedAtOnce,
           Outside, Moved, UnderAny, ForgetAll, HeirOr, SubtreeOf, Shifted, KeepsLights, EntersUnlit, FocusLit;
      hide ListsBelow, KeepsLists, Held;
      hide Unparented;
      ghost var a := doc.nodes;
      InsertableMeans(a, doc.root, P, N);
      DetachAll(N);
      ghost var b, u, w := doc.nodes, doc.ui, doc.flushed;
      AfterDetach(a, doc.root, P, N, b, 0, 0);
      NothingToLog(a, b, N);
      DetachedReady(a, doc.root, old(doc.ui), old(doc.flushed), b, u, w, P, N);
      var C := doc.nodes[P].children;
      if C != [] {
        SiblingFacts(doc.nodes, doc.root, P, 0);
        InsertNodesBefore(C[0], N);
      } else {
        AppendChildren(P, N);
      }
      DetachThenMove(a, doc.root, old(doc.ui), old(doc.flushed), N, Members(N), N, b, u, w, doc.nodes, doc.ui, doc.flushed);
      PlacedLists(a, doc.root, old(doc.ui), old(doc.flushed), doc.nodes, doc.ui, doc.flushed, UnderAny(a, N), P, 0, 0, N);
      assert a[P].children[0..0] == [];
    }

    /** before(): the nodes go right before the anchor's old position. */
    method BeforeNode(anchor: NodeId, N: seq<NodeId>)
      requires Valid() && anchor in doc.nodes
      requires doc.nodes[anchor].parent.Some? ==> Insertable(doc.nodes, doc.root, doc.nodes[anchor].parent.value, N)
      modifies this`mutationsOccurred, doc
      ensures Valid() && DataOf(doc.nodes) == old(DataOf(doc.nodes)) && doc.nextId == old(doc.nextId)
      ensures old(doc.nodes)[anchor].parent == None ==>
        && doc.nodes == old(doc.nodes) && doc.ui == old(doc.ui) && doc.flushed == old(doc.flushed) && doc.records == old(doc.records)
      ensures old(doc.nodes)[anchor].parent.Some? ==>
        var P := old(doc.nodes)[anchor].parent.value;
        var i := IndexOf(old(doc.nodes)[P].children, anchor);
        Kids(doc.nodes) == PlacedAt(old(Kids(doc.nodes)), P, i, i, N)
      ensures old(doc.nodes)[anchor].parent.Some? ==>
        && Outside(old(doc.nodes), old(doc.ui), old(doc.flushed), doc.nodes, doc.ui, doc.flushed, UnderAny(old(doc.nodes), N))
        && doc.records == old(doc.records) + MoveLog(old(doc.nodes), N) + InsertedAtOnce(old(doc.nodes)[anchor].parent.value, N)
      ensures doc.base == old(doc.base)
      ensures old(doc.nodes)[anchor].parent.Some? && old(LitChains(doc.nodes, Kids(doc.nodes), doc.ui)) ==>
        (LitChains(doc.nodes, Kids(doc.nodes), doc.ui) <==> EntersUnlit(old(doc.nodes), old(doc.nodes)[anchor].parent.value, N))
      ensures old(doc.nodes)[anchor].parent.Some? && old(ListsBelow(doc.nodes)) ==>
        (ListsBelow(doc.nodes) <==> KeepsLists(old(doc.nodes), old(doc.nodes)[anchor].parent.value, N, []))
      ensures old(FocusLit(doc.nodes, doc.ui.focus)) ==> FocusLit(doc.nodes, doc.ui.focus)
    {
      hide Tree, Flags, Index, IdCached, UiLive, Journal, Replayed, Logged, View, Minus, Stripped, Insertable, Inserted, PlacedAt,
           DataOf, MoveLog, InsertedAtOnce, LitChains, CutArena, CutLog, Detached, Members, Kids, NoDup, RemovedAtOnce,
           Outside, Moved, UnderAny, ForgetAll, HeirOr, SubtreeOf, Shifted, KeepsLights, EntersUnlit, FocusLit;
      hide ListsBelow, KeepsLists, Held;
      hide Unparented;
      if doc.nodes[anchor].parent == None { return; }
      var P := doc.nodes[anchor].parent.value;
      ghost var a := doc.nodes;
      ParentFacts(a, doc.root, anchor);
      ghost var i := IndexOf(a[P].children, anchor);
      InsertableMeans(a, doc.root, P, N);
      var viablePrev := ViableSibling(anchor, -1, N);
      DetachAll(N);
      ghost var b, u, w := doc.nodes, doc.ui, doc.flushed;
      BeforeCut(a, doc.root, P, N, b, i, viablePrev);
      NothingToLog(a, b, N);
      DetachedReady(a, doc.root, old(doc.ui), old(doc.flushed), b, u, w, P, N);
      match viablePrev {
        case Some(prev) =>
          InsertNodesAfter(prev, N);
        case None =>
          var C := doc.nodes[P].children;
          if C != [] {
            SiblingFacts(doc.nodes, doc.root, P, 0);
            InsertNodesBefore(C[0], N);
          } else {
            AppendChildren(P, N);
          }
      }
      DetachThenMove(a, doc.root, old(doc.ui), old(doc.flushed), N, Members(N), N, b, u, w, doc.nodes, doc.ui, doc.flushed);
      PlacedLists(a, doc.root, old(doc.ui), old(doc.flushed), doc.nodes, doc.ui, doc.flushed, UnderAny(a, N), P, i, i, N);
      assert a[P].children[i..i] == [];
    }

    /** after(): the nodes go right after the anchor's old position. */
    method AfterNode(anchor: NodeId, N: seq<NodeId>)
      requires Valid() && anchor in doc.nodes
      requires doc.nodes[anchor].parent.Some? ==> Insertable(doc.nodes, doc.root, doc.nodes[anchor].parent.value, N)
      modifies this`mutationsOccurred, doc
      ensures Valid() && DataOf(doc.nodes) == old(DataOf(doc.nodes)) && doc.nextId == old(doc.nextId)
      ensures old(doc.nodes)[anchor].parent == None ==>
        && doc.nodes == old(doc.nodes) && doc.ui == old(doc.ui) && doc.flushed == old(doc.flushed) && doc.records == old(doc.records)
      ensures old(doc.nodes)[anchor].parent.Some? ==>
        var P := old(doc.nodes)[anchor].parent.value;
        var i := IndexOf(old(doc.nodes)[P].children, anchor) + 1;
        Kids(doc.nodes) == PlacedAt(old(Kids(doc.nodes)), P, i, i, N)
      ensures old(doc.nodes)[anchor].parent.Some? ==>
        && Outside(old(doc.nodes), old(doc.ui), old(doc.flushed), doc.nodes, doc.ui, doc.flushed, UnderAny(old(doc.nodes), N))
        && doc.records == old(doc.records) + MoveLog(old(doc.nodes), N) + InsertedAtOnce(old(doc.nodes)[anchor].parent.value, N)
      ensures doc.base == old(doc.base)
      ensures old(doc.nodes)[anchor].parent.Some? && old(LitChains(doc.nodes, Kids(doc.nodes), doc.ui)) ==>
        (LitChains(doc.nodes, Kids(doc.nodes), doc.ui) <==> EntersUnlit(old(doc.nodes), old(doc.nodes)[anchor].parent.value, N))
      ensures old(doc.nodes)[anchor].parent.Some? && old(ListsBelow(doc.nodes)) ==>
        (ListsBelow(doc.nodes) <==> KeepsLists(old(doc.nodes), old(doc.nodes)[anchor].parent.value, N, []))
      ensures old(FocusLit(doc.nodes, doc.ui.focus)) ==> FocusLit(doc.nodes, doc.ui.focus)
    {
      hide Tree, Flags, Index, IdCached, UiLive, Journal, Replayed, Logged, View, Minus, Stripped, Insertable, Inserted, PlacedAt,
           DataOf, MoveLog, InsertedAtOnce, LitChains, CutArena, CutLog, Detached, Members, Kids, NoDup, RemovedAtOnce,
           Outside, Moved, UnderAny, ForgetAll, HeirOr, SubtreeOf, Shifted, KeepsLights, EntersUnlit, FocusLit;
      hide ListsBelow, KeepsLists, Held;
      hide Unparented;
      if doc.nodes[anchor].parent == None { return; }
      var P := doc.nodes[anchor].parent.value;
      ghost var a := doc.nodes;
      ParentFacts(a, doc.root, anchor);
      ghost var i := IndexOf(a[P].children, anchor);
      InsertableMeans(a, doc.root, P, N);
      var viableNext := ViableSibling(anchor, 1, N);
      DetachAll(N);
      ghost var b, u, w := doc.nodes, doc.ui, doc.flushed;
      AfterCut(a, doc.root, P, N, b, i, viableNext, i + 1);
      NothingToLog(a, b, N);
      DetachedReady(a, doc.root, old(doc.ui), old(doc.flushed), b, u, w, P, N);
      match viableNext {
        case Some(next) => InsertNodesBefore(next, N);
        case None => AppendChildren(P, N);
      }
      DetachThenMove(a, doc.root, old(doc.ui), old(doc.flushed), N, Members(N), N, b, u, w, doc.nodes, doc.ui, doc.flushed);
      PlacedLists(a, doc.root, old(doc.ui), old(doc.flushed), doc.nodes, doc.ui, doc.flushed, UnderAny(a, N), P, i + 1, i + 1, N);
      assert a[P].children[i + 1..i + 1] == [];
    }

    /** replaceWith(): the nodes take the anchor's place, even if it is among them. */
    method ReplaceWithNodes(anchor: NodeId, N: seq<NodeId>)
      requires Valid() && anchor in doc.nodes
      requires doc.nodes[anchor].parent.Some? ==> Insertable(doc.nodes, doc.root, doc.nodes[anchor].parent.value, N)
      modifies this`mutationsOccurred, doc
      ensures Valid() && DataOf(doc.nodes) == old(DataOf(doc.nodes)) && doc.nextId == old(doc.nextId)
      ensures old(doc.nodes)[anchor].parent == None ==>
        && doc.nodes == old(doc.nodes) && doc.ui == old(doc.ui) && doc.flushed == old(doc.flushed) && doc.records == old(doc.records)
      ensures old(doc.nodes)[anchor].parent.Some? ==>
        var P := old(doc.nodes)[anchor].parent.value;
        var i := IndexOf(old(doc.nodes)[P].children, anchor);
        Kids(doc.nodes) == PlacedAt(old(Kids(doc.nodes)), P, i, i + 1, N)
      ensures old(doc.nodes)[anchor].parent.Some? ==>
        && Outside(old(doc.nodes), old(doc.ui), old(doc.flushed), doc.nodes, doc.ui, doc.flushed, UnderAny(old(doc.nodes), N + [anchor]))
        && doc.records == old(doc.records) + MoveLog(old(doc.nodes), N) + InsertedAtOnce(old(doc.nodes)[anchor].parent.value, N)
          + if anchor in N then [] else [ChildList(old(doc.nodes)[anchor].parent.value, [], [anchor])]
      ensures doc.base == old(doc.base)
      ensures old(doc.nodes)[anchor].parent.Some? && old(LitChains(doc.nodes, Kids(doc.nodes), doc.ui)) ==>
        (LitChains(doc.nodes, Kids(doc.nodes), doc.ui) <==> EntersUnlit(old(doc.nodes), old(doc.nodes)[anchor].parent.value, N))
      ensures old(doc.nodes)[anchor].parent.Some? && old(ListsBelow(doc.nodes)) ==>
        (ListsBelow(doc.nodes) <==> KeepsLists(old(doc.nodes), old(doc.nodes)[anchor].parent.value, N, [anchor]))
      ensures old(FocusLit(doc.nodes, doc.ui.focus)) ==> FocusLit(doc.nodes, doc.ui.focus)
    {
      hide Tree, Flags, Index, IdCached, UiLive, Journal, Replayed, Logged, View, Minus, Stripped, Insertable, Inserted, PlacedAt,
           DataOf, MoveLog, InsertedAtOnce, LitChains, CutArena, CutLog, Detached, Members, Kids, NoDup, RemovedAtOnce,
           Outside, Moved, UnderAny, ForgetAll, HeirOr, SubtreeOf, Shifted, KeepsLights, ReplacesLights, EntersUnlit, FocusLit;
      hide ListsBelow, KeepsLists, Held;
      hide Unparented;
      if doc.nodes[anchor].parent == None { return; }
      var P := doc.nodes[anchor].parent.value;
      ghost var a := doc.nodes;
      ParentFacts(a, doc.root, anchor);
      ghost var i := IndexOf(a[P].children, anchor);
      InsertableMeans(a, doc.root, P, N);
      var viableNext := ViableSibling(anchor, 1, N);
      DetachAll(N);
      ghost var b, u, w := doc.nodes, doc.ui, doc.flushed;
      ReplaceCut(a, doc.root, P, N, b, i, viableNext);
      NothingToLog(a, b, N);
      DetachedReady(a, doc.root, old(doc.ui), old(doc.flushed), b, u, w, P, N);
      if doc.nodes[anchor].parent.Some? {
        DetachedReplaces(b, doc.root, u, P, N, anchor);
        ReplaceNodeWith(anchor, N);
        DetachThenStep(a, doc.root, old(doc.ui), old(doc.flushed), N, N + [anchor], N + [anchor], b, u, w, doc.nodes, doc.ui, doc.flushed);
      } else {
        match viableNext {
          case Some(next) => InsertNodesBefore(next, N);
          case None => AppendChildren(P, N);
        }
        UnderAnyMono(a, N, N + [anchor]);
        OutsideMore(a, old(doc.ui), old(doc.flushed), b, u, w, UnderAny(a, N), UnderAny(a, N + [anchor]));
        DetachThenMove(a, doc.root, old(doc.ui), old(doc.flushed), N, Members(N), N + [anchor], b, u, w, doc.nodes, doc.ui, doc.flushed);
      }
      PlacedLists(a, doc.root, old(doc.ui), old(doc.flushed), doc.nodes, doc.ui, doc.flushed, UnderAny(a, N + [anchor]), P, i, i + 1, N);
      assert a[P].children[i..i + 1] == [anchor];
    }

    /** replaceChildren(): the nodes become P's only children; the former ones are
        detached, and one record lists all of them. */
    method ReplaceChildren(P: NodeId, N: seq<NodeId>)
      requires Valid() && Insertable(doc.nodes, doc.root, P, N)
      modifies this`mutationsOccurred, doc
      ensures Valid() && DataOf(doc.nodes) == old(DataOf(doc.nodes)) && doc.nextId == old(doc.nextId)
      ensures Kids(doc.nodes) == PlacedAt(old(Kids(doc.nodes)), P, 0, |old(doc.nodes)[P].children|, N)
      ensures doc.records == old(doc.records) + MoveLog(old(doc.nodes), N)
        + RemovedAtOnce(P, Minus(old(doc.nodes)[P].children, Members(N))) + InsertedAtOnce(P, N)
      ensures Outside(old(doc.nodes), old(doc.ui), old(doc.flushed), doc.nodes, doc.ui, doc.flushed,
                      UnderAny(old(doc.nodes), N + old(doc.nodes)[P].children))
      ensures doc.base == old(doc.base)
      ensures old(LitChains(doc.nodes, Kids(doc.nodes), doc.ui)) ==>
        (LitChains(doc.nodes, Kids(doc.nodes), doc.ui) <==> EntersUnlit(old(doc.nodes), P, N))
      ensures old(ListsBelow(doc.nodes)) ==>
        (ListsBelow(doc.nodes) <==> KeepsLists(old(doc.nodes), P, N, old(doc.nodes)[P].children))
      ensures old(FocusLit(doc.nodes, doc.ui.focus)) ==> FocusLit(doc.nodes, doc.ui.focus)
    {
      hide Tree, Flags, Index, IdCached, UiLive, Journal, Replayed, Logged, View, Minus, Stripped, Insertable, Inserted, PlacedAt,
           DataOf, MoveLog, InsertedAtOnce, LitChains, CutArena, CutLog, Detached, Members, Kids, NoDup, RemovedAtOnce,
           Outside, Moved, UnderAny, ForgetAll, HeirOr, SubtreeOf, Shifted, KeepsLights, EntersUnlit, FocusLit;
      hide ListsBelow, KeepsLists, Held;
      hide Unparented;
      ghost var a := doc.nodes;
      InsertableMeans(a, doc.root, P, N);
      DetachAll(N);
      ghost var b, u, w, K := doc.nodes, doc.ui, doc.flushed, N + a[P].children;
      ClearedReady(a, doc.root, P, N, b);
      DetachChildren(P);
      ghost var c, v, z := doc.nodes, doc.ui, doc.flushed;
      ClearedDone(a, doc.root, P, N, b, c);
      MinusWithin(a[P].children, Members(N));
      DetachThenStep(a, doc.root, old(doc.ui), old(doc.flushed), N, b[P].children, K, b, u, w, c, v, z);
      ClearedLights(a, doc.root, old(doc.ui), old(doc.flushed), b, c, v, z, P, N);
      AppendChildren(P, N);
      ClearThenMove(a, doc.root, old(doc.ui), old(doc.flushed), N, Members(b[P].children), K, b, c, v, z, doc.nodes, doc.ui, doc.flushed);
      PlacedLists(a, doc.root, old(doc.ui), old(doc.flushed), doc.nodes, doc.ui, doc.flushed, UnderAny(a, K), P, 0, |a[P].children|, N);
      assert a[P].children[0..|a[P].children|] == a[P].children;
    }

    /** Detaches all children of P under a single mutation record. */
    method DetachChildren(P: NodeId)
      requires Valid() && P in doc.nodes
      modifies this`mutationsOccurred, doc
      ensures Valid() && DataOf(doc.nodes) == old(DataOf(doc.nodes)) && doc.nextId == old(doc.nextId)
      ensures Kids(doc.nodes) == Detached(old(Kids(doc.nodes)), Members(old(doc.nodes)[P].children))
      ensures Unparented(old(doc.nodes), Members(old(doc.nodes)[P].children), doc.nodes)
      ensures Outside(old(doc.nodes), old(doc.ui), old(doc.flushed), doc.nodes, doc.ui, doc.flushed,
                      UnderAny(old(doc.nodes), old(doc.nodes)[P].children))
      ensures doc.base == old(doc.base)
      ensures old(LitChains(doc.nodes, Kids(doc.nodes), doc.ui)) ==> LitChains(doc.nodes, Kids(doc.nodes), doc.ui)
      ensures doc.records == old(doc.records) + RemovedAtOnce(P, old(doc.nodes)[P].children)
      ensures old(ListsBelow(doc.nodes)) ==>
        (ListsBelow(doc.nodes) <==> forall n :: n in old(doc.nodes)[P].children ==> !Held(old(doc.nodes), n))
      ensures old(FocusLit(doc.nodes, doc.ui.focus)) ==> FocusLit(doc.nodes, doc.ui.focus)
    {
      hide Tree, Flags, Index, IdCached, UiLive, Journal, Replayed, Logged, View, Minus, Stripped, Insertable, Inserted, PlacedAt,
           DataOf, MoveLog, InsertedAtOnce, LitChains, CutArena, CutLog, Detached, Members, Kids, NoDup, RemovedAtOnce,
           Outside, Moved, UnderAny, ForgetAll, HeirOr, SubtreeOf, Shifted, FocusLit;
      hide ListsBelow, KeepsLists, Held;
      hide Unparented, Replay, Apply;
      ghost var a := doc.nodes;
      var C := doc.nodes[P].children;
      ChildrenFacts(a, doc.root, P);
      assert C[..0] == [];
      DetachedNone(Kids(a));
      UnparentedNone(a);
      OutsideNone(a, doc.ui, doc.flushed, UnderAny(a, C));
      var removed := [];
      for i := 0 to |C|
        invariant removed == C[..i]
        invariant doc.Core() && RedrawOK() && DataOf(doc.nodes) == DataOf(a)
        invariant Kids(doc.nodes) == Detached(Kids(a), Members(C[..i]))
        invariant old(FocusLit(doc.nodes, doc.ui.focus)) ==> FocusLit(doc.nodes, doc.ui.focus)
        invariant old(LitChains(doc.nodes, Kids(doc.nodes), doc.ui)) ==> LitChains(doc.nodes, Kids(doc.nodes), doc.ui)
        invariant Unparented(a, Members(C[..i]), doc.nodes)
        invariant Outside(a, old(doc.ui), old(doc.flushed), doc.nodes, doc.ui, doc.flushed, UnderAny(a, C))
        invariant doc.records == old(doc.records) && doc.base == old(doc.base) && doc.nextId == old(doc.nextId)
      {
        var c := C[i];
        DetachedMore(Kids(a), C, i);
        DetachOneMore(a, doc.root, C, i, doc.nodes, doc.ui.focus);
        DetachStep(a, doc.root, old(doc.ui), old(doc.flushed), C, i, doc.nodes, doc.ui, doc.flushed);
        var _ := DetachNodeNoRecord(c);
        removed := removed + [c];
      }
      assert C[..|C|] == C;
      KeysOfData(a, doc.nodes);
      ClearedReplayed(a, doc.root, P, doc.nodes, doc.base, doc.records, doc.nextId);
      if removed != [] {
        doc.records := doc.records + [ChildList(P, [], removed)];
      }
      assert doc.records == old(doc.records) + RemovedAtOnce(P, C) by { AtOnce(P, C, old(doc.records)); }
      DetachedLists(a, doc.root, old(doc.ui), old(doc.flushed), doc.nodes, doc.ui, doc.flushed, C, UnderAny(a, C));
    }
  }

  lemma EditFocus(a: Arena, n: NodeId, nd: Node, focus: Option<NodeId>)
    requires n in a && nd.data.Element? == a[n].data.Element? && SameBits(a[n], nd)
    ensures FocusLit(a, focus) ==> FocusLit(a[n := nd], focus)
  {
    assert Focus in {Hover, Active, Focus, FocusRing} && FocusRing in {Hover, Active, Focus, FocusRing};
    SameFocus(a, a[n := nd], focus);
  }

  lemma AttrEditKeeps(a: Arena, root: NodeId, n: NodeId, name: string, value: Option<string>, ui: Ui)
    requires Tree(a, root) && UiLive(a, ui) && n in a
    ensures var nd := AttrEdit(a[n], name, value); var b := a[n := nd];
            && SameBits(a[n], nd) && (LitChains(a, Kids(a), ui) ==> LitChains(b, Kids(b), ui))
            && (FocusLit(a, ui.focus) ==> FocusLit(b, ui.focus)) && (ListsBelow(b) <==> ListsBelow(a))
  {
    hide Tree, UiLive, AttrEdit, SameBits, LitChains, FocusLit, ListsBelow, Kids;
    AttrEditBelow(a, n, name, value);
    AttrEditLit(a, root, n, name, value, ui);
    AttrEditFocus(a, n, name, value, ui.focus);
  }

  lemma AttrEditFocus(a: Arena, n: NodeId, name: string, value: Option<string>, focus: Option<NodeId>)
    requires n in a
    ensures FocusLit(a, focus) ==> FocusLit(a[n := AttrEdit(a[n], name, value)], focus)
  {
    hide AttrEdit;
    AttrEditKeepsLight(a[n], name, value);
    EditFocus(a, n, AttrEdit(a[n], name, value), focus);
  }

  lemma CloneFocused(a: Arena, root: NodeId, n: NodeId, b: Arena, m: NodeId, ui: Ui)
    requires Tree(a, root) && Tree(b, root) && n in a && m in b && m !in a && Extends(a, b) && Copied(a, n, b, m) && NewBelow(a, [m], b)
    requires UiLive(a, ui)
    ensures forall x :: x in b && x !in a ==> Above(b, m, x)
    ensures FocusLit(a, ui.focus) ==>
      (FocusLit(b, ui.focus) <==>
       !(ui.focus.Some? && ui.focus.value in a && a[ui.focus.value].data.Element? && Above(a, n, ui.focus.value)))
  {
    hide Tree, Above, Copied, FocusLit;
    assert ui.focus.Some? ==> Mentions(ui, ui.focus.value);
    if FocusLit(a, ui.focus) { CloneFocus(a, root, n, b, m, ui.focus); }
  }

  lemma AttrEditLit(a: Arena, root: NodeId, n: NodeId, name: string, value: Option<string>, ui: Ui)
    requires Tree(a, root) && UiLive(a, ui) && n in a
    ensures var nd := AttrEdit(a[n], name, value); var b := a[n := nd];
            && SameBits(a[n], nd) && (LitChains(a, Kids(a), ui) ==> LitChains(b, Kids(b), ui))
  {
    assert Hover in {Hover, Active, Focus, FocusRing} && Active in {Hover, Active, Focus, FocusRing};
    hide Tree, AttrEdit, Lit, UiLive;
    AttrEditKeepsLight(a[n], name, value);
    SameBitsLit(a, a[n := AttrEdit(a[n], name, value)], ui);
  }

  /** Lit chains depend on child lists, flags, elements and the two bits. */
  lemma SameBitsLit(a: Arena, b: Arena, ui: Ui)
    requires b.Keys == a.Keys && forall x :: x in a ==>
      && b[x].children == a[x].children && b[x].parent == a[x].parent && b[x].inDoc == a[x].inDoc && b[x].data.Element? == a[x].data.Element?
      && (Hover in b[x].state <==> Hover in a[x].state) && (Active in b[x].state <==> Active in a[x].state)
    ensures LitChains(a, Kids(a), ui) ==> LitChains(b, Kids(b), ui)
  {
    hide Under, RankOK;
    assert Kids(b) == Kids(a);
  }

  lemma AttrEditBelow(a: Arena, n: NodeId, name: string, value: Option<string>)
    requires n in a
    ensures ListsBelow(a[n := AttrEdit(a[n], name, value)]) <==> ListsBelow(a)
  {
    hide ListsBelow, LinkState;
    EditedLists(a, n, AttrEdit(a[n], name, value));
  }

  lemma NothingFreedYet(S: Shape, cs: seq<NodeId>, was: map<NodeId, Flushed>, a: Arena)
    requires Acyclic(S)
    ensures Members(PreorderAll(S, cs[..0])) == {} && was - {} == was && a - {} == a
  {
    hide Acyclic;
    assert cs[..0] == [];
  }

  lemma Parentless(a: Arena, root: NodeId, n: NodeId)
    requires Flags(a, root) && n in a && n != root && a[n].parent == None
    ensures !a[n].inDoc && HeirOr(a, Kids(a), n) == None
  {
    hide RankOK;
  }

  lemma ChildThere(a: Arena, S: Shape, c: NodeId)
    requires Holds(a, S, c)
    ensures c in a
  {
    HoldsRoot(a, S, c);
  }

  lemma MembersSum(u: seq<NodeId>, v: seq<NodeId>)
    ensures Members(u + v) == Members(u) + Members(v)
  {
  }

  lemma RootedHeritable(a: Arena, S: Shape, n: NodeId)
    requires Rooted(a, S)
    ensures Heritable(a, S, n)
  {
  }

  lemma SmallerSet(a: set<NodeId>, b: set<NodeId>)
    requires a < b
    ensures |a| < |b|
  {
    assert b == a + (b - a);
    assert |b| == |a| + |b - a|;
  }
}
