/** Attribute and text edits, as values, and what they keep. */
module Attributes {
  import opened Shapes
  import opened Nodes
  import opened Edits
  import opened Moves
  import opened Journaling

  // -------------------------------------------------------------- element state

  predicate CanBeDisabled(tag: string) {
    tag in ["button", "input", "select", "textarea"]
  }

  predicate IsLink(tag: string, attrs: Attrs) {
    tag in ["a", "area"] && "href" in attrs
  }

  /** Links are never visited; everything else has no visitedness. */
  function LinkState(st: set<StateBit>, tag: string, attrs: Attrs): set<StateBit> {
    st - {Unvisited} + if IsLink(tag, attrs) then {Unvisited} else {}
  }

  function InitialState(tag: string, attrs: Attrs): set<StateBit> {
    LinkState({}, tag, attrs)
    + (if tag == "input" && Lookup(attrs, "type") in [Some("checkbox"), Some("radio")] && "checked" in attrs then {Checked} else {})
    + (if !CanBeDisabled(tag) then {} else if "disabled" in attrs then {Disabled} else {Enabled})
  }

  /** An element's state tells whether it is a link, and whether it is disabled. */
  ghost predicate StateAgrees(nd: Node) {
    nd.data.Element? ==>
      && (Unvisited in nd.state <==> nd.data.tag in {"a", "area"} && "href" in nd.data.attrs)
      && (nd.data.tag in {"button", "input", "select", "textarea"} ==>
            && (Disabled in nd.state <==> "disabled" in nd.data.attrs)
            && (Enabled in nd.state <==> "disabled" !in nd.data.attrs))
      && (nd.data.tag !in {"button", "input", "select", "textarea"} ==> Disabled !in nd.state && Enabled !in nd.state)
  }

  lemma InitialAgrees(tag: string, attrs: Attrs)
    ensures StateAgrees(NewElement(tag, attrs))
    ensures Checked in InitialState(tag, attrs) <==>
      tag == "input" && "checked" in attrs && "type" in attrs && (attrs["type"] == "checkbox" || attrs["type"] == "radio")
    ensures forall bit :: bit in {Hover, Active, Focus, FocusRing} ==> bit !in InitialState(tag, attrs)
  {
  }

  /** The bits of hover, press and focus are the same. */
  ghost predicate SameBits(nd: Node, nd': Node) {
    forall bit :: bit in {Hover, Active, Focus, FocusRing} ==> (bit in nd'.state <==> bit in nd.state)
  }

  /** No attribute edit touches the bits of hover, press and focus. */
  lemma AttrEditKeepsLight(nd: Node, name: string, value: Option<string>)
    ensures var nd' := AttrEdit(nd, name, value);
            && nd' == nd.(data := nd'.data, state := nd'.state, hasSnapshot := nd'.hasSnapshot)
            && (nd'.data.Element? <==> nd.data.Element?) && SameBits(nd, nd')
  {
    if nd.data.Element? && value.Some? {
      RecheckedKeeps(Stored(nd.(hasSnapshot := nd.hasSnapshot || (nd.inDoc && nd.styled)), name, value.value), value.value);
    }
  }

  function NewElement(tag: string, attrs: Attrs): Node {
    Node(None, [], false, Element(tag, attrs, Lookup(attrs, "id"), Unbuilt, []), InitialState(tag, attrs), false, false, None, None)
  }

  // --------------------------------------------------------------- one attribute

  /** Setting `checked` on an input in the document: a built checkbox follows the
      value; on an input layout has not reached the attribute is added once more. */
  function Rechecked(nd: Node, value: string): Node
    requires nd.data.Element?
  {
    if value !in ["true", "false"] then nd
    else
      match nd.data.special
      case CheckboxInput => nd.(state := if value == "true" then nd.state + {Checked} else nd.state - {Checked})
      case Unbuilt => nd.(data := nd.data.(repeats := nd.data.repeats + [value]))
      case OtherSpecial => nd
  }

  /** The element with an attribute set, and the state that goes with it. */
  function WithAttr(nd: Node, name: string, value: string): Node
    requires nd.data.Element?
  {
    if nd.inDoc && nd.data.tag == "input" && name == "checked" then Rechecked(Stored(nd, name, value), value) else Stored(nd, name, value)
  }

  function Stored(nd: Node, name: string, value: string): (r: Node)
    requires nd.data.Element?
    ensures r.data.Element?
  {
    var attrs := nd.data.attrs[name := value];
    var data := nd.data.(attrs := attrs, id := if name == "id" then Some(value) else nd.data.id);
    var linked := if name == "href" then LinkState(nd.state, nd.data.tag, attrs) else nd.state;
    nd.(data := data,
        state := if name == "disabled" && CanBeDisabled(nd.data.tag) then linked + {Disabled} - {Enabled} else linked)
  }

  /** The attributes after one is removed: a repeated `checked` comes to the front. */
  function LessAttr(d: NodeData, name: string): NodeData
    requires d.Element?
  {
    if name == "checked" && d.repeats != [] then d.(attrs := d.attrs[name := d.repeats[0]], repeats := d.repeats[1..])
    else d.(attrs := d.attrs - {name}, id := if name == "id" then None else d.id)
  }

  /** The element without an attribute it has. */
  function WithoutAttr(nd: Node, name: string): Node
    requires nd.data.Element?
  {
    var data := LessAttr(nd.data, name);
    var linked := if name == "href" then LinkState(nd.state, nd.data.tag, data.attrs) else nd.state;
    nd.(data := data,
        state := if name == "disabled" && CanBeDisabled(nd.data.tag) then linked + {Enabled} - {Disabled} else linked)
  }

  /** Of an element's attributes and state, only Checked changes. */
  ghost predicate RecheckedSame(nd: Node, value: string)
    requires nd.data.Element?
  {
    var nd' := Rechecked(nd, value);
    && nd'.data.Element? && nd'.data == nd.data.(repeats := nd'.data.repeats) && nd' == nd.(data := nd'.data, state := nd'.state)
    && (forall bit :: bit != Checked ==> (bit in nd'.state <==> bit in nd.state))
    && (Checked in nd'.state <==> if nd.data.special.CheckboxInput? && value in ["true", "false"] then value == "true" else Checked in nd.state)
    && nd'.data.repeats == nd.data.repeats + if nd.data.special == Unbuilt && value in ["true", "false"] then [value] else []
  }

  lemma RecheckedKeeps(nd: Node, value: string)
    requires nd.data.Element?
    ensures RecheckedSame(nd, value)
  {
  }

  lemma StoredAgrees(nd: Node, name: string, value: string)
    requires nd.data.Element?
    ensures var d := Stored(nd, name, value).data;
            && d.tag == nd.data.tag && d.special == nd.data.special
            && (forall k :: AttrOf(d, k) == if k == name then Some(value) else AttrOf(nd.data, k))
            && (nd.data.id == AttrOf(nd.data, "id") ==> d.id == AttrOf(d, "id"))
    ensures StateAgrees(nd) ==> StateAgrees(Stored(nd, name, value))
  {
  }

  /** Attribute edits keep state and attributes in agreement, touch exactly the
      named attribute, and keep the cached id; a built checkbox in the document
      follows its `checked`. */
  lemma WithAttrAgrees(nd: Node, name: string, value: string)
    requires nd.data.Element?
    ensures var d := WithAttr(nd, name, value).data;
            && d.Element? && d.tag == nd.data.tag && d.special == nd.data.special
            && (forall k :: AttrOf(d, k) == if k == name then Some(value) else AttrOf(nd.data, k))
            && (nd.data.id == AttrOf(nd.data, "id") ==> d.id == AttrOf(d, "id"))
    ensures StateAgrees(nd) ==> StateAgrees(WithAttr(nd, name, value))
    ensures nd.inDoc && nd.data.tag == "input" && nd.data.special.CheckboxInput? && name == "checked" && value in ["true", "false"] ==>
      (Checked in WithAttr(nd, name, value).state <==> value == "true")
  {
    hide Rechecked, Stored, LinkState;
    StoredAgrees(nd, name, value);
    RecheckedKeeps(Stored(nd, name, value), value);
  }

  /** The named attribute goes, unless it is a `checked` that was repeated. */
  lemma WithoutAttrAgrees(nd: Node, name: string)
    requires nd.data.Element?
    ensures var d := WithoutAttr(nd, name).data;
            && d.Element? && d.tag == nd.data.tag && d.special == nd.data.special
            && (forall k :: k != name ==> AttrOf(d, k) == AttrOf(nd.data, k))
            && (AttrOf(d, name) == None <==> !(name == "checked" && nd.data.repeats != []))
            && (name == "checked" && nd.data.repeats != [] ==>
                  AttrOf(d, name) == Some(nd.data.repeats[0]) && d.repeats == nd.data.repeats[1..])
            && (name != "checked" ==> d.repeats == nd.data.repeats)
            && (nd.data.id == AttrOf(nd.data, "id") ==> d.id == AttrOf(d, "id"))
    ensures StateAgrees(nd) ==> StateAgrees(WithoutAttr(nd, name))
  {
  }

  // -------------------------------------------------- changing a node's own data

  /** What must hold of a node whose data and state are replaced. */
  ghost predicate Edited(a: Arena, n: NodeId, nd: Node) {
    && n in a
    && nd == a[n].(data := nd.data, state := nd.state, hasSnapshot := nd.hasSnapshot)
    && (nd.data.Element? ==> nd.data.id == AttrOf(nd.data, "id"))
  }

  lemma EditedTree(a: Arena, root: NodeId, n: NodeId, nd: Node)
    requires Tree(a, root) && Flags(a, root) && IdCached(a) && Edited(a, n, nd)
    ensures var b := a[n := nd];
            Tree(b, root) && Flags(b, root) && IdCached(b) && Kids(b) == Kids(a) && (!a[n].inDoc ==> View(b) == View(a))
  {
    hide Tree, AttrOf;
    SameTree(a, a[n := nd], root);
    if !a[n].inDoc { ViewSame(a, a[n := nd]); }
  }

  lemma EditedUi(a: Arena, ui: Ui, n: NodeId, nd: Node)
    requires UiLive(a, ui) && Edited(a, n, nd)
    ensures UiLive(a[n := nd], ui)
  {
    hide Mentions, AttrOf;
  }

  /** The id index follows the id attribute of a node in the document. */
  lemma EditedIndex(a: Arena, ix: IdIndex, n: NodeId, nd: Node, jx: IdIndex)
    requires Index(a, ix) && Edited(a, n, nd) && Entries(jx)
    requires forall s, y :: Indexed(jx, s, y) <==>
      if y == n && a[n].inDoc then s != "" && AttrOf(nd.data, "id") == Some(s) else Indexed(ix, s, y)
    ensures Index(a[n := nd], jx)
  {
    hide AttrOf, Entries;
    var b := a[n := nd];
    forall s, y ensures Indexed(jx, s, y) <==> Bears(b, s, y) {
      assert Indexed(ix, s, y) <==> Bears(a, s, y);
    }
  }

  /** The edit was preceded by a full snapshot, or nothing a snapshot records
      changes, or the node is out of the document. */
  lemma EditedJournal(a: Arena, snaps: map<NodeId, Snapshot>, was: map<NodeId, Flushed>, deps: set<StateBit>,
                      n: NodeId, nd: Node)
    requires Journal(a, snaps, was, deps) && Edited(a, n, nd) && nd.hasSnapshot == a[n].hasSnapshot
    requires a[n].inDoc && a[n].styled ==>
      (n in snaps && (snaps[n].attrs.Some? || AttrsOf(nd.data) == AttrsOf(a[n].data)))
      || (nd.state == a[n].state && AttrsOf(nd.data) == AttrsOf(a[n].data))
    ensures Journal(a[n := nd], snaps, was, deps)
  {
    hide AttrOf;
  }

  /** Attribute and text records do not speak of child lists. */
  lemma EditedReplayed(a: Arena, n: NodeId, nd: Node, base: map<NodeId, set<NodeId>>, recs: seq<Record>, r: Record, next: NodeId)
    requires Replayed(a, base, recs) && Logged(base, recs, next) && Edited(a, n, nd) && !r.ChildList? && r.target < next
    ensures Replayed(a[n := nd], base, recs + [r]) && Logged(base, recs + [r], next)
    ensures Replayed(a[n := nd], base, recs)
  {
    hide Replay, AttrOf;
    ReplayedStep(a, a[n := nd], base, recs, r);
  }

  /** Everything an edit of one node keeps. */
  lemma EditedAll(a: Arena, root: NodeId, n: NodeId, nd: Node, ix: IdIndex, jx: IdIndex, ui: Ui,
                  base: map<NodeId, set<NodeId>>, recs: seq<Record>, calls: seq<Record>, r: Record, next: NodeId)
    requires Tree(a, root) && Flags(a, root) && IdCached(a) && Index(a, ix) && UiLive(a, ui) && Edited(a, n, nd)
    requires Replayed(a, base, recs) && Replayed(a, base, calls) && Logged(base, recs, next) && Logged(base, calls, next)
    requires Entries(jx) && !r.ChildList? && r.target < next
    requires forall s, y :: Indexed(jx, s, y) <==>
      if y == n && a[n].inDoc then s != "" && AttrOf(nd.data, "id") == Some(s) else Indexed(ix, s, y)
    ensures var b := a[n := nd];
            && Tree(b, root) && Flags(b, root) && IdCached(b) && Index(b, jx) && UiLive(b, ui)
            && Replayed(b, base, recs + [r]) && Replayed(b, base, calls) && Logged(base, recs + [r], next)
            && Kids(b) == Kids(a) && (!a[n].inDoc ==> View(b) == View(a))
  {
    hide Tree, Flags, IdCached, Index, UiLive, Replayed, Logged, View, AttrOf, Entries, Indexed;
    EditedTree(a, root, n, nd);
    EditedUi(a, ui, n, nd);
    EditedIndex(a, ix, n, nd, jx);
    EditedReplayed(a, n, nd, base, recs, r, next);
    EditedReplayed(a, n, nd, base, calls, r, next);
  }

  /** An edit that leaves the id attribute alone needs no index update. */
  lemma SameIndex(a: Arena, ix: IdIndex, n: NodeId, nd: Node)
    requires Index(a, ix) && Edited(a, n, nd) && AttrOf(nd.data, "id") == AttrOf(a[n].data, "id")
    ensures Entries(ix)
    ensures forall s, y :: Indexed(ix, s, y) <==>
      if y == n && a[n].inDoc then s != "" && AttrOf(nd.data, "id") == Some(s) else Indexed(ix, s, y)
  {
    hide AttrOf, Entries;
    forall s, y ensures Indexed(ix, s, y) <==> if y == n && a[n].inDoc then s != "" && AttrOf(nd.data, "id") == Some(s) else Indexed(ix, s, y) {
      assert Indexed(ix, s, y) <==> Bears(a, s, y);
    }
  }

  /** Where an in-document element is listed. */
  lemma OwnEntries(a: Arena, ix: IdIndex, n: NodeId)
    requires Index(a, ix) && IdCached(a) && n in a && a[n].inDoc && a[n].data.Element?
    ensures Entries(ix)
    ensures forall s :: Indexed(ix, s, n) <==> s != "" && a[n].data.id == Some(s)
  {
    hide AttrOf, Entries;
    forall s ensures Indexed(ix, s, n) <==> s != "" && a[n].data.id == Some(s) {
      assert Indexed(ix, s, n) <==> Bears(a, s, n);
    }
  }

  /** n is listed under the id it now has and nowhere else. */
  ghost predicate Reindexed(ix: IdIndex, jx: IdIndex, n: NodeId, value: Option<string>) {
    Entries(jx) && forall s, y :: Indexed(jx, s, y) <==> if y == n then s != "" && value == Some(s) else Indexed(ix, s, y)
  }

  /** What setting (Some) or clearing (None) an attribute makes of a node, its
      snapshot flag included. */
  function AttrEdit(nd: Node, name: string, value: Option<string>): Node {
    var snapped := nd.(hasSnapshot := nd.hasSnapshot || (nd.inDoc && nd.styled));
    if !nd.data.Element? then snapped
    else if value.Some? then WithAttr(snapped, name, value.value)
    else if name in nd.data.attrs then WithoutAttr(snapped, name)
    else snapped
  }

  /** The edit, seen from the node as the snapshot left it. */
  lemma EditIs(nd: Node, snapped: Node, name: string, value: Option<string>)
    requires snapped == nd.(hasSnapshot := nd.hasSnapshot || (nd.inDoc && nd.styled))
    ensures AttrEdit(nd, name, value) ==
      if !nd.data.Element? then snapped
      else if value.Some? then WithAttr(snapped, name, value.value)
      else if name in nd.data.attrs then WithoutAttr(snapped, name)
      else snapped
  {
    hide WithAttr, WithoutAttr;
  }

  lemma CapturesAttrs(nd: Node, snap: Option<Snapshot>)
    ensures nd.data.Element? ==> Snapped(nd, snap, true).attrs.Some?
  {
  }

  /** An attribute edit, snapshot and index done, is ready to be applied. */
  lemma AttrReady(a: Arena, n: NodeId, nd: Node, name: string, value: Option<string>, ix: IdIndex, jx: IdIndex,
                  snaps: map<NodeId, Snapshot>, was: map<NodeId, Flushed>, deps: set<StateBit>)
    requires Index(a, ix) && IdCached(a) && Journal(a, snaps, was, deps) && n in a && a[n].data.Element?
    requires nd == if value.Some? then WithAttr(a[n], name, value.value) else WithoutAttr(a[n], name)
    requires a[n].inDoc && a[n].styled ==> n in snaps && snaps[n].attrs.Some?
    requires if name == "id" && a[n].inDoc then Reindexed(ix, jx, n, value) else jx == ix
    ensures Edited(a, n, nd) && Entries(jx) && Journal(a[n := nd], snaps, was, deps)
    ensures forall s, y :: Indexed(jx, s, y) <==>
      if y == n && a[n].inDoc then s != "" && AttrOf(nd.data, "id") == Some(s) else Indexed(ix, s, y)
  {
    hide Index, Journal, Entries, Indexed, LinkState;
    if value.Some? { WithAttrAgrees(a[n], name, value.value); } else { WithoutAttrAgrees(a[n], name); }
    assert Edited(a, n, nd);
    EditedJournal(a, snaps, was, deps, n, nd);
    IndexEntries(a, ix);
    if name != "id" { SameIndex(a, ix, n, nd); }
  }

  lemma AttrPresent(d: NodeData, name: string)
    ensures AttrOf(d, name).Some? <==> d.Element? && name in d.attrs
  {
  }

  /** An attribute written, its index entry moved and its record queued. */
  lemma AttrEdited(a: Arena, root: NodeId, n: NodeId, nd: Node, name: string, value: Option<string>, ix: IdIndex, jx: IdIndex,
                   snaps: map<NodeId, Snapshot>, was: map<NodeId, Flushed>, deps: set<StateBit>, ui: Ui,
                   base: map<NodeId, set<NodeId>>, recs: seq<Record>, calls: seq<Record>, next: NodeId)
    requires Tree(a, root) && Flags(a, root) && Index(a, ix) && IdCached(a) && UiLive(a, ui) && Journal(a, snaps, was, deps)
    requires n in a && a[n].data.Element? && (a[n].inDoc && a[n].styled ==> n in snaps && snaps[n].attrs.Some?)
    requires nd == if value.Some? then WithAttr(a[n], name, value.value) else WithoutAttr(a[n], name)
    requires if name == "id" && a[n].inDoc then Reindexed(ix, jx, n, value) else jx == ix
    requires Replayed(a, base, recs) && Replayed(a, base, calls) && Logged(base, recs, next) && Logged(base, calls, next) && n < next
    ensures var b := a[n := nd];
            && Tree(b, root) && Flags(b, root) && IdCached(b) && Index(b, jx) && UiLive(b, ui) && Journal(b, snaps, was, deps)
            && Replayed(b, base, recs + [Attributes(n, name)]) && Replayed(b, base, calls)
            && Logged(base, recs + [Attributes(n, name)], next)
            && Kids(b) == Kids(a) && (!a[n].inDoc ==> View(b) == View(a))
  {
    hide Tree, Flags, IdCached, Index, UiLive, Journal, Replayed, Logged, View, Entries, Indexed, LinkState, WithAttr,
         WithoutAttr, Edited, Kids, AttrOf, Reindexed;
    AttrReady(a, n, nd, name, value, ix, jx, snaps, was, deps);
    EditedAll(a, root, n, nd, ix, jx, ui, base, recs, calls, Attributes(n, name), next);
  }

  /** Clearing an absent id leaves the index as it was. */
  lemma NothingCleared(a: Arena, n: NodeId, name: string, ix: IdIndex, jx: IdIndex)
    requires Index(a, ix) && IdCached(a) && n in a && a[n].data.Element? && name !in a[n].data.attrs
    requires if name == "id" && a[n].inDoc then Reindexed(ix, jx, n, None) else jx == ix
    ensures Index(a, jx)
  {
    hide Entries;
    if name == "id" && a[n].inDoc {
      forall s, y ensures Indexed(jx, s, y) <==> Bears(a, s, y) {
        assert Indexed(ix, s, y) <==> Bears(a, s, y);
      }
    }
  }
}
