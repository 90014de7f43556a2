/** Checkboxes and radio buttons: what layout builds for an input
    (packages/strake-dom/src/layout/construct.rs) and what a press does
    (packages/strake-dom/src/document.rs, events/pointer.rs). */
module Inputs {
  import opened Shapes
  import opened Nodes
  import opened Edits
  import opened Ancestry
  import opened Paint
  import opened Journaling
  import opened Attributes

  // ------------------------------------------------------------ built by layout

  const TEXT_TYPES := [None, Some("text"), Some("password"), Some("email"), Some("number"), Some("search"), Some("tel"), Some("url")]

  /** The node once layout has built its input. */
  function InputBuilt(nd: Node): Node {
    if !nd.data.Element? then nd
    else if nd.data.tag == "textarea" then nd.(data := nd.data.(special := OtherSpecial))
    else if nd.data.tag != "input" then nd
    else
      var kind := Lookup(nd.data.attrs, "type");
      if kind in TEXT_TYPES then nd.(data := nd.data.(special := OtherSpecial))
      else if kind in [Some("checkbox"), Some("radio")] then CheckboxBuilt(nd)
      else if kind == Some("range") then nd.(data := nd.data.(special := OtherSpecial))
      else nd
  }

  /** Which elements layout makes a checkbox, and of what kind the others are then. */
  lemma BuiltKind(nd: Node)
    requires nd.data.Element?
    ensures var boxed := nd.data.tag == "input" && "type" in nd.data.attrs && (nd.data.attrs["type"] == "checkbox" || nd.data.attrs["type"] == "radio");
            var b := InputBuilt(nd);
            && b.data.Element? && (boxed ==> b.data.special == CheckboxInput)
            && (boxed && nd.data.special != CheckboxInput ==> (Checked in b.state <==> "checked" in nd.data.attrs))
            && (!boxed || nd.data.special == CheckboxInput ==> b.state == nd.state)
            && (!boxed ==> b.data.special == nd.data.special || b.data.special == OtherSpecial)
            && (!boxed && nd.data.tag != "input" && nd.data.tag != "textarea" ==> b == nd)
            && (nd.data.tag == "textarea" || (nd.data.tag == "input" && "type" !in nd.data.attrs) ==> b.data.special == OtherSpecial)
            && (nd.data.tag == "input" && "type" in nd.data.attrs && !boxed && nd.data.special != OtherSpecial ==>
                  var other := {"text", "password", "email", "number", "search", "tel", "url", "range"};
                  (b.data.special == OtherSpecial <==> nd.data.attrs["type"] in other))
  {
  }

  /** A new checkbox takes its flag, and the Checked bit, from the attribute. */
  function CheckboxBuilt(nd: Node): Node
    requires nd.data.Element?
  {
    if nd.data.special.CheckboxInput? then nd
    else nd.(data := nd.data.(special := CheckboxInput),
             state := if "checked" in nd.data.attrs then nd.state + {Checked} else nd.state - {Checked})
  }

  /** Building the input changes the Checked bit of a node whose styles depend on it,
      with no snapshot to tell. */
  ghost predicate Untold(nd: Node, flushed: bool, snapped: bool, deps: set<StateBit>) {
    flushed && !snapped && Checked in deps && (Checked in InputBuilt(nd).state) != (Checked in nd.state)
  }

  lemma BuiltKeeps(nd: Node)
    ensures var b := InputBuilt(nd);
            && b == nd.(data := b.data, state := b.state) && (b.data.Element? <==> nd.data.Element?)
            && AttrsOf(b.data) == AttrsOf(nd.data) && (forall k :: AttrOf(b.data, k) == AttrOf(nd.data, k))
            && (nd.data.Element? ==> b.data.id == nd.data.id)
            && (forall bit :: bit != Checked ==> (bit in b.state <==> bit in nd.state))
  {
  }

  lemma BuiltEdited(a: Arena, n: NodeId)
    requires IdCached(a) && n in a
    ensures Edited(a, n, InputBuilt(a[n]))
  {
    hide InputBuilt, AttrOf;
    BuiltKeeps(a[n]);
  }

  /** The journal stays right exactly if no styles were left depending on the old bit. */
  lemma BuiltJournal(a: Arena, snaps: map<NodeId, Snapshot>, was: map<NodeId, Flushed>, deps: set<StateBit>, n: NodeId)
    requires Journal(a, snaps, was, deps) && n in a
    ensures Journal(a[n := InputBuilt(a[n])], snaps, was, deps) <==> !Untold(a[n], n in was, n in snaps, deps)
  {
    hide InputBuilt, AttrOf;
    var nd, b := InputBuilt(a[n]), a[n := InputBuilt(a[n])];
    BuiltKeeps(a[n]);
    SameMeet(nd.state, a[n].state, deps);
    if n in was { assert Faithful(a[n], Lookup(snaps, n), was[n], deps); }
    forall x | x in was && x != n ensures Faithful(b[x], Lookup(snaps, x), was[x], deps) { }
    if Journal(b, snaps, was, deps) && n in was { assert Faithful(b[n], Lookup(snaps, n), was[n], deps); }
  }

  lemma SameMeet(s: set<StateBit>, t: set<StateBit>, deps: set<StateBit>)
    requires forall bit :: bit != Checked ==> (bit in s <==> bit in t)
    ensures s * deps == t * deps <==> !(Checked in deps && (Checked in s) != (Checked in t))
  {
    if Checked in deps && (Checked in s) != (Checked in t) { assert Checked in s * deps <==> Checked !in t * deps; }
    if !(Checked in deps && (Checked in s) != (Checked in t)) {
      forall bit ensures bit in s * deps <==> bit in t * deps { }
    }
  }

  /** Everything else the building keeps. */
  lemma BuiltAll(a: Arena, root: NodeId, n: NodeId, ix: IdIndex, ui: Ui)
    requires Tree(a, root) && Flags(a, root) && IdCached(a) && Index(a, ix) && UiLive(a, ui) && n in a
    ensures var b := a[n := InputBuilt(a[n])];
            && Tree(b, root) && Flags(b, root) && IdCached(b) && Index(b, ix) && UiLive(b, ui) && Kids(b) == Kids(a)
            && b.Keys == a.Keys && forall x :: x in b ==> b[x].children == a[x].children
  {
    hide Tree, Flags, IdCached, Index, UiLive, InputBuilt, AttrOf, Entries, Indexed, Edited, View;
    var nd := InputBuilt(a[n]);
    BuiltEdited(a, n);
    BuiltKeeps(a[n]);
    EditedTree(a, root, n, nd);
    EditedUi(a, ui, n, nd);
    SameIndex(a, ix, n, nd);
    EditedIndex(a, ix, n, nd, ix);
  }

  // ------------------------------------------------------------- radio buttons

  /** Of G so far, t is checked and the others are not; nothing else has changed. */
  ghost predicate Chosen(a: Arena, G: set<NodeId>, t: NodeId, b: Arena) {
    && Restated(a, b)
    && (forall x :: x in a && x in G ==> b[x].state == Flipped(a[x], {Checked}, x == t))
    && (forall x :: x in a && x !in G ==> b[x] == a[x])
  }

  lemma CheckedFlip(nd: Node, on: bool)
    requires nd.data.Element?
    ensures forall bit :: bit in Flipped(nd, {Checked}, on) <==> if bit == Checked then on else bit in nd.state
  {
  }

  lemma OneRestated(a: Arena, n: NodeId, b: Arena)
    requires n in a && b.Keys == a.Keys && forall x :: x in a && x != n ==> b[x] == a[x]
    requires b[n] == a[n].(state := b[n].state, hasSnapshot := b[n].hasSnapshot)
    ensures Restated(a, b)
  {
  }

  lemma ChosenNone(a: Arena, t: NodeId)
    ensures Chosen(a, {}, t, a)
  {
  }

  lemma ChosenMore(a: Arena, G: set<NodeId>, t: NodeId, b: Arena, x: NodeId, c: Arena)
    requires Chosen(a, G, t, b) && x in a && x !in G && c.Keys == b.Keys
    requires forall y :: y in b && y != x ==> c[y] == b[y]
    requires c[x] == b[x].(state := Flipped(b[x], {Checked}, x == t), hasSnapshot := c[x].hasSnapshot)
    ensures Chosen(a, G + {x}, t, c)
  {
    hide Flipped;
  }

  /** Afterwards exactly the pressed one of the group is checked, and everything else
      of everybody is as before. */
  lemma RadioLaw(a: Arena, G: set<NodeId>, t: NodeId, b: Arena)
    requires Chosen(a, G, t, b) && forall x :: x in G ==> x in a && a[x].data.Element?
    ensures Restated(a, b)
    ensures forall x :: x in a ==> if x in G then Checked in b[x].state <==> x == t else b[x] == a[x]
    ensures forall x, bit :: x in a && bit != Checked ==> (bit in b[x].state <==> bit in a[x].state)
  {
  }

  /** Changes of Checked leave the chains of lit elements alone. */
  lemma CheckedLit(a: Arena, root: NodeId, b: Arena, ui: Ui)
    requires Tree(a, root) && Tree(b, root) && UiLive(a, ui) && Restated(a, b)
    requires forall x, bit :: x in a && bit != Checked ==> (bit in b[x].state <==> bit in a[x].state)
    ensures LitChains(a, Kids(a), ui) ==> LitChains(b, Kids(b), ui)
  {
    hide Tree, Lit, Above;
    UiAlive(a, ui);
    RestatedKids(a, b);
    LitMeans(a, root, Hover, ui.hover);
    LitMeans(a, root, Active, ui.active);
    LitMeans(b, root, Hover, ui.hover);
    LitMeans(b, root, Active, ui.active);
    forall who, x ensures OnChain(b, who, x) <==> OnChain(a, who, x) { RestatedAbove(a, b, who, x); }
    if LitChains(a, Kids(a), ui) {
      forall x | x in b ensures LitAt(b, Hover, ui.hover, x) && LitAt(b, Active, ui.active, x) {
        assert LitAt(a, Hover, ui.hover, x) && LitAt(a, Active, ui.active, x);
      }
    }
  }

  lemma RestatedAbove(a: Arena, b: Arena, who: Option<NodeId>, x: NodeId)
    requires Restated(a, b)
    ensures OnChain(b, who, x) <==> OnChain(a, who, x)
  {
    hide Under;
    RestatedKids(a, b);
  }
}
