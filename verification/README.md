# Verified model of the Strake DOM, its mutator and the parts around them

The code that changes state is modelled as classes whose methods change fields.
The centre is the node arena of `strake-dom` and `DocumentMutator`, which edits
it.

* **Tree theory.** `Shapes.dfy`: shapes (node to child list), ranks for
  acyclicity, preorder, subtrees, and how detaching, splicing and freeing change
  them.
* **Document.** `Nodes.dfy`, `Edits.dfy`, `Moves.dfy`, `Ancestry.dfy`,
  `Paint.dfy`, `Inserts.dfy`, `Placement.dfy`, `Kept.dfy`, `Light.dfy`,
  `Lists.dfy`, `Focus.dfy`, `Creation.dfy`, `Queries.dfy`, `Journal.dfy`, `Attributes.dfy` and
  `Inputs.dfy` hold the node data, the invariants and what each edit keeps, as
  statements about arena values. `Document.dfy` (`BaseDocument`) and `Mutator.dfy`
  (`DocumentMutator`) are the classes, method by method, with loops and field
  updates in the source's order. `Runs.dfy` holds short runs of them, most of
  which end badly.
* **Dioxus writer.** `Templates.dfy` and `Writer.dfy`: the stack machine, its two
  id maps and the template cache.
* **Scrolling.** `Scrolling.dfy`: the chained scroll and the eased animation over
  real offsets.
* **Loading.** `Loading.dfy` (handlers, render-blocking gate, single-flight
  images) and `Iframes.dfy` (generations), with the network provider as an
  adversary.
* **Selection.** `Selection.dfy`: selection ranges per inline root.

`BaseDocument.Valid` is one invariant for all runs. It says: the arena is a forest
whose parent links and child lists agree; the in-document flag is inherited along
every edge and clear on every other root; each id entry lists exactly the
in-document nodes with that id; interaction references are live, but for the
slider of a range drag, and hover and active are in the document; snapshots are a
faithful first-write journal since the last style flush; and replaying the queued
records, or the per-child hook calls, from the initial parent-to-children relation
gives the current one. Every `BaseDocument` and `DocumentMutator` operation is
proved to keep it (but for the building of a checkbox, which does exactly under a
stated condition), together with `RedrawOK`: as long as no mutation is flagged,
the in-document tree (structure, order, attributes, text) is the one the mutator
started from. A node's id is never reused, as in the versioned arena.

Findings, stated and proved where they belong:

* Paint lists after a drop. The purge climbs from the removal parent and does
  nothing for a parentless node. As long as lists name only nodes below their
  owners (`ListsBelow`), which a rebuild establishes, every drop keeps it so and
  leaves no freed id (`Listing.DroppedBelow`). Detaching a node keeps it exactly
  if none of its ancestors lists a node of its subtree (`Listing.CutLists`), and
  otherwise the later drop leaves that id behind (`Listing.DetachedDropPaint`), as
  in the run `Runs.DetachedDropLeavesStale`; detaching several keeps it exactly if
  that holds of each (`Listing.DetachedLists`). Every other tree operation moves
  nodes below a target and cuts others off; it keeps it exactly under
  `KeepsLists`: list entries of moved and cut-off nodes are in their own subtrees
  or, for moved ones, at the target and above (`Listing.MovedLists`). Creation,
  cloning, text, attribute, hover, press, focus and style operations leave it as
  it was, so that the law carries through any run. In general a drop is clean
  exactly if no list held a doomed node that is not below its owner
  (`Listing.DroppedPaint`).
* Range drags. No removal clears `range_drag_node_id`: after a drop it names a
  freed node exactly if it named one of the dropped (`Listing.DroppedRangeDrag`),
  as in the run `Runs.DroppedSliderDangles`.
* Images and stylesheets under one URL. A URL is in single flight if it is pending
  exactly when an image request for it is alive, and then only one is. Every
  operation leaves every flight as it is, except that an answer may end its own
  URL's; and that one goes on being single exactly unless the answer is a
  stylesheet's failure while the URL is pending (`Loading.FlightEnded`): it takes
  the image's waiting list, and the next load fetches the image a second time
  (`Loading.SharedUrlFetchesTwice`). For a URL asked for in one way only that
  never happens (`Loading.OneKindForgets`).
* Writer id maps. Naming a node a second time leaves its first name behind, and a
  later drop leaves that name dangling, as in the run `Runs.SecondNameDangles`.
  The maps stay inverse exactly when the named node had no other name
  (`Writer.RenamedInverse`), and a drop leaves exactly the second names dangling
  (`Writer.UnnamedInverse`).
* `deep_clone_node` queues no record, so a clone's child lists enter the base of
  the replay instead of its log. Freeing a subtree queues no record about the
  freed nodes' own lists, so the replay speaks of surviving parents.
* Moving a hovered subtree by an insertion can leave HOVER lit on the old chain
  (the run `Runs.MoveLeavesLight`). The lit chains stay exact if and only if no
  lit element enters the document with the moved nodes and, where one of them
  carries the hovered or pressed node along, the elements above its old place that
  stay in the document are those above its new one
  (`Lighting.InsertionLitChains`). The ParentNode and ChildNode operations detach
  first, which retargets hover and active but clears no bit, so they keep the
  chains exact if and only if the moved subtrees hold no lit element or the target
  is not in the document (`Lighting.DetachedReady`, `Lighting.DetachedReplaces`);
  even reinserting a hovered node where it was breaks them. Replacing a node by
  nodes moved from anywhere keeps them exactly under the condition on the move,
  asked only of the elements that do not leave with the replaced node
  (`Lighting.ReplacedLights`): unwrapping a hovered child keeps them (the run
  `Runs.UnwrapKeepsLight`). Removals, drops and the hover, active, focus and
  checkbox operations always keep them exact.
* Focus bits. Among elements exactly the focused one carries FOCUS and FOCUSRING;
  every operation keeps that, except that a clone carries the bits of what it is a
  clone of, so that cloning keeps it exactly if the focused element is not among
  the cloned (`Focusing.CloneFocus`, the run `Runs.CloneLooksFocused`).
* Checkboxes. Layout builds a checkbox from its `checked` attribute and sets the
  CHECKED bit without a snapshot. Styles that depend on it are then out of date
  exactly if the bit changes on a node whose styles are kept and not already
  snapshotted (`Inputs.BuiltJournal`), as after a script sets `checked` before the
  first layout (`Runs.UntoldChecked`). Until then, each write of `true` or `false`
  in the document also adds the attribute once more, and removing an attribute
  takes it away exactly unless it is a `checked` so repeated
  (`Attributes.WithoutAttrAgrees`, `Runs.RemovedCheckedStays`).

## Model

| member | source | states |
|---|---|---|
| Nodes.TreeMeans | packages/strake-dom/src/mutator.rs:603-933 | in every valid arena parent links and child lists are one relation, each child is listed once, no node descends from itself, and the flag is reachability from the root |
| Nodes.InDocumentIsReachable | packages/strake-dom/src/mutator.rs:1125-1184 | a flag inherited along edges and clear on other roots holds exactly of the nodes below the document root |
| Nodes.HeirNearest | packages/strake-dom/src/document.rs:894-909 | every in-document element above a node is above the node's heir, so the heir is the nearest one |
| Nodes.HeirInDocument | packages/strake-dom/src/document.rs:894-909 | the heir is a live in-document element and a proper ancestor |
| Edits.UnmountKeepsLit | packages/strake-dom/src/document.rs:911-938 | when the owner of a bit leaves the document, the lit in-document elements are exactly the chain of the heir |
| Edits.UnmountKeepsUi | packages/strake-dom/src/document.rs:930-973 | after a node is forgotten no reference the teardown clears names it, and the others are live, hover and active in the document |
| Edits.ForgetAllUnselects | packages/strake-dom/src/document.rs:953-970 | when nodes go, a selection with either endpoint among them is cleared whole and otherwise stays, and so does a drag that works on one of them |
| Edits.VisitHeir | packages/strake-dom/src/mutator.rs:1177-1186 | at every visit of the walk over a leaving subtree the heir is that of the subtree's root, outside the subtree |
| Shapes.PlacedForest | packages/strake-dom/src/mutator.rs:821-910 | splicing nodes below a parent that is in none of their subtrees keeps a forest |
| Shapes.FreedUnder | packages/strake-dom/src/document.rs:981-1007 | freeing a downward-closed set changes no ancestry among the survivors |
| Shapes.DetachedUnder | packages/strake-dom/src/mutator.rs:620-641 | detaching a node changes no ancestry outside its subtree |
| Shapes.PreorderNoDup | packages/strake-dom/src/traversal.rs:177-199 | a subtree walk of a forest visits no node twice |
| Moves.CutTree | packages/strake-dom/src/mutator.rs:620-641 | taking a subtree out keeps the tree, its flags and its cached ids, empties the flag below it, and shows nowhere if it was not in the document |
| Moves.CutLitChains | packages/strake-dom/src/mutator.rs:620-641 | cutting a subtree keeps the HOVER and ACTIVE bits exactly on the chains of the retargeted nodes |
| Moves.CutReplayed | packages/strake-dom/src/mutator.rs:604-613 | the record of a removal takes the replay from the old child sets to the new ones |
| Moves.FreedTree | packages/strake-dom/src/document.rs:981-1007 | freeing subtrees keeps tree, flags and cached ids of the survivors |
| Focusing.CutFocus | packages/strake-dom/src/mutator.rs:620-641 | detaching takes the focus bits from a focused node that leaves: among elements exactly the focused one carries them, before and after |
| Focusing.DropFocus | packages/strake-dom/src/document.rs:945-949 | the same of a drop |
| Focusing.MovedFocus | packages/strake-dom/src/mutator.rs:889-901 | the same of an insertion, with selection and drag cleared exactly if they name a node that left the document |
| Focusing.CloneFocus | packages/strake-dom/src/document.rs:1038-1070 | a clone keeps that exactly if the focused element is not among the cloned |
| Paint.PurgeExact | packages/strake-dom/src/mutator.rs:670-686 | the purge cleans exactly the lists of the given node and its ancestors |
| Paint.ReplayEach | packages/strake-dom/src/mutation_hooks.rs:66-82 | one removal call per child and one bulk record remove the same children |
| Inserts.MoveReplay | packages/strake-dom/src/mutator.rs:834-865 | the removal records of a move take each moved child from its old parent's set and nothing else |
| Inserts.InsertReplay | packages/strake-dom/src/mutator.rs:898-910 | one insertion call per child adds what the bulk record adds |
| Inserts.SplicePosition | packages/strake-dom/src/mutator.rs:811-819 | the anchor keeps its place among the survivors when moved nodes leave the list first |
| Inserts.AddDone | packages/strake-dom/src/mutator.rs:821-911 | once all children are linked the arena is a tree again with the placed lists, exact flags, exact replays, and an unchanged view if nothing involved was in the document |
| Placement.PlacementLaw | packages/strake-dom/src/mutator.rs:977-1066 | the law's lists: prepend gives N before C minus N, append after it, replaceChildren exactly N, a fresh insertion C[..a] + N + C[b..] |
| Placement.PlacedDetached | packages/strake-dom/src/mutator.rs:946-953 | inserting after detaching the nodes equals inserting at the corresponding cut of the old list |
| Placement.PlacedThenCut | packages/strake-dom/src/mutator.rs:930-933 | inserting before the anchor and then removing it is the placement that skips the anchor |
| Placement.AfterCut | packages/strake-dom/src/mutator.rs:1035-1047 | the cut before the next viable sibling is the cut after the anchor, whatever lies between |
| Placement.BeforeCut | packages/strake-dom/src/mutator.rs:1016-1030 | the cut after the previous viable sibling is the cut before the anchor |
| Placement.ReplaceCut | packages/strake-dom/src/mutator.rs:1052-1067 | with the anchor among the nodes the next viable sibling marks its place, otherwise the anchor does |
| Keeping.MovedDone | packages/strake-dom/src/mutator.rs:821-911 | once all children are linked, exactly the moved subtrees changed their flag; the nodes that left lost snapshot, focus and every reference without an heir, everything else of every node stayed |
| Keeping.PlacedFlags | packages/strake-dom/src/mutator.rs:889-901 | an insertion changes flags in the inserted subtrees only |
| Keeping.PlacedUnder | packages/strake-dom/src/mutator.rs:821-911 | an insertion enlarges no subtree that does not hold the target |
| Keeping.TakenHeir | packages/strake-dom/src/mutator.rs:761-769 | every child of a node whose list was taken falls back to the same heir, outside its own subtree, at any point of the drops |
| Keeping.ShiftedOutside | packages/strake-dom/src/mutator.rs:889-901 | references, flush records and node fields outside the nodes that change their flag are kept by an insertion |
| Keeping.DetachThenMove | packages/strake-dom/src/mutator.rs:975-1047 | detaching nodes and inserting them touches their own subtrees only |
| Keeping.ReplaceOutside | packages/strake-dom/src/mutator.rs:930-933 | replacing a node touches the inserted subtrees and that of the node only |
| Lighting.StaysAbove | packages/strake-dom/src/mutator.rs:821-911 | nodes not carried along by an insertion keep exactly their ancestors |
| Lighting.PlacedParents | packages/strake-dom/src/mutator.rs:821-1066 | a placement gives the inserted nodes the target for a parent, the children it skips none, and leaves all other parents alone |
| Lighting.KeptAbove | packages/strake-dom/src/mutator.rs:821-1066 | nodes carried along by no moved or cut-off node keep exactly their ancestors |
| Lighting.CarriedAbove | packages/strake-dom/src/mutator.rs:821-1066 | a node carried along keeps its ancestors up to its nearest carrier and, if that was moved, has the target and its ancestors above |
| Lighting.MovedAbove | packages/strake-dom/src/mutator.rs:821-911 | a node carried along keeps its ancestors up to the nearest inserted node and has the target and its ancestors above that |
| Lighting.InsertionLitChains | packages/strake-dom/src/mutator.rs:889-901 | after an insertion the lit chains of hover and active are exact if and only if `KeepsLights` holds of the state before |
| Lighting.DetachedReady | packages/strake-dom/src/mutator.rs:946-983 | after detaching the nodes, inserting them keeps the lit chains exact if and only if the target is not in the document or they held no lit element |
| Lighting.ReplacedLights | packages/strake-dom/src/mutator.rs:930-933 | moving nodes next to a node and then removing it keeps the lit chains exact if and only if `ReplacesLights` holds of the state before |
| Lighting.DetachedReplaces | packages/strake-dom/src/mutator.rs:1049-1067 | for detached nodes the condition on a replacement is that they hold no lit element or the target is not in the document |
| Lighting.CutLightAt | packages/strake-dom/src/mutator.rs:620-641 | removing a node leaves the light right exactly where it was, outside its subtree |
| Listing.DroppedPaint | packages/strake-dom/src/mutator.rs:645-736 | after a drop no list from the removal parent to the root names a freed node, and all lists are clean exactly if no list held a doomed node that is not below its owner |
| Listing.DroppedBelow | packages/strake-dom/src/mutator.rs:645-736 | where lists name only nodes below their owners, a drop keeps it so, attached or not |
| Listing.CutLists | packages/strake-dom/src/mutator.rs:620-641 | detaching a node keeps that exactly if no ancestor lists a node of its subtree |
| Listing.DetachedDropPaint | packages/strake-dom/src/mutator.rs:620-802 | detaching a node and dropping it later leaves a freed id in a list exactly if an ancestor listed a node of its subtree before |
| Listing.MovedLists | packages/strake-dom/src/mutator.rs:821-1066 | moving nodes below a target and cutting others off keeps lists to nodes below their owners exactly if `KeepsLists` holds of the state before |
| Listing.HeldAny | packages/strake-dom/src/mutator.rs:944-953 | for cut-off nodes alone that condition is that no ancestor of any lists a node of its subtree |
| Listing.PlacementLists | packages/strake-dom/src/mutator.rs:821-1066 | any placement of nodes, whatever children it skips, keeps the lists right exactly under that condition |
| Listing.DetachedLists | packages/strake-dom/src/mutator.rs:944-1010 | detaching nodes one by one keeps the lists right exactly if none of them was held above |
| Listing.ExtendedLists | packages/strake-dom/src/document.rs:873-1070 | new nodes without lists leave the lists exactly as right as they were |
| Listing.DroppedRangeDrag | packages/strake-dom/src/document.rs:930-973 | after a drop the range drag names a freed node exactly if it named one of the dropped |
| Runs.DetachedDropLeavesStale | packages/strake-dom/src/mutator.rs:645-802 | a run from a new document that ends with a freed id in the root's paint list |
| Runs.DroppedSliderDangles | packages/strake-dom/src/events/pointer.rs:566-578 | a run from a new document that ends with a range drag naming a freed slider |
| Runs.MoveLeavesLight | packages/strake-dom/src/mutator.rs:889-901 | a run from a new document through a move: the hovered node is no longer below its old parent, which stays lit in the document |
| Runs.UnwrapKeepsLight | packages/strake-dom/src/mutator.rs:930-933 | a run from a new document through a replacement that unwraps the hovered node: the lit chains stay exact |
| Runs.FamilyLights | packages/strake-dom/src/mutator.rs:889-933 | for every document of that shape the move fails the condition on moves, and the replacement meets its own |
| Runs.SecondNameDangles | packages/dioxus-native-dom/src/mutation_writer.rs:85-141 | a run of the writer from a new document in which a second name, given to another node, leaves the first naming a freed node |
| Runs.UntoldChecked | packages/strake-dom/src/layout/construct.rs:1212-1221 | a run from a new document that ends with a checked checkbox whose styles are those of an unchecked one, and no snapshot |
| Runs.RemovedCheckedStays | packages/strake-dom/src/mutator.rs:404-480 | a run from a new document in which a removed `checked` attribute is still there |
| Runs.CloneLooksFocused | packages/strake-dom/src/document.rs:1038-1070 | a run from a new document in which the clone of the focused element carries the focus bits, too |
| Document.BaseDocument.constructor | packages/strake-dom/src/document.rs:500-525 | a new document is valid, holds only its root and no records |
| Document.BaseDocument.AddToIdMap | packages/strake-dom/src/query_selector.rs:36-45 | exactly one pair joins the index, none for the empty id |
| Document.BaseDocument.RemoveFromIdMap | packages/strake-dom/src/query_selector.rs:47-55 | exactly one pair leaves the index and no empty entry stays |
| Document.BaseDocument.FirstInTreeOrder | packages/strake-dom/src/query_selector.rs:24-34 | the explicit-stack search finds the first candidate in recursive preorder |
| Document.BaseDocument.GetElementById | packages/strake-dom/src/query_selector.rs:16-22 | the first node in document preorder whose id attribute is the given non-empty id, none otherwise |
| Queries.AmongBearers | packages/strake-dom/src/query_selector.rs:16-34 | searching an entry of the index agrees with searching the document order for the attribute |
| Queries.OnlyBearer | packages/strake-dom/src/query_selector.rs:16-22 | no entry means nobody has the id; a single entry is the first in tree order |
| Queries.VisitStep | packages/strake-dom/src/query_selector.rs:25-34 | popping a node and pushing its children reversed visits the next node of the preorder |
| Document.BaseDocument.NearestSurvivingElementAncestor | packages/strake-dom/src/document.rs:898-909 | the climb returns the nearest in-document element, none if an ancestor is gone |
| Document.BaseDocument.ClearInteractionState | packages/strake-dom/src/document.rs:930-973 | every reference to the node is dropped, hover and active fall back to the heir, a focused node is blurred; a selection with either endpoint there is cleared whole, a drag exactly if it works on it |
| Document.BaseDocument.Walk | packages/strake-dom/src/traversal.rs:177-199 | the recursive walk is the preorder of the subtree |
| Document.BaseDocument.ProcessRemovedSubtree | packages/strake-dom/src/mutator.rs:1177-1244 | every node of the subtree leaves the document; all references into it are cleared or fall to the one heir, its flush records go, lit chains stay exact; the selection and the drag are cleared exactly if they name a node of it |
| Document.BaseDocument.ProcessAddedSubtree | packages/strake-dom/src/mutator.rs:1125-1137 | every node of the subtree enters the document and the index |
| Document.BaseDocument.RemoveNodeFromTree | packages/strake-dom/src/document.rs:886-892 | the slot is freed and nothing else changes once no reference names it |
| Document.BaseDocument.DropNodeIgnoringParent | packages/strake-dom/src/document.rs:975-1007 | exactly the subtree is freed, reported in preorder |
| Document.BaseDocument.CreateNode | packages/strake-dom/src/document.rs:873-884 | a detached leaf under a new id; all invariants and the view stay; the lists are as right as before |
| Document.BaseDocument.DeepClone | packages/strake-dom/src/document.rs:1038-1070 | no existing node changes; the fresh detached tree holds the same data and element state in the same shape; the lists are as right as before; nothing else is created |
| Creation.CloneDoneIn | packages/strake-dom/src/document.rs:1038-1070 | a node over clones of another node's children holds the same tree |
| Creation.CopyFrame | packages/strake-dom/src/document.rs:1038-1070 | what a tree holds depends on its own subtree only |
| Creation.AdoptedTree | packages/strake-dom/src/document.rs:1060-1067 | linking detached clones below a detached leaf gives a tree and shows nowhere |
| Creation.NewBelowAdopted | packages/strake-dom/src/document.rs:1060-1067 | all nodes a clone creates hang below its root |
| Document.BaseDocument.SnapshotNode | packages/strake-dom/src/document.rs:1449-1543 | unstyled nodes take none; state and attributes are each captured once, attributes also by upgrading |
| Document.BaseDocument.SnapshotNodeAnd | packages/strake-dom/src/document.rs:1545-1564 | the bits change after a state snapshot taken exactly if a style rule depends on them, and the journal stays faithful; the stored snapshot is stated, too |
| Journaling.SnapshotFaithful | packages/strake-dom/src/document.rs:1475-1542 | a snapshot taken before a change keeps the journal faithful, first write wins |
| Journaling.ToggledJournal | packages/strake-dom/src/document.rs:1554-1564 | changing bits, with the snapshot they need or without one they do not, keeps the journal faithful |
| Journaling.IndifferentChange | packages/strake-dom/src/document.rs:1543-1549 | bits no rule depends on may change without a snapshot |
| Journaling.FlushJournal | packages/strake-dom/src/stylo.rs:160-166 | after the flush the empty journal is faithful to the present |
| Document.BaseDocument.FlushStyles | packages/strake-dom/src/stylo.rs:148-166 | all snapshots are consumed, all flags cleared, and the recorded past becomes the present; the lists are as right as before |
| Document.BaseDocument.NodeLayoutAncestors | packages/strake-dom/src/traversal.rs:309-318 | the root-first chain of parents of the node |
| Journaling.ChainMembers | packages/strake-dom/src/traversal.rs:309-318 | the chain of a node holds exactly the nodes above it |
| Journaling.ChainDifference | packages/strake-dom/src/document.rs:1909-1916 | skipping the common prefix of two chains leaves exactly the two differences |
| Journaling.LightMoved | packages/strake-dom/src/document.rs:1909-1922 | toggling the two rests moves the light from exactly the old chain to exactly the new one and touches only the symmetric difference |
| Document.BaseDocument.MoveLight | packages/strake-dom/src/document.rs:1909-1922 | the same of the loops, with journal and all other invariants kept; the lists are as right as before; no other bit of any node changes |
| Document.BaseDocument.SetHoverTo | packages/strake-dom/src/document.rs:1849-1934 | lit chains move to the new hover node, nodes on both or neither chain are untouched, the result says whether hover or scrollbar changed, exactly both thumbs of a scrollbar change show again; the lists are as right as before; no other bit of any node changes |
| Document.BaseDocument.ClearHover | packages/strake-dom/src/document.rs:1936-1962 | no chain is hovered afterwards; true if one was; the lists are as right as before; no other bit of any node changes |
| Document.BaseDocument.ActiveNode | packages/strake-dom/src/document.rs:1734-1762 | exactly the hovered chain is pressed; the lists are as right as before; no other bit of any node changes |
| Document.BaseDocument.UnactiveNode | packages/strake-dom/src/document.rs:1764-1775 | the pressed chain is released; the lists are as right as before; no other bit of any node changes |
| Document.BaseDocument.SetFocusTo | packages/strake-dom/src/document.rs:1697-1732 | exactly the two focus bits of exactly the old and the new element change; hover and active chains stay; the lists are as right as before |
| Document.BaseDocument.ClearFocus | packages/strake-dom/src/document.rs:1674-1686 | exactly the two focus bits of the focused element go; the lists are as right as before |
| Document.BaseDocument.StartRangeDrag | packages/strake-dom/src/events/pointer.rs:566-578 | the drag names the slider, nothing else changes |
| Document.BaseDocument.EndRangeDrag | packages/strake-dom/src/events/pointer.rs:716-720 | the drag names nothing any more |
| Document.BaseDocument.BuildInput | packages/strake-dom/src/layout/construct.rs:449-473 | the input is built by its type attribute, and the document stays valid exactly if no styles are left depending on a Checked bit this changes |
| Document.BaseDocument.PressCheckbox | packages/strake-dom/src/events/pointer.rs:814-832 | exactly the Checked bit of a built checkbox changes over, the result says to what; journal, lit chains and lists stay right |
| Document.BaseDocument.ToggleRadio | packages/strake-dom/src/document.rs:698-719 | of all built inputs of that name exactly the target is checked; every other node is as before, and no other bit has changed; journal, lit chains and lists stay right |
| Document.BaseDocument.PressRadio | packages/strake-dom/src/events/pointer.rs:836-848 | a built radio button is checked and all others of its name are not; nodes of another name or none, and inputs not built, are as before |
| Inputs.BuiltJournal | packages/strake-dom/src/layout/construct.rs:1212-1221 | building an input keeps the journal right exactly unless it changes the Checked bit, on which some style depends, of a node flushed and not snapshotted |
| Inputs.BuiltKind | packages/strake-dom/src/layout/construct.rs:449-473 | exactly inputs of type checkbox or radio become checkboxes, checked if and only if they have the attribute; the text types, sliders and text areas become others, all else stays |
| Inputs.RadioLaw | packages/strake-dom/src/document.rs:698-719 | after the loop exactly the target of the group is checked, everybody outside is as before, and no other bit has changed |
| Inputs.CheckedLit | packages/strake-dom/src/document.rs:712-717 | changes of Checked alone keep the lit chains exact |
| Mutator.DocumentMutator.constructor | packages/strake-dom/src/mutator.rs:92-104 | a mutator starts unflagged and remembers the in-document tree |
| Mutator.DocumentMutator.Drop | packages/strake-dom/src/mutator.rs:82-89 | no redraw is asked for only if the in-document tree is the one at creation |
| Mutator.DocumentMutator.CreateElement | packages/strake-dom/src/mutator.rs:157-171 | a fresh detached element with its initial state; nothing else changes; the lists are as right as before |
| Mutator.DocumentMutator.CreateTextNode | packages/strake-dom/src/mutator.rs:153-155 | a fresh detached text node; the lists are as right as before |
| Mutator.DocumentMutator.CreateCommentNode | packages/strake-dom/src/mutator.rs:147-151 | a fresh detached comment; the lists are as right as before |
| Mutator.DocumentMutator.DeepCloneNode | packages/strake-dom/src/mutator.rs:173-175 | a fresh detached copy; all existing nodes unchanged; the lists are as right as before; nothing else is created; the focus bits stay with the focused element alone exactly if it is not among the cloned |
| Mutator.DocumentMutator.SetNodeText | packages/strake-dom/src/mutator.rs:211-243 | only a text node with different content changes, with one record; the redraw bit is set exactly if that one is in the document; the lists are as right as before |
| Mutator.DocumentMutator.AppendTextToNode | packages/strake-dom/src/mutator.rs:245-264 | appends to a text node, fails on any other, with exact redraw bit; the lists are as right as before |
| Mutator.DocumentMutator.SetAttribute | packages/strake-dom/src/mutator.rs:285-407 | the one node changes as `AttrEdit` says, `checked` of an input included, elements queue one record and in the document flag a redraw; journal and index stay right, and the lists are as right as before; the focus bits stay with the focused element alone, and hover and press bits and chains as they were |
| Mutator.DocumentMutator.ClearAttribute | packages/strake-dom/src/mutator.rs:435-519 | an attribute that is there goes with one record, one that is not leaves data, records and index alone; the lists are as right as before; the focus bits stay with the focused element alone, and hover and press bits and chains as they were |
| Attributes.WithAttrAgrees | packages/strake-dom/src/mutator.rs:345-407 | setting touches exactly the named attribute, keeps the cached id right and link and disabled state in agreement with the attributes; a built checkbox in the document follows its `checked` |
| Attributes.WithoutAttrAgrees | packages/strake-dom/src/mutator.rs:474-519 | clearing touches no other attribute and takes the named one away exactly unless it is a repeated `checked`; id and states agree as before; then the next repeated value shows |
| Attributes.RecheckedKeeps | packages/strake-dom/src/mutator.rs:1494-1510 | a `checked` that is a boolean sets the bit of a built checkbox to it and is added once more to an input not built; else nothing changes |
| Attributes.AttrEditKeepsLight | packages/strake-dom/src/mutator.rs:285-519 | no attribute edit touches the bits of hover, press and focus |
| Attributes.InitialAgrees | packages/strake-dom/src/node/element.rs:505-530 | a new element's state says whether it is a link, disabled or enabled, and checked, by tag and attributes, and no other bit is set |
| Attributes.EditedIndex | packages/strake-dom/src/mutator.rs:316-326 | an index updated for the one node is exact for the edited arena |
| Attributes.EditedJournal | packages/strake-dom/src/mutator.rs:287-289 | an edit after a full snapshot keeps the journal faithful |
| Mutator.DocumentMutator.ReindexId | packages/strake-dom/src/mutator.rs:316-326 | the node is listed under its new id and no other |
| Mutator.DocumentMutator.DetachNodeNoRecord | packages/strake-dom/src/mutator.rs:615-641 | the subtree leaves the document and its parent with one hook call and no record; references into it are cleared or fall to the heir, a redraw is flagged exactly if it was attached in the document; the selection and the drag are cleared exactly if they name a node of it |
| Mutator.DocumentMutator.RemoveNode | packages/strake-dom/src/mutator.rs:603-613 | the same with one record; lit chains follow the retargeted nodes; lists stay below their owners exactly if none above held the subtree; a selection or drag that names one of the nodes that go is cleared whole, any other stays; the focus bits stay with the focused element alone |
| Mutator.DocumentMutator.CollectSubtreeIds | packages/strake-dom/src/mutator.rs:643-660 | the explicit-stack collection is the subtree |
| Mutator.DocumentMutator.PurgeDerivedPaintRefs | packages/strake-dom/src/mutator.rs:662-686 | the doomed ids leave exactly the lists from the given node to its root |
| Mutator.DocumentMutator.RemoveAndDropNodeWith | packages/strake-dom/src/mutator.rs:692-739 | exactly the subtree is freed and reported once each, its parent's list and the paint lists above are fixed, one record; exact references, flush records and redraw bit; lit chains stay exact; all paint lists are clean exactly if none held a stray; a selection or drag that names one of the nodes that go is cleared whole, any other stays; the focus bits stay with the focused element alone |
| Mutator.DocumentMutator.RemoveAndDropAllChildren | packages/strake-dom/src/mutator.rs:741-783 | exactly what is below the node is freed, one record for all children, one call each; exact references, flush records and redraw bit; lit chains stay exact; all paint lists are clean exactly if none held a stray; a selection or drag that names one of the nodes that go is cleared whole, any other stays; the focus bits stay with the focused element alone |
| Mutator.DocumentMutator.RemoveNodeIfUnparentedWith | packages/strake-dom/src/mutator.rs:790-802 | drops a live parentless node with exact references, flush records and paint lists and no record, call or redraw; otherwise does nothing; a selection or drag that names one of the nodes that go is cleared whole, any other stays; the focus bits stay with the focused element alone |
| Mutator.DocumentMutator.AddChildrenToParent | packages/strake-dom/src/mutator.rs:821-911 | moves the nodes to the insertion point of the old list, detaching them everywhere, with exact records, calls, redraw bit and references, and nothing else of any node changed; the focus bits stay with the focused element alone |
| Mutator.DocumentMutator.AppendChildren | packages/strake-dom/src/mutator.rs:805-809 | placement at the end with exact records; only the moved subtrees change flags or lose references; the lit chains stay exact exactly if `KeepsLights` holds; the lists stay right exactly if `KeepsLists` holds; the focus bits stay with the focused element alone |
| Mutator.DocumentMutator.InsertNodesBefore | packages/strake-dom/src/mutator.rs:811-819 | placement at the anchor's index, the rest as for appending |
| Mutator.DocumentMutator.InsertNodesAfter | packages/strake-dom/src/mutator.rs:914-922 | placement after the anchor's index, the rest as for appending |
| Mutator.DocumentMutator.ReparentChildren | packages/strake-dom/src/mutator.rs:924-928 | all children of one node are placed at the end of another's list, the rest as for appending |
| Mutator.DocumentMutator.ReplaceNodeWith | packages/strake-dom/src/mutator.rs:930-933 | placement in the anchor's stead with exact records; nothing outside the moved subtrees and the anchor's changes but links; the lit chains stay exact exactly if `ReplacesLights` holds; the lists stay right exactly if `KeepsLists` holds; the focus bits stay with the focused element alone |
| Mutator.DocumentMutator.DetachAll | packages/strake-dom/src/mutator.rs:944-953 | exactly the given nodes leave their lists, one record for each that had a parent; outside their subtrees only links change, and lit chains stay exact; the lists stay right exactly if none of them was held above; the focus bits stay with the focused element alone |
| Mutator.DocumentMutator.ViableSibling | packages/strake-dom/src/mutator.rs:955-973 | the nearest sibling in the given direction outside the excluded nodes, none for a missing or parentless anchor |
| Mutator.DocumentMutator.PrependNodes | packages/strake-dom/src/mutator.rs:975-983 | placement at the start, even if children are among the nodes, with exact records; nothing outside the moved subtrees changes but links; the lit chains stay exact exactly if `EntersUnlit` holds; the lists stay right exactly if `KeepsLists` holds; the focus bits stay with the focused element alone |
| Mutator.DocumentMutator.ReplaceChildren | packages/strake-dom/src/mutator.rs:985-1010 | the nodes become the only children; one record lists all detached ones; nothing outside the moved subtrees changes but links; the lit chains stay exact exactly if `EntersUnlit` holds; the lists stay right exactly if `KeepsLists` holds; the focus bits stay with the focused element alone |
| Mutator.DocumentMutator.DetachChildren | packages/strake-dom/src/mutator.rs:985-1003 | all children leave the list under one removal record; the lists stay right exactly if none of them was held above |
| Mutator.DocumentMutator.BeforeNode | packages/strake-dom/src/mutator.rs:1012-1030 | placement at the anchor's old index, even if the anchor is among the nodes, with exact records; nothing without a parent; the lit chains stay exact exactly if `EntersUnlit` holds; the lists stay right exactly if `KeepsLists` holds; the focus bits stay with the focused element alone |
| Mutator.DocumentMutator.AfterNode | packages/strake-dom/src/mutator.rs:1032-1047 | placement right after the anchor's old index, with exact records; nothing without a parent; the lit chains stay exact exactly if `EntersUnlit` holds; the lists stay right exactly if `KeepsLists` holds; the focus bits stay with the focused element alone |
| Mutator.DocumentMutator.ReplaceWithNodes | packages/strake-dom/src/mutator.rs:1049-1067 | placement in the anchor's stead, even if the anchor is among the nodes, with exact records; nothing without a parent; the lit chains stay exact exactly if `EntersUnlit` holds; the lists stay right exactly if `KeepsLists` holds; the focus bits stay with the focused element alone |
| Templates.UndisturbedCopy | packages/dioxus-native-dom/src/mutation_writer.rs:290-307 | a tree inside an undisturbed part of the arena holds what it held |
| Templates.ClosedStep | packages/dioxus-native-dom/src/mutation_writer.rs:290-307 | such a part stays a union of whole trees with the same roots |
| Templates.PlacedUndisturbed | packages/strake-dom/src/mutator.rs:821-911 | an insertion whose target and nodes are elsewhere disturbs no such part |
| Templates.SubtreeOutside | packages/strake-dom/src/mutator.rs:790-802 | dropping a node outside such a part frees nothing inside it |
| Writer.CreateTemplateNode | packages/dioxus-native-dom/src/mutation_writer.rs:341-378 | a fresh detached tree that holds exactly what the template stands for; nothing older is disturbed, data and element state; nothing else is created |
| Templates.BuildMore | packages/dioxus-native-dom/src/mutation_writer.rs:352-362 | writing the attributes one by one ends in the built element |
| Templates.EditedElement | packages/dioxus-native-dom/src/mutation_writer.rs:341-362 | writing an attribute takes a built element to the element built with it, data and state |
| Writer.SetAttributeInner | packages/dioxus-native-dom/src/mutation_writer.rs:401-413 | absent values and a falsy checked clear the attribute, others set it |
| Writer.RenamedInverse | packages/dioxus-native-dom/src/mutation_writer.rs:85-102 | naming keeps every reverse entry inverted; inverse maps stay inverse exactly if the node had no other name |
| Writer.UnnamedInverse | packages/dioxus-native-dom/src/mutation_writer.rs:118-137 | forgetting dropped nodes keeps the maps in step; exactly second names are left dangling |
| Writer.DioxusState.constructor | packages/dioxus-native-dom/src/mutation_writer.rs:30-39 | the fresh state names the root 0 in inverse maps |
| Writer.DioxusState.AnchorAndNodes | packages/dioxus-native-dom/src/mutation_writer.rs:51-59 | the named anchor, and the top m nodes off the stack in order |
| Writer.DioxusState.ForgetNames | packages/dioxus-native-dom/src/mutation_writer.rs:129-136 | the names of the dropped nodes, and only those the reverse map knows, are cleared |
| Writer.MutationWriter.SetIdMapping | packages/dioxus-native-dom/src/mutation_writer.rs:85-102 | the id names the node, the id's former node loses it, everything else stays |
| Writer.MutationWriter.MapNewNode | packages/dioxus-native-dom/src/mutation_writer.rs:104-108 | a new node is named and pushed; inverse maps stay inverse |
| Writer.MutationWriter.LoadChild | packages/dioxus-native-dom/src/mutation_writer.rs:110-114 | the live node at the path below the top of the stack |
| Writer.MutationWriter.AssignNodeId | packages/dioxus-native-dom/src/mutation_writer.rs:118-141 | the id's detached old node is freed with its whole tree and its names, then the id names the node at the path; the maps stay inverse exactly if that node had no other name; the new maps are the old ones with the dropped names gone and then the one name given |
| Writer.MutationWriter.CreatePlaceholder | packages/dioxus-native-dom/src/mutation_writer.rs:143-147 | a fresh empty comment is named and pushed |
| Writer.MutationWriter.CreateTextNode | packages/dioxus-native-dom/src/mutation_writer.rs:149-153 | a fresh text node is named and pushed |
| Writer.MutationWriter.AppendChildren | packages/dioxus-native-dom/src/mutation_writer.rs:155-159 | the top m nodes are placed at the end of the named node's list; records and everything else of the document are as that operation of the mutator says |
| Writer.MutationWriter.InsertNodesAfter | packages/dioxus-native-dom/src/mutation_writer.rs:161-165 | the top m nodes are placed after the named node; records and everything else of the document are as that operation of the mutator says |
| Writer.MutationWriter.InsertNodesBefore | packages/dioxus-native-dom/src/mutation_writer.rs:167-171 | the top m nodes are placed before the named node; records and everything else of the document are as that operation of the mutator says |
| Writer.MutationWriter.ReplaceNodeWith | packages/dioxus-native-dom/src/mutation_writer.rs:173-177 | the top m nodes take the named node's place; records and everything else of the document are as that operation of the mutator says |
| Writer.MutationWriter.ReplacePlaceholderWithNodes | packages/dioxus-native-dom/src/mutation_writer.rs:179-187 | the top m nodes take the place of the node at the path below the new top |
| Writer.MutationWriter.RemoveNode | packages/dioxus-native-dom/src/mutation_writer.rs:189-193 | the named node leaves its list and stays named |
| Writer.MutationWriter.PushRoot | packages/dioxus-native-dom/src/mutation_writer.rs:195-199 | the named node is pushed |
| Writer.MutationWriter.SetNodeText | packages/dioxus-native-dom/src/mutation_writer.rs:201-205 | the named text node's content is replaced |
| Writer.MutationWriter.SetAttribute | packages/dioxus-native-dom/src/mutation_writer.rs:207-287 | the named node changes as an attribute write says |
| Writer.MutationWriter.LoadTemplate | packages/dioxus-native-dom/src/mutation_writer.rs:290-307 | a fresh detached tree holding exactly what the template's root stands for, data and element state, whether or not it was cached; a cached load changes no existing node |
| Writer.CachedStep | packages/dioxus-native-dom/src/mutation_writer.rs:290-307 | an operation that disturbs no cached tree keeps every cached root detached and holding its template |
| ScrollMath.Conserved | packages/strake-dom/src/scrolling.rs:131-196 | on each axis all offset changes along the chain and the remainder add up to the delta |
| ScrollMath.StaysInRange | packages/strake-dom/src/scrolling.rs:156-167 | scrollers that start in range end in range |
| ScrollMath.InnerFirst | packages/strake-dom/src/scrolling.rs:176-192 | a scroller moves on an axis only in the delta's direction and only if every inner one is at its limit |
| ScrollMath.LeftoverMeansLimits | packages/strake-dom/src/scrolling.rs:176-192 | something is left over only if every scroller is at its limit |
| ScrollMath.EaseMonotone | packages/strake-dom/src/scrolling.rs:113-123 | the two-piece easing is monotone on the unit interval, stays in it and fixes 0 and 1 |
| ScrollMath.EaseCubic | packages/strake-dom/src/scrolling.rs:113-123 | the easing passes the middle at the middle, is cubic up to there and the same backwards from the end, which fixes all its values |
| Scrolling.ChainShape | packages/strake-dom/src/scrolling.rs:258-283 | the chain from any target is bounded, ends at the viewport and visits nobody twice |
| Scrolling.RootElementIs | packages/strake-dom/src/scrolling.rs:274-283 | the scroller that stands for the viewport is the first element child of the document |
| Scrolling.AnchorReaches | packages/strake-dom/src/scrolling.rs:258-283 | the chain from a live node holds exactly it and its ancestors short of the root element, one parent after the other, and the viewport |
| Scrolling.ChainedScrollLaw | packages/strake-dom/src/scrolling.rs:131-196 | conservation, range and inner-before-outer for the actual chain of a document; in the user's range for a user's scroll, in the full range for any other and for the viewport |
| Scrolling.CourseOnChain | packages/strake-dom/src/scrolling.rs:131-196 | the course of a scroll is the chain up to the first scroller that animates for the behaviour asked, all of it if none does |
| Scrolling.CourseRight | packages/strake-dom/src/scrolling.rs:131-196 | the course goes along those scrollers, the first only if clamped, up to the first that scrolls smoothly: each when asked to, none for an instant scroll, else those whose style says so |
| Scrolling.ScrollView.Scroll | packages/strake-dom/src/scrolling.rs:131-196 | the scrollers up to the first that animates spread the delta, and what they leave starts its animation; a clamped scroll concerns one scroller; the result is true exactly when an offset changed or is to change; the course is the one of `CourseRight` |
| Scrolling.ScrollView.WriteScrollOffset | packages/strake-dom/src/scrolling.rs:285-349 | the canonical target takes the offset, nothing else moves, true exactly if it differs; a freed node is ignored |
| Scrolling.ScrollView.ScrollChainBy | packages/strake-dom/src/scrolling.rs:405-428 | a user scroll ends any smooth scroll and spreads over exactly the anchor, its ancestors short of the root element and the viewport, in that order |
| Scrolling.ScrollView.ScrollProgrammatically | packages/strake-dom/src/scrolling.rs:554-585 | exactly one scroller moves, clamped, or starts its animation, for every behaviour; a freed node is ignored |
| Scrolling.ScrollView.ResolveScrollAnimation | packages/strake-dom/src/scrolling.rs:747-775 | the frame writes the animation's offset and ends it exactly when progress is complete; nothing happens without one |
| Scrolling.AnimationTowardEnd | packages/strake-dom/src/scrolling.rs:747-773 | for later times the written offset is nearer the end and between start and end; the finishing write is exactly the end |
| Scrolling.ProgressShare | packages/strake-dom/src/scrolling.rs:747-760 | progress is the share of the duration that has passed, between none and all |
| Loading.ResourceHandler.Bytes | packages/strake-dom/src/net.rs:137-146 | a handler given bytes puts exactly one response on the channel |
| Loading.ResourceHandler.Error | packages/strake-dom/src/net.rs:148-154 | a failed handler puts exactly one response on the channel |
| Loading.ResourceHandler.Drop | packages/strake-dom/src/net.rs:157-177 | a dropped handler answers with its request URL exactly if nothing did before |
| Loading.RequestAnswered | packages/strake-dom/src/net.rs:137-177 | an answer moves a request from the provider to the channel, and no request is answered twice or lost |
| Loading.FlightEnded | packages/strake-dom/src/document.rs:1283-1334 | handling an answer leaves all other URLs' flights as they are, and a single flight of its own goes on single or ends, exactly unless a stylesheet's failure takes a pending image's waiting list |
| Loading.FlightStarted | packages/strake-dom/src/mutator.rs:1296-1392 | a new request, for a stylesheet or for an image that is not pending, changes the standing of no flight |
| Loading.OneKindForgets | packages/strake-dom/src/document.rs:1286-1306 | for a URL requested in one way only, the failing case never arises while its flight is single |
| Loading.AnswerTaken | packages/strake-dom/src/document.rs:1258-1276 | taking the oldest answer ends exactly that request |
| Loading.DocumentLoader.LoadImage | packages/strake-dom/src/mutator.rs:1341-1392 | shown from the cache, queued on a pending fetch, or one new fetch; every URL's single flight is as before |
| Loading.DocumentLoader.LoadLinkedStylesheet | packages/strake-dom/src/mutator.rs:1268-1321 | a head stylesheet's request joins the gate; every URL's single flight is as before |
| Loading.DocumentLoader.ProviderDrop | packages/strake-dom/src/net.rs:157-177 | a silent provider still yields exactly one failed response; every URL's single flight is as before |
| Loading.DocumentLoader.ApplyLoadedImage | packages/strake-dom/src/document.rs:1387-1433 | cached, no longer pending, shown by exactly the waiting nodes still live |
| Loading.DocumentLoader.LoadResource | packages/strake-dom/src/document.rs:1283-1334 | a failure clears what waited on the URL, an image is applied, a stylesheet touches no image; a loaded stylesheet is attached to its node, and nothing else attaches one |
| Loading.UrlAnswered | packages/strake-dom/src/document.rs:1258-1334 | a run of answers takes the waiting list of a URL exactly if one of them is an image or a failure of it, and caches the pixels of its last image |
| Loading.QueuedShown | packages/strake-dom/src/document.rs:1387-1433 | live nodes waiting for a URL show the image that answers it, or a later one of the run |
| Loading.ShownKept | packages/strake-dom/src/document.rs:1387-1433 | a shown image gives way only to one of the run the node waited for |
| Loading.AttachedMore | packages/strake-dom/src/document.rs:1311-1313 | after any answers each node has the stylesheet of the last one that brings it one, or else the one it had |
| Loading.DocumentLoader.HandleMessage | packages/strake-dom/src/document.rs:1258-1334 | the oldest response leaves the gate; an image or a failure takes the waiting list of its URL; all invariants stay; single flights stay single exactly unless a stylesheet's failure takes a pending image's waiting list; a loaded stylesheet is attached to its node, and nothing else attaches one |
| Loading.SharedUrlFetchesTwice | packages/strake-dom/src/document.rs:1286-1306 | a run in which a stylesheet's failure leads to two outstanding fetches of one image |
| Loading.DocumentLoader.HandleMessages | packages/strake-dom/src/document.rs:1258-1268 | afterwards only requests the provider has not answered hold the gate, so it is empty once all handlers are consumed or dropped; every queued stylesheet has reached its node and every queued image the cache and the waiting nodes |
| Loading.DocumentLoader.Resolve | packages/strake-dom/src/resolve.rs:49-63 | rendering proceeds exactly when nothing critical is pending, and then every queued stylesheet has reached its node |
| Iframes.IframeHost.NewIframeGeneration | packages/strake-dom/src/iframe.rs:81-95 | the old controller is aborted, the new one stored, the generation counted; other iframes keep theirs |
| Iframes.IframeHost.StartIframeLoad | packages/strake-dom/src/iframe.rs:124-141 | a new request of the newest generation is awaited; other iframes keep theirs |
| Iframes.IframeHost.LoadIframeSrcdoc | packages/strake-dom/src/iframe.rs:115-122 | attached at once in a new generation that awaits no response; other iframes keep theirs |
| Iframes.IframeHost.NavigateIframe | packages/strake-dom/src/iframe.rs:143-153 | only an in-document iframe starts a new generation; other iframes keep theirs |
| Iframes.IframeHost.RemoveSubDocument | packages/strake-dom/src/document.rs:791-800 | unloading aborts the stored controller |
| Iframes.IframeHost.Unmount | packages/strake-dom/src/mutator.rs:1216-1220 | a node that leaves the document loses its sub-document and, with it, its generation |
| Iframes.IframeHost.ApplyIframeHtml | packages/strake-dom/src/iframe.rs:155-184 | HTML is attached exactly if its request is the awaited one of a live iframe, then it is of the newest generation and attached for the first time; other iframes keep theirs |
| Iframes.NextGeneration | packages/strake-dom/src/iframe.rs:81-95 | a new generation of one iframe leaves the requests of the others current |
| Selection.TextSelection.GetTextSelectionRanges | packages/strake-dom/src/document.rs:2725-2831 | with the endpoints in the nodes they denote, the ranges are the pieces of the one interval between them, whichever comes first: non-empty, in order, within their texts, and spelling that slice of the whole text, where an offset behind its text selects nothing of it; within one node, the range between the offsets; nothing for unresolved or removed endpoints |
| Selection.BlockByIndex | packages/strake-dom/src/document.rs:2672-2686 | an index denotes the anonymous child with exactly so many anonymous siblings before it, and nothing exactly if there are no more than that |
| Selection.TextSelection.ResolveDenotes | packages/strake-dom/src/selection.rs:47-58 | an endpoint resolves to its node or to the anonymous block its index denotes |
| Selection.TextSelection.AnonymousBlockLocation | packages/strake-dom/src/document.rs:2601-2634 | the location of a listed anonymous block is its parent and the index that denotes it, none for other nodes |
| Selection.TextSelection.SetTextSelection | packages/strake-dom/src/document.rs:2576-2599 | both endpoints denote the nodes they were set for, anonymous blocks by index |
| Selection.TextSelection.UpdateSelectionFocus | packages/strake-dom/src/document.rs:2643-2653 | the focus denotes the node it was set for, the anchor stays |
| Selection.SecondBlockSelected | packages/strake-dom/src/document.rs:2576-2831 | a selection set in the second anonymous block of a parent is read back there |
| Selection.TextSelection.RangesAcross | packages/strake-dom/src/document.rs:2798-2828 | the loop over the roots from first to last endpoint gives those pieces |
| Selection.SelectionLaw | packages/strake-dom/src/document.rs:2725-2831 | the ranges are non-empty, within their texts, one per root in order, and spell exactly the slice of the concatenated text |
| Selection.PiecesCover | packages/strake-dom/src/document.rs:2798-2828 | the pieces of any interval spell its slice |
| Selection.PiecesProper | packages/strake-dom/src/document.rs:2798-2828 | the pieces are non-empty, within their texts and in the order of the roots |

## Left out

- Style, layout, text shaping, painting, windowing, accessibility and selector engines: foreign libraries; only the bits, lists and flags named above are kept.
- Damage, restyle hints and dirty bits: performance bookkeeping for the foreign engines.
- Pseudo-elements, anonymous blocks, custom widgets, form ownership, file inputs, button text and `<title>`/`<style>` tracking: they add cases without touching the invariants; layout parents are taken to be DOM parents.
- Namespaces: attributes are keyed by local name; the style namespace and `set_style_property` are not modelled.
- Of built inputs only their kind and the Checked bit are kept: text and slider values are left out, and so are label clicks and the events a press sends.
- Attributes with special effects (`value`, `src`, `style` and others) are stored like any other; the loads they start are modelled in `Loading.dfy` and `Iframes.dfy` on their own state.
- Sorting of stacking lists and text-hit details of hover: not modelled.
- Callbacks of drops are modelled as the returned list of freed ids, in call order; the subtree walks that take and restore child lists are modelled as a walk followed by the visits.
- `set_inner_html` and `dangerous_inner_html`: HTML parsing is opaque, so writer attributes and templates exclude it; event listeners and their counters are left out.
- Fling animation, `scroll_into_view`, fragment navigation, scroll events, sub-documents and text inputs as scrollers: they only feed the modelled scroll primitive or are opaque; floating-point rounding is not modelled.
- Hit testing, clocks and layout extents are inputs of the operations.
- A stylesheet that answers for a freed node, on which the source panics after storing it, is only stored; the order of the stylesheets in the style engine follows from the node ids.
- Font and `@import` requests, SVG, background and mask images: further users of the same handlers.
- Selection.TextSelection.GetTextSelectionRanges: requires in-document endpoints to be inline roots, as its traversal does; the traversal that lists the roots is an input.
- Mutator.DocumentMutator.AppendChildren: requires distinct live nodes, none the document root or an inclusive ancestor of the target, which the source does not check; the same holds of the other insertions, and the plain insertions keep the anchor (or its next sibling) outside the list.
- Writer.MutationWriter.AssignNodeId: requires that no stack entry lies in the tree it drops and that the id does not name the document root, which the source leaves to its caller.
