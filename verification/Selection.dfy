/** Text selection across inline roots (packages/strake-dom/src/selection.rs and
    document.rs): the pieces per root against one slice of the whole text. */
module Selection {
  import opened Shapes
  import opened Inserts
  import opened Placement

  type Texts = map<NodeId, string>

  datatype Range = Range(node: NodeId, start: nat, end: nat)

  function TextOf(t: Texts, n: NodeId): string {
    if n in t then t[n] else ""
  }

  /** The concatenated text of some inline roots. */
  function Joined(t: Texts, roots: seq<NodeId>): string {
    if roots == [] then "" else TextOf(t, roots[0]) + Joined(t, roots[1..])
  }

  /** The part of a root's text, which starts at `base`, that lies in [lo, hi). */
  function Piece(t: Texts, n: NodeId, base: nat, lo: nat, hi: nat): seq<Range> {
    var s := if lo < base then base else lo;
    var e := if hi < base + |TextOf(t, n)| then hi else base + |TextOf(t, n)|;
    if s < e then [Range(n, s - base, e - base)] else []
  }

  /** The pieces of all roots: the specification of a selection. */
  function Pieces(t: Texts, roots: seq<NodeId>, base: nat, lo: nat, hi: nat): seq<Range> {
    if roots == [] then []
    else Piece(t, roots[0], base, lo, hi) + Pieces(t, roots[1..], base + |TextOf(t, roots[0])|, lo, hi)
  }

  lemma {:induction false} TextAppend(t: Texts, u: seq<NodeId>, v: seq<NodeId>)
    ensures Joined(t, u + v) == Joined(t, u) + Joined(t, v)
  {
    if u == [] {
      assert u + v == v;
    } else {
      assert (u + v)[1..] == u[1..] + v;
      TextAppend(t, u[1..], v);
    }
  }

  lemma {:induction false} PiecesAppend(t: Texts, u: seq<NodeId>, v: seq<NodeId>, base: nat, lo: nat, hi: nat)
    ensures Pieces(t, u + v, base, lo, hi) == Pieces(t, u, base, lo, hi) + Pieces(t, v, base + |Joined(t, u)|, lo, hi)
  {
    hide Piece, TextOf;
    if u == [] {
      assert u + v == v;
    } else {
      assert (u + v)[1..] == u[1..] + v;
      PiecesAppend(t, u[1..], v, base + |TextOf(t, u[0])|, lo, hi);
    }
  }

  lemma {:induction false} PiecesOutside(t: Texts, roots: seq<NodeId>, base: nat, lo: nat, hi: nat)
    requires hi <= base || base + |Joined(t, roots)| <= lo
    ensures Pieces(t, roots, base, lo, hi) == []
  {
    if roots != [] {
      PiecesOutside(t, roots[1..], base + |TextOf(t, roots[0])|, lo, hi);
    }
  }

  /** The text of some ranges. */
  function Selected(t: Texts, rs: seq<Range>): string {
    if rs == [] then ""
    else
      var r, s := rs[0], TextOf(t, rs[0].node);
      (if r.start <= r.end <= |s| then s[r.start..r.end] else "") + Selected(t, rs[1..])
  }

  function Min(a: int, b: int): int {
    if a < b then a else b
  }

  /** [lo, hi) of the whole text, relative to a part of it that starts at `base`. */
  function Slice(s: string, base: int, lo: int, hi: int): string {
    var from, to := Min(if lo < base then 0 else lo - base, |s|), Min(if hi < base then 0 else hi - base, |s|);
    if from <= to then s[from..to] else ""
  }

  lemma SliceSplit(u: string, v: string, base: nat, lo: nat, hi: nat)
    requires lo <= hi
    ensures Slice(u + v, base, lo, hi) == Slice(u, base, lo, hi) + Slice(v, base + |u|, lo, hi)
  {
    var l, r, w := Slice(u, base, lo, hi), Slice(v, base + |u|, lo, hi), Slice(u + v, base, lo, hi);
    assert |w| == |l| + |r|;
    assert w == l + r;
  }

  /** Together the pieces are exactly the interval of the concatenated text. */
  lemma {:induction false} PiecesCover(t: Texts, roots: seq<NodeId>, base: nat, lo: nat, hi: nat)
    requires lo <= hi
    ensures Selected(t, Pieces(t, roots, base, lo, hi)) == Slice(Joined(t, roots), base, lo, hi)
  {
    hide Piece, Slice, Selected;
    if roots == [] {
      NothingSelected(t, base, lo, hi);
    } else {
      var u := TextOf(t, roots[0]);
      PiecesCover(t, roots[1..], base + |u|, lo, hi);
      SliceSplit(u, Joined(t, roots[1..]), base, lo, hi);
      PieceCover(t, roots[0], base, lo, hi, Pieces(t, roots[1..], base + |u|, lo, hi));
    }
  }

  lemma NothingSelected(t: Texts, base: nat, lo: nat, hi: nat)
    ensures Selected(t, []) == "" && Slice("", base, lo, hi) == ""
  {
  }

  lemma SlicePiece(s: string, base: nat, lo: nat, hi: nat)
    requires lo <= hi
    ensures var from, to := if lo < base then base else lo, if hi < base + |s| then hi else base + |s|;
            Slice(s, base, lo, hi) == if from < to then s[from - base..to - base] else ""
  {
  }

  lemma PieceCover(t: Texts, n: NodeId, base: nat, lo: nat, hi: nat, rs: seq<Range>)
    requires lo <= hi
    ensures Selected(t, Piece(t, n, base, lo, hi) + rs) == Slice(TextOf(t, n), base, lo, hi) + Selected(t, rs)
  {
    hide TextOf, Slice;
    var p := Piece(t, n, base, lo, hi);
    SlicePiece(TextOf(t, n), base, lo, hi);
    if p == [] {
      assert p + rs == rs;
    } else {
      assert (p + rs)[1..] == rs && (p + rs)[0] == p[0];
    }
  }

  /** The ranges belong to different roots, in the order of the roots. */
  predicate InOrder(roots: seq<NodeId>, rs: seq<Range>) {
    if rs == [] then true
    else if roots == [] then false
    else InOrder(roots[1..], if rs[0].node == roots[0] then rs[1..] else rs)
  }

  /** Non-empty and within their texts. */
  predicate Proper(t: Texts, rs: seq<Range>) {
    rs == [] || (rs[0].start < rs[0].end <= |TextOf(t, rs[0].node)| && Proper(t, rs[1..]))
  }

  lemma PieceShape(t: Texts, n: NodeId, base: nat, lo: nat, hi: nat)
    ensures var p := Piece(t, n, base, lo, hi);
            |p| <= 1 && (p != [] ==> p[0].node == n && p[0].start < p[0].end <= |TextOf(t, n)|)
  {
  }

  lemma {:induction false} PiecesProper(t: Texts, roots: seq<NodeId>, base: nat, lo: nat, hi: nat)
    requires NoDup(roots)
    ensures Proper(t, Pieces(t, roots, base, lo, hi)) && InOrder(roots, Pieces(t, roots, base, lo, hi))
    ensures forall k :: 0 <= k < |Pieces(t, roots, base, lo, hi)| ==> Pieces(t, roots, base, lo, hi)[k].node in roots
  {
    hide Piece, TextOf;
    if roots != [] {
      var rs := Pieces(t, roots[1..], base + |TextOf(t, roots[0])|, lo, hi);
      PiecesProper(t, roots[1..], base + |TextOf(t, roots[0])|, lo, hi);
      PieceShape(t, roots[0], base, lo, hi);
      var p := Piece(t, roots[0], base, lo, hi);
      if p == [] {
        assert p + rs == rs;
        assert rs != [] ==> rs[0].node in roots[1..];
      } else {
        assert (p + rs)[0] == p[0] && (p + rs)[1..] == rs;
      }
      forall k | 0 <= k < |p + rs| ensures (p + rs)[k].node in roots {
        if |p| <= k { assert (p + rs)[k] == rs[k - |p|]; }
      }
    }
  }

  // ---------------------------------------------------------------- endpoints

  /** For anonymous blocks the node is the parent, and the index tells which. */
  datatype SelectionEndpoint = SelectionEndpoint(nodeOrParent: Option<NodeId>, offset: nat, siblingIndex: Option<nat>)

  const NOWHERE := SelectionEndpoint(None, 0, None)

  /** Behind its text an endpoint in the first root selects nothing of it ... */
  function FirstOffset(t: Texts, n: NodeId, offset: nat): nat {
    if offset <= |TextOf(t, n)| then offset else |TextOf(t, n)|
  }

  /** ... and so does one in the last. */
  function LastOffset(t: Texts, n: NodeId, offset: nat): nat {
    if offset <= |TextOf(t, n)| then offset else 0
  }

  /** Where an endpoint is in the concatenated text of all inline roots. */
  function PositionOf(t: Texts, roots: seq<NodeId>, n: NodeId, offset: nat): nat {
    |Joined(t, roots[..IndexOf(roots, n)])| + offset
  }

  /** The root with its neighbours: what lies before it and after it. */
  lemma RootAt(t: Texts, roots: seq<NodeId>, i: nat)
    requires i < |roots|
    ensures Joined(t, roots[..i + 1]) == Joined(t, roots[..i]) + TextOf(t, roots[i])
  {
    assert roots[..i + 1] == roots[..i] + [roots[i]];
    TextAppend(t, roots[..i], [roots[i]]);
    assert Joined(t, [roots[i]]) == TextOf(t, roots[i]) + Joined(t, []);
  }

  lemma TextGrows(t: Texts, roots: seq<NodeId>, i: nat, j: nat)
    requires i <= j <= |roots|
    ensures |Joined(t, roots[..i])| <= |Joined(t, roots[..j])|
  {
    assert roots[..j] == roots[..i] + roots[i..j];
    TextAppend(t, roots[..i], roots[i..j]);
  }

  /** Outside the roots from the first to the last endpoint nothing is selected. */
  lemma PiecesBetween(t: Texts, roots: seq<NodeId>, i: nat, j: nat, lo: nat, hi: nat)
    requires i <= j < |roots|
    requires |Joined(t, roots[..i])| <= lo && hi <= |Joined(t, roots[..j + 1])|
    ensures Pieces(t, roots, 0, lo, hi) == Pieces(t, roots[i..j + 1], |Joined(t, roots[..i])|, lo, hi)
  {
    hide Piece, Pieces, Joined;
    var u, v, w := roots[..i], roots[i..j + 1], roots[j + 1..];
    assert roots == u + (v + w) && roots[..j + 1] == u + v;
    TextAppend(t, u, v);
    PiecesAppend(t, u, v + w, 0, lo, hi);
    PiecesAppend(t, v, w, |Joined(t, u)|, lo, hi);
    PiecesOutside(t, u, 0, lo, hi);
    PiecesOutside(t, w, |Joined(t, u)| + |Joined(t, v)|, lo, hi);
  }

  lemma PiecesSnoc(t: Texts, roots: seq<NodeId>, i: nat, k: nat, lo: nat, hi: nat)
    requires i <= k < |roots|
    ensures Pieces(t, roots[i..k + 1], |Joined(t, roots[..i])|, lo, hi) ==
      Pieces(t, roots[i..k], |Joined(t, roots[..i])|, lo, hi) + Piece(t, roots[k], |Joined(t, roots[..k])|, lo, hi)
  {
    hide Piece, Pieces, Joined;
    assert roots[i..k + 1] == roots[i..k] + [roots[k]] && roots[..k] == roots[..i] + roots[i..k];
    TextAppend(t, roots[..i], roots[i..k]);
    PiecesAppend(t, roots[i..k], [roots[k]], |Joined(t, roots[..i])|, lo, hi);
    PiecesOne(t, roots[k], |Joined(t, roots[..k])|, lo, hi);
  }

  lemma PiecesOne(t: Texts, n: NodeId, base: nat, lo: nat, hi: nat)
    ensures Pieces(t, [n], base, lo, hi) == Piece(t, n, base, lo, hi)
  {
    hide Piece;
    assert Pieces(t, [n], base, lo, hi) == Piece(t, n, base, lo, hi) + Pieces(t, [], base + |TextOf(t, n)|, lo, hi);
  }

  // -------------------------------------------------------------- the document

  // ---------------------------------------------------------- anonymous blocks

  /** The anonymous block with the given index among them (filter, then nth). */
  function NthAnonymous(cs: seq<NodeId>, anonymous: set<NodeId>, i: nat): Option<NodeId> {
    if cs == [] then None
    else if cs[0] !in anonymous then NthAnonymous(cs[1..], anonymous, i)
    else if i == 0 then Some(cs[0])
    else NthAnonymous(cs[1..], anonymous, i - 1)
  }

  /** How many of the nodes are anonymous. */
  ghost function Anonymous(cs: seq<NodeId>, anonymous: set<NodeId>): nat {
    if cs == [] then 0
    else Anonymous(cs[..|cs| - 1], anonymous) + if cs[|cs| - 1] in anonymous then 1 else 0
  }

  lemma {:induction false} AnonymousHead(cs: seq<NodeId>, anonymous: set<NodeId>)
    requires cs != []
    ensures Anonymous(cs, anonymous) == Anonymous(cs[1..], anonymous) + if cs[0] in anonymous then 1 else 0
  {
    if |cs| > 1 {
      AnonymousHead(cs[..|cs| - 1], anonymous);
      assert cs[..|cs| - 1][1..] == cs[1..][..|cs| - 2];
    }
  }

  /** b is the k-th child, anonymous, with exactly i anonymous siblings before it. */
  ghost predicate BlockAt(cs: seq<NodeId>, anonymous: set<NodeId>, i: int, k: int, b: NodeId) {
    0 <= k < |cs| && cs[k] == b && b in anonymous && Anonymous(cs[..k], anonymous) == i
  }

  /** A block of the tail is one of the whole. */
  lemma BlockNext(cs: seq<NodeId>, anonymous: set<NodeId>, i: int, k: int, b: NodeId)
    requires cs != [] && 0 <= k
    ensures var own := if cs[0] in anonymous then 1 else 0;
            BlockAt(cs[1..], anonymous, i, k, b) <==> BlockAt(cs, anonymous, i + own, k + 1, b)
  {
    if k + 1 < |cs| {
      AnonymousHead(cs[..k + 1], anonymous);
      assert cs[..k + 1][1..] == cs[1..][..k];
    }
  }

  lemma {:induction false} BlockFound(cs: seq<NodeId>, anonymous: set<NodeId>, i: nat) returns (k: int)
    requires NthAnonymous(cs, anonymous, i).Some?
    ensures BlockAt(cs, anonymous, i, k, NthAnonymous(cs, anonymous, i).value)
    decreases |cs|
  {
    var own := if cs[0] in anonymous then 1 else 0;
    if i < own {
      k := 0;
    } else {
      var l := BlockFound(cs[1..], anonymous, i - own);
      BlockNext(cs, anonymous, i - own, l, NthAnonymous(cs, anonymous, i).value);
      k := l + 1;
    }
  }

  lemma {:induction false} BlockDenoted(cs: seq<NodeId>, anonymous: set<NodeId>, i: nat, k: int, b: NodeId)
    requires BlockAt(cs, anonymous, i, k, b)
    ensures NthAnonymous(cs, anonymous, i) == Some(b)
    decreases |cs|
  {
    if k > 0 {
      var own := if cs[0] in anonymous then 1 else 0;
      AnonymousHead(cs[..k], anonymous);
      BlockNext(cs, anonymous, i - own, k - 1, b);
      BlockDenoted(cs[1..], anonymous, i - own, k - 1, b);
    }
  }

  lemma {:induction false} BlocksEnough(cs: seq<NodeId>, anonymous: set<NodeId>, i: nat)
    ensures NthAnonymous(cs, anonymous, i) == None <==> Anonymous(cs, anonymous) <= i
    decreases |cs|
  {
    if cs != [] {
      AnonymousHead(cs, anonymous);
      if cs[0] !in anonymous { BlocksEnough(cs[1..], anonymous, i); } else if i > 0 { BlocksEnough(cs[1..], anonymous, i - 1); }
    }
  }

  /** An index denotes the anonymous child with so many anonymous siblings before
      it, and nothing exactly if there are no more than that. */
  lemma BlockByIndex(cs: seq<NodeId>, anonymous: set<NodeId>, i: nat)
    ensures forall b: NodeId :: NthAnonymous(cs, anonymous, i) == Some(b) <==> exists k :: BlockAt(cs, anonymous, i, k, b)
    ensures NthAnonymous(cs, anonymous, i) == None <==> Anonymous(cs, anonymous) <= i
  {
    hide BlockAt;
    BlocksEnough(cs, anonymous, i);
    if NthAnonymous(cs, anonymous, i).Some? { var _ := BlockFound(cs, anonymous, i); }
    forall k, b: NodeId | BlockAt(cs, anonymous, i, k, b) ensures NthAnonymous(cs, anonymous, i) == Some(b) {
      BlockDenoted(cs, anonymous, i, k, b);
    }
  }

  /** What an endpoint denotes: its node, or the anonymous child of its parent with
      exactly as many anonymous siblings before it as its index says. */
  ghost predicate DenotedIn(layout: map<NodeId, seq<NodeId>>, anonymous: set<NodeId>, p: SelectionEndpoint, n: NodeId) {
    && p.nodeOrParent.Some?
    && match p.siblingIndex
       case None => n == p.nodeOrParent.value
       case Some(i) => p.nodeOrParent.value in layout && exists k :: BlockAt(layout[p.nodeOrParent.value], anonymous, i, k, n)
  }

  class TextSelection {
    var anchor: SelectionEndpoint
    var focus: SelectionEndpoint
    /** All inline roots in document order, their texts, the nodes in the document,
        and the layout: the children of each box, which nodes are anonymous blocks,
        and the nodes' parents. */
    var inlineRoots: seq<NodeId>
    var texts: Texts
    var inDocument: set<NodeId>
    var layoutChildren: map<NodeId, seq<NodeId>>
    var anonymous: set<NodeId>
    var parents: map<NodeId, NodeId>

    constructor (inlineRoots: seq<NodeId>, texts: Texts, inDocument: set<NodeId>, layoutChildren: map<NodeId, seq<NodeId>>,
                 anonymous: set<NodeId>, parents: map<NodeId, NodeId>)
      ensures anchor == NOWHERE && focus == NOWHERE && this.inlineRoots == inlineRoots && this.texts == texts
      ensures this.inDocument == inDocument && this.layoutChildren == layoutChildren && this.anonymous == anonymous && this.parents == parents
    {
      anchor, focus := NOWHERE, NOWHERE;
      this.inlineRoots, this.texts, this.inDocument := inlineRoots, texts, inDocument;
      this.layoutChildren, this.anonymous, this.parents := layoutChildren, anonymous, parents;
    }

    /** find_anonymous_block_by_index. */
    function FindAnonymousBlockByIndex(parent: NodeId, i: nat): Option<NodeId>
      reads this
    {
      if parent in layoutChildren then NthAnonymous(layoutChildren[parent], anonymous, i) else None
    }

    /** resolve_node_id. */
    function Resolve(p: SelectionEndpoint): Option<NodeId>
      reads this
    {
      match (p.nodeOrParent, p.siblingIndex)
      case (Some(n), None) => Some(n)
      case (Some(parent), Some(i)) => FindAnonymousBlockByIndex(parent, i)
      case (None, _) => None
    }

    ghost predicate Denotes(p: SelectionEndpoint, n: NodeId)
      reads this
    {
      DenotedIn(layoutChildren, anonymous, p, n)
    }

    lemma ResolveDenotes(p: SelectionEndpoint)
      ensures forall n: NodeId :: Resolve(p) == Some(n) <==> Denotes(p, n)
    {
      if p.nodeOrParent.Some? && p.siblingIndex.Some? && p.nodeOrParent.value in layoutChildren {
        BlockByIndex(layoutChildren[p.nodeOrParent.value], anonymous, p.siblingIndex.value);
      }
    }

    /** anonymous_block_location: the parent of an anonymous block and its index
        among the anonymous ones. */
    method AnonymousBlockLocation(n: NodeId) returns (parent: Option<NodeId>, index: Option<nat>)
      ensures parent.Some? && index.Some? <==> Located(n)
      ensures Located(n) ==> forall offset :: Denotes(SelectionEndpoint(parent, offset, index), n)
    {
      if n !in anonymous || n !in parents { return None, None; }
      parent := Some(parents[n]);
      if parents[n] !in layoutChildren { return parent, None; }
      var children := layoutChildren[parents[n]];
      var anonIndex := 0;
      for k := 0 to |children|
        invariant anonIndex == Anonymous(children[..k], anonymous) && n !in children[..k]
      {
        if children[k] == n {
          assert BlockAt(children, anonymous, anonIndex, k, n);
          return parent, Some(anonIndex);
        }
        assert children[..k + 1][..k] == children[..k];
        if children[k] in anonymous {
          anonIndex := anonIndex + 1;
        }
      }
      assert children[..|children|] == children;
      return parent, None;
    }

    /** set_text_selection: the endpoints denote the nodes they were set for, anonymous
        blocks by their parents and indices. */
    method SetTextSelection(anchorNode: NodeId, anchorOffset: nat, focusNode: NodeId, focusOffset: nat)
      modifies `anchor, `focus
      ensures Denotes(anchor, anchorNode) && anchor.offset == anchorOffset
      ensures Denotes(focus, focusNode) && focus.offset == focusOffset
      ensures (anchor.siblingIndex.Some? <==> Located(anchorNode)) && (focus.siblingIndex.Some? <==> Located(focusNode))
    {
      hide DenotedIn;
      var a := EndpointAt(anchorNode, anchorOffset);
      var f := EndpointAt(focusNode, focusOffset);
      anchor, focus := a, f;
    }

    /** update_selection_focus: a drag extends the selection to a node. */
    method UpdateSelectionFocus(n: NodeId, offset: nat)
      modifies `focus
      ensures Denotes(focus, n) && focus.offset == offset && (focus.siblingIndex.Some? <==> Located(n))
    {
      hide DenotedIn;
      var f := EndpointAt(n, offset);
      focus := f;
    }

    /** An anonymous block that its parent's layout lists. */
    ghost predicate Located(n: NodeId)
      reads this
    {
      n in anonymous && n in parents && parents[n] in layoutChildren && n in layoutChildren[parents[n]]
    }

    method EndpointAt(n: NodeId, offset: nat) returns (p: SelectionEndpoint)
      ensures Denotes(p, n) && p.offset == offset && (p.siblingIndex.Some? <==> Located(n))
    {
      hide BlockAt;
      p := SelectionEndpoint(Some(n), offset, None);
      var parent, index := AnonymousBlockLocation(n);
      if parent.Some? && index.Some? {
        p := SelectionEndpoint(parent, offset, index);
      }
    }

    /** It denotes n, an inline root in the document. */
    ghost predicate Lands(p: SelectionEndpoint, n: NodeId)
      reads this
    {
      Denotes(p, n) && n in inDocument && n in inlineRoots
    }

    ghost predicate Inside(p: SelectionEndpoint, n: NodeId)
      reads this
    {
      p.offset <= |TextOf(texts, n)|
    }

    /** The selected interval of the whole text, with the anchor in a and the focus
        in f: from the endpoint that comes first to the other. */
    ghost function Interval(a: NodeId, f: NodeId): (nat, nat)
      reads this
    {
      var i, j := IndexOf(inlineRoots, a), IndexOf(inlineRoots, f);
      if i < j || (i == j && anchor.offset <= focus.offset) then
        (PositionOf(texts, inlineRoots, a, FirstOffset(texts, a, anchor.offset)),
         PositionOf(texts, inlineRoots, f, LastOffset(texts, f, focus.offset)))
      else
        (PositionOf(texts, inlineRoots, f, FirstOffset(texts, f, focus.offset)),
         PositionOf(texts, inlineRoots, a, LastOffset(texts, a, anchor.offset)))
    }

    lemma IntervalSpells(a: NodeId, f: NodeId)
      requires NoDup(inlineRoots) && a in inlineRoots && f in inlineRoots && (a != f || (Inside(anchor, a) && Inside(focus, f)))
      ensures var whole, interval := Joined(texts, inlineRoots), Interval(a, f);
              var ranges := Pieces(texts, inlineRoots, 0, interval.0, interval.1);
              && interval.0 <= interval.1 <= |whole| && Selected(texts, ranges) == whole[interval.0..interval.1]
              && Proper(texts, ranges) && InOrder(inlineRoots, ranges)
      ensures a == f ==>
        var o, u, interval := anchor.offset, focus.offset, Interval(a, f);
        Pieces(texts, inlineRoots, 0, interval.0, interval.1) == if o == u then [] else [Range(a, if o <= u then o else u, if o <= u then u else o)]
    {
      hide Joined, TextOf, IndexOf, Pieces, Selected, Proper, InOrder, NoDup, PositionOf;
      var i, j := IndexOf(inlineRoots, a), IndexOf(inlineRoots, f);
      assert inlineRoots[i] == a && inlineRoots[j] == f;
      if i < j || (i == j && anchor.offset <= focus.offset) {
        SliceSpelled(texts, inlineRoots, a, FirstOffset(texts, a, anchor.offset), f, LastOffset(texts, f, focus.offset));
      } else {
        SliceSpelled(texts, inlineRoots, f, FirstOffset(texts, f, focus.offset), a, LastOffset(texts, a, anchor.offset));
      }
      if a == f {
        if anchor.offset <= focus.offset { OneRoot(texts, inlineRoots, a, anchor.offset, focus.offset); }
        else { OneRoot(texts, inlineRoots, a, focus.offset, anchor.offset); }
      }
    }

    method Clear()
      modifies `anchor, `focus
      ensures anchor == NOWHERE && focus == NOWHERE
    {
      anchor, focus := NOWHERE, NOWHERE;
    }

    method SetFocus(n: NodeId, offset: nat)
      modifies `focus
      ensures focus == SelectionEndpoint(Some(n), offset, None)
    {
      focus := SelectionEndpoint(Some(n), offset, None);
    }

    /** The inline roots from one endpoint's to the other's, in document order. */
    method CollectInlineRootsInRange(a: NodeId, b: NodeId) returns (r: seq<NodeId>)
      requires a in inlineRoots && b in inlineRoots
      ensures var i, j := IndexOf(inlineRoots, a), IndexOf(inlineRoots, b);
              r == if i <= j then inlineRoots[i..j + 1] else inlineRoots[j..i + 1]
    {
      var i, j := IndexOf(inlineRoots, a), IndexOf(inlineRoots, b);
      r := if i <= j then inlineRoots[i..j + 1] else inlineRoots[j..i + 1];
    }

    /** The selected range of every inline root. With both endpoints placed these are
        the pieces of the one interval between them, whichever comes first, and
        spell the text of that interval. */
    method GetTextSelectionRanges() returns (ranges: seq<Range>)
      requires NoDup(inlineRoots)
      requires forall n :: Denotes(anchor, n) || Denotes(focus, n) ==> n in inDocument ==> n in inlineRoots
      ensures forall a: NodeId, f: NodeId :: Lands(anchor, a) && Lands(focus, f) && (a != f || (Inside(anchor, a) && Inside(focus, f))) ==>
        var whole, interval := Joined(texts, inlineRoots), Interval(a, f);
        && ranges == Pieces(texts, inlineRoots, 0, interval.0, interval.1)
        && interval.0 <= interval.1 <= |whole| && Selected(texts, ranges) == whole[interval.0..interval.1]
        && Proper(texts, ranges) && InOrder(inlineRoots, ranges)
      ensures forall a: NodeId :: Lands(anchor, a) && Lands(focus, a) ==>
        var o, u := anchor.offset, focus.offset;
        ranges == if o == u then [] else [Range(a, if o <= u then o else u, if o <= u then u else o)]
      ensures (forall n :: Denotes(anchor, n) ==> n !in inDocument) || (forall n :: Denotes(focus, n) ==> n !in inDocument) ==> ranges == []
    {
      hide Pieces, Joined, TextOf, NoDup, IndexOf, Selected, Proper, InOrder, Denotes, FirstOffset, LastOffset;
      ResolveDenotes(anchor);
      ResolveDenotes(focus);
      ghost var a, f := Resolve(anchor), Resolve(focus);
      if a.Some? && f.Some? && Lands(anchor, a.value) && Lands(focus, f.value)
         && (a != f || (Inside(anchor, a.value) && Inside(focus, f.value))) {
        IntervalSpells(a.value, f.value);
      }
      if Resolve(anchor) == None || Resolve(focus) == None { return []; }
      var anchorNode, focusNode := Resolve(anchor).value, Resolve(focus).value;
      if anchorNode !in inDocument || focusNode !in inDocument { return []; }
      if anchorNode == focusNode {
        var start := if anchor.offset < focus.offset then anchor.offset else focus.offset;
        var end := if anchor.offset < focus.offset then focus.offset else anchor.offset;
        return if start == end then [] else [Range(anchorNode, start, end)];
      }
      var roots := CollectInlineRootsInRange(anchorNode, focusNode);
      var first := roots[0];
      if first == anchorNode {
        ranges := RangesAcross(roots, anchorNode, anchor.offset, focusNode, focus.offset);
      } else {
        ranges := RangesAcross(roots, focusNode, focus.offset, anchorNode, anchor.offset);
      }
    }

    /** The loop over the roots from the first to the last endpoint. */
    method RangesAcross(roots: seq<NodeId>, first: NodeId, firstOffset: nat, last: NodeId, lastOffset: nat) returns (ranges: seq<Range>)
      requires NoDup(inlineRoots) && first in inlineRoots && last in inlineRoots
      requires var i, j := IndexOf(inlineRoots, first), IndexOf(inlineRoots, last); i < j && roots == inlineRoots[i..j + 1]
      ensures var p, q := PositionOf(texts, inlineRoots, first, FirstOffset(texts, first, firstOffset)),
                          PositionOf(texts, inlineRoots, last, LastOffset(texts, last, lastOffset));
              p <= q && ranges == Pieces(texts, inlineRoots, 0, p, q)
    {
      hide Piece, Pieces, Joined, TextOf, NoDup, IndexOf;
      ghost var i, j := IndexOf(inlineRoots, first), IndexOf(inlineRoots, last);
      ghost var fo, la := FirstOffset(texts, first, firstOffset), LastOffset(texts, last, lastOffset);
      ghost var lo, hi := PositionOf(texts, inlineRoots, first, fo), PositionOf(texts, inlineRoots, last, la);
      RangesStart(texts, inlineRoots, i, lo, hi);
      ranges := [];
      for k := 0 to |roots|
        invariant ranges == Pieces(texts, inlineRoots[i..i + k], |Joined(texts, inlineRoots[..i])|, lo, hi)
      {
        var node := roots[k];
        assert node == inlineRoots[i + k];
        RangesStep(texts, inlineRoots, i, j, i + k, fo, la);
        PiecesSnoc(texts, inlineRoots, i, i + k, lo, hi);
        if node in texts {
          var textLen := |texts[node]|;
          assert textLen == |TextOf(texts, node)| by { TextKnown(texts, node); }
          if node == first {
            if firstOffset < textLen {
              ranges := ranges + [Range(node, firstOffset, textLen)];
            }
          } else if node == last {
            if 0 < lastOffset <= textLen {
              ranges := ranges + [Range(node, 0, lastOffset)];
            }
          } else if textLen > 0 {
            ranges := ranges + [Range(node, 0, textLen)];
          }
        }
      }
      RangesEnd(texts, inlineRoots, i, j, fo, la);
    }
  }

  lemma TextKnown(t: Texts, n: NodeId)
    requires n in t
    ensures TextOf(t, n) == t[n]
  {
  }

  lemma RangesStart(t: Texts, roots: seq<NodeId>, i: nat, lo: nat, hi: nat)
    requires i <= |roots|
    ensures Pieces(t, roots[i..i], |Joined(t, roots[..i])|, lo, hi) == []
  {
    assert roots[i..i] == [];
  }

  /** What each root of the loop contributes. */
  lemma RangesStep(t: Texts, roots: seq<NodeId>, i: nat, j: nat, k: nat, fo: nat, lo: nat)
    requires NoDup(roots) && i < j < |roots| && i <= k <= j
    ensures IndexOf(roots, roots[i]) == i && IndexOf(roots, roots[j]) == j && (roots[k] == roots[i] <==> k == i) && (roots[k] == roots[j] <==> k == j)
    ensures fo <= |TextOf(t, roots[i])| && lo <= |TextOf(t, roots[j])| ==>
      var n := |TextOf(t, roots[k])|;
      Piece(t, roots[k], |Joined(t, roots[..k])|, |Joined(t, roots[..i])| + fo, |Joined(t, roots[..j])| + lo) ==
        (if k == i then (if fo < n then [Range(roots[k], fo, n)] else [])
         else if k == j then (if 0 < lo <= n then [Range(roots[k], 0, lo)] else [])
         else if n > 0 then [Range(roots[k], 0, n)] else [])
    ensures roots[k] !in t ==> |TextOf(t, roots[k])| == 0
  {
    hide IndexOf, Joined;
    IndexUnique(roots, i);
    IndexUnique(roots, j);
    RootAt(t, roots, i);
    RootAt(t, roots, k);
    if i < k { TextGrows(t, roots, i + 1, k); }
    if k < j { TextGrows(t, roots, k + 1, j); }
  }

  lemma RangesEnd(t: Texts, roots: seq<NodeId>, i: nat, j: nat, fo: nat, lo: nat)
    requires i < j < |roots| && fo <= |TextOf(t, roots[i])| && lo <= |TextOf(t, roots[j])|
    ensures var p, q := |Joined(t, roots[..i])| + fo, |Joined(t, roots[..j])| + lo;
            p <= q && Pieces(t, roots, 0, p, q) == Pieces(t, roots[i..i + (j + 1 - i)], |Joined(t, roots[..i])|, p, q)
  {
    hide Joined, Pieces, TextOf;
    RootAt(t, roots, i);
    RootAt(t, roots, j);
    TextGrows(t, roots, i + 1, j);
    PiecesBetween(t, roots, i, j, |Joined(t, roots[..i])| + fo, |Joined(t, roots[..j])| + lo);
  }

  /** A selection within one root. */
  lemma OneRoot(t: Texts, roots: seq<NodeId>, n: NodeId, s: nat, e: nat)
    requires n in roots && s <= e <= |TextOf(t, n)|
    ensures Pieces(t, roots, 0, PositionOf(t, roots, n, s), PositionOf(t, roots, n, e)) == if s == e then [] else [Range(n, s, e)]
  {
    hide Joined, TextOf, Pieces;
    var i := IndexOf(roots, n);
    RootAt(t, roots, i);
    PiecesBetween(t, roots, i, i, PositionOf(t, roots, n, s), PositionOf(t, roots, n, e));
    PiecesSnoc(t, roots, i, i, PositionOf(t, roots, n, s), PositionOf(t, roots, n, e));
    RangesStart(t, roots, i, PositionOf(t, roots, n, s), PositionOf(t, roots, n, e));
  }

  lemma PositionInside(t: Texts, roots: seq<NodeId>, n: NodeId, offset: nat)
    requires n in roots && offset <= |TextOf(t, n)|
    ensures PositionOf(t, roots, n, offset) <= |Joined(t, roots)|
  {
    hide Joined, TextOf;
    var i := IndexOf(roots, n);
    RootAt(t, roots, i);
    TextGrows(t, roots, i + 1, |roots|);
    assert roots[..|roots|] == roots;
  }

  lemma SliceSpelled(t: Texts, roots: seq<NodeId>, first: NodeId, fo: nat, last: NodeId, la: nat)
    requires NoDup(roots) && first in roots && last in roots && fo <= |TextOf(t, first)| && la <= |TextOf(t, last)|
    requires IndexOf(roots, first) < IndexOf(roots, last) || (first == last && fo <= la)
    ensures var p, q := PositionOf(t, roots, first, fo), PositionOf(t, roots, last, la);
            var rs := Pieces(t, roots, 0, p, q);
            p <= q <= |Joined(t, roots)| && Selected(t, rs) == Joined(t, roots)[p..q] && Proper(t, rs) && InOrder(roots, rs)
  {
    hide Joined, TextOf, Pieces, Selected, Proper, InOrder;
    if first != last { RangesEnd(t, roots, IndexOf(roots, first), IndexOf(roots, last), fo, la); }
    PositionInside(t, roots, last, la);
    SelectionLaw(t, roots, PositionOf(t, roots, first, fo), PositionOf(t, roots, last, la));
  }

  /** The law of the selection: its pieces are proper and spell exactly the interval
      between the endpoints. */
  lemma SelectionLaw(t: Texts, roots: seq<NodeId>, p: nat, q: nat)
    requires NoDup(roots) && p <= q <= |Joined(t, roots)|
    ensures var rs := Pieces(t, roots, 0, p, q);
            Proper(t, rs) && InOrder(roots, rs) && Selected(t, rs) == Joined(t, roots)[p..q] && (p == q ==> rs == [])
  {
    PiecesProper(t, roots, 0, p, q);
    PiecesCover(t, roots, 0, p, q);
    if p == q { Nothing(t, roots, 0, p); }
  }

  lemma {:induction false} Nothing(t: Texts, roots: seq<NodeId>, base: nat, p: nat)
    ensures Pieces(t, roots, base, p, p) == []
  {
    if roots != [] { Nothing(t, roots[1..], base + |TextOf(t, roots[0])|, p); }
  }

  /** A selection set in the second anonymous block of a parent is read back there. */
  method SecondBlockSelected() returns (ranges: seq<Range>)
    ensures ranges == [Range(11, 2, 5)]
  {
    hide IndexOf, Joined, PositionOf, Pieces, DenotedIn;
    var s := new TextSelection([10, 11], map[10 := "before", 11 := "selected"], {4, 10, 11}, map[4 := [10, 11]], {10, 11},
                               map[10 := 4, 11 := 4]);
    s.SetTextSelection(11, 2, 11, 5);
    s.ResolveDenotes(s.anchor);
    s.ResolveDenotes(s.focus);
    ranges := s.GetTextSelectionRanges();
    assert s.Lands(s.anchor, 11) && s.Lands(s.focus, 11);
  }
}
