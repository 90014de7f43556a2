/** Changes of state bits and attributes: the snapshot journal, and what such
    changes leave alone. */
module Journaling {
  import opened Shapes
  import opened Nodes
  import opened Moves
  import opened Ancestry

  /** Only element state and snapshot flags differ. */
  ghost predicate Restated(a: Arena, b: Arena) {
    && a.Keys == b.Keys
    && forall x :: x in a ==> b[x] == a[x].(state := b[x].state, hasSnapshot := b[x].hasSnapshot)
  }

  lemma RestatedTree(a: Arena, b: Arena, root: NodeId)
    requires Restated(a, b) && Tree(a, root) && Flags(a, root) && IdCached(a)
    ensures Tree(b, root) && Flags(b, root) && IdCached(b) && Kids(b) == Kids(a) && View(b) == View(a)
  {
    hide Tree, View;
    SameTree(a, b, root);
    SameIds(a, b);
    ViewSame(a, b);
  }

  lemma RestatedKeeps(a: Arena, b: Arena, ix: IdIndex, ui: Ui)
    requires Restated(a, b) && Index(a, ix) && UiLive(a, ui)
    ensures Index(b, ix) && UiLive(b, ui)
  {
    hide Mentions, Entries, AttrOf;
    forall s, x ensures Indexed(ix, s, x) <==> Bears(b, s, x) {
      assert Indexed(ix, s, x) <==> Bears(a, s, x);
    }
  }

  lemma RestatedReplayed(a: Arena, b: Arena, base: map<NodeId, set<NodeId>>, recs: seq<Record>)
    requires Restated(a, b) && Replayed(a, base, recs)
    ensures Replayed(b, base, recs)
  {
    hide Replay;
  }

  // ----------------------------------------------------------- taking snapshots

  /** The snapshot after one more request: state is captured once, attributes
      once, the latter also by upgrading a state-only snapshot. */
  function Snapped(nd: Node, snap: Option<Snapshot>, captureAttrs: bool): Snapshot {
    match snap
    case None => Snapshot(nd.state, if captureAttrs then AttrsOf(nd.data) else None)
    case Some(s) => if captureAttrs && s.attrs == None then s.(attrs := AttrsOf(nd.data)) else s
  }

  /** A snapshot taken before any change stays faithful. */
  lemma SnapshotFaithful(a: Arena, snaps: map<NodeId, Snapshot>, was: map<NodeId, Flushed>, deps: set<StateBit>,
                         x: NodeId, captureAttrs: bool)
    requires Journal(a, snaps, was, deps) && x in a && a[x].styled
    ensures Journal(a[x := a[x].(hasSnapshot := true)],
                    snaps[x := Snapped(a[x], Lookup(snaps, x), captureAttrs)], was, deps)
  {
    var s := Snapped(a[x], Lookup(snaps, x), captureAttrs);
    if x in was {
      assert Faithful(a[x], Lookup(snaps, x), was[x], deps);
      assert Lookup(snaps[x := s], x) == Some(s);
    }
  }

  /** Once attributes and state are captured, the node may change freely. */
  lemma CapturedChange(a: Arena, snaps: map<NodeId, Snapshot>, was: map<NodeId, Flushed>, deps: set<StateBit>,
                       x: NodeId, d: NodeData, st: set<StateBit>)
    requires Journal(a, snaps, was, deps) && x in a
    requires x in was ==> x in snaps && (snaps[x].attrs.Some? || AttrsOf(d) == AttrsOf(a[x].data))
    ensures Journal(a[x := a[x].(data := d, state := st)], snaps, was, deps)
  {
  }

  /** State bits no style rule depends on may change without a snapshot. */
  lemma IndifferentChange(a: Arena, snaps: map<NodeId, Snapshot>, was: map<NodeId, Flushed>, deps: set<StateBit>,
                          x: NodeId, st: set<StateBit>)
    requires Journal(a, snaps, was, deps) && x in a && st * deps == a[x].state * deps
    ensures Journal(a[x := a[x].(state := st)], snaps, was, deps)
  {
  }

  /** The style flush: every snapshot consumed, `styled` nodes have styles, and
      the recorded past is the present of the in-document styled nodes. */
  ghost function FlushedNow(a: Arena): map<NodeId, Flushed> {
    map x | x in a && a[x].inDoc && a[x].styled :: Flushed(a[x].state, AttrsOf(a[x].data))
  }

  lemma FlushJournal(a: Arena, deps: set<StateBit>)
    requires forall x :: x in a ==> !a[x].hasSnapshot
    ensures Journal(a, map[], FlushedNow(a), deps)
  {
  }

  // ------------------------------------------------------------ one bit at a time

  function Flipped(nd: Node, bits: set<StateBit>, on: bool): set<StateBit> {
    if !nd.data.Element? then nd.state else if on then nd.state + bits else nd.state - bits
  }

  /** `bits` set (on) or cleared on the elements of X, nothing else changed. */
  ghost predicate Toggled(a: Arena, X: set<NodeId>, bits: set<StateBit>, on: bool, b: Arena) {
    && Restated(a, b)
    && (forall x :: x in a && x in X ==> b[x].state == Flipped(a[x], bits, on))
    && (forall x :: x in a && x !in X ==> b[x] == a[x])
  }

  lemma ToggledNone(a: Arena, bits: set<StateBit>, on: bool)
    ensures Toggled(a, {}, bits, on, a)
  {
  }

  lemma FlippedTwice(a: Arena, X: set<NodeId>, bits: set<StateBit>, on: bool, b: Arena, x: NodeId)
    requires Toggled(a, X, bits, on, b) && x in a
    ensures Flipped(b[x], bits, on) == Flipped(a[x], bits, on)
  {
  }

  lemma ToggledMore(a: Arena, xs: seq<NodeId>, i: nat, bits: set<StateBit>, on: bool, b: Arena, c: Arena)
    requires i < |xs| && Toggled(a, Members(xs[..i]), bits, on, b) && xs[i] in a
    requires var x := xs[i];
             && c.Keys == b.Keys && (forall y :: y in b && y != x ==> c[y] == b[y])
             && c[x] == b[x].(state := c[x].state, hasSnapshot := c[x].hasSnapshot)
             && c[x].state == Flipped(b[x], bits, on)
    ensures Toggled(a, Members(xs[..i + 1]), bits, on, c)
  {
    hide Flipped, Toggled;
    assert xs[..i + 1] == xs[..i] + [xs[i]];
    assert Members(xs[..i + 1]) == Members(xs[..i]) + {xs[i]};
    ToggledOne(a, Members(xs[..i]), bits, on, b, xs[i], c);
  }

  lemma ToggledOne(a: Arena, X: set<NodeId>, bits: set<StateBit>, on: bool, b: Arena, x: NodeId, c: Arena)
    requires Toggled(a, X, bits, on, b) && x in a && c.Keys == b.Keys && forall y :: y in b && y != x ==> c[y] == b[y]
    requires c[x] == b[x].(state := c[x].state, hasSnapshot := c[x].hasSnapshot) && c[x].state == Flipped(b[x], bits, on)
    ensures Toggled(a, X + {x}, bits, on, c)
  {
    hide Flipped;
    FlippedTwice(a, X, bits, on, b, x);
  }

  // -------------------------------------------------------------- ancestor chains

  /** A root-first chain of parents ending at x. */
  ghost predicate IsChain(a: Arena, xs: seq<NodeId>, x: NodeId) {
    && xs != [] && xs[|xs| - 1] == x
    && (forall i :: 0 <= i < |xs| ==> xs[i] in a)
    && a[xs[0]].parent == None
    && (forall i :: 0 < i < |xs| ==> a[xs[i]].parent == Some(xs[i - 1]))
  }

  /** The chain of x holds exactly the nodes above x. */
  lemma {:induction false} ChainMembers(a: Arena, root: NodeId, xs: seq<NodeId>, x: NodeId, y: NodeId)
    requires Tree(a, root) && IsChain(a, xs, x)
    ensures y in xs <==> Above(a, y, x)
    decreases |xs|
  {
    hide Tree, Above;
    AboveStep(a, root, x, y);
    if |xs| > 1 {
      var p := xs[|xs| - 2];
      assert a[xs[|xs| - 1]].parent == Some(p);
      var ys := xs[..|xs| - 1];
      assert IsChain(a, ys, p);
      ChainMembers(a, root, ys, p, y);
      assert xs == ys + [x];
    } else {
      assert xs == [x];
    }
  }

  /** Two chains that meet at y agree up to y: y is at the same place in both. */
  lemma {:induction false} ChainsMeet(a: Arena, xs: seq<NodeId>, x: NodeId, ys: seq<NodeId>, y: NodeId, i: nat, j: nat)
    requires IsChain(a, xs, x) && IsChain(a, ys, y) && i < |xs| && j < |ys| && xs[i] == ys[j]
    ensures i == j && xs[..i + 1] == ys[..i + 1]
    decreases i + j
  {
    assert i == 0 || a[xs[i]].parent == Some(xs[i - 1]);
    assert j == 0 || a[ys[j]].parent == Some(ys[j - 1]);
    if i > 0 {
      ChainsMeet(a, xs, x, ys, y, i - 1, j - 1);
      assert xs[..i + 1] == xs[..i] + [xs[i]] && ys[..j + 1] == ys[..j] + [ys[j]];
    } else {
      assert xs[..1] == [xs[0]] && ys[..1] == [ys[0]];
    }
  }

  /** k is the length of the common prefix. */
  ghost predicate Common(xs: seq<NodeId>, ys: seq<NodeId>, k: nat) {
    k <= |xs| && k <= |ys| && xs[..k] == ys[..k] && (k < |xs| && k < |ys| ==> xs[k] != ys[k])
  }

  /** Skipping the common prefix of two chains leaves exactly their differences. */
  lemma ChainDifference(a: Arena, xs: seq<NodeId>, x: NodeId, ys: seq<NodeId>, y: NodeId, k: nat)
    requires (xs == [] || IsChain(a, xs, x)) && (ys == [] || IsChain(a, ys, y)) && Common(xs, ys, k)
    ensures forall z :: z in xs[k..] <==> z in xs && z !in ys
    ensures forall z :: z in ys[k..] <==> z in ys && z !in xs
  {
    ChainRest(a, xs, x, ys, y, k);
    ChainRest(a, ys, y, xs, x, k);
  }

  lemma ChainRest(a: Arena, xs: seq<NodeId>, x: NodeId, ys: seq<NodeId>, y: NodeId, k: nat)
    requires (xs == [] || IsChain(a, xs, x)) && (ys == [] || IsChain(a, ys, y)) && Common(xs, ys, k)
    ensures forall z :: z in xs[k..] <==> z in xs && z !in ys
  {
    hide IsChain;
    forall i, j | k <= i < |xs| && 0 <= j < |ys| ensures xs[i] != ys[j] {
      if xs[i] == ys[j] {
        ChainsMeet(a, xs, x, ys, y, i, j);
        SamePlace(xs, ys, i, k);
      }
    }
    forall i | 0 <= i < k ensures xs[i] == ys[i] && xs[i] in ys { assert xs[..k][i] == ys[..k][i]; }
  }

  lemma SamePlace(xs: seq<NodeId>, ys: seq<NodeId>, i: nat, k: nat)
    requires i < |xs| && i < |ys| && xs[..i + 1] == ys[..i + 1] && k <= i
    ensures xs[k] == ys[k]
  {
    assert xs[k] == xs[..i + 1][k];
  }

  /** What clearing the bit in `off` and setting it in `on` makes of one element. */
  lemma ToggledBit(a: Arena, off: set<NodeId>, bit: StateBit, b: Arena, on: set<NodeId>, c: Arena, z: NodeId)
    requires Toggled(a, off, {bit}, false, b) && Toggled(b, on, {bit}, true, c) && z in c && c[z].data.Element?
    ensures z in a && a[z].inDoc == c[z].inDoc && a[z].data == c[z].data
    ensures bit in c[z].state <==> z in on || (z !in off && bit in a[z].state)
  {
  }

  // ------------------------------------------------------------ the hover diff

  /** Clearing the old chain's rest and setting the new chain's rest moves the
      light from one chain to the other. */
  lemma ToggledLit(a: Arena, root: NodeId, bit: StateBit, old': Option<NodeId>, new': Option<NodeId>,
                   off: set<NodeId>, b: Arena, on: set<NodeId>, c: Arena)
    requires Tree(a, root) && (old'.Some? ==> old'.value in a) && (new'.Some? ==> new'.value in a)
    requires Toggled(a, off, {bit}, false, b) && Toggled(b, on, {bit}, true, c) && Tree(c, root)
    requires forall z :: z in off <==> OnChain(a, old', z) && !OnChain(a, new', z)
    requires forall z :: z in on <==> OnChain(a, new', z) && !OnChain(a, old', z)
    requires Lit(a, Kids(a), bit, old')
    ensures Lit(c, Kids(c), bit, new')
  {
    hide Tree, Lit, Above, Kids, Flipped, Toggled;
    ToggledChain(a, off, {bit}, false, b);
    ToggledChain(b, on, {bit}, true, c);
    LitMeans(a, root, bit, old');
    LitMeans(c, root, bit, new');
    forall z | z in c && c[z].inDoc && c[z].data.Element? ensures bit in c[z].state <==> OnChain(c, new', z) {
      assert OnChain(a, new', z) == OnChain(b, new', z) == OnChain(c, new', z);
      ToggledBit(a, off, bit, b, on, c, z);
    }
  }

  lemma ToggledChain(a: Arena, X: set<NodeId>, bits: set<StateBit>, on: bool, b: Arena)
    requires Toggled(a, X, bits, on, b)
    ensures Kids(a) == Kids(b) && a.Keys == b.Keys && forall who, x :: OnChain(a, who, x) == OnChain(b, who, x)
  {
    hide Under;
    assert Kids(a) == Kids(b);
  }

  /** Toggling some bits leaves the light of another alone. */
  lemma ToggledOther(a: Arena, S: Shape, X: set<NodeId>, bits: set<StateBit>, on: bool, b: Arena, other: StateBit, who: Option<NodeId>)
    requires Toggled(a, X, bits, on, b) && other !in bits && Lit(a, S, other, who)
    ensures Lit(b, S, other, who)
  {
    hide Under, RankOK;
  }

  lemma TogglesCompose(a: Arena, X: set<NodeId>, bits: set<StateBit>, on: bool, b: Arena, Y: set<NodeId>, on': bool, c: Arena)
    requires Toggled(a, X, bits, on, b) && Toggled(b, Y, bits, on', c)
    ensures Restated(a, c) && forall x :: x in a && x !in X && x !in Y ==> c[x] == a[x]
    ensures OtherBits(a, bits, c)
  {
    TogglesOther(a, X, bits, on, b);
    TogglesOther(b, Y, bits, on', c);
  }

  /** Only those bits have changed anywhere. */
  ghost predicate OtherBits(a: Arena, bits: set<StateBit>, b: Arena) {
    forall x, other :: x in a && x in b && other !in bits ==> (other in b[x].state <==> other in a[x].state)
  }

  lemma TogglesOther(a: Arena, X: set<NodeId>, bits: set<StateBit>, on: bool, b: Arena)
    requires Toggled(a, X, bits, on, b)
    ensures OtherBits(a, bits, b) && Restated(a, b)
  {
    forall x, other | x in a && other !in bits ensures other in b[x].state <==> other in a[x].state { }
  }

  lemma OtherBitsSelf(a: Arena, bits: set<StateBit>)
    ensures OtherBits(a, bits, a)
  {
  }

  lemma OtherBitsTwice(a: Arena, bits: set<StateBit>, b: Arena, c: Arena)
    requires OtherBits(a, bits, b) && OtherBits(b, bits, c) && Restated(a, b) && Restated(b, c)
    ensures OtherBits(a, bits, c)
  {
  }

  /** Changes of state and snapshots keep everything that does not speak of them. */
  lemma RestatedAll(a: Arena, b: Arena, root: NodeId, ix: IdIndex, ui: Ui, base: map<NodeId, set<NodeId>>,
                    recs: seq<Record>, calls: seq<Record>)
    requires Restated(a, b) && Tree(a, root) && Flags(a, root) && IdCached(a) && Index(a, ix) && UiLive(a, ui)
    requires Replayed(a, base, recs) && Replayed(a, base, calls)
    ensures Tree(b, root) && Flags(b, root) && IdCached(b) && Index(b, ix) && UiLive(b, ui)
    ensures Replayed(b, base, recs) && Replayed(b, base, calls)
    ensures b.Keys == a.Keys && Kids(b) == Kids(a) && View(b) == View(a)
    ensures forall x :: x in a ==> b[x].inDoc == a[x].inDoc && b[x].parent == a[x].parent
  {
    hide Tree, Flags, IdCached, Index, UiLive, Replayed, View;
    RestatedTree(a, b, root);
    RestatedKeeps(a, b, ix, ui);
    RestatedReplayed(a, b, base, recs);
    RestatedReplayed(a, b, base, calls);
  }

  /** xs is the chain of who, or empty if there is nobody. */
  ghost predicate PathOf(a: Arena, who: Option<NodeId>, xs: seq<NodeId>) {
    if who.Some? then IsChain(a, xs, who.value) else xs == []
  }

  lemma PathMembers(a: Arena, root: NodeId, who: Option<NodeId>, xs: seq<NodeId>)
    requires Tree(a, root) && PathOf(a, who, xs)
    ensures forall z :: z in xs <==> OnChain(a, who, z)
    ensures forall z :: z in xs ==> z in a
  {
    hide Tree, Above;
    forall z ensures z in xs <==> OnChain(a, who, z) {
      if who.Some? { ChainMembers(a, root, xs, who.value, z); }
    }
  }

  lemma PathDifference(a: Arena, root: NodeId, from: Option<NodeId>, xs: seq<NodeId>, to: Option<NodeId>, ys: seq<NodeId>, k: nat)
    requires Tree(a, root) && PathOf(a, from, xs) && PathOf(a, to, ys) && Common(xs, ys, k)
    ensures forall z :: z in xs[k..] <==> OnChain(a, from, z) && !OnChain(a, to, z)
    ensures forall z :: z in ys[k..] <==> OnChain(a, to, z) && !OnChain(a, from, z)
    ensures forall z :: z in xs[k..] || z in ys[k..] ==> z in a
  {
    hide Tree, IsChain, OnChain;
    PathMembers(a, root, from, xs);
    PathMembers(a, root, to, ys);
    ChainDifference(a, xs, if from.Some? then from.value else 0, ys, if to.Some? then to.value else 0, k);
  }

  /** Moving the light of `bit` from one node's chain to another's by toggling the
      two rests after the common prefix. */
  lemma LightMoved(a: Arena, root: NodeId, bit: StateBit, from: Option<NodeId>, xs: seq<NodeId>, to: Option<NodeId>, ys: seq<NodeId>,
                   k: nat, b: Arena, c: Arena)
    requires Tree(a, root) && PathOf(a, from, xs) && PathOf(a, to, ys) && Common(xs, ys, k)
    requires (from.Some? ==> from.value in a) && (to.Some? ==> to.value in a)
    requires Toggled(a, Members(xs[k..]), {bit}, false, b) && Toggled(b, Members(ys[k..]), {bit}, true, c) && Tree(c, root)
    ensures Lit(a, Kids(a), bit, from) ==> Lit(c, Kids(c), bit, to)
    ensures forall other, who :: other != bit && Lit(a, Kids(a), other, who) ==> Lit(c, Kids(c), other, who)
    ensures Restated(a, c)
    ensures forall x :: x in a && (OnChain(a, from, x) <==> OnChain(a, to, x)) ==> c[x] == a[x]
  {
    hide Tree, Lit, OnChain, Toggled, IsChain, PathOf;
    PathDifference(a, root, from, xs, to, ys, k);
    TogglesCompose(a, Members(xs[k..]), {bit}, false, b, Members(ys[k..]), true, c);
    if Lit(a, Kids(a), bit, from) {
      ToggledLit(a, root, bit, from, to, Members(xs[k..]), b, Members(ys[k..]), c);
    }
    forall other, who | other != bit && Lit(a, Kids(a), other, who) ensures Lit(c, Kids(c), other, who) {
      ToggledOther(a, Kids(a), Members(xs[k..]), {bit}, false, b, other, who);
      ToggledOther(b, Kids(a), Members(ys[k..]), {bit}, true, c, other, who);
      RestatedKids(a, c);
    }
  }

  lemma RestatedKids(a: Arena, b: Arena)
    requires Restated(a, b)
    ensures Kids(b) == Kids(a)
  {
  }

  // ------------------------------------------------------------- climbing a chain

  /** path is the part of x's chain below `current`, the next node of the climb. */
  ghost predicate ChainSoFar(a: Arena, x: NodeId, path: seq<NodeId>, current: Option<NodeId>) {
    && (forall i :: 0 <= i < |path| ==> path[i] in a)
    && (forall i :: 0 < i < |path| ==> a[path[i]].parent == Some(path[i - 1]))
    && (if path == [] then current == Some(x) else path[|path| - 1] == x && a[path[0]].parent == current)
  }

  lemma ChainMore(a: Arena, x: NodeId, path: seq<NodeId>, id: NodeId)
    requires ChainSoFar(a, x, path, Some(id)) && id in a
    ensures ChainSoFar(a, x, [id] + path, a[id].parent)
  {
    var more := [id] + path;
    forall i | 0 < i < |more| ensures a[more[i]].parent == Some(more[i - 1]) {
      assert more[i] == path[i - 1];
      if i > 1 { assert a[path[i - 1]].parent == Some(path[i - 2]); }
    }
  }

  lemma ChainEnd(a: Arena, x: NodeId, path: seq<NodeId>)
    requires ChainSoFar(a, x, path, None)
    ensures IsChain(a, path, x)
  {
  }

  /** One request to change bits of a node, with the snapshot it takes first. */
  lemma ToggledJournal(a: Arena, snaps: map<NodeId, Snapshot>, was: map<NodeId, Flushed>, deps: set<StateBit>,
                       x: NodeId, bits: set<StateBit>, on: bool, b: Arena, snaps': map<NodeId, Snapshot>)
    requires Journal(b, snaps', was, deps) && x in a && x in b && b[x] == a[x].(hasSnapshot := b[x].hasSnapshot)
    requires bits * deps != {} && a[x].styled ==> x in snaps'
    ensures Journal(b[x := b[x].(state := Flipped(a[x], bits, on))], snaps', was, deps)
  {
    if bits * deps != {} {
      assert b[x := b[x].(state := Flipped(a[x], bits, on))] == b[x := b[x].(data := b[x].data, state := Flipped(a[x], bits, on))];
      CapturedChange(b, snaps', was, deps, x, b[x].data, Flipped(a[x], bits, on));
    } else {
      assert forall d :: d in deps ==> d !in bits by {
        assert forall d :: d in bits && d in deps ==> d in bits * deps;
      }
      assert Flipped(a[x], bits, on) * deps == a[x].state * deps;
      IndifferentChange(b, snaps', was, deps, x, Flipped(a[x], bits, on));
    }
  }

  lemma FlushedTree(a: Arena, b: Arena, root: NodeId, ix: IdIndex, ui: Ui)
    requires a.Keys == b.Keys && forall x :: x in a ==> b[x] == a[x].(styled := b[x].styled, hasSnapshot := b[x].hasSnapshot)
    requires Tree(a, root) && Flags(a, root) && IdCached(a) && Index(a, ix) && UiLive(a, ui)
    ensures Tree(b, root) && Flags(b, root) && IdCached(b) && Index(b, ix) && UiLive(b, ui)
    ensures Kids(b) == Kids(a) && View(b) == View(a)
  {
    hide Tree, View, Mentions, Entries, AttrOf;
    SameTree(a, b, root);
    SameIds(a, b);
    ViewSame(a, b);
    forall s, x ensures Indexed(ix, s, x) <==> Bears(b, s, x) {
      assert Indexed(ix, s, x) <==> Bears(a, s, x);
    }
  }
}
