/** Asynchronous resource loading: handlers that answer exactly once, the
    render-blocking gate and single-flight images (packages/strake-dom/src/net.rs,
    mutator.rs, document.rs). The network provider is an adversary: it chooses
    when, and whether, to call a handler or drop it. */
module Loading {
  import opened Shapes

  type Url = string

  /** Decoded pixels, not interpreted. */
  type Pixels = nat

  /** A parsed stylesheet, not interpreted. */
  type Sheet = nat

  datatype Kind = StylesheetRequest | ImageRequest

  datatype Resource = Css(sheet: Sheet) | Image(pixels: Pixels)

  datatype Answer = Loaded(resource: Resource) | Failed

  datatype Response = Response(requestId: nat, node: Option<NodeId>, url: Url, answer: Answer)

  /** A handler's parser yields its own kind of resource or fails. */
  predicate Fits(k: Kind, a: Answer) {
    a.Loaded? ==> (a.resource.Css? <==> k == StylesheetRequest)
  }

  // ------------------------------------------------------------------ handlers

  class Channel {
    var queue: seq<Response>

    constructor ()
      ensures queue == []
    {
      queue := [];
    }
  }

  class ResourceHandler {
    const requestId: nat
    const node: Option<NodeId>
    const requestUrl: Url
    const kind: Kind
    const tx: Channel
    var responded: bool

    constructor (requestId: nat, node: Option<NodeId>, requestUrl: Url, kind: Kind, tx: Channel)
      ensures this.requestId == requestId && this.node == node && this.requestUrl == requestUrl
      ensures this.kind == kind && this.tx == tx && !responded
    {
      this.requestId, this.node, this.requestUrl, this.kind, this.tx := requestId, node, requestUrl, kind, tx;
      responded := false;
    }

    method Respond(url: Url, answer: Answer)
      modifies `responded, tx
      ensures responded && tx.queue == old(tx.queue) + [Response(requestId, node, url, answer)]
    {
      responded := true;
      tx.queue := tx.queue + [Response(requestId, node, url, answer)];
    }

    /** Explicit transport failure. */
    method Fail(url: Url)
      modifies `responded, tx
      ensures responded && tx.queue == old(tx.queue) + [Response(requestId, node, url, Failed)]
    {
      Respond(url, Failed);
    }

    /** The handler going away answers for it if nothing did. */
    method Drop()
      modifies `responded, tx
      ensures responded
      ensures tx.queue == old(tx.queue) + if old(responded) then [] else [Response(requestId, node, requestUrl, Failed)]
    {
      if !responded {
        responded := true;
        tx.queue := tx.queue + [Response(requestId, node, requestUrl, Failed)];
      }
    }

    /** bytes(): consumes the handler, which is dropped at the end. */
    method Bytes(url: Url, parsed: Answer)
      requires !responded
      modifies `responded, tx
      ensures responded && tx.queue == old(tx.queue) + [Response(requestId, node, url, parsed)]
    {
      Respond(url, parsed);
      Drop();
    }

    /** error(): consumes the handler, which is dropped at the end. */
    method Error(url: Url)
      requires !responded
      modifies `responded, tx
      ensures responded && tx.queue == old(tx.queue) + [Response(requestId, node, url, Failed)]
    {
      Fail(url);
      Drop();
    }
  }

  // ----------------------------------------------------- bookkeeping of requests

  datatype Request = Request(kind: Kind, node: Option<NodeId>, url: Url)

  /** Every request ever made is out with the provider or was answered once. */
  ghost predicate Accounted(requests: map<nat, Request>, out: set<nat>, sent: seq<nat>, next: nat) {
    && (forall i :: i in requests ==> i < next)
    && (forall i :: i in requests <==> i in out || i in sent)
    && (forall i :: i in out ==> i !in sent)
    && (forall j, k :: 0 <= j < k < |sent| ==> sent[j] != sent[k])
  }

  /** The queue holds the answers not yet handled, which are the last ones sent. */
  ghost predicate Queued(requests: map<nat, Request>, sent: seq<nat>, queue: seq<Response>) {
    && |queue| <= |sent|
    && (forall k :: 0 <= k < |queue| ==>
          var r := queue[k];
          && sent[|sent| - |queue| + k] == r.requestId && r.requestId in requests
          && r.url == requests[r.requestId].url && r.node == requests[r.requestId].node
          && Fits(requests[r.requestId].kind, r.answer))
  }

  /** The request is unanswered, or its answer is unhandled. */
  ghost predicate Alive(out: set<nat>, queue: seq<Response>, i: nat) {
    i in out || exists k :: 0 <= k < |queue| && queue[k].requestId == i
  }

  /** Every request that gates rendering is still alive. */
  ghost predicate Gate(requests: map<nat, Request>, critical: set<nat>, out: set<nat>, queue: seq<Response>) {
    forall i :: i in critical ==> i in requests && requests[i].kind == StylesheetRequest && Alive(out, queue, i)
  }

  /** u was not requested both as an image and as a stylesheet. */
  ghost predicate OneKind(requests: map<nat, Request>, u: Url) {
    forall i, j :: i in requests && j in requests && requests[i].url == u && requests[j].url == u ==> requests[i].kind == requests[j].kind
  }

  /** i is an image request for u whose answer has not been handled. */
  ghost predicate ImageAlive(requests: map<nat, Request>, out: set<nat>, queue: seq<Response>, u: Url, i: nat) {
    i in requests && requests[i].kind == ImageRequest && requests[i].url == u && Alive(out, queue, i)
  }

  /** Single flight of u: it is pending exactly if an image request for it is
      alive, and then there is one only. */
  ghost predicate Flight(requests: map<nat, Request>, out: set<nat>, queue: seq<Response>, pending: set<Url>, u: Url) {
    && (u in pending <==> exists i :: ImageAlive(requests, out, queue, u, i))
    && (forall i, j :: ImageAlive(requests, out, queue, u, i) && ImageAlive(requests, out, queue, u, j) ==> i == j)
  }

  /** A new request with an unused id. */
  lemma RequestMade(requests: map<nat, Request>, out: set<nat>, sent: seq<nat>, next: nat, queue: seq<Response>, r: Request)
    requires Accounted(requests, out, sent, next) && Queued(requests, sent, queue)
    ensures Accounted(requests[next := r], out + {next}, sent, next + 1) && Queued(requests[next := r], sent, queue)
    ensures next !in requests && !Alive(out, queue, next)
    ensures forall i :: Alive(out + {next}, queue, i) <==> i == next || Alive(out, queue, i)
  {
    forall k | 0 <= k < |queue| ensures queue[k].requestId != next {
      assert sent[|sent| - |queue| + k] in sent;
    }
  }

  /** An answer moves a request from the provider to the queue. */
  lemma RequestAnswered(requests: map<nat, Request>, out: set<nat>, sent: seq<nat>, next: nat, queue: seq<Response>, r: Response)
    requires Accounted(requests, out, sent, next) && Queued(requests, sent, queue) && r.requestId in out
    requires r.requestId in requests
    requires r.url == requests[r.requestId].url && r.node == requests[r.requestId].node && Fits(requests[r.requestId].kind, r.answer)
    ensures Accounted(requests, out - {r.requestId}, sent + [r.requestId], next) && Queued(requests, sent + [r.requestId], queue + [r])
    ensures forall i :: Alive(out - {r.requestId}, queue + [r], i) <==> Alive(out, queue, i)
  {
    var s := sent + [r.requestId];
    forall i ensures Alive(out - {r.requestId}, queue + [r], i) <==> Alive(out, queue, i) {
      if i == r.requestId {
        assert (queue + [r])[|queue|].requestId == i;
      } else if Alive(out, queue, i) && i !in out {
        var k :| 0 <= k < |queue| && queue[k].requestId == i;
        assert (queue + [r])[k].requestId == i;
      }
    }
  }

  /** Taking the oldest answer ends that request and no other. */
  lemma AnswerTaken(requests: map<nat, Request>, out: set<nat>, sent: seq<nat>, next: nat, queue: seq<Response>)
    requires Accounted(requests, out, sent, next) && Queued(requests, sent, queue) && queue != []
    ensures Queued(requests, sent, queue[1..])
    ensures var i := queue[0].requestId;
            && i in requests && Alive(out, queue, i) && !Alive(out, queue[1..], i)
            && forall j :: j != i ==> (Alive(out, queue[1..], j) <==> Alive(out, queue, j))
    ensures queue[0].url == requests[queue[0].requestId].url && Fits(requests[queue[0].requestId].kind, queue[0].answer)
  {
    var i, at := queue[0].requestId, |sent| - |queue|;
    assert sent[at] == i && i in sent;
    forall k | 0 <= k < |queue| - 1 ensures queue[1..][k].requestId == sent[at + 1 + k] && queue[1..][k].requestId != i {
      assert queue[1..][k] == queue[k + 1];
    }
    forall j | j != i ensures Alive(out, queue[1..], j) <==> Alive(out, queue, j) {
      if Alive(out, queue, j) && j !in out {
        var k :| 0 <= k < |queue| && queue[k].requestId == j;
        assert queue[1..][k - 1].requestId == j;
      }
    }
  }

  /** A flight depends on the live image requests for its URL only. */
  lemma SameFlight(requests: map<nat, Request>, out: set<nat>, queue: seq<Response>, pending: set<Url>, u: Url,
                   requests': map<nat, Request>, out': set<nat>, queue': seq<Response>, pending': set<Url>)
    requires forall i :: ImageAlive(requests', out', queue', u, i) <==> ImageAlive(requests, out, queue, u, i)
    requires u in pending' <==> u in pending
    ensures Flight(requests', out', queue', pending', u) <==> Flight(requests, out, queue, pending, u)
  {
    hide ImageAlive;
  }

  /** One more image request alive: the flight is single if there was none. */
  lemma OneMore(requests: map<nat, Request>, out: set<nat>, queue: seq<Response>, pending: set<Url>, u: Url,
                requests': map<nat, Request>, out': set<nat>, pending': set<Url>, i: nat)
    requires forall j :: ImageAlive(requests', out', queue, u, j) <==> ImageAlive(requests, out, queue, u, j) || j == i
    requires !ImageAlive(requests, out, queue, u, i) && u !in pending && u in pending'
    ensures Flight(requests', out', queue, pending', u) <==> Flight(requests, out, queue, pending, u)
  {
    hide ImageAlive;
    assert ImageAlive(requests', out', queue, u, i);
    if j :| ImageAlive(requests, out, queue, u, j) {
      assert ImageAlive(requests', out', queue, u, j) && j != i;
    }
  }

  /** A new fetch for a URL that is not pending, or a stylesheet request: no flight
      changes its standing. */
  lemma FlightStarted(requests: map<nat, Request>, out: set<nat>, queue: seq<Response>, pending: set<Url>, i: nat, r: Request, u: Url)
    requires i !in requests && (r.kind == ImageRequest ==> r.url !in pending)
    requires forall j :: Alive(out + {i}, queue, j) <==> j == i || Alive(out, queue, j)
    ensures var pending' := if r.kind == ImageRequest then pending + {r.url} else pending;
            Flight(requests[i := r], out + {i}, queue, pending', u) <==> Flight(requests, out, queue, pending, u)
  {
    hide Alive;
    var pending' := if r.kind == ImageRequest then pending + {r.url} else pending;
    forall j ensures ImageAlive(requests[i := r], out + {i}, queue, u, j) <==>
      ImageAlive(requests, out, queue, u, j) || (j == i && r.kind == ImageRequest && u == r.url) { }
    if r.kind == ImageRequest && u == r.url {
      assert ImageAlive(requests[i := r], out + {i}, queue, u, i);
      OneMore(requests, out, queue, pending, u, requests[i := r], out + {i}, pending', i);
    } else {
      SameFlight(requests, out, queue, pending, u, requests[i := r], out + {i}, queue, pending');
    }
  }

  /** The failing branch: an answer takes the waiting list of a URL although no
      image request for it was answered. */
  ghost predicate Forgets(requests: map<nat, Request>, pending: set<Url>, r: Response) {
    r.answer.Failed? && r.requestId in requests && requests[r.requestId].kind == StylesheetRequest && r.url in pending
  }

  /** Handling an answer concerns the flight of its URL only, and that one goes on
      being single or ends, exactly unless a stylesheet's failure takes a pending
      image's waiting list. */
  lemma FlightEnded(requests: map<nat, Request>, out: set<nat>, queue: seq<Response>, pending: set<Url>, u: Url)
    requires queue != []
    requires var r := queue[0];
             && r.requestId in requests && r.url == requests[r.requestId].url && Fits(requests[r.requestId].kind, r.answer)
             && Alive(out, queue, r.requestId) && !Alive(out, queue[1..], r.requestId)
             && (forall j :: j != r.requestId ==> (Alive(out, queue[1..], j) <==> Alive(out, queue, j)))
    ensures var r := queue[0]; var pending' := if IsCss(r) then pending else pending - {r.url};
            && (u != r.url ==> (Flight(requests, out, queue[1..], pending', u) <==> Flight(requests, out, queue, pending, u)))
            && (Flight(requests, out, queue, pending, u) ==>
                  (Flight(requests, out, queue[1..], pending', u) <==> !(u == r.url && Forgets(requests, pending, r))))
  {
    hide Alive;
    var r := queue[0];
    var pending' := if IsCss(r) then pending else pending - {r.url};
    forall j ensures ImageAlive(requests, out, queue[1..], u, j) <==> ImageAlive(requests, out, queue, u, j) && j != r.requestId { }
    if u != r.url || IsCss(r) {
      SameFlight(requests, out, queue, pending, u, requests, out, queue[1..], pending');
    } else if Flight(requests, out, queue, pending, u) && requests[r.requestId].kind == ImageRequest {
      assert ImageAlive(requests, out, queue, u, r.requestId);
    }
  }

  /** Of a URL asked for in one way only, no waiting list is taken too early. */
  lemma OneKindForgets(requests: map<nat, Request>, out: set<nat>, queue: seq<Response>, pending: set<Url>, r: Response)
    requires OneKind(requests, r.url) && Flight(requests, out, queue, pending, r.url) && r.requestId in requests && requests[r.requestId].url == r.url
    ensures !Forgets(requests, pending, r)
  {
    hide Alive;
    if r.url in pending {
      var i :| ImageAlive(requests, out, queue, r.url, i);
    }
  }

  /** The gate after one more or one fewer request. */
  lemma GateKept(requests: map<nat, Request>, critical: set<nat>, out: set<nat>, queue: seq<Response>,
                 requests': map<nat, Request>, critical': set<nat>, out': set<nat>, queue': seq<Response>)
    requires Gate(requests, critical, out, queue)
    requires forall i :: i in critical' ==>
      && (i in critical || (i in requests' && requests'[i].kind == StylesheetRequest && Alive(out', queue', i)))
      && (i in critical ==> (Alive(out, queue, i) ==> Alive(out', queue', i)))
    requires forall i :: i in requests ==> i in requests' && requests'[i] == requests[i]
    ensures Gate(requests', critical', out', queue')
  {
    hide Alive;
  }

  /** Everything known about a new request before it is made. */
  lemma AskedKeeps(requests: map<nat, Request>, out: set<nat>, queue: seq<Response>, critical: set<nat>, pending: set<Url>, i: nat, r: Request)
    requires Gate(requests, critical, out, queue) && i !in requests && (r.kind == ImageRequest ==> r.url !in pending)
    requires forall j :: Alive(out + {i}, queue, j) <==> j == i || Alive(out, queue, j)
    ensures var requests', pending' := requests[i := r], if r.kind == ImageRequest then pending + {r.url} else pending;
            && Gate(requests', critical, out + {i}, queue)
            && (forall u :: Flight(requests', out + {i}, queue, pending', u) <==> Flight(requests, out, queue, pending, u))
            && (forall u :: OneKind(requests', u) ==> OneKind(requests, u))
  {
    hide Alive, Gate, Flight;
    GateKept(requests, critical, out, queue, requests[i := r], critical, out + {i}, queue);
    forall u {
      FlightStarted(requests, out, queue, pending, i, r, u);
    }
    forall u | OneKind(requests[i := r], u) ensures OneKind(requests, u) {
      forall j, k | j in requests && k in requests && requests[j].url == u && requests[k].url == u ensures requests[j].kind == requests[k].kind {
        assert requests[i := r][j] == requests[j] && requests[i := r][k] == requests[k];
      }
    }
  }

  predicate IsCss(r: Response) {
    r.answer.Loaded? && r.answer.resource.Css?
  }

  predicate IsImage(r: Response) {
    r.answer.Loaded? && r.answer.resource.Image?
  }

  /** A loaded stylesheet leaves the waiting lists alone; an image or any failure
      takes that of its URL. */
  function Unlisted<T>(m: map<Url, T>, r: Response): map<Url, T> {
    if IsCss(r) then m else m - {r.url}
  }

  /** Everything known about handling the oldest answer before it is taken. */
  lemma HandledKeeps(requests: map<nat, Request>, out: set<nat>, sent: seq<nat>, next: nat, queue: seq<Response>, critical: set<nat>,
                     pending: map<Url, seq<NodeId>>, cached: set<Url>)
    requires Accounted(requests, out, sent, next) && Queued(requests, sent, queue) && queue != []
    requires Gate(requests, critical, out, queue) && pending.Keys !! cached
    ensures var r := queue[0];
            && Queued(requests, sent, queue[1..]) && Gate(requests, critical - {r.requestId}, out, queue[1..])
            && Unlisted(pending, r).Keys !! (if IsImage(r) then cached + {r.url} else cached)
            && (forall u :: u != r.url ==>
                  (Flight(requests, out, queue[1..], Unlisted(pending, r).Keys, u) <==> Flight(requests, out, queue, pending.Keys, u)))
            && (forall u :: Flight(requests, out, queue, pending.Keys, u) ==>
                  (Flight(requests, out, queue[1..], Unlisted(pending, r).Keys, u) <==> !(u == r.url && Forgets(requests, pending.Keys, r))))
            && (forall u :: OneKind(requests, u) && Flight(requests, out, queue, pending.Keys, u) ==>
                  Flight(requests, out, queue[1..], Unlisted(pending, r).Keys, u))
  {
    hide Accounted, Alive, Gate, Flight, OneKind, Forgets;
    var r := queue[0];
    AnswerTaken(requests, out, sent, next, queue);
    GateKept(requests, critical, out, queue, requests, critical - {r.requestId}, out, queue[1..]);
    assert Unlisted(pending, r).Keys == if IsCss(r) then pending.Keys else pending.Keys - {r.url};
    forall u {
      FlightEnded(requests, out, queue, pending.Keys, u);
    }
    if OneKind(requests, r.url) && Flight(requests, out, queue, pending.Keys, r.url) {
      OneKindForgets(requests, out, queue, pending.Keys, r);
    }
  }

  // ------------------------------------------------ what a run of answers leaves

  /** A stylesheet for n. */
  predicate Brings(r: Response, n: NodeId) {
    r.answer.Loaded? && r.answer.resource.Css? && r.node == Some(n)
  }

  /** Every node has the stylesheet of the last answer that brings it one, or else
      the one it had. */
  ghost predicate Attached(before: map<NodeId, Sheet>, queue: seq<Response>, after: map<NodeId, Sheet>) {
    forall n :: AttachedTo(n, Lookup(before, n), queue, Lookup(after, n))
  }

  ghost predicate AttachedTo(n: NodeId, before: Option<Sheet>, queue: seq<Response>, after: Option<Sheet>) {
    || (after == before && forall k :: 0 <= k < |queue| ==> !Brings(queue[k], n))
    || (exists k :: 0 <= k < |queue| && Brings(queue[k], n) && after == Some(queue[k].answer.resource.sheet)
                    && forall j :: k < j < |queue| ==> !Brings(queue[j], n))
  }

  lemma AttachedNone(before: map<NodeId, Sheet>)
    ensures Attached(before, [], before)
  {
  }

  lemma AttachedMore(before: map<NodeId, Sheet>, queue: seq<Response>, k: nat, now: map<NodeId, Sheet>, after: map<NodeId, Sheet>)
    requires k < |queue| && Attached(before, queue[..k], now)
    requires after == match (queue[k].answer, queue[k].node)
                      case (Loaded(Css(sheet)), Some(n)) => now[n := sheet]
                      case _ => now
    ensures Attached(before, queue[..k + 1], after)
  {
    hide AttachedTo;
    forall n ensures AttachedTo(n, Lookup(before, n), queue[..k + 1], Lookup(after, n)) {
      AttachedMoreTo(n, Lookup(before, n), queue, k, Lookup(now, n), Lookup(after, n));
    }
  }

  lemma AttachedMoreTo(n: NodeId, before: Option<Sheet>, queue: seq<Response>, k: nat, now: Option<Sheet>, after: Option<Sheet>)
    requires k < |queue| && AttachedTo(n, before, queue[..k], now)
    requires after == if Brings(queue[k], n) then Some(queue[k].answer.resource.sheet) else now
    ensures AttachedTo(n, before, queue[..k + 1], after)
  {
    assert forall j :: 0 <= j < k ==> queue[..k + 1][j] == queue[..k][j];
    if Brings(queue[k], n) { assert Brings(queue[..k + 1][k], n); }
  }

  /** The image cache, the nodes waiting for each URL, and what nodes show. */
  datatype Gallery = Gallery(cache: map<Url, Pixels>, pending: map<Url, seq<NodeId>>, images: map<NodeId, Pixels>)

  /** The nodes waiting for u. */
  function Waiting(g: Gallery, u: Url): seq<NodeId> {
    if u in g.pending then g.pending[u] else []
  }

  function Answered(g: Gallery, live: set<NodeId>, r: Response): Gallery {
    match r.answer
    case Failed => g.(pending := g.pending - {r.url})
    case Loaded(Css(_)) => g
    case Loaded(Image(pixels)) =>
      Gallery(g.cache[r.url := pixels], g.pending - {r.url}, g.images + map n | n in Waiting(g, r.url) && n in live :: pixels)
  }

  lemma SameMaps<K, V>(a: map<K, V>, b: map<K, V>)
    requires forall k :: Lookup(a, k) == Lookup(b, k)
    ensures a == b
  {
    forall k | k in a || k in b ensures k in a && k in b && a[k] == b[k] { assert Lookup(a, k) == Lookup(b, k); }
  }

  function AllAnswered(g: Gallery, live: set<NodeId>, queue: seq<Response>): Gallery
    decreases |queue|
  {
    if queue == [] then g else AllAnswered(Answered(g, live, queue[0]), live, queue[1..])
  }

  /** Answers that concern u: they take its waiting list. */
  predicate Takes(r: Response, u: Url) {
    !IsCss(r) && r.url == u
  }

  /** What a run of answers leaves of one URL: nothing changes without an answer that
      takes its list; with one it is no longer pending; and it is cached with the
      pixels of its last image if there is one. */
  lemma {:induction false} UrlAnswered(g: Gallery, live: set<NodeId>, queue: seq<Response>, u: Url)
    ensures var h := AllAnswered(g, live, queue);
            && (u in h.pending <==> u in g.pending && forall k :: 0 <= k < |queue| ==> !Takes(queue[k], u))
            && (u in h.pending ==> h.pending[u] == g.pending[u])
            && (u in h.cache <==> u in g.cache || exists k :: 0 <= k < |queue| && IsImage(queue[k]) && queue[k].url == u)
            && (u in h.cache ==>
                  (u in g.cache && h.cache[u] == g.cache[u] && forall k :: 0 <= k < |queue| ==> !(IsImage(queue[k]) && queue[k].url == u))
                  || LastImage(queue, u, h.cache[u]))
    decreases |queue|
  {
    if queue != [] {
      var g', rest := Answered(g, live, queue[0]), queue[1..];
      UrlAnswered(g', live, rest, u);
      var h := AllAnswered(g', live, rest);
      assert forall k :: 0 < k < |queue| ==> queue[k] == rest[k - 1];
      assert forall k :: 0 <= k < |rest| ==> rest[k] == queue[k + 1];
      if u in h.cache && LastImage(rest, u, h.cache[u]) {
        var k :| 0 <= k < |rest| && ImageOf(rest[k], u, h.cache[u]) && forall j :: k < j < |rest| ==> !(IsImage(rest[j]) && rest[j].url == u);
        assert ImageOf(queue[k + 1], u, h.cache[u]);
      } else if IsImage(queue[0]) && queue[0].url == u {
        assert ImageOf(queue[0], u, queue[0].answer.resource.pixels);
      }
    }
  }

  predicate ImageOf(r: Response, u: Url, pixels: Pixels) {
    IsImage(r) && r.url == u && r.answer.resource.pixels == pixels
  }

  predicate LastImage(queue: seq<Response>, u: Url, pixels: Pixels) {
    exists k :: 0 <= k < |queue| && ImageOf(queue[k], u, pixels) && forall j :: k < j < |queue| ==> !(IsImage(queue[j]) && queue[j].url == u)
  }

  /** The first answer that takes a URL's waiting list, if an image, is shown by the
      live nodes waiting, unless a later image of another URL is. */
  lemma {:induction false} QueuedShown(g: Gallery, live: set<NodeId>, queue: seq<Response>, k: nat, n: NodeId)
    requires k < |queue| && IsImage(queue[k]) && n in Waiting(g, queue[k].url) && n in live
    requires forall j :: 0 <= j < k ==> !Takes(queue[j], queue[k].url)
    ensures var h := AllAnswered(g, live, queue);
            n in h.images && exists j :: k <= j < |queue| && IsImage(queue[j]) && h.images[n] == queue[j].answer.resource.pixels
    decreases |queue|
  {
    var g', rest := Answered(g, live, queue[0]), queue[1..];
    if k == 0 {
      ShownKept(g', live, rest, n);
      var h := AllAnswered(g', live, rest);
      if j :| 0 <= j < |rest| && IsImage(rest[j]) && h.images[n] == rest[j].answer.resource.pixels { assert rest[j] == queue[j + 1]; }
    } else {
      assert forall j :: 0 <= j < |rest| ==> rest[j] == queue[j + 1];
      assert !Takes(queue[0], queue[k].url);
      QueuedShown(g', live, rest, k - 1, n);
      var h := AllAnswered(g', live, rest);
      var j :| k - 1 <= j < |rest| && IsImage(rest[j]) && h.images[n] == rest[j].answer.resource.pixels;
      assert rest[j] == queue[j + 1];
    }
  }

  /** A shown image gives way only to one of the queue, and nothing else is shown. */
  lemma {:induction false} ShownKept(g: Gallery, live: set<NodeId>, queue: seq<Response>, n: NodeId)
    ensures var h := AllAnswered(g, live, queue);
            && (n in g.images ==> n in h.images)
            && (n in h.images ==>
                  (n in g.images && h.images[n] == g.images[n])
                  || (n in live && exists j :: 0 <= j < |queue| && IsImage(queue[j]) && h.images[n] == queue[j].answer.resource.pixels
                                               && n in Waiting(g, queue[j].url)))
    decreases |queue|
  {
    if queue != [] {
      var g', rest := Answered(g, live, queue[0]), queue[1..];
      ShownKept(g', live, rest, n);
      var h := AllAnswered(g', live, rest);
      assert forall u :: n in Waiting(g', u) ==> n in Waiting(g, u);
      if j :| 0 <= j < |rest| && IsImage(rest[j]) && n in h.images && h.images[n] == rest[j].answer.resource.pixels && n in Waiting(g', rest[j].url) {
        assert rest[j] == queue[j + 1];
      }
    }
  }

  // --------------------------------------------------------------- the document

  class DocumentLoader {
    const rx: Channel
    /** The handlers the provider still holds. */
    var outstanding: map<nat, ResourceHandler>
    var nextRequestId: nat
    var pendingCriticalResources: set<nat>
    var imageCache: map<Url, Pixels>
    var pendingImages: map<Url, seq<NodeId>>
    var live: set<NodeId>
    /** The images of <img> elements, and the stylesheets of nodes. */
    var images: map<NodeId, Pixels>
    var stylesheets: map<NodeId, Sheet>
    ghost var requests: map<nat, Request>
    ghost var sent: seq<nat>

    /** The provider's handlers are unanswered and report to this document. */
    ghost predicate Handlers()
      reads this, outstanding.Values
    {
      forall i :: i in outstanding ==>
        var h := outstanding[i];
        && h.requestId == i && !h.responded && h.tx == rx
        && i in requests && requests[i] == Request(h.kind, h.node, h.requestUrl)
    }

    ghost predicate Valid()
      reads this, rx, outstanding.Values
    {
      && Handlers()
      && Accounted(requests, outstanding.Keys, sent, nextRequestId) && Queued(requests, sent, rx.queue)
      && Gate(requests, pendingCriticalResources, outstanding.Keys, rx.queue)
      && pendingImages.Keys !! imageCache.Keys
      && (forall u :: OneKind(requests, u) ==> Flying(u))
    }

    /** Single flight of u. */
    ghost predicate Flying(u: Url)
      reads this, rx
    {
      Flight(requests, outstanding.Keys, rx.queue, pendingImages.Keys, u)
    }

    constructor ()
      ensures Valid() && fresh(rx) && outstanding == map[] && pendingCriticalResources == {}
      ensures imageCache == map[] && pendingImages == map[] && live == {} && requests == map[] && nextRequestId == 0 && rx.queue == []
      ensures images == map[] && stylesheets == map[]
    {
      rx := new Channel();
      outstanding, nextRequestId, pendingCriticalResources := map[], 0, {};
      imageCache, pendingImages, live, images, stylesheets := map[], map[], {}, map[], map[];
      requests, sent := map[], [];
    }

    /** Hands a new handler to the provider. */
    method Fetch(node: Option<NodeId>, url: Url, kind: Kind) returns (i: nat)
      requires Handlers() && Accounted(requests, outstanding.Keys, sent, nextRequestId) && Queued(requests, sent, rx.queue)
      modifies `outstanding, `nextRequestId, `requests
      ensures Handlers() && Accounted(requests, outstanding.Keys, sent, nextRequestId) && Queued(requests, sent, rx.queue)
      ensures i == old(nextRequestId) && nextRequestId == i + 1 && i !in old(requests) && i !in old(outstanding)
      ensures requests == old(requests)[i := Request(kind, node, url)] && outstanding.Keys == old(outstanding.Keys) + {i}
      ensures fresh(outstanding[i])
      ensures forall j :: Alive(outstanding.Keys, rx.queue, j) <==> j == i || Alive(old(outstanding.Keys), rx.queue, j)
    {
      hide Accounted, Queued, Alive;
      i := nextRequestId;
      RequestMade(requests, outstanding.Keys, sent, nextRequestId, rx.queue, Request(kind, node, url));
      FreshId(requests, outstanding.Keys, sent, nextRequestId);
      var handler := new ResourceHandler(i, node, url, kind, rx);
      nextRequestId := nextRequestId + 1;
      outstanding := outstanding[i := handler];
      assert outstanding.Keys == old(outstanding.Keys) + {i};
      requests := requests[i := Request(kind, node, url)];
    }

    /** load_image: from the cache, by queueing on a pending fetch, or by a new one. */
    method LoadImage(node: NodeId, src: Url)
      requires Valid() && node in live
      modifies `outstanding, `nextRequestId, `pendingImages, `images, `requests
      ensures Valid()
      ensures images == if src in imageCache then old(images)[node := imageCache[src]] else old(images)
      ensures pendingImages == if src in imageCache then old(pendingImages)
        else old(pendingImages)[src := (if src in old(pendingImages) then old(pendingImages)[src] else []) + [node]]
      ensures var i := old(nextRequestId);
              if src in imageCache || src in old(pendingImages) then
                nextRequestId == i && requests == old(requests) && outstanding == old(outstanding)
              else
                && nextRequestId == i + 1 && requests == old(requests)[i := Request(ImageRequest, None, src)]
                && outstanding.Keys == old(outstanding.Keys) + {i}
      ensures forall u :: Flying(u) <==> old(Flying(u))
    {
      hide Accounted, Queued, Alive, Gate, Flight, OneKind;
      if src in imageCache {
        images := images[node := imageCache[src]];
        return;
      }
      if src in pendingImages {
        pendingImages := pendingImages[src := pendingImages[src] + [node]];
        assert pendingImages.Keys == old(pendingImages.Keys);
        return;
      }
      StartImageFetch(node, src);
    }

    /** Starts the one fetch of a URL that is neither cached nor pending. */
    method StartImageFetch(node: NodeId, src: Url)
      requires Valid() && src !in imageCache && src !in pendingImages
      modifies `outstanding, `nextRequestId, `pendingImages, `requests
      ensures Valid() && pendingImages == old(pendingImages)[src := [] + [node]] && nextRequestId == old(nextRequestId) + 1
      ensures requests == old(requests)[old(nextRequestId) := Request(ImageRequest, None, src)]
      ensures outstanding.Keys == old(outstanding.Keys) + {old(nextRequestId)}
      ensures forall u :: Flying(u) <==> old(Flying(u))
    {
      hide Accounted, Queued, Alive, Gate, Flight, OneKind;
      pendingImages := pendingImages[src := [] + [node]];
      var i := Fetch(None, src, ImageRequest);
      AskedKeeps(old(requests), old(outstanding.Keys), rx.queue, pendingCriticalResources, old(pendingImages.Keys), i, requests[i]);
      assert pendingImages.Keys == old(pendingImages.Keys) + {src};
    }

    /** load_linked_stylesheet: a sheet linked from the head blocks rendering, unless
        the provider is a no-op. */
    method LoadLinkedStylesheet(node: NodeId, href: Url, isInHead: bool, noop: bool) returns (i: nat)
      requires Valid()
      modifies `outstanding, `nextRequestId, `pendingCriticalResources, `requests
      ensures Valid() && i == old(nextRequestId) && nextRequestId == i + 1
      ensures requests == old(requests)[i := Request(StylesheetRequest, Some(node), href)] && outstanding.Keys == old(outstanding.Keys) + {i}
      ensures fresh(outstanding[i])
      ensures pendingCriticalResources == old(pendingCriticalResources) + if isInHead && !noop then {i} else {}
      ensures forall u :: Flying(u) <==> old(Flying(u))
    {
      hide Accounted, Queued, Alive, Gate, Flight, OneKind;
      i := Fetch(Some(node), href, StylesheetRequest);
      AskedKeeps(old(requests), old(outstanding.Keys), rx.queue, old(pendingCriticalResources), pendingImages.Keys, i, requests[i]);
      if isInHead && !noop {
        pendingCriticalResources := pendingCriticalResources + {i};
      }
      GateKept(old(requests), old(pendingCriticalResources), old(outstanding.Keys), rx.queue,
               requests, pendingCriticalResources, outstanding.Keys, rx.queue);
    }

    // ------------------------------------------------------- the adversary's moves

    /** The provider delivers bytes, which the handler parses. */
    method ProviderBytes(i: nat, parsed: Answer)
      requires Valid() && i in outstanding && Fits(outstanding[i].kind, parsed)
      modifies `outstanding, `sent, rx, outstanding[i]
      ensures Valid() && outstanding == old(outstanding) - {i} && sent == old(sent) + [i]
      ensures rx.queue == old(rx.queue) + [Response(i, requests[i].node, requests[i].url, parsed)]
      ensures forall u :: Flying(u) <==> old(Flying(u))
    {
      hide Accounted, Queued, Alive, Gate, Flight, OneKind;
      var h := outstanding[i];
      Answering(Response(i, h.node, h.requestUrl, parsed));
      outstanding := outstanding - {i};
      h.Bytes(h.requestUrl, parsed);
      sent := sent + [i];
    }

    /** The provider reports a transport failure. */
    method ProviderError(i: nat)
      requires Valid() && i in outstanding
      modifies `outstanding, `sent, rx, outstanding[i]
      ensures Valid() && outstanding == old(outstanding) - {i} && sent == old(sent) + [i]
      ensures rx.queue == old(rx.queue) + [Response(i, requests[i].node, requests[i].url, Failed)]
      ensures forall u :: Flying(u) <==> old(Flying(u))
    {
      hide Accounted, Queued, Alive, Gate, Flight, OneKind;
      var h := outstanding[i];
      Answering(Response(i, h.node, h.requestUrl, Failed));
      outstanding := outstanding - {i};
      h.Error(h.requestUrl);
      sent := sent + [i];
    }

    /** The provider drops the handler without a word. */
    method ProviderDrop(i: nat)
      requires Valid() && i in outstanding
      modifies `outstanding, `sent, rx, outstanding[i]
      ensures Valid() && outstanding == old(outstanding) - {i} && sent == old(sent) + [i]
      ensures rx.queue == old(rx.queue) + [Response(i, requests[i].node, requests[i].url, Failed)]
      ensures forall u :: Flying(u) <==> old(Flying(u))
    {
      hide Accounted, Queued, Alive, Gate, Flight, OneKind;
      var h := outstanding[i];
      Answering(Response(i, h.node, h.requestUrl, Failed));
      outstanding := outstanding - {i};
      h.Drop();
      sent := sent + [i];
    }

    /** The state as it will be once this answer is on the channel. */
    lemma Answering(r: Response)
      requires Valid() && r.requestId in outstanding && r.requestId in requests
      requires r.url == requests[r.requestId].url && r.node == requests[r.requestId].node && Fits(requests[r.requestId].kind, r.answer)
      ensures var i := r.requestId;
              && (outstanding - {i}).Keys == outstanding.Keys - {i}
              && Accounted(requests, outstanding.Keys - {i}, sent + [i], nextRequestId) && Queued(requests, sent + [i], rx.queue + [r])
              && Gate(requests, pendingCriticalResources, outstanding.Keys - {i}, rx.queue + [r])
              && forall u :: Flight(requests, outstanding.Keys - {i}, rx.queue + [r], pendingImages.Keys, u) <==> Flying(u)
    {
      hide Accounted, Queued, Alive, Flight, OneKind;
      RequestAnswered(requests, outstanding.Keys, sent, nextRequestId, rx.queue, r);
      forall u {
        SameFlight(requests, outstanding.Keys, rx.queue, pendingImages.Keys, u,
                   requests, outstanding.Keys - {r.requestId}, rx.queue + [r], pendingImages.Keys);
      }
    }

    // --------------------------------------------------------------- the document

    /** A node is created. */
    method Mount(n: NodeId)
      requires Valid()
      modifies `live
      ensures Valid() && live == old(live) + {n}
    {
      live := live + {n};
    }

    /** A node's slot is freed. */
    method Free(n: NodeId)
      requires Valid()
      modifies `live
      ensures Valid() && live == old(live) - {n}
    {
      live := live - {n};
    }

    /** apply_loaded_image: cached, and shown by every waiting node still there. */
    method ApplyLoadedImage(url: Url, image: Pixels)
      modifies `pendingImages, `imageCache, `images
      ensures pendingImages == old(pendingImages) - {url} && imageCache == old(imageCache)[url := image]
      ensures var waiting := if url in old(pendingImages) then old(pendingImages)[url] else [];
              && (forall n :: n in waiting && n in live ==> n in images && images[n] == image)
              && (forall n :: !(n in waiting && n in live) ==> Lookup(images, n) == Lookup(old(images), n))
    {
      var waiting := if url in pendingImages then pendingImages[url] else [];
      pendingImages := pendingImages - {url};
      imageCache := imageCache[url := image];
      for k := 0 to |waiting|
        invariant forall n :: n in waiting[..k] && n in live ==> n in images && images[n] == image
        invariant forall n :: !(n in waiting[..k] && n in live) ==> Lookup(images, n) == Lookup(old(images), n)
        modifies `images
      {
        if waiting[k] in live {
          images := images[waiting[k] := image];
        }
      }
      assert waiting[..|waiting|] == waiting;
    }

    /** load_resource: what the answer does to images and stylesheets. */
    method LoadResource(r: Response)
      modifies `pendingImages, `imageCache, `images, `stylesheets
      ensures if IsImage(r) then
                var waiting := if r.url in old(pendingImages) then old(pendingImages)[r.url] else [];
                && pendingImages == old(pendingImages) - {r.url}
                && imageCache == old(imageCache)[r.url := r.answer.resource.pixels]
                && (forall n :: n in waiting && n in live ==> n in images && images[n] == r.answer.resource.pixels)
                && (forall n :: !(n in waiting && n in live) ==> Lookup(images, n) == Lookup(old(images), n))
              else
                && imageCache == old(imageCache) && images == old(images)
                && pendingImages == if r.answer.Failed? then old(pendingImages) - {r.url} else old(pendingImages)
      ensures stylesheets == match (r.answer, r.node)
                             case (Loaded(Css(sheet)), Some(n)) => old(stylesheets)[n := sheet]
                             case _ => old(stylesheets)
      ensures Pictures() == Answered(old(Pictures()), live, r)
    {
      ghost var g := Pictures();
      match r.answer {
        case Failed =>
          pendingImages := pendingImages - {r.url};
        case Loaded(Image(pixels)) =>
          ApplyLoadedImage(r.url, pixels);
          assert forall n :: Lookup(images, n) == Lookup(Answered(g, live, r).images, n);
          SameMaps(images, Answered(g, live, r).images);
        case Loaded(Css(sheet)) =>
          if r.node.Some? { stylesheets := stylesheets[r.node.value := sheet]; }
      }
    }

    /** handle_message: the oldest response. A failed image leaves nothing pending
        behind, so that a later load starts over. */
    method HandleMessage()
      requires Valid() && rx.queue != []
      modifies rx, `pendingCriticalResources, `pendingImages, `imageCache, `images, `stylesheets
      ensures Valid() && rx.queue == old(rx.queue)[1..]
      ensures pendingCriticalResources == old(pendingCriticalResources) - {old(rx.queue)[0].requestId}
      ensures var r := old(rx.queue)[0];
              pendingImages == Unlisted(old(pendingImages), r)
      ensures var r := old(rx.queue)[0];
              if IsImage(r) then
                var waiting := if r.url in old(pendingImages) then old(pendingImages)[r.url] else [];
                && imageCache == old(imageCache)[r.url := r.answer.resource.pixels]
                && (forall n :: n in waiting && n in live ==> n in images && images[n] == r.answer.resource.pixels)
                && (forall n :: !(n in waiting && n in live) ==> Lookup(images, n) == Lookup(old(images), n))
              else imageCache == old(imageCache) && images == old(images)
      ensures var r := old(rx.queue)[0];
              stylesheets == match (r.answer, r.node)
                             case (Loaded(Css(sheet)), Some(n)) => old(stylesheets)[n := sheet]
                             case _ => old(stylesheets)
      ensures Pictures() == Answered(old(Pictures()), live, old(rx.queue)[0])
      ensures forall u :: u != old(rx.queue)[0].url ==> (Flying(u) <==> old(Flying(u)))
      ensures forall u :: old(Flying(u)) ==>
        (Flying(u) <==> !(u == old(rx.queue)[0].url && Forgets(requests, old(pendingImages.Keys), old(rx.queue)[0])))
    {
      hide Accounted, Queued, Alive, Gate, Flight, OneKind, Forgets;
      var r := rx.queue[0];
      HandledKeeps(requests, outstanding.Keys, sent, nextRequestId, rx.queue, pendingCriticalResources, pendingImages, imageCache.Keys);
      ghost var cached' := if IsImage(r) then imageCache.Keys + {r.url} else imageCache.Keys;
      rx.queue := rx.queue[1..];
      pendingCriticalResources := pendingCriticalResources - {r.requestId};
      LoadResource(r);
      assert imageCache.Keys == cached';
    }

    /** handle_messages: everything on the channel. Afterwards only requests the
        provider has not answered hold the gate. */
    method HandleMessages()
      requires Valid()
      modifies rx, `pendingCriticalResources, `pendingImages, `imageCache, `images, `stylesheets
      ensures Valid() && rx.queue == [] && pendingCriticalResources <= old(pendingCriticalResources)
      ensures pendingCriticalResources <= outstanding.Keys
      ensures outstanding == map[] ==> pendingCriticalResources == {}
      ensures Attached(old(stylesheets), old(rx.queue), stylesheets)
      ensures Pictures() == AllAnswered(old(Pictures()), live, old(rx.queue))
    {
      hide Attached, DocumentLoader.Valid, Answered;
      ghost var all, k := rx.queue, 0;
      assert all[0..] == all && all[..0] == [];
      AttachedNone(stylesheets);
      while rx.queue != []
        invariant Valid() && pendingCriticalResources <= old(pendingCriticalResources)
        invariant k <= |all| && rx.queue == all[k..] && Attached(old(stylesheets), all[..k], stylesheets)
        invariant AllAnswered(Pictures(), live, rx.queue) == AllAnswered(old(Pictures()), live, all)
        decreases |rx.queue|
      {
        ghost var before := stylesheets;
        assert all[k] == rx.queue[0];
        HandleMessage();
        AttachedMore(old(stylesheets), all, k, before, stylesheets);
        k := k + 1;
      }
      assert all[..k] == all;
      GateEmpty();
    }

    lemma GateEmpty()
      requires Valid() && rx.queue == []
      ensures pendingCriticalResources <= outstanding.Keys
    {
    }

    ghost function Pictures(): Gallery
      reads this
    {
      Gallery(imageCache, pendingImages, images)
    }

    /** resolve() proceeds only once no critical resource is pending. */
    method Resolve() returns (rendered: bool)
      requires Valid()
      modifies rx, `pendingCriticalResources, `pendingImages, `imageCache, `images, `stylesheets
      ensures Valid() && (rendered <==> pendingCriticalResources == {})
      ensures outstanding == map[] ==> rendered
      ensures Attached(old(stylesheets), old(rx.queue), stylesheets)
      ensures Pictures() == AllAnswered(old(Pictures()), live, old(rx.queue))
    {
      HandleMessages();
      return pendingCriticalResources == {};
    }
  }

  /** One URL asked for as an image by node 5 and as a stylesheet by node 6. */
  method AskTwice() returns (loader: DocumentLoader)
    ensures fresh(loader) && fresh(loader.rx) && loader.Valid() && loader.rx.queue == [] && loader.live == {5}
    ensures loader.outstanding.Keys == {0, 1} && fresh(loader.outstanding[1]) && loader.nextRequestId == 2
    ensures loader.requests == map[0 := Request(ImageRequest, None, "u"), 1 := Request(StylesheetRequest, Some(6), "u")]
    ensures "u" in loader.pendingImages && loader.imageCache == map[]
  {
    hide DocumentLoader.Valid;
    loader := new DocumentLoader();
    loader.Mount(5);
    loader.LoadImage(5, "u");
    var sheet := loader.LoadLinkedStylesheet(6, "u", false, false);
  }

  /** The failure of the stylesheet forgets the pending image, and the next load
      fetches it again while the first fetch is out. */
  method SharedUrlFetchesTwice() returns (loader: DocumentLoader)
    ensures fresh(loader) && loader.Valid() && loader.outstanding.Keys == {0, 2}
    ensures loader.requests.Keys == {0, 1, 2} && loader.requests[0] == loader.requests[2] == Request(ImageRequest, None, "u")
    ensures !OneKind(loader.requests, "u") && !loader.Flying("u")
  {
    hide DocumentLoader.Valid, OneKind, Flight;
    loader := AskTwice();
    loader.ProviderError(1);
    loader.HandleMessage();
    loader.LoadImage(5, "u");
    MixedKinds(loader.requests, 0, 1);
    TwoInFlight(loader.requests, loader.outstanding.Keys, loader.rx.queue, loader.pendingImages.Keys, "u", 0, 2);
  }

  lemma TwoInFlight(requests: map<nat, Request>, out: set<nat>, queue: seq<Response>, pending: set<Url>, u: Url, i: nat, j: nat)
    requires i in out && j in out && i != j && i in requests && j in requests
    requires requests[i].kind == requests[j].kind == ImageRequest && requests[i].url == requests[j].url == u
    ensures !Flight(requests, out, queue, pending, u)
  {
    assert ImageAlive(requests, out, queue, u, i) && ImageAlive(requests, out, queue, u, j);
  }

  lemma MixedKinds(requests: map<nat, Request>, i: nat, j: nat)
    requires i in requests && j in requests && requests[i].kind != requests[j].kind && requests[i].url == requests[j].url
    ensures !OneKind(requests, requests[i].url)
  {
  }

  lemma FreshId(requests: map<nat, Request>, out: set<nat>, sent: seq<nat>, next: nat)
    requires Accounted(requests, out, sent, next)
    ensures next !in requests && next !in out
  {
  }
}
