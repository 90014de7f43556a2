/** Loading of iframes: generations, abort controllers and late responses
    (packages/strake-dom/src/iframe.rs). */
module Iframes {
  import opened Shapes

  class AbortController {
    var aborted: bool

    constructor ()
      ensures !aborted
    {
      aborted := false;
    }

    method Abort()
      modifies this
      ensures aborted
    {
      aborted := true;
    }
  }

  /** The load state of one iframe: its in-flight HTML request, if any, and the
      controller of everything its current generation fetches. */
  datatype IframeLoad = IframeLoad(requestId: Option<nat>, controller: AbortController)

  datatype Content = Fetched(requestId: nat, html: string) | Srcdoc(html: string)

  /** Which node a request was made for, and in which of its generations. */
  datatype Origin = Origin(node: NodeId, generation: nat)

  /** An in-flight request belongs to its node's newest generation, and its HTML
      has not been attached. */
  ghost predicate Current(loads: map<NodeId, IframeLoad>, generation: map<NodeId, nat>, started: map<nat, Origin>, attached: seq<nat>) {
    forall n :: n in loads && loads[n].requestId.Some? ==>
      var i := loads[n].requestId.value;
      i in started && n in generation && started[i] == Origin(n, generation[n]) && i !in attached
  }

  /** No request's HTML was attached twice, and only HTML of real requests was. */
  ghost predicate AttachedOnce(started: map<nat, Origin>, attached: seq<nat>, next: nat) {
    && (forall i :: i in started ==> i < next)
    && (forall k :: 0 <= k < |attached| ==> attached[k] in started)
    && (forall j, k :: 0 <= j < k < |attached| ==> attached[j] != attached[k])
  }

  /** A new generation of one node leaves the requests of the others current. */
  lemma NextGeneration(loads: map<NodeId, IframeLoad>, generation: map<NodeId, nat>, started: map<nat, Origin>, attached: seq<nat>,
                       n: NodeId, g: nat, load: IframeLoad)
    requires Current(loads, generation, started, attached) && n !in loads
    requires load.requestId.Some? ==>
      load.requestId.value in started && started[load.requestId.value] == Origin(n, g) && load.requestId.value !in attached
    ensures Current(loads[n := load], generation[n := g], started, attached)
  {
  }

  class IframeHost {
    /** The live iframe elements, and the nodes in the document. */
    var iframes: set<NodeId>
    var inDocument: set<NodeId>
    var iframeLoads: map<NodeId, IframeLoad>
    var subDocuments: map<NodeId, Content>
    var nextRequestId: nat
    ghost var controllers: set<AbortController>
    /** The node each controller was created for. */
    ghost var owner: map<AbortController, NodeId>
    ghost var generation: map<NodeId, nat>
    ghost var started: map<nat, Origin>
    ghost var attached: seq<nat>

    /** Every controller ever created is stored for a node or aborted, and the
        stored ones are neither shared nor aborted. */
    ghost predicate Aborts()
      reads this, controllers
    {
      && (forall n :: n in iframeLoads ==>
            var c := iframeLoads[n].controller;
            c in controllers && !c.aborted && c in owner && owner[c] == n)
      && (forall c :: c in controllers && !c.aborted ==>
            c in owner && owner[c] in iframeLoads && iframeLoads[owner[c]].controller == c)
    }

    ghost predicate Valid()
      reads this, controllers
    {
      && Aborts()
      && Current(iframeLoads, generation, started, attached)
      && AttachedOnce(started, attached, nextRequestId)
    }

    ghost function Generation(n: NodeId): nat
      reads this
    {
      if n in generation then generation[n] else 0
    }

    constructor ()
      ensures Valid() && iframeLoads == map[] && subDocuments == map[] && attached == []
    {
      iframes, inDocument, iframeLoads, subDocuments, nextRequestId := {}, {}, map[], map[], 0;
      controllers, owner, generation, started, attached := {}, map[], map[], map[], [];
    }

    /** A node enters the document; `iframe` says whether it is an iframe element. */
    method Mount(n: NodeId, iframe: bool)
      requires Valid()
      modifies `iframes, `inDocument
      ensures Valid() && inDocument == old(inDocument) + {n} && iframes == old(iframes) + if iframe then {n} else {}
    {
      inDocument := inDocument + {n};
      if iframe { iframes := iframes + {n}; }
    }

    /** A node leaves the document; a sub-document it shows is unloaded. */
    method Unmount(n: NodeId)
      requires Valid()
      modifies `inDocument, `iframeLoads, `subDocuments, controllers
      ensures Valid() && inDocument == old(inDocument) - {n} && subDocuments == old(subDocuments) - {n}
      ensures iframeLoads == if n in old(subDocuments) then old(iframeLoads) - {n} else old(iframeLoads)
      ensures n in old(subDocuments) && n in old(iframeLoads) ==> old(iframeLoads)[n].controller.aborted
      ensures forall c :: c in old(controllers) && !(n in old(iframeLoads) && c == old(iframeLoads)[n].controller) ==> c.aborted == old(c.aborted)
      ensures n !in old(subDocuments) ==> forall c :: c in old(controllers) ==> c.aborted == old(c.aborted)
    {
      inDocument := inDocument - {n};
      if n in subDocuments {
        RemoveSubDocument(n);
      } else {
        assert subDocuments - {n} == subDocuments;
      }
    }

    /** The slot of a node outside the document is freed; a request made for it may
        still be answered. */
    method Free(n: NodeId)
      requires Valid() && n !in inDocument && n !in subDocuments
      modifies `iframes
      ensures Valid() && iframes == old(iframes) - {n}
    {
      iframes := iframes - {n};
    }

    /** Ends the node's generation, if it has one: its controller is aborted. */
    method EndGeneration(n: NodeId)
      requires Valid()
      modifies `iframeLoads, controllers
      ensures Valid() && iframeLoads == old(iframeLoads) - {n}
      ensures n in old(iframeLoads) ==> old(iframeLoads)[n].controller.aborted
      ensures forall c :: c in controllers && old(c.aborted) ==> c.aborted
      ensures forall c :: c in old(controllers) && !(n in old(iframeLoads) && c == old(iframeLoads)[n].controller) ==> c.aborted == old(c.aborted)
    {
      hide AttachedOnce;
      if n in iframeLoads {
        var load := iframeLoads[n];
        iframeLoads := iframeLoads - {n};
        load.controller.Abort();
      } else {
        assert iframeLoads - {n} == iframeLoads;
      }
    }

    /** new_iframe_generation: the old generation is aborted, a new one begins. */
    method NewIframeGeneration(n: NodeId, requestId: Option<nat>)
      requires Valid()
      requires requestId.Some? ==>
        requestId.value in started && started[requestId.value] == Origin(n, Generation(n) + 1) && requestId.value !in attached
      modifies `iframeLoads, `controllers, `owner, `generation, controllers
      ensures Valid() && Generation(n) == old(Generation(n)) + 1
      ensures n in iframeLoads && iframeLoads[n].requestId == requestId && fresh(iframeLoads[n].controller)
      ensures iframeLoads - {n} == old(iframeLoads) - {n}
      ensures n in old(iframeLoads) ==> old(iframeLoads)[n].controller.aborted
      ensures controllers == old(controllers) + {iframeLoads[n].controller}
      ensures forall c :: c in old(controllers) && !(n in old(iframeLoads) && c == old(iframeLoads)[n].controller) ==> c.aborted == old(c.aborted)
      ensures forall m :: m != n ==> Generation(m) == old(Generation(m))
    {
      EndGeneration(n);
      BeginGeneration(n, requestId);
    }

    /** Creates and stores the controller of a node without one. */
    method BeginGeneration(n: NodeId, requestId: Option<nat>)
      requires Valid() && n !in iframeLoads
      requires requestId.Some? ==>
        requestId.value in started && started[requestId.value] == Origin(n, Generation(n) + 1) && requestId.value !in attached
      modifies `iframeLoads, `controllers, `owner, `generation
      ensures Valid() && Generation(n) == old(Generation(n)) + 1
      ensures n in iframeLoads && iframeLoads[n].requestId == requestId && fresh(iframeLoads[n].controller)
      ensures iframeLoads - {n} == old(iframeLoads) && controllers == old(controllers) + {iframeLoads[n].controller}
      ensures forall m :: m != n ==> Generation(m) == old(Generation(m))
      ensures forall c :: c in old(controllers) ==> c.aborted == old(c.aborted)
    {
      hide AttachedOnce, Current;
      var controller := new AbortController();
      NextGeneration(iframeLoads, generation, started, attached, n, Generation(n) + 1, IframeLoad(requestId, controller));
      generation := generation[n := Generation(n) + 1];
      Store(n, requestId, controller);
    }

    /** Stores a new controller. */
    method Store(n: NodeId, requestId: Option<nat>, controller: AbortController)
      requires Aborts() && n !in iframeLoads && controller !in controllers && !controller.aborted
      modifies `iframeLoads, `controllers, `owner
      ensures Aborts() && iframeLoads == old(iframeLoads)[n := IframeLoad(requestId, controller)]
      ensures iframeLoads - {n} == old(iframeLoads) && controllers == old(controllers) + {controller}
    {
      iframeLoads := iframeLoads[n := IframeLoad(requestId, controller)];
      controllers, owner := controllers + {controller}, owner[controller := n];
      assert iframeLoads - {n} == old(iframeLoads);
    }

    /** start_iframe_load: a new request and a new generation waiting for it. */
    method StartIframeLoad(n: NodeId) returns (i: nat)
      requires Valid()
      modifies this, controllers
      ensures Valid() && i == old(nextRequestId) && i in started && started[i] == Origin(n, Generation(n))
      ensures Generation(n) == old(Generation(n)) + 1
      ensures n in iframeLoads && iframeLoads[n].requestId == Some(i)
      ensures n in old(iframeLoads) ==> old(iframeLoads)[n].controller.aborted
      ensures subDocuments == old(subDocuments) && attached == old(attached)
      ensures iframes == old(iframes) && inDocument == old(inDocument)
      ensures iframeLoads - {n} == old(iframeLoads) - {n}
      ensures forall m :: m != n ==> Generation(m) == old(Generation(m))
      ensures forall c :: c in old(controllers) && !(n in old(iframeLoads) && c == old(iframeLoads)[n].controller) ==> c.aborted == old(c.aborted)
    {
      i := nextRequestId;
      nextRequestId := nextRequestId + 1;
      started := started[i := Origin(n, Generation(n) + 1)];
      NewIframeGeneration(n, Some(i));
    }

    /** load_iframe_srcdoc: attached at once; no response can replace it. */
    method LoadIframeSrcdoc(n: NodeId, srcdoc: string)
      requires Valid() && n in iframes
      modifies this, controllers
      ensures Valid() && subDocuments == old(subDocuments)[n := Srcdoc(srcdoc)]
      ensures n in iframeLoads && iframeLoads[n].requestId == None && Generation(n) == old(Generation(n)) + 1
      ensures n in old(iframeLoads) ==> old(iframeLoads)[n].controller.aborted
      ensures attached == old(attached) && iframes == old(iframes)
      ensures iframeLoads - {n} == old(iframeLoads) - {n}
      ensures forall m :: m != n ==> Generation(m) == old(Generation(m))
      ensures forall c :: c in old(controllers) && !(n in old(iframeLoads) && c == old(iframeLoads)[n].controller) ==> c.aborted == old(c.aborted)
      ensures inDocument == old(inDocument) && nextRequestId == old(nextRequestId) && started == old(started)
    {
      NewIframeGeneration(n, None);
      subDocuments := subDocuments[n := Srcdoc(srcdoc)];
    }

    /** navigate_iframe: a link inside the iframe reloads it, while it is in the
        document. */
    method NavigateIframe(n: NodeId)
      requires Valid()
      modifies this, controllers
      ensures Valid() && subDocuments == old(subDocuments) && attached == old(attached)
      ensures if n in old(inDocument) then Generation(n) == old(Generation(n)) + 1
          && n in iframeLoads && iframeLoads[n].requestId == Some(old(nextRequestId))
              else iframeLoads == old(iframeLoads) && generation == old(generation)
      ensures iframeLoads - {n} == old(iframeLoads) - {n}
      ensures forall m :: m != n ==> Generation(m) == old(Generation(m))
      ensures forall c :: c in old(controllers) && !(n in old(iframeLoads) && c == old(iframeLoads)[n].controller) ==> c.aborted == old(c.aborted)
    {
      if n !in inDocument { return; }
      var _ := StartIframeLoad(n);
    }

    /** remove_sub_document: unloading ends the generation. */
    method RemoveSubDocument(n: NodeId)
      requires Valid()
      modifies `iframeLoads, `subDocuments, controllers
      ensures Valid() && iframeLoads == old(iframeLoads) - {n} && subDocuments == old(subDocuments) - {n}
      ensures n in old(iframeLoads) ==> old(iframeLoads)[n].controller.aborted
      ensures forall c :: c in old(controllers) && !(n in old(iframeLoads) && c == old(iframeLoads)[n].controller) ==> c.aborted == old(c.aborted)
    {
      subDocuments := subDocuments - {n};
      EndGeneration(n);
    }

    /** apply_iframe_html: a response, in whatever order it arrives. */
    method ApplyIframeHtml(n: NodeId, i: nat, html: string) returns (applied: bool)
      requires Valid()
      modifies `iframeLoads, `subDocuments, `attached
      ensures Valid()
      ensures applied <==> n in old(iframeLoads) && old(iframeLoads)[n].requestId == Some(i) && n in iframes
      ensures applied ==>
        && i in started && started[i] == Origin(n, Generation(n)) && i !in old(attached)
        && subDocuments == old(subDocuments)[n := Fetched(i, html)] && attached == old(attached) + [i]
      ensures !applied ==> subDocuments == old(subDocuments) && attached == old(attached)
      ensures n in iframeLoads ==> iframeLoads[n].requestId != Some(i)
      ensures iframeLoads.Keys == old(iframeLoads).Keys
      ensures forall m :: m in iframeLoads ==> iframeLoads[m].controller == old(iframeLoads)[m].controller
      ensures iframeLoads - {n} == old(iframeLoads) - {n}
    {
      if !(n in iframeLoads && iframeLoads[n].requestId == Some(i)) { return false; }
      iframeLoads := iframeLoads[n := iframeLoads[n].(requestId := None)];
      if n !in iframes { return false; }
      OthersElsewhere(n, i);
      subDocuments := subDocuments[n := Fetched(i, html)];
      attached := attached + [i];
      return true;
    }

    /** A request waits for one node only. */
    lemma OthersElsewhere(n: NodeId, i: nat)
      requires Current(iframeLoads, generation, started, attached) && i in started && started[i].node == n
      requires n in iframeLoads && iframeLoads[n].requestId == None
      ensures forall m :: m in iframeLoads ==> iframeLoads[m].requestId != Some(i)
    {
    }
  }
}
