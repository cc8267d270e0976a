/**
 * The element: a graph node that owns one engine element. Linking and
 * unlinking act at two levels, the node-level source/sink pair and the
 * engine's own link table, in a fixed order that the engine's step log
 * records.
 *
 * Every failure in the C++ code is a `throw;` statement; the model reads
 * each one as a fault returned to the caller.
 */
module Element {
  import opened Native
  import opened Node

  class Elementr {
    const node: Nodetr

    /** A constructed element owns a non-null engine object. */
    ghost predicate Valid()
      reads this, node
    {
      node.gstObj != NULL
    }

    /** The node-level sink link, when set, is matched by an engine link between the two objects. */
    ghost predicate SinkInSync(engine: Engine)
      reads node, node.sink, engine
    {
      node.sink != null ==> (node.gstObj, node.sink.gstObj) in engine.links
    }

    constructor Wrap(node: Nodetr)
      requires node.gstObj != NULL
      ensures this.node == node && Valid()
    {
      this.node := node;
    }

    /**
     * Creates the node named `name`, then takes `made`, the object the element
     * factory returned for `factoryname`, as its engine object; a null object
     * is a factory failure.
     */
    static method Create(factoryname: string, name: string, made: Handle) returns (r: Result<Elementr>)
      ensures r.Failure? <==> made == NULL
      ensures r.Failure? ==> r.fault == FactoryFailure
      ensures r.Success? ==> && fresh(r.value) && fresh(r.value.node) && r.value.Valid()
                             && r.value.node.name == name && r.value.node.gstObj == made
                             && !r.value.node.IsLinkedToSink() && !r.value.node.IsLinkedToSource()
    {
      var node := new Nodetr(name);
      node.gstObj := made;
      if node.gstObj == NULL {
        return Failure(FactoryFailure);
      }
      var e := new Elementr.Wrap(node);
      return Success(e);
    }

    /**
     * Adds to the parent bin's engine object a ghost pad that proxies this
     * element's static pad `name`; `accepted` is the engine's answer. With no
     * parent bin yet, the engine refuses.
     */
    method AddGhostPadToParent(name: string, engine: Engine, accepted: bool) returns (r: Outcome)
      requires Valid()
      modifies engine`pads
      ensures r == Pass <==> accepted && node.parentGstObj != NULL
      ensures r.Fail? ==> r.fault == GhostPadFailure
      ensures engine.pads == if r == Pass then old(engine.pads) + {GhostPad(node.parentGstObj, name, node.gstObj)}
                             else old(engine.pads)
    {
      var ok := engine.AddGhostPad(node.parentGstObj, name, node.gstObj, accepted);
      if !ok {
        return Fail(GhostPadFailure);
      }
      return Pass;
    }

    /**
     * Node-level link first, then the engine link between the two objects;
     * `accepted` is the engine's answer. A refused engine link is reported but
     * the node-level link is kept, so the two levels then disagree.
     */
    method LinkToSink(pSink: Nodetr, engine: Engine, accepted: bool) returns (r: Outcome)
      requires Valid()
      requires !node.IsLinkedToSink() && !pSink.IsLinkedToSource() && pSink != node
      modifies node`sink, pSink`source, engine`links, engine`log
      ensures Valid()
      ensures node.sink == pSink && pSink.source == node
      ensures r == Pass <==> accepted && pSink.gstObj != NULL
      ensures r.Fail? ==> r.fault == LinkFailure
      ensures engine.links == if r == Pass then old(engine.links) + {(node.gstObj, pSink.gstObj)}
                              else old(engine.links)
      ensures engine.log == old(engine.log) + [NodeLink(node.gstObj, pSink.gstObj), NativeLink(node.gstObj, pSink.gstObj)]
      ensures r == Pass ==> SinkInSync(engine)
      ensures r.Fail? && (node.gstObj, pSink.gstObj) !in old(engine.links) ==>
                node.IsLinkedToSink() && !SinkInSync(engine)
    {
      node.LinkToSink(pSink, engine);

      var ok := engine.Link(node.gstObj, node.sink.gstObj, accepted);
      if !ok {
        return Fail(LinkFailure);
      }
      return Pass;
    }

    /** When linked to a sink: engine unlink first, then the node-level unlink. Otherwise nothing. */
    method UnlinkFromSink(engine: Engine)
      requires Valid()
      requires node.IsLinkedToSink() ==> node.sink.source == node
      modifies node`sink, (if node.sink == null then {} else {node.sink})`source, engine`links, engine`log
      ensures Valid()
      ensures !node.IsLinkedToSink()
      ensures old(node.sink) == null ==> engine.log == old(engine.log) && engine.links == old(engine.links)
      ensures old(node.sink) != null ==>
                && !old(node.sink).IsLinkedToSource()
                && engine.links == old(engine.links) - {(node.gstObj, old(node.sink).gstObj)}
                && engine.log == old(engine.log) + [NativeUnlink(node.gstObj, old(node.sink).gstObj),
                                                    NodeUnlink(node.gstObj, old(node.sink).gstObj)]
    {
      if node.IsLinkedToSink() {
        engine.Unlink(node.gstObj, node.sink.gstObj);

        node.UnlinkFromSink(engine);
      }
    }

    /** When linked to a source: engine unlink first, then the node-level unlink. Otherwise nothing. */
    method UnlinkFromSource(engine: Engine)
      requires Valid()
      requires node.IsLinkedToSource() ==> node.source.sink == node
      modifies node`source, (if node.source == null then {} else {node.source})`sink, engine`links, engine`log
      ensures Valid()
      ensures !node.IsLinkedToSource()
      ensures old(node.source) == null ==> engine.log == old(engine.log) && engine.links == old(engine.links)
      ensures old(node.source) != null ==>
                && !old(node.source).IsLinkedToSink()
                && engine.links == old(engine.links) - {(old(node.source).gstObj, node.gstObj)}
                && engine.log == old(engine.log) + [NativeUnlink(old(node.source).gstObj, node.gstObj),
                                                    NodeUnlink(old(node.source).gstObj, node.gstObj)]
    {
      if node.IsLinkedToSource() {
        engine.Unlink(node.source.gstObj, node.gstObj);

        node.UnlinkFromSource(engine);
      }
    }
  }

  /**
   * The refused-link path: two fresh elements, an engine that refuses the
   * link. The link is reported as failed, yet the nodes stay linked to each
   * other with no engine link behind them.
   */
  method RefusedLinkScenario() returns (upstream: Elementr, downstream: Elementr, engine: Engine, r: Outcome)
    ensures r == Fail(LinkFailure)
    ensures upstream.node.sink == downstream.node && downstream.node.source == upstream.node
    ensures engine.links == {}
    ensures !upstream.SinkInSync(engine)
    ensures upstream.Valid() && downstream.Valid()
    ensures fresh(upstream) && fresh(upstream.node) && fresh(downstream.node) && fresh(engine)
  {
    engine := new Engine();
    var made := Elementr.Create("queue", "upstream", 1);
    upstream := made.value;
    made := Elementr.Create("fakesink", "downstream", 2);
    downstream := made.value;
    r := upstream.LinkToSink(downstream.node, engine, false);
  }

  /** After a refused link, unlinking the sink clears the node-level pair; the engine still holds no link. */
  method RecoverFromRefusedLink() returns (upstream: Elementr, downstream: Elementr, engine: Engine)
    ensures !upstream.node.IsLinkedToSink() && !downstream.node.IsLinkedToSource()
    ensures engine.links == {}
  {
    var r;
    upstream, downstream, engine, r := RefusedLinkScenario();
    upstream.UnlinkFromSink(engine);
  }
}
