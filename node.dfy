/**
 * The graph node base class: a named participant that wraps one engine
 * object, knows the engine object of its parent container, and holds at most
 * one upstream (source) and one downstream (sink) peer. Links are made and
 * broken as pairs: `a.sink == b` exactly when `b.source == a`. Each link
 * change is recorded, as a step between the two wrapped objects, in the log
 * of the ghost `engine` it is given, so that callers can state its order
 * relative to the engine's own calls.
 */
module Node {
  import opened Native

  class Nodetr {
    const name: string
    var gstObj: Handle
    var parentGstObj: Handle
    var source: Nodetr?
    var sink: Nodetr?

    constructor (name: string)
      ensures this.name == name
      ensures gstObj == NULL && parentGstObj == NULL
      ensures source == null && sink == null
    {
      this.name := name;
      gstObj := NULL;
      parentGstObj := NULL;
      source := null;
      sink := null;
    }

    predicate IsLinkedToSink()
      reads this
    {
      sink != null
    }

    predicate IsLinkedToSource()
      reads this
    {
      source != null
    }

    /** Both of this node's links, where set, are matched by the peer's opposite link. */
    ghost predicate Paired()
      reads this, source, sink
    {
      && (sink != null ==> sink.source == this)
      && (source != null ==> source.sink == this)
    }

    /** Records the engine object of the container this node was added to. */
    method SetParentGstObj(parent: Handle)
      modifies this`parentGstObj
      ensures parentGstObj == parent
    {
      parentGstObj := parent;
    }

    /** Makes `pSink` this node's sink and this node `pSink`'s source. */
    method LinkToSink(pSink: Nodetr, ghost engine: Engine)
      requires !IsLinkedToSink() && !pSink.IsLinkedToSource() && pSink != this
      modifies this`sink, pSink`source, engine`log
      ensures sink == pSink && pSink.source == this
      ensures old(Paired()) && old(pSink.Paired()) ==> Paired() && pSink.Paired()
      ensures engine.log == old(engine.log) + [NodeLink(gstObj, pSink.gstObj)]
    {
      sink := pSink;
      pSink.source := this;
      engine.log := engine.log + [NodeLink(gstObj, pSink.gstObj)];
    }

    /** Clears both sides of the link to the sink. */
    method UnlinkFromSink(ghost engine: Engine)
      requires IsLinkedToSink() && sink.source == this
      modifies this`sink, sink`source, engine`log
      ensures !IsLinkedToSink() && !old(sink).IsLinkedToSource()
      ensures engine.log == old(engine.log) + [NodeUnlink(gstObj, old(sink).gstObj)]
    {
      engine.log := engine.log + [NodeUnlink(gstObj, sink.gstObj)];
      sink.source := null;
      sink := null;
    }

    /** Clears both sides of the link from the source. */
    method UnlinkFromSource(ghost engine: Engine)
      requires IsLinkedToSource() && source.sink == this
      modifies this`source, source`sink, engine`log
      ensures !IsLinkedToSource() && !old(source).IsLinkedToSink()
      ensures engine.log == old(engine.log) + [NodeUnlink(old(source).gstObj, gstObj)]
    {
      engine.log := engine.log + [NodeUnlink(source.gstObj, gstObj)];
      source.sink := null;
      source := null;
    }
  }
}
