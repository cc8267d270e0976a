# Element linking and pipeline bus dispatch, modelled in Dafny

This project models two pieces of the core of a media-pipeline services
library built on a native streaming engine.

**Elements and their links** (`node.dfy`, `element.dfy`). A graph node
(`Nodetr`) has a name, the engine object it wraps, the engine object of its
parent bin, and at most one upstream (source) and one downstream (sink)
peer, kept as a pair. An element (`Elementr`) is a node that owns an engine
element. Its link and unlink operations work at two levels: the node-level
pair, and the engine's own table of element links. The engine is modelled
in `native.dfy` as a class with a ghost set of linked handle pairs, a ghost
set of ghost pads, and a ghost log of steps. The engine's link and unlink
calls append their step to that log, and so do the node-level link and
unlink methods. The order of the steps in an element operation is
therefore stated over the log. Whether the engine accepts a request is a
parameter. A request on a null object is always refused, as the engine's
argument checks refuse it. Handles are natural numbers, and 0 is the null
pointer.

The node base class is not part of this model. It is replaced by a minimal
`Nodetr` whose `LinkToSink` requires both ends to be free, and whose unlink
methods require a link that is set and paired. The container code that
records a node's parent bin is not part of this model either;
`SetParentGstObj` stands in for it.

Each failure in the element code is a bare `throw;` statement. The model
reads each one as a fault returned to the caller (`Outcome`, `Result`). In
C++, a bare `throw;` with no exception being handled calls
`std::terminate`, so as written each of these failures ends the process.

**Pipeline controller and bus handlers** (`pipeline.dfy`, `bus.dfy`). The
constructor fails when the engine gives no pipeline object. Otherwise it
builds six top-level bins in a fixed order and installs the two bus
handlers. `Play` and `Pause` report whether the engine accepted the state
request. Teardown requests the NULL state and then releases the bus and the
pipeline. The handlers are pure functions of the message kind and of whether
the root pipeline posted the message.

The handlers only make sense with the engine's delivery contract, so that
contract is modelled too. Every posted message goes to the sync handler
first; anything it does not drop is queued for the watch (`Queued`). The
watch handler is called on the queue in order, and the watch is removed
after the first call that returns false (`Dispatched`).

Three behaviours of the code are modelled as written:
- `Elementr.LinkToSink` does not undo the node-level link when the engine
  refuses the link, so the node level then claims a link the engine does
  not have.
- A state change from the root pipeline records no state, because the
  per-state switch in `HandleStateChanged` is commented out.
- A state change from any other object makes the watch handler return
  false. Under the engine's watch contract, a watch function that returns
  false is removed. So the first state change of a child element ends the
  watch (see Findings).

## Model

| member | source | states |
|---|---|---|
| `Native.Engine.Link` | src/DslElementr.h:146 | The link succeeds iff the engine accepts and both objects are non-null. A success adds exactly the pair (source object, sink object) to the engine's links; a refusal changes nothing. Either way the attempt is logged. |
| `Native.Engine.Unlink` | src/DslElementr.h:162 | Unlinking removes exactly that pair, whether or not it was present, and is logged. |
| `Native.Engine.AddGhostPad` | src/DslElementr.h:126-127 | The pad is added iff the engine accepts and the parent and the element are non-null. A success adds exactly one pad on the parent, proxying the element's pad of that name; a refusal changes nothing. |
| `Node.Nodetr.SetParentGstObj` | src/DslElementr.h:126 | Records the parent bin's engine object, the one a ghost pad is added to. |
| `Node.Nodetr.LinkToSink` | src/DslElementr.h:142-143 | The node-level link is made as a pair: this node's sink is the peer and the peer's source is this node. Other links keep their pairing. The node-level link step is logged. |
| `Node.Nodetr.UnlinkFromSink` | src/DslElementr.h:164-165 | Both sides of the sink link are cleared, and the node-level unlink step is logged. |
| `Node.Nodetr.UnlinkFromSource` | src/DslElementr.h:180-181 | Both sides of the source link are cleared, and the node-level unlink step is logged. |
| `Element.Elementr.Create` | src/DslElementr.h:53-64 | Construction fails with a factory failure exactly when the factory returns null. Otherwise the element is fresh, unlinked, named as asked, and holds the non-null object. |
| `Element.Elementr.AddGhostPadToParent` | src/DslElementr.h:120-132 | Fails with a ghost-pad fault exactly when the engine refuses the pad or the element has no parent bin yet. On success, the parent's ghost pad proxying this element's pad is added, and nothing else. |
| `Element.Elementr.LinkToSink` | src/DslElementr.h:138-151 | The log shows the node-level link first, then the engine link attempt. Success iff the engine accepts and the sink has an engine object. On success, exactly that engine link is added and the two levels agree. On refusal, a link fault is reported, the node-level link stays (no rollback), no engine link is added, and the levels disagree. |
| `Element.Elementr.UnlinkFromSink` | src/DslElementr.h:156-167 | When not linked to a sink: no engine call, no node-level change, nothing logged. When linked: the engine link (this, sink) is removed, and after it both node-level sides are cleared, in that logged order. Afterwards the element is not linked to a sink. |
| `Element.Elementr.UnlinkFromSource` | src/DslElementr.h:172-183 | The mirror image: the engine link (source, this) is removed before the node-level unlink, in that logged order. When not linked to a source, nothing happens and nothing is logged. |
| `Element.RefusedLinkScenario` | src/DslElementr.h:143-150 | Two elements and an engine that refuses the link: the call reports a link fault, yet the two nodes are linked to each other with no engine link behind them. |
| `Element.RecoverFromRefusedLink` | src/DslElementr.h:156-167 | Unlinking the sink after a refused link clears both node-level sides; the engine still holds no link. |
| `Bus.HandleStateChanged` | src/DssPipeline.cpp:193-217 | True exactly for state changes posted by the root pipeline; no state is recorded. |
| `Bus.HandleBusWatchMessage` | src/DssPipeline.cpp:140-164 | The watch stays for INFO, WARNING, ERROR and every other kind. It ends for EOS and for a state change from an object other than the root. For a state change, the answer is the state handler's. |
| `Bus.HandleBusSyncMessage` | src/DssPipeline.cpp:166-191 | Every message kind passes; none is dropped or held. |
| `Bus.Queued` | src/DssPipeline.cpp:103-104 | The watch queue holds exactly the posted messages the sync handler does not drop, and is never longer than what was posted. |
| `Bus.SyncQueuesEverything` | src/DssPipeline.cpp:173-190 | Because the sync handler drops nothing, the watch queue is exactly the posted sequence. |
| `Bus.Dispatched` | src/DssPipeline.cpp:100-101 | The handled messages are a prefix of the queue. The handler kept the watch for all of them but the last. The last is one the handler rejected, unless the whole queue was handled. |
| `Bus.DispatchReaches` | src/DssPipeline.cpp:100-101 | Message i is handled iff the handler kept the watch for every earlier message. |
| `Bus.WatchReaches` | src/DssPipeline.cpp:147-163 | With the pipeline's handler, message i is handled iff no earlier message was an EOS or a state change from another object. |
| `Bus.PostedReachesWatch` | src/DssPipeline.cpp:100-104 | End to end: a posted message reaches the watch handler iff nothing posted before it ended the watch. |
| `Bus.ChildStateChangeEndsWatch` | src/DssPipeline.cpp:197-200 | A child's state change, then an ERROR, then an EOS: only the state change is handled. |
| `Bus.HandleBusWatchMessageIntended` | src/DssPipeline.cpp:140-164 | Corrected handler: the watch ends only at EOS. For every kind other than a state change, it answers as the C++ handler does. |
| `Bus.IntendedWatchReachesEos` | src/DssPipeline.cpp:155-158 | With the corrected handler, message i is handled iff no EOS came before it. |
| `Bus.IntendedWatchSurvivesChildStateChange` | src/DssPipeline.cpp:197-200 | With the corrected handler, the same three messages are all handled. |
| `Pipeline.TopLevelBins` | src/DssPipeline.cpp:54-71 | The bins are named sources, tracker, primary-gie, tiled-display, sinks, osd, in that order. Each holds the engine bin the configuration built for it. The first three are built in the pipeline; the last three in the instance bin. |
| `Pipeline.Pipeline.Init` | src/DssPipeline.cpp:54-104 | The bin list is exactly the six top-level bins in order; the watch and the sync handler are installed; no state request or release has been logged yet. |
| `Pipeline.Pipeline.Create` | src/DssPipeline.cpp:44-52 | Fails with a pipeline failure exactly when the pipeline object is null. Otherwise it yields a fresh, valid pipeline with the six bins, holding the given pipeline, instance bin and bus objects. |
| `Pipeline.Pipeline.Pause` | src/DssPipeline.cpp:122-129 | Requests PAUSED on the pipeline; the request is reported accepted iff the engine's answer is not FAILURE. |
| `Pipeline.Pipeline.Play` | src/DssPipeline.cpp:131-138 | Requests PLAYING on the pipeline; the request is reported accepted iff the engine's answer is not FAILURE. |
| `Pipeline.Pipeline.Destroy` | src/DssPipeline.cpp:107-115 | Requests NULL on the pipeline, then releases the bus, then the pipeline, in that order. |

## Left out

- Node.Nodetr.LinkToSink: src/DslNodetr.h is not part of this model. The ghost engine parameter of the node methods exists only to log their steps. Its precondition (both ends free, no self-link) and the unlink methods' preconditions (linked and paired) are stated assumptions, not read from code.
- Node.Nodetr.SetParentGstObj: the container code that sets a node's parent bin is not part of this model; this method only records the handle.
- `SetAttribute` (src/DslElementr.h:76-113): the three overloads only forward a name and a value to the engine's property setter; there is nothing to check on this side.
- Mutexes (src/DssPipeline.cpp:75-77, 117-119, 125, 134, 143, 169): the handlers and lifecycle calls are modelled as sequential calls.
- Logging and the message-type and state label maps (src/DssPipeline.cpp:79-95): they only feed log lines. The label table only sets the list of message kinds.
- `Config::Create*Bin` and `ConfigureTiledDisplay` (src/DssPipeline.cpp:54-73): external collaborators. The bins they build are opaque handles passed in (`ConfigBins`).
- The static trampolines `bus_watch` and `bus_sync_handler` (src/DssPipeline.cpp:219-229) only delegate. The handlers take the root pipeline's handle as a parameter in place of the object they are called on.
- Engine calls are not modelled as behaviour. Object creation, element link and unlink, ghost-pad creation, and state changes are inputs: a returned handle or an accept/refuse answer. The engine's asynchronous confirmation of state changes is not modelled. The code records no state for it either.
- The structure read from element messages of the multi-source bin in the sync handler (src/DssPipeline.cpp:178-182) is discarded by the code, so the model ignores it.
- Allocation and release of the instance bin (src/DssPipeline.cpp:45): it is created before the null-pipeline check and never released. The model does not track object lifetimes beyond the teardown call sequence.
- The bare `throw;` statements: the model returns a fault where C++ would end the process.
- Bins, the OSD, source and reporter bins (src/DslOsdBintr.h, src/DslSourceBintr.h, src/DslReporterBintr.h): declarations only; their bodies are not part of this model.
- The test files (test/api/DslPipelineCbApiTest.cpp, test/api/DslComponentApiTest.cpp, test/unit/DslGieUnitTest.cpp): they exercise the flat API registry and the primary inference bin, whose code is not part of this model.

## Findings

| source | as written | input that shows it | evidently intended | confidence | as-written member | corrected member |
|---|---|---|---|---|---|---|
| src/DssPipeline.cpp:197-200 | `HandleStateChanged` returns false for a state change posted by any object other than the pipeline. The watch handler passes that false to the engine, which removes the watch. | A STATE_CHANGED message from a child element (every element posts one when the pipeline changes state), then an ERROR, then an EOS: the ERROR and the EOS are never handled. | Ignore state changes from other objects and keep watching until EOS. | medium, not executed | `Bus.ChildStateChangeEndsWatch` | `Bus.HandleBusWatchMessageIntended` |
