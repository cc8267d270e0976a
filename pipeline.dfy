/**
 * The pipeline controller: creates the engine pipeline and its six top-level
 * bins in a fixed order, requests lifecycle states, and on teardown stops the
 * pipeline before releasing the bus and the pipeline objects. The message
 * handlers it installs on the bus are in module Bus.
 */
module Pipeline {
  import opened Native

  /** Engine lifecycle states. */
  datatype State = VoidPending | Null | Ready | Paused | Playing

  /** The engine's answer to a state-change request. */
  datatype StateChangeReturn = ChangeFailure | ChangeSuccess | ChangeAsync | ChangeNoPreroll

  /** A top-level bin: its name, the engine bin the configuration built, and the engine bin it was built in. */
  datatype Bintr = Bintr(name: string, gstObj: Handle, parent: Handle)

  /** The engine bins the configuration builds for the six top-level bins. */
  datatype ConfigBins = ConfigBins(sources: Handle, tracker: Handle, primaryGie: Handle,
                                   tiledDisplay: Handle, sinks: Handle, osd: Handle)

  /** A call the controller makes on engine objects after construction. */
  datatype EngineCall = SetState(obj: Handle, target: State) | Unref(obj: Handle)

  /** The names of the top-level bins, in creation order. */
  const BinOrder: seq<string> := ["sources", "tracker", "primary-gie", "tiled-display", "sinks", "osd"]

  /** The names of `bins`, in order. */
  function Names(bins: seq<Bintr>): (names: seq<string>)
    ensures |names| == |bins|
    ensures forall i :: 0 <= i < |bins| ==> names[i] == bins[i].name
  {
    if bins == [] then [] else [bins[0].name] + Names(bins[1..])
  }

  /**
   * The top-level bins in creation order: sources, tracker and primary
   * inference built in the pipeline; tiled display, sinks and on-screen
   * display built in the instance bin.
   */
  function TopLevelBins(pipelineObj: Handle, instanceObj: Handle, bins: ConfigBins): (bs: seq<Bintr>)
    ensures Names(bs) == BinOrder
    ensures forall i :: 0 <= i < 3 ==> bs[i].parent == pipelineObj
    ensures forall i :: 3 <= i < 6 ==> bs[i].parent == instanceObj
    ensures [bs[0].gstObj, bs[1].gstObj, bs[2].gstObj, bs[3].gstObj, bs[4].gstObj, bs[5].gstObj]
            == [bins.sources, bins.tracker, bins.primaryGie, bins.tiledDisplay, bins.sinks, bins.osd]
  {
    [Bintr("sources", bins.sources, pipelineObj),
     Bintr("tracker", bins.tracker, pipelineObj),
     Bintr("primary-gie", bins.primaryGie, pipelineObj),
     Bintr("tiled-display", bins.tiledDisplay, instanceObj),
     Bintr("sinks", bins.sinks, instanceObj),
     Bintr("osd", bins.osd, instanceObj)]
  }

  class Pipeline {
    const pipelineObj: Handle
    const instanceObj: Handle
    const busObj: Handle
    var bintrs: seq<Bintr>
    var watchInstalled: bool
    var syncHandlerInstalled: bool
    var calls: seq<EngineCall>

    /** A constructed pipeline has a pipeline object and its six bins in order. */
    ghost predicate Valid()
      reads this
    {
      pipelineObj != NULL && Names(bintrs) == BinOrder
    }

    constructor Init(pipelineObj: Handle, instanceObj: Handle, bins: ConfigBins, busObj: Handle)
      requires pipelineObj != NULL
      ensures this.pipelineObj == pipelineObj && this.instanceObj == instanceObj && this.busObj == busObj
      ensures bintrs == TopLevelBins(pipelineObj, instanceObj, bins)
      ensures watchInstalled && syncHandlerInstalled
      ensures calls == []
      ensures Valid()
    {
      this.pipelineObj := pipelineObj;
      this.instanceObj := instanceObj;
      this.busObj := busObj;
      bintrs := [];
      bintrs := bintrs + [Bintr("sources", bins.sources, pipelineObj)];
      bintrs := bintrs + [Bintr("tracker", bins.tracker, pipelineObj)];
      bintrs := bintrs + [Bintr("primary-gie", bins.primaryGie, pipelineObj)];
      bintrs := bintrs + [Bintr("tiled-display", bins.tiledDisplay, instanceObj)];
      bintrs := bintrs + [Bintr("sinks", bins.sinks, instanceObj)];
      bintrs := bintrs + [Bintr("osd", bins.osd, instanceObj)];
      watchInstalled := true;
      syncHandlerInstalled := true;
      calls := [];
    }

    /**
     * Construction: `pipelineObj` and `instanceObj` are what the engine
     * returned for the pipeline and the instance bin, `bins` what the
     * configuration built, `busObj` the pipeline's bus. A null pipeline is
     * a failure.
     */
    static method Create(pipelineObj: Handle, instanceObj: Handle, bins: ConfigBins, busObj: Handle)
      returns (r: Result<Pipeline>)
      ensures r.Failure? <==> pipelineObj == NULL
      ensures r.Failure? ==> r.fault == PipelineFailure
      ensures r.Success? ==> && fresh(r.value) && r.value.Valid()
                             && r.value.pipelineObj == pipelineObj
                             && r.value.instanceObj == instanceObj && r.value.busObj == busObj
                             && r.value.bintrs == TopLevelBins(pipelineObj, instanceObj, bins)
                             && r.value.watchInstalled && r.value.syncHandlerInstalled
                             && r.value.calls == []
    {
      if pipelineObj == NULL {
        return Failure(PipelineFailure);
      }
      var p := new Pipeline.Init(pipelineObj, instanceObj, bins, busObj);
      return Success(p);
    }

    /** Requests PAUSED; `ret` is the engine's answer. Accepted unless the engine reports failure. */
    method Pause(ret: StateChangeReturn) returns (ok: bool)
      requires Valid()
      modifies this`calls
      ensures ok <==> ret != ChangeFailure
      ensures calls == old(calls) + [SetState(pipelineObj, Paused)]
    {
      calls := calls + [SetState(pipelineObj, Paused)];
      ok := ret != ChangeFailure;
    }

    /** Requests PLAYING; `ret` is the engine's answer. Accepted unless the engine reports failure. */
    method Play(ret: StateChangeReturn) returns (ok: bool)
      requires Valid()
      modifies this`calls
      ensures ok <==> ret != ChangeFailure
      ensures calls == old(calls) + [SetState(pipelineObj, Playing)]
    {
      calls := calls + [SetState(pipelineObj, Playing)];
      ok := ret != ChangeFailure;
    }

    /** Teardown: requests NULL, then releases the bus, then the pipeline. */
    method Destroy()
      requires Valid()
      modifies this`calls
      ensures calls == old(calls) + [SetState(pipelineObj, Null), Unref(busObj), Unref(pipelineObj)]
    {
      calls := calls + [SetState(pipelineObj, Null)];
      calls := calls + [Unref(busObj)];
      calls := calls + [Unref(pipelineObj)];
    }
  }
}
