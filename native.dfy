/**
 * The part of the native media engine that the graph core depends on: opaque
 * object handles, the engine's table of element-to-element links and of ghost
 * pads, and the failure signals the core raises. Every engine call is modelled
 * by its effect on this state; whether the engine accepts a request is not
 * known to the core, so it is passed in as a parameter. A request on a null
 * object is refused whatever that parameter says, as the engine's argument
 * checks do.
 */
module Native {

  /** An engine object pointer; NULL is the null pointer. */
  type Handle = nat

  const NULL: Handle := 0

  /** Why an operation of the core gave up. */
  datatype Fault =
    | FactoryFailure    // the element factory returned no object
    | GhostPadFailure   // the parent bin refused the new ghost pad
    | LinkFailure       // the engine refused to link two elements
    | PipelineFailure   // the engine could not create the pipeline object

  /** Success or a fault, for operations that return nothing else. */
  datatype Outcome = Pass | Fail(fault: Fault)

  /** A value or a fault, for operations that create something. */
  datatype Result<T> = Success(value: T) | Failure(fault: Fault)

  /** A pass-through pad named `name` on bin `parent`, proxying the static pad of the same name on `target`. */
  datatype GhostPad = GhostPad(parent: Handle, name: string, target: Handle)

  /**
   * One step of a link or unlink, in the order performed: an engine call, or
   * a node-level change between the nodes wrapping the two objects.
   */
  datatype Step =
    | NativeLink(src: Handle, dst: Handle)
    | NativeUnlink(src: Handle, dst: Handle)
    | NodeLink(src: Handle, dst: Handle)
    | NodeUnlink(src: Handle, dst: Handle)

  /** The engine state the core changes: which elements are linked, which ghost pads exist, and the steps so far. */
  class Engine {
    ghost var links: set<(Handle, Handle)>
    ghost var pads: set<GhostPad>
    ghost var log: seq<Step>

    constructor ()
      ensures links == {} && pads == {} && log == []
    {
      links := {};
      pads := {};
      log := [];
    }

    /** Element link request; `accepted` is the engine's answer for two non-null elements. */
    method Link(src: Handle, dst: Handle, accepted: bool) returns (ok: bool)
      modifies this`links, this`log
      ensures ok <==> accepted && src != NULL && dst != NULL
      ensures links == if ok then old(links) + {(src, dst)} else old(links)
      ensures log == old(log) + [NativeLink(src, dst)]
    {
      log := log + [NativeLink(src, dst)];
      ok := accepted && src != NULL && dst != NULL;
      if ok {
        links := links + {(src, dst)};
      }
    }

    /** Element unlink: removes the link from `src` to `dst` if there is one. */
    method Unlink(src: Handle, dst: Handle)
      modifies this`links, this`log
      ensures links == old(links) - {(src, dst)}
      ensures log == old(log) + [NativeUnlink(src, dst)]
    {
      log := log + [NativeUnlink(src, dst)];
      links := links - {(src, dst)};
    }

    /**
     * Creates a ghost pad for `target`'s static pad `name` and adds it to
     * `parent`; `accepted` is the engine's answer for two non-null objects.
     */
    method AddGhostPad(parent: Handle, name: string, target: Handle, accepted: bool) returns (ok: bool)
      modifies this`pads
      ensures ok <==> accepted && parent != NULL && target != NULL
      ensures pads == if ok then old(pads) + {GhostPad(parent, name, target)} else old(pads)
    {
      ok := accepted && parent != NULL && target != NULL;
      if ok {
        pads := pads + {GhostPad(parent, name, target)};
      }
    }
  }
}
