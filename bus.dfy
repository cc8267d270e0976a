/**
 * The pipeline's two bus handlers and the engine's delivery contract they
 * plug into.
 *
 * The engine first offers every posted message to the synchronous handler,
 * which answers drop, pass or async; every message not dropped is queued for
 * the watch. The watch handler is then called on the queued messages in
 * order, and the engine removes the watch after the first call that returns
 * false, so no later message reaches it.
 */
module Bus {
  import opened Native

  /** The message kinds the pipeline names, plus the element-specific kind its sync handler inspects. */
  datatype MessageType =
    | Unknown | Eos | Info | Warning | Error | Tag | Buffering | StateChanged
    | StepDone | ClockLost | NewClock | StreamStatus | Element

  /** A bus message: its kind and the object that posted it. */
  datatype Message = Message(kind: MessageType, src: Handle)

  /** The synchronous handler's answer: drop the message, queue it, or queue it and wait. */
  datatype BusSyncReply = BusDrop | BusPass | BusAsync

  /** A state-changed message ends the watch unless the root pipeline posted it. */
  predicate EndsWatch(msg: Message, root: Handle)
  {
    msg.kind == Eos || (msg.kind == StateChanged && msg.src != root)
  }

  /**
   * State-changed handling: only the root pipeline's own transitions are
   * considered, and nothing is recorded for them (the per-state reaction is
   * commented out in the C++ code).
   */
  function HandleStateChanged(msg: Message, root: Handle): (r: bool)
    ensures r <==> msg.src == root
  {
    if msg.src != root then false else true
  }

  /** The watch handler; its answer is whether the watch stays installed. */
  function HandleBusWatchMessage(msg: Message, root: Handle): (r: bool)
    ensures r <==> !EndsWatch(msg, root)
    ensures msg.kind in {Info, Warning, Error} ==> r
    ensures msg.kind == StateChanged ==> r == HandleStateChanged(msg, root)
  {
    match msg.kind
    case Info => true
    case Warning => true
    case Error => true
    case StateChanged => HandleStateChanged(msg, root)
    case Eos => false
    case _ => true
  }

  /** The synchronous handler: observes element messages and state changes, passes everything on. */
  function HandleBusSyncMessage(msg: Message): (r: BusSyncReply)
    ensures r != BusDrop && r != BusAsync
  {
    match msg.kind
    case Element => BusPass
    case StateChanged => BusPass
    case _ => BusPass
  }

  /** The watch queue the engine builds from the posted messages: those the sync handler does not drop, in order. */
  function Queued(posted: seq<Message>): (q: seq<Message>)
    ensures |q| <= |posted|
    ensures forall m :: m in q <==> m in posted && HandleBusSyncMessage(m) != BusDrop
  {
    if posted == [] then []
    else (if HandleBusSyncMessage(posted[0]) == BusDrop then [] else [posted[0]]) + Queued(posted[1..])
  }

  /**
   * The engine's watch dispatch: the messages of `queue` the handler `keep`
   * is called on, ending with the first one it answers false to.
   */
  function Dispatched(queue: seq<Message>, keep: Message -> bool): (d: seq<Message>)
    ensures d <= queue
    ensures forall i :: 0 <= i < |d| - 1 ==> keep(d[i])
    ensures |d| < |queue| ==> d != [] && !keep(d[|d| - 1])
  {
    if queue == [] then []
    else if keep(queue[0]) then [queue[0]] + Dispatched(queue[1..], keep)
    else [queue[0]]
  }

  /** The sync handler never drops: the watch queue is exactly the posted sequence. */
  lemma {:induction false} SyncQueuesEverything(posted: seq<Message>)
    ensures Queued(posted) == posted
  {
    if posted != [] {
      SyncQueuesEverything(posted[1..]);
      assert posted == [posted[0]] + posted[1..];
    }
  }

  /** Message i of the queue reaches the handler iff the handler kept the watch for every earlier message. */
  lemma DispatchReaches(queue: seq<Message>, keep: Message -> bool, i: nat)
    requires i < |queue|
    ensures i < |Dispatched(queue, keep)| <==> forall j :: 0 <= j < i ==> keep(queue[j])
  {
    var d := Dispatched(queue, keep);
    if i < |d| {
      forall j | 0 <= j < i ensures keep(queue[j]) {
        assert queue[j] == d[j];
      }
    } else {
      // the call that ended the watch was on an earlier message
      var j := |d| - 1;
      assert 0 <= j < i && queue[j] == d[j] && !keep(queue[j]);
    }
  }

  /**
   * The watch as written handles message i iff no earlier message was an
   * end-of-stream or a state change posted by an object other than the root.
   */
  lemma WatchReaches(queue: seq<Message>, root: Handle, i: nat)
    requires i < |queue|
    ensures i < |Dispatched(queue, m => HandleBusWatchMessage(m, root))|
            <==> forall j :: 0 <= j < i ==> !EndsWatch(queue[j], root)
  {
    DispatchReaches(queue, m => HandleBusWatchMessage(m, root), i);
  }

  /**
   * A state change posted by a child element ends the watch: an error posted
   * after it is never handled, nor is the end-of-stream after that.
   */
  lemma ChildStateChangeEndsWatch(root: Handle, child: Handle)
    requires child != root
    ensures var queue := [Message(StateChanged, child), Message(Error, root), Message(Eos, root)];
            Dispatched(queue, m => HandleBusWatchMessage(m, root)) == queue[..1]
  {
  }

  /**
   * The watch handler with state changes from other objects ignored rather
   * than ending the watch: it stops only at end-of-stream.
   */
  function HandleBusWatchMessageIntended(msg: Message, root: Handle): (r: bool)
    ensures r <==> msg.kind != Eos
    ensures msg.kind != StateChanged ==> r == HandleBusWatchMessage(msg, root)
  {
    match msg.kind
    case StateChanged => true  // a foreign state change is ignored, the watch stays
    case _ => HandleBusWatchMessage(msg, root)
  }

  /** The corrected watch goes on past a child's state change and handles the error and the end-of-stream after it. */
  lemma IntendedWatchSurvivesChildStateChange(root: Handle, child: Handle)
    requires child != root
    ensures var queue := [Message(StateChanged, child), Message(Error, root), Message(Eos, root)];
            Dispatched(queue, m => HandleBusWatchMessageIntended(m, root)) == queue
  {
  }

  /** The corrected watch handles every queued message up to and including the first end-of-stream. */
  lemma IntendedWatchReachesEos(queue: seq<Message>, root: Handle, i: nat)
    requires i < |queue|
    ensures i < |Dispatched(queue, m => HandleBusWatchMessageIntended(m, root))|
            <==> forall j :: 0 <= j < i ==> queue[j].kind != Eos
  {
    DispatchReaches(queue, m => HandleBusWatchMessageIntended(m, root), i);
  }

  /**
   * End to end, as written: a posted message reaches the watch handler iff
   * nothing posted before it ended the watch.
   */
  lemma PostedReachesWatch(posted: seq<Message>, root: Handle, i: nat)
    requires i < |posted|
    ensures i < |Dispatched(Queued(posted), m => HandleBusWatchMessage(m, root))|
            <==> forall j :: 0 <= j < i ==> !EndsWatch(posted[j], root)
  {
    SyncQueuesEverything(posted);
    WatchReaches(posted, root, i);
  }
}
