/** `RunnableComponent`: one correlator per entry point of the component, all feeding one
    sequential method invoker. Every data message the component receives is broadcast to
    all correlators; the invoker owns the component's output ports. */
module Components {
  import opened Wrappers
  import opened KissData
  import opened Mailboxes
  import opened Distribution
  import opened Bundles
  import opened Correlation
  import opened Invokers

  /** The name under which every correlator sends its completed bundles to the invoker. */
  const CollectedRow: string := "collectedMethodParametersRow"

  /** One `enqueue` of the same message on each mailbox, in order. */
  function Broadcast(boxes: seq<Mailbox>, msg: DCMessage): (ds: seq<Delivery>)
    ensures |ds| == |boxes|
    ensures forall i :: 0 <= i < |boxes| ==> ds[i] == Delivery(boxes[i], msg)
    decreases |boxes|
  {
    if boxes == [] then [] else Broadcast(boxes[..|boxes| - 1], msg) + [Delivery(boxes[|boxes| - 1], msg)]
  }

  predicate DistinctBoxes(boxes: seq<Mailbox>) {
    forall i, j :: 0 <= i < j < |boxes| ==> boxes[i] != boxes[j]
  }

  /** A mailbox is offered the broadcast message once for each time it occurs in the list:
      once if it is one of distinct mailboxes, never if it is not among them, whatever the
      message's name. */
  lemma {:induction false} BroadcastOnce(boxes: seq<Mailbox>, msg: DCMessage, m: Mailbox)
    requires DistinctBoxes(boxes)
    ensures Addressed(m, Broadcast(boxes, msg)) == if m in boxes then [msg] else []
    decreases |boxes|
  {
    if boxes != [] {
      var init := boxes[..|boxes| - 1];
      assert DistinctBoxes(init);
      BroadcastOnce(init, msg, m);
      assert Broadcast(boxes, msg)[..|boxes| - 1] == Broadcast(init, msg);
      if m == boxes[|boxes| - 1] {
        assert m !in init;
      } else {
        assert m in boxes <==> m in init;
      }
    }
  }

  /** Broadcasting to one more mailbox is one more delivery. */
  lemma BroadcastSnoc(boxes: seq<Mailbox>, i: nat, msg: DCMessage)
    requires i < |boxes|
    ensures Broadcast(boxes[..i + 1], msg) == Broadcast(boxes[..i], msg) + [Delivery(boxes[i], msg)]
  {
    assert boxes[..i + 1][..i] == boxes[..i];
  }

  /** The `i`-th step of a broadcast over `boxes`, all of them among the mailboxes `all`: one
      `enqueue` of `msg` on `boxes[i]`, after which every mailbox holds what the first `i + 1`
      deliveries offered it since it held `q0`. */
  method EnqueueNext(box: Mailbox, ghost boxes: seq<Mailbox>, ghost i: nat, msg: DCMessage,
                     ghost all: set<Mailbox>, ghost q0: map<Mailbox, seq<DCMessage>>)
    requires i < |boxes| && box == boxes[i] && box in all
    requires forall m :: m in all ==>
      m in q0 && m.queue == OfferAll(q0[m], m.capacity, Addressed(m, Broadcast(boxes[..i], msg)))
    modifies box
    ensures forall m :: m in all ==>
      m.queue == OfferAll(q0[m], m.capacity, Addressed(m, Broadcast(boxes[..i + 1], msg)))
  {
    ghost var before := Broadcast(boxes[..i], msg);
    ghost var pre := box.queue;
    var _ := box.Enqueue(msg);
    BroadcastSnoc(boxes, i, msg);
    forall m | m in all
      ensures m.queue == OfferAll(q0[m], m.capacity, Addressed(m, before + [Delivery(box, msg)]))
    {
      OfferedOneMore(q0[m], m.capacity, before, Delivery(box, msg), m, if m == box then pre else m.queue);
    }
  }

  class RunnableComponent {
    const inbox: Mailbox
    const correlators: array<Correlator?>
    const methodInvoker: MethodInvokerSequential
    /** The correlators' inboxes, in array order, as the constructor leaves them. */
    ghost const inboxes: seq<Mailbox>

    /** Every slot of the correlator array holds a correlator, and no two share an inbox. */
    ghost predicate Valid()
      reads this, correlators
    {
      correlators.Length == |inboxes| &&
      (forall i :: 0 <= i < correlators.Length ==> correlators[i] != null && correlators[i].inbox == inboxes[i]) &&
      DistinctBoxes(inboxes)
    }

    ghost function InboxSet(): set<Mailbox> {
      set m | m in inboxes
    }

    /** The constructor. `entryPoints` and `withoutExplicitOutputPort` are what inspecting the
        component class yields; `invoke` is the reflective call on the component instance. One
        correlator is created per entry point, in order, each with a single destination: the
        invoker's inbox under the name "collectedMethodParametersRow". */
    constructor(inputQueueLength: nat, componentClass: string, entryPoints: seq<EntryPoint>,
                withoutExplicitOutputPort: bool, invoke: (string, string, seq<Value>) -> Invocation)
      requires inputQueueLength > 0
      ensures Valid()
      ensures fresh(inbox) && inbox.capacity == inputQueueLength && inbox.queue == []
      ensures fresh(methodInvoker) && fresh(methodInvoker.rcc) && methodInvoker.Valid() && methodInvoker.outputs == map[]
      ensures methodInvoker.componentClass == componentClass && methodInvoker.invoke == invoke
      ensures methodInvoker.withoutExplicitOutputPort == withoutExplicitOutputPort
      ensures fresh(correlators) && correlators.Length == |entryPoints|
      ensures forall i :: 0 <= i < |entryPoints| ==>
        var c := correlators[i];
        c != null && fresh(c) && fresh(c.inbox) && fresh(c.correlatedInputs) && c.Valid() &&
        c.entryPoint == entryPoints[i] && c.rows == map[] && c.inbox.queue == [] &&
        c.inbox.capacity == inputQueueLength &&
        c.correlatedInputs.destinations == [Destination(CollectedRow, methodInvoker.inbox)]
    {
      var box := new Mailbox(inputQueueLength);
      var invoker := new MethodInvokerSequential(inputQueueLength, componentClass, invoke, withoutExplicitOutputPort);
      methodInvoker := invoker;
      var cs := new Correlator?[|entryPoints|];
      ghost var bs: seq<Mailbox> := [];
      var i := 0;
      while i < |entryPoints|
        invariant 0 <= i <= |entryPoints| && |bs| == i
        invariant forall j :: 0 <= j < i ==>
          var c := cs[j];
          c != null && fresh(c) && fresh(c.inbox) && fresh(c.correlatedInputs) && c.Valid() &&
          c.entryPoint == entryPoints[j] && c.rows == map[] && c.inbox.queue == [] &&
          c.inbox.capacity == inputQueueLength && c.inbox == bs[j] &&
          c.correlatedInputs.destinations == [Destination(CollectedRow, invoker.inbox)]
        invariant DistinctBoxes(bs)
        invariant invoker.Valid() && invoker.outputs == map[]
        invariant box.queue == [] && fresh(box) && box.capacity == inputQueueLength
      {
        var correlator := new Correlator(inputQueueLength, entryPoints[i]);
        correlator.AddDestination(CollectedRow, invoker.inbox, CollectedRow);
        cs[i] := correlator;
        bs := bs + [correlator.inbox];
        i := i + 1;
      }
      inbox := box;
      correlators := cs;
      inboxes := bs;
    }

    /** `processDataMessage`: the message is offered to every correlator's inbox, in array
        order, whether or not its entry point has an input of that name; refusals are
        ignored and the message itself is returned. */
    method ProcessDataMessage(dataMessage: DCMessage) returns (r: DCMessage)
      requires Valid()
      modifies InboxSet()
      ensures r == dataMessage
      ensures Delivered(InboxSet(), Broadcast(inboxes, dataMessage))
    {
      ghost var all := InboxSet();
      ghost var q0 := map m | m in all :: m.queue;
      for i := 0 to correlators.Length
        invariant forall m :: m in all ==>
          m.queue == OfferAll(q0[m], m.capacity, Addressed(m, Broadcast(inboxes[..i], dataMessage)))
      {
        EnqueueNext(correlators[i].inbox, inboxes, i, dataMessage, all, q0);
      }
      assert inboxes[..correlators.Length] == inboxes;
      r := dataMessage;
    }

    /** `processMessage`: only data messages are broadcast, and broadcasting never fails. */
    method ProcessMessage(dcmsg: Option<DCMessage>) returns (s: StepResult)
      requires Valid()
      modifies InboxSet()
      ensures s == (if dcmsg.None? then Idle else if dcmsg.value.Data? then Processed else Ignored)
      ensures s == Processed ==> Delivered(InboxSet(), Broadcast(inboxes, dcmsg.value))
      ensures s != Processed ==> forall m :: m in InboxSet() ==> m.queue == old(m.queue)
    {
      if dcmsg.None? {
        return Idle;
      }
      if dcmsg.value.Data? {
        var _ := ProcessDataMessage(dcmsg.value);
        s := Processed;
      } else {
        s := Ignored;
      }
    }

    /** `addDestination`: handed on unchanged to the invoker, which owns the output ports. */
    method AddDestination(outputName: string, consumer: Mailbox, destinationName: string)
      requires methodInvoker.Valid()
      modifies methodInvoker, methodInvoker.Ports()
      ensures methodInvoker.Valid()
      ensures methodInvoker.outputs.Keys == old(methodInvoker.outputs.Keys) + {outputName}
      ensures forall k :: k in old(methodInvoker.outputs) ==> methodInvoker.outputs[k] == old(methodInvoker.outputs[k])
      ensures outputName !in old(methodInvoker.outputs) ==> fresh(methodInvoker.outputs[outputName])
      ensures methodInvoker.Wiring() == old(methodInvoker.Wiring())[outputName :=
        (if outputName in old(methodInvoker.outputs) then old(methodInvoker.outputs[outputName].destinations) else [])
        + [Destination(destinationName, consumer)]]
    {
      methodInvoker.AddDestination(outputName, consumer, destinationName);
    }
  }
}
