/** `DistributorOutput`: an output port that fans one value out to an ordered list of
    destinations, each receiving a copy of the data under its own input name. */
module Distribution {
  import opened Wrappers
  import opened KissData
  import opened Mailboxes

  /** A consumer and the data name the value must carry when it arrives there. */
  datatype Destination = Destination(destinationName: string, consumer: Mailbox)

  /** `RequestContextCarrier`: a slot holding the request context of the call in progress
      (null until one is set). */
  class RequestContextCarrier {
    var requestContext: SimpleRequestContext?

    constructor()
      ensures requestContext == null
    {
      requestContext := null;
    }
  }

  /** The `enqueue` calls a distribution makes: one per destination, in registration order,
      each a data message with that destination's name, the context and the unchanged data. */
  function Outgoing(dests: seq<Destination>, context: SimpleRequestContext?, data: Value): (ds: seq<Delivery>)
    ensures |ds| == |dests|
    ensures forall i :: 0 <= i < |dests| ==>
      ds[i] == Delivery(dests[i].consumer, Data(context, dests[i].destinationName, data))
    decreases |dests|
  {
    if dests == [] then []
    else
      var last := dests[|dests| - 1];
      Outgoing(dests[..|dests| - 1], context, data) + [Delivery(last.consumer, Data(context, last.destinationName, data))]
  }

  /** One more delivery changes only the queue it goes to, by one offer. */
  lemma OfferAllStep(m: Mailbox, q: seq<DCMessage>, sent: seq<Delivery>, d: Delivery)
    ensures OfferAll(q, m.capacity, Addressed(m, sent + [d]))
         == if d.to == m then Offer(OfferAll(q, m.capacity, Addressed(m, sent)), m.capacity, d.msg)
            else OfferAll(q, m.capacity, Addressed(m, sent))
  {
    var before := Addressed(m, sent);
    assert (sent + [d])[..|sent + [d]| - 1] == sent;
    if d.to == m {
      assert Addressed(m, sent + [d]) == before + [d.msg];
      assert (before + [d.msg])[..|before + [d.msg]| - 1] == before;
    } else {
      assert Addressed(m, sent + [d]) == before;
    }
  }

  function Consumers(dests: seq<Destination>): set<Mailbox> {
    set i | 0 <= i < |dests| :: dests[i].consumer
  }

  /** A distribution to pairwise distinct consumers addresses exactly one message to each
      destination's mailbox: the data under that destination's own name. */
  lemma OutgoingToFreshConsumers(dests: seq<Destination>, context: SimpleRequestContext?, data: Value, d: nat)
    requires d < |dests|
    requires forall i, j :: 0 <= i < j < |dests| ==> dests[i].consumer != dests[j].consumer
    ensures Addressed(dests[d].consumer, Outgoing(dests, context, data)) == [Data(context, dests[d].destinationName, data)]
  {
    var ds := Outgoing(dests, context, data);
    var m := dests[d].consumer;
    forall i | 0 <= i < |ds| && i != d ensures ds[i].to != m {
      assert ds[i].to == dests[i].consumer;
    }
    AddressedOnce(m, ds, d);
  }

  /** A mailbox that is not among the destinations receives nothing from a distribution. */
  lemma OutgoingMissing(m: Mailbox, dests: seq<Destination>, context: SimpleRequestContext?, data: Value)
    requires m !in Consumers(dests)
    ensures Addressed(m, Outgoing(dests, context, data)) == []
  {
    var ds := Outgoing(dests, context, data);
    forall i | 0 <= i < |ds| ensures ds[i].to != m {
      assert ds[i].to == dests[i].consumer;
    }
    AddressedElsewhere(m, ds);
  }

  /** Offering the messages of `acc` and then those of `more` is offering those of `acc + more`. */
  lemma OfferAllThen(m: Mailbox, q: seq<DCMessage>, acc: seq<Delivery>, more: seq<Delivery>)
    ensures OfferAll(q, m.capacity, Addressed(m, acc + more))
         == OfferAll(OfferAll(q, m.capacity, Addressed(m, acc)), m.capacity, Addressed(m, more))
  {
    AddressedAppend(m, acc, more);
    OfferAllAppend(q, m.capacity, Addressed(m, acc), Addressed(m, more));
  }

  class DistributorOutput {
    const outputName: string
    const rcc: RequestContextCarrier?
    var destinations: seq<Destination>

    /** The distributor of an invoker's output port, stamping messages from `rcc`. */
    constructor WithCarrier(outputName: string, rcc: RequestContextCarrier)
      ensures this.outputName == outputName && this.rcc == rcc && destinations == []
    {
      this.outputName := outputName;
      this.rcc := rcc;
      destinations := [];
    }

    /** The carrier-less distributor (a correlator's output): `rcc` stays null. */
    constructor(outputName: string)
      ensures this.outputName == outputName && rcc == null && destinations == []
    {
      this.outputName := outputName;
      rcc := null;
      destinations := [];
    }

    /** `addDestination`: append, keeping earlier destinations and their order; a
        destination registered twice is served twice. */
    method AddDestination(destination: Destination)
      modifies this
      ensures destinations == old(destinations) + [destination]
    {
      destinations := destinations + [destination];
    }

    /** `distribute`, as corrected (see `DistributeAsWritten`): enqueue one message per
        destination, in order, stamped with `requestContext`. A consumer that answers false
        loses its copy; later destinations are still served. */
    method Distribute(data: Value, requestContext: SimpleRequestContext?)
      modifies Consumers(destinations)
      ensures Delivered(Consumers(destinations), Outgoing(destinations, requestContext, data))
    {
      var i := 0;
      ghost var sent: seq<Delivery> := [];
      while i < |destinations|
        invariant 0 <= i <= |destinations|
        invariant sent == Outgoing(destinations[..i], requestContext, data)
        invariant forall m :: m in Consumers(destinations) ==>
          m.queue == OfferAll(old(m.queue), m.capacity, Addressed(m, sent))
      {
        var destination := destinations[i];
        var outDataMessage := Data(requestContext, destination.destinationName, data);
        assert destination.consumer in Consumers(destinations);
        label before:
        var _ := destination.consumer.Enqueue(outDataMessage);
        forall m | m in Consumers(destinations)
          ensures m.queue == OfferAll(old(m.queue), m.capacity, Addressed(m, sent + [Delivery(destination.consumer, outDataMessage)]))
        {
          assert old@before(m.queue) == OfferAll(old(m.queue), m.capacity, Addressed(m, sent));
          assert m.queue == if m == destination.consumer then Offer(old@before(m.queue), m.capacity, outDataMessage) else old@before(m.queue);
          OfferAllStep(m, old(m.queue), sent, Delivery(destination.consumer, outDataMessage));
        }
        sent := sent + [Delivery(destination.consumer, outDataMessage)];
        assert destinations[..i + 1][..i] == destinations[..i];
        i := i + 1;
      }
      assert destinations[..i] == destinations;
    }

    /** `distribute` as written: the messages are stamped from the carrier `rcc`, whatever
        `requestContext` says, so a carrier-less distributor with a destination throws a
        NullPointerException before anything is enqueued. */
    method DistributeAsWritten(data: Value, requestContext: SimpleRequestContext?) returns (o: Outcome<Error>)
      modifies Consumers(destinations)
      ensures rcc == null && destinations != [] ==>
        o == Fail(NullPointer) && forall m :: m in Consumers(destinations) ==> m.queue == old(m.queue)
      ensures rcc != null || destinations == [] ==>
        o == Pass && Delivered(Consumers(destinations), Outgoing(destinations, if rcc == null then null else old(rcc.requestContext), data))
    {
      if rcc == null {
        if destinations != [] {
          return Fail(NullPointer);
        }
        return Pass;
      }
      var carried := rcc.requestContext;
      Distribute(data, carried);
      o := Pass;
    }

    /** `emit(data, requestContext)`: forwards to `distribute`. */
    method Emit(data: Value, requestContext: SimpleRequestContext?)
      modifies Consumers(destinations)
      ensures Delivered(Consumers(destinations), Outgoing(destinations, requestContext, data))
    {
      Distribute(data, requestContext);
    }

    /** `emit(data)`: refuses a distributor without a carrier; otherwise emits with the
        carrier's current request context. */
    method EmitCarried(data: Value) returns (o: Outcome<Error>)
      modifies Consumers(destinations)
      ensures rcc == null ==> o == Fail(CarrierMissing) && forall m :: m in Consumers(destinations) ==> m.queue == old(m.queue)
      ensures rcc != null ==> o == Pass && Delivered(Consumers(destinations), Outgoing(destinations, old(rcc.requestContext), data))
    {
      if rcc == null {
        return Fail(CarrierMissing);
      }
      Emit(data, rcc.requestContext);
      o := Pass;
    }
  }

  /** The discrepancy of `DistributeAsWritten`: a correlator's output (no carrier) with one
      registered consumer fails instead of delivering the completed bundle. */
  method CorrelatorEmissionAsWritten(bundle: object) returns (o: Outcome<Error>, received: seq<DCMessage>)
    ensures o == Fail(NullPointer) && received == []
  {
    var invokerInbox := new Mailbox(20);
    var correlatedInputs := new DistributorOutput("correlatedInputs");
    correlatedInputs.AddDestination(Destination("collectedMethodParametersRow", invokerInbox));
    o := correlatedInputs.DistributeAsWritten(Ref(bundle), null);
    received := invokerInbox.queue;
  }

  /** The corrected distribution hands the same consumer the bundle, under the
      destination's name and the context given. */
  method CorrelatorEmissionCorrected(bundle: object, context: SimpleRequestContext) returns (received: seq<DCMessage>)
    ensures received == [Data(context, "collectedMethodParametersRow", Ref(bundle))]
  {
    var invokerInbox := new Mailbox(20);
    var correlatedInputs := new DistributorOutput("correlatedInputs");
    correlatedInputs.AddDestination(Destination("collectedMethodParametersRow", invokerInbox));
    var dests := correlatedInputs.destinations;
    assert dests == [Destination("collectedMethodParametersRow", invokerInbox)];
    assert dests[0].consumer == invokerInbox;
    assert invokerInbox in Consumers(dests);
    OutgoingToFreshConsumers(dests, context, Ref(bundle), 0);
    correlatedInputs.Distribute(Ref(bundle), context);
    received := invokerInbox.queue;
    assert received == OfferAll([], 20, [Data(context, "collectedMethodParametersRow", Ref(bundle))]);
  }
}
