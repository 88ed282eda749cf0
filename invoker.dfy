/** `MethodInvokerSequential`: calls a component method on each completed argument bundle,
    one call at a time, and forwards either the return value (components without output
    ports) or what the component emits on its injected output ports. */
module Invokers {
  import opened Wrappers
  import opened KissData
  import opened Mailboxes
  import opened Distribution
  import opened Bundles

  /** A value the component emits, during the call, on one of its injected output ports. */
  datatype Emission = Emission(outputName: string, data: Value)

  datatype Returned = Returned(value: Value) | Threw

  /** What `Method.invoke` does, as far as the invoker can observe: the emissions the
      component makes, in order, and how the call ends. */
  datatype Invocation = Invocation(emits: seq<Emission>, result: Returned)

  /** The number of leading emissions that reach a port: the component's first emission on a
      port that was never created dereferences a null field, and the call ends there. */
  function Reached(ports: map<string, seq<Destination>>, emits: seq<Emission>): (n: nat)
    ensures n <= |emits|
    ensures forall j :: 0 <= j < n ==> emits[j].outputName in ports
    ensures n < |emits| ==> emits[n].outputName !in ports
    decreases |emits|
  {
    if emits == [] then 0
    else if emits[0].outputName !in ports then 0
    else 1 + Reached(ports, emits[1..])
  }

  /** The deliveries of a sequence of emissions on existing ports, each stamped with the
      carrier's context. */
  function Fanout(ports: map<string, seq<Destination>>, emits: seq<Emission>, context: SimpleRequestContext?): seq<Delivery>
    requires forall j :: 0 <= j < |emits| ==> emits[j].outputName in ports
    decreases |emits|
  {
    if emits == [] then []
    else
      var last := emits[|emits| - 1];
      Fanout(ports, emits[..|emits| - 1], context) + Outgoing(ports[last.outputName], context, last.data)
  }

  /** Everything one `Invoker.call` delivers, given the port wiring at the time of the call.
      Without explicit output ports, a returned value goes once to the entry point's output
      port, and nothing goes anywhere if that port does not exist or the method threw. With
      explicit ports, the component's own emissions go out up to the first missing port. */
  function CallDeliveries(ports: map<string, seq<Destination>>, withoutExplicitOutputPort: bool,
                          inv: Invocation, outputName: string, context: SimpleRequestContext?): seq<Delivery>
  {
    if withoutExplicitOutputPort then
      if inv.result.Returned? && outputName in ports then Outgoing(ports[outputName], context, inv.result.value) else []
    else
      Fanout(ports, inv.emits[..Reached(ports, inv.emits)], context)
  }

  /** Without explicit output ports, a successful call delivers one message per destination of
      the output port, carrying the returned value, and nothing else. */
  lemma ReturnValueForwarded(ports: map<string, seq<Destination>>, inv: Invocation, outputName: string,
                             context: SimpleRequestContext?, i: nat)
    requires inv.result.Returned? && outputName in ports && i < |ports[outputName]|
    ensures var ds := CallDeliveries(ports, true, inv, outputName, context);
      |ds| == |ports[outputName]| &&
      ds[i] == Delivery(ports[outputName][i].consumer, Data(context, ports[outputName][i].destinationName, inv.result.value))
  {
  }

  /** A call that threw, or whose output port was never created, delivers nothing. */
  lemma FailedCallDeliversNothing(ports: map<string, seq<Destination>>, inv: Invocation, outputName: string,
                                  context: SimpleRequestContext?)
    requires inv.result.Threw? || outputName !in ports
    ensures CallDeliveries(ports, true, inv, outputName, context) == []
  {
  }

  /** With explicit output ports, the return value is never forwarded: what a call delivers
      depends only on the component's emissions, whatever the method returned or threw, and
      a call whose component emits nothing delivers nothing. */
  lemma ExplicitPortsIgnoreResult(ports: map<string, seq<Destination>>, inv: Invocation, outputName: string,
                                  context: SimpleRequestContext?, other: Returned)
    ensures CallDeliveries(ports, false, inv, outputName, context)
         == CallDeliveries(ports, false, Invocation(inv.emits, other), outputName, context)
    ensures inv.emits == [] ==> CallDeliveries(ports, false, inv, outputName, context) == []
  {
  }

  /** Every delivery of a call carries the context of the request being served. */
  lemma {:induction false} FanoutStamped(ports: map<string, seq<Destination>>, emits: seq<Emission>,
                                         context: SimpleRequestContext?, i: nat)
    requires forall j :: 0 <= j < |emits| ==> emits[j].outputName in ports
    requires i < |Fanout(ports, emits, context)|
    ensures Fanout(ports, emits, context)[i].msg.Data? && Fanout(ports, emits, context)[i].msg.context == context
    decreases |emits|
  {
    var init := emits[..|emits| - 1];
    var last := emits[|emits| - 1];
    var head := Fanout(ports, init, context);
    if i < |head| {
      FanoutStamped(ports, init, context, i);
    } else {
      assert Fanout(ports, emits, context)[i] == Outgoing(ports[last.outputName], context, last.data)[i - |head|];
    }
  }

  /** Every mailbox some port sends to. */
  function Targets(ports: map<string, seq<Destination>>): set<Mailbox> {
    set k, i | k in ports && 0 <= i < |ports[k]| :: ports[k][i].consumer
  }

  lemma ConsumersWithinTargets(ports: map<string, seq<Destination>>, k: string)
    requires k in ports
    ensures Consumers(ports[k]) <= Targets(ports)
  {
    forall m | m in Consumers(ports[k]) ensures m in Targets(ports) {
      var i :| 0 <= i < |ports[k]| && ports[k][i].consumer == m;
    }
  }

  /** `data instanceof CorrelatedEntryPointArguments`. */
  predicate IsBundle(data: Value) {
    data.Ref? && data.obj is CorrelatedEntryPointArguments
  }

  class MethodInvokerSequential {
    const inbox: Mailbox
    const componentClass: string
    const withoutExplicitOutputPort: bool
    /** `Method.invoke` on the component instance: the class, the method name and the
        argument values determine what the call does. */
    const invoke: (string, string, seq<Value>) -> Invocation
    const rcc: RequestContextCarrier
    var nrOfActiveCalls: int
    /** `actvityOutputs`: the output ports created so far, by name. */
    var outputs: map<string, DistributorOutput>

    /** Every port stamps from this invoker's carrier, is filed under its own name, and no
        two names share a distributor. */
    ghost predicate Valid()
      reads this
    {
      (forall k :: k in outputs ==> outputs[k].rcc == rcc && outputs[k].outputName == k) &&
      (forall k, l :: k in outputs && l in outputs && k != l ==> outputs[k] != outputs[l])
    }

    ghost function Ports(): set<DistributorOutput>
      reads this
    {
      set k | k in outputs :: outputs[k]
    }

    /** The destinations of every port, by port name. */
    ghost function Wiring(): map<string, seq<Destination>>
      reads this, Ports()
    {
      map k | k in outputs :: outputs[k].destinations
    }

    ghost function Receivers(): set<Mailbox>
      reads this, Ports()
    {
      Targets(Wiring())
    }

    constructor(inputQueueLength: nat, componentClass: string, invoke: (string, string, seq<Value>) -> Invocation,
                withoutExplicitOutputPort: bool)
      requires inputQueueLength > 0
      ensures Valid()
      ensures fresh(inbox) && inbox.capacity == inputQueueLength && inbox.queue == []
      ensures this.componentClass == componentClass && this.invoke == invoke
      ensures this.withoutExplicitOutputPort == withoutExplicitOutputPort
      ensures fresh(rcc) && rcc.requestContext == null
      ensures nrOfActiveCalls == 0 && outputs == map[]
    {
      inbox := new Mailbox(inputQueueLength);
      this.componentClass := componentClass;
      this.invoke := invoke;
      this.withoutExplicitOutputPort := withoutExplicitOutputPort;
      rcc := new RequestContextCarrier();
      nrOfActiveCalls := 0;
      outputs := map[];
    }

    /** `getOrPut`: the port of this name, created empty (with this invoker's carrier) on
        first use; an existing port and all other ports are left as they are. */
    method GetOrPut(outputName: string) returns (output: DistributorOutput)
      requires Valid()
      modifies this
      ensures Valid()
      ensures outputName in old(outputs) ==> output == old(outputs)[outputName] && outputs == old(outputs)
      ensures outputName !in old(outputs) ==>
        fresh(output) && output.destinations == [] && outputs == old(outputs)[outputName := output]
      ensures output.rcc == rcc && output.outputName == outputName
      ensures nrOfActiveCalls == old(nrOfActiveCalls)
    {
      if outputName in outputs {
        return outputs[outputName];
      }
      output := new DistributorOutput.WithCarrier(outputName, rcc);
      outputs := outputs[outputName := output];
    }

    /** `addDestination`: one more destination at the end of the named port, created if
        needed; no other port changes. Injecting the port into the component is not
        observable here (its errors are swallowed). */
    method AddDestination(outputName: string, consumer: Mailbox, destinationName: string)
      requires Valid()
      modifies this, Ports()
      ensures Valid()
      ensures outputs.Keys == old(outputs.Keys) + {outputName}
      ensures forall k :: k in old(outputs) ==> outputs[k] == old(outputs[k])
      ensures outputName !in old(outputs) ==> fresh(outputs[outputName])
      ensures Wiring() == old(Wiring())[outputName :=
        (if outputName in old(outputs) then old(outputs[outputName].destinations) else []) + [Destination(destinationName, consumer)]]
      ensures nrOfActiveCalls == old(nrOfActiveCalls)
    {
      var output := GetOrPut(outputName);
      output.AddDestination(Destination(destinationName, consumer));
    }

    /** `processDataMessage`: anything but an argument bundle is refused before any call;
        a bundle is invoked, under the message's context, and returned. The in-flight counter
        is back where it was once the call has ended. */
    method ProcessDataMessage(context: SimpleRequestContext?, data: Value) returns (r: Result<CorrelatedEntryPointArguments, Error>)
      requires Valid()
      modifies this, rcc, Receivers()
      ensures Valid() && outputs == old(outputs)
      ensures forall k :: k in outputs ==> outputs[k].destinations == old(outputs[k].destinations)
      ensures nrOfActiveCalls == old(nrOfActiveCalls)
      ensures !IsBundle(data) ==>
        r == Failure(NotCorrelatedArguments) && rcc.requestContext == old(rcc.requestContext) &&
        forall m :: m in old(Receivers()) ==> m.queue == old(m.queue)
      ensures IsBundle(data) ==>
        var row := data.obj as CorrelatedEntryPointArguments;
        r == Success(row) && rcc.requestContext == context &&
        Delivered(old(Receivers()), CallDeliveries(old(Wiring()), withoutExplicitOutputPort,
          invoke(componentClass, row.entryPoint.methodName, old(row.inputArgs[..])), row.entryPoint.outputName, context))
    {
      if !IsBundle(data) {
        return Failure(NotCorrelatedArguments);
      }
      var row := data.obj as CorrelatedEntryPointArguments;
      ghost var ports := Wiring();
      assert WiredAs(ports);
      nrOfActiveCalls := nrOfActiveCalls + 1;
      Call(ports, row, context);
      r := Success(row);
    }

    /** `processMessage`: the dispatch of one polled message. Only a data message carrying an
        argument bundle leads to a call; data of any other kind throws, which ends the
        actor's run loop (`Crashed`), and everything else is passed over. */
    method ProcessMessage(dcmsg: Option<DCMessage>) returns (s: StepResult)
      requires Valid()
      modifies this, rcc, Receivers()
      ensures Valid() && outputs == old(outputs)
      ensures forall k :: k in outputs ==> outputs[k].destinations == old(outputs[k].destinations)
      ensures nrOfActiveCalls == old(nrOfActiveCalls)
      ensures dcmsg.None? ==> s == Idle
      ensures dcmsg.Some? && !dcmsg.value.Data? ==> s == Ignored
      ensures s.Crashed? <==> dcmsg.Some? && dcmsg.value.Data? && !IsBundle(dcmsg.value.data)
      ensures s.Crashed? ==> s.error == NotCorrelatedArguments
      ensures s != Processed ==>
        rcc.requestContext == old(rcc.requestContext) && forall m :: m in old(Receivers()) ==> m.queue == old(m.queue)
      ensures s == Processed ==>
        dcmsg.Some? && dcmsg.value.Data? && IsBundle(dcmsg.value.data) &&
        var d := dcmsg.value;
        var row := d.data.obj as CorrelatedEntryPointArguments;
        rcc.requestContext == d.context &&
        Delivered(old(Receivers()), CallDeliveries(old(Wiring()), withoutExplicitOutputPort,
          invoke(componentClass, row.entryPoint.methodName, old(row.inputArgs[..])), row.entryPoint.outputName, d.context))
    {
      if dcmsg.None? {
        return Idle;
      }
      match dcmsg.value {
        case Data(context, _, data) =>
          var r := ProcessDataMessage(context, data);
          s := if r.Failure? then Crashed(r.error) else Processed;
        case _ =>
          s := Ignored;
      }
    }

    /** `Invoker.call`: sets the carrier to the request's context, invokes the method on the
        bundle's arguments, forwards per `CallDeliveries`, swallows every exception and ends
        by decrementing the in-flight counter. `ports` is the wiring at the time of the call. */
    method Call(ghost ports: map<string, seq<Destination>>, row: CorrelatedEntryPointArguments,
                requestContext: SimpleRequestContext?)
      requires Valid() && WiredAs(ports)
      modifies this, rcc, Targets(ports)
      ensures Valid() && outputs == old(outputs) && WiredAs(ports)
      ensures nrOfActiveCalls == old(nrOfActiveCalls) - 1
      ensures rcc.requestContext == requestContext
      ensures Delivered(Targets(ports), CallDeliveries(ports, withoutExplicitOutputPort,
        invoke(componentClass, row.entryPoint.methodName, old(row.inputArgs[..])), row.entryPoint.outputName, requestContext))
    {
      rcc.requestContext := requestContext;
      label carried:
      var inv := invoke(componentClass, row.entryPoint.methodName, row.inputArgs[..]);
      Forward(ports, inv, row.entryPoint.outputName, requestContext);
      forall m | m in Targets(ports)
        ensures m.queue == OfferAll(old(m.queue), m.capacity,
          Addressed(m, CallDeliveries(ports, withoutExplicitOutputPort, inv, row.entryPoint.outputName, requestContext)))
      {
        assert old@carried(m.queue) == old(m.queue);
      }
      nrOfActiveCalls := nrOfActiveCalls - 1;
    }

    /** What the call forwards once the method has run: the return value on the entry
        point's output port, or the component's own emissions on its ports. */
    method Forward(ghost ports: map<string, seq<Destination>>, inv: Invocation, outputName: string,
                   requestContext: SimpleRequestContext?)
      requires Valid() && WiredAs(ports) && rcc.requestContext == requestContext
      modifies Targets(ports)
      ensures Valid() && WiredAs(ports)
      ensures Delivered(Targets(ports), CallDeliveries(ports, withoutExplicitOutputPort, inv, outputName, requestContext))
    {
      if withoutExplicitOutputPort {
        if inv.result.Returned? && outputName in outputs {
          EmitOn(ports, outputName, inv.result.value, requestContext, false);
        }
      } else {
        ExplicitEmissions(ports, inv.emits, requestContext);
      }
    }

    /** The port wiring is still the snapshot `ports`. */
    ghost predicate WiredAs(ports: map<string, seq<Destination>>)
      reads this, Ports()
    {
      (forall k :: k in outputs <==> k in ports) &&
      forall k :: k in outputs ==> outputs[k].destinations == ports[k]
    }

    /** One `emit` on an existing port: `emit(data, requestContext)` when the invoker forwards
        a result, `emit(data)` (stamped from the carrier) when the component emits. Either
        way the port's destinations receive the data under the request's context. */
    method EmitOn(ghost ports: map<string, seq<Destination>>, outputName: string, data: Value,
                  requestContext: SimpleRequestContext?, carried: bool)
      requires Valid() && WiredAs(ports) && outputName in ports
      requires carried ==> rcc.requestContext == requestContext
      modifies Targets(ports)
      ensures WiredAs(ports)
      ensures Delivered(Targets(ports), Outgoing(ports[outputName], requestContext, data))
    {
      var output := outputs[outputName];
      assert output in Ports();
      ConsumersWithinTargets(ports, outputName);
      if carried {
        var _ := output.EmitCarried(data);
      } else {
        output.Emit(data, requestContext);
      }
      forall m | m in Targets(ports)
        ensures m.queue == OfferAll(old(m.queue), m.capacity, Addressed(m, Outgoing(ports[outputName], requestContext, data)))
      {
        if m !in Consumers(ports[outputName]) {
          OutgoingMissing(m, ports[outputName], requestContext, data);
        }
      }
    }

    /** The component's own `emit(data)` calls during the invocation, each stamped from the
        carrier, up to the first emission on a port that does not exist. */
    method ExplicitEmissions(ghost ports: map<string, seq<Destination>>, emits: seq<Emission>, requestContext: SimpleRequestContext?)
      requires Valid() && WiredAs(ports) && rcc.requestContext == requestContext
      modifies Targets(ports)
      ensures WiredAs(ports)
      ensures Delivered(Targets(ports), Fanout(ports, emits[..Reached(ports, emits)], requestContext))
    {
      var i := 0;
      while i < |emits| && emits[i].outputName in outputs
        invariant 0 <= i <= Reached(ports, emits)
        invariant WiredAs(ports)
        invariant forall m :: m in Targets(ports) ==>
          m.queue == OfferAll(old(m.queue), m.capacity, Addressed(m, Fanout(ports, emits[..i], requestContext)))
      {
        var e := emits[i];
        ghost var acc := Fanout(ports, emits[..i], requestContext);
        ghost var out := Outgoing(ports[e.outputName], requestContext, e.data);
        EmitOn(ports, e.outputName, e.data, requestContext, true);
        assert emits[..i + 1][..i] == emits[..i];
        assert Fanout(ports, emits[..i + 1], requestContext) == acc + out;
        forall m | m in Targets(ports)
          ensures m.queue == OfferAll(old(m.queue), m.capacity, Addressed(m, acc + out))
        {
          OfferAllThen(m, old(m.queue), acc, out);
        }
        i := i + 1;
      }
    }
  }
}
