/** `RunnableFlow`: assembles a flow definition into running components. It creates one
    `RunnableComponent` per component activity, wires every connection as a destination of
    its source component, and routes the flow's input to the first flow input's activity. */
module Flows {
  import opened Wrappers
  import opened KissData
  import opened Mailboxes
  import opened Distribution
  import opened Bundles
  import opened Invokers
  import opened Components

  /** An activity of the flow definition. A component carries what inspecting its class
      yields and its reflective call; any other activity (a nested flow) only a name. */
  datatype ActivityDef =
    | ComponentDef(name: string, componentClass: string, entryPoints: seq<EntryPoint>,
                   withoutExplicitOutputPort: bool, invoke: (string, string, seq<Value>) -> Invocation)
    | OtherActivity(name: string)

  /** `from.name/fromPort -> to.name/toPort`. */
  datatype Connection = Connection(fromName: string, fromPort: string, toName: string, toPort: string)
  datatype FlowInput = FlowInput(toName: string, toPort: string)
  datatype FlowOutput = FlowOutput(fromName: string)

  /** A flow definition; a `null` input or output array is None. */
  datatype FlowDef = FlowDef(flowName: string, activities: seq<ActivityDef>, connections: seq<Connection>,
                             flowInputs: Option<seq<FlowInput>>, flowOutputs: Option<seq<FlowOutput>>)

  /** The component activities by name, as `HashMap.put` leaves them: a later activity of the
      same name replaces an earlier one. */
  function Declared(defs: seq<ActivityDef>): (m: map<string, ActivityDef>)
    ensures forall k :: k in m ==> m[k].ComponentDef? && m[k].name == k
    decreases |defs|
  {
    if defs == [] then map[]
    else
      var m := Declared(defs[..|defs| - 1]);
      var d := defs[|defs| - 1];
      if d.ComponentDef? then m[d.name := d] else m
  }

  predicate IsComponentNamed(d: ActivityDef, k: string) {
    d.ComponentDef? && d.name == k
  }

  /** Exactly the component activities get an entry; other activities are skipped. */
  lemma {:induction false} DeclaredKeys(defs: seq<ActivityDef>, k: string)
    ensures k in Declared(defs) <==> exists i :: 0 <= i < |defs| && IsComponentNamed(defs[i], k)
    decreases |defs|
  {
    if defs != [] {
      var init := defs[..|defs| - 1];
      DeclaredKeys(init, k);
      if k in Declared(init) {
        var i :| 0 <= i < |init| && IsComponentNamed(init[i], k);
        assert defs[i] == init[i];
      }
      if exists i :: 0 <= i < |defs| && IsComponentNamed(defs[i], k) {
        var i :| 0 <= i < |defs| && IsComponentNamed(defs[i], k);
        if i < |init| {
          assert IsComponentNamed(init[i], k);
        }
      }
    }
  }

  /** The entry of a name is its last component activity. */
  lemma {:induction false} DeclaredLastWins(defs: seq<ActivityDef>, i: nat)
    requires i < |defs| && defs[i].ComponentDef?
    requires forall j :: i < j < |defs| ==> !IsComponentNamed(defs[j], defs[i].name)
    ensures defs[i].name in Declared(defs) && Declared(defs)[defs[i].name] == defs[i]
    decreases |defs|
  {
    var init := defs[..|defs| - 1];
    if i < |defs| - 1 {
      DeclaredLastWins(init, i);
      assert !IsComponentNamed(defs[|defs| - 1], defs[i].name);
    }
  }

  /** One `addDestination(port, consumer, destinationName)` on a component. */
  datatype Wire = Wire(port: string, dest: Destination)

  /** The port map after one more destination on the named port, as the invoker's
      `addDestination` leaves it. */
  function AddWire(w: map<string, seq<Destination>>, c: Wire): map<string, seq<Destination>> {
    w[c.port := (if c.port in w then w[c.port] else []) + [c.dest]]
  }

  function WireAll(w: map<string, seq<Destination>>, calls: seq<Wire>): (r: map<string, seq<Destination>>)
    decreases |calls|
  {
    if calls == [] then w else AddWire(WireAll(w, calls[..|calls| - 1]), calls[|calls| - 1])
  }

  /** Wiring keeps each port's earlier destinations, in order, in front of the new ones. */
  lemma {:induction false} WireAllKeepsPrefix(w: map<string, seq<Destination>>, calls: seq<Wire>, port: string)
    requires port in w
    ensures port in WireAll(w, calls) && w[port] <= WireAll(w, calls)[port]
    decreases |calls|
  {
    if calls != [] {
      WireAllKeepsPrefix(w, calls[..|calls| - 1], port);
    }
  }

  /** Both ends of a connection name an activity. */
  predicate Resolved(names: set<string>, c: Connection) {
    c.fromName in names && c.toName in names
  }

  /** The number of leading connections whose both ends exist: `addConnections` throws on
      the first one that has an unknown end. */
  function Unresolved(names: set<string>, conns: seq<Connection>): (n: nat)
    ensures n <= |conns|
    ensures forall j :: 0 <= j < n ==> Resolved(names, conns[j])
    ensures n < |conns| ==> !Resolved(names, conns[n])
    decreases |conns|
  {
    if conns == [] then 0
    else if !Resolved(names, conns[0]) then 0
    else 1 + Unresolved(names, conns[1..])
  }

  /** A resolved connection that no unresolved one precedes lies before the first
      unresolved one. */
  lemma ResolvedBeforeUnresolved(names: set<string>, conns: seq<Connection>, i: nat)
    requires i <= Unresolved(names, conns) && i < |conns| && Resolved(names, conns[i])
    ensures i < Unresolved(names, conns)
  {
  }

  /** The exception `addConnections` ends with at connection `c`: the source is looked up
      first. */
  function UnresolvedError(names: set<string>, c: Connection): Error {
    ActivityNotFound(if c.fromName !in names then c.fromName else c.toName)
  }

  /** The `addDestination` calls the connections make on the component named `k`, in order.
      Only connections whose target exists make a call (the wiring stops at the first one
      that has none). */
  function CallsFrom(acts: map<string, RunnableComponent>, k: string, conns: seq<Connection>): seq<Wire>
    decreases |conns|
  {
    if conns == [] then []
    else
      var c := conns[|conns| - 1];
      CallsFrom(acts, k, conns[..|conns| - 1]) +
        (if c.fromName == k && c.toName in acts then [Wire(c.fromPort, Destination(c.toPort, acts[c.toName].inbox))] else [])
  }

  /** A component that no connection starts from gets no destination. */
  lemma {:induction false} NoCallsFromUnconnected(acts: map<string, RunnableComponent>, k: string, conns: seq<Connection>)
    requires forall j :: 0 <= j < |conns| ==> conns[j].fromName != k
    ensures CallsFrom(acts, k, conns) == []
    decreases |conns|
  {
    if conns != [] {
      NoCallsFromUnconnected(acts, k, conns[..|conns| - 1]);
    }
  }

  /** Every connection from `k` adds its target's inbox, under the target port's name, to
      `k`'s port of the connection's source port name. */
  lemma {:induction false} ConnectionWired(acts: map<string, RunnableComponent>, k: string, conns: seq<Connection>, i: nat)
    requires i < |conns| && conns[i].fromName == k && conns[i].toName in acts
    ensures Wire(conns[i].fromPort, Destination(conns[i].toPort, acts[conns[i].toName].inbox)) in CallsFrom(acts, k, conns)
    decreases |conns|
  {
    if i < |conns| - 1 {
      ConnectionWired(acts, k, conns[..|conns| - 1], i);
    }
  }

  /** Wiring one more connection: only its source's port map grows, by that one call. */
  lemma CallsFromStep(acts: map<string, RunnableComponent>, k: string, conns: seq<Connection>, i: nat,
                      w: map<string, seq<Destination>>)
    requires i < |conns| && conns[i].toName in acts
    ensures var c := conns[i];
      WireAll(w, CallsFrom(acts, k, conns[..i + 1])) ==
        if c.fromName == k then AddWire(WireAll(w, CallsFrom(acts, k, conns[..i])), Wire(c.fromPort, Destination(c.toPort, acts[c.toName].inbox)))
        else WireAll(w, CallsFrom(acts, k, conns[..i]))
  {
    var prefix := conns[..i + 1];
    assert prefix[..|prefix| - 1] == conns[..i] && prefix[|prefix| - 1] == conns[i];
    var calls := CallsFrom(acts, k, conns[..i]);
    var c := conns[i];
    if c.fromName == k {
      var x := Wire(c.fromPort, Destination(c.toPort, acts[c.toName].inbox));
      assert CallsFrom(acts, k, prefix) == calls + [x];
      assert (calls + [x])[..|calls + [x]| - 1] == calls;
    } else {
      assert CallsFrom(acts, k, prefix) == calls + [];
      assert calls + [] == calls;
    }
  }

  /** What the flow's components must keep apart: every invoker is well formed, and
      distinct components have invokers with distinct carriers. Since an invoker stamps
      all its ports from its own carrier, no port is shared between components. */
  ghost predicate Separate(acts: map<string, RunnableComponent>)
    reads set k | k in acts :: acts[k].methodInvoker
  {
    (forall k :: k in acts ==> acts[k].methodInvoker.Valid()) &&
    forall k, l :: k in acts && l in acts && k != l ==> acts[k].methodInvoker.rcc != acts[l].methodInvoker.rcc
  }

  /** A component just built from its activity definition: the invoker calls the
      activity's class and nothing is wired yet. */
  ghost predicate BuiltFrom(c: RunnableComponent, d: ActivityDef, inputQueueLength: nat)
    reads c.methodInvoker, c.inbox
  {
    d.ComponentDef? &&
    c.inbox.capacity == inputQueueLength && c.inbox.queue == [] &&
    c.methodInvoker.componentClass == d.componentClass && c.methodInvoker.invoke == d.invoke &&
    c.methodInvoker.withoutExplicitOutputPort == d.withoutExplicitOutputPort &&
    c.methodInvoker.outputs == map[] &&
    c.correlators.Length == |d.entryPoints|
  }

  /** A new component with an unwired invoker of its own keeps the components apart. */
  lemma SeparateInsert(acts: map<string, RunnableComponent>, name: string, c: RunnableComponent)
    requires Separate(acts) && c.methodInvoker.Valid()
    requires forall k :: k in acts ==> acts[k].methodInvoker.rcc != c.methodInvoker.rcc
    ensures Separate(acts[name := c])
  {
  }

  /** `new RunnableComponent(...)` for one component activity. */
  method Build(inputQueueLength: nat, d: ActivityDef) returns (c: RunnableComponent)
    requires inputQueueLength > 0 && d.ComponentDef?
    ensures fresh(c) && fresh(c.methodInvoker) && fresh(c.methodInvoker.rcc)
    ensures c.methodInvoker.Valid() && BuiltFrom(c, d, inputQueueLength)
  {
    c := new RunnableComponent(inputQueueLength, d.componentClass, d.entryPoints, d.withoutExplicitOutputPort, d.invoke);
  }

  /** `createRunnableActivities`: one new component per component activity, filed under the
      activity's name. */
  method CreateRunnableActivities(inputQueueLength: nat, defs: seq<ActivityDef>) returns (acts: map<string, RunnableComponent>)
    requires inputQueueLength > 0
    ensures acts.Keys == Declared(defs).Keys
    ensures forall k :: k in acts ==>
      fresh(acts[k]) && fresh(acts[k].methodInvoker) && BuiltFrom(acts[k], Declared(defs)[k], inputQueueLength)
    ensures Separate(acts)
  {
    acts := map[];
    ghost var decl: map<string, ActivityDef> := map[];
    for i := 0 to |defs|
      invariant decl == Declared(defs[..i])
      invariant acts.Keys == decl.Keys
      invariant forall k :: k in acts ==>
        fresh(acts[k]) && fresh(acts[k].methodInvoker) && fresh(acts[k].methodInvoker.rcc) &&
        BuiltFrom(acts[k], decl[k], inputQueueLength)
      invariant Separate(acts)
    {
      assert defs[..i + 1][..i] == defs[..i];
      var d := defs[i];
      if d.ComponentDef? {
        var c := Build(inputQueueLength, d);
        SeparateInsert(acts, d.name, c);
        acts := acts[d.name := c];
        decl := decl[d.name := d];
      }
    }
    assert defs[..|defs|] == defs;
  }

  /** `InputConnector`: forwards into the first flow input's activity, under that input's
      port name. */
  class InputConnector {
    const destination: RunnableComponent
    const destinationName: string

    constructor(destination: RunnableComponent, destinationName: string)
      ensures this.destination == destination && this.destinationName == destinationName
    {
      this.destination := destination;
      this.destinationName := destinationName;
    }

    /** `enqueue`: a copy renamed to the connector's port, offered to the destination's inbox;
        the destination's answer is the connector's. */
    method Enqueue(dcmsg: DCMessage) returns (ok: bool)
      modifies destination.inbox
      ensures ok <==> |old(destination.inbox.queue)| < destination.inbox.capacity
      ensures destination.inbox.queue ==
        Offer(old(destination.inbox.queue), destination.inbox.capacity, CloneChangeDestinationName(dcmsg, destinationName))
    {
      ok := destination.inbox.Enqueue(CloneChangeDestinationName(dcmsg, destinationName));
    }

    /** `canBeEnqueued` asks the destination: the destination's inbox would accept the next
        four offers. */
    predicate CanBeEnqueued()
      reads destination.inbox
      ensures CanBeEnqueued() <==> Room(|destination.inbox.queue|, destination.inbox.capacity, 4) == 4
    {
      destination.inbox.CanBeEnqueued()
    }
  }

  /** `OutputConnector`: a placeholder holding the output activity and a port name. */
  class OutputConnector {
    const from: RunnableComponent
    const fromPort: string

    constructor(from: RunnableComponent, fromPort: string)
      ensures this.from == from && this.fromPort == fromPort
    {
      this.from := from;
      this.fromPort := fromPort;
    }
  }

  /** The exception creating the connectors ends with, or None: an unknown input activity,
      then an unknown output activity or (outputs without inputs) the missing first input. */
  function ConnectorError(flow: FlowDef, names: set<string>): Option<Error> {
    var hasInputs := flow.flowInputs.Some? && |flow.flowInputs.value| >= 1;
    var hasOutputs := flow.flowOutputs.Some? && |flow.flowOutputs.value| >= 1;
    if hasInputs && flow.flowInputs.value[0].toName !in names then Some(ActivityNotFound(flow.flowInputs.value[0].toName))
    else if hasOutputs && flow.flowOutputs.value[0].fromName !in names then Some(ActivityNotFound(flow.flowOutputs.value[0].fromName))
    else if hasOutputs && flow.flowInputs.None? then Some(NullPointer)
    else if hasOutputs && !hasInputs then Some(IndexOutOfBounds)
    else None
  }

  /** The exception the constructor ends with, or None when the flow assembles: an
      unresolved connection comes first, then the connectors' errors. */
  function AssemblyError(flow: FlowDef): Option<Error> {
    var names := Declared(flow.activities).Keys;
    var n := Unresolved(names, flow.connections);
    if n < |flow.connections| then Some(UnresolvedError(names, flow.connections[n]))
    else ConnectorError(flow, names)
  }

  /** The wiring step of `Connect`: the invoker of the component named `from` gains the
      destination on `port`; every other component's invoker, having another carrier and so
      other ports, keeps its ports as they were. */
  method WireInvoker(acts: map<string, RunnableComponent>, from: string,
                     port: string, consumer: Mailbox, destinationName: string)
    requires Separate(acts) && from in acts
    modifies acts[from].methodInvoker, acts[from].methodInvoker.Ports()
    ensures Separate(acts)
    ensures fresh(acts[from].methodInvoker.Ports() - old(acts[from].methodInvoker.Ports()))
    ensures forall k :: k in acts && k != from ==> acts[k].methodInvoker.Ports() == old(acts[k].methodInvoker.Ports())
    ensures forall k :: k in acts ==>
      acts[k].methodInvoker.Wiring() == if k == from
        then AddWire(old(acts[k].methodInvoker.Wiring()), Wire(port, Destination(destinationName, consumer)))
        else old(acts[k].methodInvoker.Wiring())
  {
    var inv := acts[from].methodInvoker;
    acts[from].AddDestination(port, consumer, destinationName);
    forall k | k in acts && k != from
      ensures acts[k].methodInvoker.outputs == old(acts[k].methodInvoker.outputs)
      ensures acts[k].methodInvoker.Wiring() == old(acts[k].methodInvoker.Wiring())
    {
      var o := acts[k].methodInvoker;
      assert o.rcc != inv.rcc;
      forall p | p in o.outputs ensures o.outputs[p].destinations == old(o.outputs[p].destinations) {
        assert o.outputs[p].rcc == o.rcc;
      }
    }
  }

  class RunnableFlow {
    const inbox: Mailbox
    const flow: FlowDef
    const inputQueueLength: nat
    /** `runnableActivities`, built once by the constructor. */
    const activities: map<string, RunnableComponent>
    var inputConnector: InputConnector?
    var outputConnector: OutputConnector?
    /** The components' invokers and output ports: what wiring may change. */
    ghost var Repr: set<object>

    ghost function Invokers(): set<MethodInvokerSequential>
    {
      set k | k in activities :: activities[k].methodInvoker
    }

    ghost predicate Valid()
      reads this`Repr, Repr
    {
      this !in Repr &&
      (forall k :: k in activities ==>
        activities[k].methodInvoker in Repr && activities[k].methodInvoker.Ports() <= Repr) &&
      Separate(activities)
    }

    /** The port wiring of the component named `k`. */
    ghost function WiringOf(k: string): map<string, seq<Destination>>
      reads activities[k].methodInvoker, activities[k].methodInvoker.Ports()
      requires k in activities
    {
      activities[k].methodInvoker.Wiring()
    }

    /** The constructor's fields, given the components `createRunnableActivities` built. */
    constructor(inputQueueLength: nat, flow: FlowDef, activities: map<string, RunnableComponent>)
      requires inputQueueLength > 0
      requires Separate(activities) && forall k :: k in activities ==> activities[k].methodInvoker.outputs == map[]
      ensures Valid() && Repr == Invokers()
      ensures fresh(inbox) && inbox.capacity == inputQueueLength && inbox.queue == []
      ensures this.flow == flow && this.inputQueueLength == inputQueueLength && this.activities == activities
      ensures inputConnector == null && outputConnector == null
    {
      inbox := new Mailbox(inputQueueLength);
      this.flow := flow;
      this.inputQueueLength := inputQueueLength;
      this.activities := activities;
      inputConnector := null;
      outputConnector := null;
      Repr := set k | k in activities :: activities[k].methodInvoker;
      new;
      assert forall k :: k in activities ==> activities[k].methodInvoker.Ports() == {};
    }

    /** `findActivity`: a search through the activities for the one of this name. */
    method FindActivity(activityName: string) returns (r: Result<RunnableComponent, Error>)
      ensures activityName in activities ==> r == Success(activities[activityName])
      ensures activityName !in activities ==> r == Failure(ActivityNotFound(activityName))
    {
      var names := activities.Keys;
      while names != {}
        invariant names <= activities.Keys
        invariant activityName in activities ==> activityName in names
        decreases |names|
      {
        var k :| k in names;
        if k == activityName {
          return Success(activities[k]);
        }
        names := names - {k};
      }
      return Failure(ActivityNotFound(activityName));
    }

    /** `from.addDestination(port, consumer, destinationName)` on the component named `from`:
        that component's port gains the destination, every other component is unchanged. */
    method Connect(from: string, port: string, consumer: Mailbox, destinationName: string)
      requires Valid() && from in activities
      modifies this`Repr, Repr
      ensures Valid() && fresh(Repr - old(Repr))
      ensures forall k :: k in activities ==>
        WiringOf(k) == if k == from then AddWire(old(WiringOf(k)), Wire(port, Destination(destinationName, consumer)))
                       else old(WiringOf(k))
    {
      ghost var inv := activities[from].methodInvoker;
      label before:
      WireInvoker(activities, from, port, consumer, destinationName);
      WiredInvoker@before(this, from, Wire(port, Destination(destinationName, consumer)));
      label wired:
      Repr := Repr + inv.Ports();
      WiringFramed@wired(this);
      forall k | k in activities
        ensures activities[k].methodInvoker in Repr && activities[k].methodInvoker.Ports() <= Repr
      {
        if k != from {
          assert activities[k].methodInvoker.Ports() == old(activities[k].methodInvoker.Ports());
        }
      }
    }

    /** What `WireInvoker` leaves behind, seen from the flow: only the wired component's
        wiring changed. */
    twostate lemma WiredInvoker(f: RunnableFlow, new from: string, new w: Wire)
      requires from in f.activities
      requires forall k :: k in f.activities ==>
        f.activities[k].methodInvoker.Wiring() == if k == from
          then AddWire(old(f.activities[k].methodInvoker.Wiring()), w)
          else old(f.activities[k].methodInvoker.Wiring())
      ensures forall k :: k in f.activities ==>
        f.WiringOf(k) == if k == from then AddWire(old(f.WiringOf(k)), w) else old(f.WiringOf(k))
    {
    }

    /** A change to the flow object itself leaves the components' wiring alone. */
    twostate lemma WiringFramed(f: RunnableFlow)
      requires forall k :: k in f.activities ==>
        unchanged(f.activities[k].methodInvoker) && unchanged(f.activities[k].methodInvoker.Ports())
      ensures forall k :: k in f.activities ==> f.WiringOf(k) == old(f.WiringOf(k))
    {
    }

    /** After `Connect` for connection `i`, a component's wiring is that of the connections
        up to and including `i`. */
    twostate lemma WiredOneMore(f: RunnableFlow, new k: string, new conns: seq<Connection>, new i: nat,
                                new w: map<string, seq<Destination>>)
      requires k in f.activities && i < |conns| && conns[i].toName in f.activities
      requires old(f.WiringOf(k)) == WireAll(w, CallsFrom(f.activities, k, conns[..i]))
      requires f.WiringOf(k) == if conns[i].fromName == k
        then AddWire(old(f.WiringOf(k)), Wire(conns[i].fromPort, Destination(conns[i].toPort, f.activities[conns[i].toName].inbox)))
        else old(f.WiringOf(k))
      ensures f.WiringOf(k) == WireAll(w, CallsFrom(f.activities, k, conns[..i + 1]))
    {
      CallsFromStep(f.activities, k, conns, i, w);
    }

    /** The first `i` connections have been wired on top of the wiring `w0`. */
    ghost predicate WiredUpTo(w0: map<string, map<string, seq<Destination>>>, i: nat)
      reads this`Repr, Repr
    {
      Valid() && i <= |flow.connections| &&
      forall k :: k in activities ==> k in w0 && WiringOf(k) == WireAll(w0[k], CallsFrom(activities, k, flow.connections[..i]))
    }

    /** Wiring connection `i`, both of whose ends exist, after the ones before it. */
    method WireConnection(ghost w0: map<string, map<string, seq<Destination>>>, i: nat)
      requires WiredUpTo(w0, i) && i < |flow.connections| && Resolved(activities.Keys, flow.connections[i])
      modifies this`Repr, Repr
      ensures WiredUpTo(w0, i + 1) && fresh(Repr - old(Repr))
    {
      var c := flow.connections[i];
      label before:
      Connect(c.fromName, c.fromPort, activities[c.toName].inbox, c.toPort);
      forall k | k in activities
        ensures WiringOf(k) == WireAll(w0[k], CallsFrom(activities, k, flow.connections[..i + 1]))
      {
        WiredOneMore@before(this, k, flow.connections, i, w0[k]);
      }
    }

    /** One round of `addConnections`' loop: look up both ends of connection `i`, throwing on
        the first unknown one, then wire it. */
    method ConnectNext(ghost w0: map<string, map<string, seq<Destination>>>, i: nat) returns (o: Outcome<Error>)
      requires WiredUpTo(w0, i) && i < |flow.connections|
      modifies this`Repr, Repr
      ensures fresh(Repr - old(Repr))
      ensures o.Fail? <==> !Resolved(activities.Keys, flow.connections[i])
      ensures o.Fail? ==> o.error == UnresolvedError(activities.Keys, flow.connections[i]) && WiredUpTo(w0, i)
      ensures o.Pass? ==> WiredUpTo(w0, i + 1)
    {
      var c := flow.connections[i];
      var from := FindActivity(c.fromName);
      if from.Failure? {
        return Fail(from.error);
      }
      var to := FindActivity(c.toName);
      if to.Failure? {
        return Fail(to.error);
      }
      WireConnection(w0, i);
      return Pass;
    }

    /** `addConnections`: each connection, in order, adds its target to its source's port;
        the first connection with an unknown end throws, and the earlier ones stay wired. */
    method AddConnections(ghost w0: map<string, map<string, seq<Destination>>>) returns (o: Outcome<Error>)
      requires Valid() && forall k :: k in activities ==> k in w0 && WiringOf(k) == w0[k]
      modifies this`Repr, Repr
      ensures fresh(Repr - old(Repr))
      ensures var n := Unresolved(activities.Keys, flow.connections);
        (o == if n == |flow.connections| then Pass else Fail(UnresolvedError(activities.Keys, flow.connections[n]))) &&
        WiredUpTo(w0, n)
    {
      ghost var n := Unresolved(activities.Keys, flow.connections);
      assert flow.connections[..0] == [];
      forall k | k in activities ensures WiringOf(k) == WireAll(w0[k], CallsFrom(activities, k, flow.connections[..0])) {
      }
      assert WiredUpTo(w0, 0);
      var i := 0;
      while i < |flow.connections|
        invariant 0 <= i <= n
        invariant WiredUpTo(w0, i)
        invariant fresh(Repr - old(Repr))
      {
        o := ConnectNext(w0, i);
        if o.Fail? {
          assert i == n;
          return;
        }
        ResolvedBeforeUnresolved(activities.Keys, flow.connections, i);
        i := i + 1;
      }
      return Pass;
    }

    /** `createInputConnector`: none without flow inputs, else a connector into the first
        input's activity under its port name. */
    method CreateInputConnector() returns (r: Result<InputConnector?, Error>)
      ensures flow.flowInputs.None? || |flow.flowInputs.value| == 0 ==> r == Success(null)
      ensures flow.flowInputs.Some? && |flow.flowInputs.value| >= 1 ==>
        var input := flow.flowInputs.value[0];
        if input.toName in activities
        then r.Success? && r.value != null && fresh(r.value) &&
             r.value.destination == activities[input.toName] && r.value.destinationName == input.toPort
        else r == Failure(ActivityNotFound(input.toName))
    {
      if flow.flowInputs.None? || |flow.flowInputs.value| < 1 {
        return Success(null);
      }
      var input := flow.flowInputs.value[0];
      var to := FindActivity(input.toName);
      if to.Failure? {
        return Failure(to.error);
      }
      var connector := new InputConnector(to.value, input.toPort);
      return Success(connector);
    }

    /** `createOutputConnector`: none without flow outputs; else a connector on the first
        output's activity whose port name is read from the first flow INPUT. */
    method CreateOutputConnector() returns (r: Result<OutputConnector?, Error>)
      ensures flow.flowOutputs.None? || |flow.flowOutputs.value| == 0 ==> r == Success(null)
      ensures flow.flowOutputs.Some? && |flow.flowOutputs.value| >= 1 ==>
        var output := flow.flowOutputs.value[0];
        if output.fromName !in activities then r == Failure(ActivityNotFound(output.fromName))
        else if flow.flowInputs.None? then r == Failure(NullPointer)
        else if |flow.flowInputs.value| == 0 then r == Failure(IndexOutOfBounds)
        else r.Success? && r.value != null && fresh(r.value) &&
             r.value.from == activities[output.fromName] && r.value.fromPort == flow.flowInputs.value[0].toPort
    {
      if flow.flowOutputs.None? || |flow.flowOutputs.value| < 1 {
        return Success(null);
      }
      var from := FindActivity(flow.flowOutputs.value[0].fromName);
      if from.Failure? {
        return Failure(from.error);
      }
      if flow.flowInputs.None? {
        return Failure(NullPointer);
      }
      if |flow.flowInputs.value| < 1 {
        return Failure(IndexOutOfBounds);
      }
      var connector := new OutputConnector(from.value, flow.flowInputs.value[0].toPort);
      return Success(connector);
    }

    /** `addDestination`: without flow outputs nothing happens; otherwise the destination is
        added to the first output's activity, and no other component changes. */
    method AddDestination(outputName: string, consumer: Mailbox, destinationName: string) returns (o: Outcome<Error>)
      requires Valid()
      modifies this`Repr, Repr
      ensures Valid() && fresh(Repr - old(Repr))
      ensures flow.flowOutputs.None? || |flow.flowOutputs.value| == 0 ==>
        o == Pass && forall k :: k in activities ==> WiringOf(k) == old(WiringOf(k))
      ensures flow.flowOutputs.Some? && |flow.flowOutputs.value| >= 1 ==>
        var from := flow.flowOutputs.value[0].fromName;
        (o == if from in activities then Pass else Fail(ActivityNotFound(from))) &&
        forall k :: k in activities ==>
          WiringOf(k) == if k == from then AddWire(old(WiringOf(k)), Wire(outputName, Destination(destinationName, consumer)))
                         else old(WiringOf(k))
    {
      if flow.flowOutputs.None? || |flow.flowOutputs.value| < 1 {
        return Pass;
      }
      var from := flow.flowOutputs.value[0].fromName;
      var found := FindActivity(from);
      if found.Failure? {
        return Fail(found.error);
      }
      Connect(from, outputName, consumer, destinationName);
      return Pass;
    }

    /** The connectors of an assembled flow: into the first flow input's activity under its
        port name, and from the first flow output's activity under the first input's port
        name; each is null exactly when there is no such input or output. */
    ghost predicate Connected()
      reads this`inputConnector, this`outputConnector
    {
      ConnectorError(flow, activities.Keys).None? &&
      (inputConnector == null <==> flow.flowInputs.None? || |flow.flowInputs.value| == 0) &&
      (inputConnector != null ==>
        inputConnector.destination == activities[flow.flowInputs.value[0].toName] &&
        inputConnector.destinationName == flow.flowInputs.value[0].toPort) &&
      (outputConnector == null <==> flow.flowOutputs.None? || |flow.flowOutputs.value| == 0) &&
      (outputConnector != null ==>
        outputConnector.from == activities[flow.flowOutputs.value[0].fromName] &&
        outputConnector.fromPort == flow.flowInputs.value[0].toPort)
    }

    /** The constructor's last steps: `createInputConnector`, then `createOutputConnector`,
        whose connectors become the flow's. */
    method AttachConnectors() returns (o: Outcome<Error>)
      modifies this`inputConnector, this`outputConnector
      ensures o.Fail? <==> ConnectorError(flow, activities.Keys).Some?
      ensures o.Fail? ==> o.error == ConnectorError(flow, activities.Keys).value
      ensures o.Pass? ==> Connected()
    {
      var input := CreateInputConnector();
      if input.Failure? {
        return Fail(input.error);
      }
      var output := CreateOutputConnector();
      if output.Failure? {
        return Fail(output.error);
      }
      inputConnector := input.value;
      outputConnector := output.value;
      return Pass;
    }

    /** `processDataMessage`: `inputConnector.enqueue(message)`, which dereferences null when
        the flow has no input. */
    method ProcessDataMessage(dataMessage: DCMessage) returns (r: Result<bool, Error>)
      modifies if inputConnector == null then {} else {inputConnector.destination.inbox}
      ensures inputConnector == null ==> r == Failure(NullPointer)
      ensures inputConnector != null ==>
        var box := inputConnector.destination.inbox;
        r.Success? && (r.value <==> |old(box.queue)| < box.capacity) &&
        box.queue == Offer(old(box.queue), box.capacity, CloneChangeDestinationName(dataMessage, inputConnector.destinationName))
    {
      if inputConnector == null {
        return Failure(NullPointer);
      }
      var ok := inputConnector.Enqueue(dataMessage);
      return Success(ok);
    }

    /** `processMessage`: data goes to the input connector; the null dereference of a flow
        without inputs ends the run loop. */
    method ProcessMessage(dcmsg: Option<DCMessage>) returns (s: StepResult)
      modifies if inputConnector == null then {} else {inputConnector.destination.inbox}
      ensures s == if dcmsg.None? then Idle
                   else if !dcmsg.value.Data? then Ignored
                   else if inputConnector == null then Crashed(NullPointer)
                   else Processed
      ensures s == Processed ==>
        var box := inputConnector.destination.inbox;
        box.queue == Offer(old(box.queue), box.capacity, CloneChangeDestinationName(dcmsg.value, inputConnector.destinationName))
    {
      if dcmsg.None? {
        return Idle;
      }
      if !dcmsg.value.Data? {
        return Ignored;
      }
      var r := ProcessDataMessage(dcmsg.value);
      s := if r.Failure? then Crashed(r.error) else Processed;
    }
  }

  /** The constructor up to `addConnections`: the components are built and nothing is wired. */
  method NewFlow(inputQueueLength: nat, flow: FlowDef) returns (f: RunnableFlow)
    requires inputQueueLength > 0
    ensures fresh(f) && f.Valid() && fresh(f.Repr) && f.flow == flow
    ensures f.activities.Keys == Declared(flow.activities).Keys
    ensures forall k :: k in f.activities ==> f.WiringOf(k) == map[]
    ensures f.inputConnector == null && f.outputConnector == null
  {
    var acts := CreateRunnableActivities(inputQueueLength, flow.activities);
    f := new RunnableFlow(inputQueueLength, flow, acts);
    forall k | k in f.activities ensures f.WiringOf(k) == map[] {
      assert f.activities[k].methodInvoker.outputs == map[];
    }
  }

  /** The constructor up to and including `addConnections`. */
  method WiredFlow(inputQueueLength: nat, flow: FlowDef) returns (f: RunnableFlow, o: Outcome<Error>)
    requires inputQueueLength > 0
    ensures fresh(f) && f.Valid() && f.flow == flow && f.activities.Keys == Declared(flow.activities).Keys
    ensures var names := Declared(flow.activities).Keys; var n := Unresolved(names, flow.connections);
      o == if n == |flow.connections| then Pass else Fail(UnresolvedError(names, flow.connections[n]))
    ensures o.Pass? ==>
      forall k :: k in f.activities ==> f.WiringOf(k) == WireAll(map[], CallsFrom(f.activities, k, flow.connections))
  {
    f := NewFlow(inputQueueLength, flow);
    ghost var w0 := map k | k in f.activities :: map[];
    o := f.AddConnections(w0);
    if o.Pass? {
      WiredAllFromScratch(f, w0);
    }
  }

  /** Every connection wired on top of empty ports: each component's wiring is that of its
      outgoing connections alone. */
  lemma WiredAllFromScratch(f: RunnableFlow, w0: map<string, map<string, seq<Destination>>>)
    requires f.WiredUpTo(w0, |f.flow.connections|)
    requires forall k :: k in f.activities ==> k in w0 && w0[k] == map[]
    ensures forall k :: k in f.activities ==>
      f.WiringOf(k) == WireAll(map[], CallsFrom(f.activities, k, f.flow.connections))
  {
    assert f.flow.connections[..|f.flow.connections|] == f.flow.connections;
  }

  /** The whole `RunnableFlow` constructor: build the components, wire the connections and
      create both connectors, throwing the first exception `AssemblyError` names. On success
      every component's ports hold exactly the destinations its outgoing connections add. */
  method Assemble(inputQueueLength: nat, flow: FlowDef) returns (r: Result<RunnableFlow, Error>)
    requires inputQueueLength > 0
    ensures r.Failure? <==> AssemblyError(flow).Some?
    ensures r.Failure? ==> r.error == AssemblyError(flow).value
    ensures r.Success? ==>
      var f := r.value;
      fresh(f) && f.Valid() && f.flow == flow && f.activities.Keys == Declared(flow.activities).Keys &&
      (forall k :: k in f.activities ==> f.WiringOf(k) == WireAll(map[], CallsFrom(f.activities, k, flow.connections))) &&
      f.Connected()
  {
    var f, o := WiredFlow(inputQueueLength, flow);
    if o.Fail? {
      return Failure(o.error);
    }
    label wired:
    o := f.AttachConnectors();
    if o.Fail? {
      return Failure(o.error);
    }
    ReprKept@wired(f);
    return Success(f);
  }

  /** A change that leaves the components' invokers and ports alone keeps the flow well
      formed and every component's wiring as it was. */
  twostate lemma ReprKept(f: RunnableFlow)
    requires old(f.Valid()) && f.Repr == old(f.Repr)
    requires unchanged(old(f.Repr))
    ensures f.Valid()
    ensures forall k :: k in f.activities ==> f.WiringOf(k) == old(f.WiringOf(k))
  {
  }
}
