# LiteFlowKiss correlation and join engine, modelled in Dafny

This project models the "kiss" runtime of LiteFlow, in which flows run as networks of
mailbox actors. The model covers the following parts:

- **Request contexts.** `SimpleRequestContext` draws its request id from a shared counter
  (`KissData`).
- **Mailboxes.** Every `SequentialActivity` has a bounded input queue. `Mailboxes` models
  its non-blocking `enqueue`, the advisory `canBeEnqueued` and the dispatch of one polled
  message.
- **Output ports.** `DistributorOutput` fans a value out to its destinations in order
  (`Distribution`).
- **Argument bundles.** `CorrelatedEntryPointArguments` holds write-once argument slots
  (`Bundles`). Lemmas cover what any sequence of `put`s leaves in them: completion, order
  independence, monotonicity and at most one emission.
- **Correlator.** The `Correlator` keeps an access-ordered store of bundles with age-based
  eviction of the eldest entry, and emits a bundle once it is complete (`Correlation`).
  The main members use the corrected `distribute` (see Findings); the `AsWritten`
  members show that the code as written crashes on every completion.
- **Invoker.** `MethodInvokerSequential` calls the component method on a completed bundle.
  It forwards either the return value or the component's own emissions, and it swallows
  every failure of the call (`Invokers`).
- **Component.** `RunnableComponent` builds one correlator per entry point and broadcasts
  every data message to all of them (`Components`).
- **Flow.** `RunnableFlow` assembles a flow definition (`Flows`):
  - it builds the components;
  - it wires every connection, stopping at the first unknown activity;
  - it creates the input and output connectors;
  - it routes the flow's input.
- **Log formatter.** `StructFormatter` lays out one log line (`StructFormatting`). `Text`
  holds the padding and decimal rendering it shares with the request context.

How the Java code is represented:

- **Stateful objects become classes.** Objects whose fields the source updates are Dafny
  classes: mailbox, distributor, bundle, correlator, invoker, component and flow.
- **Arrays and collections.** The bundle keeps its two Java arrays as `array`s. Lists and
  maps become `seq` and `map` fields that the methods reassign.
- **Mailbox effects.** A mailbox's queue is a `seq`; offers never grow it past its
  capacity (`Mailboxes.OfferAllAccepts`). What an
  operation does to the mailboxes it reaches is the twostate predicate `Delivered`. Each
  mailbox receives, in order, the `Offer`s of the messages addressed to it, and a full queue
  drops what does not fit.
- **Wall clock.** The clock is the parameter `now`.
- **Reflective call.** The reflective `Method.invoke` on the component is the function
  field `invoke`. It maps the class, the method name and the argument values to the
  emissions the component makes and to its return value or failure.
- **Printed objects.** Objects that the formatter prints are given as their `toString` text.

Java's `null` is `None`, `Value.Null` or a nullable reference. An exception becomes a
`Failure`/`Fail` result or a `Crashed` step. A `Crashed` step is one that ends the actor's
run loop, because the loop catches no exception of the handler.

## Model

| member | source | states |
|---|---|---|
| Text.PadLeft | src/main/java/lite/log/simple/StructFormatter.java:56 | `%1$Ns` right-justifies: the result is max(width, length) long, ends with the text and has only spaces before it, so nothing is ever cut |
| Text.ParseNatToString | src/main/java/lite/flow/runtime/kiss/data/SimpleRequestContext.java:52-55 | the decimal rendering of an id reads back as that id |
| Text.NatToStringInjective | src/main/java/lite/flow/runtime/kiss/data/SimpleRequestContext.java:52-55 | distinct ids render as distinct text |
| KissData.IdGenerator.constructor | src/main/java/lite/flow/runtime/kiss/data/SimpleRequestContext.java:31 | the shared counter starts at 0 with no id issued, so the first context gets id 1 |
| KissData.SimpleRequestContext.constructor | src/main/java/lite/flow/runtime/kiss/data/SimpleRequestContext.java:35-38 | the counter advances by exactly one and the new value is the id, which is larger than every id issued before and so never repeats |
| KissData.SimpleRequestContext.GetSubRequestContext | src/main/java/lite/flow/runtime/kiss/data/SimpleRequestContext.java:46-49 | always null |
| KissData.SimpleRequestContext.ToString | src/main/java/lite/flow/runtime/kiss/data/SimpleRequestContext.java:52-55 | the text is `rctx[rid=` then only digits then `]`, and the digits read back as the request id |
| KissData.ToStringIdentifiesRequest | src/main/java/lite/flow/runtime/kiss/data/SimpleRequestContext.java:52-55 | two contexts print the same `rctx[rid=N]` text if and only if they have the same id |
| Mailboxes.Mailbox.constructor | src/main/java/lite/flow/runtime/kiss/SequentialActivity.java:50 | an empty queue of the given positive capacity |
| Mailboxes.Mailbox.Enqueue | src/main/java/lite/flow/runtime/kiss/SequentialActivity.java:60-64 | true exactly when the queue was not full, and then the message is appended at the tail; a full queue is left unchanged |
| Mailboxes.Mailbox.Poll | src/main/java/lite/flow/runtime/kiss/SequentialActivity.java:79-88 | an interrupted wait fails and changes nothing; an empty queue times out with null; otherwise the oldest message is removed and returned (FIFO) |
| Mailboxes.OfferAllAccepts | src/main/java/lite/flow/runtime/kiss/SequentialActivity.java:60-64 | a burst of offers keeps the queued messages in front and accepts exactly the leading messages that fit, in order; the queue never exceeds its capacity |
| Mailboxes.OfferAllAppend | src/main/java/lite/flow/runtime/kiss/SequentialActivity.java:60-64 | offering two bursts one after the other is offering their concatenation |
| Mailboxes.Mailbox.CanBeEnqueued | src/main/java/lite/flow/runtime/kiss/SequentialActivity.java:69-75 | true exactly when more than three places are free, so the next four offers would all be accepted |
| Mailboxes.CanBeEnqueuedLeavesRoom | src/main/java/lite/flow/runtime/kiss/SequentialActivity.java:69-75 | while `canBeEnqueued` holds, the next four offers are all accepted |
| Mailboxes.CanBeEnqueuedNeedsCapacity | src/main/java/lite/flow/runtime/kiss/SequentialActivity.java:69-75 | `canBeEnqueued` is always false for a capacity of three or less |
| Distribution.Outgoing | src/main/java/lite/flow/runtime/kiss/DistributorOutput.java:67-72 | one `enqueue` per destination in registration order, each carrying that destination's name, the context and the unchanged data; none without destinations |
| Distribution.OutgoingToFreshConsumers | src/main/java/lite/flow/runtime/kiss/DistributorOutput.java:67-72 | with pairwise distinct consumers, each destination's mailbox is offered exactly one message, under its own name |
| Distribution.OutgoingMissing | src/main/java/lite/flow/runtime/kiss/DistributorOutput.java:67-72 | a mailbox that is not a destination is offered nothing |
| Distribution.DistributorOutput.WithCarrier | src/main/java/lite/flow/runtime/kiss/DistributorOutput.java:40-43 | a port with the given carrier and no destinations |
| Distribution.DistributorOutput.constructor | src/main/java/lite/flow/runtime/kiss/DistributorOutput.java:45-48 | a port without a carrier and without destinations |
| Distribution.DistributorOutput.AddDestination | src/main/java/lite/flow/runtime/kiss/DistributorOutput.java:50-52 | appends at the end; earlier destinations and their order are kept, and duplicates are accepted |
| Distribution.DistributorOutput.Distribute | src/main/java/lite/flow/runtime/kiss/DistributorOutput.java:67-72 | (corrected) every consumer receives, in order, the `Outgoing` messages addressed to it; a refused offer is dropped and later destinations are still served |
| Distribution.DistributorOutput.DistributeAsWritten | src/main/java/lite/flow/runtime/kiss/DistributorOutput.java:67-72 | as written: messages are stamped from the carrier, not the argument; without a carrier, a port with a destination throws a null dereference before any `enqueue` |
| Distribution.DistributorOutput.Emit | src/main/java/lite/flow/runtime/kiss/DistributorOutput.java:62-65 | (corrected) `emit(data, ctx)` delivers exactly what the corrected `distribute` delivers, stamped with `ctx` |
| Distribution.DistributorOutput.EmitCarried | src/main/java/lite/flow/runtime/kiss/DistributorOutput.java:54-60 | `emit(data)` fails without a carrier and changes no mailbox; with one it distributes under the carrier's current context |
| Distribution.CorrelatorEmissionAsWritten | src/main/java/lite/flow/runtime/kiss/Correlator.java:38-60 | a correlator's carrier-less output with one destination fails with a null dereference, and the invoker's mailbox receives nothing |
| Distribution.CorrelatorEmissionCorrected | src/main/java/lite/flow/runtime/kiss/Correlator.java:38-60 | with the corrected distribution, the invoker's mailbox receives exactly the bundle, under "collectedMethodParametersRow" and the message's context |
| Bundles.IndexOf | src/main/java/lite/flow/runtime/kiss/CorrelatedEntryPointArguments.java:72-80 | the smallest index whose non-null name equals the name, and -1 exactly when there is none |
| Bundles.Empty | src/main/java/lite/flow/runtime/kiss/CorrelatedEntryPointArguments.java:40-48 | both arrays sized to the input names; every flag false and every value null |
| Bundles.PutFillsOneSlot | src/main/java/lite/flow/runtime/kiss/CorrelatedEntryPointArguments.java:68-69 | an accepted put writes that one slot's value and flag, leaves every other slot as it was, and raises the filled count by exactly one |
| Bundles.PutAllIsExpected | src/main/java/lite/flow/runtime/kiss/CorrelatedEntryPointArguments.java:57-70 | after any sequence of puts, including duplicates and unknown names, each empty slot holds the first value sent under its name |
| Bundles.PutAllOrderIndependent | src/main/java/lite/flow/runtime/kiss/CorrelatedEntryPointArguments.java:57-70 | with one message per name, the bundle does not depend on the order of arrival |
| Bundles.PutAllCompletes | src/main/java/lite/flow/runtime/kiss/CorrelatedEntryPointArguments.java:50-70 | supplying every declared name, in any order, makes `hasAllValues` true |
| Bundles.PutAllMonotone | src/main/java/lite/flow/runtime/kiss/CorrelatedEntryPointArguments.java:63-69 | a filled slot keeps its flag and value whatever arrives later, so completeness is never lost |
| Bundles.CompleteRejectsEverything | src/main/java/lite/flow/runtime/kiss/CorrelatedEntryPointArguments.java:57-66 | a complete bundle rejects every further put and never changes again |
| Bundles.DuplicateNameNeverCompletes | src/main/java/lite/flow/runtime/kiss/CorrelatedEntryPointArguments.java:63-80 | when a name is declared twice, its second slot is never filled, so the bundle never completes |
| Bundles.AtMostOneEmission | src/main/java/lite/flow/runtime/kiss/Correlator.java:54-64 | while a bundle stays stored, any sequence of messages emits it at most once, and never once it was already complete |
| Bundles.CompletionEmits | src/main/java/lite/flow/runtime/kiss/Correlator.java:54-60 | messages that take the bundle from incomplete to complete emit it |
| Bundles.ExactlyOneEmission | src/main/java/lite/flow/runtime/kiss/Correlator.java:54-64 | from a fresh bundle with inputs, supplying every name emits it exactly once, whatever the order and whatever else arrives |
| Bundles.NoInputsNeverEmits | src/main/java/lite/flow/runtime/kiss/CorrelatedEntryPointArguments.java:57-62 | an entry point without inputs rejects every put as an unknown name, so its bundle is never emitted |
| Bundles.CorrelatedEntryPointArguments.constructor | src/main/java/lite/flow/runtime/kiss/CorrelatedEntryPointArguments.java:40-48 | new arrays with one slot per input name, all empty |
| Bundles.CorrelatedEntryPointArguments.HasAllValues | src/main/java/lite/flow/runtime/kiss/CorrelatedEntryPointArguments.java:50-55 | true iff every flag is set, so true for no inputs |
| Bundles.CorrelatedEntryPointArguments.FindParameterIndex | src/main/java/lite/flow/runtime/kiss/CorrelatedEntryPointArguments.java:72-80 | the first index whose name matches, or -1 (`IndexOf`) |
| Bundles.CorrelatedEntryPointArguments.Put | src/main/java/lite/flow/runtime/kiss/CorrelatedEntryPointArguments.java:57-70 | an unknown name or a filled slot throws and leaves both arrays unchanged; otherwise exactly that slot is written (`AfterPut`) |
| Correlation.OrderAfter | src/main/java/lite/flow/runtime/kiss/Correlator.java:72-94 | the accessed id ends the order, and every id in it was already stored or is that id |
| Correlation.OrderAfterHoldsRequest | src/main/java/lite/flow/runtime/kiss/Correlator.java:72-94 | after `getOrPut` the request's entry is stored and is the most recently used; keys stay unique, and no key other than the request's is added |
| Correlation.HitKeepsEntries | src/main/java/lite/flow/runtime/kiss/Correlator.java:87-89 | a hit only reorders and never adds or removes an entry |
| Correlation.MissEvictsOnlyEldest | src/main/java/lite/flow/runtime/kiss/Correlator.java:72-92 | a miss evicts at most the least recently used entry, exactly when its creation time plus 20000 ms lies strictly before now; every other entry, stale or not, stays |
| Correlation.YoungStoreGrows | src/main/java/lite/flow/runtime/kiss/Correlator.java:72-92 | there is no size bound: while the eldest entry is young, each new request grows the store by one |
| Correlation.TouchKeepsWellStored | src/main/java/lite/flow/runtime/kiss/Correlator.java:88-89 | an access keeps the store consistent: one order entry per bundle, each filed under its own id |
| Correlation.InsertKeepsWellStored | src/main/java/lite/flow/runtime/kiss/Correlator.java:91-92 | inserting a fresh bundle keeps the store consistent |
| Correlation.EvictKeepsWellStored | src/main/java/lite/flow/runtime/kiss/Correlator.java:74-83 | evicting the eldest keeps the store consistent |
| Correlation.Correlator.constructor | src/main/java/lite/flow/runtime/kiss/Correlator.java:38-47 | an empty store and a carrier-less output named "correlatedInputs" without destinations |
| Correlation.Correlator.GetOrPut | src/main/java/lite/flow/runtime/kiss/Correlator.java:87-94 | a known id returns its stored bundle; an unknown one returns a new empty bundle created at now; the order follows `OrderAfter`, and no other stored bundle changes |
| Correlation.Correlator.Insert | src/main/java/lite/flow/runtime/kiss/Correlator.java:72-94 | the miss path: a new empty bundle becomes the most recent entry, and the eldest is evicted only when it is too old |
| Correlation.Correlator.PutRow | src/main/java/lite/flow/runtime/kiss/Correlator.java:55 | the put changes only the request's own bundle |
| Correlation.Correlator.Collect | src/main/java/lite/flow/runtime/kiss/Correlator.java:54-55 | the bundle is fetched or created and then put into, even when the put fails; no mailbox changes |
| Correlation.Correlator.EmitIfComplete | src/main/java/lite/flow/runtime/kiss/Correlator.java:57-60 | (corrected) the bundle is distributed, stamped with the message's context, exactly when it is complete; no bundle changes |
| Correlation.Correlator.EmitIfCompleteAsWritten | src/main/java/lite/flow/runtime/kiss/Correlator.java:57-60 | as written: a complete bundle with at least one destination fails with a NullPointerException and delivers nothing; an incomplete bundle, or one with no destination, passes; no bundle changes |
| Correlation.Correlator.ProcessDataMessage | src/main/java/lite/flow/runtime/kiss/Correlator.java:51-68 | (corrected) a null context fails and changes nothing; otherwise the message is collected, a rejected put fails, and the bundle is emitted exactly when this put completed it (`ProcessedData`) |
| Correlation.Correlator.ProcessDataMessageAsWritten | src/main/java/lite/flow/runtime/kiss/Correlator.java:51-68 | as written: when the put completes the bundle and the output has a destination, the message is collected but the call fails with a NullPointerException and no mailbox changes; every other case behaves as `ProcessedData` (`ProcessedDataAsWritten`) |
| Correlation.Correlator.ProcessMessage | src/main/java/lite/flow/runtime/kiss/SequentialActivity.java:91-108 | (corrected) a poll timeout and non-data messages change nothing; a data message is processed, and its exception ends the actor |
| Correlation.Correlator.ProcessMessageAsWritten | src/main/java/lite/flow/runtime/kiss/SequentialActivity.java:91-108 | as written: a data message whose put completes its bundle, on a correlator whose output has a destination, ends the actor with a NullPointerException; timeouts and non-data messages change nothing |
| Correlation.Correlator.AddDestination | src/main/java/lite/flow/runtime/kiss/Correlator.java:96-101 | ignores the port name and appends one destination to "correlatedInputs" |
| Invokers.Reached | src/main/java/lite/flow/runtime/kiss/MethodInvokerSequential.java:129-148 | the component's emissions that reach a port: all of them up to the first on a missing port |
| Invokers.ReturnValueForwarded | src/main/java/lite/flow/runtime/kiss/MethodInvokerSequential.java:131-140 | without explicit ports, a successful call sends the returned value once to each destination of the entry point's output port, and nothing else |
| Invokers.FailedCallDeliversNothing | src/main/java/lite/flow/runtime/kiss/MethodInvokerSequential.java:131-148 | a call that threw, or whose output port was never created, delivers nothing |
| Invokers.ExplicitPortsIgnoreResult | src/main/java/lite/flow/runtime/kiss/MethodInvokerSequential.java:131-141 | with explicit ports the deliveries are the same whatever the method returned (value, null or failure); with no emissions nothing is delivered |
| Invokers.FanoutStamped | src/main/java/lite/flow/runtime/kiss/MethodInvokerSequential.java:129-131 | every message the component emits during the call carries the context of the request being served |
| Invokers.MethodInvokerSequential.constructor | src/main/java/lite/flow/runtime/kiss/MethodInvokerSequential.java:58-82 | no ports yet, zero active calls and an empty carrier |
| Invokers.MethodInvokerSequential.GetOrPut | src/main/java/lite/flow/runtime/kiss/MethodInvokerSequential.java:184-191 | an existing port is returned unchanged; a missing one is created empty with this invoker's carrier; no other port changes |
| Invokers.MethodInvokerSequential.AddDestination | src/main/java/lite/flow/runtime/kiss/MethodInvokerSequential.java:168-182 | exactly one destination is appended to the named port, created if needed; every other port's destinations are unchanged |
| Invokers.MethodInvokerSequential.ProcessDataMessage | src/main/java/lite/flow/runtime/kiss/MethodInvokerSequential.java:89-101 | data that is not a bundle fails before any call and changes nothing; a bundle is invoked under the message's context and returned, delivering `CallDeliveries`; the active-call counter ends where it started |
| Invokers.MethodInvokerSequential.ProcessMessage | src/main/java/lite/flow/runtime/kiss/SequentialActivity.java:91-108 | only a data message with a bundle leads to a call; other data ends the actor; anything else is passed over without effect |
| Invokers.MethodInvokerSequential.Call | src/main/java/lite/flow/runtime/kiss/MethodInvokerSequential.java:117-157 | sets the carrier to the request's context, delivers `CallDeliveries` for what the method did, never propagates its failure, and decrements the counter |
| Invokers.MethodInvokerSequential.Forward | src/main/java/lite/flow/runtime/kiss/MethodInvokerSequential.java:131-141 | after the method ran, the mailboxes receive exactly `CallDeliveries` |
| Invokers.MethodInvokerSequential.EmitOn | src/main/java/lite/flow/runtime/kiss/DistributorOutput.java:54-65 | one emit on an existing port delivers its `Outgoing` messages, through either `emit` overload, and reaches no other mailbox |
| Invokers.MethodInvokerSequential.ExplicitEmissions | src/main/java/lite/flow/runtime/kiss/MethodInvokerSequential.java:129-148 | the component's own emissions go out in order, each under the carrier's context, up to the first on a missing port |
| Components.Broadcast | src/main/java/lite/flow/runtime/kiss/RunnableComponent.java:90-96 | one delivery of the same message per correlator inbox, in array order |
| Components.BroadcastOnce | src/main/java/lite/flow/runtime/kiss/RunnableComponent.java:93-94 | each of distinct inboxes is offered the message exactly once, whether or not its entry point has that name; any other mailbox is offered nothing |
| Components.EnqueueNext | src/main/java/lite/flow/runtime/kiss/RunnableComponent.java:93-94 | one step of the broadcast loop adds exactly the next delivery |
| Components.RunnableComponent.constructor | src/main/java/lite/flow/runtime/kiss/RunnableComponent.java:48-84 | one fresh correlator per entry point, in entry-point order, each with exactly one destination: the invoker's inbox under "collectedMethodParametersRow" |
| Components.RunnableComponent.ProcessDataMessage | src/main/java/lite/flow/runtime/kiss/RunnableComponent.java:90-96 | the message is offered to every correlator in array order, refusals are ignored, and the message itself is returned |
| Components.RunnableComponent.ProcessMessage | src/main/java/lite/flow/runtime/kiss/SequentialActivity.java:91-108 | only data messages are broadcast; a poll timeout and other messages change nothing |
| Components.RunnableComponent.AddDestination | src/main/java/lite/flow/runtime/kiss/RunnableComponent.java:101-105 | delegated unchanged to the invoker; the correlators are not touched |
| Flows.Declared | src/main/java/lite/flow/runtime/kiss/RunnableFlow.java:88-100 | every entry is a component activity filed under its own name |
| Flows.DeclaredKeys | src/main/java/lite/flow/runtime/kiss/RunnableFlow.java:88-100 | a name gets an entry iff some component activity has it; other activities are skipped |
| Flows.DeclaredLastWins | src/main/java/lite/flow/runtime/kiss/RunnableFlow.java:95 | the entry of a name is its last component activity |
| Flows.WireAllKeepsPrefix | src/main/java/lite/flow/runtime/kiss/RunnableFlow.java:80-86 | wiring keeps each port's earlier destinations, in order, in front of new ones |
| Flows.Unresolved | src/main/java/lite/flow/runtime/kiss/RunnableFlow.java:80-86 | the connections wired before the first one with an unknown end |
| Flows.NoCallsFromUnconnected | src/main/java/lite/flow/runtime/kiss/RunnableFlow.java:80-86 | a component that no connection starts from gets no destination |
| Flows.ConnectionWired | src/main/java/lite/flow/runtime/kiss/RunnableFlow.java:82-84 | every connection from a component adds its target's inbox, under the target port, to that component's source port |
| Flows.CallsFromStep | src/main/java/lite/flow/runtime/kiss/RunnableFlow.java:81-84 | wiring one more connection grows only its source's ports, by that one destination |
| Flows.Build | src/main/java/lite/flow/runtime/kiss/RunnableFlow.java:94 | a new component for the activity, with nothing wired |
| Flows.CreateRunnableActivities | src/main/java/lite/flow/runtime/kiss/RunnableFlow.java:88-100 | one new component per declared component name, built from its last definition, with separate invokers |
| Flows.InputConnector.constructor | src/main/java/lite/flow/runtime/kiss/RunnableFlow.java:140-144 | holds the destination and its port name |
| Flows.InputConnector.CanBeEnqueued | src/main/java/lite/flow/runtime/kiss/RunnableFlow.java:152-155 | answers exactly what the destination's mailbox answers: four more offers to it would all be accepted |
| KissData.RenameKeepsPayload | src/main/java/lite/flow/runtime/kiss/RunnableFlow.java:148-149 | the copy the input connector sends keeps the message's request context and value and carries the connector's port name; renaming twice is renaming once with the second name |
| Flows.InputConnector.Enqueue | src/main/java/lite/flow/runtime/kiss/RunnableFlow.java:146-150 | offers a copy renamed to the connector's port to the destination's inbox, and answers what the destination answers |
| Flows.OutputConnector.constructor | src/main/java/lite/flow/runtime/kiss/RunnableFlow.java:166-170 | holds the output activity and a port name |
| Flows.WireInvoker | src/main/java/lite/flow/runtime/kiss/RunnableFlow.java:84 | only the source component's ports gain the destination; every other component's ports are unchanged |
| Flows.RunnableFlow.constructor | src/main/java/lite/flow/runtime/kiss/RunnableFlow.java:42-46 | the flow's inbox, definition and built components, with no connectors yet |
| Flows.RunnableFlow.FindActivity | src/main/java/lite/flow/runtime/kiss/RunnableFlow.java:102-110 | the component stored under the name, or an "activity not found" failure naming it |
| Flows.RunnableFlow.Connect | src/main/java/lite/flow/runtime/kiss/RunnableFlow.java:84 | the named component's port gains the destination; no other component changes |
| Flows.RunnableFlow.WiredOneMore | src/main/java/lite/flow/runtime/kiss/RunnableFlow.java:81-84 | after wiring connection i, each component's ports are those of the connections up to i |
| Flows.RunnableFlow.WireConnection | src/main/java/lite/flow/runtime/kiss/RunnableFlow.java:84 | wires a resolved connection on top of the earlier ones |
| Flows.RunnableFlow.ConnectNext | src/main/java/lite/flow/runtime/kiss/RunnableFlow.java:81-84 | one loop round: fails, naming the source first, iff an end is unknown, wiring nothing; otherwise wires the connection |
| Flows.RunnableFlow.AddConnections | src/main/java/lite/flow/runtime/kiss/RunnableFlow.java:80-86 | wires the connections in order, throwing at the first unknown end and keeping the earlier wiring |
| Flows.RunnableFlow.CreateInputConnector | src/main/java/lite/flow/runtime/kiss/RunnableFlow.java:60-68 | null without flow inputs; otherwise a connector into the first input's activity under its port, or the failure for an unknown activity |
| Flows.RunnableFlow.CreateOutputConnector | src/main/java/lite/flow/runtime/kiss/RunnableFlow.java:70-78 | null without flow outputs; otherwise its port comes from the first flow input, so it fails when outputs exist without inputs |
| Flows.RunnableFlow.AddDestination | src/main/java/lite/flow/runtime/kiss/RunnableFlow.java:116-123 | nothing happens without flow outputs; otherwise the arguments go unchanged to the first output's activity, and no other component changes |
| Flows.RunnableFlow.AttachConnectors | src/main/java/lite/flow/runtime/kiss/RunnableFlow.java:48-49 | fails exactly with the connectors' first error; otherwise the flow is `Connected` |
| Flows.RunnableFlow.ProcessDataMessage | src/main/java/lite/flow/runtime/kiss/RunnableFlow.java:129-134 | the input connector's `enqueue` answer, or a null dereference when the flow has no input |
| Flows.RunnableFlow.ProcessMessage | src/main/java/lite/flow/runtime/kiss/SequentialActivity.java:91-108 | data goes to the input connector; without one, the actor ends; other messages change nothing |
| Flows.NewFlow | src/main/java/lite/flow/runtime/kiss/RunnableFlow.java:42-46 | the components of the declared names, with no ports |
| Flows.WiredFlow | src/main/java/lite/flow/runtime/kiss/RunnableFlow.java:42-47 | the constructor up to `addConnections`: its outcome is the first unresolved connection's error, or success with every connection wired |
| Flows.WiredAllFromScratch | src/main/java/lite/flow/runtime/kiss/RunnableFlow.java:80-86 | after all connections, each component's ports hold exactly the destinations of its outgoing connections |
| Flows.Assemble | src/main/java/lite/flow/runtime/kiss/RunnableFlow.java:42-52 | the whole constructor: fails iff `AssemblyError` names an error, and with that error; on success every component's ports hold exactly its outgoing connections and the connectors are in place |
| StructFormatting.PairsNeverNA | src/main/java/lite/log/simple/StructFormatter.java:143-157 | the rendering of arrays that are present is never "NA" |
| StructFormatting.PairsIgnoreSurplus | src/main/java/lite/log/simple/StructFormatter.java:148-150 | only the indexes both arrays have are rendered |
| StructFormatting.PairsPrefix | src/main/java/lite/log/simple/StructFormatter.java:148-154 | rendering the first n pairs looks at no later entry |
| StructFormatting.PairsAppend | src/main/java/lite/log/simple/StructFormatter.java:148-154 | the rendering is built pair by pair: that of concatenated arrays is the concatenation of the renderings |
| StructFormatting.PairsString | src/main/java/lite/log/simple/StructFormatter.java:143-157 | the builder loop: "NA" exactly when an array is null, else one `name=value ` chunk per index up to the shorter array |
| StructFormatting.InputArgsString | src/main/java/lite/log/simple/StructFormatter.java:143-157 | the start event's argument names and values, rendered as `PairsText` |
| StructFormatting.OutputString | src/main/java/lite/log/simple/StructFormatter.java:127-141 | the end event's output names and values, rendered as `PairsText` |
| StructFormatting.LastIndexOf | src/main/java/lite/log/simple/StructFormatter.java:87 | the last position of the character, or -1 when it does not occur |
| StructFormatting.AfterLastIndexOf | src/main/java/lite/log/simple/StructFormatter.java:87 | no such character remains after its last occurrence |
| StructFormatting.ShortClassName | src/main/java/lite/log/simple/StructFormatter.java:81-89 | at least 24 columns wide, with no '.' left; a null class prints as `null` right-justified to 24 columns |
| StructFormatting.ShortClassNameOfQualified | src/main/java/lite/log/simple/StructFormatter.java:81-89 | a qualified name prints as its simple name, padded to 24 |
| StructFormatting.ShortClassNameOfSimple | src/main/java/lite/log/simple/StructFormatter.java:81-89 | a name without a dot prints whole, padded to 24 |
| StructFormatting.Marker | src/main/java/lite/log/simple/StructFormatter.java:97-117 | every marker is six characters wide |
| StructFormatting.MarkersDistinct | src/main/java/lite/log/simple/StructFormatter.java:97-117 | " Start", six spaces and "   End" tell the three event kinds apart |
| StructFormatting.TypeSpecific | src/main/java/lite/log/simple/StructFormatter.java:91-125 | appends exactly the record's event text to the builder |
| StructFormatting.EventColumns | src/main/java/lite/log/simple/StructFormatter.java:91-125 | a record that is not an event shows only its message; an event line has its execution context in columns 0-9, its request context in 11-20 and its marker in 21-26 |
| StructFormatting.Format | src/main/java/lite/log/simple/StructFormatter.java:56-65 | builds exactly the `Line` of the record |
| StructFormatting.HeadColumns | src/main/java/lite/log/simple/StructFormatter.java:56-62 | the level is right-justified in columns 0-6, the class in 8-31 and the method in 33-44, each followed by a space |
| StructFormatting.LineColumns | src/main/java/lite/log/simple/StructFormatter.java:56-65 | the event text starts in column 46 and the line separator ends the line |

## Left out

- Threads and the run loop: the `while (true)` loop, its 1900 ms poll timeout and the executor starts are not modelled. One turn of the loop is `Poll` followed by `ProcessMessage`. Concurrency, and the single-writer discipline it relies on, are outside the model.
- `AtomicInteger` and `AtomicLong` are plain counters.
- Reflection is not modelled:
  - `ComponentUtil.java` (instantiation, constructor arguments and output injection) is not part of this model;
  - `ActivityInspector.inspect` is given as the entry points and `withoutExplicitOutputPort` of an activity definition;
  - `Modifier.addLogging` is not modelled;
  - `Method.invoke` is the function field `invoke`.
- Output-port injection errors: the invoker's `addDestination` swallows them, so they are not modelled.
- Logging: the log events, the loggers and `SimpleLogFactory.java` are not part of this model. This includes the warning logged on eviction.
- StructFormatter: the date prefix and the stack-trace suffix are not modelled (`format` starts at the level name).
- `toString` of other objects: the objects the formatter prints are given as their text.
- Wall clock: the clock is the parameter `now`. The same `now` is the new bundle's creation time and the eviction check's current time.
- `FlowExecutionContext.java` and `RunnableActivity.java` are not part of this model: the first is a data holder, the second an interface.
- The commented-out `OutputConnector` variant of `RunnableFlow.java` is not modelled.
- Tests: the test scenarios are not replayed. This includes the flow that turns "11;8" into 19.
- Mailboxes.Mailbox.Enqueue: the rejection of a null message is not modelled, because a `DCMessage` value is never null.
- Bundles.CorrelatedEntryPointArguments.constructor: the rejection of a null id or entry point is not modelled, because neither can be null here.
- Flows.RunnableFlow.FindActivity: the rejection of a null name is not modelled, because names are never null.
- Size bound on the correlation store: there is none. `removeEldestEntry` checks only the age of the eldest bundle (Correlator.java:72-85), and the 70 passed to the `LinkedHashMap` is its initial capacity, not a bound, so a store of young bundles grows without limit (`Correlation.YoungStoreGrows`).
- Handler exceptions are not caught: `run` catches only the `InterruptedException` of the poll (SequentialActivity.java:79-88), so an exception from `processDataMessage` ends the actor (`Crashed`).
- Correlation.Correlator.ProcessDataMessage: uses the corrected `distribute`; the crash of the code as written is stated by `Correlation.Correlator.ProcessDataMessageAsWritten`.
- Correlation.Correlator.ProcessMessage: uses the corrected `distribute`; the crash of the code as written is stated by `Correlation.Correlator.ProcessMessageAsWritten`.
- Correlation.Correlator.EmitIfComplete: uses the corrected `distribute`; the code as written is `Correlation.Correlator.EmitIfCompleteAsWritten`.
- Distribution.DistributorOutput.Emit: uses the corrected `distribute`, which stamps with `ctx`; the code as written is `Distribution.DistributorOutput.DistributeAsWritten`.
- KissData.CloneChangeDestinationName: `DCMessage.java` is not part of this model. Its data branch follows the comment at RunnableFlow.java:148, which says a new message is made under the destination name. Returning a non-data message unchanged is an assumption: the only call (RunnableFlow.java:149) is reached with data messages.
- Consumers are mailboxes: Java's `Consumer` is an interface, and `addDestination` accepts any implementation. The model types every consumer as a bounded `Mailboxes.Mailbox` with `offer` semantics. This affects `Distribution.Destination`, `Components.RunnableComponent.AddDestination`, `Correlation.Correlator.AddDestination`, `Invokers.MethodInvokerSequential.AddDestination`, `Flows.WireInvoker`, `Flows.RunnableFlow.Connect` and `Flows.RunnableFlow.AddDestination`. A consumer that always accepts is a mailbox with room for every message it receives. Any other effect of a consumer's `enqueue` is not captured, nor is an answer that does not depend on free room.
- Mailboxes.Mailbox.constructor: requires a positive capacity. `new ArrayBlockingQueue(inputQueueLength)` (SequentialActivity.java:50) throws an `IllegalArgumentException` for a length of 0 or less, and a `NullPointerException` for a null `Integer`; neither error path is modelled. The same requirement therefore carries over to `Correlation.Correlator.constructor`, `Components.RunnableComponent.constructor`, `Flows.Build`, `Flows.CreateRunnableActivities`, `Flows.RunnableFlow.constructor`, `Flows.NewFlow` and `Flows.WiredFlow`.
- Flows.Assemble: "fails if and only if `AssemblyError`" is proved only for a positive input queue length; for a length of 0 or less the Java constructor throws before any wiring (see `Mailboxes.Mailbox.constructor` above).
- Invokers.Reached: that the component's first emission on a port never created dereferences null, and that the call ends there, is an assumption about component code that is not part of this model. The output field is injected only by `addDestination` (MethodInvokerSequential.java:173-181).
- Correlation.MaxParameterWaitTime: a constant 20000 here. Correlator.java:70 declares a mutable `public static int`, so other code could change the eviction age at run time; that is not modelled.
- Text.PadLeft: pads by counting characters (Unicode scalar values), while Java's `%Ns` counts UTF-16 code units, so for text outside the Basic Multilingual Plane the widths claimed by `StructFormatting.HeadColumns`, `StructFormatting.EventColumns` and `StructFormatting.LineColumns` differ from Java's by the number of surrogate pairs.
- `SimpleRequestContext.getRequestId` has no row: the id is a constant field fixed by the constructor.

## Findings

| source | as written | input that shows it | evidently intended | confidence | as-written member | corrected member |
|---|---|---|---|---|---|---|
| src/main/java/lite/flow/runtime/kiss/DistributorOutput.java:67-72 | `distribute` stamps each message with `rcc.getRequestContext()` and ignores its `requestContext` argument; the correlator's output is built without a carrier (Correlator.java:38) | any correlator whose output has a destination (every correlator of a `RunnableComponent`) completing a bundle: `rcc` is null, so the first iteration throws a NullPointerException and the invoker never receives the bundle | stamp each message with the `requestContext` argument that `emit(data, ctx)` passes on | high, not executed | Distribution.CorrelatorEmissionAsWritten | Distribution.CorrelatorEmissionCorrected |
| src/main/java/lite/flow/runtime/kiss/Correlator.java:57-60 | `processDataMessage` calls `correlatedInputs.emit(row, ctx)` on the carrier-less output above | the second put of a two-argument entry point on a correlator with one destination: the call throws instead of delivering | the completed bundle is delivered to every destination, stamped with the message's context | high, not executed | Correlation.Correlator.ProcessMessageAsWritten | Correlation.Correlator.ProcessMessage |
