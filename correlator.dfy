/** `Correlator`: collects, per request, the arguments of one entry point from data messages
    arriving in any order, and emits the bundle once it is complete. Bundles live in an
    access-ordered store that evicts its eldest entry, on insertion, once it is too old. */
module Correlation {
  import opened Wrappers
  import opened KissData
  import opened Mailboxes
  import opened Distribution
  import opened Bundles

  /** `MAX_PARAMETER_WAIT_TIME`, in milliseconds. */
  const MaxParameterWaitTime: int := 20000

  predicate NoDuplicates(s: seq<nat>) {
    forall i, j :: 0 <= i < j < |s| ==> s[i] != s[j]
  }

  /** `s` with `k` taken out, the others keeping their order. */
  function Remove(s: seq<nat>, k: nat): (r: seq<nat>)
    ensures forall x :: x in r <==> x in s && x != k
    ensures k !in s ==> r == s
    ensures NoDuplicates(s) ==> NoDuplicates(r) && (k in s ==> |r| == |s| - 1)
    decreases |s|
  {
    if s == [] then []
    else
      assert NoDuplicates(s) ==> s[0] !in s[1..] && NoDuplicates(s[1..]) by {
        if NoDuplicates(s) {
          forall i, j | 0 <= i < j < |s| - 1 ensures s[1..][i] != s[1..][j] {
            assert s[1..][i] == s[i + 1] && s[1..][j] == s[j + 1];
          }
        }
      }
      assert s == [s[0]] + s[1..];
      if s[0] == k then Remove(s[1..], k) else [s[0]] + Remove(s[1..], k)
  }

  /** `get` in an access-ordered map: the key becomes the most recently used. */
  function Touch(order: seq<nat>, k: nat): seq<nat> {
    Remove(order, k) + [k]
  }

  /** The access order after `getOrPut(id)`. A hit moves `id` to the most recent end. A miss
      appends `id`, then `removeEldestEntry` drops the eldest entry if its creation time plus
      the wait time lies before `now`. `created` gives every stored entry's creation time;
      the new entry is created at `now`. */
  function OrderAfter(order: seq<nat>, created: map<nat, int>, id: nat, now: int): (r: seq<nat>)
    requires forall k :: k in order ==> k in created
    ensures |r| > 0 && r[|r| - 1] == id
    ensures forall k :: k in r ==> k in order || k == id
  {
    if id in order then Touch(order, id)
    else
      var appended := order + [id];
      if created[id := now][appended[0]] + MaxParameterWaitTime < now then appended[1..] else appended
  }

  /** After `getOrPut(id)` the request's entry is present and the most recently used, no key
      is duplicated, and only keys that were there before, or `id`, are stored. */
  lemma OrderAfterHoldsRequest(order: seq<nat>, created: map<nat, int>, id: nat, now: int)
    requires forall k :: k in order ==> k in created
    requires NoDuplicates(order)
    ensures var r := OrderAfter(order, created, id, now);
      |r| > 0 && r[|r| - 1] == id && NoDuplicates(r) && forall k :: k in r ==> k in order || k == id
  {
    var r := OrderAfter(order, created, id, now);
    if id !in order {
      var appended := order + [id];
      assert NoDuplicates(appended);
      if r == appended[1..] {
        assert appended[1..][|appended| - 2] == id;
      }
    }
  }

  /** A hit changes only the order, never which entries are stored. */
  lemma HitKeepsEntries(order: seq<nat>, created: map<nat, int>, id: nat, now: int)
    requires forall k :: k in order ==> k in created
    requires NoDuplicates(order) && id in order
    ensures var r := OrderAfter(order, created, id, now);
      |r| == |order| && forall k :: k in r <==> k in order
  {
  }

  /** A miss evicts at most one entry, and only the eldest: every other stale entry stays.
      The eldest goes exactly when it is older than the wait time. */
  lemma MissEvictsOnlyEldest(order: seq<nat>, created: map<nat, int>, id: nat, now: int)
    requires forall k :: k in order ==> k in created
    requires NoDuplicates(order) && id !in order
    ensures var r := OrderAfter(order, created, id, now);
      |r| >= |order| &&
      (forall k :: k in order && k != order[0] ==> k in r) &&
      (order != [] ==> (order[0] in r <==> created[order[0]] + MaxParameterWaitTime >= now))
  {
    var r := OrderAfter(order, created, id, now);
    var appended := order + [id];
    assert NoDuplicates(appended);
    forall k | k in order && k != order[0] ensures k in r {
      var i :| 0 <= i < |order| && order[i] == k;
      assert appended[i] == k;
      if r == appended[1..] {
        assert r[i - 1] == k;
      }
    }
    if order != [] && r == appended[1..] {
      assert order[0] == appended[0];
    }
  }

  /** The store has no size bound: while its eldest entry is young, every new request
      makes it one entry larger. */
  lemma YoungStoreGrows(order: seq<nat>, created: map<nat, int>, id: nat, now: int)
    requires forall k :: k in order ==> k in created
    requires id !in order
    requires order != [] ==> created[order[0]] + MaxParameterWaitTime >= now
    ensures |OrderAfter(order, created, id, now)| == |order| + 1
  {
  }

  /** The store's invariant: the order lists each stored request once; each bundle is
      sized for the entry point and filed under its own id; no two bundles share an array. */
  ghost predicate WellStored(rows: map<nat, CorrelatedEntryPointArguments>, order: seq<nat>, entryPoint: EntryPoint) {
    NoDuplicates(order) &&
    (forall k :: k in rows <==> k in order) &&
    (forall k :: k in rows ==> rows[k].Valid() && rows[k].dcid == k && rows[k].entryPoint == entryPoint) &&
    (forall k, l :: k in rows && l in rows && k != l ==>
       rows[k].inputArgs != rows[l].inputArgs && rows[k].hasValues != rows[l].hasValues)
  }

  lemma TouchKeepsWellStored(rows: map<nat, CorrelatedEntryPointArguments>, order: seq<nat>, entryPoint: EntryPoint, id: nat)
    requires WellStored(rows, order, entryPoint) && id in rows
    ensures WellStored(rows, Touch(order, id), entryPoint)
  {
  }

  lemma InsertKeepsWellStored(rows: map<nat, CorrelatedEntryPointArguments>, order: seq<nat>, entryPoint: EntryPoint,
                              id: nat, row: CorrelatedEntryPointArguments)
    requires WellStored(rows, order, entryPoint) && id !in rows
    requires row.Valid() && row.dcid == id && row.entryPoint == entryPoint
    requires forall k :: k in rows ==> rows[k].inputArgs != row.inputArgs && rows[k].hasValues != row.hasValues
    ensures WellStored(rows[id := row], order + [id], entryPoint)
  {
    var o := order + [id];
    forall i, j | 0 <= i < j < |o| ensures o[i] != o[j] {
      if j == |order| {
        assert o[i] == order[i];
      }
    }
  }

  lemma EvictKeepsWellStored(rows: map<nat, CorrelatedEntryPointArguments>, order: seq<nat>, entryPoint: EntryPoint)
    requires WellStored(rows, order, entryPoint) && order != []
    ensures WellStored(rows - {order[0]}, order[1..], entryPoint)
  {
    forall k | k in order && k != order[0] ensures k in order[1..] {
      var i :| 0 <= i < |order| && order[i] == k;
      assert order[1..][i - 1] == k;
    }
    forall i, j | 0 <= i < j < |order| - 1 ensures order[1..][i] != order[1..][j] {
      assert order[1..][i] == order[i + 1] && order[1..][j] == order[j + 1];
    }
  }

  class Correlator {
    const inbox: Mailbox
    const entryPoint: EntryPoint
    const correlatedInputs: DistributorOutput
    /** `rowsHolder`: the bundles by request id, ... */
    var rows: map<nat, CorrelatedEntryPointArguments>
    /** ... and their access order, least recently used first. */
    var order: seq<nat>

    ghost predicate Valid()
      reads this
    {
      correlatedInputs.rcc == null && WellStored(rows, order, entryPoint)
    }

    ghost function Arrays(): set<object>
      reads this
    {
      (set k | k in rows :: rows[k].inputArgs as object) + (set k | k in rows :: rows[k].hasValues as object)
    }

    ghost function Created(): map<nat, int>
      reads this
    {
      map k | k in rows :: rows[k].createTime
    }

    /** An empty store and an output port named "correlatedInputs" without a carrier. */
    constructor(inputQueueLength: nat, entryPoint: EntryPoint)
      requires inputQueueLength > 0
      ensures Valid()
      ensures fresh(inbox) && inbox.capacity == inputQueueLength && inbox.queue == []
      ensures this.entryPoint == entryPoint
      ensures fresh(correlatedInputs) && correlatedInputs.outputName == "correlatedInputs" && correlatedInputs.destinations == []
      ensures rows == map[] && order == []
    {
      inbox := new Mailbox(inputQueueLength);
      this.entryPoint := entryPoint;
      correlatedInputs := new DistributorOutput("correlatedInputs");
      rows := map[];
      order := [];
    }

    /** `getOrPut`: the request's bundle, created empty at `now` if absent, in the store as its
        most recently used entry; the store's order follows `OrderAfter`. */
    method GetOrPut(dcid: nat, now: int) returns (row: CorrelatedEntryPointArguments)
      requires Valid()
      modifies this
      ensures Valid()
      ensures dcid in old(rows) ==> row == old(rows)[dcid]
      ensures dcid !in old(rows) ==>
        fresh(row.inputArgs) && fresh(row.hasValues) && row.dcid == dcid && row.entryPoint == entryPoint &&
        row.createTime == now && row.State() == Empty(|entryPoint.inputNames|)
      ensures order == OrderAfter(old(order), old(Created()), dcid, now)
      ensures dcid in rows && rows[dcid] == row
      ensures forall k :: k in rows && k != dcid ==> k in old(rows) && rows[k] == old(rows)[k]
    {
      if dcid in rows {
        row := rows[dcid];
        TouchKeepsWellStored(rows, order, entryPoint, dcid);
        order := Touch(order, dcid);
        return;
      }
      row := Insert(dcid, now);
    }

    /** The miss path of `getOrPut`: a new empty bundle is put last, and the eldest entry is
        dropped if its creation time plus the wait time lies before `now`. */
    method Insert(dcid: nat, now: int) returns (row: CorrelatedEntryPointArguments)
      requires Valid() && dcid !in rows
      modifies this
      ensures Valid()
      ensures fresh(row.inputArgs) && fresh(row.hasValues) && row.dcid == dcid && row.entryPoint == entryPoint
      ensures row.createTime == now && row.State() == Empty(|entryPoint.inputNames|)
      ensures order == OrderAfter(old(order), old(Created()), dcid, now)
      ensures dcid in rows && rows[dcid] == row
      ensures forall k :: k in rows && k != dcid ==> k in old(rows) && rows[k] == old(rows)[k]
    {
      row := new CorrelatedEntryPointArguments(dcid, entryPoint, now);
      InsertKeepsWellStored(rows, order, entryPoint, dcid, row);
      var inserted := rows[dcid := row];
      var appended := order + [dcid];
      var eldest := appended[0];
      assert order != [] ==> eldest == order[0] && eldest in rows;
      assert order == [] ==> eldest == dcid && inserted[eldest].createTime == now;
      if inserted[eldest].createTime + MaxParameterWaitTime < now {
        assert eldest != dcid;
        EvictKeepsWellStored(inserted, appended, entryPoint);
        rows := inserted - {eldest};
        order := appended[1..];
      } else {
        rows := inserted;
        order := appended;
      }
    }

    /** `row.put(dataMessage)` on a stored bundle: no other bundle changes. */
    method PutRow(row: CorrelatedEntryPointArguments, dataName: string, data: Value) returns (o: Outcome<Error>)
      requires Valid() && row.dcid in rows && rows[row.dcid] == row
      modifies row.inputArgs, row.hasValues
      ensures o == PutOutcome(entryPoint.inputNames, old(row.State()), dataName)
      ensures row.State() == AfterPut(entryPoint.inputNames, old(row.State()), dataName, data)
      ensures forall k :: k in rows && k != row.dcid ==> rows[k].State() == old(rows[k].State())
    {
      assert forall k :: k in rows && k != row.dcid ==> rows[k].inputArgs != row.inputArgs && rows[k].hasValues != row.hasValues;
      o := row.Put(dataName, data);
    }

    /** What the request's bundle held before the message: its slots, or a fresh empty one. */
    ghost function Prior(id: nat): (s: Slots)
      reads this, Arrays()
      requires Valid()
      ensures Fits(entryPoint.inputNames, s)
    {
      if id in rows then rows[id].State() else Empty(|entryPoint.inputNames|)
    }

    /** `processDataMessage`, as the postcondition `ProcessedData` states. */
    method ProcessDataMessage(context: SimpleRequestContext?, dataName: string, data: Value, now: int)
      returns (r: Result<CorrelatedEntryPointArguments, Error>)
      requires Valid()
      modifies this, Arrays(), Consumers(correlatedInputs.destinations)
      ensures Valid()
      ensures ProcessedData(context, dataName, data, now, r)
    {
      if context == null {
        return Failure(NullPointer);
      }
      ghost var prior := Prior(context.requestId);
      ghost var consumers := Consumers(correlatedInputs.destinations);
      var row, o := Collect(context.requestId, dataName, data, now);
      assert Consumers(correlatedInputs.destinations) == consumers;
      if o.Fail? {
        return Failure(o.error);
      }
      label collected:
      var complete := EmitIfComplete(row, context);
      assert complete <==> Emits(entryPoint.inputNames, prior, Arg(dataName, data));
      forall k | k in rows && k != context.requestId ensures rows[k].State() == old(rows[k].State()) {
        assert rows[k].State() == old@collected(rows[k].State());
      }
      assert rows[context.requestId].State() == old@collected(rows[context.requestId].State());
      r := Success(row);
    }

    /** `processMessage`: the dispatch of one polled message. A poll timeout (None) and
        non-data messages leave everything as it was; a data message is processed, and an
        exception from that ends the actor's run loop (`Crashed`). */
    method ProcessMessage(dcmsg: Option<DCMessage>, now: int) returns (s: StepResult)
      requires Valid()
      modifies this, Arrays(), Consumers(correlatedInputs.destinations)
      ensures Valid()
      ensures dcmsg.None? ==> s == Idle
      ensures dcmsg.Some? && !dcmsg.value.Data? ==> s == Ignored
      ensures s.Idle? || s.Ignored? ==>
        rows == old(rows) && order == old(order) &&
        correlatedInputs.destinations == old(correlatedInputs.destinations) &&
        (forall k :: k in rows ==> rows[k].State() == old(rows[k].State())) &&
        forall m :: m in old(Consumers(correlatedInputs.destinations)) ==> m.queue == old(m.queue)
      ensures dcmsg.Some? && dcmsg.value.Data? ==>
        var d := dcmsg.value;
        (s.Crashed? && ProcessedData(d.context, d.dataName, d.data, now, Failure(s.error))) ||
        (s == Processed && d.context != null && d.context.requestId in rows &&
         ProcessedData(d.context, d.dataName, d.data, now, Success(rows[d.context.requestId])))
    {
      if dcmsg.None? {
        return Idle;
      }
      match dcmsg.value {
        case Data(context, dataName, data) =>
          var r := ProcessDataMessage(context, dataName, data, now);
          s := if r.Failure? then Crashed(r.error) else Processed;
        case _ =>
          s := Ignored;
      }
    }

    /** `processDataMessage` as written: the completed bundle goes to `distribute` as
        written (`DistributeAsWritten`), which dereferences the port's null carrier once the
        port has a destination. The step is `ProcessedDataAsWritten`. */
    method ProcessDataMessageAsWritten(context: SimpleRequestContext?, dataName: string, data: Value, now: int)
      returns (r: Result<CorrelatedEntryPointArguments, Error>)
      requires Valid()
      modifies this, Arrays(), Consumers(correlatedInputs.destinations)
      ensures Valid()
      ensures ProcessedDataAsWritten(context, dataName, data, now, r)
    {
      if context == null {
        return Failure(NullPointer);
      }
      ghost var prior := Prior(context.requestId);
      ghost var consumers := Consumers(correlatedInputs.destinations);
      var row, o := Collect(context.requestId, dataName, data, now);
      assert Consumers(correlatedInputs.destinations) == consumers;
      if o.Fail? {
        return Failure(o.error);
      }
      label collected:
      var complete, emitted := EmitIfCompleteAsWritten(row, context);
      assert complete <==> Emits(entryPoint.inputNames, prior, Arg(dataName, data));
      forall k | k in rows && k != context.requestId ensures rows[k].State() == old(rows[k].State()) {
        assert rows[k].State() == old@collected(rows[k].State());
      }
      assert rows[context.requestId].State() == old@collected(rows[context.requestId].State());
      if emitted.Fail? {
        return Failure(emitted.error);
      }
      r := Success(row);
    }

    /** `processMessage` as written: a data message whose accepted put completes the bundle
        of a correlator with a destination (every correlator of a component has one) ends
        the actor with a null dereference, after the put, and nothing is delivered. */
    method ProcessMessageAsWritten(dcmsg: Option<DCMessage>, now: int) returns (s: StepResult)
      requires Valid()
      modifies this, Arrays(), Consumers(correlatedInputs.destinations)
      ensures Valid()
      ensures dcmsg.None? ==> s == Idle
      ensures dcmsg.Some? && !dcmsg.value.Data? ==> s == Ignored
      ensures dcmsg.Some? && dcmsg.value.Data? && dcmsg.value.context != null &&
        old(correlatedInputs.destinations) != [] &&
        Emits(entryPoint.inputNames, old(Prior(dcmsg.value.context.requestId)), Arg(dcmsg.value.dataName, dcmsg.value.data))
        ==> s == Crashed(NullPointer)
      ensures dcmsg.Some? && dcmsg.value.Data? ==>
        var d := dcmsg.value;
        (s.Crashed? && ProcessedDataAsWritten(d.context, d.dataName, d.data, now, Failure(s.error))) ||
        (s == Processed && d.context != null && d.context.requestId in rows &&
         ProcessedDataAsWritten(d.context, d.dataName, d.data, now, Success(rows[d.context.requestId])))
    {
      if dcmsg.None? {
        return Idle;
      }
      match dcmsg.value {
        case Data(context, dataName, data) =>
          var r := ProcessDataMessageAsWritten(context, dataName, data, now);
          s := if r.Failure? then Crashed(r.error) else Processed;
        case _ =>
          s := Ignored;
      }
    }

    /** `if (row.hasAllValues()) correlatedInputs.emit(row, context)` as written: `emit`
        reaches `distribute`, which throws a null dereference on this carrier-less port as
        soon as it has a destination; no mailbox ever changes. */
    method EmitIfCompleteAsWritten(row: CorrelatedEntryPointArguments, context: SimpleRequestContext)
      returns (complete: bool, o: Outcome<Error>)
      requires Valid()
      modifies Consumers(correlatedInputs.destinations)
      ensures complete == AllPresent(row.hasValues[..])
      ensures o == if complete && correlatedInputs.destinations != [] then Fail(NullPointer) else Pass
      ensures forall m :: m in old(Consumers(correlatedInputs.destinations)) ==> m.queue == old(m.queue)
      ensures forall k :: k in rows ==> rows[k].State() == old(rows[k].State())
    {
      complete := row.HasAllValues();
      o := Pass;
      if complete {
        o := correlatedInputs.DistributeAsWritten(Ref(row), context);
      }
    }

    /** `getOrPut` followed by `row.put(dataMessage)`. */
    method Collect(id: nat, dataName: string, data: Value, now: int)
      returns (row: CorrelatedEntryPointArguments, o: Outcome<Error>)
      requires Valid()
      modifies this, Arrays()
      ensures Valid()
      ensures Collected(id, dataName, data, now)
      ensures row == rows[id] && o == PutOutcome(entryPoint.inputNames, old(Prior(id)), dataName)
      ensures forall m :: m in old(Consumers(correlatedInputs.destinations)) ==> m.queue == old(m.queue)
    {
      row := GetOrPut(id, now);
      label got:
      o := PutRow(row, dataName, data);
      forall k | k in rows && k != id
        ensures k in old(rows) && rows[k] == old(rows)[k] && rows[k].State() == old(rows[k].State())
      {
        assert rows[k].State() == old@got(rows[k].State());
        assert rows[k].inputArgs[..] == old(rows[k].inputArgs[..]);
        assert rows[k].hasValues[..] == old(rows[k].hasValues[..]);
      }
    }

    /** `if (row.hasAllValues()) correlatedInputs.emit(row, context)`: only mailboxes change. */
    method EmitIfComplete(row: CorrelatedEntryPointArguments, context: SimpleRequestContext) returns (complete: bool)
      modifies Consumers(correlatedInputs.destinations)
      ensures complete == AllPresent(row.hasValues[..])
      ensures complete ==> Delivered(old(Consumers(correlatedInputs.destinations)), Outgoing(correlatedInputs.destinations, context, Ref(row)))
      ensures !complete ==> forall m :: m in old(Consumers(correlatedInputs.destinations)) ==> m.queue == old(m.queue)
      ensures forall k :: k in rows ==> rows[k].State() == old(rows[k].State())
    {
      complete := row.HasAllValues();
      if complete {
        correlatedInputs.Emit(Ref(row), context);
      }
    }

    /** The store after the message of request `id` was collected: the request's bundle is
        fetched or created (`OrderAfter`), the value is put into it (`AfterPut`), and no other
        bundle changes. */
    twostate predicate Collected(id: nat, dataName: string, data: Value, now: int)
      reads this, Arrays()
      requires old(Valid())
    {
      order == OrderAfter(old(order), old(Created()), id, now) &&
      id in rows && (id in old(rows) ==> rows[id] == old(rows)[id]) &&
      rows[id].State() == AfterPut(entryPoint.inputNames, old(Prior(id)), dataName, data) &&
      forall k :: k in rows && k != id ==> k in old(rows) && rows[k] == old(rows)[k] && rows[k].State() == old(rows[k].State())
    }

    /** The effect of one data message. A null context throws before anything changes.
        Otherwise the message is `Collected`; a rejected put ends in its exception, an accepted
        one returns the bundle, and the bundle is distributed, stamped with the message's
        context, exactly when this put completed it. */
    twostate predicate ProcessedData(context: SimpleRequestContext?, dataName: string, data: Value, now: int,
                                     new r: Result<CorrelatedEntryPointArguments, Error>)
      reads this, Arrays(), correlatedInputs, Consumers(correlatedInputs.destinations)
      requires old(Valid())
    {
      var consumers := old(Consumers(correlatedInputs.destinations));
      correlatedInputs.destinations == old(correlatedInputs.destinations) &&
      if context == null then
        r == Failure(NullPointer) && rows == old(rows) && order == old(order) &&
        (forall k :: k in rows ==> rows[k].State() == old(rows[k].State())) &&
        forall m :: m in consumers ==> m.queue == old(m.queue)
      else
        var id := context.requestId;
        var outcome := PutOutcome(entryPoint.inputNames, old(Prior(id)), dataName);
        Collected(id, dataName, data, now) &&
        r == (if outcome.Fail? then Failure(outcome.error) else Success(rows[id])) &&
        if Emits(entryPoint.inputNames, old(Prior(id)), Arg(dataName, data))
        then Delivered(consumers, Outgoing(correlatedInputs.destinations, context, Ref(rows[id])))
        else forall m :: m in consumers ==> m.queue == old(m.queue)
    }

    /** The effect of one data message as written: a put that completes the bundle of a port
        with a destination is `Collected` and then ends in a null dereference, delivering
        nothing; every other message has the effect `ProcessedData` states. */
    twostate predicate ProcessedDataAsWritten(context: SimpleRequestContext?, dataName: string, data: Value, now: int,
                                              new r: Result<CorrelatedEntryPointArguments, Error>)
      reads this, Arrays(), correlatedInputs, Consumers(correlatedInputs.destinations)
      requires old(Valid())
    {
      if context != null && old(correlatedInputs.destinations) != [] &&
         Emits(entryPoint.inputNames, old(Prior(context.requestId)), Arg(dataName, data))
      then
        correlatedInputs.destinations == old(correlatedInputs.destinations) &&
        Collected(context.requestId, dataName, data, now) && r == Failure(NullPointer) &&
        forall m :: m in old(Consumers(correlatedInputs.destinations)) ==> m.queue == old(m.queue)
      else
        ProcessedData(context, dataName, data, now, r)
    }

    /** `addDestination`: the single output ignores the port name. */
    method AddDestination(outputName: string, consumer: Mailbox, destinationName: string)
      modifies correlatedInputs
      ensures correlatedInputs.destinations == old(correlatedInputs.destinations) + [Destination(destinationName, consumer)]
    {
      correlatedInputs.AddDestination(Destination(destinationName, consumer));
    }
  }
}
