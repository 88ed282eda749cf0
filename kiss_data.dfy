/** The runtime's message data: request contexts and their shared id generator, payload
    values, the data/command messages that travel between activities, and the errors
    that the runtime's operations raise. */
module KissData {
  import opened Text

  /** The shared counter `SimpleRequestContext.idgen` (an `AtomicLong` starting at 0).
      `issued` records every id handed out so far. */
  class IdGenerator {
    var value: nat
    ghost var issued: set<nat>

    ghost predicate Valid()
      reads this
    {
      forall id :: id in issued ==> 1 <= id <= value
    }

    constructor()
      ensures Valid() && value == 0 && issued == {}
    {
      value := 0;
      issued := {};
    }
  }

  /** A request context whose id is drawn from the shared generator when it is created. */
  class SimpleRequestContext {
    const requestId: nat

    /** Advances the generator by one and takes the new value as this context's id, so the
        id is larger than, hence different from, every id issued before. */
    constructor(idgen: IdGenerator)
      requires idgen.Valid()
      modifies idgen
      ensures idgen.Valid()
      ensures idgen.value == old(idgen.value) + 1 && requestId == idgen.value
      ensures forall id :: id in old(idgen.issued) ==> id < requestId
      ensures requestId !in old(idgen.issued) && idgen.issued == old(idgen.issued) + {requestId}
    {
      idgen.value := idgen.value + 1;
      idgen.issued := idgen.issued + {idgen.value};
      requestId := idgen.value;
    }

    function GetRequestId(): nat {
      requestId
    }

    /** Sub-contexts are not supported: the answer is always null. */
    function GetSubRequestContext(): (r: SimpleRequestContext?)
      ensures r == null
    {
      null
    }

    /** `rctx[rid=<id>]`: the id reads back from between the brackets. */
    function ToString(): (r: string)
      ensures |r| >= 11 && r[..9] == "rctx[rid=" && r[|r| - 1] == ']'
      ensures forall i :: 9 <= i < |r| - 1 ==> IsDigit(r[i])
      ensures ParseNat(r[9..|r| - 1]) == requestId
    {
      var digits := NatToString(requestId);
      ParseNatToString(requestId);
      var r := "rctx[rid=" + digits + "]";
      assert r[9..|r| - 1] == digits;
      r
    }
  }

  /** The rendering of a context is `rctx[rid=<id>]`, and it identifies the context's id. */
  lemma ToStringIdentifiesRequest(a: SimpleRequestContext, b: SimpleRequestContext)
    ensures a.ToString() == b.ToString() <==> a.requestId == b.requestId
  {
    var sa, sb := NatToString(a.requestId), NatToString(b.requestId);
    if a.ToString() == b.ToString() {
      assert a.ToString()[9..|a.ToString()| - 1] == sa;
      assert b.ToString()[9..|b.ToString()| - 1] == sb;
      NatToStringInjective(a.requestId, b.requestId);
    }
  }

  /** A message payload: Java `null`, a number, a string, or a reference to an object
      (a correlated argument bundle, say). */
  datatype Value = Null | IntValue(i: int) | StrValue(s: string) | Ref(obj: object)

  /** `DCMessage`: a data message (`DataMessage`) or one of the other message types. */
  datatype DCMessage =
    | Data(context: SimpleRequestContext?, dataName: string, data: Value)
    | Command
    | Other

  /** `cloneChangeDestinationName`: a copy of a data message under another data name. */
  function CloneChangeDestinationName(m: DCMessage, destinationName: string): (r: DCMessage)
    ensures m.Data? ==> r == Data(m.context, destinationName, m.data)
    ensures !m.Data? ==> r == m
  {
    match m
    case Data(context, _, data) => Data(context, destinationName, data)
    case _ => m
  }

  /** Renaming a data message keeps its request context and its value, and when a message is
      renamed twice, the second name is the one that stays. */
  lemma RenameKeepsPayload(m: DCMessage, first: string, second: string)
    ensures m.Data? ==> CloneChangeDestinationName(m, first).Data?
    ensures m.Data? ==> CloneChangeDestinationName(m, first).context == m.context
    ensures m.Data? ==> CloneChangeDestinationName(m, first).data == m.data
    ensures m.Data? ==> CloneChangeDestinationName(m, first).dataName == first
    ensures CloneChangeDestinationName(CloneChangeDestinationName(m, first), second)
         == CloneChangeDestinationName(m, second)
  {
  }

  /** The exceptions the runtime's operations throw. */
  datatype Error =
    | UnknownArgumentName      // put: no input of the entry point has the message's name
    | DuplicateValue           // put: the input already holds a value
    | NotCorrelatedArguments   // invoker: the data is not an argument bundle
    | OutputNotCreated         // invoker: no distributor for the entry point's output
    | CarrierMissing           // emit(data) on a distributor built without a carrier
    | NullPointer              // a null reference was dereferenced
    | IndexOutOfBounds         // index 0 of an empty array
    | ActivityNotFound(name: string)
    | Interrupted              // the queue wait was interrupted
}
