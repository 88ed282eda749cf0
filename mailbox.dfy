/** The bounded input queue every `SequentialActivity` owns, its non-blocking `offer`,
    the advisory `canBeEnqueued`, and the poll-and-dispatch of one turn of the run loop. */
module Mailboxes {
  import opened Wrappers
  import opened KissData

  /** `ArrayBlockingQueue.offer`: append unless the queue already holds `capacity` messages. */
  function Offer(q: seq<DCMessage>, capacity: nat, m: DCMessage): seq<DCMessage> {
    if |q| < capacity then q + [m] else q
  }

  /** The queue after offering `ms` one after the other, with no poll in between. */
  function OfferAll(q: seq<DCMessage>, capacity: nat, ms: seq<DCMessage>): seq<DCMessage>
    decreases |ms|
  {
    if ms == [] then q else Offer(OfferAll(q, capacity, ms[..|ms| - 1]), capacity, ms[|ms| - 1])
  }

  /** How many of `n` offers a queue of length `len` and the given capacity accepts. */
  function Room(len: nat, capacity: nat, n: nat): nat {
    if len >= capacity then 0 else if n <= capacity - len then n else capacity - len
  }

  /** A burst of offers keeps the queued messages in front, accepts exactly the first
      messages that fit, in order, and drops the rest: the queue never overflows. */
  lemma {:induction false} OfferAllAccepts(q: seq<DCMessage>, capacity: nat, ms: seq<DCMessage>)
    ensures OfferAll(q, capacity, ms) == q + ms[..Room(|q|, capacity, |ms|)]
    ensures |q| <= capacity ==> |OfferAll(q, capacity, ms)| <= capacity
    decreases |ms|
  {
    if ms != [] {
      var init := ms[..|ms| - 1];
      OfferAllAccepts(q, capacity, init);
      assert ms[..Room(|q|, capacity, |init|)] == init[..Room(|q|, capacity, |init|)];
      if Room(|q|, capacity, |ms|) == Room(|q|, capacity, |init|) + 1 {
        assert ms[..Room(|q|, capacity, |ms|)] == init[..Room(|q|, capacity, |init|)] + [ms[|ms| - 1]];
      }
    }
  }

  lemma {:induction false} OfferAllAppend(q: seq<DCMessage>, capacity: nat, a: seq<DCMessage>, b: seq<DCMessage>)
    ensures OfferAll(q, capacity, a + b) == OfferAll(OfferAll(q, capacity, a), capacity, b)
    decreases |b|
  {
    if b == [] {
      assert a + b == a;
    } else {
      assert (a + b)[..|a + b| - 1] == a + b[..|b| - 1];
      OfferAllAppend(q, capacity, a, b[..|b| - 1]);
    }
  }

  /** Offering one more message after a burst is offering the longer burst. */
  lemma OfferAllLast(q: seq<DCMessage>, capacity: nat, ms: seq<DCMessage>, m: DCMessage)
    ensures OfferAll(q, capacity, ms + [m]) == Offer(OfferAll(q, capacity, ms), capacity, m)
  {
    assert (ms + [m])[..|ms + [m]| - 1] == ms;
  }

  /** What `canBeEnqueued` promises: while more than three places are free, the next four
      offers are all accepted. */
  lemma CanBeEnqueuedLeavesRoom(q: seq<DCMessage>, capacity: nat, ms: seq<DCMessage>)
    requires capacity - |q| > 3 && |ms| <= 4
    ensures OfferAll(q, capacity, ms) == q + ms
  {
    OfferAllAccepts(q, capacity, ms);
    assert ms[..|ms|] == ms;
  }

  /** One `enqueue` call on a consumer: the message and the mailbox it is offered to. */
  datatype Delivery = Delivery(to: Mailbox, msg: DCMessage)

  /** The messages of `ds` offered to `m`, in the order they are offered. */
  function Addressed(m: Mailbox, ds: seq<Delivery>): seq<DCMessage>
    decreases |ds|
  {
    if ds == [] then []
    else Addressed(m, ds[..|ds| - 1]) + (if ds[|ds| - 1].to == m then [ds[|ds| - 1].msg] else [])
  }

  lemma {:induction false} AddressedAppend(m: Mailbox, a: seq<Delivery>, b: seq<Delivery>)
    ensures Addressed(m, a + b) == Addressed(m, a) + Addressed(m, b)
    decreases |b|
  {
    if b == [] {
      assert a + b == a;
    } else {
      assert (a + b)[..|a + b| - 1] == a + b[..|b| - 1];
      AddressedAppend(m, a, b[..|b| - 1]);
    }
  }

  /** A mailbox no delivery goes to receives nothing. */
  lemma {:induction false} AddressedElsewhere(m: Mailbox, ds: seq<Delivery>)
    requires forall i :: 0 <= i < |ds| ==> ds[i].to != m
    ensures Addressed(m, ds) == []
    decreases |ds|
  {
    if ds != [] {
      AddressedElsewhere(m, ds[..|ds| - 1]);
    }
  }

  /** A mailbox that exactly one of the deliveries goes to is addressed that one message. */
  lemma {:induction false} AddressedOnce(m: Mailbox, ds: seq<Delivery>, d: nat)
    requires d < |ds| && ds[d].to == m
    requires forall i :: 0 <= i < |ds| && i != d ==> ds[i].to != m
    ensures Addressed(m, ds) == [ds[d].msg]
    decreases |ds|
  {
    var init := ds[..|ds| - 1];
    if d == |ds| - 1 {
      forall i | 0 <= i < |init| ensures init[i].to != m {
        assert init[i] == ds[i];
      }
      AddressedElsewhere(m, init);
    } else {
      forall i | 0 <= i < |init| && i != d ensures init[i].to != m {
        assert init[i] == ds[i];
      }
      AddressedOnce(m, init, d);
    }
  }

  /** Between the two states, every mailbox of `S` received exactly its share of `ds`,
      offered in order (so a full mailbox dropped what did not fit). */
  twostate predicate Delivered(S: set<Mailbox>, new ds: seq<Delivery>)
    reads S
  {
    forall m :: m in S ==> m.queue == OfferAll(old(m.queue), m.capacity, Addressed(m, ds))
  }

  /** One more delivery `d`: a mailbox whose queue held what it had been offered by `ds` since
      it was `q0` then holds what it has been offered by `ds + [d]`, whether or not `d` is
      addressed to it. */
  lemma OfferedOneMore(q0: seq<DCMessage>, capacity: nat, ds: seq<Delivery>, d: Delivery, m: Mailbox,
                       before: seq<DCMessage>)
    requires before == OfferAll(q0, capacity, Addressed(m, ds))
    ensures (if d.to == m then Offer(before, capacity, d.msg) else before) ==
      OfferAll(q0, capacity, Addressed(m, ds + [d]))
  {
    assert (ds + [d])[..|ds + [d]| - 1] == ds;
    var a := Addressed(m, ds);
    assert Addressed(m, ds + [d]) == a + (if d.to == m then [d.msg] else []);
    if d.to == m {
      OfferAllLast(q0, capacity, a, d.msg);
    } else {
      assert a + [] == a;
    }
  }

  /** What one turn of the run loop does with the result of `poll`. */
  datatype StepResult =
    | Idle                    // the poll timed out (null message): nothing happens
    | Ignored                 // a Command or other non-data message: nothing happens
    | Processed               // a data message was handled
    | Crashed(error: Error)   // the exception escaped the loop and ends the actor

  class Mailbox {
    const capacity: nat
    var queue: seq<DCMessage>

    /** `new ArrayBlockingQueue(inputQueueLength)`, which refuses a capacity below one. */
    constructor(capacity: nat)
      requires capacity > 0
      ensures this.capacity == capacity && queue == []
    {
      this.capacity := capacity;
      queue := [];
    }

    /** `enqueue`: a non-blocking offer, false exactly when the queue is full. */
    method Enqueue(m: DCMessage) returns (ok: bool)
      modifies this
      ensures ok <==> |old(queue)| < capacity
      ensures queue == if ok then old(queue) + [m] else old(queue)
    {
      ok := |queue| < capacity;
      if ok {
        queue := queue + [m];
      }
    }

    /** `canBeEnqueued`: more than three places are still free, that is, the next four
        offers would all be accepted. */
    predicate CanBeEnqueued()
      reads this
      ensures CanBeEnqueued() <==> Room(|queue|, capacity, 4) == 4
    {
      capacity - |queue| > 3
    }

    /** The run loop's `poll` with a timeout: the oldest message, or null (None) when the
        wait times out on an empty queue. An interrupted wait throws, which the loop turns
        into an exception that ends the actor; the queue is then left as it was. */
    method Poll(interrupted: bool) returns (r: Result<Option<DCMessage>, Error>)
      modifies this
      ensures interrupted ==> r == Failure(Interrupted) && queue == old(queue)
      ensures !interrupted && old(queue) == [] ==> r == Success(None) && queue == []
      ensures !interrupted && old(queue) != [] ==> r == Success(Some(old(queue)[0])) && queue == old(queue)[1..]
    {
      if interrupted {
        return Failure(Interrupted);
      }
      if queue == [] {
        r := Success(None);
      } else {
        r := Success(Some(queue[0]));
        queue := queue[1..];
      }
    }
  }

  /** `canBeEnqueued` can only hold when the capacity exceeds three. */
  lemma CanBeEnqueuedNeedsCapacity(b: Mailbox)
    ensures b.CanBeEnqueued() ==> b.capacity > 3
  {
  }
}
