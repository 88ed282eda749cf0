/** `CorrelatedEntryPointArguments`: the write-once argument slots one request collects for
    one entry point, and what any sequence of `put`s does to them. */
module Bundles {
  import opened Wrappers
  import opened KissData

  /** An inspected entry point: its declared input names (null allowed), the method to call
      and the output name its return value goes to. */
  datatype EntryPoint = EntryPoint(inputNames: seq<Option<string>>, methodName: string, outputName: string)

  /** The abstract value of a bundle: the argument values and the presence flags. */
  datatype Slots = Slots(values: seq<Value>, present: seq<bool>)

  /** A data message seen as the (name, value) pair `put` consumes. */
  datatype Arg = Arg(name: string, value: Value)

  /** The index `findParameterIndex` answers: the first non-null input name equal to
      `name`, or -1. */
  function IndexOf(names: seq<Option<string>>, name: string): (r: int)
    ensures -1 <= r < |names|
    ensures r >= 0 ==> names[r] == Some(name) && forall j :: 0 <= j < r ==> names[j] != Some(name)
    ensures r == -1 ==> forall j :: 0 <= j < |names| ==> names[j] != Some(name)
    decreases |names|
  {
    if names == [] then -1
    else if names[0] == Some(name) then 0
    else
      var k := IndexOf(names[1..], name);
      if k < 0 then -1 else k + 1
  }

  predicate AllPresent(present: seq<bool>) {
    forall i :: 0 <= i < |present| ==> present[i]
  }

  /** Slots sized for the given names. */
  predicate Fits(names: seq<Option<string>>, s: Slots) {
    |s.values| == |names| && |s.present| == |names|
  }

  /** A fresh bundle: every value null, no slot filled. */
  function Empty(n: nat): (s: Slots)
    ensures |s.values| == n && |s.present| == n
    ensures forall i :: 0 <= i < n ==> !s.present[i] && s.values[i] == Null
  {
    Slots(seq(n, _ => Null), seq(n, _ => false))
  }

  /** Whether `put(name)` throws, and which exception. */
  function PutOutcome(names: seq<Option<string>>, s: Slots, name: string): Outcome<Error>
    requires Fits(names, s)
  {
    var i := IndexOf(names, name);
    if i < 0 then Fail(UnknownArgumentName)
    else if s.present[i] then Fail(DuplicateValue)
    else Pass
  }

  /** The slots after `put(name, data)`; a rejected put leaves them as they were. */
  function AfterPut(names: seq<Option<string>>, s: Slots, name: string, data: Value): (r: Slots)
    requires Fits(names, s)
    ensures Fits(names, r)
  {
    var i := IndexOf(names, name);
    if i < 0 || s.present[i] then s
    else Slots(s.values[i := data], s.present[i := true])
  }

  /** The number of filled slots. */
  function Filled(present: seq<bool>): nat
    decreases |present|
  {
    if present == [] then 0 else Filled(present[..|present| - 1]) + (if present[|present| - 1] then 1 else 0)
  }

  lemma {:induction false} FilledSetOne(present: seq<bool>, i: nat)
    requires i < |present| && !present[i]
    ensures Filled(present[i := true]) == Filled(present) + 1
    decreases |present|
  {
    var n := |present|;
    assert present[i := true][..n - 1] == if i < n - 1 then present[..n - 1][i := true] else present[..n - 1];
    if i < n - 1 {
      FilledSetOne(present[..n - 1], i);
    }
  }

  /** An accepted put fills exactly the slot of the name: it writes that value and that
      flag, touches no other slot, and raises the number of filled slots by one. */
  lemma PutFillsOneSlot(names: seq<Option<string>>, s: Slots, name: string, data: Value)
    requires Fits(names, s) && PutOutcome(names, s, name) == Pass
    ensures var i := IndexOf(names, name); var r := AfterPut(names, s, name, data);
      0 <= i && !s.present[i] && r.present[i] && r.values[i] == data &&
      (forall j :: 0 <= j < |names| && j != i ==> r.present[j] == s.present[j] && r.values[j] == s.values[j]) &&
      Filled(r.present) == Filled(s.present) + 1
  {
    FilledSetOne(s.present, IndexOf(names, name));
  }

  /** `put` applied to each message in turn; rejected puts change nothing. */
  function PutAll(names: seq<Option<string>>, s: Slots, args: seq<Arg>): (r: Slots)
    requires Fits(names, s)
    ensures Fits(names, r)
    decreases |args|
  {
    if args == [] then s else PutAll(names, AfterPut(names, s, args[0].name, args[0].value), args[1..])
  }

  /** The value of the first message with this name. */
  function Lookup(args: seq<Arg>, name: string): Option<Value>
    decreases |args|
  {
    if args == [] then None
    else if args[0].name == name then Some(args[0].value)
    else Lookup(args[1..], name)
  }

  /** Slot i is the slot its name resolves to (its name is non-null and not declared earlier). */
  predicate Owns(names: seq<Option<string>>, i: nat)
    requires i < |names|
  {
    names[i].Some? && IndexOf(names, names[i].value) == i
  }

  /** What a sequence of puts leaves in each slot, told slot by slot: a filled slot keeps its
      value; an empty slot that owns its name takes the first message of that name. */
  function Expected(names: seq<Option<string>>, s: Slots, args: seq<Arg>): (r: Slots)
    requires Fits(names, s)
    ensures Fits(names, r)
  {
    Slots(
      seq(|names|, i requires 0 <= i < |names| =>
        if !s.present[i] && Owns(names, i) && Lookup(args, names[i].value).Some?
        then Lookup(args, names[i].value).value else s.values[i]),
      seq(|names|, i requires 0 <= i < |names| =>
        s.present[i] || (Owns(names, i) && Lookup(args, names[i].value).Some?)))
  }

  lemma ExpectedAfterPut(names: seq<Option<string>>, s: Slots, a: Arg, rest: seq<Arg>)
    requires Fits(names, s)
    ensures Expected(names, AfterPut(names, s, a.name, a.value), rest) == Expected(names, s, [a] + rest)
  {
    var s' := AfterPut(names, s, a.name, a.value);
    var e1, e2 := Expected(names, s', rest), Expected(names, s, [a] + rest);
    var k := IndexOf(names, a.name);
    forall i | 0 <= i < |names|
      ensures e1.values[i] == e2.values[i] && e1.present[i] == e2.present[i]
    {
      if Owns(names, i) && names[i].value == a.name {
        assert k == i;
      } else if Owns(names, i) {
        assert ([a] + rest)[1..] == rest;
      }
    }
  }

  /** Any sequence of puts, duplicates and unknown names included, ends in `Expected`. */
  lemma {:induction false} PutAllIsExpected(names: seq<Option<string>>, s: Slots, args: seq<Arg>)
    requires Fits(names, s)
    ensures PutAll(names, s, args) == Expected(names, s, args)
    decreases |args|
  {
    if args == [] {
      var e := Expected(names, s, args);
      assert e.values == s.values;
      assert e.present == s.present;
    } else {
      PutAllIsExpected(names, AfterPut(names, s, args[0].name, args[0].value), args[1..]);
      ExpectedAfterPut(names, s, args[0], args[1..]);
      assert [args[0]] + args[1..] == args;
    }
  }

  predicate DistinctArgNames(args: seq<Arg>) {
    forall i, j :: 0 <= i < j < |args| ==> args[i].name != args[j].name
  }

  lemma {:induction false} LookupFindsMember(args: seq<Arg>, name: string, v: Value)
    requires DistinctArgNames(args)
    ensures Lookup(args, name) == Some(v) <==> Arg(name, v) in args
    decreases |args|
  {
    if args != [] {
      assert DistinctArgNames(args[1..]) by {
        forall i, j | 0 <= i < j < |args| - 1 ensures args[1..][i].name != args[1..][j].name {
          assert args[1..][i] == args[i + 1] && args[1..][j] == args[j + 1];
        }
      }
      LookupFindsMember(args[1..], name, v);
      forall j | 0 <= j < |args[1..]| ensures args[1..][j].name != args[0].name {
        assert args[1..][j] == args[j + 1];
      }
    }
  }

  /** With one message per name, the bundle does not depend on the order of arrival. */
  lemma PutAllOrderIndependent(names: seq<Option<string>>, s: Slots, a: seq<Arg>, b: seq<Arg>)
    requires Fits(names, s)
    requires DistinctArgNames(a) && DistinctArgNames(b)
    requires forall x :: x in a <==> x in b
    ensures PutAll(names, s, a) == PutAll(names, s, b)
  {
    PutAllIsExpected(names, s, a);
    PutAllIsExpected(names, s, b);
    forall n: string ensures Lookup(a, n) == Lookup(b, n) {
      if Lookup(a, n).Some? {
        LookupFindsMember(a, n, Lookup(a, n).value);
        LookupFindsMember(b, n, Lookup(a, n).value);
      } else if Lookup(b, n).Some? {
        LookupFindsMember(a, n, Lookup(b, n).value);
        LookupFindsMember(b, n, Lookup(b, n).value);
      }
    }
    var ea, eb := Expected(names, s, a), Expected(names, s, b);
    assert ea.values == eb.values;
    assert ea.present == eb.present;
  }

  /** Input names that are all non-null and pairwise different. */
  predicate WellFormedNames(names: seq<Option<string>>) {
    (forall i :: 0 <= i < |names| ==> names[i].Some?) &&
    (forall i, j :: 0 <= i < j < |names| ==> names[i] != names[j])
  }

  lemma {:induction false} LookupPresent(args: seq<Arg>, a: Arg)
    requires a in args
    ensures Lookup(args, a.name).Some?
    decreases |args|
  {
    if args[0] != a {
      LookupPresent(args[1..], a);
    }
  }

  /** Every declared input name is the name of some message. */
  predicate Covers(names: seq<Option<string>>, args: seq<Arg>) {
    forall i :: 0 <= i < |names| ==> exists a :: a in args && Some(a.name) == names[i]
  }

  /** Supplying every declared name completes the bundle, in whatever order. */
  lemma PutAllCompletes(names: seq<Option<string>>, s: Slots, args: seq<Arg>)
    requires Fits(names, s) && WellFormedNames(names)
    requires Covers(names, args)
    ensures AllPresent(PutAll(names, s, args).present)
  {
    PutAllIsExpected(names, s, args);
    forall i | 0 <= i < |names| ensures PutAll(names, s, args).present[i] {
      var a :| a in args && Some(a.name) == names[i];
      LookupPresent(args, a);
      var k := IndexOf(names, a.name);
      assert k >= 0;
      assert names[k] == names[i];
    }
  }

  /** Filled slots stay filled, with their values, whatever arrives later. */
  lemma PutAllMonotone(names: seq<Option<string>>, s: Slots, args: seq<Arg>, i: nat)
    requires Fits(names, s) && i < |names| && s.present[i]
    ensures PutAll(names, s, args).present[i] && PutAll(names, s, args).values[i] == s.values[i]
  {
    PutAllIsExpected(names, s, args);
  }

  /** A complete bundle refuses every further put and never changes again. */
  lemma CompleteRejectsEverything(names: seq<Option<string>>, s: Slots, args: seq<Arg>)
    requires Fits(names, s) && AllPresent(s.present)
    ensures forall a :: a in args ==> PutOutcome(names, s, a.name).Fail?
    ensures PutAll(names, s, args) == s
  {
    PutAllIsExpected(names, s, args);
    var e := Expected(names, s, args);
    assert e.values == s.values;
    assert e.present == s.present;
  }

  /** When a name is declared twice, only its first slot can be filled: the second stays
      empty, so the bundle never completes. */
  lemma DuplicateNameNeverCompletes(names: seq<Option<string>>, s: Slots, args: seq<Arg>, i: nat, j: nat)
    requires Fits(names, s) && i < j < |names| && names[i] == names[j] && names[j].Some? && !s.present[j]
    ensures !PutAll(names, s, args).present[j]
    ensures !AllPresent(PutAll(names, s, args).present)
  {
    PutAllIsExpected(names, s, args);
    assert !Owns(names, j);
  }

  /** `processDataMessage` emits after a put exactly when that put is accepted and leaves
      the bundle complete. */
  predicate Emits(names: seq<Option<string>>, s: Slots, a: Arg)
    requires Fits(names, s)
  {
    PutOutcome(names, s, a.name) == Pass && AllPresent(AfterPut(names, s, a.name, a.value).present)
  }

  /** The number of emissions a sequence of messages causes. */
  function EmitCount(names: seq<Option<string>>, s: Slots, args: seq<Arg>): nat
    requires Fits(names, s)
    decreases |args|
  {
    if args == [] then 0
    else (if Emits(names, s, args[0]) then 1 else 0) + EmitCount(names, AfterPut(names, s, args[0].name, args[0].value), args[1..])
  }

  /** A bundle is emitted at most once, and never once it was complete. */
  lemma {:induction false} AtMostOneEmission(names: seq<Option<string>>, s: Slots, args: seq<Arg>)
    requires Fits(names, s)
    ensures EmitCount(names, s, args) <= 1
    ensures AllPresent(s.present) ==> EmitCount(names, s, args) == 0
    decreases |args|
  {
    if args != [] {
      var s' := AfterPut(names, s, args[0].name, args[0].value);
      AtMostOneEmission(names, s', args[1..]);
      if AllPresent(s.present) {
        assert s' == s;
      }
    }
  }

  /** A sequence of messages that takes the bundle from incomplete to complete emits it. */
  lemma {:induction false} CompletionEmits(names: seq<Option<string>>, s: Slots, args: seq<Arg>)
    requires Fits(names, s) && !AllPresent(s.present) && AllPresent(PutAll(names, s, args).present)
    ensures EmitCount(names, s, args) >= 1
    decreases |args|
  {
    var s' := AfterPut(names, s, args[0].name, args[0].value);
    if !Emits(names, s, args[0]) {
      if PutOutcome(names, s, args[0].name) != Pass {
        assert s' == s;
      }
      CompletionEmits(names, s', args[1..]);
    }
  }

  /** From a fresh bundle with at least one input, supplying every declared name emits the
      bundle exactly once, whatever the order and whatever else arrives. */
  lemma ExactlyOneEmission(names: seq<Option<string>>, args: seq<Arg>)
    requires |names| > 0 && WellFormedNames(names)
    requires Covers(names, args)
    ensures EmitCount(names, Empty(|names|), args) == 1
  {
    var s := Empty(|names|);
    assert !s.present[0];
    PutAllCompletes(names, s, args);
    CompletionEmits(names, s, args);
    AtMostOneEmission(names, s, args);
  }

  /** An entry point without inputs accepts no put, so its bundle is never emitted. */
  lemma NoInputsNeverEmits(names: seq<Option<string>>, s: Slots, a: Arg)
    requires |names| == 0 && Fits(names, s)
    ensures PutOutcome(names, s, a.name) == Fail(UnknownArgumentName) && !Emits(names, s, a)
  {
  }

  class CorrelatedEntryPointArguments {
    const dcid: nat
    const entryPoint: EntryPoint
    const createTime: int
    const inputArgs: array<Value>
    const hasValues: array<bool>

    ghost predicate Valid() {
      inputArgs.Length == |entryPoint.inputNames| && hasValues.Length == |entryPoint.inputNames|
    }

    ghost function State(): Slots
      reads inputArgs, hasValues
    {
      Slots(inputArgs[..], hasValues[..])
    }

    /** One slot per declared input name, all empty. */
    constructor(dcid: nat, entryPoint: EntryPoint, createTime: int)
      ensures Valid() && this.dcid == dcid && this.entryPoint == entryPoint && this.createTime == createTime
      ensures fresh(inputArgs) && fresh(hasValues)
      ensures State() == Empty(|entryPoint.inputNames|)
    {
      this.dcid := dcid;
      this.entryPoint := entryPoint;
      this.createTime := createTime;
      inputArgs := new Value[|entryPoint.inputNames|](_ => Null);
      hasValues := new bool[|entryPoint.inputNames|](_ => false);
    }

    /** `hasAllValues`: true iff every flag is set (so true for no inputs at all). */
    method HasAllValues() returns (all: bool)
      ensures all == AllPresent(hasValues[..])
    {
      var i := 0;
      while i < hasValues.Length
        invariant 0 <= i <= hasValues.Length
        invariant forall j :: 0 <= j < i ==> hasValues[j]
      {
        if !hasValues[i] {
          return false;
        }
        i := i + 1;
      }
      return true;
    }

    /** `findParameterIndex`: the first input whose non-null name equals `dataName`, or -1. */
    method FindParameterIndex(dataName: string) returns (index: int)
      ensures index == IndexOf(entryPoint.inputNames, dataName)
    {
      var names := entryPoint.inputNames;
      var i := 0;
      while i < |names|
        invariant 0 <= i <= |names|
        invariant forall j :: 0 <= j < i ==> names[j] != Some(dataName)
      {
        var argName := names[i];
        if argName.Some? && argName.value == dataName {
          return i;
        }
        i := i + 1;
      }
      return -1;
    }

    /** `put`: rejects an unknown name and an already filled slot, changing nothing; otherwise
        writes the value and the flag of that one slot. */
    method Put(dataName: string, data: Value) returns (o: Outcome<Error>)
      requires Valid()
      modifies inputArgs, hasValues
      ensures o == PutOutcome(entryPoint.inputNames, old(State()), dataName)
      ensures State() == AfterPut(entryPoint.inputNames, old(State()), dataName, data)
    {
      var index := FindParameterIndex(dataName);
      if index < 0 {
        return Fail(UnknownArgumentName);
      }
      if hasValues[index] {
        return Fail(DuplicateValue);
      }
      inputArgs[index] := data;
      hasValues[index] := true;
      o := Pass;
    }
  }
}
