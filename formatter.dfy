/** `StructFormatter`: the one-line layout of a log record, without its date prefix and
    stack trace. Every object that is printed (contexts, argument values, the message) is
    given here as the text its `toString` yields, or None for a null reference. */
module StructFormatting {
  import opened Wrappers
  import opened Text

  /** `String.valueOf` of a reference: its text, or "null". */
  function Str(s: Option<string>): string {
    if s.None? then "null" else s.value
  }

  /** The event a log record carries, with the fields the formatter prints. A null name or
      value array is None. */
  datatype Event =
    | StartEvent(executionContext: Option<string>, requestContext: Option<string>, eventId: nat,
                 argNames: Option<seq<Option<string>>>, argValues: Option<seq<Option<string>>>)
    | MiddleEvent(executionContext: Option<string>, requestContext: Option<string>, eventId: nat)
    | EndEvent(executionContext: Option<string>, requestContext: Option<string>, eventId: nat,
               outputNames: Option<seq<Option<string>>>, outputValues: Option<seq<Option<string>>>)
    | PlainRecord

  /** A `LogRecord`: its level's name, source class and method, message and event. */
  datatype LogRecord = LogRecord(levelName: string, sourceClassName: Option<string>, sourceMethodName: Option<string>,
                                 message: Option<string>, event: Event)

  const LevelWidth: nat := 7
  const ClassNameWidth: nat := 24
  const MethodNameWidth: nat := 12
  const ContextWidth: nat := 10

  function Min(a: nat, b: nat): nat {
    if a < b then a else b
  }

  /** `name + "=" + value + " "`. */
  function Chunk(name: Option<string>, value: Option<string>): string {
    Str(name) + "=" + Str(value) + " "
  }

  /** The chunks of the first `n` pairs, in index order. */
  function Pairs(names: seq<Option<string>>, values: seq<Option<string>>, n: nat): string
    requires n <= |names| && n <= |values|
    decreases n
  {
    if n == 0 then "" else Pairs(names, values, n - 1) + Chunk(names[n - 1], values[n - 1])
  }

  /** What `inputArgsString` and `outputString` render: "NA" for a null array, else one
      chunk per index both arrays have. */
  function PairsText(names: Option<seq<Option<string>>>, values: Option<seq<Option<string>>>): string {
    if names.None? || values.None? then "NA"
    else Pairs(names.value, values.value, Min(|names.value|, |values.value|))
  }

  /** Every non-empty rendering of pairs ends with a space, so it is never "NA". */
  lemma PairsNeverNA(names: seq<Option<string>>, values: seq<Option<string>>, n: nat)
    requires n <= |names| && n <= |values|
    ensures Pairs(names, values, n) != "NA"
  {
    var p := Pairs(names, values, n);
    if n > 0 {
      var c := Chunk(names[n - 1], values[n - 1]);
      assert p[|p| - 1] == c[|c| - 1] == ' ';
    }
  }

  /** Only the indexes both arrays have are rendered: the longer array's surplus never shows. */
  lemma {:induction false} PairsIgnoreSurplus(names: seq<Option<string>>, values: seq<Option<string>>, n: nat)
    requires n <= |names| && n <= |values|
    ensures Pairs(names, values, n) == Pairs(names[..n], values[..n], n)
    decreases n
  {
    if n > 0 {
      PairsPrefix(names, values, n - 1, n);
    }
  }

  /** Rendering the first `n` pairs looks only at the first `m` entries, for any `m >= n`. */
  lemma {:induction false} PairsPrefix(names: seq<Option<string>>, values: seq<Option<string>>, n: nat, m: nat)
    requires n <= m <= |names| && m <= |values|
    ensures Pairs(names, values, n) == Pairs(names[..m], values[..m], n)
    decreases n
  {
    if n > 0 {
      PairsPrefix(names, values, n - 1, m);
    }
  }

  /** The rendering goes pair by pair: the first `k` pairs of a second array pair `n2`, `v2`
      placed after `n1`, `v1` render after the rendering of the first. */
  lemma {:induction false} PairsAppend(n1: seq<Option<string>>, v1: seq<Option<string>>,
                                       n2: seq<Option<string>>, v2: seq<Option<string>>, k: nat)
    requires |n1| == |v1| && k <= |n2| && k <= |v2|
    ensures Pairs(n1 + n2, v1 + v2, |n1| + k) == Pairs(n1, v1, |n1|) + Pairs(n2, v2, k)
    decreases k
  {
    var ns, vs := n1 + n2, v1 + v2;
    if k == 0 {
      assert ns[..|n1|] == n1 && vs[..|n1|] == v1;
      PairsPrefix(ns, vs, |n1|, |n1|);
    } else {
      var a, b := Pairs(n1, v1, |n1|), Pairs(n2, v2, k - 1);
      var c := Chunk(n2[k - 1], v2[k - 1]);
      PairsAppend(n1, v1, n2, v2, k - 1);
      assert Pairs(ns, vs, |n1| + k) == (a + b) + c by {
        assert ns[|n1| + k - 1] == n2[k - 1] && vs[|n1| + k - 1] == v2[k - 1];
      }
      assert Pairs(n2, v2, k) == b + c;
      Associative(a, b, c);
    }
  }

  /** String concatenation is associative. */
  lemma Associative(a: string, b: string, c: string)
    ensures (a + b) + c == a + (b + c)
  {
  }

  /** The builder loop of `inputArgsString` and `outputString` (whose bodies are the same):
      "NA" exactly when an array is null, else one chunk per index up to the shorter array. */
  method PairsString(names: Option<seq<Option<string>>>, values: Option<seq<Option<string>>>) returns (r: string)
    ensures r == PairsText(names, values)
    ensures r == "NA" <==> names.None? || values.None?
  {
    if names.None? || values.None? {
      return "NA";
    }
    var argNames, argValues := names.value, values.value;
    var sb := "";
    var i := 0;
    while i < |argNames|
      invariant 0 <= i <= Min(|argNames|, |argValues|)
      invariant sb == Pairs(argNames, argValues, i)
    {
      if i >= |argValues| {
        break;
      }
      sb := sb + Str(argNames[i]) + "=" + Str(argValues[i]) + " ";
      i := i + 1;
    }
    PairsNeverNA(argNames, argValues, i);
    return sb;
  }

  /** `inputArgsString` of a start event. */
  method InputArgsString(e: Event) returns (r: string)
    requires e.StartEvent?
    ensures r == PairsText(e.argNames, e.argValues)
    ensures r == "NA" <==> e.argNames.None? || e.argValues.None?
  {
    r := PairsString(e.argNames, e.argValues);
  }

  /** `outputString` of an end event. */
  method OutputString(e: Event) returns (r: string)
    requires e.EndEvent?
    ensures r == PairsText(e.outputNames, e.outputValues)
    ensures r == "NA" <==> e.outputNames.None? || e.outputValues.None?
  {
    r := PairsString(e.outputNames, e.outputValues);
  }

  /** `s.lastIndexOf(c)`. */
  function LastIndexOf(s: string, c: char): (r: int)
    ensures -1 <= r < |s|
    ensures r >= 0 ==> s[r] == c
    ensures forall j :: r < j < |s| ==> s[j] != c
    decreases |s|
  {
    if s == [] then -1
    else if s[|s| - 1] == c then |s| - 1
    else LastIndexOf(s[..|s| - 1], c)
  }

  /** No `c` is left after the last `c`. */
  lemma AfterLastIndexOf(s: string, c: char)
    ensures c !in s[LastIndexOf(s, c) + 1..]
  {
    var r := LastIndexOf(s, c);
    var t := s[r + 1..];
    forall j | 0 <= j < |t| ensures t[j] != c {
      assert t[j] == s[r + 1 + j];
    }
  }

  /** Padding adds only spaces, so a character other than a space stays absent. */
  lemma PadLeftAddsOnlySpaces(s: string, width: nat, c: char)
    requires c != ' ' && c !in s
    ensures c !in PadLeft(s, width)
  {
    var r := PadLeft(s, width);
    var d := |r| - |s|;
    forall j | 0 <= j < |r| ensures r[j] != c {
      if j >= d {
        assert r[j] == r[d..][j - d] == s[j - d];
      }
    }
  }

  /** `shortClassName`: the text after the last '.', right-justified in 24 columns and never
      cut; a null name prints as "null". No dot is left in the result. */
  function ShortClassName(name: Option<string>): (r: string)
    ensures |r| >= ClassNameWidth
    ensures '.' !in r
    ensures name.None? ==> r == PadLeft("null", ClassNameWidth)
  {
    if name.None? then PadLeft("null", ClassNameWidth)
    else
      var n := name.value;
      var last := n[LastIndexOf(n, '.') + 1..];
      AfterLastIndexOf(n, '.');
      PadLeftAddsOnlySpaces(last, ClassNameWidth, '.');
      PadLeft(last, ClassNameWidth)
  }

  /** A qualified class name prints as its simple name, however long the package. */
  lemma ShortClassNameOfQualified(pkg: string, simple: string)
    requires '.' !in simple
    ensures ShortClassName(Some(pkg + "." + simple)) == PadLeft(simple, ClassNameWidth)
  {
    var n := pkg + "." + simple;
    var k := LastIndexOf(n, '.');
    assert n[|pkg|] == '.';
    forall j | |pkg| < j < |n| ensures n[j] != '.' {
      assert n[j] == simple[j - |pkg| - 1];
    }
    assert k == |pkg|;
    assert n[k + 1..] == simple;
  }

  /** A name without a dot prints whole. */
  lemma ShortClassNameOfSimple(simple: string)
    requires '.' !in simple
    ensures ShortClassName(Some(simple)) == PadLeft(simple, ClassNameWidth)
  {
    forall j | 0 <= j < |simple| ensures simple[j] != '.' {
      assert simple[j] in simple;
    }
    assert LastIndexOf(simple, '.') == -1;
    assert simple[0..] == simple;
  }

  /** The marker that tells the event kinds apart in the log line. */
  function Marker(e: Event): (m: string)
    requires !e.PlainRecord?
    ensures |m| == 6
  {
    match e
    case StartEvent(_, _, _, _, _) => " Start"
    case MiddleEvent(_, _, _) => "      "
    case EndEvent(_, _, _, _, _) => "   End"
  }

  /** The contexts, right-justified in 10 columns each, and the event's marker. */
  function Header(e: Event): string
    requires !e.PlainRecord?
  {
    PadLeft(Str(e.executionContext), ContextWidth) + " " + PadLeft(Str(e.requestContext), ContextWidth) + Marker(e)
  }

  /** After the header: the event's id, a space, the start event's arguments or the end
      event's outputs, and the message. */
  function Tail(e: Event, message: Option<string>): string
    requires !e.PlainRecord?
  {
    match e
    case StartEvent(_, _, id, names, values) => NatToString(id) + " " + PairsText(names, values) + Str(message)
    case MiddleEvent(_, _, id) => NatToString(id) + " " + Str(message)
    case EndEvent(_, _, id, names, values) => NatToString(id) + " " + PairsText(names, values) + Str(message)
  }

  /** What `typeSpecific` appends: the header and tail of an event; the message alone for
      any other record. */
  function EventText(e: Event, message: Option<string>): string {
    if e.PlainRecord? then Str(message) else Header(e) + Tail(e, message)
  }

  /** `typeSpecific`: appends the record's event text to the builder `sb`, branching on the
      kind of record. */
  method TypeSpecific(sb: string, record: LogRecord) returns (r: string)
    ensures r == sb + EventText(record.event, record.message)
  {
    var e := record.event;
    if e.PlainRecord? {
      return sb + Str(record.message);
    }
    var header := PadLeft(Str(e.executionContext), ContextWidth);
    header := header + " ";
    header := header + PadLeft(Str(e.requestContext), ContextWidth);
    var tail := NatToString(e.eventId);
    tail := tail + " ";
    if e.StartEvent? {
      header := header + " Start";
      var args := InputArgsString(e);
      tail := tail + args;
    } else if e.MiddleEvent? {
      header := header + "      ";
    } else {
      header := header + "   End";
      var outputs := OutputString(e);
      tail := tail + outputs;
    }
    tail := tail + Str(record.message);
    r := sb + (header + tail);
  }

  /** `(a + b)` splits back into `a` and `b`. */
  lemma Halves(a: string, b: string)
    ensures (a + b)[..|a|] == a && (a + b)[|a|..] == b
  {
  }

  /** Within a prefix, slices are those of the prefix. */
  lemma SliceWithin(t: string, p: string, i: nat, j: nat)
    requires |p| <= |t| && t[..|p|] == p && i <= j <= |p|
    ensures t[i..j] == p[i..j]
  {
    assert forall k :: i <= k < j ==> t[k] == t[..|p|][k];
  }

  /** Four fields of widths 10, 1, 10 and 6 followed by any text sit in columns 0-9, 10,
      11-20 and 21-26. */
  lemma FieldColumns(p1: string, p2: string, mk: string, rest: string)
    requires |p1| == 10 && |p2| == 10 && |mk| == 6
    ensures var t := p1 + " " + p2 + mk + rest;
      |t| > 26 && t[..10] == p1 && t[10] == ' ' && t[11..21] == p2 && t[21..27] == mk
  {
    var a := p1 + " ";
    var b := a + p2;
    var h := b + mk;
    var t := h + rest;
    Halves(h, rest);
    Halves(b, mk);
    Halves(a, p2);
    Halves(p1, " ");
    SliceWithin(t, h, 21, 27);
    SliceWithin(t, h, 0, 21);
    SliceWithin(h, b, 11, 21);
    SliceWithin(h, b, 0, 11);
    SliceWithin(b, a, 0, 11);
    SliceWithin(a, p1, 0, 10);
    assert t[..10] == t[0..10];
    SliceWithin(t, h, 0, 10);
    SliceWithin(h, b, 0, 10);
    SliceWithin(b, a, 0, 10);
    assert a[10] == " "[0];
    assert t[10] == h[10] == b[10] == a[10];
  }

  /** While both contexts fit in their 10 columns, every event line has the execution
      context in columns 0-9, the request context in 11-20 and the kind's marker in 21-26;
      a record that is not an event shows only its message. */
  lemma EventColumns(e: Event, message: Option<string>)
    ensures e.PlainRecord? ==> EventText(e, message) == Str(message)
    ensures !e.PlainRecord? && |Str(e.executionContext)| <= ContextWidth && |Str(e.requestContext)| <= ContextWidth ==>
      var t := EventText(e, message);
      |t| > 26 &&
      t[..10] == PadLeft(Str(e.executionContext), ContextWidth) && t[10] == ' ' &&
      t[11..21] == PadLeft(Str(e.requestContext), ContextWidth) && t[21..27] == Marker(e)
  {
    if !e.PlainRecord? && |Str(e.executionContext)| <= ContextWidth && |Str(e.requestContext)| <= ContextWidth {
      var p1 := PadLeft(Str(e.executionContext), ContextWidth);
      var p2 := PadLeft(Str(e.requestContext), ContextWidth);
      FieldColumns(p1, p2, Marker(e), Tail(e, message));
    }
  }

  /** The markers tell the three event kinds apart. */
  lemma MarkersDistinct(e1: Event, e2: Event)
    requires !e1.PlainRecord? && !e2.PlainRecord?
    ensures Marker(e1) == Marker(e2) <==> (e1.StartEvent? == e2.StartEvent? && e1.EndEvent? == e2.EndEvent?)
  {
    if Marker(e1) == Marker(e2) {
      assert Marker(e1)[1] == Marker(e2)[1];
      assert Marker(e1)[3] == Marker(e2)[3];
    }
  }

  /** The fields `format` writes before the event text: the level in 7 columns, the short
      class name and the method name in 12 columns, each followed by a space. */
  function Head(record: LogRecord): string {
    PadLeft(record.levelName, LevelWidth) + " " + ShortClassName(record.sourceClassName) + " " +
    PadLeft(Str(record.sourceMethodName), MethodNameWidth) + " "
  }

  /** The line `format` builds after the date: the head, the event text and the line
      separator. */
  function Line(record: LogRecord, lineSeparator: string): string {
    Head(record) + EventText(record.event, record.message) + lineSeparator
  }

  /** `format`, from the level onwards: a builder that the fields are appended to. */
  method Format(record: LogRecord, lineSeparator: string) returns (r: string)
    ensures r == Line(record, lineSeparator)
  {
    var sb := PadLeft(record.levelName, LevelWidth);
    sb := sb + " ";
    sb := sb + ShortClassName(record.sourceClassName);
    sb := sb + " ";
    sb := sb + PadLeft(Str(record.sourceMethodName), MethodNameWidth);
    sb := sb + " ";
    sb := TypeSpecific(sb, record);
    sb := sb + lineSeparator;
    r := sb;
  }

  /** With a level name of at most 7 characters, a short class name of exactly 24 and a
      method name of at most 12, the head is 46 columns wide: level 0-6, class 8-31 and
      method 33-44, each followed by a space. */
  lemma HeadColumns(record: LogRecord)
    requires |record.levelName| <= LevelWidth && |ShortClassName(record.sourceClassName)| == ClassNameWidth
    requires |Str(record.sourceMethodName)| <= MethodNameWidth
    ensures var h := Head(record);
      |h| == 46 &&
      h[..7] == PadLeft(record.levelName, LevelWidth) && h[7] == ' ' &&
      h[8..32] == ShortClassName(record.sourceClassName) && h[32] == ' ' &&
      h[33..45] == PadLeft(Str(record.sourceMethodName), MethodNameWidth) && h[45] == ' '
  {
    var level := PadLeft(record.levelName, LevelWidth);
    var cls := ShortClassName(record.sourceClassName);
    var mth := PadLeft(Str(record.sourceMethodName), MethodNameWidth);
    var a := level + " ";
    var b := a + cls;
    var c := b + " ";
    var d := c + mth;
    var head := d + " ";
    assert head == Head(record);
    assert |level| == 7 && |mth| == 12 && |head| == 46;
    Halves(d, " ");
    Halves(c, mth);
    Halves(b, " ");
    Halves(a, cls);
    Halves(level, " ");
    SliceWithin(head, d, 0, 33);
    SliceWithin(head, d, 33, 45);
    SliceWithin(d, c, 0, 32);
    SliceWithin(d, c, 0, 33);
    SliceWithin(c, b, 8, 32);
    SliceWithin(c, b, 0, 8);
    SliceWithin(b, a, 0, 7);
    SliceWithin(a, level, 0, 7);
    assert head[..7] == head[0..7];
    SliceWithin(head, d, 0, 7);
    SliceWithin(d, c, 0, 7);
    SliceWithin(c, b, 0, 7);
    SliceWithin(head, d, 8, 32);
    SliceWithin(d, c, 8, 32);
    assert a[7] == " "[0] && c[32] == " "[0] && head[45] == " "[0];
    assert head[7] == d[7] == c[7] == b[7] == a[7];
    assert head[32] == d[32] == c[32];
  }

  /** A line is its head, then the event text, then the line separator that ends it; with
      fields of the widths `HeadColumns` names, the event text starts in column 46. */
  lemma LineColumns(record: LogRecord, lineSeparator: string)
    requires |record.levelName| <= LevelWidth && |ShortClassName(record.sourceClassName)| == ClassNameWidth
    requires |Str(record.sourceMethodName)| <= MethodNameWidth
    ensures var l := Line(record, lineSeparator);
      var body := EventText(record.event, record.message);
      |l| == 46 + |body| + |lineSeparator| &&
      l[..46] == Head(record) && l[46..46 + |body|] == body && l[46 + |body|..] == lineSeparator
  {
    var head := Head(record);
    var body := EventText(record.event, record.message);
    var hb := head + body;
    HeadColumns(record);
    Halves(hb, lineSeparator);
    Halves(head, body);
    SliceWithin(Line(record, lineSeparator), hb, 46, 46 + |body|);
    SliceWithin(Line(record, lineSeparator), hb, 0, 46);
  }
}
