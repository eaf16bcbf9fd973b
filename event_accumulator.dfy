/**
 * STEventSourceEventAccumulator: the field grammar of an event stream, applied line by line
 * (section 9.2.6 of the WHATWG HTML Living Standard, "Interpreting an event stream").
 * The accumulator keeps the `type`, `data` and `id` buffers of the event in progress and a
 * two-state recovery machine; it reports events and retry intervals to its delegate, modelled
 * here as the sequence of delegate calls it makes.
 */
module EventAccumulation {
  import opened Wrappers
  import opened Octets
  import opened Events
  import Utf8

  /** STEventSourceEventAccumulatorState. `Normal` is the zero value. */
  datatype AccumulatorState = Normal | IgnoringUntilBlankLine

  /** The most characters the data buffer of one event may hold; a `data` field that would pass it drops the event. */
  const MaxDataLength: nat := 0x10_0000

  /** The two delegate messages, in the order the accumulator sends them. */
  datatype DelegateCall =
    | DidReceiveEvent(event: Event)
    | DidReceiveRetryInterval(milliseconds: nat)

  /** The accumulator's state: the recovery mode and the buffers of the event in progress. */
  datatype Buffers = Buffers(state: AccumulatorState, eventType: Option<string>, data: string, id: Option<string>)

  const Initial: Buffers := Buffers(Normal, None, "", None)

  /** The state after some lines, and the delegate calls they caused. */
  datatype Accumulated = Accumulated(buffers: Buffers, calls: seq<DelegateCall>)

  // ---------------------------------------------------------------------------
  // Retry values

  predicate IsAsciiDigit(c: char) {
    '0' <= c <= '9'
  }

  /** At least one character, and every character an ASCII digit: no sign, no space. */
  predicate IsDigitString(s: string) {
    |s| > 0 && forall i :: 0 <= i < |s| ==> IsAsciiDigit(s[i])
  }

  /** NSStringConsistsSolelyOfASCIIDigits: an index loop that returns early on the first non-digit. */
  method StringConsistsSolelyOfAsciiDigits(s: string) returns (r: bool)
    ensures r == IsDigitString(s)
  {
    if |s| == 0 {
      return false;
    }
    var i := 0;
    while i < |s|
      invariant 0 <= i <= |s|
      invariant forall j :: 0 <= j < i ==> IsAsciiDigit(s[j])
    {
      var c := s[i];
      if c < '0' || c > '9' {
        return false;
      }
      i := i + 1;
    }
    return true;
  }

  function DigitValue(c: char): nat
    requires IsAsciiDigit(c)
  {
    c as int - '0' as int
  }

  /** The number a string of decimal digits denotes. */
  function DecimalValue(s: string): nat
    requires forall i :: 0 <= i < |s| ==> IsAsciiDigit(s[i])
    decreases |s|
  {
    if s == [] then 0 else 10 * DecimalValue(s[..|s| - 1]) + DigitValue(s[|s| - 1])
  }

  /** The shortest decimal spelling of `n`. */
  function DecimalString(n: nat): string
    decreases n
  {
    (if n < 10 then "" else DecimalString(n / 10)) + [('0' as int + n % 10) as char]
  }

  /** Every number is the value of its decimal spelling, which is a digit string. */
  lemma {:induction false} DecimalRoundTrip(n: nat)
    ensures IsDigitString(DecimalString(n)) && DecimalValue(DecimalString(n)) == n
    decreases n
  {
    var s := DecimalString(n);
    if n >= 10 {
      DecimalRoundTrip(n / 10);
    }
    assert s[..|s| - 1] == if n < 10 then "" else DecimalString(n / 10);
  }

  // ---------------------------------------------------------------------------
  // Field lines

  /** A field line, split into its name and its value. */
  datatype Field = Field(name: string, value: string)

  /** The index of the first colon of `line`, or `|line|` when there is none. */
  function FirstColon(line: string): (i: nat)
    ensures i <= |line| && ':' !in line[..i]
    ensures i < |line| ==> line[i] == ':'
  {
    if line == [] then 0
    else if line[0] == ':' then 0
    else
      var i := 1 + FirstColon(line[1..]);
      assert line[..i] == [line[0]] + line[1..][..i - 1];
      i
  }

  /**
   * The name is the text before the first colon; the value is the text after it with at most
   * one leading space removed; a line with no colon is all name, with an empty value.
   */
  function ParseField(line: string): (f: Field)
    ensures ':' !in f.name
    ensures ':' !in line ==> f == Field(line, "")
    ensures ':' in line ==>
              || (line == f.name + ":" + f.value && (f.value == "" || f.value[0] != ' '))
              || line == f.name + ": " + f.value
  {
    var i := FirstColon(line);
    if i == |line| then
      assert line[..i] == line;
      Field(line, "")
    else
      var raw := line[i + 1..];
      assert line == line[..i] + ":" + raw;
      if raw != "" && raw[0] == ' ' then
        assert raw == " " + raw[1..];
        Field(line[..i], raw[1..])
      else
        Field(line[..i], raw)
  }

  /** A `name: value` line, with the one space after the colon, parses back to exactly `name` and `value`. */
  lemma ParseNamedField(name: string, value: string)
    requires ':' !in name
    ensures ParseField(name + ": " + value) == Field(name, value)
  {
    var line := name + ": " + value;
    var i := FirstColon(line);
    assert line[|name|] == ':';
    assert forall k :: 0 <= k < |name| ==> line[k] == name[k];
    assert forall k :: 0 <= k < i ==> line[..i][k] == line[k];
    assert i == |name|;
    assert line[i + 1..] == " " + value;
  }

  // ---------------------------------------------------------------------------
  // One line, then many

  /** The data of a dispatched event: the buffer without the LF that ended its last `data` field. */
  function WithoutFinalLF(s: string): string {
    if s != "" && s[|s| - 1] == '\n' then s[..|s| - 1] else s
  }

  /** A blank line: dispatch the event in progress if it has data, and start the next one afresh. */
  function Dispatch(b: Buffers): Accumulated {
    if b.state == Normal && b.data != "" then
      Accumulated(Initial, [DidReceiveEvent(Event(b.eventType, WithoutFinalLF(b.data), b.id))])
    else
      Accumulated(Initial, [])
  }

  /** One field, by name; unknown names are ignored. */
  function ApplyField(b: Buffers, f: Field): Accumulated {
    if f.name == "event" then
      Accumulated(b.(eventType := Some(f.value)), [])
    else if f.name == "data" then
      if |b.data| + |f.value| + 1 > MaxDataLength then
        Accumulated(Initial.(state := IgnoringUntilBlankLine), [])
      else
        Accumulated(b.(data := b.data + f.value + "\n"), [])
    else if f.name == "id" then
      if '\0' in f.value then Accumulated(b, []) else Accumulated(b.(id := Some(f.value)), [])
    else if f.name == "retry" then
      if IsDigitString(f.value) then Accumulated(b, [DidReceiveRetryInterval(DecimalValue(f.value))])
      else Accumulated(b, [])
    else
      Accumulated(b, [])
  }

  /**
   * One line. A blank line dispatches; while ignoring, every other line is skipped; a line that
   * is not UTF-8 is dropped; a line starting with a colon is a comment.
   */
  function ProcessLine(b: Buffers, line: bytes): Accumulated {
    if line == [] then Dispatch(b)
    else if b.state == IgnoringUntilBlankLine then Accumulated(b, [])
    else
      match Utf8.Decode(line)
      case None => Accumulated(b, [])
      case Some(text) =>
        if text != "" && text[0] == ':' then Accumulated(b, [])
        else ApplyField(b, ParseField(text))
  }

  /** Feeds `lines` to `step` one at a time, threading the buffers through and concatenating the calls. */
  function Fold(step: (Buffers, bytes) -> Accumulated, b: Buffers, lines: seq<bytes>): Accumulated
    decreases |lines|
  {
    if lines == [] then Accumulated(b, [])
    else
      var first := step(b, lines[0]);
      var rest := Fold(step, first.buffers, lines[1..]);
      Accumulated(rest.buffers, first.calls + rest.calls)
  }

  function ProcessLines(b: Buffers, lines: seq<bytes>): Accumulated {
    Fold(ProcessLine, b, lines)
  }

  // ---------------------------------------------------------------------------
  // Properties

  lemma {:induction false} FoldAppend(step: (Buffers, bytes) -> Accumulated, b: Buffers, l1: seq<bytes>, l2: seq<bytes>)
    ensures var a := Fold(step, b, l1);
            Fold(step, b, l1 + l2)
            == Accumulated(Fold(step, a.buffers, l2).buffers, a.calls + Fold(step, a.buffers, l2).calls)
    decreases |l1|
  {
    if l1 == [] {
      assert l1 + l2 == l2;
    } else {
      assert (l1 + l2)[0] == l1[0] && (l1 + l2)[1..] == l1[1..] + l2;
      FoldAppend(step, step(b, l1[0]).buffers, l1[1..], l2);
      var first := step(b, l1[0]);
      var mid := Fold(step, first.buffers, l1[1..]);
      var last := Fold(step, mid.buffers, l2);
      assert first.calls + (mid.calls + last.calls) == (first.calls + mid.calls) + last.calls;
    }
  }

  lemma ProcessLinesSingle(b: Buffers, line: bytes)
    ensures ProcessLines(b, [line]) == ProcessLine(b, line)
  {
    FoldSingle(ProcessLine, b, line);
  }

  /** Accumulating `l1` then `l2` is accumulating `l1 + l2`: calls come out in line order. */
  lemma ProcessLinesAppend(b: Buffers, l1: seq<bytes>, l2: seq<bytes>)
    ensures var a := ProcessLines(b, l1);
            ProcessLines(b, l1 + l2)
            == Accumulated(ProcessLines(a.buffers, l2).buffers, a.calls + ProcessLines(a.buffers, l2).calls)
  {
    FoldAppend(ProcessLine, b, l1, l2);
  }

  /** The accumulator's invariant: bounded data ending in LF, an id without NUL, empty buffers while ignoring. */
  ghost predicate Wellformed(b: Buffers) {
    && (b.data == "" || b.data[|b.data| - 1] == '\n')
    && |b.data| <= MaxDataLength
    && (b.id.Some? ==> '\0' !in b.id.value)
    && (b.state == IgnoringUntilBlankLine ==> b.eventType == None && b.data == "" && b.id == None)
  }

  /** Every event the accumulator reports has an id without NUL. */
  ghost predicate GoodCalls(calls: seq<DelegateCall>) {
    forall k :: 0 <= k < |calls| && calls[k].DidReceiveEvent? && calls[k].event.id.Some? ==>
      '\0' !in calls[k].event.id.value
  }

  lemma ApplyFieldKeepsWellformed(b: Buffers, f: Field)
    requires Wellformed(b) && b.state == Normal
    ensures Wellformed(ApplyField(b, f).buffers) && GoodCalls(ApplyField(b, f).calls)
  {
    if f.name == "data" && |b.data| + |f.value| + 1 <= MaxDataLength {
      var d := b.data + f.value + "\n";
      assert d[|d| - 1] == '\n';
    }
  }

  lemma ProcessLineKeepsWellformed(b: Buffers, line: bytes)
    requires Wellformed(b)
    ensures Wellformed(ProcessLine(b, line).buffers) && GoodCalls(ProcessLine(b, line).calls)
  {
    if line != [] && b.state == Normal {
      match Utf8.Decode(line)
      case None =>
      case Some(text) =>
        if !(text != "" && text[0] == ':') {
          ApplyFieldKeepsWellformed(b, ParseField(text));
        }
    }
  }

  /** However many lines arrive, the buffers stay within the size limit and every reported id is NUL-free. */
  lemma {:induction false} ProcessLinesKeepsWellformed(b: Buffers, lines: seq<bytes>)
    requires Wellformed(b)
    ensures Wellformed(ProcessLines(b, lines).buffers) && GoodCalls(ProcessLines(b, lines).calls)
    decreases |lines|
  {
    if lines != [] {
      var first := ProcessLine(b, lines[0]);
      ProcessLineKeepsWellformed(b, lines[0]);
      ProcessLinesKeepsWellformed(first.buffers, lines[1..]);
      var rest := ProcessLines(first.buffers, lines[1..]);
      assert forall k :: |first.calls| <= k < |first.calls + rest.calls| ==>
        (first.calls + rest.calls)[k] == rest.calls[k - |first.calls|];
    }
  }

  /** Whether a blank line dispatched or not, the buffers afterwards are empty and the mode is `Normal`. */
  lemma BlankLineResets(b: Buffers)
    ensures ProcessLine(b, []).buffers == Initial
    ensures b.state == Normal && b.data != "" ==>
              ProcessLine(b, []).calls == [DidReceiveEvent(Event(b.eventType, WithoutFinalLF(b.data), b.id))]
    ensures b.state == IgnoringUntilBlankLine || b.data == "" ==> ProcessLine(b, []).calls == []
  {
  }

  /** A comment line produces no call and changes no state. */
  lemma CommentIgnored(b: Buffers, line: bytes)
    requires line != [] && Utf8.Decode(line).Some?
    requires var text := Utf8.Decode(line).value; text != "" && text[0] == ':'
    ensures ProcessLine(b, line) == Accumulated(b, [])
  {
  }

  /** While ignoring, non-blank lines change nothing and produce nothing. */
  lemma {:induction false} IgnoringSkipsLines(b: Buffers, lines: seq<bytes>)
    requires b.state == IgnoringUntilBlankLine
    requires forall k :: 0 <= k < |lines| ==> lines[k] != []
    ensures ProcessLines(b, lines) == Accumulated(b, [])
    decreases |lines|
  {
    if lines != [] {
      IgnoringSkipsLines(b, lines[1..]);
    }
  }

  /** The line `name: value`, as bytes. */
  function FieldLine(name: string, value: string): bytes {
    Utf8.Encode(name + ": " + value)
  }

  /** A field line reaches `ApplyField` with exactly its name and value. */
  lemma FieldLineApplies(b: Buffers, name: string, value: string)
    requires b.state == Normal && name != "" && ':' !in name
    ensures ProcessLine(b, FieldLine(name, value)) == ApplyField(b, Field(name, value))
  {
    var text := name + ": " + value;
    Utf8.DecodeEncode(text);
    ParseNamedField(name, value);
    assert text[0] == name[0];
    assert |Utf8.Encode(text)| >= |Utf8.EncodeScalar(text[0] as int)| >= 1;
  }

  /**
   * A `data` field that would take the buffer past the limit drops the whole event: the lines
   * after it up to the blank line produce nothing, and the blank line dispatches nothing.
   */
  lemma OversizedEventDropped(b: Buffers, value: string, more: seq<bytes>)
    requires b.state == Normal && |b.data| + |value| + 1 > MaxDataLength
    requires forall k :: 0 <= k < |more| ==> more[k] != []
    ensures ProcessLine(b, FieldLine("data", value)).buffers.state == IgnoringUntilBlankLine
    ensures ProcessLines(b, [FieldLine("data", value)] + more + [[]]) == Accumulated(Initial, [])
  {
    FieldLineApplies(b, "data", value);
    var ignoring := Initial.(state := IgnoringUntilBlankLine);
    IgnoringSkipsLines(ignoring, more);
    ProcessLinesAppend(b, [FieldLine("data", value)], more + [[]]);
    ProcessLinesAppend(ignoring, more, [[]]);
    assert [FieldLine("data", value)] + more + [[]] == [FieldLine("data", value)] + (more + [[]]);
  }

  /** `data` appends its value and an LF while the limit allows, and otherwise drops the event in progress. */
  lemma DataField(b: Buffers, value: string)
    requires b.state == Normal
    ensures |b.data| + |value| + 1 <= MaxDataLength ==>
              ProcessLine(b, FieldLine("data", value)) == Accumulated(b.(data := b.data + value + "\n"), [])
    ensures |b.data| + |value| + 1 > MaxDataLength ==>
              ProcessLine(b, FieldLine("data", value)) == Accumulated(Initial.(state := IgnoringUntilBlankLine), [])
  {
    FieldLineApplies(b, "data", value);
  }

  /** `retry` made only of ASCII digits reports that many milliseconds; any other value reports nothing. State is untouched. */
  lemma RetryField(b: Buffers, value: string)
    requires b.state == Normal
    ensures IsDigitString(value) ==>
              ProcessLine(b, FieldLine("retry", value)) == Accumulated(b, [DidReceiveRetryInterval(DecimalValue(value))])
    ensures !IsDigitString(value) ==> ProcessLine(b, FieldLine("retry", value)) == Accumulated(b, [])
  {
    FieldLineApplies(b, "retry", value);
  }

  /** `id` without NUL replaces the id buffer (the empty id included); with NUL it changes nothing, and never reports anything. */
  lemma IdField(b: Buffers, value: string)
    requires b.state == Normal
    ensures '\0' !in value ==> ProcessLine(b, FieldLine("id", value)) == Accumulated(b.(id := Some(value)), [])
    ensures '\0' in value ==> ProcessLine(b, FieldLine("id", value)) == Accumulated(b, [])
  {
    FieldLineApplies(b, "id", value);
  }

  /** `event` replaces the type buffer; a name the grammar does not know changes nothing. */
  lemma EventAndUnknownFields(b: Buffers, name: string, value: string)
    requires b.state == Normal && name != "" && ':' !in name
    ensures name == "event" ==> ProcessLine(b, FieldLine(name, value)) == Accumulated(b.(eventType := Some(value)), [])
    ensures name !in {"event", "data", "id", "retry"} ==> ProcessLine(b, FieldLine(name, value)) == Accumulated(b, [])
  {
    FieldLineApplies(b, name, value);
  }

  /** The values joined by LF, as a dispatched event's data presents them. */
  function JoinLF(vs: seq<string>): string
    requires vs != []
  {
    if |vs| == 1 then vs[0] else JoinLF(vs[..|vs| - 1]) + "\n" + vs[|vs| - 1]
  }

  /** The data buffer after `data` fields with values `vs`: each value followed by LF. */
  function DataBuffer(vs: seq<string>): string {
    if vs == [] then "" else DataBuffer(vs[..|vs| - 1]) + vs[|vs| - 1] + "\n"
  }

  /** The `data` field lines carrying the values `vs`, in order. */
  function DataLines(vs: seq<string>): (r: seq<bytes>)
    ensures |r| == |vs|
  {
    seq(|vs|, k requires 0 <= k < |vs| => FieldLine("data", vs[k]))
  }

  lemma {:induction false} DataBufferJoins(vs: seq<string>)
    requires vs != []
    ensures DataBuffer(vs) == JoinLF(vs) + "\n"
    decreases |vs|
  {
    if |vs| > 1 {
      DataBufferJoins(vs[..|vs| - 1]);
    }
  }

  /** `line` acts on `step` as a `data` field with value `v`: from any `Normal` state with room, it appends `v` and an LF. */
  ghost predicate AppendsData(step: (Buffers, bytes) -> Accumulated, line: bytes, v: string) {
    forall c: Buffers {:trigger step(c, line)} :: c.state == Normal && |c.data| + |v| + 1 <= MaxDataLength ==>
      step(c, line) == Accumulated(c.(data := c.data + v + "\n"), [])
  }

  lemma {:induction false} FoldSingle(step: (Buffers, bytes) -> Accumulated, b: Buffers, line: bytes)
    ensures Fold(step, b, [line]) == step(b, line)
  {
    var first := step(b, line);
    assert [line][1..] == [];
    assert Fold(step, first.buffers, []) == Accumulated(first.buffers, []);
    assert first.calls + [] == first.calls;
  }

  /** Three lines in a row, each taken by `step` from one state to the next. */
  lemma FoldThree(step: (Buffers, bytes) -> Accumulated, b0: Buffers, l0: bytes, l1: bytes, l2: bytes, r0: Accumulated, r1: Accumulated, r2: Accumulated)
    requires step(b0, l0) == r0 && step(r0.buffers, l1) == r1 && step(r1.buffers, l2) == r2
    ensures Fold(step, b0, [l0, l1, l2]) == Accumulated(r2.buffers, r0.calls + r1.calls + r2.calls)
  {
    FoldSingle(step, b0, l0);
    FoldSingle(step, r0.buffers, l1);
    FoldSingle(step, r1.buffers, l2);
    FoldAppend(step, r0.buffers, [l1], [l2]);
    FoldAppend(step, b0, [l0], [l1, l2]);
    assert [l1] + [l2] == [l1, l2] && [l0] + [l1, l2] == [l0, l1, l2];
  }

  /** Lines that each act as a `data` field append their values, each followed by LF, as long as the limit is not passed. */
  lemma {:induction false} DataFieldsAppend(step: (Buffers, bytes) -> Accumulated, b: Buffers, lines: seq<bytes>, vs: seq<string>)
    requires |lines| == |vs| && forall k :: 0 <= k < |lines| ==> AppendsData(step, lines[k], vs[k])
    requires b.state == Normal && |b.data| + |DataBuffer(vs)| <= MaxDataLength
    ensures Fold(step, b, lines) == Accumulated(b.(data := b.data + DataBuffer(vs)), [])
    decreases |vs|
  {
    if vs != [] {
      var n := |vs|;
      var init := vs[..n - 1];
      var v := vs[n - 1];
      var mid := b.(data := b.data + DataBuffer(init));
      var last := mid.(data := mid.data + v + "\n");
      var prefix := lines[..n - 1];
      var line := lines[n - 1];
      assert |DataBuffer(vs)| == |DataBuffer(init)| + |v| + 1;
      assert Fold(step, b, prefix) == Accumulated(mid, []) by {
        DataFieldsAppend(step, b, prefix, init);
      }
      assert Fold(step, mid, [line]) == Accumulated(last, []) by {
        FoldSingle(step, mid, line);
        assert AppendsData(step, line, v);
      }
      assert Fold(step, b, prefix + [line]) == Accumulated(last, []) by {
        FoldAppend(step, b, prefix, [line]);
      }
      assert last.data == b.data + DataBuffer(vs);
      assert prefix + [line] == lines;
    } else {
      assert b.data + "" == b.data;
    }
  }

  lemma DataLinesAppend(vs: seq<string>)
    ensures forall k :: 0 <= k < |vs| ==> AppendsData(ProcessLine, DataLines(vs)[k], vs[k])
  {
    forall k, c: Buffers | 0 <= k < |vs| && c.state == Normal && |c.data| + |vs[k]| + 1 <= MaxDataLength
      ensures ProcessLine(c, DataLines(vs)[k]) == Accumulated(c.(data := c.data + vs[k] + "\n"), [])
    {
      DataField(c, vs[k]);
    }
  }

  /** `data: a`, `data: b`, blank line: one event whose data is `a`, LF, `b`, and so on for any number of values. */
  lemma DataEvent(vs: seq<string>)
    requires vs != [] && |DataBuffer(vs)| <= MaxDataLength
    ensures ProcessLines(Initial, DataLines(vs) + [[]]) == Accumulated(Initial, [DidReceiveEvent(Event(None, JoinLF(vs), None))])
  {
    var full := Initial.(data := DataBuffer(vs));
    var event := Event(None, JoinLF(vs), None);
    assert ProcessLines(Initial, DataLines(vs)) == Accumulated(full, []) by {
      DataLinesAppend(vs);
      DataFieldsAppend(ProcessLine, Initial, DataLines(vs), vs);
      assert "" + DataBuffer(vs) == DataBuffer(vs);
    }
    assert ProcessLines(full, [[]]) == Accumulated(Initial, [DidReceiveEvent(event)]) by {
      ProcessLinesSingle(full, []);
      DataBufferJoins(vs);
      var d := JoinLF(vs) + "\n";
      assert d[..|d| - 1] == JoinLF(vs);
    }
    ProcessLinesAppend(Initial, DataLines(vs), [[]]);
  }

  lemma TwoDataLines()
    ensures ProcessLines(Initial, DataLines(["a", "b"]) + [[]])
         == Accumulated(Initial, [DidReceiveEvent(Event(None, "a\nb", None))])
  {
    var vs := ["a", "b"];
    assert vs[..1] == ["a"] && ["a"][..0] == [];
    assert DataBuffer(vs) == "a\nb\n";
    assert JoinLF(vs) == "a\nb";
    DataEvent(vs);
  }

  // ---------------------------------------------------------------------------
  // The accumulator object

  class EventAccumulator {
    /** Whether a delegate was given to `initWithDelegate:`; with none, no call is made. */
    const hasDelegate: bool
    var state: AccumulatorState
    var eventType: Option<string>
    var data: string
    var id: Option<string>

    function Snapshot(): Buffers
      reads this
    {
      Buffers(state, eventType, data, id)
    }

    constructor (hasDelegate: bool)
      ensures this.hasDelegate == hasDelegate && Snapshot() == Initial
    {
      this.hasDelegate := hasDelegate;
      state := Normal;
      eventType := None;
      data := "";
      id := None;
    }

    /** accumulateLines: the state evolves the same with or without a delegate; the calls are made only to a delegate. */
    method AccumulateLines(lines: seq<bytes>) returns (calls: seq<DelegateCall>)
      modifies this
      ensures Snapshot() == ProcessLines(old(Snapshot()), lines).buffers
      ensures calls == if hasDelegate then ProcessLines(old(Snapshot()), lines).calls else []
    {
      ghost var start := Snapshot();
      calls := [];
      var i := 0;
      while i < |lines|
        invariant 0 <= i <= |lines|
        invariant Snapshot() == ProcessLines(start, lines[..i]).buffers
        invariant calls == if hasDelegate then ProcessLines(start, lines[..i]).calls else []
      {
        ghost var before := Snapshot();
        var made := AccumulateLine(lines[i]);
        calls := calls + made;
        ProcessLinesAppend(start, lines[..i], [lines[i]]);
        ProcessLinesSingle(before, lines[i]);
        assert lines[..i + 1] == lines[..i] + [lines[i]];
        i := i + 1;
      }
      assert lines[..i] == lines;
    }

    method AccumulateLine(line: bytes) returns (calls: seq<DelegateCall>)
      modifies this
      ensures Snapshot() == ProcessLine(old(Snapshot()), line).buffers
      ensures calls == if hasDelegate then ProcessLine(old(Snapshot()), line).calls else []
    {
      calls := [];
      if |line| == 0 {
        if state == Normal && |data| > 0 && hasDelegate {
          calls := [DidReceiveEvent(Event(eventType, WithoutFinalLF(data), id))];
        }
        state, eventType, data, id := Normal, None, "", None;
        return;
      }
      if state == IgnoringUntilBlankLine {
        return;
      }
      var decoded := Utf8.Decode(line);
      if decoded.None? {
        return;
      }
      var text := decoded.value;
      if |text| > 0 && text[0] == ':' {
        return;
      }
      var field := ParseField(text);
      var value := field.value;
      if field.name == "event" {
        eventType := Some(value);
      } else if field.name == "data" {
        if |data| + |value| + 1 > MaxDataLength {
          state, eventType, data, id := IgnoringUntilBlankLine, None, "", None;
        } else {
          data := data + value + "\n";
        }
      } else if field.name == "id" {
        if '\0' !in value {
          id := Some(value);
        }
      } else if field.name == "retry" {
        var digits := StringConsistsSolelyOfAsciiDigits(value);
        if digits && hasDelegate {
          calls := [DidReceiveRetryInterval(DecimalValue(value))];
        }
      }
    }
  }
}
