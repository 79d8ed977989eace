/** Token usage read off a streamed response, byte by byte, and off the whole stream at once
    (src/proxy.rs: SseUsageTracker; src/request.rs: response_usage; section 9.2.6 of the WHATWG HTML Standard). */
module SseUsage {
  import opened Basics
  import opened Json

  const LF: Byte := 10
  const CR: Byte := 13
  const SPACE: Byte := 32
  const DATA: Bytes := [100, 97, 116, 97, 58]   // "data:"
  const MAX_EVENT_BYTES: nat := 2_097_152

  datatype Usage = Usage(input: Option<nat>, output: Option<nat>, cacheHit: Option<bool>) {
    predicate Reported() {
      input.Some? || output.Some? || cacheHit.Some?
    }
  }

  type Parser = Bytes -> Option<Value>

  function NumberAt(value: Value, key: string): Option<nat> {
    var member := value.Get(key);
    if member.Some? then member.value.AsU64() else None
  }

  // The usage in a response event, or in a bare response.
  function ResponseUsage(value: Value): Usage {
    var response := value.Get("response");
    var inner := if response.Some? then response.value.Get("usage") else None;
    var usage := if inner.Some? then inner else value.Get("usage");
    if usage.None? then Usage(None, None, None)
    else
      var details := usage.value.Get("input_tokens_details");
      var cached := if details.Some? then NumberAt(details.value, "cached_tokens") else None;
      Usage(NumberAt(usage.value, "input_tokens"), NumberAt(usage.value, "output_tokens"),
            if cached.Some? then Some(cached.value > 0) else None)
  }

  // ---- The tracker's states ----

  datatype Tracker = Tracker(line: Bytes, data: Bytes, usage: Option<Usage>, oversized: bool)

  const FRESH := Tracker([], [], None, false)

  // A line without the carriage return of its terminator.
  function StripCR(line: Bytes): Bytes {
    if line != [] && line[|line| - 1] == CR then line[..|line| - 1] else line
  }

  // The value of a data line, without the space after its colon.
  function DataValue(line: Bytes): Option<Bytes> {
    if |line| < |DATA| || line[..|DATA|] != DATA then None
    else
      var value := line[|DATA|..];
      Some(if value != [] && value[0] == SPACE then value[1..] else value)
  }

  function UsageIn(parse: Parser, data: Bytes): Option<Usage> {
    if data == [] then None
    else
      var value := parse(data);
      if value.Some? && ResponseUsage(value.value).Reported() then Some(ResponseUsage(value.value)) else None
  }

  function AfterEvent(parse: Parser, t: Tracker): Tracker {
    var usage := if t.oversized then None else UsageIn(parse, t.data);
    Tracker(t.line, [], if usage.Some? then usage else t.usage, false)
  }

  function AfterLine(parse: Parser, t: Tracker): Tracker {
    var line := StripCR(t.line);
    if line == [] then AfterEvent(parse, t.(line := line))
    else
      var value := DataValue(line);
      if value.None? || t.oversized then t.(line := line)
      else if |t.data| + |value.value| > MAX_EVENT_BYTES then Tracker(line, [], t.usage, true)
      else t.(line := line, data := if t.data == [] then value.value else t.data + [LF] + value.value)
  }

  function AfterByte(parse: Parser, t: Tracker, byte: Byte): Tracker {
    if byte == LF then AfterLine(parse, t).(line := [])
    else if |t.line| < MAX_EVENT_BYTES then t.(line := t.line + [byte])
    else t
  }

  function AfterBytes(parse: Parser, t: Tracker, bytes: Bytes): Tracker {
    if bytes == [] then t
    else AfterByte(parse, AfterBytes(parse, t, bytes[..|bytes| - 1]), bytes[|bytes| - 1])
  }

  function AfterEnd(parse: Parser, t: Tracker): Tracker {
    AfterEvent(parse, if t.line != [] then AfterLine(parse, t).(line := []) else t)
  }

  // ---- The tracker ----

  class SseUsageTracker {
    const parse: Parser
    var line: Bytes
    var data: Bytes
    var usage: Option<Usage>
    var oversized: bool

    function State(): Tracker
      reads this
    {
      Tracker(line, data, usage, oversized)
    }

    predicate Bounded()
      reads this
    {
      |line| <= MAX_EVENT_BYTES && |data| <= MAX_EVENT_BYTES + 1
    }

    constructor (parse: Parser)
      ensures State() == FRESH && Bounded() && this.parse == parse
    {
      this.parse, line, data, usage, oversized := parse, [], [], None, false;
    }

    method Push(bytes: Bytes)
      requires Bounded()
      modifies this
      ensures Bounded() && State() == AfterBytes(parse, old(State()), bytes)
    {
      for i := 0 to |bytes|
        invariant Bounded() && State() == AfterBytes(parse, old(State()), bytes[..i])
      {
        var byte := bytes[i];
        assert bytes[..i + 1][..i] == bytes[..i];
        if byte == LF {
          ProcessLine();
          line := [];
        } else if |line| < MAX_EVENT_BYTES {
          line := line + [byte];
        }
      }
      assert bytes[..|bytes|] == bytes;
    }

    method Finish()
      requires Bounded()
      modifies this
      ensures Bounded() && State() == AfterEnd(parse, old(State()))
    {
      if line != [] {
        ProcessLine();
        line := [];
      }
      ProcessEvent();
    }

    method ProcessLine()
      requires Bounded()
      modifies this
      ensures Bounded() && State() == AfterLine(parse, old(State()))
    {
      if line != [] && line[|line| - 1] == CR {
        line := line[..|line| - 1];
      }
      if line == [] {
        ProcessEvent();
      } else if DataValue(line).Some? && !oversized {
        var value := DataValue(line).value;
        if |data| + |value| > MAX_EVENT_BYTES {
          data, oversized := [], true;
        } else {
          if data != [] {
            data := data + [LF];
          }
          data := data + value;
        }
      }
    }

    method ProcessEvent()
      requires Bounded()
      modifies this
      ensures Bounded() && State() == AfterEvent(parse, old(State()))
    {
      if !oversized && data != [] {
        var value := parse(data);
        if value.Some? {
          var found := ResponseUsage(value.value);
          if found.Reported() {
            usage := Some(found);
          }
        }
      }
      data, oversized := [], false;
    }
  }

  /** How a stream is cut into chunks makes no difference. */
  lemma {:induction false} ChunksDoNotMatter(parse: Parser, t: Tracker, a: Bytes, b: Bytes)
    ensures AfterBytes(parse, AfterBytes(parse, t, a), b) == AfterBytes(parse, t, a + b)
  {
    if b == [] {
      assert a + b == a;
    } else {
      ChunksDoNotMatter(parse, t, a, b[..|b| - 1]);
      assert (a + b)[..|a + b| - 1] == a + b[..|b| - 1];
    }
  }

  // ---- The whole stream ----

  // The lines of a stream and what follows its last line feed.
  function Split(stream: Bytes): (seq<Bytes>, Bytes) {
    if stream == [] then ([], [])
    else
      var (lines, rest) := Split(stream[..|stream| - 1]);
      var byte := stream[|stream| - 1];
      if byte == LF then (lines + [rest], []) else (lines, rest + [byte])
  }

  function Lines(stream: Bytes): seq<Bytes> {
    var (lines, rest) := Split(stream);
    if rest == [] then lines else lines + [rest]
  }

  // A line is read up to the limit.
  function Cut(line: Bytes): Bytes {
    if |line| <= MAX_EVENT_BYTES then line else line[..MAX_EVENT_BYTES]
  }

  function CutAll(lines: seq<Bytes>): seq<Bytes> {
    seq(|lines|, i requires 0 <= i < |lines| => Cut(lines[i]))
  }

  // The data values of each event; a blank line ends an event, and the last one may be unfinished.
  function Events(lines: seq<Bytes>): (r: seq<seq<Bytes>>)
    ensures r != []
  {
    if lines == [] then [[]]
    else
      var earlier, line := Events(lines[..|lines| - 1]), StripCR(lines[|lines| - 1]);
      if line == [] then earlier + [[]]
      else if DataValue(line).Some? then
        earlier[..|earlier| - 1] + [earlier[|earlier| - 1] + [DataValue(line).value]]
      else earlier
  }

  // The values with a line feed between each two.
  function Join(values: seq<Bytes>): Bytes {
    if values == [] then []
    else if |values| == 1 then values[0]
    else Join(values[..|values| - 1]) + [LF] + values[|values| - 1]
  }

  function DropLeadingLF(bytes: Bytes): Bytes {
    if bytes != [] && bytes[0] == LF then DropLeadingLF(bytes[1..]) else bytes
  }

  // An event's data; it is lost when a value does not fit beside those before it.
  ghost predicate Overflows(values: seq<Bytes>) {
    exists k | 0 <= k < |values| :: |DropLeadingLF(Join(values[..k]))| + |values[k]| > MAX_EVENT_BYTES
  }

  ghost function EventData(values: seq<Bytes>): Bytes {
    if Overflows(values) then [] else DropLeadingLF(Join(values))
  }

  // The usage of the last event that reports one.
  ghost function LastUsage(parse: Parser, events: seq<seq<Bytes>>): Option<Usage> {
    if events == [] then None
    else
      var last := UsageIn(parse, EventData(events[|events| - 1]));
      if last.Some? then last else LastUsage(parse, events[..|events| - 1])
  }

  predicate NoLF(bytes: Bytes) {
    forall i | 0 <= i < |bytes| :: bytes[i] != LF
  }

  lemma {:induction false} SplitHasNoLF(stream: Bytes)
    ensures NoLF(Split(stream).1) && forall line | line in Split(stream).0 :: NoLF(line)
  {
    if stream != [] {
      SplitHasNoLF(stream[..|stream| - 1]);
    }
  }

  lemma {:induction false} DropConcat(a: Bytes, b: Bytes)
    ensures DropLeadingLF(a + b) == if DropLeadingLF(a) == [] then DropLeadingLF(b) else DropLeadingLF(a) + b
  {
    if a == [] {
      assert a + b == b;
    } else if a[0] == LF {
      DropConcat(a[1..], b);
      assert (a + b)[1..] == a[1..] + b;
    }
  }

  // One more value: what the tracker appends.
  lemma {:induction false} JoinOneMore(values: seq<Bytes>, value: Bytes)
    requires NoLF(value)
    ensures var before := DropLeadingLF(Join(values));
            DropLeadingLF(Join(values + [value])) == if before == [] then value else before + [LF] + value
  {
    var all := values + [value];
    assert all[..|all| - 1] == values;
    if values != [] {
      DropConcat(Join(values), [LF] + value);
      assert Join(values) + ([LF] + value) == Join(all);
      assert ([LF] + value)[1..] == value;
      assert DropLeadingLF(Join(values)) + ([LF] + value) == DropLeadingLF(Join(values)) + [LF] + value;
    }
  }

  lemma {:induction false} OverflowsOneMore(values: seq<Bytes>, value: Bytes)
    ensures Overflows(values + [value]) <==>
            Overflows(values) || |DropLeadingLF(Join(values))| + |value| > MAX_EVENT_BYTES
  {
    var all, n := values + [value], |values|;
    assert forall k | 0 <= k <= n :: all[..k] == values[..k];
    assert values[..n] == values;
    if Overflows(values) {
      var k :| 0 <= k < n && |DropLeadingLF(Join(values[..k]))| + |values[k]| > MAX_EVENT_BYTES;
      assert |DropLeadingLF(Join(all[..k]))| + |all[k]| > MAX_EVENT_BYTES;
    }
    if |DropLeadingLF(Join(values))| + |value| > MAX_EVENT_BYTES {
      assert |DropLeadingLF(Join(all[..n]))| + |all[n]| > MAX_EVENT_BYTES;
    }
    if Overflows(all) {
      var k :| 0 <= k <= n && |DropLeadingLF(Join(all[..k]))| + |all[k]| > MAX_EVENT_BYTES;
      assert k < n ==> |DropLeadingLF(Join(values[..k]))| + |values[k]| > MAX_EVENT_BYTES;
    }
  }

  // The tracker has read these whole lines.
  ghost predicate HasRead(parse: Parser, t: Tracker, lines: seq<Bytes>) {
    var events := Events(lines);
    && t.oversized == Overflows(events[|events| - 1])
    && t.data == EventData(events[|events| - 1])
    && t.usage == LastUsage(parse, events[..|events| - 1])
  }

  lemma {:induction false} NoValues(parse: Parser)
    ensures !Overflows([]) && EventData([]) == [] && UsageIn(parse, []) == None
  {
  }

  lemma {:induction false} LastUsageOneMore(parse: Parser, events: seq<seq<Bytes>>)
    requires events != []
    ensures LastUsage(parse, events) ==
            var last := UsageIn(parse, EventData(events[|events| - 1]));
            if last.Some? then last else LastUsage(parse, events[..|events| - 1])
  {
  }

  lemma {:induction false} ValueHasNoLF(line: Bytes)
    requires NoLF(line) && DataValue(line).Some?
    ensures NoLF(DataValue(line).value)
  {
  }

  lemma {:induction false} ReadOneMore(parse: Parser, t: Tracker, lines: seq<Bytes>)
    requires HasRead(parse, t, lines) && NoLF(t.line)
    ensures HasRead(parse, AfterLine(parse, t), lines + [t.line])
  {
    hide Join, DropLeadingLF, Overflows, LastUsage, DataValue, UsageIn;
    NoValues(parse);
    var all := lines + [t.line];
    assert all[..|all| - 1] == lines;
    var events, line := Events(lines), StripCR(t.line);
    var earlier, last := events[..|events| - 1], events[|events| - 1];
    if line == [] {
      assert Events(all)[..|events|] == events;
      LastUsageOneMore(parse, events);
    } else if DataValue(line).Some? {
      var value := DataValue(line).value;
      ValueHasNoLF(line);
      assert Events(all)[..|events| - 1] == earlier && Events(all)[|events| - 1] == last + [value];
      JoinOneMore(last, value);
      OverflowsOneMore(last, value);
    }
  }

  lemma {:induction false} ReadIgnoresLine(parse: Parser, t: Tracker, lines: seq<Bytes>, line: Bytes)
    requires HasRead(parse, t, lines)
    ensures HasRead(parse, t.(line := line), lines)
  {
  }

  lemma {:induction false} NothingRead(parse: Parser)
    ensures HasRead(parse, FRESH, [])
  {
    NoValues(parse);
  }

  lemma {:induction false} HasReadPrefix(parse: Parser, stream: Bytes)
    ensures var t := AfterBytes(parse, FRESH, stream);
            t.line == Cut(Split(stream).1) && HasRead(parse, t, CutAll(Split(stream).0))
  {
    hide HasRead, AfterLine;
    if stream == [] {
      NothingRead(parse);
      assert CutAll([]) == [];
    } else {
      var earlier, byte := stream[..|stream| - 1], stream[|stream| - 1];
      HasReadPrefix(parse, earlier);
      SplitHasNoLF(earlier);
      var t := AfterBytes(parse, FRESH, earlier);
      if byte == LF {
        ReadOneMore(parse, t, CutAll(Split(earlier).0));
        ReadIgnoresLine(parse, AfterLine(parse, t), CutAll(Split(earlier).0) + [t.line], []);
        assert CutAll(Split(stream).0) == CutAll(Split(earlier).0) + [t.line];
      } else {
        ReadIgnoresLine(parse, t, CutAll(Split(earlier).0), t.line + [byte]);
      }
    }
  }

  // Ending the open event leaves the usage of the last event that reports one.
  lemma {:induction false} EndOfRead(parse: Parser, t: Tracker, lines: seq<Bytes>)
    requires HasRead(parse, t, lines)
    ensures AfterEvent(parse, t).usage == LastUsage(parse, Events(lines))
  {
    hide Events, LastUsage, UsageIn, Overflows;
    NoValues(parse);
    LastUsageOneMore(parse, Events(lines));
  }

  /** However a stream is cut into chunks, the usage found at its end is that of the last event reporting one, where an
      event's data are the values of its data lines joined by line feeds without leading ones, lines count up to the
      limit, an event that outgrows the limit counts for nothing, and the unterminated last event counts. */
  lemma {:induction false} UsageIsOfLastEvent(parse: Parser, stream: Bytes)
    ensures AfterEnd(parse, AfterBytes(parse, FRESH, stream)).usage == LastUsage(parse, Events(CutAll(Lines(stream))))
  {
    hide HasRead, AfterLine, AfterEvent, AfterBytes, Split, Events, LastUsage;
    HasReadPrefix(parse, stream);
    SplitHasNoLF(stream);
    var t := AfterBytes(parse, FRESH, stream);
    var (lines, rest) := Split(stream);
    if rest != [] {
      ReadOneMore(parse, t, CutAll(lines));
      ReadIgnoresLine(parse, AfterLine(parse, t), CutAll(lines) + [t.line], []);
      EndOfRead(parse, AfterLine(parse, t).(line := []), CutAll(lines) + [t.line]);
      assert CutAll(lines + [rest]) == CutAll(lines) + [t.line];
    } else {
      EndOfRead(parse, t, CutAll(lines));
    }
  }

  /** Within the limit nothing is cut or lost. */
  lemma {:induction false} WithinLimit(lines: seq<Bytes>, values: seq<Bytes>)
    requires forall line | line in lines :: |line| <= MAX_EVENT_BYTES
    requires |Join(values)| <= MAX_EVENT_BYTES
    ensures CutAll(lines) == lines
    ensures EventData(values) == DropLeadingLF(Join(values))
  {
    forall k | 0 <= k < |values| ensures |DropLeadingLF(Join(values[..k]))| + |values[k]| <= |Join(values)| {
      JoinGrows(values, k);
      DropShortens(Join(values[..k]));
    }
  }

  lemma {:induction false} DropShortens(bytes: Bytes)
    ensures |DropLeadingLF(bytes)| <= |bytes|
  {
    if bytes != [] {
      DropShortens(bytes[1..]);
    }
  }

  lemma {:induction false} JoinGrows(values: seq<Bytes>, k: nat)
    requires k < |values|
    ensures |Join(values[..k])| + |values[k]| <= |Join(values)|
  {
    var n := |values| - 1;
    if k < n {
      assert values[..n][..k] == values[..k];
      JoinGrows(values[..n], k);
    } else if k > 0 {
      assert values[..n] == values[..k];
    }
  }

  // ---- Line ends ----

  // The stream without carriage returns.
  function WithoutCR(stream: Bytes): Bytes {
    if stream == [] then []
    else WithoutCR(stream[..|stream| - 1]) + (if stream[|stream| - 1] == 13 then [] else [stream[|stream| - 1]])
  }

  // Carriage returns only come before line feeds; the last byte may still wait for its own.
  predicate OnlyCRLF(stream: Bytes) {
    forall i | 0 <= i < |stream| - 1 && stream[i] == 13 :: stream[i + 1] == 10
  }

  predicate NoCR(bytes: Bytes) {
    forall i | 0 <= i < |bytes| :: bytes[i] != 13
  }

  // The same line, with a carriage return or without.
  predicate SameLine(line: Bytes, bare: Bytes) {
    NoCR(bare) && (line == bare || line == bare + [13])
  }

  predicate SameLines(lines: seq<Bytes>, bare: seq<Bytes>) {
    |lines| == |bare| && forall i | 0 <= i < |lines| :: SameLine(lines[i], bare[i])
  }

  lemma {:induction false} SplitOneMore(stream: Bytes, byte: Byte)
    ensures var (lines, rest) := Split(stream);
            Split(stream + [byte]) == if byte == 10 then (lines + [rest], []) else (lines, rest + [byte])
  {
    assert (stream + [byte])[..|stream|] == stream;
  }

  lemma {:induction false} SplitBare(stream: Bytes)
    requires OnlyCRLF(stream)
    ensures SameLines(Split(stream).0, Split(WithoutCR(stream)).0)
    ensures SameLine(Split(stream).1, Split(WithoutCR(stream)).1)
    ensures stream != [] && stream[|stream| - 1] != 13 ==> Split(stream).1 == Split(WithoutCR(stream)).1
  {
    if stream != [] {
      var earlier, byte := stream[..|stream| - 1], stream[|stream| - 1];
      SplitBare(earlier);
      var bare := WithoutCR(earlier);
      assert stream == earlier + [byte];
      assert earlier != [] ==> stream[|stream| - 2] == earlier[|earlier| - 1];
      SplitOneMore(earlier, byte);
      SplitOneMore(bare, byte);
      assert WithoutCR(stream) == if byte == 13 then bare else bare + [byte];
      if earlier == [] {
        assert Split(earlier).1 == Split(bare).1;
      }
      hide Split, WithoutCR;
    }
  }

  lemma {:induction false} SameStripped(line: Bytes, bare: Bytes)
    requires SameLine(line, bare)
    ensures StripCR(Cut(line)) == StripCR(Cut(bare))
  {
    if line != bare && |bare| >= MAX_EVENT_BYTES {
      assert Cut(line) == Cut(bare);
    }
  }

  lemma {:induction false} SameEvents(lines: seq<Bytes>, others: seq<Bytes>)
    requires |lines| == |others| && forall i | 0 <= i < |lines| :: StripCR(lines[i]) == StripCR(others[i])
    ensures Events(lines) == Events(others)
  {
    if lines != [] {
      SameEvents(lines[..|lines| - 1], others[..|others| - 1]);
    }
  }

  /** A stream whose lines end in carriage return and line feed, all or some of them, has the same usage as the one with
      line feeds only, whatever the length of its lines. */
  lemma {:induction false} LineEndsDoNotMatter(parse: Parser, stream: Bytes)
    requires forall i | 0 <= i < |stream| && stream[i] == 13 :: i + 1 < |stream| && stream[i + 1] == 10
    ensures AfterEnd(parse, AfterBytes(parse, FRESH, stream)).usage ==
            AfterEnd(parse, AfterBytes(parse, FRESH, WithoutCR(stream))).usage
  {
    hide AfterEnd, AfterBytes, LastUsage, Events, StripCR, Cut;
    var bare := WithoutCR(stream);
    UsageIsOfLastEvent(parse, stream);
    UsageIsOfLastEvent(parse, bare);
    SplitBare(stream);
    assert Split(stream).1 == Split(bare).1;
    var lines, others := Lines(stream), Lines(bare);
    assert SameLines(lines, others);
    forall i | 0 <= i < |lines| ensures StripCR(CutAll(lines)[i]) == StripCR(CutAll(others)[i]) {
      SameStripped(lines[i], others[i]);
    }
    SameEvents(CutAll(lines), CutAll(others));
  }

  // ---- What the proxy writes, read back ----

  // The usage member of a response.
  function UsageValue(input: nat, output: nat, cached: nat): Value {
    Object(map["input_tokens" := Integer(input), "output_tokens" := Integer(output),
               "input_tokens_details" := Object(map["cached_tokens" := Integer(cached)])])
  }

  /** Usage is read back as it was written, from a response event as from a bare response, and from the event's response
      if both have some. Any one number of it is enough to count as reported. */
  lemma {:induction false} UsageReadsBack(input: nat, output: nat, cached: nat, other: Value)
    requires input <= U64_MAX && output <= U64_MAX && cached <= U64_MAX
    ensures var bare := Object(map["usage" := UsageValue(input, output, cached)]);
            var usage := Usage(Some(input), Some(output), Some(cached > 0));
            && ResponseUsage(bare) == usage && ResponseUsage(Object(map["response" := bare])) == usage
            && ResponseUsage(Object(map["response" := bare, "usage" := other])) == usage
    ensures var only := Object(map["usage" := Object(map["input_tokens" := Integer(input)])]);
            ResponseUsage(only) == Usage(Some(input), None, None) && ResponseUsage(only).Reported()
    ensures var only := Object(map["usage" := Object(map["output_tokens" := Integer(output)])]);
            ResponseUsage(only) == Usage(None, Some(output), None) && ResponseUsage(only).Reported()
    ensures !ResponseUsage(Object(map["usage" := Object(map[])])).Reported() && !ResponseUsage(Null).Reported()
  {
  }

  // "event: <kind>", "data: <data>" and a blank line.
  const EVENT: Bytes := [101, 118, 101, 110, 116, 58, 32]

  function EventBytes(kind: Bytes, data: Bytes): Bytes {
    (EVENT + kind) + [LF] + (DATA + [SPACE] + data) + [LF] + [] + [LF]
  }

  // A line at the end of a stream that had ended with a line feed.
  lemma {:induction false} SplitLine(stream: Bytes, line: Bytes)
    requires NoLF(line) && Split(stream).1 == []
    ensures Split(stream + line) == (Split(stream).0, line)
    ensures Split(stream + line + [LF]) == (Split(stream).0 + [line], [])
  {
    var whole := stream + line;
    if line == [] {
      assert whole == stream;
    } else {
      SplitLine(stream, line[..|line| - 1]);
      assert whole[..|whole| - 1] == stream + line[..|line| - 1];
      assert line == line[..|line| - 1] + [line[|line| - 1]];
    }
    assert (whole + [LF])[..|whole|] == whole;
  }

  lemma {:induction false} EventLines(kind: Bytes, data: Bytes)
    requires NoLF(kind) && NoLF(data)
    ensures Lines(EventBytes(kind, data)) == [EVENT + kind, DATA + [SPACE] + data, []]
  {
    var first, second := EVENT + kind, DATA + [SPACE] + data;
    TwoLines(first, second);
    assert EventBytes(kind, data) == first + [LF] + second + [LF] + [LF];
  }

  /** An event the proxy writes is one event with exactly the data that was written. */
  lemma {:induction false} EventReadsBack(kind: Bytes, data: Bytes)
    requires NoLF(kind) && NoLF(data) && data != [] && data[|data| - 1] != CR
    requires |kind| + 10 <= MAX_EVENT_BYTES && |data| + 10 <= MAX_EVENT_BYTES
    ensures Events(CutAll(Lines(EventBytes(kind, data)))) == [[data], []] && EventData([data]) == data
  {
    var first, second := EVENT + kind, DATA + [SPACE] + data;
    EventLines(kind, data);
    var lines := Lines(EventBytes(kind, data));
    assert CutAll(lines) == lines;
    assert lines[..1] == [first] && lines[..2] == [first, second] && lines[..2][..1] == [first];
    assert first[0] == EVENT[0] == 101 && StripCR(first)[0] == first[0] && DATA[0] == 100;
    assert StripCR(first)[..|DATA|][0] == 101 && DataValue(StripCR(first)).None?;
    assert StripCR(second) == second && second[..|DATA|] == DATA && second[|DATA|..] == [SPACE] + data;
    assert ([SPACE] + data)[1..] == data;
    assert Events([first]) == [[]];
    var two, none: seq<Bytes> := lines[..2], [];
    assert two[..|two| - 1] == [first] && two[|two| - 1] == second && DataValue(StripCR(second)) == Some(data);
    assert none + [data] == [data];
    assert Events(two) == [[data]];
    WithinLimit(lines, [data]);
  }

  /** An event of two data lines, with the space after the colon or without, has their values with a line feed in
      between for its data. */
  lemma {:induction false} TwoLinesReadBack(first: Bytes, second: Bytes)
    requires NoLF(first) && NoLF(second) && first != [] && second != []
    requires first[|first| - 1] != 13 && second[|second| - 1] != 13 && second[0] != 32
    requires |first| + |second| + 7 <= MAX_EVENT_BYTES
    ensures var stream := [100, 97, 116, 97, 58, 32] + first + [10] + [100, 97, 116, 97, 58] + second + [10, 10];
            Events(CutAll(Lines(stream))) == [[first, second], []]
    ensures EventData([first, second]) == first + [10] + second
  {
    hide Split, Events, Cut, Join, Overflows, DropLeadingLF;
    var a: Bytes, b: Bytes := [100, 97, 116, 97, 58, 32] + first, [100, 97, 116, 97, 58] + second;
    TwoLines(a, b);
    assert a + [LF] + b + [LF] + [LF] ==
           [100, 97, 116, 97, 58, 32] + first + [10] + [100, 97, 116, 97, 58] + second + [10, 10];
    TwoJoined(first, second);
    WithinLimit([a, b, []], [first, second]);
    TwoValues(a, b, first, second);
  }

  lemma {:induction false} TwoJoined(first: Bytes, second: Bytes)
    requires NoLF(first) && first != []
    ensures Join([first, second]) == first + [10] + second
    ensures DropLeadingLF(Join([first, second])) == first + [10] + second
  {
    assert [first, second][..1] == [first];
  }

  lemma {:induction false} TwoLines(a: Bytes, b: Bytes)
    requires NoLF(a) && NoLF(b)
    ensures Lines(a + [LF] + b + [LF] + [LF]) == [a, b, []]
  {
    hide Split, NoLF;
    var none: Bytes, nothing: seq<Bytes> := [], [];
    var first, second := a + [LF], a + [LF] + b + [LF];
    NothingToSplit();
    assert none + a + [LF] == first && nothing + [a] == [a] && [a] + [b] == [a, b];
    LineAdded(none, nothing, a, first);
    LineAdded(first, [a], b, second);
    assert second + none + [LF] == second + [LF] && [a, b] + [none] == [a, b, none];
    LineAdded(second, [a, b], none, second + [LF]);
  }

  lemma {:induction false} NothingToSplit()
    ensures Split([]) == ([], []) && NoLF([])
  {
  }

  lemma {:induction false} LineAdded(stream: Bytes, lines: seq<Bytes>, line: Bytes, after: Bytes)
    requires NoLF(line) && Split(stream) == (lines, []) && after == stream + line + [LF]
    ensures Split(after) == (lines + [line], [])
  {
    SplitLine(stream, line);
  }

  lemma {:induction false} TwoValues(a: Bytes, b: Bytes, first: Bytes, second: Bytes)
    requires first != [] && second != [] && a == [100, 97, 116, 97, 58, 32] + first
    requires b == [100, 97, 116, 97, 58] + second
    requires first[|first| - 1] != 13 && second[|second| - 1] != 13 && second[0] != 32
    ensures Events([a, b, []]) == [[first, second], []]
  {
    assert StripCR(a) == a && a[..|DATA|] == DATA && a[|DATA|..] == [SPACE] + first;
    assert StripCR(b) == b && b[..|DATA|] == DATA && b[|DATA|..] == second;
    assert DataValue(a) == Some(first) && DataValue(b) == Some(second);
    var none: seq<Bytes> := [];
    assert [a, b, []][..2] == [a, b] && [a, b][..1] == [a] && [a][..0] == none;
    assert none + [first] == [first] && [first] + [second] == [first, second];
    assert Events([a]) == [[first]];
    assert Events([a, b]) == [[first, second]];
  }
}
