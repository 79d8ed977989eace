/** The event stream of a batch job, as written and as a strict client reads it
    (src/sse.rs; the generator in batch_response, src/proxy.rs). */
module SseStream {
  import opened Basics
  import opened Json
  import opened Jobs

  datatype Body =
    | Created(id: string, model: string)
    | InProgress(id: string, model: string)
    | ItemAdded(output: nat, item: Value)
    | PartAdded(itemId: string, output: nat, content: nat)
    | TextDelta(itemId: string, output: nat, content: nat, delta: string)
    | TextDone(itemId: string, output: nat, content: nat, text: string)
    | PartDone(itemId: string, output: nat, content: nat, part: Value)
    | ItemDone(output: nat, item: Value)
    | ResponseCompleted(response: Value)
    | ResponseFailed(id: string, model: string, message: string)
    | ResponseEnded(kind: string, response: Value)

  datatype Event = Event(sequence: nat, body: Body)

  // ---- A strict client ----

  datatype Phase =
    | Opening
    | Running
    | InItem(item: Value)
    | InPart(item: Value, itemId: string, content: nat, text: string, said: bool)
    | Over

  // The identifier and model that the stream opened with.
  datatype Name = Name(id: string, model: string)

  datatype Client = Client(next: nat, name: Name, phase: Phase, items: seq<Value>, texts: map<(nat, nat), string>)

  const NEW_CLIENT := Client(0, Name("", ""), Opening, [], map[])

  function PartText(part: Value): string {
    TextAt(part, "text").GetOr("")
  }

  // The client after one more event, unless the event is out of sequence or out of place.
  function Receive(c: Client, e: Event): Option<Client> {
    if e.sequence != c.next then None
    else
      var d, here := c.(next := c.next + 1), |c.items|;
      match (c.phase, e.body)
      case (Opening, Created(id, model)) => Some(d.(phase := Running, name := Name(id, model)))
      case (Running, InProgress(id, model)) => if Name(id, model) == c.name && c.items == [] then Some(d) else None
      case (Running, ItemAdded(output, item)) => if output == here then Some(d.(phase := InItem(item))) else None
      case (InItem(item), PartAdded(id, output, content)) =>
        if output == here && TextAt(item, "id") == Some(id) && (output, content) !in c.texts then
          Some(d.(phase := InPart(item, id, content, "", false)))
        else None
      case (InPart(item, id, content, text, said), TextDelta(id', output, content', delta)) =>
        if id' == id && output == here && content' == content && !said then
          Some(d.(phase := InPart(item, id, content, text + delta, false)))
        else None
      case (InPart(item, id, content, text, said), TextDone(id', output, content', whole)) =>
        if id' == id && output == here && content' == content && !said && whole == text then
          Some(d.(phase := InPart(item, id, content, text, true)))
        else None
      case (InPart(item, id, content, text, said), PartDone(id', output, content', part)) =>
        if id' == id && output == here && content' == content && said && PartText(part) == text then
          Some(d.(phase := InItem(item), texts := c.texts[(here, content) := text]))
        else None
      case (InItem(item), ItemDone(output, item')) =>
        if output == here && item' == item then Some(d.(phase := Running, items := c.items + [item])) else None
      case (Running, ResponseCompleted(response)) =>
        if TextAt(response, "id") == Some(c.name.id) && response.Get("output") == Some(Array(c.items)) then
          Some(d.(phase := Over))
        else None
      case (Running, ResponseFailed(id, model, _)) =>
        if Name(id, model) == c.name && c.items == [] then Some(d.(phase := Over)) else None
      case (Running, ResponseEnded(_, response)) =>
        if TextAt(response, "id") == Some(c.name.id) && c.items == [] then Some(d.(phase := Over)) else None
      case _ => None
  }

  function Read(c: Client, events: seq<Event>): Option<Client> {
    if events == [] then Some(c)
    else
      var earlier := Read(c, events[..|events| - 1]);
      if earlier.None? then None else Receive(earlier.value, events[|events| - 1])
  }

  lemma {:induction false} ReadOneMore(c: Client, events: seq<Event>, e: Event)
    ensures Read(c, events + [e]) == if Read(c, events).None? then None else Receive(Read(c, events).value, e)
  {
    assert (events + [e])[..|events|] == events;
  }

  predicate IsTerminal(body: Body) {
    body.ResponseCompleted? || body.ResponseFailed? || body.ResponseEnded?
  }

  /** A client that has read a stream has seen the numbers from its first on without gaps, and is done exactly if the
      last event was a terminal one; no other event was. */
  lemma {:induction false} ReadMeans(c: Client, events: seq<Event>)
    requires Read(c, events).Some? && !c.phase.Over?
    ensures forall i | 0 <= i < |events| :: events[i].sequence == c.next + i
    ensures forall i | 0 <= i < |events| - 1 :: !IsTerminal(events[i].body)
    ensures Read(c, events).value.phase.Over? <==> events != [] && IsTerminal(events[|events| - 1].body)
    ensures Read(c, events).value.next == c.next + |events|
  {
    if events != [] {
      var earlier := events[..|events| - 1];
      ReadMeans(c, earlier);
      assert forall i | 0 <= i < |events| - 1 :: earlier[i] == events[i];
    }
  }

  // ---- Completion events ----

  // The text of an output_text part of a message that has an id.
  function OutputText(item: Value, content: nat): Option<string> {
    if TextAt(item, "type") == Some("message") && TextAt(item, "id").Some? && item.Get("content").Some? then
      var parts := item.Get("content").value;
      if parts.Array? && content < |parts.items| && TextAt(parts.items[content], "type") == Some("output_text") then
        Some(PartText(parts.items[content]))
      else None
    else None
  }

  // The client has every text of the first `output` items, and of the next one those before `content`.
  ghost predicate HasTexts(texts: map<(nat, nat), string>, items: seq<Value>, output: nat, content: nat) {
    forall i: nat, j: nat ::
      if i < |items| && (i < output || (i == output && j < content)) && OutputText(items[i], j).Some? then
        (i, j) in texts && texts[(i, j)] == OutputText(items[i], j).value
      else (i, j) !in texts
  }

  // The texts are those in the items, each under its place: of every output_text part of a message that has an id, the
  // member "text" if that is a string, and otherwise nothing. There are no others.
  ghost predicate AreTheTexts(texts: map<(nat, nat), string>, items: seq<Value>) {
    forall i: nat, j: nat ::
      if i < |items| && IsOutputText(items[i], j) then
        && (i, j) in texts
        && var text := items[i].fields["content"].items[j].Get("text");
           texts[(i, j)] == if text.Some? && text.value.Text? then text.value.text else ""
      else (i, j) !in texts
  }

  predicate IsOutputText(item: Value, j: nat) {
    && item.Object? && item.Get("type") == Some(Text("message"))
    && item.Get("id").Some? && item.Get("id").value.Text?
    && item.Get("content").Some? && item.Get("content").value.Array? && j < |item.Get("content").value.items|
    && item.Get("content").value.items[j].Get("type") == Some(Text("output_text"))
  }

  lemma {:induction false} TextsAreRight(texts: map<(nat, nat), string>, items: seq<Value>)
    requires HasTexts(texts, items, |items|, 0)
    ensures AreTheTexts(texts, items)
  {
    forall i: nat, j: nat | i < |items|
      ensures OutputText(items[i], j).Some? <==> IsOutputText(items[i], j)
      ensures IsOutputText(items[i], j) ==>
                var text := items[i].fields["content"].items[j].Get("text");
                OutputText(items[i], j) == Some(if text.Some? && text.value.Text? then text.value.text else "")
    {
    }
  }

  // The response but for its id, which is the proxy's own.
  predicate IsRenamed(response: Value, id: string, renamed: Value) {
    && renamed.Get("id") == Some(Text(id)) && renamed.Object? && response.Object?
    && renamed.fields - {"id"} == response.fields - {"id"}
  }

  // The response under the proxy's own id.
  function Renamed(response: Value, id: string): Value
    requires response.Object?
  {
    Object(response.fields["id" := Text(id)])
  }

  /** The events that replay a finished response. A client that reads them has rebuilt every output item and every
      output text, and is done; without a list of output items there are none. */
  method CompletionEvents(response: Value, id: string, first: nat, ghost c: Client)
    returns (r: Result<seq<Event>, string>)
    requires c == Client(first, c.name, Running, [], map[]) && c.name.id == id
    ensures r.Success? <==> response.Get("output").Some? && response.Get("output").value.Array?
    ensures r.Success? ==>
              var items := response.Get("output").value.items;
              && Read(c, r.value).Some?
              && var d := Read(c, r.value).value;
                 d.phase.Over? && d.items == items && AreTheTexts(d.texts, items)
    ensures r.Success? ==>
              && |r.value| > 0 && r.value[|r.value| - 1].body.ResponseCompleted?
              && IsRenamed(response, id, r.value[|r.value| - 1].body.response)
  {
    hide AreTheTexts;
    var output := response.Get("output");
    if output.None? || !output.value.Array? {
      return Failure("batch response is missing output");
    }
    var items := output.value.items;
    var sequence, events := first, [];
    ghost var d := c;
    for i := 0 to |items|
      invariant Read(c, events) == Some(d)
      invariant d.next == sequence && d.name == c.name && d.phase == Running && d.items == items[..i]
      invariant HasTexts(d.texts, items, i, 0)
    {
      events, sequence, d := ItemEvents(items, i, events, sequence, c, d);
    }
    assert items[..|items|] == items;
    TextsAreRight(d.texts, items);
    var last := Event(sequence, ResponseCompleted(Renamed(response, id)));
    ReadOneMore(c, events, last);
    return Success(events + [last]);
  }

  method ItemEvents(items: seq<Value>, i: nat, events: seq<Event>, first: nat, ghost c: Client, ghost d: Client)
    returns (events': seq<Event>, sequence: nat, ghost d': Client)
    requires i < |items| && Read(c, events) == Some(d)
    requires d.next == first && d.phase == Running && d.items == items[..i] && HasTexts(d.texts, items, i, 0)
    ensures Read(c, events') == Some(d')
    ensures d'.next == sequence && d'.name == d.name && d'.phase == Running && d'.items == items[..i + 1]
    ensures HasTexts(d'.texts, items, i + 1, 0)
  {
    hide Read;
    var item := items[i];
    events', sequence, d' := Emit(events, first, ItemAdded(i, item), c, d);
    var itemId, content := TextAt(item, "id"), item.Get("content");
    ghost var parts: seq<Value> := [];
    if TextAt(item, "type") == Some("message") && itemId.Some? && content.Some? && content.value.Array? {
      parts := content.value.items;
      for j := 0 to |content.value.items|
        invariant Read(c, events') == Some(d')
        invariant d'.next == sequence && d'.name == d.name && d'.phase == InItem(item) && d'.items == items[..i]
        invariant HasTexts(d'.texts, items, i, j)
      {
        var part := content.value.items[j];
        if TextAt(part, "type") == Some("output_text") {
          events', sequence, d' := PartEvents(itemId.value, i, j, part, events', sequence, c, d');
        }
      }
    }
    events', sequence, d' := Emit(events', sequence, ItemDone(i, item), c, d');
    assert HasTexts(d'.texts, items, i, |parts|);
  }

  method PartEvents(
    itemId: string, i: nat, j: nat, part: Value, events: seq<Event>, first: nat, ghost c: Client, ghost d: Client)
    returns (events': seq<Event>, sequence: nat, ghost d': Client)
    requires Read(c, events) == Some(d) && d.next == first
    requires d.phase.InItem? && |d.items| == i && TextAt(d.phase.item, "id") == Some(itemId) && (i, j) !in d.texts
    ensures Read(c, events') == Some(d')
    ensures d' == d.(next := sequence, texts := d.texts[(i, j) := PartText(part)])
  {
    hide Read;
    var text := PartText(part);
    events', sequence, d' := Emit(events, first, PartAdded(itemId, i, j), c, d);
    if text != "" {
      events', sequence, d' := Emit(events', sequence, TextDelta(itemId, i, j, text), c, d');
    }
    events', sequence, d' := Emit(events', sequence, TextDone(itemId, i, j, text), c, d');
    events', sequence, d' := Emit(events', sequence, PartDone(itemId, i, j, part), c, d');
  }

  // Append one event that the client accepts.
  method Emit(events: seq<Event>, sequence: nat, body: Body, ghost c: Client, ghost d: Client)
    returns (events': seq<Event>, next: nat, ghost d': Client)
    requires Read(c, events) == Some(d) && Receive(d, Event(sequence, body)).Some?
    ensures events' == events + [Event(sequence, body)] && next == sequence + 1
    ensures Some(d') == Receive(d, Event(sequence, body)) && Read(c, events') == Some(d')
  {
    var e := Event(sequence, body);
    ReadOneMore(c, events, e);
    d' := Receive(d, e).value;
    return events + [e], sequence + 1, d';
  }

  // ---- Terminal errors ----

  function OrDefault(fields: map<string, Value>, key: string, value: Value): map<string, Value> {
    if key in fields then fields else fields[key := value]
  }

  // What an unsuccessful outcome is announced as.
  function TerminalError(id: string, model: string, value: Value, quote: string): (body: Body)
    ensures IsTerminal(body) && !body.ResponseCompleted?
  {
    var status := TextAt(value, "status");
    if status != Some("failed") && status != Some("incomplete") then ResponseFailed(id, model, quote)
    else
      var named := value.fields["id" := Text(id)];
      var full := OrDefault(
        OrDefault(OrDefault(named, "object", Text("response")), "model", Text(model)), "output", Array([]));
      ResponseEnded(if status == Some("failed") then "response.failed" else "response.incomplete", Object(full))
  }

  /** A failed or incomplete response object is announced as such and keeps all it says, under the proxy's id and with
      what a client needs filled in; anything else becomes a failure that quotes it. */
  lemma {:induction false} TerminalErrorKeeps(id: string, model: string, value: Value, quote: string, key: string)
    ensures var body, status := TerminalError(id, model, value, quote), TextAt(value, "status");
            if status != Some("failed") && status != Some("incomplete") then body == ResponseFailed(id, model, quote)
            else
              && body.ResponseEnded? && body.kind == "response." + status.value
              && TextAt(body.response, "id") == Some(id)
              && (key in value.fields && key != "id" ==> body.response.Get(key) == value.Get(key))
              && (key !in value.fields && body.response.Get(key).Some? ==> key in ["id", "object", "model", "output"])
              && body.response.Get("output").Some? && body.response.Get("model").Some?
  {
  }

  // ---- The generator ----

  // What the generator sees each time round: the job's state, and what wakes it if it is not terminal yet.
  datatype Wake = Heartbeat | Changed | WorkerGone
  datatype Turn = Turn(state: JobState, wake: Wake)

  /** For any interleaving of heartbeats and state changes a strict client reads every event written so far; it is done
      exactly when the generator is; and if the job completed with a list of output items it has all of them. */
  method BatchStream(turns: seq<Turn>, id: string, model: string, quote: Value -> string)
    returns (events: seq<Event>, finished: bool)
    ensures Read(NEW_CLIENT, events).Some?
    ensures finished <==> Read(NEW_CLIENT, events).value.phase.Over?
    ensures events != [] && events[0].body == Created(id, model)
    ensures !finished ==> |events| == 2 + Heartbeats(turns)
    ensures finished && (forall k | 0 <= k < |turns| :: !turns[k].state.Terminal?) ==>
              events[|events| - 1].body.ResponseFailed?
    ensures finished <==> exists k :: 0 <= k < |turns| && (turns[k].state.Terminal? || turns[k].wake.WorkerGone?)
    ensures forall k | 0 <= k < |turns| && turns[k].state.Terminal? &&
                       (forall i | 0 <= i < k :: !turns[i].state.Terminal? && !turns[i].wake.WorkerGone?) ::
              Announces(Read(NEW_CLIENT, events).value, events, turns[k].state.outcome, id, model, quote)
  {
    assert Heartbeats(turns[..0]) == 0;
    hide Read, Announces, TerminalError, Heartbeats, Receive;
    var sequence: nat;
    events, sequence := Open(id, model);
    finished := false;
    for k := 0 to |turns|
      invariant Read(NEW_CLIENT, events) == Some(Waiting(sequence, id, model))
      invariant forall i | 0 <= i < k :: !turns[i].state.Terminal? && !turns[i].wake.WorkerGone?
      invariant !finished && |events| == 2 + Heartbeats(turns[..k]) && events[0].body == Created(id, model)
    {
      OneMoreTurn(turns, k);
      if turns[k].state.Terminal? {
        events := Conclude(turns[k].state.outcome, id, model, quote, events, sequence, Waiting(sequence, id, model));
        return events, true;
      }
      match turns[k].wake {
        case Heartbeat => events, sequence := Beat(id, model, events, sequence);
        case Changed =>
        case WorkerGone =>
          events := Abandon(id, model, events, sequence);
          return events, true;
      }
    }
    assert turns[..|turns|] == turns;
  }

  // The client that waits for the job.
  ghost function Waiting(sequence: nat, id: string, model: string): Client {
    Client(sequence, Name(id, model), Running, [], map[])
  }

  method Open(id: string, model: string) returns (events: seq<Event>, sequence: nat)
    ensures Read(NEW_CLIENT, events) == Some(Waiting(sequence, id, model))
    ensures |events| == 2 && events[0].body == Created(id, model)
  {
    assert Read(NEW_CLIENT, []) == Some(NEW_CLIENT);
    hide Read;
    ghost var d: Client;
    events, sequence, d := Emit([], 0, Created(id, model), NEW_CLIENT, NEW_CLIENT);
    events, sequence, d := Emit(events, sequence, InProgress(id, model), NEW_CLIENT, d);
  }

  method Beat(id: string, model: string, events: seq<Event>, sequence: nat)
    returns (events': seq<Event>, next: nat)
    requires Read(NEW_CLIENT, events) == Some(Waiting(sequence, id, model))
    ensures Read(NEW_CLIENT, events') == Some(Waiting(next, id, model))
    ensures events <= events' && |events'| == |events| + 1
  {
    hide Read;
    ghost var d;
    events', next, d := Emit(events, sequence, InProgress(id, model), NEW_CLIENT, Waiting(sequence, id, model));
  }

  // The job's worker is gone without having finished the job.
  method Abandon(id: string, model: string, events: seq<Event>, sequence: nat) returns (events': seq<Event>)
    requires Read(NEW_CLIENT, events) == Some(Waiting(sequence, id, model))
    ensures Read(NEW_CLIENT, events').Some? && Read(NEW_CLIENT, events').value.phase.Over?
    ensures events <= events' && |events'| == |events| + 1 && events'[|events|].body.ResponseFailed?
  {
    hide Read;
    var message := "batch worker stopped before reaching a terminal state";
    ghost var d := Waiting(sequence, id, model);
    var next: nat;
    events', next, d := Emit(events, sequence, ResponseFailed(id, model, message), NEW_CLIENT, d);
  }

  lemma {:induction false} OneMoreTurn(turns: seq<Turn>, k: nat)
    requires k < |turns|
    ensures Heartbeats(turns[..k + 1]) == Heartbeats(turns[..k]) + (if turns[k].wake.Heartbeat? then 1 else 0)
  {
    assert turns[..k + 1][..k] == turns[..k];
  }

  function Heartbeats(turns: seq<Turn>): nat {
    if turns == [] then 0
    else Heartbeats(turns[..|turns| - 1]) + (if turns[|turns| - 1].wake.Heartbeat? then 1 else 0)
  }

  // The last event says what became of the job; a completed job's output has been replayed in full.
  ghost predicate Announces(
    c: Client, events: seq<Event>, outcome: StoredOutcome, id: string, model: string, quote: Value -> string)
  {
    var output := outcome.value.Get("output");
    && events != []
    && var last := events[|events| - 1].body;
       if !outcome.Completed? then last == TerminalError(id, model, outcome.value, quote(outcome.value))
       else if output.Some? && output.value.Array? then
         && last.ResponseCompleted? && IsRenamed(outcome.value, id, last.response)
         && c.items == output.value.items && AreTheTexts(c.texts, c.items)
       else last.ResponseFailed?
  }

  method Conclude(
    outcome: StoredOutcome, id: string, model: string, quote: Value -> string, events: seq<Event>, sequence: nat,
    ghost d: Client)
    returns (events': seq<Event>)
    requires Read(NEW_CLIENT, events) == Some(d) && d == Client(sequence, Name(id, model), Running, [], map[])
    ensures events <= events'
    ensures Read(NEW_CLIENT, events').Some? && Read(NEW_CLIENT, events').value.phase.Over?
    ensures Announces(Read(NEW_CLIENT, events').value, events', outcome, id, model, quote)
  {
    hide AreTheTexts, IsRenamed;
    ghost var d': Client;
    var next;
    if outcome.Completed? {
      var completion := CompletionEvents(outcome.value, id, sequence, d);
      match completion {
        case Success(more) =>
          ReadConcat(NEW_CLIENT, events, more);
          events' := events + more;
        case Failure(message) =>
          events', next, d' := Emit(events, sequence, ResponseFailed(id, model, message), NEW_CLIENT, d);
      }
    } else {
      var body := TerminalError(id, model, outcome.value, quote(outcome.value));
      events', next, d' := Emit(events, sequence, body, NEW_CLIENT, d);
    }
  }

  lemma {:induction false} ReadConcat(c: Client, a: seq<Event>, b: seq<Event>)
    requires Read(c, a).Some?
    ensures Read(c, a + b) == Read(Read(c, a).value, b)
  {
    if b == [] {
      assert a + b == a;
    } else {
      ReadConcat(c, a, b[..|b| - 1]);
      assert (a + b)[..|a + b| - 1] == a + b[..|b| - 1];
    }
  }
}
