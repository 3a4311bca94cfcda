/** Normalisation, coalescing and the server-sent-events loop of a streaming chat answer. */
module StreamCoalescing {
  import opened PyValue
  import opened Text
  import Sse = SseParser
  import Utf8

  // ---- Normalisation

  function TextField(render: Value -> string, event: Object): string {
    var text := if "text" in event then event["text"] else Str("");
    if text == Null then "" else Show(render, text)
  }

  function Normalize(render: Value -> string, raw: Value): Option<Object> {
    if !raw.Dict? then None
    else
      var event := raw.fields;
      var status := ShowOrEmpty(render, Get(event, "status"));
      var text := TextField(render, event);
      if status == "delta" then
        if text == "" then None else Some(event["status" := Str("delta")]["text" := Str(text)])
      else if status == "final" then
        if text == "" then None
        else Some(map[
          "status" := Str("final"),
          "text" := Str(text),
          "replace" := Bool(if "replace" in event then Truthy(event["replace"]) else true),
          "source" := if Truthy(Get(event, "source")) then Str(Show(render, event["source"])) else Str("bridge")])
      else if status != "" then Some(event["status" := Str(status)])
      else None
  }

  /** Everything but the status and the text is passed on as it came. */
  ghost predicate SameBut(a: Object, b: Object, changed: set<string>) {
    forall f | f !in changed :: (f in a <==> f in b) && (f in a ==> a[f] == b[f])
  }

  lemma DeltaNormalized(render: Value -> string, event: Object, text: string)
    requires Get(event, "status") == Str("delta") && Get(event, "text") == Str(text) && text != ""
    ensures var r := Normalize(render, Dict(event));
            r.Some? && SameBut(event, r.value, {"status", "text"})
            && Get(r.value, "status") == Str("delta") && Get(r.value, "text") == Str(text)
  {
  }

  /** A final event is rebuilt: it replaces by default, and comes from the bridge unless it names another source. */
  lemma FinalNormalized(render: Value -> string, event: Object, text: string)
    requires Get(event, "status") == Str("final") && Get(event, "text") == Str(text) && text != ""
    ensures var r := Normalize(render, Dict(event));
            r.Some? && r.value.Keys == {"status", "text", "replace", "source"}
            && r.value["status"] == Str("final") && r.value["text"] == Str(text)
            && ("replace" !in event ==> r.value["replace"] == Bool(true))
            && (forall b | Get(event, "replace") == Bool(b) :: r.value["replace"] == Bool(b))
            && (forall name | Get(event, "source") == Str(name) && name != "" :: r.value["source"] == Str(name))
            && (Get(event, "source") in {Null, Str("")} ==> r.value["source"] == Str("bridge"))
  {
  }

  /** Any other named status is passed on with all its fields. */
  lemma OtherNormalized(render: Value -> string, event: Object, status: string)
    requires Get(event, "status") == Str(status) && status !in {"", "delta", "final"}
    ensures Normalize(render, Dict(event)) == Some(event)
  {
    assert event["status" := Str(status)] == event;
  }

  /** What has no status, or is a delta or final event without text, is dropped; so is what is no event at all. */
  lemma DroppedEvents(render: Value -> string, raw: Value)
    requires raw.Dict? ==>
               || Get(raw.fields, "status") in {Null, Str("")}
               || (Get(raw.fields, "status") in {Str("delta"), Str("final")}
                   && Get(raw.fields, "text") in {Null, Str("")})
    ensures Normalize(render, raw) == None
  {
  }

  predicate IsDelta(event: Object) {
    Get(event, "status") == Str("delta")
  }

  function DeltaText(render: Value -> string, event: Object): string {
    ShowOrEmpty(render, Get(event, "text"))
  }

  function Delta(text: string): Object {
    map["status" := Str("delta"), "text" := Str(text)]
  }

  // ---- Meaning: the characters of the answer, interleaved with every other event

  datatype Item = Char(c: char) | Other(event: Object)

  function Chars(text: string): seq<Item> {
    seq(|text|, i requires 0 <= i < |text| => Char(text[i]))
  }

  function EventMeaning(render: Value -> string, event: Object): seq<Item> {
    if IsDelta(event) then Chars(DeltaText(render, event)) else [Other(event)]
  }

  function Meaning(render: Value -> string, events: seq<Object>): seq<Item> {
    if events == [] then [] else EventMeaning(render, events[0]) + Meaning(render, events[1..])
  }

  /** A delta means its characters, in order; anything else means itself. */
  lemma MeaningOfEvent(render: Value -> string, event: Object, text: string)
    ensures Get(event, "status") == Str("delta") && Get(event, "text") == Str(text) ==>
              var m := EventMeaning(render, event);
              |m| == |text| && forall i | 0 <= i < |text| :: m[i] == Char(text[i])
    ensures Get(event, "status") != Str("delta") ==> EventMeaning(render, event) == [Other(event)]
  {
  }

  function NormalizedMeaning(render: Value -> string, raw: Value): seq<Item> {
    match Normalize(render, raw)
    case None => []
    case Some(event) => EventMeaning(render, event)
  }

  function RawMeaning(render: Value -> string, raws: seq<Value>): seq<Item> {
    if raws == [] then [] else NormalizedMeaning(render, raws[0]) + RawMeaning(render, raws[1..])
  }

  lemma {:induction false} MeaningConcat(render: Value -> string, a: seq<Object>, b: seq<Object>)
    ensures Meaning(render, a + b) == Meaning(render, a) + Meaning(render, b)
  {
    if a == [] {
      assert a + b == b;
    } else {
      assert (a + b)[1..] == a[1..] + b;
      MeaningConcat(render, a[1..], b);
    }
  }

  lemma MeaningOne(render: Value -> string, event: Object)
    ensures Meaning(render, [event]) == EventMeaning(render, event)
  {
    assert [event][1..] == [];
  }

  lemma {:induction false} RawMeaningConcat(render: Value -> string, a: seq<Value>, b: seq<Value>)
    ensures RawMeaning(render, a + b) == RawMeaning(render, a) + RawMeaning(render, b)
  {
    if a == [] {
      assert a + b == b;
    } else {
      assert (a + b)[1..] == a[1..] + b;
      RawMeaningConcat(render, a[1..], b);
    }
  }

  lemma CharsConcat(a: string, b: string)
    ensures Chars(a + b) == Chars(a) + Chars(b)
  {
  }

  // ---- The coalescer

  /** No two deltas are neighbours. */
  ghost predicate Coalesced(events: seq<Object>) {
    forall i | 0 < i < |events| :: !(IsDelta(events[i - 1]) && IsDelta(events[i]))
  }

  class StreamEventCoalescer {
    var deltaParts: seq<string>

    constructor ()
      ensures deltaParts == []
    {
      deltaParts := [];
    }

    ghost function Pending(): string
      reads this
    {
      Flatten(deltaParts)
    }

    method Flush(render: Value -> string) returns (delta: Option<Object>)
      modifies this
      ensures deltaParts == []
      ensures delta == if old(deltaParts) == [] then None else Some(Delta(old(Pending())))
    {
      if deltaParts == [] {
        return None;
      }
      var text := Flatten(deltaParts);
      deltaParts := [];
      return Some(Delta(text));
    }

    /** A delta is held back; any other event comes out behind the text that was held. */
    method Feed(render: Value -> string, event: Option<Object>) returns (output: seq<Object>)
      modifies this
      ensures Meaning(render, output) + Chars(Pending())
           == Chars(old(Pending())) + (if event.None? then [] else EventMeaning(render, event.value))
      ensures event.None? ==> deltaParts == old(deltaParts)
      ensures event.Some? && !IsDelta(event.value) ==> deltaParts == []
      ensures output == [] || !IsDelta(Last(output))
      ensures Coalesced(output)
    {
      if event == None {
        return [];
      }
      if IsDelta(event.value) {
        var text := DeltaText(render, event.value);
        FlattenConcat(deltaParts, [text]);
        FlattenOne(text);
        CharsConcat(Flatten(deltaParts), text);
        deltaParts := deltaParts + [text];
        return [];
      }
      var held := Flush(render);
      MeaningOne(render, event.value);
      if held == None {
        assert Chars("") == [];
        return [event.value];
      }
      output := [held.value, event.value];
      assert output == [held.value] + [event.value];
      MeaningConcat(render, [held.value], [event.value]);
      MeaningOne(render, held.value);
      HeldMeaning(render, old(Pending()));
    }
  }

  lemma FlattenOne(text: string)
    ensures Flatten([text]) == text
  {
    assert [text][1..] == [];
  }

  lemma HeldMeaning(render: Value -> string, text: string)
    ensures EventMeaning(render, Delta(text)) == Chars(text)
  {
  }

  class StreamQueue {
    var items: seq<Value>
  }

  /** The output so far, the text held back and the queue still to be read mean what was taken in. */
  ghost predicate Preserved(render: Value -> string, output: seq<Object>, held: string, queued: seq<Value>,
                               all: seq<Value>)
  {
    Meaning(render, output) + Chars(held) + RawMeaning(render, queued) == RawMeaning(render, all)
  }

  lemma PreservedFeed(render: Value -> string, output: seq<Object>, held: string, queued: seq<Value>, all: seq<Value>,
                      more: seq<Object>, held': string)
    requires queued != [] && Preserved(render, output, held, queued, all)
    requires Meaning(render, more) + Chars(held') == Chars(held) + NormalizedMeaning(render, queued[0])
    ensures Preserved(render, output + more, held', queued[1..], all)
  {
    var shown, text, head, rest :=
      Meaning(render, output), Chars(held), NormalizedMeaning(render, queued[0]), RawMeaning(render, queued[1..]);
    MeaningConcat(render, output, more);
    calc {
      (shown + text) + (head + rest);
      { ConcatAssociative(shown + text, head, rest); ConcatAssociative(shown, text, head); }
      (shown + (text + head)) + rest;
      (shown + (Meaning(render, more) + Chars(held'))) + rest;
      { ConcatAssociative(shown, Meaning(render, more), Chars(held')); }
      ((shown + Meaning(render, more)) + Chars(held')) + rest;
    }
  }

  lemma PreservedFlush(render: Value -> string, output: seq<Object>, held: string, queued: seq<Value>, all: seq<Value>)
    requires Preserved(render, output, held, queued, all)
    ensures Preserved(render, output + [Delta(held)], "", queued, all)
  {
    MeaningConcat(render, output, [Delta(held)]);
    MeaningOne(render, Delta(held));
    HeldMeaning(render, held);
    assert Meaning(render, output) + Chars(held) + Chars("") == Meaning(render, output) + Chars(held);
  }

  /** The output ends in an event that is not a delta, so another delta may follow. */
  ghost predicate Closed(output: seq<Object>) {
    Coalesced(output) && (output == [] || !IsDelta(Last(output)))
  }

  lemma ClosedConcat(a: seq<Object>, b: seq<Object>)
    requires Closed(a) && Coalesced(b)
    ensures Coalesced(a + b)
    ensures b == [] || !IsDelta(Last(b)) ==> Closed(a + b)
  {
    if b == [] {
      assert a + b == a;
    }
  }

  /** Feeds everything that is queued; the last text stays held back. */
  method FeedQueued(render: Value -> string, queue: StreamQueue, coalescer: StreamEventCoalescer,
                    first: seq<Object>, ghost all: seq<Value>)
    returns (output: seq<Object>)
    requires Preserved(render, first, coalescer.Pending(), queue.items, all) && Closed(first)
    modifies queue, coalescer
    ensures Preserved(render, output, coalescer.Pending(), [], all) && Closed(output)
    ensures queue.items == []
  {
    output := first;
    while queue.items != []
      invariant Preserved(render, output, coalescer.Pending(), queue.items, all)
      invariant Closed(output)
      decreases |queue.items|
    {
      ghost var held, queued := coalescer.Pending(), queue.items;
      var next := queue.items[0];
      queue.items := queue.items[1..];
      var more := coalescer.Feed(render, Normalize(render, next));
      PreservedFeed(render, output, held, queued, all, more, coalescer.Pending());
      ClosedConcat(output, more);
      output := output + more;
    }
  }

  lemma PreservedStart(render: Value -> string, all: seq<Value>)
    ensures Preserved(render, [], "", all, all)
  {
    assert [] + Chars("") + RawMeaning(render, all) == RawMeaning(render, all);
  }

  lemma PreservedEnd(render: Value -> string, output: seq<Object>, queued: seq<Value>, all: seq<Value>)
    requires Preserved(render, output, "", queued, all)
    ensures Meaning(render, output) + RawMeaning(render, queued) == RawMeaning(render, all)
  {
    assert Meaning(render, output) + Chars("") == Meaning(render, output);
  }

  /** One batch: the event just taken and, after a delta, everything that is already queued. */
  /** A delta is coalesced with everything that is ready; any other event goes out alone. */
  predicate StartsDelta(render: Value -> string, raw: Value) {
    Normalize(render, raw) != None && IsDelta(Normalize(render, raw).value)
  }

  method CollectReady(render: Value -> string, raw: Value, queue: StreamQueue, coalescer: StreamEventCoalescer)
    returns (output: seq<Object>)
    requires coalescer.deltaParts == []
    modifies queue, coalescer
    ensures coalescer.deltaParts == []
    ensures Meaning(render, output) + RawMeaning(render, queue.items) == RawMeaning(render, [raw] + old(queue.items))
    ensures queue.items == if StartsDelta(render, raw) then [] else old(queue.items)
    ensures Coalesced(output)
  {
    ghost var all := [raw] + queue.items;
    PreservedStart(render, all);
    var event := Normalize(render, raw);
    output := coalescer.Feed(render, event);
    assert all[1..] == queue.items && [] + output == output;
    PreservedFeed(render, [], "", all, all, output, coalescer.Pending());
    if event != None && IsDelta(event.value) {
      output := FeedQueued(render, queue, coalescer, output, all);
      PreservedFlush(render, output, coalescer.Pending(), [], all);
      var delta := coalescer.Flush(render);
      if delta != None {
        ClosedConcat(output, [delta.value]);
        output := output + [delta.value];
      }
    }
    PreservedEnd(render, output, queue.items, all);
  }

  // ---- The loop

  /** What happens while the loop waits once: arrivals, completion, and which of the two it notices. */
  datatype Tick = Tick(arrivals: seq<Value>, done: bool, doneFirst: bool)

  datatype Frame = Heartbeat | Payload(event: Object)

  function Payloads(frames: seq<Frame>): seq<Object> {
    if frames == [] then []
    else (if frames[0].Payload? then [frames[0].event] else []) + Payloads(frames[1..])
  }

  function AsFrames(events: seq<Object>): seq<Frame> {
    seq(|events|, i requires 0 <= i < |events| => Payload(events[i]))
  }

  function Arrivals(schedule: seq<Tick>): seq<Value> {
    if schedule == [] then [] else schedule[0].arrivals + Arrivals(schedule[1..])
  }

  lemma {:induction false} ArrivalsSnoc(schedule: seq<Tick>, tick: Tick)
    ensures Arrivals(schedule + [tick]) == Arrivals(schedule) + tick.arrivals
  {
    if schedule == [] {
      assert schedule + [tick] == [tick] && [tick][1..] == [];
      assert tick.arrivals + [] == tick.arrivals;
    } else {
      assert (schedule + [tick])[1..] == schedule[1..] + [tick];
      ArrivalsSnoc(schedule[1..], tick);
    }
  }

  lemma ArrivalsStep(before: seq<Value>, schedule: seq<Tick>, used: nat)
    requires used < |schedule|
    ensures before + Arrivals(schedule[..used]) + schedule[used].arrivals == before + Arrivals(schedule[..used + 1])
  {
    ArrivalsSnoc(schedule[..used], schedule[used]);
    assert schedule[..used + 1] == schedule[..used] + [schedule[used]];
  }

  lemma {:induction false} PayloadsConcat(a: seq<Frame>, b: seq<Frame>)
    ensures Payloads(a + b) == Payloads(a) + Payloads(b)
  {
    if a == [] {
      assert a + b == b;
    } else {
      assert (a + b)[1..] == a[1..] + b;
      PayloadsConcat(a[1..], b);
    }
  }

  lemma {:induction false} PayloadsAsFrames(events: seq<Object>)
    ensures Payloads(AsFrames(events)) == events
  {
    if events != [] {
      assert AsFrames(events)[1..] == AsFrames(events[1..]);
      PayloadsAsFrames(events[1..]);
    }
  }

  /** The frames emitted and the queue still to be read mean what arrived. */
  ghost predicate Faithful(render: Value -> string, frames: seq<Frame>, queued: seq<Value>, arrived: seq<Value>) {
    Meaning(render, Payloads(frames)) + RawMeaning(render, queued) == RawMeaning(render, arrived)
  }

  lemma FaithfulArrivals(render: Value -> string, frames: seq<Frame>, queued: seq<Value>, arrived: seq<Value>,
                         more: seq<Value>)
    requires Faithful(render, frames, queued, arrived)
    ensures Faithful(render, frames, queued + more, arrived + more)
  {
    RawMeaningConcat(render, queued, more);
    RawMeaningConcat(render, arrived, more);
    ConcatAssociative(Meaning(render, Payloads(frames)), RawMeaning(render, queued), RawMeaning(render, more));
  }

  lemma FaithfulBatch(render: Value -> string, frames: seq<Frame>, queued: seq<Value>, arrived: seq<Value>,
                      batch: seq<Object>, left: seq<Value>)
    requires Faithful(render, frames, queued, arrived)
    requires Meaning(render, batch) + RawMeaning(render, left) == RawMeaning(render, queued)
    ensures Faithful(render, frames + AsFrames(batch), left, arrived)
  {
    var shown, now, rest := Meaning(render, Payloads(frames)), Meaning(render, batch), RawMeaning(render, left);
    assert Meaning(render, Payloads(frames + AsFrames(batch))) == shown + now by {
      PayloadsConcat(frames, AsFrames(batch));
      PayloadsAsFrames(batch);
      MeaningConcat(render, Payloads(frames), batch);
    }
    ConcatAssociative(shown, now, rest);
  }

  lemma FaithfulHeartbeat(render: Value -> string, frames: seq<Frame>, queued: seq<Value>, arrived: seq<Value>)
    requires Faithful(render, frames, queued, arrived)
    ensures Faithful(render, frames + [Heartbeat], queued, arrived)
  {
    PayloadsConcat(frames, [Heartbeat]);
    assert [Heartbeat][1..] == [];
    assert Payloads(frames) + [] == Payloads(frames);
  }

  /** Takes the head of the queue and emits its batch. */
  method EmitBatch(render: Value -> string, queue: StreamQueue, coalescer: StreamEventCoalescer,
                   frames: seq<Frame>, ghost arrived: seq<Value>)
    returns (frames': seq<Frame>)
    requires queue.items != [] && coalescer.deltaParts == []
    requires Faithful(render, frames, queue.items, arrived)
    modifies queue, coalescer
    ensures coalescer.deltaParts == [] && |queue.items| < |old(queue.items)|
    ensures Heartbeats(frames') == Heartbeats(frames)
    ensures Faithful(render, frames', queue.items, arrived)
  {
    var raw := queue.items[0];
    queue.items := queue.items[1..];
    assert [raw] + queue.items == old(queue.items);
    var batch := CollectReady(render, raw, queue, coalescer);
    FaithfulBatch(render, frames, old(queue.items), arrived, batch, queue.items);
    HeartbeatsConcat(frames, AsFrames(batch));
    NoHeartbeats(batch);
    frames' := frames + AsFrames(batch);
  }

  method EmitAll(render: Value -> string, queue: StreamQueue, coalescer: StreamEventCoalescer,
                 frames: seq<Frame>, ghost arrived: seq<Value>)
    returns (frames': seq<Frame>)
    requires coalescer.deltaParts == []
    requires Faithful(render, frames, queue.items, arrived)
    modifies queue, coalescer
    ensures coalescer.deltaParts == [] && queue.items == [] && Heartbeats(frames') == Heartbeats(frames)
    ensures Faithful(render, frames', [], arrived)
  {
    frames' := frames;
    while queue.items != []
      invariant Faithful(render, frames', queue.items, arrived)
      invariant coalescer.deltaParts == [] && Heartbeats(frames') == Heartbeats(frames)
      decreases |queue.items|
    {
      frames' := EmitBatch(render, queue, coalescer, frames', arrived);
    }
  }

  function Heartbeats(frames: seq<Frame>): nat {
    if frames == [] then 0 else (if frames[0].Heartbeat? then 1 else 0) + Heartbeats(frames[1..])
  }

  lemma {:induction false} HeartbeatsConcat(a: seq<Frame>, b: seq<Frame>)
    ensures Heartbeats(a + b) == Heartbeats(a) + Heartbeats(b)
  {
    if a == [] {
      assert a + b == b;
    } else {
      assert (a + b)[1..] == a[1..] + b;
      HeartbeatsConcat(a[1..], b);
    }
  }

  lemma {:induction false} NoHeartbeats(events: seq<Object>)
    ensures Heartbeats(AsFrames(events)) == 0
  {
    if events != [] {
      assert AsFrames(events)[1..] == AsFrames(events[1..]);
      NoHeartbeats(events[1..]);
    }
  }

  /** The waits in which nothing arrived. */
  function Idle(schedule: seq<Tick>): nat {
    if schedule == [] then 0
    else Idle(schedule[..|schedule| - 1]) + if schedule[|schedule| - 1].arrivals == [] then 1 else 0
  }

  lemma IdleStep(schedule: seq<Tick>, used: nat)
    requires used < |schedule|
    ensures Idle(schedule[..used + 1]) == Idle(schedule[..used]) + if schedule[used].arrivals == [] then 1 else 0
  {
    assert schedule[..used + 1][..used] == schedule[..used];
  }

  lemma OneHeartbeat()
    ensures Heartbeats([Heartbeat]) == 1
  {
    assert [Heartbeat][1..] == [];
  }

  /** Waits for events until the producer is done, or until the consumer goes away, which is when the schedule
      runs out. */
  method WaitForEvents(render: Value -> string, queue: StreamQueue, coalescer: StreamEventCoalescer,
                       schedule: seq<Tick>)
    returns (frames: seq<Frame>, used: nat, done: bool)
    requires coalescer.deltaParts == []
    modifies queue, coalescer
    ensures used <= |schedule| && coalescer.deltaParts == []
    ensures if done then exists i | 0 <= i < used :: schedule[i].done else used == |schedule|
    ensures Heartbeats(frames) <= Idle(schedule[..used])
    ensures used <= Heartbeats(frames) + |old(queue.items) + Arrivals(schedule[..used])| - |queue.items|
                    + if done then 1 else 0
    ensures Faithful(render, frames, queue.items, old(queue.items) + Arrivals(schedule[..used]))
  {
    frames, used, done := [], 0, false;
    ghost var arrived := queue.items;
    assert arrived == queue.items + Arrivals(schedule[..0]);
    while !(done && queue.items == [])
      invariant used <= |schedule|
      invariant done ==> exists i | 0 <= i < used :: schedule[i].done
      invariant Heartbeats(frames) <= Idle(schedule[..used])
      invariant used <= Heartbeats(frames) + |arrived| - |queue.items|
      invariant arrived == old(queue.items) + Arrivals(schedule[..used])
      invariant Faithful(render, frames, queue.items, arrived)
      invariant coalescer.deltaParts == []
      decreases |schedule| - used
    {
      if used == |schedule| {
        done := false;
        return;
      }
      var tick := schedule[used];
      ArrivalsStep(old(queue.items), schedule, used);
      IdleStep(schedule, used);
      FaithfulArrivals(render, frames, queue.items, arrived, tick.arrivals);
      queue.items := queue.items + tick.arrivals;
      arrived := arrived + tick.arrivals;
      done := done || tick.done;
      used := used + 1;
      if queue.items != [] && !(done && tick.doneFirst) {
        frames := EmitBatch(render, queue, coalescer, frames, arrived);
      } else if done {
        return;
      } else {
        FaithfulHeartbeat(render, frames, queue.items, arrived);
        HeartbeatsConcat(frames, [Heartbeat]);
        OneHeartbeat();
        frames := frames + [Heartbeat];
      }
    }
  }

  /** The whole generator. `late` arrives while it yields once to the event loop before its last drain. */
  method IterChatStreamEvents(render: Value -> string, queue: StreamQueue, coalescer: StreamEventCoalescer,
                              schedule: seq<Tick>, late: seq<Value>)
    returns (frames: seq<Frame>, used: nat, completed: bool, lastFlush: Option<Object>)
    requires coalescer.deltaParts == []
    modifies queue, coalescer
    ensures used <= |schedule|
    ensures if completed then exists i | 0 <= i < used :: schedule[i].done else used == |schedule|
    ensures Heartbeats(frames) <= Idle(schedule[..used])
    ensures !completed ==> Faithful(render, frames, queue.items, old(queue.items) + Arrivals(schedule[..used]))
    ensures completed ==> queue.items == []
    ensures completed ==> Faithful(render, frames, [], old(queue.items) + Arrivals(schedule[..used]) + late)
    ensures coalescer.deltaParts == [] && lastFlush == None
  {
    frames, used, completed := WaitForEvents(render, queue, coalescer, schedule);
    lastFlush := None;
    if completed {
      ghost var arrived := old(queue.items) + Arrivals(schedule[..used]);
      FaithfulArrivals(render, frames, queue.items, arrived, late);
      queue.items := queue.items + late;
      frames := EmitAll(render, queue, coalescer, frames, arrived + late);
      lastFlush := coalescer.Flush(render);
      match lastFlush {
        case None =>
        case Some(delta) => frames := frames + [Payload(delta)];
      }
    }
  }

  // ---- On the wire

  /** A client that parses any chunking of the printed frames reads exactly the normalised input. */
  lemma ClientReadsInput(render: Value -> string, frames: seq<Frame>, arrived: seq<Value>,
                         json: string -> Sse.Json<Object>, dumps: Object -> string, chunks: seq<seq<Utf8.Byte>>)
    requires Faithful(render, frames, [], arrived)
    requires forall e | e in Payloads(frames) :: Sse.Printable(json, dumps, e)
    requires Flatten(chunks) == Utf8.EncodeAll(Sse.SseStream(dumps, Payloads(frames)))
    ensures Sse.Chunked(json, chunks).status == Sse.Ended
    ensures Meaning(render, Values(Sse.Chunked(json, chunks).events)) == RawMeaning(render, arrived)
  {
    var events := Payloads(frames);
    Sse.PrintParseRoundTrip(json, dumps, events, chunks);
    ValuesOfEvents(dumps, events);
    assert RawMeaning(render, []) == [];
    assert Meaning(render, events) + [] == Meaning(render, events);
  }

  function Values(events: seq<Sse.Event<Object>>): seq<Object> {
    seq(|events|, i requires 0 <= i < |events| => events[i].value)
  }

  lemma ValuesOfEvents(dumps: Object -> string, events: seq<Object>)
    ensures Values(Sse.EventsOf(dumps, events)) == events
  {
  }
}
