/** The incremental server-sent-events parser of the reply-route adapter, and the printer of the chat API. */
module SseParser {
  import opened Text
  import opened Utf8

  /** What `json.loads` makes of a payload. */
  datatype Json<+T> = Object(value: T) | NotObject | Malformed

  /** An event carries its stripped payload text and the decoded object. */
  datatype Event<+T> = Event(data: string, value: T)

  datatype Status = Running | Ended | JsonError | NotMappingError | DecodeError

  datatype Outcome<+T> = Outcome(events: seq<Event<T>>, status: Status) {
    function Behind(earlier: seq<Event<T>>): Outcome<T> {
      Outcome(earlier + events, status)
    }
  }

  // ---- Reference: lines, blocks separated by blank lines, one event per block

  predicate Newline(c: char) {
    c == '\n'
  }

  function DropCarriageReturns(line: string): string {
    if line != "" && Last(line) == '\r' then DropCarriageReturns(Front(line)) else line
  }

  predicate Blank(line: string) {
    DropCarriageReturns(line) == ""
  }

  /** The payload of a `data:` line, as a list of length at most one. */
  function Payload(line: string): seq<string> {
    var s := DropCarriageReturns(line);
    if |s| >= 5 && s[..5] == "data:" then [DropLeft(s[5..])] else []
  }

  function Payloads(lines: seq<string>): seq<string> {
    if lines == [] then [] else Payload(lines[0]) + Payloads(lines[1..])
  }

  function Join(parts: seq<string>): string {
    if parts == [] then "" else if |parts| == 1 then parts[0] else parts[0] + "\n" + Join(parts[1..])
  }

  datatype Flushed<+T> = Nothing | Yield(event: Event<T>) | Error(status: Status)

  function Flush<T>(json: string -> Json<T>, dataLines: seq<string>): Flushed<T> {
    var data := Strip(Join(dataLines));
    if dataLines == [] || data == "" || data == "[DONE]" then Nothing
    else
      match json(data)
      case Malformed => Error(JsonError)
      case NotObject => Error(NotMappingError)
      case Object(value) => Yield(Event(data, value))
  }

  /** The events of the blocks up to the first one that fails; `open` precedes the first block. */
  function Collect<T>(json: string -> Json<T>, open: seq<string>, blocks: seq<seq<string>>): Outcome<T>
    decreases |blocks|
  {
    if blocks == [] then Outcome([], Ended)
    else
      match Flush(json, open + Payloads(blocks[0]))
      case Error(status) => Outcome([], status)
      case Nothing => Collect(json, [], blocks[1..])
      case Yield(event) =>
        Collect(json, [], blocks[1..]).Behind([event])
  }

  function Parse<T>(json: string -> Json<T>, text: string): Outcome<T> {
    Collect(json, [], Split(Split(text, Newline), Blank))
  }

  // ---- The incremental state

  datatype State<+T> = State(dataLines: seq<string>, events: seq<Event<T>>, status: Status)

  function FlushState<T>(json: string -> Json<T>, st: State<T>): State<T> {
    match Flush(json, st.dataLines)
    case Nothing => State([], st.events, st.status)
    case Yield(event) => State([], st.events + [event], st.status)
    case Error(status) => State([], st.events, status)
  }

  function TakeLine<T>(json: string -> Json<T>, st: State<T>, line: string): State<T> {
    if st.status != Running then st
    else if Blank(line) then FlushState(json, st)
    else st.(dataLines := st.dataLines + Payload(line))
  }

  function TakeLines<T>(json: string -> Json<T>, st: State<T>, lines: seq<string>): State<T>
    decreases |lines|
  {
    if lines == [] then st else TakeLines(json, TakeLine(json, st, lines[0]), lines[1..])
  }

  /** The state once every complete line of `text` has been taken. */
  function After<T>(json: string -> Json<T>, text: string): State<T> {
    TakeLines(json, State([], [], Running), Front(Split(text, Newline)))
  }

  /** End of input: the unterminated line is still a line and the open block is flushed. */
  function Finish<T>(json: string -> Json<T>, st: State<T>, rest: string): Outcome<T> {
    if st.status != Running then Outcome(st.events, st.status)
    else
      var last := FlushState(json, st.(dataLines := st.dataLines + Payload(rest)));
      Outcome(last.events, if last.status == Running then Ended else last.status)
  }

  /** The run stops because the bytes after `text` do not decode. */
  function Interrupted<T>(json: string -> Json<T>, text: string): Outcome<T> {
    var st := After(json, text);
    Outcome(st.events, if st.status == Running then DecodeError else st.status)
  }

  /** The text of the longest run of whole chunks that decodes. */
  function Available(d: ValidDecoder, chunks: seq<seq<Byte>>): string
    decreases |chunks|
  {
    if chunks == [] then ""
    else
      match Decode(d, chunks[0])
      case Bad(_) => ""
      case Good(text, next) => text + Available(next, chunks[1..])
  }

  /** What the parser yields for one chunking, stated over the whole byte stream wherever that is possible. */
  function Chunked<T>(json: string -> Json<T>, chunks: seq<seq<Byte>>): Outcome<T> {
    match Decode(Idle, Flatten(chunks))
    case Good(text, Idle) => Parse(json, text)
    case Good(text, _) => Interrupted(json, text)
    case Bad(_) => Interrupted(json, Available(Idle, chunks))
  }

  // ---- Line folding

  lemma {:induction false} TakeLinesConcat<T>(json: string -> Json<T>, st: State<T>, a: seq<string>, b: seq<string>)
    ensures TakeLines(json, st, a + b) == TakeLines(json, TakeLines(json, st, a), b)
    decreases |a|
  {
    if a == [] {
      assert a + b == b;
    } else {
      assert (a + b)[1..] == a[1..] + b;
      TakeLinesConcat(json, TakeLine(json, st, a[0]), a[1..], b);
    }
  }

  lemma {:induction false} TakeLinesStopped<T>(json: string -> Json<T>, st: State<T>, lines: seq<string>)
    requires st.status != Running
    ensures TakeLines(json, st, lines) == st
    decreases |lines|
  {
    if lines != [] {
      TakeLinesStopped(json, st, lines[1..]);
    }
  }

  lemma {:induction false} TakeLinesGrows<T>(json: string -> Json<T>, st: State<T>, lines: seq<string>)
    ensures st.events <= TakeLines(json, st, lines).events
    ensures TakeLines(json, st, lines).status == Running ==> st.status == Running
    decreases |lines|
  {
    if lines != [] {
      TakeLinesGrows(json, TakeLine(json, st, lines[0]), lines[1..]);
    }
  }

  /** Taking more text continues from the lines already taken. */
  lemma AfterConcat<T>(json: string -> Json<T>, a: string, b: string)
    ensures var rest := Last(Split(a, Newline));
            && After(json, a + b) == TakeLines(json, After(json, a), Front(Split(rest + b, Newline)))
            && Last(Split(a + b, Newline)) == Last(Split(rest + b, Newline))
  {
    SplitConcat(a, b, Newline);
    var front, rest := Front(Split(a, Newline)), Last(Split(a, Newline));
    assert Front(Split(a + b, Newline)) == front + Front(Split(rest + b, Newline));
    TakeLinesConcat(json, State([], [], Running), front, Front(Split(rest + b, Newline)));
  }

  /** Text that arrives later never takes an event back. */
  lemma AfterGrows<T>(json: string -> Json<T>, a: string, b: string)
    ensures After(json, a).events <= After(json, a + b).events
    ensures After(json, a + b).status == Running ==> After(json, a).status == Running
    ensures After(json, a).status != Running ==> After(json, a + b) == After(json, a)
  {
    AfterConcat(json, a, b);
    var more := Front(Split(Last(Split(a, Newline)) + b, Newline));
    TakeLinesGrows(json, After(json, a), more);
    if After(json, a).status != Running {
      TakeLinesStopped(json, After(json, a), more);
    }
  }

  lemma PayloadsCons(line: string, lines: seq<string>)
    ensures Payloads([line] + lines) == Payload(line) + Payloads(lines)
  {
    assert ([line] + lines)[1..] == lines;
  }

  lemma BehindTwice<T>(o: Outcome<T>, a: seq<Event<T>>, b: seq<Event<T>>)
    ensures o.Behind(b).Behind(a) == o.Behind(a + b)
  {
    assert a + (b + o.events) == (a + b) + o.events;
  }

  /** Taking lines one by one and flushing at blank lines gives the events of the blocks. */
  lemma {:induction false} FinishCollects<T>(json: string -> Json<T>, st: State<T>, lines: seq<string>)
    requires st.status == Running && lines != []
    ensures Finish(json, TakeLines(json, st, Front(lines)), Last(lines))
         == Collect(json, st.dataLines, Split(lines, Blank)).Behind(st.events)
    decreases |lines|
  {
    var line, rest := lines[0], lines[1..];
    if rest == [] {
      assert Front(lines) == [] && Split(rest, Blank) == [[]];
      if Blank(line) {
        FinishBlank(json, st, line);
      } else {
        FinishLine(json, st, line);
      }
    } else {
      assert Front(lines) == [line] + Front(rest) && Front(lines)[1..] == Front(rest);
      var st1 := TakeLine(json, st, line);
      if st1.status != Running {
        TakeLinesStopped(json, st1, Front(rest));
      } else {
        FinishCollects(json, st1, rest);
      }
      if Blank(line) {
        BlankThen(json, st, line, Split(rest, Blank));
      } else {
        CollectLine(json, st.dataLines, line, Split(rest, Blank));
      }
    }
  }

  lemma BlankThen<T>(json: string -> Json<T>, st: State<T>, line: string, blocks: seq<seq<string>>)
    requires st.status == Running && Blank(line)
    ensures var st1 := TakeLine(json, st, line);
            Collect(json, st.dataLines, [[]] + blocks).Behind(st.events) ==
              (if st1.status != Running then Outcome(st1.events, st1.status)
               else Collect(json, st1.dataLines, blocks).Behind(st1.events))
  {
    CollectBlank(json, st.dataLines, blocks);
    match Flush(json, st.dataLines)
    case Error(_) =>
    case Nothing =>
    case Yield(event) => BehindTwice(Collect(json, [], blocks), st.events, [event]);
  }

  lemma FinishBlank<T>(json: string -> Json<T>, st: State<T>, line: string)
    requires st.status == Running && Blank(line)
    ensures Finish(json, st, line) == Collect(json, st.dataLines, [[]] + [[]]).Behind(st.events)
  {
    BlankThen(json, st, line, [[]]);
    assert st.dataLines + Payload(line) == st.dataLines;
    var blank: seq<string> := [];
    assert [blank] + [] == [blank];
    CollectBlank(json, [], []);
  }

  lemma FinishLine<T>(json: string -> Json<T>, st: State<T>, line: string)
    requires st.status == Running
    ensures Finish(json, st, line) == Collect(json, st.dataLines, [[line] + []] + []).Behind(st.events)
  {
    var blank: seq<string> := [];
    assert [blank][1..] == [] && [blank] + [] == [blank];
    CollectLine(json, st.dataLines, line, [blank]);
    CollectBlank(json, st.dataLines + Payload(line), []);
  }

  lemma CollectBlank<T>(json: string -> Json<T>, open: seq<string>, blocks: seq<seq<string>>)
    ensures Collect(json, open, [[]] + blocks) ==
            match Flush(json, open)
            case Error(status) => Outcome([], status)
            case Nothing => Collect(json, [], blocks)
            case Yield(event) => Collect(json, [], blocks).Behind([event])
  {
    assert ([[]] + blocks)[1..] == blocks;
    assert open + Payloads([]) == open;
  }

  lemma CollectLine<T>(json: string -> Json<T>, open: seq<string>, line: string, blocks: seq<seq<string>>)
    requires blocks != []
    ensures Collect(json, open, [[line] + blocks[0]] + blocks[1..])
         == Collect(json, open + Payload(line), blocks)
  {
    PayloadsCons(line, blocks[0]);
    assert open + (Payload(line) + Payloads(blocks[0])) == (open + Payload(line)) + Payloads(blocks[0]);
    assert ([[line] + blocks[0]] + blocks[1..])[1..] == blocks[1..];
  }

  /** Stopping at the end of `text` gives the reference result. */
  lemma FinishIsParse<T>(json: string -> Json<T>, text: string)
    ensures Finish(json, After(json, text), Last(Split(text, Newline))) == Parse(json, text)
  {
    FinishCollects(json, State([], [], Running), Split(text, Newline));
  }

  // ---- The parser

  function FirstNewline(text: string): (i: nat)
    ensures i <= |text|
    ensures i < |text| ==> text[i] == '\n'
    ensures forall j | 0 <= j < i :: text[j] != '\n'
  {
    if text == "" || text[0] == '\n' then 0 else 1 + FirstNewline(text[1..])
  }

  /** Takes the complete lines of `buffer`; what remains has no newline. */
  method DrainLines<T>(json: string -> Json<T>, buffer: string, st: State<T>)
    returns (rest: string, after: State<T>)
    requires st.status == Running
    ensures after == TakeLines(json, st, Front(Split(buffer, Newline)))
    ensures after.status == Running ==> rest == Last(Split(buffer, Newline))
  {
    rest, after := buffer, st;
    while FirstNewline(rest) < |rest|
      invariant after.status == Running
      invariant TakeLines(json, after, Front(Split(rest, Newline)))
                == TakeLines(json, st, Front(Split(buffer, Newline)))
      invariant Last(Split(rest, Newline)) == Last(Split(buffer, Newline))
      decreases |rest|
    {
      var cut := FirstNewline(rest);
      var line := rest[..cut];
      CutLine(json, after, rest, cut);
      rest := rest[cut + 1..];
      if Blank(line) {
        match Flush(json, after.dataLines) {
          case Nothing =>
            after := State([], after.events, Running);
          case Yield(event) =>
            after := State([], after.events + [event], Running);
          case Error(status) =>
            after := State([], after.events, status);
            TakeLinesStopped(json, after, Front(Split(rest, Newline)));
            return;
        }
      } else {
        after := State(after.dataLines + Payload(line), after.events, Running);
      }
    }
    SplitNone(rest, Newline);
  }

  /** Takes the unterminated last line and flushes the open block. */
  method EndInput<T>(json: string -> Json<T>, st: State<T>, rest: string) returns (outcome: Outcome<T>)
    requires st.status == Running
    ensures outcome == Finish(json, st, rest)
  {
    var dataLines := st.dataLines;
    assert dataLines + Payload("") == dataLines;
    if rest != "" {
      dataLines := dataLines + Payload(rest);
    }
    match Flush(json, dataLines) {
      case Nothing => outcome := Outcome(st.events, Ended);
      case Yield(event) => outcome := Outcome(st.events + [event], Ended);
      case Error(status) => outcome := Outcome(st.events, status);
    }
  }

  /** The events yielded for the chunks, and how the generator ends. */
  method IterSse<T>(json: string -> Json<T>, chunks: seq<seq<Byte>>) returns (outcome: Outcome<T>)
    ensures outcome == Chunked(json, chunks)
  {
    var decoder: ValidDecoder := Idle;
    var buffer := "";
    var st: State<T> := State([], [], Running);
    ghost var text := "";
    NothingRead(chunks);
    for i := 0 to |chunks|
      invariant ReadSoFar(chunks, i, text, decoder)
      invariant After(json, text) == st && st.status == Running
      invariant buffer == Last(Split(text, Newline))
    {
      ReadChunk(chunks, i, text, decoder);
      match Decode(decoder, chunks[i]) {
        case Bad(_) =>
          return Outcome(st.events, DecodeError);
        case Good(piece, next) =>
          AfterConcat(json, text, piece);
          buffer, st := DrainLines(json, buffer + piece, st);
          text, decoder := text + piece, next;
      }
      if st.status != Running {
        StoppedForGood(json, text, chunks, decoder, i + 1);
        return Outcome(st.events, st.status);
      }
    }
    ReadAll(chunks, text, decoder);
    if decoder != Idle {
      return Outcome(st.events, DecodeError);
    }
    FinishIsParse(json, text);
    outcome := EndInput(json, st, buffer);
  }

  /** The first `i` chunks decode to `text` and leave the decoder in state `d`. */
  ghost predicate ReadSoFar(chunks: seq<seq<Byte>>, i: nat, text: string, d: ValidDecoder)
    requires i <= |chunks|
  {
    && Decode(Idle, Flatten(chunks)) == Decode(d, Flatten(chunks[i..])).After(text)
    && Available(Idle, chunks) == text + Available(d, chunks[i..])
  }

  lemma NothingRead(chunks: seq<seq<Byte>>)
    ensures ReadSoFar(chunks, 0, "", Idle)
  {
    assert chunks[0..] == chunks;
    var r := Decode(Idle, Flatten(chunks));
    assert "" + r.text == r.text;
  }

  lemma ReadChunk(chunks: seq<seq<Byte>>, i: nat, text: string, d: ValidDecoder)
    requires i < |chunks| && ReadSoFar(chunks, i, text, d)
    ensures match Decode(d, chunks[i])
            case Bad(_) => Decode(Idle, Flatten(chunks)).Bad? && Available(Idle, chunks) == text
            case Good(piece, next) => ReadSoFar(chunks, i + 1, text + piece, next)
  {
    assert chunks[i..][1..] == chunks[i + 1..] && chunks[i..][0] == chunks[i];
    DecodeConcat(d, chunks[i], Flatten(chunks[i + 1..]));
    match Decode(d, chunks[i])
    case Bad(_) =>
      assert text + "" == text;
    case Good(piece, next) =>
      var rest, more := Decode(next, Flatten(chunks[i + 1..])).text, Available(next, chunks[i + 1..]);
      assert text + (piece + rest) == (text + piece) + rest;
      assert text + (piece + more) == (text + piece) + more;
  }

  lemma ReadAll(chunks: seq<seq<Byte>>, text: string, d: ValidDecoder)
    requires ReadSoFar(chunks, |chunks|, text, d)
    ensures Decode(Idle, Flatten(chunks)) == Good(text, d)
  {
    assert chunks[|chunks|..] == [];
    assert text + "" == text;
  }

  lemma CutLine<T>(json: string -> Json<T>, st: State<T>, buffer: string, cut: nat)
    requires cut < |buffer| && cut == FirstNewline(buffer)
    ensures var pieces := Split(buffer[cut + 1..], Newline);
            && TakeLines(json, st, Front(Split(buffer, Newline)))
            == TakeLines(json, TakeLine(json, st, buffer[..cut]), Front(pieces))
            && Last(Split(buffer, Newline)) == Last(pieces)
  {
    assert buffer == buffer[..cut] + ['\n'] + buffer[cut + 1..];
    SplitFirst(buffer[..cut], '\n', buffer[cut + 1..], Newline);
    var pieces := Split(buffer[cut + 1..], Newline);
    assert Front([buffer[..cut]] + pieces) == [buffer[..cut]] + Front(pieces);
    assert ([buffer[..cut]] + Front(pieces))[1..] == Front(pieces);
  }

  /** A payload that fails to decode ends the run in the same way whatever bytes follow. */
  lemma StoppedForGood<T>(json: string -> Json<T>, text: string, chunks: seq<seq<Byte>>, decoder: ValidDecoder, i: nat)
    requires i <= |chunks|
    requires After(json, text).status != Running
    requires ReadSoFar(chunks, i, text, decoder)
    ensures Chunked(json, chunks) == Outcome(After(json, text).events, After(json, text).status)
  {
    var more := Decode(decoder, Flatten(chunks[i..])).text;
    AfterGrows(json, text, more);
    AfterGrows(json, text, Available(decoder, chunks[i..]));
    FinishIsParse(json, text + more);
  }

  // ---- Chunk boundaries

  /** Well-formed input is parsed as the line-splitting reference parses it, whatever the chunking. */
  lemma ChunkBoundariesIrrelevant<T>(json: string -> Json<T>, chunks: seq<seq<Byte>>, text: string)
    requires Flatten(chunks) == EncodeAll(text)
    ensures Chunked(json, chunks) == Parse(json, text)
  {
    DecodeEncodeAll(text);
  }

  /** What decodes chunk by chunk is a prefix of what decodes byte by byte. */
  lemma {:induction false} AvailableIsPrefix(d: ValidDecoder, chunks: seq<seq<Byte>>)
    ensures Available(d, chunks) <= Decode(d, Flatten(chunks)).text
    decreases |chunks|
  {
    if chunks != [] {
      DecodeConcat(d, chunks[0], Flatten(chunks[1..]));
      match Decode(d, chunks[0])
      case Bad(_) =>
      case Good(_, next) => AvailableIsPrefix(next, chunks[1..]);
    }
  }

  function Singly(bytes: seq<Byte>): (chunks: seq<seq<Byte>>)
    ensures Flatten(chunks) == bytes
  {
    if bytes == [] then []
    else
      assert ([[bytes[0]]] + Singly(bytes[1..]))[1..] == Singly(bytes[1..]);
      [[bytes[0]]] + Singly(bytes[1..])
  }

  /** One byte per chunk makes everything before the bad byte available. */
  lemma {:induction false} SinglyAvailable(d: ValidDecoder, bytes: seq<Byte>)
    ensures Available(d, Singly(bytes)) == Decode(d, bytes).text
    decreases |bytes|
  {
    if bytes != [] {
      var chunks := Singly(bytes);
      assert chunks[1..] == Singly(bytes[1..]);
      assert [bytes[0]][1..] == [];
      match Feed(d, bytes[0])
      case Invalid =>
      case More(next) =>
        SinglyAvailable(next, bytes[1..]);
        assert Decode(d, chunks[0]) == Good("", next);
      case Emit(c) =>
        SinglyAvailable(Idle, bytes[1..]);
        assert Decode(d, chunks[0]) == Good([c], Idle);
    }
  }

  ghost predicate ChunkingIrrelevant<T>(json: string -> Json<T>, bytes: seq<Byte>) {
    forall a: seq<seq<Byte>>, b: seq<seq<Byte>> | Flatten(a) == bytes && Flatten(b) == bytes ::
      Chunked(json, a) == Chunked(json, b)
  }

  /** Chunking is irrelevant for a byte stream exactly when it has no ill-formed byte, or when the text before
      that byte completes no event and fails in no payload: an ill-formed byte discards the events that were
      completed earlier in its own chunk. */
  lemma ChunkingIrrelevantIff<T>(json: string -> Json<T>, bytes: seq<Byte>)
    ensures ChunkingIrrelevant(json, bytes)
       <==> Decode(Idle, bytes).Good?
            || Interrupted(json, Decode(Idle, bytes).text) == Outcome([], DecodeError)
  {
    var whole := Decode(Idle, bytes);
    if whole.Bad? {
      OneChunkShowsNothing(json, bytes);
      SinglyAvailable(Idle, bytes);
      assert Chunked(json, Singly(bytes)) == Interrupted(json, whole.text);
      if ChunkingIrrelevant(json, bytes) {
        assert Chunked(json, [bytes]) == Chunked(json, Singly(bytes));
      }
      if Interrupted(json, whole.text) == Outcome([], DecodeError) {
        forall a: seq<seq<Byte>> | Flatten(a) == bytes
          ensures Chunked(json, a) == Outcome([], DecodeError)
        {
          SilentPrefix(json, a);
        }
      }
    }
  }

  lemma OneChunkShowsNothing<T>(json: string -> Json<T>, bytes: seq<Byte>)
    requires Decode(Idle, bytes).Bad?
    ensures Flatten([bytes]) == bytes && Chunked(json, [bytes]) == Outcome([], DecodeError)
  {
    assert [bytes][1..] == [] && bytes + [] == bytes;
    assert Available(Idle, [bytes]) == "";
    assert Interrupted(json, "") == Outcome([], DecodeError);
  }

  lemma SilentPrefix<T>(json: string -> Json<T>, chunks: seq<seq<Byte>>)
    requires var whole := Decode(Idle, Flatten(chunks));
             whole.Bad? && Interrupted(json, whole.text) == Outcome([], DecodeError)
    ensures Chunked(json, chunks) == Outcome([], DecodeError)
  {
    AvailableIsPrefix(Idle, chunks);
    var text, shown := Decode(Idle, Flatten(chunks)).text, Available(Idle, chunks);
    assert text == shown + text[|shown|..];
    AfterGrows(json, shown, text[|shown|..]);
    AfterNeverDecodeError(json, text);
  }

  lemma {:induction false} TakeLinesNeverDecodeError<T>(json: string -> Json<T>, st: State<T>, lines: seq<string>)
    requires st.status != DecodeError
    ensures TakeLines(json, st, lines).status != DecodeError
    decreases |lines|
  {
    if lines != [] {
      TakeLinesNeverDecodeError(json, TakeLine(json, st, lines[0]), lines[1..]);
    }
  }

  lemma AfterNeverDecodeError<T>(json: string -> Json<T>, text: string)
    ensures After(json, text).status != DecodeError
  {
    TakeLinesNeverDecodeError(json, State([], [], Running), Front(Split(text, Newline)));
  }

  // ---- Printing and parsing

  /** What `json.dumps` guarantees about the text of an object, and `json.loads` about reading it back. */
  ghost predicate Printable<T>(json: string -> Json<T>, dumps: T -> string, value: T) {
    var data := dumps(value);
    && |data| >= 2 && data[0] == '{' && Last(data) == '}'
    && (forall i | 0 <= i < |data| :: data[i] != '\n')
    && json(data) == Object(value)
  }

  function SseData<T>(dumps: T -> string, value: T): string {
    "data: " + dumps(value) + "\n\n"
  }

  function SseStream<T>(dumps: T -> string, values: seq<T>): string {
    if values == [] then "" else SseData(dumps, values[0]) + SseStream(dumps, values[1..])
  }

  function EventsOf<T>(dumps: T -> string, values: seq<T>): seq<Event<T>> {
    seq(|values|, i requires 0 <= i < |values| => Event(dumps(values[i]), values[i]))
  }

  lemma PayloadOfData(data: string)
    requires |data| >= 2 && data[0] == '{' && Last(data) == '}'
    ensures Payload("data: " + data) == [data] && !Blank("data: " + data)
    ensures Strip(Join([data])) == data
  {
    var line := "data: " + data;
    assert Last(line) == '}' && DropCarriageReturns(line) == line;
    assert line[5..] == " " + data && line[5..][1..] == data;
    StripTrimmed(data);
  }

  lemma ParseEmpty<T>(json: string -> Json<T>)
    ensures Parse(json, "") == Outcome([], Ended)
  {
    var blank: seq<string> := [];
    assert [""][1..] == [] && Split([""], Blank) == [blank] + [blank];
    CollectBlank(json, [], [blank]);
    CollectBlank(json, [], []);
    assert [blank] + [] == [blank];
  }

  lemma CollectPrinted<T>(json: string -> Json<T>, dumps: T -> string, value: T, blocks: seq<seq<string>>)
    requires Printable(json, dumps, value)
    ensures Collect(json, [], [["data: " + dumps(value)] + []] + blocks)
         == Collect(json, [], blocks).Behind([Event(dumps(value), value)])
  {
    var data := dumps(value);
    PayloadOfData(data);
    assert ([[]] + blocks)[1..] == blocks;
    CollectLine(json, [], "data: " + data, [[]] + blocks);
    assert [] + Payload("data: " + data) == [data];
    CollectBlank(json, [data], blocks);
  }

  lemma ParseOnePrinted<T>(json: string -> Json<T>, dumps: T -> string, value: T, rest: string)
    requires Printable(json, dumps, value)
    ensures Parse(json, SseData(dumps, value) + rest) == Parse(json, rest).Behind([Event(dumps(value), value)])
  {
    PayloadOfData(dumps(value));
    PrintedLines(dumps(value), rest);
    CollectPrinted(json, dumps, value, Split(Split(rest, Newline), Blank));
  }

  lemma EventsOfCons<T>(dumps: T -> string, values: seq<T>)
    requires values != []
    ensures EventsOf(dumps, values) == [Event(dumps(values[0]), values[0])] + EventsOf(dumps, values[1..])
  {
  }

  /** The printed events come back as one block each. */
  lemma {:induction false} ParsePrinted<T>(json: string -> Json<T>, dumps: T -> string, values: seq<T>)
    requires forall v | v in values :: Printable(json, dumps, v)
    ensures Parse(json, SseStream(dumps, values)) == Outcome(EventsOf(dumps, values), Ended)
  {
    if values == [] {
      ParseEmpty(json);
    } else {
      ParsePrinted(json, dumps, values[1..]);
      ParseOnePrinted(json, dumps, values[0], SseStream(dumps, values[1..]));
      EventsOfCons(dumps, values);
    }
  }

  lemma PrintedLines(data: string, rest: string)
    requires forall i | 0 <= i < |data| :: data[i] != '\n'
    requires !Blank("data: " + data)
    ensures Split(Split("data: " + data + "\n\n" + rest, Newline), Blank)
         == [["data: " + data] + []] + Split(Split(rest, Newline), Blank)
  {
    var line := "data: " + data;
    assert line + "\n\n" + rest == line + ['\n'] + ("" + ['\n'] + rest);
    SplitFirst(line, '\n', "" + ['\n'] + rest, Newline);
    SplitFirst("", '\n', rest, Newline);
    var tail := Split(rest, Newline);
    assert ([line] + ([""] + tail))[1..] == [""] + tail && ([""] + tail)[1..] == tail;
    assert Split([""] + tail, Blank) == [[]] + Split(tail, Blank);
  }

  /** Printing a sequence of events, encoding the text and parsing any chunking of the bytes returns the sequence. */
  lemma PrintParseRoundTrip<T>(json: string -> Json<T>, dumps: T -> string, values: seq<T>, chunks: seq<seq<Byte>>)
    requires forall v | v in values :: Printable(json, dumps, v)
    requires Flatten(chunks) == EncodeAll(SseStream(dumps, values))
    ensures Chunked(json, chunks) == Outcome(EventsOf(dumps, values), Ended)
  {
    ParsePrinted(json, dumps, values);
    ChunkBoundariesIrrelevant(json, chunks, SseStream(dumps, values));
  }

  lemma PrintedIsDelivered<T>(json: string -> Json<T>, dumps: T -> string, value: T)
    requires Printable(json, dumps, value)
    ensures After(json, SseData(dumps, value)) == State([], [Event(dumps(value), value)], Running)
  {
    var data := dumps(value);
    var line := "data: " + data;
    PayloadOfData(data);
    assert SseData(dumps, value) == line + ['\n'] + ("" + ['\n'] + "");
    SplitFirst(line, '\n', "" + ['\n'] + "", Newline);
    SplitFirst("", '\n', "", Newline);
    assert Split(SseData(dumps, value), Newline) == [line, "", ""];
    assert Front([line, "", ""]) == [line, ""] && [line, ""][1..] == [""] && [""][1..] == [];
    var start: State<T> := State([], [], Running);
    assert [] + Payload(line) == [data];
    assert TakeLine(json, start, line) == State([data], [], Running);
    assert TakeLines(json, start, [line, ""]) == TakeLine(json, State([data], [], Running), "");
    assert [] + [Event(data, value)] == [Event(data, value)];
  }

  /** After any printed events, an ill-formed byte makes the result depend on the chunking. */
  lemma IllFormedByteMakesChunkingMatter<T>(json: string -> Json<T>, dumps: T -> string, values: seq<T>, bad: Byte)
    requires values != [] && forall v | v in values :: Printable(json, dumps, v)
    requires Feed(Idle, bad) == Invalid
    ensures !ChunkingIrrelevant(json, EncodeAll(SseStream(dumps, values)) + [bad])
  {
    var text := SseStream(dumps, values);
    DecodeEncodeAll(text);
    DecodeConcat(Idle, EncodeAll(text), [bad]);
    assert text + "" == text;
    PrintedIsDelivered(json, dumps, values[0]);
    AfterGrows(json, SseData(dumps, values[0]), SseStream(dumps, values[1..]));
    ChunkingIrrelevantIff(json, EncodeAll(text) + [bad]);
  }
}
