/** What the event-stream parser makes of the lines a server may send. */
module SseStreams {
  import opened Text
  import opened SseParser

  // ---- Going on from a line boundary

  function Start<T>(): State<T> {
    State([], [], Running)
  }

  /** Takes the lines of `text` and ends the input there. */
  function Continue<T>(json: string -> Json<T>, st: State<T>, text: string): Outcome<T> {
    var lines := Split(text, Newline);
    Finish(json, TakeLines(json, st, Front(lines)), Last(lines))
  }

  lemma ParseContinues<T>(json: string -> Json<T>, text: string)
    ensures Continue(json, Start(), text) == Parse(json, text)
  {
    FinishIsParse(json, text);
  }

  /** The text ends with a line end, or is empty. */
  predicate WholeLines(text: string) {
    text == "" || Last(text) == '\n'
  }

  lemma {:induction false} LastPieceEmpty(text: string)
    requires WholeLines(text)
    ensures Last(Split(text, Newline)) == ""
  {
    if text != "" {
      var piece := Front(text);
      assert text == piece + ['\n'];
      SplitConcat(piece, ['\n'], Newline);
      var open := Last(Split(piece, Newline));
      SplitConcat(open, ['\n'], Newline);
      LastOfNewline(open);
    }
  }

  lemma {:induction false} LastOfNewline(open: string)
    ensures Last(Split(open + ['\n'], Newline)) == ""
  {
    if open == "" {
      assert open + ['\n'] == ['\n'] && ['\n'][1..] == "";
      assert Split(['\n'], Newline) == [[]] + [[]];
    } else {
      assert (open + ['\n'])[1..] == open[1..] + ['\n'];
      LastOfNewline(open[1..]);
    }
  }

  lemma ParseFrom<T>(json: string -> Json<T>, before: string, text: string)
    requires WholeLines(before)
    ensures Parse(json, before + text) == Continue(json, After(json, before), text)
  {
    LastPieceEmpty(before);
    AfterConcat(json, before, text);
    assert "" + text == text;
    FinishIsParse(json, before + text);
  }

  predicate OneLine(line: string) {
    forall i | 0 <= i < |line| :: line[i] != '\n'
  }

  lemma ContinueLine<T>(json: string -> Json<T>, st: State<T>, line: string, text: string)
    requires OneLine(line)
    ensures Continue(json, st, line + "\n" + text) == Continue(json, TakeLine(json, st, line), text)
  {
    assert line + "\n" + text == line + ['\n'] + text;
    SplitFirst(line, '\n', text, Newline);
    var rest := Split(text, Newline);
    assert Front([line] + rest) == [line] + Front(rest) && ([line] + Front(rest))[1..] == Front(rest);
  }

  // ---- Lines

  /** A line is blank if and only if it holds nothing but carriage returns. */
  lemma {:induction false} BlankIff(line: string)
    ensures Blank(line) <==> forall i | 0 <= i < |line| :: line[i] == '\r'
  {
    if line != "" && Last(line) == '\r' {
      BlankIff(Front(line));
      assert forall i | 0 <= i < |line| :: i == |line| - 1 || line[i] == Front(line)[i];
    } else if line != "" {
      assert line[|line| - 1] != '\r';
    }
  }

  predicate StartsWithData(line: string) {
    |line| >= 5 && line[..5] == "data:"
  }

  lemma {:induction false} DroppedIsPrefix(line: string)
    ensures DropCarriageReturns(line) <= line
  {
    if line != "" && Last(line) == '\r' {
      DroppedIsPrefix(Front(line));
    }
  }

  lemma NoPayload(line: string)
    requires !StartsWithData(line)
    ensures Payload(line) == []
  {
    DroppedIsPrefix(line);
  }

  /**
   * A line that is neither blank nor starts with `data:`, a comment or an event name, say, may stand before any
   * other line, inside a block or between blocks, and changes nothing.
   */
  lemma OtherLinesIgnored<T>(json: string -> Json<T>, before: string, line: string, after: string)
    requires WholeLines(before) && OneLine(line) && !StartsWithData(line)
    requires exists i | 0 <= i < |line| :: line[i] != '\r'
    ensures Parse(json, before + line + "\n" + after) == Parse(json, before + after)
  {
    var st := After(json, before);
    BlankIff(line);
    NoPayload(line);
    assert st.dataLines + [] == st.dataLines;
    assert TakeLine(json, st, line) == st;
    assert before + line + "\n" + after == before + (line + "\n" + after);
    ParseFrom(json, before, line + "\n" + after);
    ContinueLine(json, st, line, after);
    ParseFrom(json, before, after);
  }

  // ---- Blocks

  /** The content of a `data:` line: one line without spaces in front or carriage returns behind. */
  predicate Content(d: string) {
    OneLine(d) && DropLeft(d) == d && (d != "" ==> Last(d) != '\r')
  }

  function DataLines(contents: seq<string>): string {
    if contents == [] then "" else "data: " + contents[0] + "\n" + DataLines(contents[1..])
  }

  lemma DataLine(d: string)
    requires Content(d)
    ensures OneLine("data: " + d) && !Blank("data: " + d) && Payload("data: " + d) == [d]
  {
    var line := "data: " + d;
    assert Last(line) == if d == "" then ' ' else Last(d);
    assert DropCarriageReturns(line) == line;
    assert line[..5] == "data:" && line[5..] == " " + d && line[5..][1..] == d;
  }

  lemma DataLinesCons(contents: seq<string>, text: string)
    requires contents != []
    ensures DataLines(contents) + text == "data: " + contents[0] + "\n" + (DataLines(contents[1..]) + text)
  {
  }

  /** The state with more contents in its open block. */
  function Opened<T>(st: State<T>, contents: seq<string>): State<T> {
    State(st.dataLines + contents, st.events, st.status)
  }

  lemma OpenedTwice<T>(st: State<T>, d: string, rest: seq<string>)
    ensures Opened(Opened(st, [d]), rest) == Opened(st, [d] + rest)
    ensures Opened(st, []) == st
  {
    assert (st.dataLines + [d]) + rest == st.dataLines + ([d] + rest);
    assert st.dataLines + [] == st.dataLines;
  }

  lemma ContinueDataLine<T>(json: string -> Json<T>, st: State<T>, d: string, text: string)
    requires st.status == Running && Content(d)
    ensures Continue(json, st, "data: " + d + "\n" + text) == Continue(json, Opened(st, [d]), text)
  {
    DataLine(d);
    ContinueLine(json, st, "data: " + d, text);
    assert TakeLine(json, st, "data: " + d) == Opened(st, [d]);
  }

  lemma {:induction false} ContinueData<T>(json: string -> Json<T>, st: State<T>, contents: seq<string>, text: string)
    requires st.status == Running && forall d | d in contents :: Content(d)
    ensures Continue(json, st, DataLines(contents) + text) == Continue(json, Opened(st, contents), text)
    decreases |contents|
  {
    if contents == [] {
      OpenedTwice(st, "", []);
      assert DataLines(contents) + text == text;
    } else {
      var d, rest := contents[0], contents[1..];
      assert contents == [d] + rest;
      calc {
        Continue(json, st, DataLines(contents) + text);
        { DataLinesCons(contents, text); }
        Continue(json, st, "data: " + d + "\n" + (DataLines(rest) + text));
        { ContinueDataLine(json, st, d, DataLines(rest) + text); }
        Continue(json, Opened(st, [d]), DataLines(rest) + text);
        { ContinueData(json, Opened(st, [d]), rest, text); }
        Continue(json, Opened(Opened(st, [d]), rest), text);
        { OpenedTwice(st, d, rest); }
        Continue(json, Opened(st, contents), text);
      }
    }
  }

  lemma JoinGrow(c: char, pieces: seq<string>)
    requires pieces != []
    ensures Join(Grow(c, pieces, Newline)) == [c] + Join(pieces)
  {
    if c == '\n' {
      assert ([[]] + pieces)[1..] == pieces;
      assert "" + "\n" + Join(pieces) == [c] + Join(pieces);
    } else if |pieces| == 1 {
      assert [[c] + pieces[0]] + pieces[1..] == [[c] + pieces[0]];
    } else {
      var more := "\n" + Join(pieces[1..]);
      assert ([[c] + pieces[0]] + pieces[1..])[1..] == pieces[1..];
      assert ([c] + pieces[0]) + more == [c] + (pieces[0] + more);
    }
  }

  lemma {:induction false} JoinSplit(text: string)
    ensures Join(Split(text, Newline)) == text
  {
    if text != "" {
      JoinSplit(text[1..]);
      JoinGrow(text[0], Split(text[1..], Newline));
      assert [text[0]] + text[1..] == text;
    }
  }

  /** No event is open: what comes next starts a block. */
  predicate Between<T>(st: State<T>) {
    st.status == Running && st.dataLines == []
  }

  lemma ContinueBetween<T>(json: string -> Json<T>, st: State<T>, text: string)
    requires Between(st)
    ensures Continue(json, st, text) == Parse(json, text).Behind(st.events)
  {
    FinishCollects(json, st, Split(text, Newline));
  }

  lemma ContinueEmptyLine<T>(json: string -> Json<T>, st: State<T>, text: string)
    requires st.status == Running
    ensures Continue(json, st, "\n" + text) == Continue(json, FlushState(json, st), text)
  {
    assert "" + "\n" + text == "\n" + text;
    ContinueLine(json, st, "", text);
  }

  /** What one block with payload `text` adds to what follows it. */
  function Delivered<T>(decoded: Json<T>, text: string, rest: Outcome<T>): Outcome<T> {
    match decoded
    case Object(value) => rest.Behind([Event(text, value)])
    case NotObject => Outcome([], NotMappingError)
    case Malformed => Outcome([], JsonError)
  }

  /** A block whose contents are the lines of `text`, in front of `after`. */
  lemma BlockContinues<T>(json: string -> Json<T>, st: State<T>, text: string, after: string)
    requires Between(st) && Trimmed(text) && text != "" && text != "[DONE]"
    requires forall d | d in Split(text, Newline) :: Content(d)
    ensures Continue(json, st, DataLines(Split(text, Newline)) + ("\n" + after))
         == Delivered(json(text), text, Parse(json, after)).Behind(st.events)
  {
    var contents := Split(text, Newline);
    assert [] + contents == contents;
    assert Opened(st, contents) == st.(dataLines := contents);
    ContinueData(json, st, contents, "\n" + after);
    ContinueEmptyLine(json, st.(dataLines := contents), after);
    FlushText(json, st, text, after);
  }

  lemma FlushText<T>(json: string -> Json<T>, st: State<T>, text: string, after: string)
    requires Between(st) && Trimmed(text) && text != "" && text != "[DONE]"
    ensures Continue(json, FlushState(json, st.(dataLines := Split(text, Newline))), after)
         == Delivered(json(text), text, Parse(json, after)).Behind(st.events)
  {
    var flushed := FlushState(json, st.(dataLines := Split(text, Newline)));
    JoinSplit(text);
    StripTrimmed(text);
    if json(text).Object? {
      var event := Event(text, json(text).value);
      assert flushed == State([], st.events + [event], Running);
      ContinueBetween(json, flushed, after);
      BehindTwice(Parse(json, after), st.events, [event]);
    } else {
      StoppedHere(json, flushed, after);
    }
  }

  /**
   * Between events, the `data:` lines of a block give one event whose text has these contents as its lines; a payload
   * that is no object, or no JSON, ends the run there.
   */
  lemma BlockIsOneEvent<T>(json: string -> Json<T>, before: string, text: string, after: string)
    requires WholeLines(before) && Between(After(json, before))
    requires Trimmed(text) && text != "" && text != "[DONE]"
    requires forall d | d in Split(text, Newline) :: Content(d)
    ensures Parse(json, before + (DataLines(Split(text, Newline)) + ("\n" + after)))
         == Delivered(json(text), text, Parse(json, after)).Behind(After(json, before).events)
  {
    ParseFrom(json, before, DataLines(Split(text, Newline)) + ("\n" + after));
    BlockContinues(json, After(json, before), text, after);
  }

  lemma StoppedHere<T>(json: string -> Json<T>, st: State<T>, text: string)
    requires st.status != Running
    ensures Continue(json, st, text) == Outcome(st.events, st.status)
  {
    TakeLinesStopped(json, st, Front(Split(text, Newline)));
  }

  // ---- The terminator

  const TERMINATOR := "data: [DONE]\n\n"

  /** The terminator may stand anywhere between events: it is no event, and what follows it is still read. */
  lemma TerminatorIgnored<T>(json: string -> Json<T>, before: string, after: string)
    requires WholeLines(before) && Between(After(json, before))
    ensures Parse(json, before + TERMINATOR + after) == Parse(json, before + after)
  {
    var st := After(json, before);
    var done := ["[DONE]"];
    assert done[1..] == [] && DataLines(done) == "data: [DONE]\n";
    assert before + TERMINATOR + after == before + (DataLines(done) + ("\n" + after));
    ParseFrom(json, before, DataLines(done) + ("\n" + after));
    assert Content("[DONE]");
    assert [] + done == done;
    assert Opened(st, done) == st.(dataLines := done);
    ContinueData(json, st, done, "\n" + after);
    ContinueEmptyLine(json, st.(dataLines := done), after);
    assert Join(done) == "[DONE]";
    StripTrimmed("[DONE]");
    assert FlushState(json, st.(dataLines := done)) == st;
    ParseFrom(json, before, after);
  }

  lemma {:induction false} PrintedIsBetween<T>(json: string -> Json<T>, dumps: T -> string, values: seq<T>)
    requires forall v | v in values :: Printable(json, dumps, v)
    ensures WholeLines(SseStream(dumps, values)) && Between(After(json, SseStream(dumps, values)))
    ensures After(json, SseStream(dumps, values)).events == EventsOf(dumps, values)
    decreases |values|
  {
    if values == [] {
      assert Split("", Newline) == [""] && Front([""]) == [];
    } else {
      var all, front, last := SseStream(dumps, values), values[..|values| - 1], values[|values| - 1];
      assert values == front + [last];
      PrintedIsBetween(json, dumps, front);
      StreamConcat(dumps, front, [last]);
      assert [last][1..] == [];
      assert SseStream(dumps, [last]) == SseData(dumps, last) + "";
      assert all == SseStream(dumps, front) + SseData(dumps, last);
      AppendPrinted(json, dumps, SseStream(dumps, front), last);
    }
  }

  lemma {:induction false} StreamConcat<T>(dumps: T -> string, a: seq<T>, b: seq<T>)
    ensures SseStream(dumps, a + b) == SseStream(dumps, a) + SseStream(dumps, b)
  {
    if a == [] {
      assert a + b == b;
    } else {
      assert (a + b)[1..] == a[1..] + b;
      StreamConcat(dumps, a[1..], b);
    }
  }

  lemma AppendPrinted<T>(json: string -> Json<T>, dumps: T -> string, before: string, value: T)
    requires WholeLines(before) && Between(After(json, before)) && Printable(json, dumps, value)
    ensures var all := before + SseData(dumps, value);
            WholeLines(all) && Between(After(json, all))
            && After(json, all).events == After(json, before).events + [Event(dumps(value), value)]
  {
    var st, data := After(json, before), SseData(dumps, value);
    var line := "data: " + dumps(value);
    LastPieceEmpty(before);
    AfterConcat(json, before, data);
    assert "" + data == data && data == line + ['\n'] + ("" + ['\n'] + "");
    SplitFirst(line, '\n', "" + ['\n'] + "", Newline);
    SplitFirst("", '\n', "", Newline);
    assert Split(data, Newline) == [line, "", ""];
    assert Front([line, "", ""]) == [line, ""] && [line, ""][1..] == [""] && [""][1..] == [];
    PayloadOfData(dumps(value));
    assert [] + [dumps(value)] == [dumps(value)];
    assert TakeLine(json, st, line) == st.(dataLines := [dumps(value)]);
  }

  /** A stream of printed events, with the terminator anywhere between them or at the end, gives exactly the events. */
  lemma TerminatedStream<T>(json: string -> Json<T>, dumps: T -> string, first: seq<T>, second: seq<T>)
    requires forall v | v in first + second :: Printable(json, dumps, v)
    ensures Parse(json, SseStream(dumps, first) + TERMINATOR + SseStream(dumps, second))
         == Outcome(EventsOf(dumps, first + second), Ended)
  {
    assert forall v | v in first :: v in first + second;
    PrintedIsBetween(json, dumps, first);
    TerminatorIgnored(json, SseStream(dumps, first), SseStream(dumps, second));
    StreamConcat(dumps, first, second);
    ParsePrinted(json, dumps, first + second);
  }
}
