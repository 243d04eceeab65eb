/**
 Server-sent events: the writer of the chat endpoint and the incremental reader of the front end
 (section 9.2 of the WHATWG HTML Living Standard gives the wire format they share).

 The reader receives the character stream cut at arbitrary points. It keeps an unfinished line and
 the current event name between chunks. JSON is a pair of functions given by the caller.
 */
module SseStream {
  import opened Collections
  import opened Wrappers

  const EVENT_FIELD := "event:"
  const DATA_FIELD := "data:"

  /** The whitespace removed by JavaScript's trim. */
  predicate IsSpace(c: char) {
    var u := c as int;
    9 <= u <= 13 || u == 32 || u == 0xA0 || u == 0x1680 || 0x2000 <= u <= 0x200A || u == 0x2028 || u == 0x2029
    || u == 0x202F || u == 0x205F || u == 0x3000 || u == 0xFEFF
  }

  function TrimLeft(s: string): string {
    if s != [] && IsSpace(s[0]) then TrimLeft(s[1..]) else s
  }

  function TrimRight(s: string): string {
    if s != [] && IsSpace(s[|s| - 1]) then TrimRight(s[..|s| - 1]) else s
  }

  function Trim(s: string): string {
    TrimRight(TrimLeft(s))
  }

  /** Nothing to trim at either end. */
  predicate Trimmed(s: string) {
    s == [] || (!IsSpace(s[0]) && !IsSpace(s[|s| - 1]))
  }

  predicate OneLine(s: string) {
    forall i :: 0 <= i < |s| ==> s[i] != '\n'
  }

  // ---------- Reader ----------

  function LineEnd(s: string): (i: nat)
    ensures i <= |s| && OneLine(s[..i]) && (i < |s| ==> s[i] == '\n')
  {
    if s == [] || s[0] == '\n' then 0
    else
      var i := LineEnd(s[1..]) + 1;
      assert s[..i] == [s[0]] + s[1..][..i - 1];
      i
  }

  /** A line may end in CR LF as well as in LF alone. */
  function WithoutCr(line: string): string {
    if line != [] && line[|line| - 1] == '\r' then line[..|line| - 1] else line
  }

  /** The complete lines of a buffer. */
  function Lines(s: string): seq<string> {
    var i := LineEnd(s);
    if i == |s| then [] else [WithoutCr(s[..i])] + Lines(s[i + 1..])
  }

  /** What follows the last line end. */
  function Remainder(s: string): string {
    var i := LineEnd(s);
    if i == |s| then s else Remainder(s[i + 1..])
  }

  predicate StartsWith(s: string, prefix: string) {
    prefix <= s
  }

  datatype Callback<J> = OnEvent(name: string, data: J) | OnError

  type Parser<!J> = string -> Option<J>

  function EventAfter(line: string, event: string): string {
    if StartsWith(line, EVENT_FIELD) then Trim(line[|EVENT_FIELD|..]) else event
  }

  function CallsOf<J>(parse: Parser<J>, line: string, event: string): seq<Callback<J>> {
    if !StartsWith(line, DATA_FIELD) then []
    else match parse(Trim(line[|DATA_FIELD|..]))
      case Some(data) => [OnEvent(EventAfter(line, event), data)]
      case None => [OnError]
  }

  datatype State = State(buffer: string, event: string)

  /** The event name after a sequence of lines. */
  function EventOver(lines: seq<string>, event: string): string {
    if lines == [] then event else EventOver(lines[1..], EventAfter(lines[0], event))
  }

  /** The callbacks made by a sequence of lines. */
  function CallsOver<J>(parse: Parser<J>, lines: seq<string>, event: string): seq<Callback<J>> {
    if lines == [] then []
    else CallsOf(parse, lines[0], event) + CallsOver(parse, lines[1..], EventAfter(lines[0], event))
  }

  function Feed<J>(parse: Parser<J>, st: State, text: string): (State, seq<Callback<J>>) {
    var all := st.buffer + text;
    (State(Remainder(all), EventOver(Lines(all), st.event)), CallsOver(parse, Lines(all), st.event))
  }

  function FeedAll<J>(parse: Parser<J>, st: State, chunks: seq<string>): (State, seq<Callback<J>>)
    decreases |chunks|
  {
    if chunks == [] then (st, [])
    else
      var (mid, calls) := Feed(parse, st, chunks[0]);
      var (last, more) := FeedAll(parse, mid, chunks[1..]);
      (last, calls + more)
  }

  function Concat(chunks: seq<string>): string {
    if chunks == [] then [] else chunks[0] + Concat(chunks[1..])
  }

  const START := State([], "message")

  /** The handler state captured by the streaming request. */
  class SseReader<!J> {
    const parse: Parser<J>
    var buffer: string
    var currentEvent: string

    constructor (parse: Parser<J>)
      ensures this.parse == parse && State(buffer, currentEvent) == START
    {
      this.parse := parse;
      buffer, currentEvent := [], "message";
    }

    method OnLine(line: string) returns (calls: seq<Callback<J>>)
      modifies this`currentEvent
      ensures currentEvent == EventAfter(line, old(currentEvent))
      ensures calls == CallsOf(parse, line, old(currentEvent))
    {
      if StartsWith(line, EVENT_FIELD) {
        currentEvent := Trim(line[|EVENT_FIELD|..]);
      }
      if !StartsWith(line, DATA_FIELD) {
        return [];
      }
      var parsed := parse(Trim(line[|DATA_FIELD|..]));
      return [if parsed.Some? then OnEvent(currentEvent, parsed.value) else OnError];
    }

    method OnChunk(text: string) returns (calls: seq<Callback<J>>)
      modifies this
      ensures (State(buffer, currentEvent), calls) == Feed(parse, State(old(buffer), old(currentEvent)), text)
    {
      buffer := buffer + text;
      var lines := Lines(buffer);
      buffer := Remainder(buffer);
      calls := [];
      for i := 0 to |lines|
        invariant buffer == Remainder(old(buffer) + text)
        invariant EventOver(lines[i..], currentEvent) == EventOver(lines, old(currentEvent))
        invariant calls + CallsOver(parse, lines[i..], currentEvent) == CallsOver(parse, lines, old(currentEvent))
      {
        assert lines[i..][1..] == lines[i + 1..];
        ghost var was := calls;
        var more := OnLine(lines[i]);
        Associate(was, more, CallsOver(parse, lines[i + 1..], currentEvent));
        calls := calls + more;
      }
      assert calls + [] == calls;
    }
  }

  // ---------- The reader does not depend on the cuts ----------

  lemma {:induction false} LineEndOfConcat(x: string, y: string)
    ensures LineEnd(x) < |x| ==> LineEnd(x + y) == LineEnd(x)
  {
    if x != [] && x[0] != '\n' {
      assert (x + y)[1..] == x[1..] + y;
      LineEndOfConcat(x[1..], y);
    }
  }

  /** Lines of a longer buffer: those already complete, then those completed by the new text. */
  lemma {:induction false} LinesOfConcat(x: string, y: string)
    ensures Lines(x + y) == Lines(x) + Lines(Remainder(x) + y)
    ensures Remainder(x + y) == Remainder(Remainder(x) + y)
    decreases |x|
  {
    var i := LineEnd(x);
    if i < |x| {
      LineEndOfConcat(x, y);
      assert (x + y)[..i] == x[..i] && (x + y)[i + 1..] == x[i + 1..] + y;
      LinesOfConcat(x[i + 1..], y);
    }
  }

  lemma {:induction false} HandleConcat<J>(parse: Parser<J>, a: seq<string>, b: seq<string>, event: string)
    ensures EventOver(a + b, event) == EventOver(b, EventOver(a, event))
    ensures CallsOver(parse, a + b, event) == CallsOver(parse, a, event) + CallsOver(parse, b, EventOver(a, event))
  {
    if a == [] {
      assert a + b == b;
    } else {
      assert (a + b)[1..] == a[1..] + b;
      var next := EventAfter(a[0], event);
      HandleConcat(parse, a[1..], b, next);
      Associate(CallsOf(parse, a[0], event), CallsOver(parse, a[1..], next), CallsOver(parse, b, EventOver(a[1..], next)));
    }
  }

  /** Two chunks read one after the other are read like their concatenation. */
  lemma FeedTwice<J>(parse: Parser<J>, st: State, x: string, y: string)
    ensures var (mid, calls) := Feed(parse, st, x);
            var (last, more) := Feed(parse, mid, y);
            Feed(parse, st, x + y) == (last, calls + more)
  {
    assert st.buffer + (x + y) == (st.buffer + x) + y;
    LinesOfConcat(st.buffer + x, y);
    HandleConcat(parse, Lines(st.buffer + x), Lines(Remainder(st.buffer + x) + y), st.event);
  }

  lemma {:induction false} NoCompleteLine(s: string)
    requires OneLine(s)
    ensures LineEnd(s) == |s|
  {
    if s != [] {
      NoCompleteLine(s[1..]);
    }
  }

  lemma {:induction false} RemainderIsOneLine(s: string)
    ensures OneLine(Remainder(s))
    decreases |s|
  {
    var i := LineEnd(s);
    if i < |s| {
      RemainderIsOneLine(s[i + 1..]);
    } else {
      assert s[..i] == s;
    }
  }

  /** Every way of cutting a character stream gives the same callbacks, in the same order, and leaves
      the reader in the same state as one whole read. */
  lemma {:induction false} CutsDoNotMatter<J>(parse: Parser<J>, st: State, chunks: seq<string>)
    requires OneLine(st.buffer)
    ensures FeedAll(parse, st, chunks) == Feed(parse, st, Concat(chunks))
    decreases |chunks|
  {
    if chunks == [] {
      assert st.buffer + [] == st.buffer;
      NoCompleteLine(st.buffer);
    } else {
      RemainderIsOneLine(st.buffer + chunks[0]);
      CutsDoNotMatter(parse, Feed(parse, st, chunks[0]).0, chunks[1..]);
      FeedTwice(parse, st, chunks[0], Concat(chunks[1..]));
    }
  }

  // ---------- Writer ----------

  datatype Event<J> = Event(name: string, data: J)

  datatype Json<!J> = Json(dumps: J -> string, parse: Parser<J>)

  /** JSON text is one line without surrounding whitespace, and is parsed back. */
  ghost predicate Faithful<J(!new)>(json: Json<J>) {
    forall v: J :: var text := json.dumps(v);
      OneLine(text) && Trimmed(text) && text != [] && json.parse(text) == Some(v)
  }

  function WriteSse<J>(json: Json<J>, e: Event<J>): string {
    "event: " + e.name + "\ndata: " + json.dumps(e.data) + "\n\n"
  }

  function WriteAll<J>(json: Json<J>, events: seq<Event<J>>): string {
    if events == [] then [] else WriteSse(json, events[0]) + WriteAll(json, events[1..])
  }

  function Delivered<J>(events: seq<Event<J>>): seq<Callback<J>> {
    if events == [] then [] else [OnEvent(events[0].name, events[0].data)] + Delivered(events[1..])
  }

  /** A name that survives a line of its own. */
  predicate CleanName(name: string) {
    OneLine(name) && Trimmed(name)
  }

  // ---------- Reading what was written ----------

  lemma TrimOfTrimmed(s: string)
    requires Trimmed(s)
    ensures Trim(s) == s && Trim([' '] + s) == s
  {
    assert ([' '] + s)[1..] == s;
  }

  lemma {:induction false} TrimLeftShape(s: string)
    ensures OneLine(s) ==> OneLine(TrimLeft(s))
    ensures TrimLeft(s) == [] || !IsSpace(TrimLeft(s)[0])
  {
    if s != [] && IsSpace(s[0]) {
      TrimLeftShape(s[1..]);
    }
  }

  lemma {:induction false} TrimRightShape(s: string)
    ensures OneLine(s) ==> OneLine(TrimRight(s))
    ensures TrimRight(s) == [] || (!IsSpace(TrimRight(s)[|TrimRight(s)| - 1]) && TrimRight(s)[0] == s[0])
  {
    if s != [] && IsSpace(s[|s| - 1]) {
      TrimRightShape(s[..|s| - 1]);
    }
  }

  /** Whatever a line says, the event name taken from it is clean. */
  lemma TrimIsClean(s: string)
    requires OneLine(s)
    ensures CleanName(Trim(s))
  {
    TrimLeftShape(s);
    TrimRightShape(TrimLeft(s));
  }

  lemma {:induction false} LinesAreOneLine(s: string)
    ensures forall line <- Lines(s) :: OneLine(line)
    decreases |s|
  {
    var i := LineEnd(s);
    if i < |s| {
      LinesAreOneLine(s[i + 1..]);
      assert OneLine(WithoutCr(s[..i]));
    }
  }

  /** The reader only ever delivers clean event names. */
  lemma {:induction false} DeliversCleanNames<J>(parse: Parser<J>, lines: seq<string>, event: string)
    requires CleanName(event) && forall line <- lines :: OneLine(line)
    ensures forall call <- CallsOver(parse, lines, event) :: call.OnEvent? ==> CleanName(call.name)
  {
    if lines != [] {
      assert OneLine(lines[0]);
      if StartsWith(lines[0], EVENT_FIELD) {
        TrimIsClean(lines[0][|EVENT_FIELD|..]);
      }
      DeliversCleanNames(parse, lines[1..], EventAfter(lines[0], event));
    }
  }

  lemma {:induction false} LineEndAt(line: string, rest: string)
    requires OneLine(line)
    ensures LineEnd(line + ['\n'] + rest) == |line|
  {
    var s := line + ['\n'] + rest;
    if line != [] {
      assert s[1..] == line[1..] + ['\n'] + rest;
      LineEndAt(line[1..], rest);
    }
  }

  /** A complete line at the front of the buffer. */
  lemma FirstLine(line: string, rest: string)
    requires OneLine(line) && (line == [] || line[|line| - 1] != '\r')
    ensures Lines(line + ['\n'] + rest) == [line] + Lines(rest)
    ensures Remainder(line + ['\n'] + rest) == Remainder(rest)
  {
    var s := line + ['\n'] + rest;
    LineEndAt(line, rest);
    assert s[..|line|] == line && s[|line| + 1..] == rest;
  }

  /** The written form, line by line. */
  lemma WrittenShape(name: string, text: string, rest: string)
    ensures "event: " + name + "\ndata: " + text + "\n\n" + rest
            == ("event: " + name) + ['\n'] + (("data: " + text) + ['\n'] + ([] + ['\n'] + rest))
  {
    var a, b := "event: " + name, "data: " + text;
    assert "\ndata: " == ['\n'] + "data: " && "\n\n" == ['\n'] + ['\n'];
    assert a + "\ndata: " + text + "\n\n" + rest == a + ['\n'] + (b + ['\n'] + (['\n'] + rest));
    assert [] + ['\n'] + rest == ['\n'] + rest;
  }

  lemma LabelledLine(field: string, s: string)
    requires field != [] && OneLine(field) && field[|field| - 1] == ' ' && CleanName(s)
    ensures OneLine(field + s) && (field + s)[|field + s| - 1] != '\r'
  {
  }

  lemma ThreeLines(name: string, text: string, rest: string)
    requires CleanName(name) && CleanName(text)
    ensures Lines(("event: " + name) + ['\n'] + (("data: " + text) + ['\n'] + ([] + ['\n'] + rest)))
            == ["event: " + name] + (["data: " + text] + ([[]] + Lines(rest)))
  {
    LabelledLine("event: ", name);
    LabelledLine("data: ", text);
    FirstLine([], rest);
    FirstLine("data: " + text, [] + ['\n'] + rest);
    FirstLine("event: " + name, ("data: " + text) + ['\n'] + ([] + ['\n'] + rest));
  }

  /** The three lines of one written event. */
  lemma WrittenLines<J(!new)>(json: Json<J>, e: Event<J>, rest: string)
    requires Faithful(json) && CleanName(e.name)
    ensures Lines(WriteSse(json, e) + rest)
            == ["event: " + e.name] + (["data: " + json.dumps(e.data)] + ([[]] + Lines(rest)))
  {
    WrittenShape(e.name, json.dumps(e.data), rest);
    ThreeLines(e.name, json.dumps(e.data), rest);
  }

  /** A line in front of others. */
  lemma HandleOne<J>(parse: Parser<J>, line: string, lines: seq<string>, event: string)
    ensures CallsOver(parse, [line] + lines, event)
            == CallsOf(parse, line, event) + CallsOver(parse, lines, EventAfter(line, event))
  {
    assert ([line] + lines)[1..] == lines;
  }

  lemma EventLine<J>(parse: Parser<J>, name: string, event: string)
    requires Trimmed(name)
    ensures CallsOf(parse, "event: " + name, event) == [] && EventAfter("event: " + name, event) == name
  {
    var line := "event: " + name;
    TrimOfTrimmed(name);
    assert line[|EVENT_FIELD|..] == [' '] + name && line[0] == 'e';
  }

  lemma DataLine<J(!new)>(json: Json<J>, data: J, event: string)
    requires Faithful(json)
    ensures CallsOf(json.parse, "data: " + json.dumps(data), event) == [OnEvent(event, data)]
    ensures EventAfter("data: " + json.dumps(data), event) == event
  {
    var line := "data: " + json.dumps(data);
    TrimOfTrimmed(json.dumps(data));
    assert line[|DATA_FIELD|..] == [' '] + json.dumps(data) && line[0] == 'd';
  }

  /** An event line, a data line and an empty line. */
  lemma ThreeHandled<J>(parse: Parser<J>, eventLine: string, dataLine: string, lines: seq<string>, event: string,
                        name: string, call: Callback<J>)
    requires CallsOf(parse, eventLine, event) == [] && EventAfter(eventLine, event) == name
    requires CallsOf(parse, dataLine, name) == [call] && EventAfter(dataLine, name) == name
    ensures CallsOver(parse, [eventLine] + ([dataLine] + ([[]] + lines)), event) == [call] + CallsOver(parse, lines, name)
  {
    HandleOne(parse, eventLine, [dataLine] + ([[]] + lines), event);
    HandleOne(parse, dataLine, [[]] + lines, name);
    HandleOne(parse, [], lines, name);
  }

  /** Those lines cause exactly one callback, with the written name and data. */
  lemma HandleWritten<J(!new)>(json: Json<J>, e: Event<J>, lines: seq<string>, event: string)
    requires Faithful(json) && CleanName(e.name)
    ensures CallsOver(json.parse, ["event: " + e.name] + (["data: " + json.dumps(e.data)] + ([[]] + lines)), event)
            == [OnEvent(e.name, e.data)] + CallsOver(json.parse, lines, e.name)
  {
    EventLine(json.parse, e.name, event);
    DataLine(json, e.data, e.name);
    ThreeHandled(json.parse, "event: " + e.name, "data: " + json.dumps(e.data), lines, event, e.name, OnEvent(e.name, e.data));
  }

  lemma {:induction false} ReadsCleanEventsBack<J(!new)>(json: Json<J>, events: seq<Event<J>>, event: string)
    requires Faithful(json) && forall e <- events :: CleanName(e.name)
    ensures CallsOver(json.parse, Lines(WriteAll(json, events)), event) == Delivered(events)
  {
    if events != [] {
      var rest := WriteAll(json, events[1..]);
      WrittenLines(json, events[0], rest);
      HandleWritten(json, events[0], Lines(rest), event);
      ReadsCleanEventsBack(json, events[1..], events[0].name);
    }
  }

  lemma {:induction false} DeliveredAt<J>(events: seq<Event<J>>, i: nat)
    requires i < |events|
    ensures |Delivered(events)| == |events| && Delivered(events)[i] == OnEvent(events[i].name, events[i].data)
  {
    if i > 0 {
      DeliveredAt(events[1..], i - 1);
    } else if |events| > 1 {
      DeliveredAt(events[1..], 0);
    }
  }

  lemma DeliveredAreClean<J>(events: seq<Event<J>>)
    requires forall call <- Delivered(events) :: call.OnEvent? ==> CleanName(call.name)
    ensures forall e <- events :: CleanName(e.name)
  {
    forall i | 0 <= i < |events|
      ensures CleanName(events[i].name)
    {
      DeliveredAt(events, i);
      assert Delivered(events)[i] in Delivered(events);
    }
  }

  lemma ReadWhole<J>(json: Json<J>, events: seq<Event<J>>, chunks: seq<string>)
    requires Concat(chunks) == WriteAll(json, events)
    ensures FeedAll(json.parse, START, chunks).1 == CallsOver(json.parse, Lines(WriteAll(json, events)), START.event)
  {
    CutsDoNotMatter(json.parse, START, chunks);
    assert [] + WriteAll(json, events) == WriteAll(json, events);
  }

  /** Only clean names can come back. */
  lemma OnlyCleanEventsReadBack<J>(parse: Parser<J>, text: string, event: string, events: seq<Event<J>>)
    requires CleanName(event) && CallsOver(parse, Lines(text), event) == Delivered(events)
    ensures forall e <- events :: CleanName(e.name)
  {
    LinesAreOneLine(text);
    DeliversCleanNames(parse, Lines(text), event);
    DeliveredAreClean(events);
  }

  lemma DefaultNameIsClean(name: string)
    requires name == "message"
    ensures CleanName(name)
  {
  }

  /** Reading what was written, however the stream is cut, returns the original events exactly when
      every event name is a single line without surrounding whitespace. */
  lemma ReadInvertsWrite<J(!new)>(json: Json<J>, events: seq<Event<J>>, chunks: seq<string>)
    requires Faithful(json) && Concat(chunks) == WriteAll(json, events)
    ensures FeedAll(json.parse, START, chunks).1 == Delivered(events) <==> forall e <- events :: CleanName(e.name)
  {
    ReadWhole(json, events, chunks);
    if forall e <- events :: CleanName(e.name) {
      ReadsCleanEventsBack(json, events, START.event);
    }
    if FeedAll(json.parse, START, chunks).1 == Delivered(events) {
      DefaultNameIsClean(START.event);
      OnlyCleanEventsReadBack(json.parse, WriteAll(json, events), START.event, events);
    }
  }

  const PADDED := " done"

  /** The lines of an event with a padded name, read one by one. */
  lemma PaddedEventLine<J>(parse: Parser<J>, event: string)
    ensures CallsOf(parse, "event: " + PADDED, event) == [] && EventAfter("event: " + PADDED, event) == "done"
  {
    var line := "event: " + PADDED;
    assert line[|EVENT_FIELD|..] == [' '] + ([' '] + "done") && line[0] == 'e';
    TrimOfTrimmed("done");
    assert TrimLeft([' '] + ([' '] + "done")) == TrimLeft([' '] + "done");
  }

  lemma PaddedLines(text: string)
    requires CleanName(text)
    ensures Lines("event: " + PADDED + "\ndata: " + text + "\n\n" + [])
            == ["event: " + PADDED] + (["data: " + text] + ([[]] + []))
  {
    WrittenShape(PADDED, text, []);
    LabelledLine("data: ", text);
    var line := "event: " + PADDED;
    assert OneLine(line) && line[|line| - 1] == 'e';
    FirstLine([], []);
    FirstLine("data: " + text, [] + ['\n'] + []);
    FirstLine(line, ("data: " + text) + ['\n'] + ([] + ['\n'] + []));
  }

  lemma PaddedHandled<J(!new)>(json: Json<J>, data: J, event: string)
    requires Faithful(json)
    ensures CallsOver(json.parse, ["event: " + PADDED] + (["data: " + json.dumps(data)] + ([[]] + [])), event)
            == [OnEvent("done", data)]
  {
    PaddedEventLine(json.parse, event);
    DataLine(json, data, "done");
    ThreeHandled(json.parse, "event: " + PADDED, "data: " + json.dumps(data), [], event, "done", OnEvent("done", data));
  }

  /** A name with a leading blank comes back without it: the event is read, under another name. */
  lemma PaddedNameIsTrimmed<J(!new)>(json: Json<J>, data: J, chunks: seq<string>)
    requires Faithful(json) && Concat(chunks) == WriteAll(json, [Event(PADDED, data)])
    ensures FeedAll(json.parse, START, chunks).1 == [OnEvent("done", data)] != Delivered([Event(PADDED, data)])
  {
    var e := Event(PADDED, data);
    ReadWhole(json, [e], chunks);
    assert WriteAll(json, [e]) == WriteSse(json, e) + [];
    PaddedLines(json.dumps(data));
    PaddedHandled(json, data, START.event);
    DeliveredAt([e], 0);
  }
}
