/** Server-Sent Events: the server's printer and the client's buffer loop, which must undo it however the bytes arrive.
    The parser is the subset of sections 9.2.5 and 9.2.6 of the WHATWG HTML Living Standard that the client uses. */
module AssistantStream {
  import opened Wrappers
  import opened JsonText

  // ----- the printer -----

  datatype EventName = Token | Tool | Done | Error

  function NameOf(event: EventName): string {
    match event
    case Token => "token"
    case Tool => "tool"
    case Done => "done"
    case Error => "error"
  }

  datatype ServerEvent = ServerEvent(name: EventName, fields: seq<Member>)

  function Sse(e: ServerEvent): string {
    "event: " + NameOf(e.name) + "\n" + ("data: " + Dumps(JObject(e.fields))) + "\n\n"
  }

  function PrintAll(events: seq<ServerEvent>): string {
    if events == [] then "" else Sse(events[0]) + PrintAll(events[1..])
  }

  // ----- the client's parser -----

  datatype Frame = Frame(event: string, data: string)

  /** White space and line terminators as String.prototype.trim strips them. */
  predicate IsSpace(c: char) {
    || c in {'\t', '\n', '\r', ' '} || c as int in {11, 12, 0xa0, 0x1680, 0x2028, 0x2029, 0x202f, 0x205f, 0x3000, 0xfeff}
    || 0x2000 <= c as int <= 0x200a
  }

  function TrimStart(s: string): string {
    if s != "" && IsSpace(s[0]) then TrimStart(s[1..]) else s
  }

  function TrimEnd(s: string): string {
    if s != "" && IsSpace(s[|s| - 1]) then TrimEnd(s[..|s| - 1]) else s
  }

  function Trim(s: string): string {
    TrimEnd(TrimStart(s))
  }

  function Lines(raw: string): seq<string>
    ensures |Lines(raw)| > 0
  {
    if raw == "" then [""]
    else
      var rest := Lines(raw[1..]);
      if raw[0] == '\n' then [""] + rest else [[raw[0]] + rest[0]] + rest[1..]
  }

  /** The event name so far and the data lines so far, after reading the lines. */
  function ReadLines(lines: seq<string>): (string, seq<string>) {
    if lines == [] then ("message", [])
    else
      var (event, data) := ReadLines(lines[..|lines| - 1]);
      var line := lines[|lines| - 1];
      if "event:" <= line then (Trim(line[6..]), data)
      else if "data:" <= line then (event, data + [Trim(line[5..])])
      else (event, data)
  }

  function JoinLines(data: seq<string>): string {
    if data == [] then "" else if |data| == 1 then data[0] else data[0] + "\n" + JoinLines(data[1..])
  }

  /** No frame without data. */
  function ParseBlock(raw: string): seq<Frame> {
    var (event, data) := ReadLines(Lines(raw));
    if data == [] then [] else [Frame(event, JoinLines(data))]
  }

  /** Where the first blank line starts; None when there is no complete block yet. */
  function Boundary(s: string): (b: Option<nat>)
    ensures b.Some? ==> b.value + 2 <= |s|
  {
    if |s| < 2 then None
    else if s[0] == '\n' && s[1] == '\n' then Some(0)
    else
      var rest := Boundary(s[1..]);
      if rest.None? then None else Some(rest.value + 1)
  }

  /** All complete frames of the text, and what is left over. */
  function Drain(buffer: string): (seq<Frame>, string)
    decreases |buffer|
  {
    var boundary := Boundary(buffer);
    if boundary.None? then ([], buffer)
    else
      var (frames, rest) := Drain(buffer[boundary.value + 2..]);
      (ParseBlock(buffer[..boundary.value]) + frames, rest)
  }

  method DrainFrames(buffer: string) returns (frames: seq<Frame>, rest: string)
    ensures frames == Drain(buffer).0 && rest == Drain(buffer).1
  {
    frames, rest := [], buffer;
    while true
      invariant Drain(buffer).0 == frames + Drain(rest).0 && Drain(buffer).1 == Drain(rest).1
      decreases |rest|
    {
      var boundary := Boundary(rest);
      if boundary.None? {
        break;
      }
      DrainStep(rest, boundary.value);
      var raw := rest[..boundary.value];
      rest := rest[boundary.value + 2..];
      var block := ParseLines(raw);
      Reassociate(frames, block, Drain(rest).0);
      frames := frames + block;
    }
  }

  /** The inner loop over a block's lines. */
  method ParseLines(raw: string) returns (block: seq<Frame>)
    ensures block == ParseBlock(raw)
  {
    var event, data := "message", [];
    var lines := Lines(raw);
    for i := 0 to |lines|
      invariant (event, data) == ReadLines(lines[..i])
    {
      assert lines[..i + 1][..i] == lines[..i];
      var line := lines[i];
      if "event:" <= line {
        event := Trim(line[6..]);
      } else if "data:" <= line {
        data := data + [Trim(line[5..])];
      }
    }
    assert lines[..|lines|] == lines;
    block := if data == [] then [] else [Frame(event, JoinLines(data))];
  }

  function Concat(chunks: seq<string>): string {
    if chunks == [] then "" else Concat(chunks[..|chunks| - 1]) + chunks[|chunks| - 1]
  }

  // ----- chunking does not matter -----

  lemma {:induction false} BoundaryStays(a: string, b: string)
    requires Boundary(a).Some?
    ensures Boundary(a + b) == Boundary(a)
  {
    if !(a[0] == '\n' && a[1] == '\n') {
      assert (a + b)[1..] == a[1..] + b;
      BoundaryStays(a[1..], b);
    }
  }

  lemma {:induction false} DrainAppend(a: string, b: string)
    ensures Drain(a + b).0 == Drain(a).0 + Drain(Drain(a).1 + b).0
    ensures Drain(a + b).1 == Drain(Drain(a).1 + b).1
    decreases |a|
  {
    hide ParseBlock, Drain, Boundary;
    if Boundary(a).None? {
      DrainNothing(a);
    } else {
      var k := Boundary(a).value;
      var block, tail := a[..k], a[k + 2..];
      DrainAppend(tail, b);
      DrainStep(a, k);
      BoundaryStays(a, b);
      DrainStep(a + b, k);
      assert (a + b)[..k] == block;
      assert (a + b)[k + 2..] == tail + b;
      Reassociate(ParseBlock(block), Drain(tail).0, Drain(Drain(tail).1 + b).0);
    }
  }

  lemma DrainNothing(text: string)
    requires Boundary(text).None?
    ensures Drain(text) == ([], text)
  {
  }

  lemma Reassociate(a: seq<Frame>, b: seq<Frame>, c: seq<Frame>)
    ensures a + (b + c) == (a + b) + c
  {
  }

  lemma DrainStep(text: string, k: nat)
    requires Boundary(text) == Some(k)
    ensures Drain(text).0 == ParseBlock(text[..k]) + Drain(text[k + 2..]).0
    ensures Drain(text).1 == Drain(text[k + 2..]).1
  {
  }

  // ----- parsing undoes printing -----

  lemma {:induction false} NoBoundaryInLine(line: string, rest: string)
    requires '\n' !in line
    ensures Boundary(line + rest) == if Boundary(rest).None? then None else Some(|line| + Boundary(rest).value)
  {
    if line == "" {
      assert line + rest == rest;
    } else {
      assert (line + rest)[1..] == line[1..] + rest;
      NoBoundaryInLine(line[1..], rest);
    }
  }

  lemma {:induction false} LinesOfLine(line: string, rest: string)
    requires '\n' !in line
    ensures Lines(line + "\n" + rest) == [line] + Lines(rest)
    ensures Lines(line) == [line]
  {
    if line == "" {
      assert line + "\n" + rest == "\n" + rest;
    } else {
      assert (line + "\n" + rest)[1..] == line[1..] + "\n" + rest;
      LinesOfLine(line[1..], rest);
      assert [line[0]] + line[1..] == line;
    }
  }

  lemma TrimPadded(s: string)
    requires s != "" && !IsSpace(s[0]) && !IsSpace(s[|s| - 1])
    ensures Trim(" " + s) == s
  {
    assert (" " + s)[1..] == s && IsSpace(' ');
    assert TrimStart(s) == s && TrimStart(" " + s) == TrimStart(s);
  }

  /** The two lines of a printed event. */
  function Field(tag: string, value: string): string {
    tag + (" " + value)
  }

  lemma FieldValue(tag: string, value: string)
    requires value != "" && !IsSpace(value[0]) && !IsSpace(value[|value| - 1])
    ensures tag <= Field(tag, value) && Trim(Field(tag, value)[|tag|..]) == value
  {
    assert Field(tag, value)[|tag|..] == " " + value;
    TrimPadded(value);
  }

  lemma NoNewline(s: string)
    requires Printable(s)
    ensures '\n' !in s
  {
  }

  lemma PayloadIsTrimmed(fields: seq<Member>)
    ensures var data := Dumps(JObject(fields));
            data != "" && !IsSpace(data[0]) && !IsSpace(data[|data| - 1]) && '\n' !in data
  {
    DumpsIsPrintable(JObject(fields));
    NoNewline(Dumps(JObject(fields)));
  }

  lemma OneFrame(e: ServerEvent, rest: string)
    ensures Drain(Sse(e) + rest)
         == ([Frame(NameOf(e.name), Dumps(JObject(e.fields)))] + Drain(rest).0, Drain(rest).1)
  {
    hide ParseBlock, Dumps, Drain, Boundary, Trim;
    PayloadIsTrimmed(e.fields);
    FieldValue("event:", NameOf(e.name));
    FieldValue("data:", Dumps(JObject(e.fields)));
    var first, second := Field("event:", NameOf(e.name)), Field("data:", Dumps(JObject(e.fields)));
    var block := first + "\n" + second;
    BlockBoundary(first, second, rest);
    BlockParses(first, second);
    DrainBlock(block, rest);
    SseIsBlock(e);
  }

  lemma SseIsBlock(e: ServerEvent)
    ensures Sse(e) == Field("event:", NameOf(e.name)) + "\n" + Field("data:", Dumps(JObject(e.fields))) + "\n\n"
  {
    var name, data := NameOf(e.name), Dumps(JObject(e.fields));
    assert "event: " + name == Field("event:", name);
    assert "data: " + data == Field("data:", data);
  }

  lemma DrainBlock(block: string, rest: string)
    requires Boundary(block + "\n\n" + rest) == Some(|block|)
    ensures Drain(block + "\n\n" + rest) == (ParseBlock(block) + Drain(rest).0, Drain(rest).1)
  {
    var text := block + "\n\n" + rest;
    assert text[..|block|] == block && text[|block| + 2..] == rest;
  }

  lemma BlockBoundary(first: string, second: string, rest: string)
    requires '\n' !in first && '\n' !in second && second != ""
    ensures Boundary(first + "\n" + second + "\n\n" + rest) == Some(|first + "\n" + second|)
  {
    var tail := "\n\n" + rest;
    assert Boundary(tail) == Some(0);
    NoBoundaryInLine(second, tail);
    var middle := "\n" + (second + tail);
    assert middle[1..] == second + tail && middle[1] == second[0];
    NoBoundaryInLine(first, middle);
    assert first + "\n" + second + "\n\n" + rest == first + middle;
  }

  lemma BlockParses(first: string, second: string)
    requires '\n' !in first && '\n' !in second
    requires "event:" <= first && "data:" <= second
    ensures ParseBlock(first + "\n" + second) == [Frame(Trim(first[6..]), Trim(second[5..]))]
  {
    LinesOfLine(first, second);
    LinesOfLine(second, "");
    assert second[0] == "data:"[0] != "event:"[0];
    TwoLines(first, second);
  }

  lemma TwoLines(first: string, second: string)
    requires "event:" <= first && "data:" <= second && !("event:" <= second)
    ensures ReadLines([first] + [second]) == (Trim(first[6..]), [Trim(second[5..])])
  {
    assert ReadLines([first]) == (Trim(first[6..]), []) by {
      assert [first][..0] == [];
      assert ReadLines([]) == ("message", []);
    }
    var lines := [first] + [second];
    assert lines[..1] == [first] && lines[1] == second;
    assert [] + [Trim(second[5..])] == [Trim(second[5..])];
  }

  function FramesOf(events: seq<ServerEvent>): seq<Frame> {
    if events == [] then []
    else [Frame(NameOf(events[0].name), Dumps(JObject(events[0].fields)))] + FramesOf(events[1..])
  }

  lemma {:induction false} DrainUndoesPrint(events: seq<ServerEvent>)
    ensures Drain(PrintAll(events)) == (FramesOf(events), "")
  {
    if events != [] {
      DrainUndoesPrint(events[1..]);
      OneFrame(events[0], PrintAll(events[1..]));
    }
  }

  /** An event's text, to the letter. */
  lemma EventText(c: char)
    requires ' ' <= c <= '~' && c != '"' && c != '\\'
    ensures Sse(ServerEvent(Token, [Member("text", JString([c]))])) == "event: token\ndata: {\"text\": \"" + [c] + "\"}\n\n"
    ensures Sse(ServerEvent(Done, [])) == "event: done\ndata: {}\n\n"
    ensures NameOf(Tool) == "tool" && NameOf(Error) == "error"
  {
    hide EscapeString;
    TextIsPlain(c);
    PlainObject([c]);
    assert DumpFields([]) == "" && Dumps(JObject([])) == "{}";
  }

  lemma PlainObject(text: string)
    requires EscapeString("text") == "text" && EscapeString(text) == text
    ensures Dumps(JObject([Member("text", JString(text))])) == "{\"text\": \"" + text + "\"}"
  {
    hide EscapeString;
    var fields := [Member("text", JString(text))];
    assert DumpFields(fields) == "\"" + EscapeString("text") + "\": " + Dumps(JString(text)) + "";
    assert Dumps(JString(text)) == "\"" + text + "\"";
  }

  lemma TextIsPlain(c: char)
    requires ' ' <= c <= '~' && c != '"' && c != '\\'
    ensures EscapeString("text") == "text" && EscapeString([c]) == [c]
  {
    assert "text"[1..] == "ext" && "ext"[1..] == "xt" && "xt"[1..] == "t" && "t"[1..] == "" && [c][1..] == "";
  }

  /** A field value as the client takes it: nothing to trim, on one line. */
  predicate IsValue(s: string) {
    s != "" && !IsSpace(s[0]) && !IsSpace(s[|s| - 1]) && '\n' !in s
  }

  lemma FieldIsOneLine(tag: string, value: string)
    requires '\n' !in tag && IsValue(value)
    ensures '\n' !in Field(tag, value)
  {
  }

  /** A block may name no event, and then is a message; its data lines are joined; without data there is no frame; and
      other lines are ignored. */
  lemma BlocksAreRead(a: string, b: string, other: string)
    requires IsValue(a) && IsValue(b) && '\n' !in other && !("event:" <= other) && !("data:" <= other)
    ensures ParseBlock(Field("data:", a)) == [Frame("message", a)]
    ensures ParseBlock(Field("data:", a) + "\n" + Field("data:", b)) == [Frame("message", a + "\n" + b)]
    ensures ParseBlock(Field("event:", a) + "\n" + other + "\n" + Field("data:", b)) == [Frame(a, b)]
    ensures ParseBlock(Field("event:", a)) == [] && ParseBlock(other) == []
  {
    hide Trim, Lines, ReadLines, Field;
    FieldIsOneLine("data:", a);
    FieldIsOneLine("data:", b);
    FieldIsOneLine("event:", a);
    FieldValue("data:", a);
    FieldValue("data:", b);
    FieldValue("event:", a);
    var dataA, dataB, event := Field("data:", a), Field("data:", b), Field("event:", a);
    LinesOfLine(dataA, dataB);
    LinesOfLine(dataB, "");
    LinesOfLine(event, other + "\n" + dataB);
    LinesOfLine(other, dataB);
    assert event + "\n" + other + "\n" + dataB == event + "\n" + (other + "\n" + dataB);
    assert dataA[0] == "data:"[0] != "event:"[0] && dataB[0] == "data:"[0];
    LineRead([], dataA);
    LineRead([dataA], dataB);
    LineRead([], event);
    LineRead([event], other);
    LineRead([event, other], dataB);
    LineRead([], other);
    NoLineRead();
    assert [] + [dataA] == [dataA] && [] + [event] == [event] && [] + [other] == [other];
    assert [event] + [other] == [event, other] && [event] + ([other] + [dataB]) == [event, other] + [dataB];
    assert [] + [a] == [a] && [] + [b] == [b] && [a] + [b] == [a, b];
    JoinTwo(a, b);
  }

  /** White space around a value does not count. */
  lemma PaddingIsTrimmed(before: string, value: string, after: string)
    requires forall c :: c in before + after ==> c in " \t\r"
    requires '\n' !in value && (value != "" ==> !IsSpace(value[0]) && !IsSpace(value[|value| - 1]))
    ensures ParseBlock("data:" + (before + value + after)) == [Frame("message", value)]
    ensures ParseBlock("event:" + (before + value + after) + "\ndata:") == [Frame(value, "")]
  {
    hide Trim, Lines, ReadLines, ParseBlock;
    assert forall c :: c in before ==> c in before + after;
    assert forall c :: c in after ==> c in before + after;
    TrimStrips(before, value, after);
    PaddedData(before + value + after);
    PaddedEvent(before + value + after);
  }

  lemma PaddedData(padded: string)
    requires '\n' !in padded
    ensures ParseBlock("data:" + padded) == [Frame("message", Trim(padded))]
  {
    hide Trim, Lines, ReadLines;
    var data := "data:" + padded;
    assert data[5..] == padded && data[0] == 'd';
    LinesOfLine(data, "");
    LineRead([], data);
    NoLineRead();
    JoinTwo(Trim(padded), "");
    assert [] + [data] == [data] && [] + [Trim(padded)] == [Trim(padded)];
  }

  lemma PaddedEvent(padded: string)
    requires '\n' !in padded
    ensures ParseBlock("event:" + padded + "\ndata:") == [Frame(Trim(padded), "")]
  {
    hide Trim, Lines, ReadLines;
    var event, data := "event:" + padded, "data:";
    assert event[6..] == padded && event[0] == 'e' && data[5..] == "";
    assert event + "\ndata:" == event + "\n" + data;
    LinesOfLine(event, data);
    LinesOfLine(data, "");
    LineRead([], event);
    LineRead([event], data);
    NoLineRead();
    TrimStrips("", "", "");
    assert "" + "" + "" == "";
    JoinTwo("", "");
    assert [] + [event] == [event] && [event] + [data] == [event, data] && [] + [""] == [""];
  }

  lemma TrimStrips(before: string, value: string, after: string)
    requires forall c :: c in before || c in after ==> IsSpace(c)
    requires value != "" ==> !IsSpace(value[0]) && !IsSpace(value[|value| - 1])
    ensures Trim(before + value + after) == value
  {
    hide IsSpace;
    assert before + value + after == before + (value + after);
    StartStrips(before, value + after);
    if value == "" {
      assert value + after == after && after + "" == after;
      StartStrips(after, "");
    } else {
      assert (value + after)[0] == value[0];
      EndStrips(value, after);
    }
  }

  lemma {:induction false} StartStrips(before: string, rest: string)
    requires forall c :: c in before ==> IsSpace(c)
    ensures TrimStart(before + rest) == TrimStart(rest)
  {
    hide IsSpace;
    if before == "" {
      assert before + rest == rest;
    } else {
      assert before[0] in before && (before + rest)[1..] == before[1..] + rest;
      StartStrips(before[1..], rest);
    }
  }

  lemma {:induction false} EndStrips(value: string, after: string)
    requires forall c :: c in after ==> IsSpace(c)
    requires value != "" && !IsSpace(value[|value| - 1])
    ensures TrimEnd(value + after) == value
  {
    hide IsSpace;
    if after == "" {
      assert value + after == value;
    } else {
      var init := after[..|after| - 1];
      assert after[|after| - 1] in after && (value + after)[..|value + after| - 1] == value + init;
      EndStrips(value, init);
    }
  }

  lemma NoLineRead()
    ensures ReadLines([]) == ("message", [])
  {
  }

  lemma LineRead(lines: seq<string>, line: string)
    ensures var (event, data) := ReadLines(lines);
            && (lines + [line])[..|lines|] == lines
            && ReadLines(lines + [line])
               == if "event:" <= line then (Trim(line[6..]), data)
                  else if "data:" <= line then (event, data + [Trim(line[5..])])
                  else (event, data)
  {
    hide Trim;
    assert (lines + [line])[..|lines|] == lines;
  }

  lemma JoinTwo(a: string, b: string)
    ensures JoinLines([a]) == a && JoinLines([a, b]) == a + "\n" + b
  {
    assert [a, b][1..] == [b];
    assert a + "\n" + b == a + ("\n" + b);
  }

  // ----- the reading loop -----

  /** How the stream ends for the client: closed by the server, cut off, or aborted by the user. */
  datatype Ending = Closed | Interrupted | Aborted

  datatype Callback = OnEvent(name: EventName, body: Json) | OnStreamError(detail: string)

  function NameFrom(event: string): Option<EventName> {
    if event == "token" then Some(Token) else if event == "tool" then Some(Tool)
    else if event == "done" then Some(Done) else if event == "error" then Some(Error) else None
  }

  /** Malformed payloads and unknown events are ignored.  `parse` is JSON.parse. */
  function Handle(parse: string -> Option<Json>, frames: seq<Frame>): seq<Callback> {
    if frames == [] then []
    else
      var body, name := parse(frames[0].data), NameFrom(frames[0].event);
      (if body.Some? && name.Some? then [OnEvent(name.value, body.value)] else []) + Handle(parse, frames[1..])
  }

  lemma {:induction false} HandleConcat(parse: string -> Option<Json>, a: seq<Frame>, b: seq<Frame>)
    ensures Handle(parse, a + b) == Handle(parse, a) + Handle(parse, b)
  {
    if a == [] {
      assert a + b == b;
    } else {
      assert (a + b)[1..] == a[1..] + b;
      HandleConcat(parse, a[1..], b);
    }
  }

  /** Frames of other events, and those whose data is no JSON, are ignored. */
  lemma {:induction false} OthersAreIgnored(parse: string -> Option<Json>, a: seq<Frame>, f: Frame, b: seq<Frame>)
    requires parse(f.data) == None || (f.event != "token" && f.event != "tool" && f.event != "done" && f.event != "error")
    ensures Handle(parse, a + [f] + b) == Handle(parse, a + b)
  {
    hide Handle;
    HandleConcat(parse, a, [f]);
    HandleConcat(parse, a + [f], b);
    HandleConcat(parse, a, b);
    OneIgnored(parse, f);
    assert Handle(parse, a) + [] == Handle(parse, a);
  }

  lemma OneIgnored(parse: string -> Option<Json>, f: Frame)
    requires parse(f.data) == None || (f.event != "token" && f.event != "tool" && f.event != "done" && f.event != "error")
    ensures Handle(parse, [f]) == []
  {
    assert [f][1..] == [];
    assert Handle(parse, []) == [];
  }

  predicate Concludes(c: Callback) {
    c.OnStreamError? || c.name.Done? || c.name.Error?
  }

  predicate Finished(callbacks: seq<Callback>) {
    callbacks != [] && (Concludes(callbacks[|callbacks| - 1]) || Finished(callbacks[..|callbacks| - 1]))
  }

  lemma {:induction false} FinishedConcat(a: seq<Callback>, b: seq<Callback>)
    ensures Finished(a + b) <==> Finished(a) || Finished(b)
  {
    if b == [] {
      assert a + b == a;
    } else {
      assert (a + b)[..|a + b| - 1] == a + b[..|b| - 1];
      FinishedConcat(a, b[..|b| - 1]);
    }
  }

  /** frames.forEach(handle): what is called back, and whether one of the calls concluded the exchange. */
  method HandleFrames(parse: string -> Option<Json>, frames: seq<Frame>)
    returns (callbacks: seq<Callback>, finished: bool)
    ensures callbacks == Handle(parse, frames) && finished == Finished(callbacks)
  {
    callbacks, finished := [], false;
    for i := 0 to |frames|
      invariant callbacks == Handle(parse, frames[..i]) && finished == Finished(callbacks)
    {
      assert frames[..i + 1] == frames[..i] + [frames[i]];
      HandleConcat(parse, frames[..i], [frames[i]]);
      var body, name := parse(frames[i].data), NameFrom(frames[i].event);
      if body.Some? && name.Some? {
        FinishedConcat(callbacks, [OnEvent(name.value, body.value)]);
        callbacks := callbacks + [OnEvent(name.value, body.value)];
        finished := finished || name.value.Done? || name.value.Error?;
      }
    }
    assert frames[..|frames|] == frames;
  }

  function StreamError(ending: Ending): Callback {
    OnStreamError(if ending.Closed? then "The response ended unexpectedly." else "The connection was interrupted.")
  }

  /** Everything called back for a stream that arrived in these chunks and ended like this. */
  function Callbacks(parse: string -> Option<Json>, chunks: seq<string>, ending: Ending): seq<Callback> {
    var seen := Handle(parse, Drain(Concat(chunks)).0);
    seen + if ending.Aborted? || Finished(seen) then [] else [StreamError(ending)]
  }

  /** Every outcome is delivered through the callbacks: unless the user aborted, one of them concludes the exchange. */
  method StreamMessage(parse: string -> Option<Json>, chunks: seq<string>, ending: Ending)
    returns (callbacks: seq<Callback>)
    ensures callbacks == Callbacks(parse, chunks, ending)
    ensures !ending.Aborted? ==> Finished(callbacks)
  {
    callbacks := [];
    var buffer, finished := "", false;
    ghost var frames: seq<Frame> := [];
    for i := 0 to |chunks|
      invariant Drain(Concat(chunks[..i])).0 == frames && Drain(Concat(chunks[..i])).1 == buffer
      invariant callbacks == Handle(parse, frames) && finished == Finished(callbacks)
    {
      assert chunks[..i + 1][..i] == chunks[..i];
      DrainAppend(Concat(chunks[..i]), chunks[i]);
      var drained;
      drained, buffer := DrainFrames(buffer + chunks[i]);
      var calls, concluded := HandleFrames(parse, drained);
      HandleConcat(parse, frames, drained);
      FinishedConcat(callbacks, calls);
      frames, callbacks, finished := frames + drained, callbacks + calls, finished || concluded;
    }
    assert chunks[..|chunks|] == chunks;
    if !ending.Aborted? && !finished {
      FinishedConcat(callbacks, [StreamError(ending)]);
      callbacks := callbacks + [StreamError(ending)];
    }
  }

  function CallbacksOf(events: seq<ServerEvent>): seq<Callback> {
    if events == [] then []
    else [OnEvent(events[0].name, JObject(events[0].fields))] + CallbacksOf(events[1..])
  }

  // ----- what has arrived of a printed stream -----

  /** How many events the first `length` characters of their print complete. */
  function Arrived(events: seq<ServerEvent>, length: nat): (k: nat)
    ensures k <= |events|
  {
    if events == [] || length < |Sse(events[0])| then 0 else 1 + Arrived(events[1..], length - |Sse(events[0])|)
  }

  /** All of them exactly when everything has arrived. */
  lemma {:induction false} AllArrivedIff(events: seq<ServerEvent>, length: nat)
    requires length <= |PrintAll(events)|
    ensures Arrived(events, length) == |events| <==> length == |PrintAll(events)|
  {
    hide Sse;
    if events != [] && length >= |Sse(events[0])| {
      AllArrivedIff(events[1..], length - |Sse(events[0])|);
    }
  }

  /** An event that has not arrived completely yields no frame. */
  lemma PartYieldsNothing(e: ServerEvent, part: string)
    requires part < Sse(e)
    ensures Drain(part) == ([], part)
  {
    hide Dumps, Boundary;
    PayloadIsTrimmed(e.fields);
    FieldValue("event:", NameOf(e.name));
    FieldValue("data:", Dumps(JObject(e.fields)));
    var first, second := Field("event:", NameOf(e.name)), Field("data:", Dumps(JObject(e.fields)));
    SseIsBlock(e);
    BlockBoundary(first, second, "");
    assert first + "\n" + second + "\n\n" + "" == Sse(e);
    assert part + Sse(e)[|part|..] == Sse(e);
    if Boundary(part).Some? {
      BoundaryStays(part, Sse(e)[|part|..]);
    }
  }

  /** Wherever a printed stream breaks off, exactly the frames of the events it has completed are drained. */
  lemma {:induction false} PrefixDrains(events: seq<ServerEvent>, got: string, missing: string)
    requires got + missing == PrintAll(events)
    ensures Drain(got).0 == FramesOf(events[..Arrived(events, |got|)])
  {
    hide Sse, Drain, Boundary;
    if events == [] {
      DrainUndoesPrint([]);
      assert got == "" && events[..0] == events;
    } else {
      var head, rest := Sse(events[0]), events[1..];
      if |got| < |head| {
        assert got == PrintAll(events)[..|got|] == head[..|got|];
        PartYieldsNothing(events[0], got);
      } else {
        var more := got[|head|..];
        assert got == PrintAll(events)[..|got|];
        assert got == head + more && more + missing == PrintAll(rest);
        PrefixDrains(rest, more, missing);
        OneFrame(events[0], more);
        var k := Arrived(rest, |more|);
        assert events[..1 + k] == [events[0]] + rest[..k];
        assert ([events[0]] + rest[..k])[1..] == rest[..k];
      }
    }
  }

  predicate Conclusive(e: ServerEvent) {
    e.name == Done || e.name == Error
  }

  lemma {:induction false} FinishedIff(events: seq<ServerEvent>)
    ensures Finished(CallbacksOf(events)) <==> exists i :: 0 <= i < |events| && Conclusive(events[i])
  {
    if events != [] {
      var first := [OnEvent(events[0].name, JObject(events[0].fields))];
      FinishedIff(events[1..]);
      FinishedConcat(first, CallbacksOf(events[1..]));
      assert first[..0] == [];
      assert forall i :: 0 < i < |events| ==> events[i] == events[1..][i - 1];
    }
  }

  /** The last event, and only the last, says how it ended. */
  ghost predicate EndsItself(events: seq<ServerEvent>) {
    && events != [] && Conclusive(events[|events| - 1])
    && forall i :: 0 <= i < |events| - 1 ==> !Conclusive(events[i])
  }

  /** End to end: for every list of events, every way of cutting the printed stream into chunks and every place where it
      breaks off, the frames and (JSON.parse undoing json.dumps) the calls are the events that have arrived completely, in
      order, with nothing left over at the end.  After a stream that ends itself nothing more is called; after a part of
      one the error of the stream is, unless the user has aborted. */
  lemma ChunkingIsInvisible(parse: string -> Option<Json>, events: seq<ServerEvent>, chunks: seq<string>, missing: string,
                            ending: Ending)
    requires Concat(chunks) + missing == PrintAll(events)
    requires forall e :: e in events ==> parse(Dumps(JObject(e.fields))) == Some(JObject(e.fields))
    ensures var k := Arrived(events, |Concat(chunks)|);
            && (k == |events| <==> missing == "")
            && Drain(Concat(chunks)).0 == FramesOf(events[..k])
            && Handle(parse, Drain(Concat(chunks)).0) == CallbacksOf(events[..k])
            && (EndsItself(events) ==>
                  Callbacks(parse, chunks, ending)
                  == CallbacksOf(events[..k]) + if missing == "" || ending.Aborted? then [] else [StreamError(ending)])
    ensures missing == "" ==> Drain(Concat(chunks)).1 == ""
  {
    hide Drain, Concat, PrintAll, Handle;
    var got := Concat(chunks);
    var k := Arrived(events, |got|);
    PrefixDrains(events, got, missing);
    AllArrivedIff(events, |got|);
    assert |got| + |missing| == |PrintAll(events)|;
    HandlesFrames(parse, events[..k]);
    FinishedIff(events[..k]);
    DrainUndoesPrint(events);
    assert got + "" == got;
    if missing == "" && EndsItself(events) {
      assert Conclusive(events[..k][|events| - 1]);
    }
  }

  lemma {:induction false} HandlesFrames(parse: string -> Option<Json>, events: seq<ServerEvent>)
    requires forall e :: e in events ==> parse(Dumps(JObject(e.fields))) == Some(JObject(e.fields))
    ensures Handle(parse, FramesOf(events)) == CallbacksOf(events)
  {
    hide Dumps, NameOf, NameFrom;
    if events != [] {
      var e, rest := events[0], events[1..];
      assert e in events;
      HandlesFrames(parse, rest);
      NameReadsBack(e.name);
      var frame := Frame(NameOf(e.name), Dumps(JObject(e.fields)));
      assert FramesOf(events) == [frame] + FramesOf(rest);
      assert ([frame] + FramesOf(rest))[1..] == FramesOf(rest);
    }
  }

  lemma NameReadsBack(name: EventName)
    ensures NameFrom(NameOf(name)) == Some(name)
  {
  }
}
