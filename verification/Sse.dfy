/** Job events on the wire: the daemon's printer (internal/daemon/sse.go) and the desktop's
    incremental parser (streamSSE in desktop/main/client/daemonClient.ts). */
module Sse {
  import opened Text

  // ---------------------------------------------------------------- the printer

  /** `data` is the encoded payload: JSON on one line. */
  datatype Event = Event(id: int, kind: string, data: string)

  function IdLine(id: int): string {
    if id > 0 then "id: " + Decimal(id) + "\n" else ""
  }

  function Frame(e: Event): string {
    IdLine(e.id) + ("event: " + e.kind + "\n" + ("data: " + e.data + "\n" + "\n"))
  }

  function Frames(es: seq<Event>): string {
    if es == [] then "" else Frame(es[0]) + Frames(es[1..])
  }

  class ResponseWriter {
    var written: string

    constructor ()
      ensures written == ""
    {
      written := "";
    }

    method WriteSSE(e: Event)
      modifies this
      ensures written == old(written) + Frame(e)
    {
      ghost var before := written;
      if e.id > 0 {
        written := written + "id: " + Decimal(e.id) + "\n";
      }
      assert written == before + IdLine(e.id);
      written := written + "event: " + e.kind + "\n";
      written := written + "data: " + e.data + "\n\n";
      assert "\n\n" == "\n" + "\n";
    }

    /** The loop of replayEvents over the retained events. */
    method WriteAll(es: seq<Event>)
      modifies this
      ensures written == old(written) + Frames(es)
    {
      hide Frame;
      var i := 0;
      ghost var all := written + Frames(es);
      assert es[0..] == es;
      while i < |es|
        invariant 0 <= i <= |es|
        invariant written + Frames(es[i..]) == all
      {
        ghost var before, rest := written, Frames(es[i + 1..]);
        assert es[i..][0] == es[i] && es[i..][1..] == es[i + 1..];
        WriteSSE(es[i]);
        assert before + (Frame(es[i]) + rest) == written + rest;
        i := i + 1;
      }
    }
  }

  // ---------------------------------------------------------------- the payload

  const RESERVED := {"schema_version", "job_id", "event_id", "type"}

  /** What an event carries: nothing, a JSON object, or any other JSON value. */
  datatype EventData = NoData | Fields(fields: map<string, string>) | Other(text: string)

  /** The envelope always wins over a field of the same name. */
  function Merged(payload: map<string, string>, data: EventData): map<string, string> {
    match data
    case NoData => payload
    case Fields(fields) => payload + (fields - RESERVED)
    case Other(text) => payload["payload" := text]
  }

  /** The fields taken while the keys `left` are still to be visited. */
  function Taken(fields: map<string, string>, left: set<string>): map<string, string> {
    fields - (RESERVED + left)
  }

  lemma NothingTaken(payload: map<string, string>, fields: map<string, string>)
    ensures payload + Taken(fields, fields.Keys) == payload
  {
  }

  lemma AllTaken(fields: map<string, string>)
    ensures Taken(fields, {}) == fields - RESERVED
  {
    assert RESERVED + {} == RESERVED;
  }

  /** The reserved fields stay as they were, and every other field of the event is there. */
  lemma MergedFacts(payload: map<string, string>, data: EventData)
    requires RESERVED <= payload.Keys
    ensures var merged := Merged(payload, data);
            && (forall key <- RESERVED :: key in merged && merged[key] == payload[key])
            && (data.Fields? ==> forall key <- data.fields :: key !in RESERVED ==> key in merged && merged[key] == data.fields[key])
            && (data.Fields? ==> merged.Keys == payload.Keys + (data.fields.Keys - RESERVED))
            && (data.NoData? ==> merged == payload)
            && (data.Other? ==> merged.Keys == payload.Keys + {"payload"} && merged["payload"] == data.text)
            && (forall key <- payload | !(data.Fields? && key in data.fields) && !(data.Other? && key == "payload") ::
                  merged[key] == payload[key])
  {
  }

  lemma OneTaken(payload: map<string, string>, fields: map<string, string>, left: set<string>, key: string)
    requires key in left && left <= fields.Keys
    ensures payload + Taken(fields, left - {key})
         == if key in RESERVED then payload + Taken(fields, left) else (payload + Taken(fields, left))[key := fields[key]]
  {
  }

  method MergeEventData(payload: map<string, string>, data: EventData) returns (merged: map<string, string>)
    requires RESERVED <= payload.Keys
    ensures merged == Merged(payload, data)
    ensures forall key <- RESERVED :: key in merged && merged[key] == payload[key]
    ensures data.Fields? ==> forall key <- data.fields :: key !in RESERVED ==> key in merged && merged[key] == data.fields[key]
    ensures merged.Keys == payload.Keys
                           + match data
                             case NoData => {}
                             case Fields(fields) => fields.Keys - RESERVED
                             case Other(_) => {"payload"}
    ensures data.Other? ==> merged["payload"] == data.text
    ensures forall key <- payload | !(data.Fields? && key in data.fields) && !(data.Other? && key == "payload") ::
              merged[key] == payload[key]
  {
    hide Taken;
    merged := payload;
    MergedFacts(payload, data);
    match data {
      case NoData =>
      case Other(text) =>
        merged := merged["payload" := text];
      case Fields(fields) =>
        var keys := fields.Keys;
        NothingTaken(payload, fields);
        while keys != {}
          invariant keys <= fields.Keys && merged == payload + Taken(fields, keys)
          decreases |keys|
        {
          var key :| key in keys;
          OneTaken(payload, fields, keys, key);
          keys := keys - {key};
          if key in RESERVED {
            continue;
          }
          merged := merged[key := fields[key]];
        }
        AllTaken(fields);
    }
  }

  // ---------------------------------------------------------------- the parser

  datatype Dispatch = Dispatch(kind: string, data: string)

  /** The variables of streamSSE except the unfinished line, and what it handed to onEvent. */
  datatype Reader = Reader(kind: string, data: string, eventId: string, out: seq<Dispatch>)

  function StartReader(lastEventId: string): Reader {
    Reader("heartbeat", "", lastEventId, [])
  }

  predicate StartsWith(s: string, prefix: string) {
    prefix <= s
  }

  function OnLine(r: Reader, line: string): Reader {
    if StartsWith(line, "event:") then r.(kind := Trim(JsSpace, line[6..]))
    else if StartsWith(line, "id:") then r.(eventId := Trim(JsSpace, line[3..]))
    else if StartsWith(line, "data:") then r.(data := r.data + Trim(JsSpace, line[5..]))
    else if Trim(JsSpace, line) == "" then
      Reader("heartbeat", "", r.eventId, r.out + [Dispatch(r.kind, r.data)])
    else r
  }

  /** The pattern \r?\n takes one carriage return off the end of a line. */
  function Chomp(line: string): string {
    if line != "" && line[|line| - 1] == '\r' then line[..|line| - 1] else line
  }

  function OnLines(r: Reader, lines: seq<string>): Reader
    decreases lines
  {
    if lines == [] then r else OnLines(OnLine(r, Chomp(lines[0])), lines[1..])
  }

  function Complete(lines: seq<string>): seq<string>
    requires lines != []
  {
    lines[..|lines| - 1]
  }

  function Last(lines: seq<string>): string
    requires lines != []
  {
    lines[|lines| - 1]
  }

  /** Reading a whole text at once: every line that is complete, from the left. */
  function ReadAll(r: Reader, text: string): Reader {
    OnLines(r, Complete(Lines(text)))
  }

  function Concat(chunks: seq<string>): string {
    if chunks == [] then "" else chunks[0] + Concat(chunks[1..])
  }

  /** The body of the inner loop of streamSSE: one line of the stream. */
  method TakeLine(r: Reader, part: string) returns (next: Reader)
    ensures next == OnLine(r, Chomp(part))
  {
    var line := Chomp(part);
    var kind, data, eventId, out := r.kind, r.data, r.eventId, r.out;
    if StartsWith(line, "event:") {
      kind := Trim(JsSpace, line[6..]);
    } else if StartsWith(line, "id:") {
      eventId := Trim(JsSpace, line[3..]);
    } else if StartsWith(line, "data:") {
      data := data + Trim(JsSpace, line[5..]);
    } else if Trim(JsSpace, line) == "" {
      out := out + [Dispatch(kind, data)];
      data := "";
      kind := "heartbeat";
    }
    next := Reader(kind, data, eventId, out);
  }

  lemma NoLines(r: Reader)
    ensures OnLines(r, []) == r
  {
  }

  lemma OnLinesFirst(r: Reader, lines: seq<string>)
    requires lines != []
    ensures OnLines(r, lines) == OnLines(OnLine(r, Chomp(lines[0])), lines[1..])
  {
  }

  /** streamSSE on the chunks its reader delivers until the response ends. */
  method StreamSSE(chunks: seq<string>, lastEventId: string) returns (out: seq<Dispatch>, eventId: string)
    ensures var r := ReadAll(StartReader(lastEventId), Concat(chunks)); out == r.out && eventId == r.eventId
  {
    hide OnLine, OnLines, Lines;
    var buffer := "";
    var r := StartReader(lastEventId);
    ghost var text := Concat(chunks);
    assert chunks[0..] == chunks && buffer + text == text;
    for i := 0 to |chunks|
      invariant '\n' !in buffer
      invariant OnLines(r, Complete(Lines(buffer + Concat(chunks[i..])))) == ReadAll(StartReader(lastEventId), text)
    {
      assert chunks[i..][0] == chunks[i] && chunks[i..][1..] == chunks[i + 1..];
      ghost var rest := Concat(chunks[i + 1..]);
      assert buffer + Concat(chunks[i..]) == (buffer + chunks[i]) + rest;
      buffer := buffer + chunks[i];
      var parts := Lines(buffer);
      LinesConcat(buffer, rest);
      LinesHaveNoBreak(buffer);
      buffer := Last(parts);
      ghost var later := Lines(buffer + rest);
      parts := Complete(parts);
      assert Complete(parts + later) == parts + Complete(later);
      assert parts[0..] == parts;
      for j := 0 to |parts|
        invariant OnLines(r, parts[j..] + Complete(later)) == ReadAll(StartReader(lastEventId), text)
      {
        assert (parts[j..] + Complete(later))[1..] == parts[j + 1..] + Complete(later);
        OnLinesFirst(r, parts[j..] + Complete(later));
        r := TakeLine(r, parts[j]);
      }
      assert parts[|parts|..] + Complete(later) == Complete(later);
    }
    assert buffer + Concat(chunks[|chunks|..]) == buffer;
    LinesOfLine(buffer);
    NoLines(r);
    out, eventId := r.out, r.eventId;
  }

  /** A line ahead of others. */
  lemma CompleteCons(first: string, lines: seq<string>, later: seq<string>)
    requires lines != []
    ensures Complete([first] + lines) + later == [first] + (Complete(lines) + later)
    ensures Last([first] + lines) == Last(lines)
  {
    assert Complete([first] + lines) == [first] + Complete(lines);
  }

  /** A character ahead of a line that is complete. */
  lemma CompleteHead(c: char, lines: seq<string>, later: seq<string>)
    requires |lines| > 1
    ensures var longer, all := [[c] + lines[0]] + lines[1..], Complete(lines) + later;
            Complete(longer) + later == [[c] + all[0]] + all[1..] && Last(longer) == Last(lines)
  {
    var rest := lines[1..];
    CompleteCons([c] + lines[0], rest, later);
    CompleteCons(lines[0], rest, later);
    assert lines == [lines[0]] + rest;
  }

  /** Splitting a longer text only goes on from the unfinished last line. */
  lemma {:induction false} LinesConcat(a: string, b: string)
    ensures Lines(a + b) == Complete(Lines(a)) + Lines(Last(Lines(a)) + b)
  {
    hide Lines;
    if a == "" {
      assert a + b == b;
      LinesOfLine("");
    } else {
      hide Complete, Last;
      var rest := a[1..];
      var lines := Lines(rest);
      LinesConcat(rest, b);
      assert a == [a[0]] + rest && a + b == [a[0]] + (rest + b);
      LinesStep(a[0], rest);
      LinesStep(a[0], rest + b);
      if a[0] == '\n' {
        CompleteCons("", lines, Lines(Last(lines) + b));
      } else if |lines| == 1 {
        LoneLine(lines[0]);
        LoneLine([a[0]] + lines[0]);
        assert lines == [lines[0]];
        LinesStep(a[0], lines[0] + b);
        assert ([a[0]] + lines[0]) + b == [a[0]] + (lines[0] + b);
      } else {
        CompleteHead(a[0], lines, Lines(Last(lines) + b));
      }
    }
  }

  lemma LoneLine(line: string)
    ensures Complete([line]) == [] && Last([line]) == line
  {
  }

  // ---------------------------------------------------------------- the round trip

  /** Comes back from the parser as it was printed: on one line, no white space at its ends. */
  predicate Clean(s: string) {
    '\n' !in s && Trimmed(JsSpace, s)
  }

  function Dispatches(es: seq<Event>): seq<Dispatch> {
    if es == [] then [] else [Dispatch(es[0].kind, es[0].data)] + Dispatches(es[1..])
  }

  /** The id of the last event that has one, as text. */
  function LastId(es: seq<Event>, before: string): string {
    if es == [] then before
    else LastId(es[1..], if es[0].id > 0 then Decimal(es[0].id) else before)
  }

  lemma ChompLine(field: string, value: string)
    requires Trimmed(JsSpace, value) && field != "" && field[|field| - 1] == ' '
    ensures Chomp(field + value) == field + value
  {
    if value != "" { assert (field + value)[|field + value| - 1] == value[|value| - 1]; }
  }

  lemma FieldValue(value: string)
    requires Trimmed(JsSpace, value)
    ensures Trim(JsSpace, " " + value) == value
  {
    TrimPadded(JsSpace, " ", value, "");
    assert " " + value + "" == " " + value;
  }

  lemma DigitsTrimmed(s: string)
    requires Digits(s)
    ensures '\n' !in s && Trimmed(JsSpace, s)
  {
    assert s[0] in s && s[|s| - 1] in s;
  }

  lemma ReadLine(r: Reader, line: string, rest: string)
    requires '\n' !in line
    ensures ReadAll(r, line + "\n" + rest) == ReadAll(OnLine(r, Chomp(line)), rest)
  {
    LinesCons(line, rest);
    assert Complete([line] + Lines(rest)) == [line] + Complete(Lines(rest));
  }

  lemma OnIdLine(r: Reader, id: nat)
    ensures var line := "id: " + Decimal(id);
            '\n' !in line && OnLine(r, Chomp(line)) == r.(eventId := Decimal(id))
  {
    var value := Decimal(id);
    DigitsTrimmed(value);
    ChompLine("id: ", value);
    FieldValue(value);
    var line := "id: " + value;
    assert line[0] == 'i' && ("event:")[0] == 'e' && !StartsWith(line, "event:");
    assert line[..3] == "id:" && line[3..] == " " + value;
  }

  lemma OnKindLine(r: Reader, kind: string)
    requires Clean(kind)
    ensures var line := "event: " + kind; '\n' !in line && OnLine(r, Chomp(line)) == r.(kind := kind)
  {
    ChompLine("event: ", kind);
    FieldValue(kind);
    var line := "event: " + kind;
    assert line[..6] == "event:" && line[6..] == " " + kind;
  }

  lemma OnDataLine(r: Reader, data: string)
    requires Clean(data) && r.data == ""
    ensures var line := "data: " + data; '\n' !in line && OnLine(r, Chomp(line)) == r.(data := data)
  {
    ChompLine("data: ", data);
    FieldValue(data);
    var line := "data: " + data;
    assert line[0] == 'd' && ("event:")[0] == 'e' && ("id:")[0] == 'i';
    assert !StartsWith(line, "event:") && !StartsWith(line, "id:");
    assert line[..5] == "data:" && line[5..] == " " + data && "" + data == data;
  }

  lemma ReadId(r: Reader, id: int, rest: string)
    ensures ReadAll(r, IdLine(id) + rest) == ReadAll(r.(eventId := if id > 0 then Decimal(id) else r.eventId), rest)
  {
    hide OnLine, Chomp, ReadAll;
    if id > 0 {
      OnIdLine(r, id);
      assert IdLine(id) + rest == "id: " + Decimal(id) + "\n" + rest;
      ReadLine(r, "id: " + Decimal(id), rest);
    } else {
      assert IdLine(id) + rest == rest;
    }
  }

  lemma ReadKind(r: Reader, kind: string, rest: string)
    requires Clean(kind)
    ensures ReadAll(r, "event: " + kind + "\n" + rest) == ReadAll(r.(kind := kind), rest)
  {
    hide OnLine, Chomp, ReadAll;
    OnKindLine(r, kind);
    ReadLine(r, "event: " + kind, rest);
  }

  lemma ReadData(r: Reader, data: string, rest: string)
    requires Clean(data) && r.data == ""
    ensures ReadAll(r, "data: " + data + "\n" + rest) == ReadAll(r.(data := data), rest)
  {
    hide OnLine, Chomp, ReadAll;
    OnDataLine(r, data);
    ReadLine(r, "data: " + data, rest);
  }

  lemma ReadEnd(r: Reader, rest: string)
    ensures ReadAll(r, "\n" + rest) == ReadAll(Reader("heartbeat", "", r.eventId, r.out + [Dispatch(r.kind, r.data)]), rest)
  {
    assert "" + "\n" + rest == "\n" + rest;
    ReadLine(r, "", rest);
  }

  /** One printed event is one dispatch. */
  lemma ReadFrame(r: Reader, e: Event, rest: string)
    requires Clean(e.kind) && Clean(e.data) && r.data == "" && r.kind == "heartbeat"
    ensures ReadAll(r, Frame(e) + rest)
         == ReadAll(Reader("heartbeat", "", if e.id > 0 then Decimal(e.id) else r.eventId,
                           r.out + [Dispatch(e.kind, e.data)]), rest)
  {
    var third := "\n" + rest;
    var second := "data: " + e.data + "\n" + third;
    var first := "event: " + e.kind + "\n" + second;
    assert Frame(e) + rest == IdLine(e.id) + first by {
      assert "data: " + e.data + "\n" + "\n" + rest == second;
      assert ("event: " + e.kind + "\n" + ("data: " + e.data + "\n" + "\n")) + rest == first;
      assert IdLine(e.id) + ("event: " + e.kind + "\n" + ("data: " + e.data + "\n" + "\n")) + rest == IdLine(e.id) + first;
    }
    ReadId(r, e.id, first);
    var r1 := r.(eventId := if e.id > 0 then Decimal(e.id) else r.eventId);
    ReadKind(r1, e.kind, second);
    ReadData(r1.(kind := e.kind), e.data, third);
    ReadEnd(r1.(kind := e.kind, data := e.data), rest);
  }

  lemma ReadNothing(r: Reader)
    ensures ReadAll(r, "") == r
  {
  }

  predicate AllClean(es: seq<Event>) {
    forall e <- es :: Clean(e.kind) && Clean(e.data)
  }

  lemma {:induction false} ReadFrames(r: Reader, es: seq<Event>)
    requires AllClean(es) && r.data == "" && r.kind == "heartbeat"
    ensures ReadAll(r, Frames(es)) == Reader("heartbeat", "", LastId(es, r.eventId), r.out + Dispatches(es))
    decreases es
  {
    hide Frame, ReadAll, Clean;
    if es == [] {
      ReadNothing(r);
      assert r.out + [] == r.out;
    } else {
      assert es[0] in es;
      ReadFrame(r, es[0], Frames(es[1..]));
      var r1 := Reader("heartbeat", "", if es[0].id > 0 then Decimal(es[0].id) else r.eventId,
                       r.out + [Dispatch(es[0].kind, es[0].data)]);
      ReadFrames(r1, es[1..]);
      assert r.out + ([Dispatch(es[0].kind, es[0].data)] + Dispatches(es[1..])) == r.out + Dispatches(es);
    }
  }

  ghost predicate ReaderClean(r: Reader) {
    Clean(r.kind) && Clean(r.data) && forall d <- r.out :: Clean(d.kind) && Clean(d.data)
  }

  lemma TrimPieceClean(s: string, k: nat)
    requires '\n' !in s && k <= |s|
    ensures Clean(Trim(JsSpace, s[k..]))
  {
    var a, b := TrimSplit(JsSpace, s[k..]);
    forall c | c in Trim(JsSpace, s[k..]) ensures c in s {
      assert c in s[k..];
    }
  }

  lemma {:induction false} OnLinesClean(r: Reader, lines: seq<string>)
    requires ReaderClean(r) && forall line <- lines :: '\n' !in line
    ensures ReaderClean(OnLines(r, lines))
    decreases lines
  {
    if lines != [] {
      var line := Chomp(lines[0]);
      assert lines[0] in lines;
      assert '\n' !in line;
      if StartsWith(line, "event:") { TrimPieceClean(line, 6); }
      else if StartsWith(line, "id:") {}
      else if StartsWith(line, "data:") {
        TrimPieceClean(line, 5);
      }
      OnLinesClean(OnLine(r, line), lines[1..]);
    }
  }

  lemma {:induction false} DispatchesAll(es: seq<Event>, out: seq<Dispatch>)
    requires out == Dispatches(es) && forall d <- out :: Clean(d.kind) && Clean(d.data)
    ensures AllClean(es)
  {
    if es != [] {
      assert out[0] in out && out[1..] == Dispatches(es[1..]);
      DispatchesAll(es[1..], out[1..]);
    }
  }

  /** The round trip, however the printed text is cut into chunks: the parser hands over exactly the
      printed events if and only if every event type and every payload is on one line and has no
      white space at its ends; it then returns the id of the last event that has one. */
  lemma RoundTrip(es: seq<Event>, chunks: seq<string>, lastEventId: string)
    requires Concat(chunks) == Frames(es)
    ensures var r := ReadAll(StartReader(lastEventId), Concat(chunks));
            && (r.out == Dispatches(es) <==> AllClean(es))
            && (AllClean(es) ==> r.eventId == LastId(es, lastEventId))
  {
    var start := StartReader(lastEventId);
    var r := ReadAll(start, Frames(es));
    if AllClean(es) {
      ReadFrames(start, es);
      assert [] + Dispatches(es) == Dispatches(es);
    }
    if r.out == Dispatches(es) {
      LinesHaveNoBreak(Frames(es));
      OnLinesClean(start, Complete(Lines(Frames(es))));
      DispatchesAll(es, r.out);
    }
  }

  // ---------------------------------------------------------------- any other frame

  /** The trimmed value of the last of some lines that start with `field`. */
  function LastValue(lines: seq<string>, field: string, otherwise: string): string {
    if lines == [] then otherwise
    else if StartsWith(Chomp(lines[|lines| - 1]), field) then Trim(JsSpace, Chomp(lines[|lines| - 1])[|field|..])
    else LastValue(lines[..|lines| - 1], field, otherwise)
  }

  /** The trimmed values of all lines that start with `field`, one behind the other. */
  function AllValues(lines: seq<string>, field: string): string {
    if lines == [] then ""
    else AllValues(lines[..|lines| - 1], field)
         + if StartsWith(Chomp(lines[|lines| - 1]), field) then Trim(JsSpace, Chomp(lines[|lines| - 1])[|field|..]) else ""
  }

  lemma {:induction false} OnLinesLast(r: Reader, lines: seq<string>)
    requires lines != []
    ensures OnLines(r, lines) == OnLine(OnLines(r, lines[..|lines| - 1]), Chomp(lines[|lines| - 1]))
    decreases lines
  {
    hide OnLine, Chomp;
    var first := OnLine(r, Chomp(lines[0]));
    if |lines| == 1 {
      assert lines[1..] == [] && lines[..0] == [];
    } else {
      assert lines[1..][..|lines| - 2] == lines[..|lines| - 1][1..];
      OnLinesLast(first, lines[1..]);
    }
  }

  /** The lines of one frame, in any order and number, a field or not. */
  predicate FrameLines(lines: seq<string>) {
    forall line <- lines :: '\n' !in line && Trim(JsSpace, Chomp(line)) != ""
  }

  lemma {:induction false} FrameLinesRead(r: Reader, lines: seq<string>)
    requires FrameLines(lines) && r.kind == "heartbeat" && r.data == ""
    ensures OnLines(r, lines) == Reader(LastValue(lines, "event:", "heartbeat"), AllValues(lines, "data:"),
                                        LastValue(lines, "id:", r.eventId), r.out)
    decreases lines
  {
    if lines != [] {
      var rest, line := lines[..|lines| - 1], Chomp(lines[|lines| - 1]);
      assert forall x <- rest :: x in lines;
      FrameLinesRead(r, rest);
      OnLinesLast(r, lines);
      assert lines[|lines| - 1] in lines;
      hide OnLines, Trim, Chomp;
      OneField(line);
    }
  }

  /** A line starts with one field name at most. */
  lemma OneField(line: string)
    ensures StartsWith(line, "event:") ==> !StartsWith(line, "id:") && !StartsWith(line, "data:") && line[..6] == "event:"
    ensures StartsWith(line, "id:") ==> !StartsWith(line, "event:") && !StartsWith(line, "data:") && line[..3] == "id:"
    ensures StartsWith(line, "data:") ==> !StartsWith(line, "event:") && !StartsWith(line, "id:") && line[..5] == "data:"
  {
    assert ("event:")[0] == 'e' && ("id:")[0] == 'i' && ("data:")[0] == 'd';
  }

  /** Whatever lines a frame has, the parser hands over one event when it ends: its type is that of the
      last type line, or heartbeat without one; its payload is that of all data lines together; lines
      that are no field are ignored; and the id is that of the last id line, or stays. */
  lemma FrameDispatched(r: Reader, lines: seq<string>, rest: string)
    requires FrameLines(lines) && r.kind == "heartbeat" && r.data == ""
    ensures ReadAll(r, Unlines(lines + [""]) + rest)
         == ReadAll(Reader("heartbeat", "", LastValue(lines, "id:", r.eventId),
                           r.out + [Dispatch(LastValue(lines, "event:", "heartbeat"), AllValues(lines, "data:"))]), rest)
  {
    hide ReadAll, OnLines, Unlines, LastValue, AllValues;
    UnlinesConcat(lines, [""]);
    assert Unlines([""]) == "\n" by { OneBreak(); }
    assert Unlines(lines) + "\n" + rest == Unlines(lines) + ("\n" + rest);
    assert forall line <- lines :: '\n' !in line;
    ReadLines(r, lines, "\n" + rest);
    FrameLinesRead(r, lines);
    ReadEnd(OnLines(r, lines), rest);
  }

  lemma OneBreak()
    ensures Unlines([""]) == "\n"
  {
    assert [""][1..] == [] && Unlines([]) == "" && "" + "\n" + "" == "\n";
  }

  lemma {:induction false} ReadLines(r: Reader, lines: seq<string>, rest: string)
    requires forall line <- lines :: '\n' !in line
    ensures ReadAll(r, Unlines(lines) + rest) == ReadAll(OnLines(r, lines), rest)
    decreases lines
  {
    hide ReadAll, OnLine, Chomp;
    if lines == [] {
      assert Unlines(lines) + rest == rest;
    } else {
      assert lines[0] in lines && forall x <- lines[1..] :: x in lines;
      assert Unlines(lines) + rest == lines[0] + "\n" + (Unlines(lines[1..]) + rest);
      ReadLine(r, lines[0], Unlines(lines[1..]) + rest);
      ReadLines(OnLine(r, Chomp(lines[0])), lines[1..], rest);
    }
  }

  // ---------------------------------------------------------------- a stream that is cut

  /** How many of the events have their whole frame within the first `n` characters. */
  function WholeFrames(es: seq<Event>, n: nat): (k: nat)
    ensures k <= |es|
    decreases es
  {
    if es == [] || n < |Frame(es[0])| then 0 else 1 + WholeFrames(es[1..], n - |Frame(es[0])|)
  }

  /** The text ends between a complete id line and the empty line that ends its frame. */
  predicate InsideFrame(es: seq<Event>, received: string) {
    var k := WholeFrames(es, |received|);
    k < |es| && es[k].id > 0 && |received| >= |Frames(es[..k])| + |IdLine(es[k].id)|
  }

  lemma ReadPart(r: Reader, part: string)
    requires '\n' !in part
    ensures ReadAll(r, part) == r
  {
    LinesOfLine(part);
    NoLines(r);
  }

  /** A part of a line, or the whole line and more. */
  lemma PartOfLine(received: string, line: string, rest: string)
    requires '\n' !in line && received <= line + "\n" + rest
    ensures if |received| <= |line| then '\n' !in received
            else received == line + "\n" + received[|line| + 1..] && received[|line| + 1..] <= rest
  {
    var all := line + "\n" + rest;
    assert received == all[..|received|];
    if |received| > |line| {
      assert received[|line| + 1..] == rest[..|received| - |line| - 1];
      assert received[..|line| + 1] == line + "\n";
    } else {
      assert received == line[..|received|];
    }
  }

  /** A frame that is cut behind its id line dispatches nothing. */
  lemma ReadPartOfBody(r: Reader, e: Event, received: string)
    requires Clean(e.kind) && Clean(e.data) && r.data == ""
    requires received <= "event: " + e.kind + "\n" + ("data: " + e.data + "\n" + "\n")
    requires |received| < |"event: " + e.kind + "\n" + ("data: " + e.data + "\n" + "\n")|
    ensures var n := ReadAll(r, received); n.out == r.out && n.eventId == r.eventId
  {
    hide ReadAll, Trimmed;
    var first, second := "event: " + e.kind, "data: " + e.data;
    PartOfLine(received, first, second + "\n" + "\n");
    if |received| <= |first| {
      ReadPart(r, received);
    } else {
      var later := received[|first| + 1..];
      ReadKind(r, e.kind, later);
      PartOfLine(later, second, "\n");
      if |later| <= |second| {
        ReadPart(r.(kind := e.kind), later);
      } else {
        assert later[|second| + 1..] == "";
        ReadData(r.(kind := e.kind), e.data, "");
        assert later == second + "\n" + "";
        ReadPart(r.(kind := e.kind, data := e.data), "");
      }
    }
  }

  lemma ReadPartOfFrame(r: Reader, e: Event, received: string)
    requires Clean(e.kind) && Clean(e.data) && r.data == ""
    requires received <= Frame(e) && |received| < |Frame(e)|
    ensures var n := ReadAll(r, received);
            && n.out == r.out
            && n.eventId == if e.id > 0 && |received| >= |IdLine(e.id)| then Decimal(e.id) else r.eventId
  {
    hide ReadAll, Clean, Decimal;
    var body := "event: " + e.kind + "\n" + ("data: " + e.data + "\n" + "\n");
    var n := |IdLine(e.id)|;
    assert Frame(e) == IdLine(e.id) + body;
    if |received| < n {
      var line := "id: " + Decimal(e.id);
      OnIdLine(r, e.id);
      assert Frame(e) == line + "\n" + body;
      PartOfLine(received, line, body);
      ReadPart(r, received);
    } else {
      var later := received[n..];
      assert received == Frame(e)[..|received|];
      assert received == IdLine(e.id) + later && later == body[..|later|];
      ReadId(r, e.id, later);
      ReadPartOfBody(r.(eventId := if e.id > 0 then Decimal(e.id) else r.eventId), e, later);
    }
  }

  /** The events handed over, and the id the parser is left with. */
  ghost predicate CutRead(r: Reader, es: seq<Event>, received: string) {
    var n, k := ReadAll(r, received), WholeFrames(es, |received|);
    && n.out == r.out + Dispatches(es[..k])
    && n.eventId == (if InsideFrame(es, received) then Decimal(es[k].id) else LastId(es[..k], r.eventId))
    && Frames(es[..k]) <= received
    && (k < |es| ==> |received| < |Frames(es[..k])| + |Frame(es[k])|)
  }

  /** One whole frame ahead of text that is cut. */
  lemma CutReadStep(r: Reader, es: seq<Event>, received: string, later: string, r1: Reader)
    requires es != [] && received == Frame(es[0]) + later && CutRead(r1, es[1..], later)
    requires ReadAll(r, received) == ReadAll(r1, later)
    requires r1.out == r.out + [Dispatch(es[0].kind, es[0].data)]
    requires r1.eventId == if es[0].id > 0 then Decimal(es[0].id) else r.eventId
    ensures CutRead(r, es, received)
  {
    hide Frame, ReadAll, IdLine, Decimal;
    var rest, k := es[1..], WholeFrames(es[1..], |later|);
    assert WholeFrames(es, |received|) == k + 1;
    assert es[..k + 1][0] == es[0] && es[..k + 1][1..] == rest[..k];
    assert r.out + Dispatches(es[..k + 1]) == r.out + [Dispatch(es[0].kind, es[0].data)] + Dispatches(rest[..k]);
    assert Frames(es[..k + 1]) == Frame(es[0]) + Frames(rest[..k]);
    assert Frames(es[..k + 1]) <= received;
    assert k < |rest| ==> es[k + 1] == rest[k];
    assert InsideFrame(es, received) <==> InsideFrame(rest, later);
  }

  lemma {:induction false} ReadCut(r: Reader, es: seq<Event>, received: string)
    requires AllClean(es) && received <= Frames(es) && r.data == "" && r.kind == "heartbeat"
    ensures CutRead(r, es, received)
    decreases es
  {
    hide Frame, ReadAll, Clean, CutRead;
    if es == [] {
      CutNowhere(r, received);
      return;
    }
    var e := es[0];
    assert e in es && Frames(es) == Frame(e) + Frames(es[1..]);
    assert received == Frames(es)[..|received|];
    if |received| < |Frame(e)| {
      assert received == Frame(e)[..|received|];
      ReadPartOfFrame(r, e, received);
      CutInFirst(r, es, received);
    } else {
      var later := received[|Frame(e)|..];
      assert received == Frame(e) + later && later == Frames(es[1..])[..|later|];
      ReadFrame(r, e, later);
      var r1 := Reader("heartbeat", "", if e.id > 0 then Decimal(e.id) else r.eventId, r.out + [Dispatch(e.kind, e.data)]);
      ReadCut(r1, es[1..], later);
      CutReadStep(r, es, received, later, r1);
    }
  }

  lemma CutNowhere(r: Reader, received: string)
    requires received == ""
    ensures CutRead(r, [], received)
  {
    ReadNothing(r);
    var none: seq<Event> := [];
    assert none[..0] == none && r.out + Dispatches(none) == r.out;
  }

  lemma CutInFirst(r: Reader, es: seq<Event>, received: string)
    requires es != [] && |received| < |Frame(es[0])|
    requires var n := ReadAll(r, received);
             && n.out == r.out
             && n.eventId == if es[0].id > 0 && |received| >= |IdLine(es[0].id)| then Decimal(es[0].id) else r.eventId
    ensures CutRead(r, es, received)
  {
    hide Frame, ReadAll, Decimal;
    assert es[..0] == [] && r.out + Dispatches(es[..0]) == r.out;
  }

  /** A connection cut at any character hands over the events whose whole frame was received, in order.
      The parser is left with the id of the last of them that has one, or, if the cut lies between a
      complete id line and the end of its frame, with the id of an event it has not handed over. */
  lemma CutConnection(es: seq<Event>, received: string, lost: string, lastEventId: string)
    requires AllClean(es) && received + lost == Frames(es)
    ensures var r, k := ReadAll(StartReader(lastEventId), received), WholeFrames(es, |received|);
            && r.out == Dispatches(es[..k])
            && r.out <= Dispatches(es)
            && r.eventId == (if InsideFrame(es, received) then Decimal(es[k].id) else LastId(es[..k], lastEventId))
            && Frames(es[..k]) <= received
            && (k < |es| ==> |received| < |Frames(es[..k])| + |Frame(es[k])|)
  {
    hide ReadAll, Frame, Frames, IdLine, Clean, InsideFrame, Dispatches, LastId, WholeFrames, Decimal;
    var k := WholeFrames(es, |received|);
    StartsFrames(received, lost, Frames(es));
    ReadCut(StartReader(lastEventId), es, received);
    assert [] + Dispatches(es[..k]) == Dispatches(es[..k]);
    FirstDispatches(es, k);
  }

  lemma StartsFrames(received: string, lost: string, all: string)
    requires received + lost == all
    ensures received <= all
  {
  }

  lemma FirstDispatches(es: seq<Event>, k: nat)
    requires k <= |es|
    ensures Dispatches(es[..k]) <= Dispatches(es)
  {
    hide Dispatches;
    assert es == es[..k] + es[k..];
    DispatchesConcat(es[..k], es[k..]);
  }

  lemma {:induction false} DispatchesConcat(a: seq<Event>, b: seq<Event>)
    ensures Dispatches(a + b) == Dispatches(a) + Dispatches(b)
  {
    if a == [] { assert a + b == b; } else {
      assert (a + b)[1..] == a[1..] + b;
      DispatchesConcat(a[1..], b);
    }
  }
}
