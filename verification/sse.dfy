/** Server-sent events, written by the HTTP handler and read back by the upstream
    reader (internal/httpapi/handler.go, internal/provider/sse.go). A string stands
    for its bytes, one character each. */
module ServerSentEvents {
  import opened Common

  const MAX_EVENT_SIZE: nat := 65536

  /** The scanner's buffer holds a line together with its line feed. */
  const MAX_LINE: nat := MAX_EVENT_SIZE - 1

  // ---------------------------------------------------------- the scanner

  datatype Scan = Scan(lines: seq<string>, tooLong: bool)

  /** The length of the first line, without its line feed. */
  function LineLength(s: string): (n: nat)
    ensures n <= |s|
    ensures forall i :: 0 <= i < n ==> s[i] != '\n'
    ensures n < |s| ==> s[n] == '\n'
  {
    if s == "" || s[0] == '\n' then 0 else LineLength(s[1..]) + 1
  }

  function DropCR(line: string): string
  {
    if line != "" && line[|line| - 1] == '\r' then line[..|line| - 1] else line
  }

  /** Lines ended by LF or CR LF; a last line need not be ended. Scanning stops at a
      line longer than the buffer. */
  function ScanLines(s: string): Scan
    decreases |s|
  {
    if s == "" then Scan([], false)
    else
      var n := LineLength(s);
      if n > MAX_LINE then Scan([], true)
      else
        var rest := ScanLines(if n < |s| then s[n + 1..] else "");
        Scan([DropCR(s[..n])] + rest.lines, rest.tooLong)
  }

  // ----------------------------------------------------------- the reader

  datatype Event = Event(kind: string, data: string)

  const NO_EVENT := Event("", "")

  datatype Answer = Got(event: Event) | EndOfStream | ReadError | TooLarge

  /** strings.Cut at the first colon, and one leading space dropped from the value. */
  function FieldEnd(line: string): (n: nat)
    ensures n <= |line|
    ensures forall i :: 0 <= i < n ==> line[i] != ':'
    ensures n < |line| ==> line[n] == ':'
  {
    if line == "" || line[0] == ':' then 0 else FieldEnd(line[1..]) + 1
  }

  function FieldValue(line: string): string
  {
    var n := FieldEnd(line);
    if n == |line| then ""
    else if n + 1 < |line| && line[n + 1] == ' ' then line[n + 2..]
    else line[n + 1..]
  }

  /** The pending event after a non-blank line, or nothing when it grows too large. */
  function Fold(pending: Event, line: string): Option<Event>
  {
    var field, value := line[..FieldEnd(line)], FieldValue(line);
    if line != "" && line[0] == ':' then Some(pending)
    else if field == "event" then Some(pending.(kind := value))
    else if field == "data" then
      var joined := if |pending.data| > 0 then pending.data + "\n" else pending.data;
      if |joined| + |value| > MAX_EVENT_SIZE then None else Some(pending.(data := joined + value))
    else Some(pending)
  }

  /** One call of Next: the answer, the lines left and the pending event left. */
  function NextAnswer(lines: seq<string>, tooLong: bool, pending: Event): (r: (Answer, seq<string>, Event))
    decreases |lines|
    ensures r.0.Got? ==> |r.1| < |lines|
  {
    if lines == [] then
      (if tooLong || pending != NO_EVENT then ReadError else EndOfStream, [], pending)
    else if lines[0] == "" then
      if pending == NO_EVENT then NextAnswer(lines[1..], tooLong, pending) else (Got(pending), lines[1..], NO_EVENT)
    else
      var folded := Fold(pending, lines[0]);
      if folded.None? then (TooLarge, lines[1..], pending) else NextAnswer(lines[1..], tooLong, folded.value)
  }

  /** SSEReader over scanned lines. */
  class SSEReader {
    const lines: seq<string>
    const tooLong: bool
    var position: nat
    var event: Event

    ghost predicate Valid()
      reads this
    {
      position <= |lines|
    }

    constructor (bytes: string)
      ensures Valid() && lines == ScanLines(bytes).lines && tooLong == ScanLines(bytes).tooLong
      ensures position == 0 && event == NO_EVENT
    {
      lines := ScanLines(bytes).lines;
      tooLong := ScanLines(bytes).tooLong;
      position, event := 0, NO_EVENT;
    }

    method Next() returns (answer: Answer)
      requires Valid()
      modifies this
      ensures Valid()
      ensures var expected := NextAnswer(lines[old(position)..], tooLong, old(event));
              answer == expected.0 && lines[position..] == expected.1 && (answer.TooLarge? || event == expected.2)
    {
      ghost var start, before := position, event;
      while position < |lines|
        invariant start <= position <= |lines|
        invariant NextAnswer(lines[start..], tooLong, before) == NextAnswer(lines[position..], tooLong, event)
        decreases |lines| - position
      {
        var line := lines[position];
        assert lines[position..][0] == line && lines[position..][1..] == lines[position + 1..];
        position := position + 1;
        if line == "" {
          if event.data == "" && event.kind == "" { continue; }
          answer := Got(event);
          event := NO_EVENT;
          return;
        }
        if line[0] == ':' { continue; }
        var field, value := line[..FieldEnd(line)], FieldValue(line);
        if field == "event" {
          event := event.(kind := value);
        } else if field == "data" {
          if |event.data| > 0 { event := event.(data := event.data + "\n"); }
          if |event.data| + |value| > MAX_EVENT_SIZE { return TooLarge; }
          event := event.(data := event.data + value);
        }
      }
      if tooLong { return ReadError; }
      if |event.data| > 0 || event.kind != "" { return ReadError; }
      answer := EndOfStream;
    }
  }

  /** Every event Next returns, and the answer that ends the stream. */
  datatype Reading = Reading(events: seq<Event>, end: Answer)

  function ReadAll(lines: seq<string>, tooLong: bool, pending: Event): Reading
    decreases |lines|
  {
    var (answer, rest, left) := NextAnswer(lines, tooLong, pending);
    if answer.Got? then
      var more := ReadAll(rest, tooLong, left);
      Reading([answer.event] + more.events, more.end)
    else Reading([], answer)
  }

  function ReadBytes(s: string): Reading
  {
    ReadAll(ScanLines(s).lines, ScanLines(s).tooLong, NO_EVENT)
  }

  // --------------------------------------------- what a block of lines says

  /** A line that gives a field a value: behind a colon, with or without one space, or
      without a colon, and then the empty value. */
  predicate Gives(line: string, field: string, value: string)
  {
    || line == field + ": " + value
    || (line == field + ":" + value && (value == "" || value[0] != ' '))
    || (line == field && value == "")
  }

  /** What a line is to the event it belongs to. */
  datatype Part = Kind(value: string) | Data(value: string) | Skipped

  /** A line that is not blank, and its part: the kind, some data, or a comment or a field
      of another name, which say nothing. */
  ghost predicate Says(line: string, part: Part)
  {
    line != "" && match part
      case Kind(value) => Gives(line, "event", value)
      case Data(value) => Gives(line, "data", value)
      case Skipped =>
        line[0] == ':' || exists field, value :: Gives(line, field, value) && ':' !in field && field != "event" && field != "data"
  }

  ghost predicate AllSay(lines: seq<string>, parts: seq<Part>)
  {
    |lines| == |parts| && forall i :: 0 <= i < |lines| ==> Says(lines[i], parts[i])
  }

  /** The kind named last. */
  function KindOf(parts: seq<Part>): string
  {
    if parts == [] then ""
    else if parts[|parts| - 1].Kind? then parts[|parts| - 1].value
    else KindOf(parts[..|parts| - 1])
  }

  /** The data values in order, from the first that is not empty on. */
  function ValuesOf(parts: seq<Part>): (values: seq<string>)
    ensures values != [] ==> values[0] != ""
  {
    if parts == [] then []
    else
      var before, last := ValuesOf(parts[..|parts| - 1]), parts[|parts| - 1];
      if last.Data? && (before != [] || last.value != "") then before + [last.value] else before
  }

  /** Values joined by line feeds. */
  function Join(values: seq<string>): string
  {
    if values == [] then "" else if |values| == 1 then values[0] else values[0] + "\n" + Join(values[1..])
  }

  /** The event that a block of lines makes. */
  function EventOf(parts: seq<Part>): Event { Event(KindOf(parts), Join(ValuesOf(parts))) }

  lemma {:induction false} JoinSnoc(values: seq<string>, value: string)
    ensures Join(values + [value]) == if values == [] then value else Join(values) + "\n" + value
  {
    if |values| > 1 {
      assert (values + [value])[1..] == values[1..] + [value];
      JoinSnoc(values[1..], value);
      Regrouped(values[0] + "\n", Join(values[1..]), "\n", value);
    } else if |values| == 1 {
      assert (values + [value])[1..] == [value];
    }
  }

  lemma JoinIsEmpty(values: seq<string>)
    requires values != [] ==> values[0] != ""
    ensures Join(values) == "" <==> values == []
  {
  }

  lemma {:induction false} FieldEndIs(field: string, rest: string)
    requires ':' !in field && (rest != "" ==> rest[0] == ':')
    ensures FieldEnd(field + rest) == |field|
  {
    if field == "" {
      assert field + rest == rest;
    } else {
      assert (field + rest)[1..] == field[1..] + rest;
      FieldEndIs(field[1..], rest);
    }
  }

  /** A line is parsed as the field and the value it gives. */
  lemma GivesParses(line: string, field: string, value: string)
    requires Gives(line, field, value) && ':' !in field
    ensures line[..FieldEnd(line)] == field && FieldValue(line) == value
  {
    var n := |field|;
    if line == field + ": " + value {
      assert line == field + (": " + value);
      FieldEndIs(field, ": " + value);
      assert line[n + 1] == ' ' && line[n + 2..] == value;
    } else if line == field + ":" + value {
      assert line == field + (":" + value);
      FieldEndIs(field, ":" + value);
      assert line[n + 1..] == value;
    } else {
      assert line == field + "";
      FieldEndIs(field, "");
    }
  }

  /** Every line that is not blank is some part. */
  lemma EveryLineSays(line: string) returns (part: Part)
    requires line != ""
    ensures Says(line, part)
  {
    var field, value := line[..FieldEnd(line)], FieldValue(line);
    assert Gives(line, field, value) by {
      var n := FieldEnd(line);
      if n < |line| {
        assert line == field + ":" + line[n + 1..];
        if n + 1 < |line| && line[n + 1] == ' ' {
          assert line == field + ": " + line[n + 2..];
        }
      }
    }
    part := if line[0] == ':' then Skipped
            else if field == "event" then Kind(value) else if field == "data" then Data(value) else Skipped;
  }

  lemma FoldKind(pending: Event, line: string, value: string)
    requires Gives(line, "event", value)
    ensures Fold(pending, line) == Some(Event(value, pending.data))
  {
    GivesParses(line, "event", value);
  }

  lemma FoldData(pending: Event, line: string, value: string)
    requires Gives(line, "data", value)
    ensures var data := if pending.data == "" then value else pending.data + "\n" + value;
            Fold(pending, line) == if |data| > MAX_EVENT_SIZE then None else Some(Event(pending.kind, data))
  {
    GivesParses(line, "data", value);
    assert "" + value == value;
  }

  lemma FoldSkipped(pending: Event, line: string)
    requires Says(line, Skipped)
    ensures Fold(pending, line) == Some(pending)
  {
    if line[0] != ':' {
      var field, value :| Gives(line, field, value) && ':' !in field && field != "event" && field != "data";
      GivesParses(line, field, value);
    }
  }

  /** The values with one more part, joined. */
  lemma DataSnoc(parts: seq<Part>)
    requires parts != []
    ensures var before, last := Join(ValuesOf(parts[..|parts| - 1])), parts[|parts| - 1];
            Join(ValuesOf(parts)) == if !last.Data? then before else if before == "" then last.value else before + "\n" + last.value
  {
    var values := ValuesOf(parts[..|parts| - 1]);
    JoinIsEmpty(values);
    if parts[|parts| - 1].Data? {
      JoinSnoc(values, parts[|parts| - 1].value);
    }
  }

  /** One line takes the event of the block before it to the event with it, unless that
      grows too large. */
  lemma FoldSays(parts: seq<Part>, line: string)
    requires parts != [] && Says(line, parts[|parts| - 1])
    ensures var before := EventOf(parts[..|parts| - 1]);
            && |before.data| <= |EventOf(parts).data|
            && Fold(before, line)
               == if parts[|parts| - 1].Data? && |EventOf(parts).data| > MAX_EVENT_SIZE then None else Some(EventOf(parts))
  {
    var before := EventOf(parts[..|parts| - 1]);
    DataSnoc(parts);
    match parts[|parts| - 1]
    case Kind(value) => FoldKind(before, line, value);
    case Data(value) => FoldData(before, line, value);
    case Skipped => FoldSkipped(before, line);
  }

  lemma ReadLine(line: string, more: seq<string>, tooLong: bool, pending: Event)
    requires line != ""
    ensures var folded := Fold(pending, line);
            && (folded.Some? ==> NextAnswer([line] + more, tooLong, pending) == NextAnswer(more, tooLong, folded.value))
            && (folded.None? ==> NextAnswer([line] + more, tooLong, pending).0 == TooLarge)
  {
    assert ([line] + more)[1..] == more;
  }

  lemma LinesFrom(lines: seq<string>, k: nat, rest: seq<string>)
    requires k < |lines|
    ensures lines[k..] + rest == [lines[k]] + (lines[k + 1..] + rest)
  {
  }

  /** Reading goes through a block line by line as long as its event is not too large. */
  lemma {:induction false} FoldsUpTo(lines: seq<string>, parts: seq<Part>, k: nat, rest: seq<string>, tooLong: bool)
    requires AllSay(lines, parts) && k <= |lines| && |EventOf(parts[..k]).data| <= MAX_EVENT_SIZE
    ensures NextAnswer(lines + rest, tooLong, NO_EVENT) == NextAnswer(lines[k..] + rest, tooLong, EventOf(parts[..k]))
  {
    if k == 0 {
      assert lines[0..] == lines;
    } else {
      var before := EventOf(parts[..k - 1]);
      assert |before.data| <= MAX_EVENT_SIZE && Fold(before, lines[k - 1]) == Some(EventOf(parts[..k])) by {
        assert parts[..k][..k - 1] == parts[..k - 1];
        FoldSays(parts[..k], lines[k - 1]);
      }
      FoldsUpTo(lines, parts, k - 1, rest, tooLong);
      LinesFrom(lines, k - 1, rest);
      ReadLine(lines[k - 1], lines[k..] + rest, tooLong, before);
    }
  }

  /** A block of lines and the blank one behind it are read as exactly one event: of the
      kind named, its data the values joined by line feeds, the lines behind it left. A
      block that says nothing is passed over. */
  lemma BlockReads(lines: seq<string>, parts: seq<Part>, rest: seq<string>, tooLong: bool)
    requires AllSay(lines, parts) && |EventOf(parts).data| <= MAX_EVENT_SIZE
    ensures NextAnswer(lines + ([""] + rest), tooLong, NO_EVENT)
            == if EventOf(parts) == NO_EVENT then NextAnswer(rest, tooLong, NO_EVENT) else (Got(EventOf(parts)), rest, NO_EVENT)
  {
    assert parts[..|lines|] == parts;
    FoldsUpTo(lines, parts, |lines|, [""] + rest, tooLong);
    assert lines[|lines|..] + ([""] + rest) == [""] + rest;
    assert ([""] + rest)[1..] == rest;
  }

  /** A block cut off before its blank line is no event: an unexpected end if it said
      anything or a line was too long, and the end of the stream otherwise. */
  lemma CutBlockReads(lines: seq<string>, parts: seq<Part>, tooLong: bool)
    requires AllSay(lines, parts) && |EventOf(parts).data| <= MAX_EVENT_SIZE
    ensures NextAnswer(lines, tooLong, NO_EVENT).0 == if tooLong || EventOf(parts) != NO_EVENT then ReadError else EndOfStream
  {
    assert parts[..|lines|] == parts;
    FoldsUpTo(lines, parts, |lines|, [], tooLong);
    assert lines + [] == lines && lines[|lines|..] + [] == [];
  }

  /** A block whose data passes the bound is refused, whatever comes behind it. */
  lemma {:induction false} LargeBlockReads(lines: seq<string>, parts: seq<Part>, rest: seq<string>, tooLong: bool, k: nat)
    requires AllSay(lines, parts) && k <= |lines| && |EventOf(parts[..k]).data| > MAX_EVENT_SIZE
    ensures NextAnswer(lines + rest, tooLong, NO_EVENT).0 == TooLarge
  {
    assert k > 0 && parts[..k][..k - 1] == parts[..k - 1];
    if |EventOf(parts[..k - 1]).data| > MAX_EVENT_SIZE {
      LargeBlockReads(lines, parts, rest, tooLong, k - 1);
    } else {
      FoldSays(parts[..k], lines[k - 1]);
      FoldsUpTo(lines, parts, k - 1, rest, tooLong);
      LinesFrom(lines, k - 1, rest);
      ReadLine(lines[k - 1], lines[k..] + rest, tooLong, EventOf(parts[..k - 1]));
    }
  }

  // ----------------------------------------------------------- the writer

  const PREFIX := "data: "

  const DONE := "[DONE]"

  function Frame(payload: string): string { PREFIX + payload + "\n\n" }

  function Frames(payloads: seq<string>): string
  {
    if payloads == [] then "" else Frame(payloads[0]) + Frames(payloads[1..])
  }

  function Events(payloads: seq<string>): (r: seq<Event>)
    ensures |r| == |payloads| && forall i :: 0 <= i < |r| ==> r[i] == Event("", payloads[i])
  {
    seq(|payloads|, i requires 0 <= i < |payloads| => Event("", payloads[i]))
  }

  /** A payload that fits on one data line. */
  predicate Sendable(payload: string)
  {
    payload != "" && '\n' !in payload && payload[|payload| - 1] != '\r' && |PREFIX + payload| <= MAX_LINE
  }

  lemma {:induction false} LineLengthIs(line: string, rest: string)
    requires '\n' !in line
    ensures LineLength(line + "\n" + rest) == |line| && LineLength(line) == |line|
  {
    if line != "" {
      assert (line + "\n" + rest)[1..] == line[1..] + "\n" + rest;
      LineLengthIs(line[1..], rest);
    }
  }

  lemma ScanOneLine(line: string, rest: string)
    requires '\n' !in line && |line| <= MAX_LINE
    ensures ScanLines(line + "\n" + rest) == Scan([DropCR(line)] + ScanLines(rest).lines, ScanLines(rest).tooLong)
  {
    var s := line + "\n" + rest;
    LineLengthIs(line, rest);
    assert s[..|line|] == line && s[|line| + 1..] == rest;
  }

  /** Lines as they are sent, each ended by LF, or by CR LF. */
  function Written(lines: seq<string>, crs: seq<bool>): string
    requires |crs| == |lines|
  {
    if lines == [] then "" else lines[0] + (if crs[0] then "\r" else "") + "\n" + Written(lines[1..], crs[1..])
  }

  /** A line that can be sent so, within the buffer of the scanner. */
  predicate Fits(line: string, cr: bool)
  {
    '\n' !in line && (line != "" ==> line[|line| - 1] != '\r') && |line| + (if cr then 1 else 0) <= MAX_LINE
  }

  ghost predicate AllFit(lines: seq<string>, crs: seq<bool>)
  {
    |crs| == |lines| && forall i :: 0 <= i < |lines| ==> Fits(lines[i], crs[i])
  }

  lemma AllFitUnfolds(lines: seq<string>, crs: seq<bool>)
    requires AllFit(lines, crs) && lines != []
    ensures Fits(lines[0], crs[0]) && AllFit(lines[1..], crs[1..])
  {
  }

  lemma ScanEndedLine(line: string, cr: bool, rest: string)
    requires Fits(line, cr)
    ensures ScanLines(line + (if cr then "\r" else "") + "\n" + rest)
            == Scan([line] + ScanLines(rest).lines, ScanLines(rest).tooLong)
  {
    ScanOneLine(line + if cr then "\r" else "", rest);
    assert DropCR(line + if cr then "\r" else "") == line;
  }

  lemma WrittenUnfolds(lines: seq<string>, crs: seq<bool>, rest: string)
    requires |crs| == |lines| > 0
    ensures Written(lines, crs) + rest
            == lines[0] + (if crs[0] then "\r" else "") + "\n" + (Written(lines[1..], crs[1..]) + rest)
  {
    Reassociate(lines[0] + (if crs[0] then "\r" else "") + "\n", Written(lines[1..], crs[1..]), rest);
  }

  lemma HeadAndTail(lines: seq<string>, more: seq<string>)
    requires lines != []
    ensures [lines[0]] + (lines[1..] + more) == lines + more
  {
  }

  /** The scanner gives back the lines as they were before they were sent. */
  lemma {:induction false} ScanWritten(lines: seq<string>, crs: seq<bool>, rest: string)
    requires AllFit(lines, crs)
    ensures ScanLines(Written(lines, crs) + rest) == Scan(lines + ScanLines(rest).lines, ScanLines(rest).tooLong)
  {
    if lines == [] {
      assert "" + rest == rest && lines + ScanLines(rest).lines == ScanLines(rest).lines;
    } else {
      var more, tail := Written(lines[1..], crs[1..]) + rest, ScanLines(rest);
      AllFitUnfolds(lines, crs);
      assert ScanLines(more) == Scan(lines[1..] + tail.lines, tail.tooLong) by { ScanWritten(lines[1..], crs[1..], rest); }
      WrittenUnfolds(lines, crs, rest);
      ScanEndedLine(lines[0], crs[0], more);
      HeadAndTail(lines, tail.lines);
    }
  }

  lemma {:induction false} LineIsLong(line: string, rest: string)
    requires '\n' !in line
    ensures LineLength(line + rest) >= |line|
  {
    if line != "" {
      assert (line + rest)[1..] == line[1..] + rest;
      LineIsLong(line[1..], rest);
    }
  }

  /** A line past the buffer stops the scanner for good. */
  lemma LongLineStops(line: string, rest: string)
    requires '\n' !in line && |line| > MAX_LINE
    ensures ScanLines(line + rest) == Scan([], true)
  {
    LineIsLong(line, rest);
  }

  /** An event sent with line endings of either kind, with comments and unknown fields
      anywhere in it, is read as one event in front of what the rest is read as. */
  lemma SentEventReads(lines: seq<string>, parts: seq<Part>, crs: seq<bool>, rest: string)
    requires AllSay(lines, parts) && AllFit(lines + [""], crs)
    requires |EventOf(parts).data| <= MAX_EVENT_SIZE && EventOf(parts) != NO_EVENT
    ensures ReadBytes(Written(lines + [""], crs) + rest)
            == Reading([EventOf(parts)] + ReadBytes(rest).events, ReadBytes(rest).end)
  {
    var scanned := ScanLines(rest);
    ScanWritten(lines + [""], crs, rest);
    BlockReads(lines, parts, scanned.lines, scanned.tooLong);
    Reassociate(lines, [""], scanned.lines);
  }

  lemma ScanLastLine(line: string)
    requires line != "" && '\n' !in line && |line| <= MAX_LINE
    ensures ScanLines(line) == Scan([DropCR(line)], false)
  {
    LineLengthIs(line, "");
    assert line[..|line|] == line;
  }

  lemma ScanFrame(payload: string, rest: string)
    requires Sendable(payload)
    ensures ScanLines(Frame(payload) + rest)
            == Scan([PREFIX + payload, ""] + ScanLines(rest).lines, ScanLines(rest).tooLong)
  {
    var line := PREFIX + payload;
    assert line[|line| - 1] == payload[|payload| - 1];
    assert '\n' !in line by { assert '\n' !in PREFIX; }
    FrameSplits(payload, rest);
    ScanOneLine(line, "" + "\n" + rest);
    ScanOneLine("", rest);
    Rejoin(line, ScanLines(rest).lines);
  }

  lemma FrameSplits(payload: string, rest: string)
    ensures Frame(payload) + rest == (PREFIX + payload) + "\n" + ("" + "\n" + rest)
  {
    assert "\n\n" == "\n" + "\n";
  }

  lemma Rejoin(line: string, tail: seq<string>)
    ensures [line] + ([""] + tail) == [line, ""] + tail
  {
  }

  lemma DataThenBlank(payload: string, tail: seq<string>, tooLong: bool)
    requires Sendable(payload)
    ensures NextAnswer([PREFIX + payload, ""] + tail, tooLong, NO_EVENT) == (Got(Event("", payload)), tail, NO_EVENT)
  {
    var line, parts := PREFIX + payload, [Data(payload)];
    assert Says(line, parts[0]) by { assert line == "data" + ": " + payload; }
    DataSnoc(parts);
    BlockReads([line], parts, tail, tooLong);
    Rejoin(line, tail);
  }

  /** One whole frame in front adds exactly its payload in front. */
  lemma FrameReads(payload: string, rest: string)
    requires Sendable(payload)
    ensures ReadBytes(Frame(payload) + rest) == Reading([Event("", payload)] + ReadBytes(rest).events, ReadBytes(rest).end)
  {
    ScanFrame(payload, rest);
    DataThenBlank(payload, ScanLines(rest).lines, ScanLines(rest).tooLong);
  }

  /** Reading what the handler wrote gives back exactly the payloads, then the end. */
  lemma {:induction false} FramesRoundTrip(payloads: seq<string>)
    requires forall i :: 0 <= i < |payloads| ==> Sendable(payloads[i])
    ensures ReadBytes(Frames(payloads)) == Reading(Events(payloads), EndOfStream)
  {
    if payloads == [] {
      assert ReadBytes("") == Reading([], EndOfStream);
    } else {
      var rest := Frames(payloads[1..]);
      assert ReadBytes(rest) == Reading(Events(payloads[1..]), EndOfStream) by { FramesRoundTrip(payloads[1..]); }
      FrameReads(payloads[0], rest);
      EventsUnfold(payloads);
    }
  }

  lemma EventsUnfold(payloads: seq<string>)
    requires payloads != []
    ensures Events(payloads) == [Event("", payloads[0])] + Events(payloads[1..])
  {
  }

  lemma DataPrefixNotBlank(payload: string, k: nat)
    requires 0 < k <= |PREFIX + payload|
    ensures DropCR((PREFIX + payload)[..k]) != ""
  {
    assert (PREFIX + payload)[..k][0] == 'd';
  }

  lemma OneLineYieldsNothing(line: string)
    requires line != "" && |line| <= MAX_LINE
    ensures var r := ReadAll([line], false, NO_EVENT);
            r.events == [] && (r.end == EndOfStream || r.end == ReadError)
  {
    var folded := Fold(NO_EVENT, line);
    assert folded.Some?;
    assert [line][1..] == [];
    assert NextAnswer([line], false, NO_EVENT) == NextAnswer([], false, folded.value);
  }

  /** A frame cut anywhere yields no event at all. */
  lemma PartialFrame(payload: string, k: nat)
    requires Sendable(payload) && k < |Frame(payload)|
    ensures var r := ReadBytes(Frame(payload)[..k]);
            r.events == [] && (r.end == EndOfStream || r.end == ReadError)
  {
    var line := PREFIX + payload;
    assert '\n' !in line by { assert '\n' !in PREFIX; }
    if k == 0 {
      assert Frame(payload)[..k] == "";
    } else {
      var cut := line[..if k <= |line| then k else |line|];
      DataPrefixNotBlank(payload, |cut|);
      OneLineYieldsNothing(DropCR(cut));
      if k <= |line| {
        assert Frame(payload)[..k] == cut;
        ScanLastLine(cut);
      } else {
        assert Frame(payload)[..k] == cut + "\n" + "";
        ScanOneLine(cut, "");
        assert [DropCR(cut)] + [] == [DropCR(cut)];
      }
    }
  }

  /** Cutting the connection anywhere yields a prefix of whole payloads, never part
      of one, and an orderly or an unexpected end. */
  lemma {:induction false} CutYieldsWholePayloads(payloads: seq<string>, k: nat) returns (whole: nat)
    requires forall i :: 0 <= i < |payloads| ==> Sendable(payloads[i])
    requires k <= |Frames(payloads)|
    ensures whole <= |payloads|
    ensures ReadBytes(Frames(payloads)[..k]).events == Events(payloads[..whole])
    ensures var end := ReadBytes(Frames(payloads)[..k]).end; end == EndOfStream || end == ReadError
    ensures |Frames(payloads[..whole])| <= k
    ensures whole < |payloads| ==> k < |Frames(payloads[..whole + 1])|
  {
    if payloads == [] {
      whole := 0;
    } else if k < |Frame(payloads[0])| {
      whole := 0;
      CutInFirst(payloads, k);
    } else {
      var left := k - |Frame(payloads[0])|;
      var more := CutYieldsWholePayloads(payloads[1..], left);
      CutGrows(payloads, k, more, ReadBytes(Frames(payloads[1..])[..left]));
      whole := more + 1;
    }
  }

  /** What a cut of the rest yields, a cut of the whole yields after the first payload. */
  lemma CutGrows(payloads: seq<string>, k: nat, more: nat, read: Reading)
    requires payloads != [] && Sendable(payloads[0]) && |Frame(payloads[0])| <= k <= |Frames(payloads)| && more < |payloads|
    requires read == ReadBytes(Frames(payloads[1..])[..k - |Frame(payloads[0])|]) && read.events == Events(payloads[1..][..more])
    requires |Frames(payloads[1..][..more])| <= k - |Frame(payloads[0])|
    requires more < |payloads| - 1 ==> k - |Frame(payloads[0])| < |Frames(payloads[1..][..more + 1])|
    ensures ReadBytes(Frames(payloads)[..k]).events == Events(payloads[..more + 1]) && ReadBytes(Frames(payloads)[..k]).end == read.end
    ensures |Frames(payloads[..more + 1])| <= k
    ensures more + 1 < |payloads| ==> k < |Frames(payloads[..more + 2])|
  {
    CutAfterFirst(payloads, k);
    WholeUnfolds(payloads, more, k - |Frame(payloads[0])|);
  }

  /** Whole payloads of the rest are whole payloads after the first. */
  lemma WholeUnfolds(payloads: seq<string>, more: nat, left: nat)
    requires payloads != [] && more < |payloads|
    requires |Frames(payloads[1..][..more])| <= left && (more < |payloads| - 1 ==> left < |Frames(payloads[1..][..more + 1])|)
    ensures Events(payloads[..more + 1]) == [Event("", payloads[0])] + Events(payloads[1..][..more])
    ensures |Frames(payloads[..more + 1])| <= |Frame(payloads[0])| + left
    ensures more + 1 < |payloads| ==> |Frame(payloads[0])| + left < |Frames(payloads[..more + 2])|
  {
    PrefixUnfolds(payloads, more + 1);
    if more + 1 < |payloads| {
      PrefixUnfolds(payloads, more + 2);
    }
  }

  lemma CutInFirst(payloads: seq<string>, k: nat)
    requires payloads != [] && Sendable(payloads[0]) && k < |Frame(payloads[0])|
    ensures ReadBytes(Frames(payloads)[..k]).events == []
    ensures var end := ReadBytes(Frames(payloads)[..k]).end; end == EndOfStream || end == ReadError
    ensures k < |Frames(payloads[..1])|
  {
    assert Frames(payloads)[..k] == Frame(payloads[0])[..k];
    PartialFrame(payloads[0], k);
    assert payloads[..1][1..] == [];
  }

  lemma CutAfterFirst(payloads: seq<string>, k: nat)
    requires payloads != [] && Sendable(payloads[0]) && |Frame(payloads[0])| <= k <= |Frames(payloads)|
    ensures var rest, left := payloads[1..], k - |Frame(payloads[0])|;
            && ReadBytes(Frames(payloads)[..k]).events == [Event("", payloads[0])] + ReadBytes(Frames(rest)[..left]).events
            && ReadBytes(Frames(payloads)[..k]).end == ReadBytes(Frames(rest)[..left]).end
  {
    var first, rest, left := payloads[0], payloads[1..], k - |Frame(payloads[0])|;
    assert Frames(payloads)[..k] == Frame(first) + Frames(rest)[..left];
    FrameReads(first, Frames(rest)[..left]);
  }

  lemma PrefixUnfolds(payloads: seq<string>, n: nat)
    requires 0 < n <= |payloads|
    ensures Events(payloads[..n]) == [Event("", payloads[0])] + Events(payloads[1..][..n - 1])
    ensures |Frames(payloads[..n])| == |Frame(payloads[0])| + |Frames(payloads[1..][..n - 1])|
  {
    assert payloads[..n][1..] == payloads[1..][..n - 1];
  }

  // ---------------------------------------------------------- the handler

  /** The response side of streamChatCompletions: what reached the connection. */
  class StreamResponse {
    var committed: bool
    var wire: string
    var errorBody: bool

    /** Payloads handed to a write so far, whether an emit failed, and whether the
        marker of success was sent. */
    ghost var sent: seq<string>
    ghost var broken: bool
    ghost var finished: bool

    ghost predicate Valid()
      reads this
    {
      && wire <= Frames(sent)
      && (!broken ==> wire == Frames(sent))
      && (committed <==> wire != "")
      && (errorBody ==> !committed)
      && DoneOnlyLast(sent)
      && (finished <==> DoneIsLast(sent))
    }

    constructor ()
      ensures Valid() && sent == [] && !broken && !errorBody && !finished
    {
      committed, wire, errorBody, sent, broken, finished := false, "", false, [], false, false;
    }

    /** emit: the chunk as JSON, or none when marshalling fails, and then one write of one
        frame. The connection takes a number of its bytes and fails when it does not take
        them all, or for reasons of its own. A chunk in JSON is never the marker. */
    method Emit(payload: Option<string>, taken: nat, fails: bool) returns (ok: bool)
      requires Valid() && !broken && !errorBody && !finished && payload != Some(DONE)
      requires payload.Some? ==> taken <= |Frame(payload.value)| && (taken < |Frame(payload.value)| ==> fails)
      modifies this
      ensures Valid() && errorBody == old(errorBody) && !finished
      ensures ok == (payload.Some? && !fails) && broken == !ok
      ensures sent == old(sent) + (if payload.Some? then [payload.value] else [])
      ensures wire == old(wire) + (if payload.Some? then Frame(payload.value)[..taken] else "")
    {
      if payload.None? {
        broken := true;
        return false;
      }
      FramesSnoc(sent, payload.value);
      DoneSnoc(sent, payload.value);
      var frame := PREFIX + payload.value + "\n\n";
      wire := wire + frame[..taken];
      if taken > 0 { committed := true; }
      sent := sent + [payload.value];
      broken := fails;
      ok := !fails;
    }

    /** The end of streamChatCompletions. An error before anything was sent becomes an
        error response; a committed stream just ends; success is marked by [DONE]. */
    method Finish(succeeded: bool, taken: nat)
      requires Valid() && !errorBody && !finished && (succeeded ==> !broken) && taken <= |Frame(DONE)|
      modifies this
      ensures Valid() && finished == succeeded
      ensures succeeded ==> sent == old(sent) + [DONE] && !errorBody
      ensures !succeeded ==> sent == old(sent) && wire == old(wire) && (errorBody <==> wire == "")
    {
      if !succeeded {
        if !committed { errorBody := true; }
        return;
      }
      FramesSnoc(sent, DONE);
      DoneSnoc(sent, DONE);
      var frame := Frame(DONE);
      wire := wire + frame[..taken];
      if taken > 0 { committed := true; }
      sent := sent + [DONE];
      broken := taken < |frame|;
      finished := true;
      assert !broken ==> frame[..taken] == frame;
    }
  }

  predicate DoneIsLast(sent: seq<string>) { sent != [] && sent[|sent| - 1] == DONE }

  lemma DoneSnoc(sent: seq<string>, payload: string)
    requires DoneOnlyLast(sent) && !DoneIsLast(sent)
    ensures DoneOnlyLast(sent + [payload]) && (DoneIsLast(sent + [payload]) <==> payload == DONE)
  {
    forall k | 0 <= k < |sent|
      ensures (sent + [payload])[k] != DONE
    {
      assert (sent + [payload])[k] == sent[k];
    }
  }

  lemma {:induction false} FramesSnoc(payloads: seq<string>, payload: string)
    ensures Frames(payloads + [payload]) == Frames(payloads) + Frame(payload)
  {
    if payloads == [] {
      assert [payload][1..] == [] && [] + [payload] == [payload];
      assert Frame(payload) + "" == Frame(payload);
    } else {
      assert (payloads + [payload])[1..] == payloads[1..] + [payload];
      FramesSnoc(payloads[1..], payload);
    }
  }

  /** A client that reads [DONE] from a response, whatever the connection took of it, is
      reading a stream that succeeded, and has read every payload of it before. */
  lemma DoneMeansComplete(r: StreamResponse)
    requires r.Valid() && (forall k :: 0 <= k < |r.sent| ==> Sendable(r.sent[k]))
    requires Event("", DONE) in ReadBytes(r.wire).events
    ensures r.finished && r.sent[|r.sent| - 1] == DONE && DONE !in r.sent[..|r.sent| - 1]
    ensures ReadBytes(r.wire) == Reading(Events(r.sent), EndOfStream)
  {
    DoneOnWire(r.sent, r.wire);
  }

  lemma DoneOnWire(sent: seq<string>, wire: string)
    requires forall k :: 0 <= k < |sent| ==> Sendable(sent[k])
    requires DoneOnlyLast(sent)
    requires wire <= Frames(sent) && Event("", DONE) in ReadBytes(wire).events
    ensures sent != [] && sent[|sent| - 1] == DONE
    ensures ReadBytes(wire) == Reading(Events(sent), EndOfStream)
  {
    var i := DoneSeen(sent, wire);
    LastIs(sent, i);
    AllArrived(sent, wire);
  }

  ghost predicate DoneOnlyLast(sent: seq<string>)
  {
    forall k :: 0 <= k < |sent| - 1 ==> sent[k] != DONE
  }

  lemma LastIs(sent: seq<string>, i: nat)
    requires i < |sent| && sent[i] == DONE && DoneOnlyLast(sent)
    ensures i == |sent| - 1 && sent[..i + 1] == sent
  {
  }

  lemma AllArrived(sent: seq<string>, wire: string)
    requires forall k :: 0 <= k < |sent| ==> Sendable(sent[k])
    requires wire <= Frames(sent) && |Frames(sent)| <= |wire|
    ensures ReadBytes(wire) == Reading(Events(sent), EndOfStream)
  {
    FramesRoundTrip(sent);
    assert wire == Frames(sent);
  }

  /** A [DONE] that was read is one that was sent, and all before it arrived too. */
  lemma DoneSeen(sent: seq<string>, wire: string) returns (i: nat)
    requires forall k :: 0 <= k < |sent| ==> Sendable(sent[k])
    requires wire <= Frames(sent) && Event("", DONE) in ReadBytes(wire).events
    ensures i < |sent| && sent[i] == DONE && |Frames(sent[..i + 1])| <= |wire|
  {
    assert wire == Frames(sent)[..|wire|];
    var whole := CutYieldsWholePayloads(sent, |wire|);
    i :| 0 <= i < whole && Events(sent[..whole])[i] == Event("", DONE);
    FramesGrow(sent[..whole], i + 1);
    assert sent[..whole][..i + 1] == sent[..i + 1];
  }

  lemma {:induction false} FramesGrow(payloads: seq<string>, n: nat)
    requires n <= |payloads|
    ensures |Frames(payloads[..n])| <= |Frames(payloads)|
  {
    if n > 0 {
      FramesGrow(payloads[1..], n - 1);
      assert payloads[..n][1..] == payloads[1..][..n - 1];
    }
  }
}
