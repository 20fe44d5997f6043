/** The SSE line extractors, the control-line sanitizer and the frame parser of the compatibility
    layer, at the level of text lines (section 9.2.6 of the WHATWG HTML Standard). */
module SseFrames {
  import opened StreamEvents
  import opened Strings

  // ---- lines -----------------------------------------------------------------------------------

  predicate IsBlank(c: char) {
    c == ' ' || c == '\t'
  }

  function SkipBlanks(s: string): (r: string)
    ensures r == [] || !IsBlank(r[0])
    ensures s == [] || !IsBlank(s[0]) ==> r == s
    ensures |r| <= |s| && (|r| == |s| ==> r == s)
  {
    TrimLeft(s, IsBlank)
  }

  function DataOf(line: string): Option<string> {
    if "data:" <= line then Some(SkipBlanks(line[5..])) else None
  }

  function EventOf(line: string): Option<string> {
    if "event:" <= line then Some(TrimSpace(SkipBlanks(line[6..]))) else None
  }

  /** The position behind the blanks, found by walking over them. */
  method SkipFrom(line: string, begin: nat) returns (start: nat)
    requires begin <= |line|
    ensures begin <= start <= |line| && line[start..] == SkipBlanks(line[begin..])
  {
    hide SkipBlanks;
    start := begin;
    while start < |line|
      invariant begin <= start <= |line|
      invariant SkipBlanks(line[begin..]) == SkipBlanks(line[start..])
    {
      if line[start] != ' ' && line[start] != '\t' {
        break;
      }
      OneBlank(line[start..]);
      assert line[start..][1..] == line[start + 1..];
      start := start + 1;
    }
  }

  lemma OneBlank(s: string)
    requires s != [] && IsBlank(s[0])
    ensures SkipBlanks(s) == SkipBlanks(s[1..])
  {
  }

  method ExtractDataLine(line: string) returns (data: string, ok: bool)
    ensures (if ok then Some(data) else None) == DataOf(line)
  {
    if !("data:" <= line) {
      return "", false;
    }
    var start := SkipFrom(line, 5);
    return line[start..], true;
  }

  method ExtractEventLine(line: string) returns (eventType: string, ok: bool)
    ensures (if ok then Some(eventType) else None) == EventOf(line)
  {
    if !("event:" <= line) {
      return "", false;
    }
    var start := SkipFrom(line, 6);
    return TrimSpace(line[start..]), true;
  }

  function EventLine(e: string): (line: string)
    ensures |line| == 7 + |e| && line[0] == 'e'
  {
    "event: " + e
  }

  function DataLine(segment: string): (line: string)
    ensures |line| == 6 + |segment| && line[0] == 'd'
  {
    "data: " + segment
  }

  lemma SkipOne(s: string)
    ensures SkipBlanks(" " + s) == SkipBlanks(s)
  {
    assert (" " + s)[1..] == s;
  }

  lemma EventLineReads(e: string)
    ensures EventOf(EventLine(e)) == Some(TrimSpace(SkipBlanks(e)))
  {
    hide SkipBlanks, TrimSpace;
    assert EventLine(e)[..6] == "event:";
    assert EventLine(e)[6..] == " " + e;
    SkipOne(e);
  }

  lemma DataLineReads(segment: string)
    ensures EventOf(DataLine(segment)).None? && DataOf(DataLine(segment)) == Some(SkipBlanks(segment))
  {
    hide SkipBlanks, TrimSpace;
    var line := DataLine(segment);
    assert line[..5] == "data:";
    assert line[5..] == " " + segment;
    SkipOne(segment);
    assert "event:"[0] == 'e';
  }

  // ---- control lines -----------------------------------------------------------------------------

  predicate PlainChar(c: char) {
    'a' <= c <= 'z' || 'A' <= c <= 'Z' || '0' <= c <= '9' || c == '.' || c == '_' || c == '-'
  }

  predicate PlainName(name: string) {
    (name == "error" || "response." <= name) && forall i | 0 <= i < |name| :: PlainChar(name[i])
  }

  datatype Control = Control(text: string, keep: bool, name: string)

  /** A control line as forwarded, and the event name in force after it. */
  function SanitizeControl(name: string, line: string): Control {
    var trimmed := TrimSpace(line);
    if trimmed == "" then Control("", true, "")
    else if trimmed[0] == ':' then Control(":", true, name)
    else
      match EventOf(line)
      case None => Control("", false, name)
      case Some(e) => if PlainName(e) then Control(EventLine(e), true, e) else Control("", false, "")
  }

  lemma PlainIsTrimmed(name: string)
    requires PlainName(name)
    ensures Trimmed(name, IsSpace) && name != ""
  {
  }

  /** A forwarded control line is blank, a bare comment, or an event line with a plain name. */
  lemma ControlIsPlain(name: string, line: string)
    ensures var c := SanitizeControl(name, line);
            c.keep ==> c.text == "" || c.text == ":" || (PlainName(c.name) && c.text == EventLine(c.name))
  {
    hide PlainName, EventOf, EventLine, TrimSpace;
  }

  /** What is kept: blank lines, comments without their text, and event lines whose name is "error" or begins
      with "response." and is made of letters, digits, dots, underscores and hyphens; only a comment and a line
      that is none of these leave the event name in force. */
  lemma ControlExactly(name: string, line: string)
    ensures var c, trimmed, event := SanitizeControl(name, line), TrimSpace(line), EventOf(line);
            var blank, comment := trimmed == "", trimmed != "" && trimmed[0] == ':';
            var plain := event.Some? && (event.value == "error" || "response." <= event.value)
                         && forall i | 0 <= i < |event.value| ::
                              var ch := event.value[i];
                              'a' <= ch <= 'z' || 'A' <= ch <= 'Z' || '0' <= ch <= '9' || ch in {'.', '_', '-'};
            && (c.keep <==> blank || comment || plain)
            && (blank ==> c.text == "" && c.name == "")
            && (comment ==> c.text == ":" && c.name == name)
            && (!blank && !comment && plain ==> c.text == "event: " + event.value && c.name == event.value)
            && (!blank && !comment && !plain ==> c.name == if event.Some? then "" else name)
  {
    hide TrimSpace, EventOf;
  }

  lemma BareLinesAreStable(other: string)
    ensures SanitizeControl(other, "") == Control("", true, "")
    ensures SanitizeControl(other, ":") == Control(":", true, other)
  {
    hide EventOf, EventLine, PlainName, IsSpace, Trim;
    ColonIsNoSpace();
    assert Trimmed(":", IsSpace) && Trimmed("", IsSpace);
  }

  lemma EventLineIsStable(other: string, e: string)
    requires PlainName(e)
    ensures SanitizeControl(other, EventLine(e)) == Control(EventLine(e), true, e)
  {
    hide EventOf, EventLine, PlainName, IsSpace, Trim, SkipBlanks;
    PlainEventLine(e);
    EventLineReads(e);
  }

  /** It passes through the sanitizer again unchanged, and names the same event. */
  lemma ControlIsStable(name: string, other: string, line: string)
    ensures var c := SanitizeControl(name, line);
            var d := SanitizeControl(other, c.text);
            c.keep ==> d.keep && d.text == c.text && (c.text != ":" ==> d.name == c.name)
  {
    hide EventOf, EventLine, PlainName, TrimSpace;
    var c := SanitizeControl(name, line);
    ControlIsPlain(name, line);
    BareLinesAreStable(other);
    if c.keep && c.text != "" && c.text != ":" {
      EventLineIsStable(other, c.name);
    }
  }

  lemma ColonIsNoSpace()
    ensures !IsSpace(':')
  {
  }

  lemma PlainEventLine(e: string)
    requires PlainName(e)
    ensures Trimmed(EventLine(e), IsSpace) && TrimSpace(SkipBlanks(e)) == e
  {
    hide TrimSpace, SkipBlanks, Trim;
    PlainIsTrimmed(e);
    assert EventLine(e)[|EventLine(e)| - 1] == e[|e| - 1];
    assert !IsBlank(e[0]);
  }

  // ---- the frame parser ----------------------------------------------------------------------------

  datatype Frame = Frame(eventType: string, data: string)

  datatype Parser = Parser(eventType: string, dataLines: seq<string>)

  const EMPTY := Parser("", [])

  function Dispatch(p: Parser): seq<Frame> {
    if Join(p.dataLines) == "" then [] else [Frame(p.eventType, Join(p.dataLines))]
  }

  function Feed(p: Parser, line: string): Parser {
    if line == "" then EMPTY
    else if line[0] == ':' then p
    else if EventOf(line).Some? then p.(eventType := EventOf(line).value)
    else if DataOf(line).Some? then p.(dataLines := p.dataLines + [DataOf(line).value])
    else p
  }

  function Emitted(p: Parser, line: string): seq<Frame> {
    if line == "" then Dispatch(p) else []
  }

  function ParseFrom(p: Parser, lines: seq<string>): seq<Frame>
    decreases lines
  {
    if lines == [] then Dispatch(p)
    else Emitted(p, lines[0]) + ParseFrom(Feed(p, lines[0]), lines[1..])
  }

  function Parse(lines: seq<string>): seq<Frame> {
    ParseFrom(EMPTY, lines)
  }

  class FrameParser {
    var eventType: string
    var dataLines: seq<string>

    constructor ()
      ensures State() == EMPTY
    {
      eventType, dataLines := "", [];
    }

    function State(): Parser
      reads this
    {
      Parser(eventType, dataLines)
    }

    method AddLine(line: string) returns (frame: Frame, ok: bool)
      modifies this
      ensures State() == Feed(old(State()), line)
      ensures (if ok then [frame] else []) == Emitted(old(State()), line)
    {
      frame, ok := Frame("", ""), false;
      if line == "" {
        frame, ok := DispatchFrame();
        return;
      }
      if line[0] == ':' {
        return;
      }
      var event, isEvent := ExtractEventLine(line);
      if isEvent {
        eventType := event;
        return;
      }
      var data, isData := ExtractDataLine(line);
      if isData {
        dataLines := dataLines + [data];
      }
    }

    method Finish() returns (frame: Frame, ok: bool)
      modifies this
      ensures State() == EMPTY && (if ok then [frame] else []) == Dispatch(old(State()))
    {
      frame, ok := DispatchFrame();
    }

    method DispatchFrame() returns (frame: Frame, ok: bool)
      modifies this
      ensures State() == EMPTY && (if ok then [frame] else []) == Dispatch(old(State()))
    {
      frame := Frame(eventType, Join(dataLines));
      eventType, dataLines := "", [];
      return frame, frame.data != "";
    }
  }

  /** Feeding a whole stream to the parser. */
  method ParseLines(lines: seq<string>) returns (frames: seq<Frame>)
    ensures frames == Parse(lines)
  {
    hide Feed, Emitted, Dispatch;
    var parser := new FrameParser();
    frames := [];
    for i := 0 to |lines|
      invariant Parse(lines) == frames + ParseFrom(parser.State(), lines[i..])
    {
      OneLine(parser.State(), lines[i..], frames);
      var frame, ok := parser.AddLine(lines[i]);
      frames := frames + if ok then [frame] else [];
    }
    var frame, ok := parser.Finish();
    frames := frames + if ok then [frame] else [];
  }

  lemma OneLine(p: Parser, lines: seq<string>, frames: seq<Frame>)
    requires lines != []
    ensures frames + ParseFrom(p, lines) == frames + Emitted(p, lines[0]) + ParseFrom(Feed(p, lines[0]), lines[1..])
  {
    hide Feed, Emitted, Dispatch;
  }

  /** A blank line separates: what comes before and after it parses on its own. */
  lemma {:induction false} BlankLineSplits(p: Parser, before: seq<string>, after: seq<string>)
    ensures ParseFrom(p, before + [""] + after) == ParseFrom(p, before) + Parse(after)
    decreases before
  {
    var all := before + [""] + after;
    if before == [] {
      assert all[1..] == after;
    } else {
      assert all[1..] == before[1..] + [""] + after;
      BlankLineSplits(Feed(p, before[0]), before[1..], after);
    }
  }

  // ---- round trip ----------------------------------------------------------------------------------

  function DataLines(segments: seq<string>): seq<string> {
    if segments == [] then [] else [DataLine(segments[0])] + DataLines(segments[1..])
  }

  function EventLines(eventType: string): seq<string> {
    if eventType == "" then [] else [EventLine(eventType)]
  }

  function PrintFrame(f: Frame): seq<string> {
    EventLines(f.eventType) + DataLines(Split(f.data))
  }

  function Print(frames: seq<Frame>): seq<string> {
    if frames == [] then [] else PrintFrame(frames[0]) + [""] + Print(frames[1..])
  }

  predicate FreeOfBlanks(segments: seq<string>) {
    forall i | 0 <= i < |segments| :: segments[i] == "" || !IsBlank(segments[i][0])
  }

  /** Frames that survive the trip: some data, none of whose lines starts with a blank, and an event
      type without surrounding white space. */
  predicate Printable(f: Frame) {
    f.data != "" && FreeOfBlanks(Split(f.data)) && Trimmed(f.eventType, IsSpace)
  }

  function Stripped(segments: seq<string>): (r: seq<string>)
    ensures |r| == |segments|
  {
    if segments == [] then [] else [SkipBlanks(segments[0])] + Stripped(segments[1..])
  }

  function ReadEvent(eventType: string): string {
    TrimSpace(SkipBlanks(eventType))
  }

  lemma DataLineFeeds(p: Parser, segment: string)
    ensures Emitted(p, DataLine(segment)) == []
    ensures Feed(p, DataLine(segment)) == p.(dataLines := p.dataLines + [SkipBlanks(segment)])
  {
    hide SkipBlanks, DataLine, EventOf, DataOf;
    DataLineReads(segment);
  }

  /** A parser after the data lines of some segments. */
  function Absorb(p: Parser, segments: seq<string>): Parser
    decreases segments
  {
    if segments == [] then p
    else Absorb(p.(dataLines := p.dataLines + [SkipBlanks(segments[0])]), segments[1..])
  }

  lemma {:induction false} Absorbed(p: Parser, segments: seq<string>)
    ensures Absorb(p, segments) == p.(dataLines := p.dataLines + Stripped(segments))
    decreases segments
  {
    hide SkipBlanks;
    if segments == [] {
      assert p.dataLines + [] == p.dataLines;
    } else {
      var head := [SkipBlanks(segments[0])];
      Absorbed(p.(dataLines := p.dataLines + head), segments[1..]);
      assert p.dataLines + head + Stripped(segments[1..]) == p.dataLines + (head + Stripped(segments[1..]));
    }
  }

  lemma {:induction false} DataLinesRead(p: Parser, segments: seq<string>, rest: seq<string>)
    ensures ParseFrom(p, DataLines(segments) + rest) == ParseFrom(Absorb(p, segments), rest)
    decreases segments
  {
    hide SkipBlanks, DataLine, Emitted, Feed, ParseFrom;
    if segments == [] {
      assert DataLines(segments) + rest == rest;
    } else {
      var line, more := DataLine(segments[0]), DataLines(segments[1..]) + rest;
      DataLineFeeds(p, segments[0]);
      assert DataLines(segments) + rest == [line] + more;
      SilentLine(p, line, more);
      DataLinesRead(Feed(p, line), segments[1..], rest);
    }
  }

  lemma SilentLine(p: Parser, line: string, rest: seq<string>)
    requires Emitted(p, line) == []
    ensures ParseFrom(p, [line] + rest) == ParseFrom(Feed(p, line), rest)
  {
    hide Emitted, Feed;
    assert ([line] + rest)[1..] == rest;
  }

  lemma NothingEmitted(p: Parser, line: string)
    requires line != ""
    ensures Emitted(p, line) == []
  {
  }

  lemma EventLinesRead(eventType: string, rest: seq<string>)
    ensures Parse(EventLines(eventType) + rest)
            == ParseFrom(Parser(if eventType == "" then "" else ReadEvent(eventType), []), rest)
  {
    hide SkipBlanks, EventLine, EventOf, DataOf, Emitted, TrimSpace;
    if eventType == "" {
      assert EventLines(eventType) + rest == rest;
    } else {
      var line := EventLine(eventType);
      EventLineReads(eventType);
      NothingEmitted(EMPTY, line);
      var all := EventLines(eventType) + rest;
      assert all[0] == line && all[1..] == rest;
      assert Feed(EMPTY, line) == Parser(ReadEvent(eventType), []);
    }
  }

  /** What a printed frame is read as. */
  function ReadBack(f: Frame): seq<Frame> {
    Dispatch(Parser(if f.eventType == "" then "" else ReadEvent(f.eventType), Stripped(Split(f.data))))
  }

  lemma FrameReads(f: Frame)
    ensures Parse(PrintFrame(f)) == ReadBack(f)
  {
    hide DataLines, EventLines, ReadEvent, Stripped, Split, Dispatch;
    var segments := Split(f.data);
    var p := Parser(if f.eventType == "" then "" else ReadEvent(f.eventType), []);
    EventLinesRead(f.eventType, DataLines(segments));
    DataLinesRead(p, segments, []);
    Absorbed(p, segments);
    assert DataLines(segments) + [] == DataLines(segments);
    assert [] + Stripped(segments) == Stripped(segments);
  }

  lemma {:induction false} StrippingShortens(segments: seq<string>)
    ensures |Join(Stripped(segments))| <= |Join(segments)|
    ensures |Join(Stripped(segments))| == |Join(segments)| <==> FreeOfBlanks(segments)
    ensures FreeOfBlanks(segments) ==> Stripped(segments) == segments
  {
    if segments != [] {
      StrippingShortens(segments[1..]);
      assert FreeOfBlanks(segments) <==>
             (segments[0] == "" || !IsBlank(segments[0][0])) && FreeOfBlanks(segments[1..]) by {
        assert forall i | 0 <= i < |segments[1..]| :: segments[1..][i] == segments[i + 1];
      }
      assert Stripped(segments)[1..] == Stripped(segments[1..]);
    }
  }

  lemma EventReads(eventType: string)
    requires eventType != ""
    ensures ReadEvent(eventType) == eventType <==> Trimmed(eventType, IsSpace)
  {
    if Trimmed(eventType, IsSpace) {
      assert SkipBlanks(eventType) == eventType;
    }
  }

  /** One frame survives exactly when it is printable. */
  lemma FrameRoundTripExactly(f: Frame)
    ensures |ReadBack(f)| <= 1
    ensures ReadBack(f) == [f] <==> Printable(f)
  {
    hide Trim;
    var segments := Split(f.data);
    JoinSplit(f.data);
    StrippingShortens(segments);
    if f.eventType != "" {
      EventReads(f.eventType);
    }
  }

  function ReadAll(frames: seq<Frame>): seq<Frame> {
    if frames == [] then [] else ReadBack(frames[0]) + ReadAll(frames[1..])
  }

  lemma {:induction false} PrintedReads(frames: seq<Frame>)
    ensures Parse(Print(frames)) == ReadAll(frames)
  {
    if frames != [] {
      PrintedReads(frames[1..]);
      BlankLineSplits(EMPTY, PrintFrame(frames[0]), Print(frames[1..]));
      FrameReads(frames[0]);
    }
  }

  lemma {:induction false} ReadAllExactly(frames: seq<Frame>)
    ensures |ReadAll(frames)| <= |frames|
    ensures ReadAll(frames) == frames <==> forall i | 0 <= i < |frames| :: Printable(frames[i])
  {
    hide ReadBack, Printable;
    if frames != [] {
      var first, rest := ReadBack(frames[0]), ReadAll(frames[1..]);
      FrameRoundTripExactly(frames[0]);
      ReadAllExactly(frames[1..]);
      assert forall i | 0 <= i < |frames[1..]| :: frames[1..][i] == frames[i + 1];
      if first + rest == frames {
        assert |first| == 1 && first[0] == (first + rest)[0] && rest == (first + rest)[1..];
        assert first == [frames[0]];
      }
      if Printable(frames[0]) && rest == frames[1..] {
        assert first + rest == frames;
      }
    }
  }

  /** Printing frames and parsing the lines gives the frames back exactly when all are printable. */
  lemma RoundTripExactly(frames: seq<Frame>)
    ensures Parse(Print(frames)) == frames <==> forall i | 0 <= i < |frames| :: Printable(frames[i])
  {
    PrintedReads(frames);
    ReadAllExactly(frames);
  }
}
