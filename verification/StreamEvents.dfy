/** Upstream SSE lines as both streaming relays see them, the sanitizer that replaces
    error payloads, and the accounting that decides what a stream is billed for.

    A payload is a record of the facts the relays read out of the JSON: its type, the usage
    and identifiers it carries, and the answers of the text classifiers. */
module StreamEvents {
  datatype Option<+T> = None | Some(value: T)

  datatype EventType =
    | NoType | Created | InProgress | Completed | Done | Failed
    | Incomplete | Cancelled | Canceled | ErrorEvent | OtherEvent(name: string)

  datatype Usage = Usage(inputTokens: nat, outputTokens: nat, cachedTokens: nat)

  datatype Payload = Payload(
    ptype: EventType,            // the JSON "type" field, NoType when it is missing
    done: bool,                  // the literal [DONE]
    blank: bool,                 // empty data
    valid: bool,                 // well-formed JSON
    unsafe: bool,                // an error body inside an ordinary event
    usage: Option<Usage>,
    id: Option<string>,          // of a failed event only if it passes the filter for error ids
    images: set<string>,
    searches: set<string>,
    cyber: bool,                 // the three classifiers consulted for response.failed
    ruleMatches: bool,
    retryable: bool,
    realOutput: bool,            // the output classifiers
    tokenDelta: bool,
    countsForTtft: bool,
    reasoning: bool,
    visible: bool,
    wire: string,                // the data line as relayed
    safeWire: string,            // the gateway-owned replacement before output has started
    safeWireLate: string)        // and after it

  datatype Line =
    | Data(payload: Payload)
    | Blank
    | Comment
    | Named(etype: EventType, text: string)
    | Dropped(resetsName: bool)

  predicate IsTerminal(t: EventType) {
    t.Completed? || t.Done? || t.Failed? || IsNeutral(t)
  }

  predicate IsNeutral(t: EventType) {
    t.Incomplete? || t.Cancelled? || t.Canceled?
  }

  predicate IsPreamble(t: EventType) {
    t.Created? || t.InProgress?
  }

  /** The types that end a response, those of them that are neither success nor failure, and those that
      announce one. */
  lemma EventClasses(t: EventType)
    ensures IsTerminal(t) <==> t in {Completed, Done, Failed, Incomplete, Cancelled, Canceled}
    ensures IsNeutral(t) <==> t in {Incomplete, Cancelled, Canceled}
    ensures IsPreamble(t) <==> t in {Created, InProgress}
  {
  }

  /** The type of a data line: its own, or the one of the event line before it. */
  function TypeOf(name: EventType, p: Payload): EventType {
    if p.ptype.NoType? then name else p.ptype
  }

  /** The event name in force after a line. */
  function NextName(name: EventType, line: Line): EventType {
    match line
    case Data(_) => name
    case Blank => NoType
    case Comment => name
    case Named(t, _) => t
    case Dropped(resets) => if resets then NoType else name
  }

  /** The gateway-owned text a control line is forwarded as, None when it is dropped. */
  function ControlText(line: Line): Option<string>
    requires !line.Data?
  {
    match line
    case Blank => Some("")
    case Comment => Some(":")
    case Named(_, text) => Some(text)
    case Dropped(_) => None
  }

  predicate NeedsSanitizing(t: EventType, p: Payload) {
    !p.done && (p.blank || !p.valid || t.Failed? || t.ErrorEvent? || p.unsafe)
  }

  /** What reaches the client and the accounting: the payload, or its safe replacement. Only
      the text of the replacement may depend on whether output has started. */
  function Sanitize(t: EventType, p: Payload, started: bool): (q: Payload)
    ensures !NeedsSanitizing(t, p) ==> q == p
    ensures NeedsSanitizing(t, p) ==> q.usage.None? && q.images == {} && q.searches == {}
  {
    if NeedsSanitizing(t, p) then
      var failedShape := p.blank || !p.valid || t.Failed?;
      Payload(
        if failedShape then Failed else ErrorEvent,
        false, false, true, false,
        None, if t.Failed? && !p.blank && p.valid then p.id else None, {}, {},
        false, false, false, false, false, false, false, false,
        if started then p.safeWireLate else p.safeWire, p.safeWire, p.safeWireLate)
    else p
  }

  /** The replacement of an error: a failure for a failed event and for what is no event at all, an error
      otherwise; worded for a stream that has or has not started; with the id of a failed event, and nothing
      that counts as output. */
  lemma ReplacementExactly(t: EventType, p: Payload, started: bool)
    requires NeedsSanitizing(t, p)
    ensures var q := Sanitize(t, p, started);
            var failed := t.Failed? && !p.blank && p.valid;
            && q.wire == (if started then p.safeWireLate else p.safeWire)
            && (q.ptype == Failed <==> t.Failed? || p.blank || !p.valid)
            && (q.ptype == ErrorEvent <==> !t.Failed? && !p.blank && p.valid)
            && (if failed then q.id == p.id else q.id.None?)
            && !q.realOutput && !q.tokenDelta && !q.countsForTtft && !q.reasoning && !q.visible
  {
  }

  /** A data line after which the run counts as failed. */
  predicate Fails(name: EventType, line: Line) {
    line.Data? && (TypeOf(name, line.payload).Failed? || NeedsSanitizing(TypeOf(name, line.payload), line.payload))
  }

  // ---- accounting --------------------------------------------------------------------

  datatype Billing = Billing(usage: Usage, id: Option<string>, images: set<string>, searches: set<string>)

  const NOTHING_BILLED := Billing(Usage(0, 0, 0), None, {}, {})

  function ReadUsage(u: Usage, p: Payload): Usage {
    if p.usage.Some? && IsTerminal(p.ptype) then p.usage.value else u
  }

  function AddEvidence(b: Billing, q: Payload): Billing {
    b.(id := if b.id.None? then q.id else b.id, images := b.images + q.images, searches := b.searches + q.searches)
  }

  function Tally(b: Billing, q: Payload): Billing {
    AddEvidence(b.(usage := ReadUsage(b.usage, q)), q)
  }

  /** The accounting of one line, with no client in sight. */
  function BillLine(b: Billing, name: EventType, line: Line): Billing {
    if !line.Data? then b
    else
      var p := line.payload;
      var t := TypeOf(name, p);
      var before := if t.Failed? then b.(usage := ReadUsage(b.usage, p)) else b;
      var q := Sanitize(t, p, false);
      Tally(before, q)
  }

  function BillLines(b: Billing, name: EventType, lines: seq<Line>): Billing
    decreases lines
  {
    if lines == [] then b
    else BillLines(BillLine(b, name, lines[0]), NextName(name, lines[0]), lines[1..])
  }

  function NameAfter(name: EventType, lines: seq<Line>): EventType
    decreases lines
  {
    if lines == [] then name else NameAfter(NextName(name, lines[0]), lines[1..])
  }

  /** The accounting of a line never depends on how the sanitizer phrased its replacement. */
  lemma SanitizeBillsAlike(b: Billing, t: EventType, p: Payload, started: bool)
    ensures Tally(b, Sanitize(t, p, started)) == Tally(b, Sanitize(t, p, false))
  {
  }

  // An independent reading of BillLines: the last usage wins, the first id wins, evidence adds up.

  function UsageOf(name: EventType, line: Line): Option<Usage> {
    if line.Data? && line.payload.usage.Some? && IsTerminal(line.payload.ptype)
       && (TypeOf(name, line.payload).Failed? || !NeedsSanitizing(TypeOf(name, line.payload), line.payload))
    then line.payload.usage else None
  }

  function IdOf(name: EventType, line: Line): Option<string> {
    if line.Data? then Sanitize(TypeOf(name, line.payload), line.payload, false).id else None
  }

  lemma {:induction false} LastUsageIsBilled(b: Billing, name: EventType, lines: seq<Line>, k: nat)
    requires k < |lines| && UsageOf(NameAfter(name, lines[..k]), lines[k]).Some?
    requires forall j | k < j < |lines| :: UsageOf(NameAfter(name, lines[..j]), lines[j]).None?
    ensures Some(BillLines(b, name, lines).usage) == UsageOf(NameAfter(name, lines[..k]), lines[k])
    decreases lines
  {
    var rest := lines[1..];
    assert lines[..0] == [];
    NameShift(name, lines);
    if k > 0 {
      LastUsageIsBilled(BillLine(b, name, lines[0]), NextName(name, lines[0]), rest, k - 1);
    } else {
      QuietUsage(BillLine(b, name, lines[0]), NextName(name, lines[0]), rest);
    }
  }

  lemma {:induction false} FirstIdIsKept(b: Billing, name: EventType, lines: seq<Line>, k: nat)
    requires b.id.None? && k < |lines| && IdOf(NameAfter(name, lines[..k]), lines[k]).Some?
    requires forall j | 0 <= j < k :: IdOf(NameAfter(name, lines[..j]), lines[j]).None?
    ensures BillLines(b, name, lines).id == IdOf(NameAfter(name, lines[..k]), lines[k])
    decreases lines
  {
    assert lines[..0] == [];
    NameShift(name, lines);
    if k > 0 {
      FirstIdIsKept(BillLine(b, name, lines[0]), NextName(name, lines[0]), lines[1..], k - 1);
    } else {
      SettledId(BillLine(b, name, lines[0]), NextName(name, lines[0]), lines[1..]);
    }
  }

  /** A line adds its images and searches when it is relayed as it is. */
  predicate Counts(name: EventType, line: Line) {
    line.Data? && !NeedsSanitizing(TypeOf(name, line.payload), line.payload)
  }

  /** A line that counts and carries the image, or the search, x. */
  ghost predicate ShowsImage(name: EventType, lines: seq<Line>, k: nat, x: string) {
    k < |lines| && Counts(NameAfter(name, lines[..k]), lines[k]) && x in lines[k].payload.images
  }

  ghost predicate ShowsSearch(name: EventType, lines: seq<Line>, k: nat, x: string) {
    k < |lines| && Counts(NameAfter(name, lines[..k]), lines[k]) && x in lines[k].payload.searches
  }

  /** Exactly the images and searches of all lines that count are billed. */
  lemma {:induction false} EvidenceAddsUp(b: Billing, name: EventType, lines: seq<Line>, x: string)
    ensures x in BillLines(b, name, lines).images
            <==> x in b.images || exists k: nat :: ShowsImage(name, lines, k, x)
    ensures x in BillLines(b, name, lines).searches
            <==> x in b.searches || exists k: nat :: ShowsSearch(name, lines, k, x)
    decreases lines
  {
    hide TypeOf, NeedsSanitizing, IsTerminal;
    if lines != [] {
      var next, rest := NextName(name, lines[0]), lines[1..];
      EvidenceAddsUp(BillLine(b, name, lines[0]), next, rest, x);
      EvidenceShifts(name, lines, x);
    }
  }

  lemma EvidenceShifts(name: EventType, lines: seq<Line>, x: string)
    requires lines != []
    ensures (exists k: nat :: ShowsImage(name, lines, k, x))
            <==> || (Counts(name, lines[0]) && x in lines[0].payload.images)
                 || exists k: nat :: ShowsImage(NextName(name, lines[0]), lines[1..], k, x)
    ensures (exists k: nat :: ShowsSearch(name, lines, k, x))
            <==> || (Counts(name, lines[0]) && x in lines[0].payload.searches)
                 || exists k: nat :: ShowsSearch(NextName(name, lines[0]), lines[1..], k, x)
  {
    hide TypeOf, NeedsSanitizing, NextName;
    assert lines[..0] == [];
    NameShift(name, lines);
    var next, rest := NextName(name, lines[0]), lines[1..];
    assert forall k: nat | k < |rest| :: ShowsImage(next, rest, k, x) == ShowsImage(name, lines, k + 1, x);
    assert forall k: nat | k < |rest| :: ShowsSearch(next, rest, k, x) == ShowsSearch(name, lines, k + 1, x);
    assert ShowsImage(name, lines, 0, x) == (Counts(name, lines[0]) && x in lines[0].payload.images);
    assert ShowsSearch(name, lines, 0, x) == (Counts(name, lines[0]) && x in lines[0].payload.searches);
    forall k: nat | ShowsImage(name, lines, k, x) && k > 0
      ensures ShowsImage(next, rest, k - 1, x)
    {
    }
    forall k: nat | ShowsSearch(name, lines, k, x) && k > 0
      ensures ShowsSearch(next, rest, k - 1, x)
    {
    }
  }

  /** A line that says what the following data lines are called. */
  predicate Renames(line: Line) {
    line.Blank? || line.Named? || (line.Dropped? && line.resetsName)
  }

  /** The name in force is that of the last event line since the last blank one. */
  lemma {:induction false} LatestNameCounts(name: EventType, lines: seq<Line>, k: nat)
    requires k < |lines| && Renames(lines[k]) && forall j | k < j < |lines| :: !Renames(lines[j])
    ensures NameAfter(name, lines) == if lines[k].Named? then lines[k].etype else NoType
    decreases lines
  {
    if k > 0 {
      LatestNameCounts(NextName(name, lines[0]), lines[1..], k - 1);
    } else {
      NameIsKept(NextName(name, lines[0]), lines[1..]);
    }
  }

  lemma {:induction false} NameIsKept(name: EventType, lines: seq<Line>)
    requires forall j | 0 <= j < |lines| :: !Renames(lines[j])
    ensures NameAfter(name, lines) == name
    decreases lines
  {
    if lines != [] {
      NameIsKept(NextName(name, lines[0]), lines[1..]);
    }
  }

  lemma NameShift(name: EventType, lines: seq<Line>)
    requires lines != []
    ensures forall j | 0 <= j < |lines| - 1 ::
              NameAfter(NextName(name, lines[0]), lines[1..][..j]) == NameAfter(name, lines[..j + 1])
              && lines[1..][j] == lines[j + 1]
  {
    forall j | 0 <= j < |lines| - 1
      ensures NameAfter(NextName(name, lines[0]), lines[1..][..j]) == NameAfter(name, lines[..j + 1])
    {
      assert lines[..j + 1][1..] == lines[1..][..j];
    }
  }

  lemma {:induction false} QuietUsage(b: Billing, name: EventType, lines: seq<Line>)
    requires forall j | 0 <= j < |lines| :: UsageOf(NameAfter(name, lines[..j]), lines[j]).None?
    ensures BillLines(b, name, lines).usage == b.usage
    decreases lines
  {
    if lines != [] {
      assert lines[..0] == [];
      NameShift(name, lines);
      QuietUsage(BillLine(b, name, lines[0]), NextName(name, lines[0]), lines[1..]);
    }
  }

  lemma {:induction false} SettledId(b: Billing, name: EventType, lines: seq<Line>)
    requires b.id.Some?
    ensures BillLines(b, name, lines).id == b.id
    decreases lines
  {
    if lines != [] {
      SettledId(BillLine(b, name, lines[0]), NextName(name, lines[0]), lines[1..]);
    }
  }

  // ---- outcome of a line sequence ------------------------------------------------------

  predicate AnyFails(name: EventType, lines: seq<Line>)
    decreases lines
  {
    lines != [] && (Fails(name, lines[0]) || AnyFails(NextName(name, lines[0]), lines[1..]))
  }

  /** A response.failed event that a policy match explains. */
  predicate IsCyber(name: EventType, line: Line) {
    line.Data? && TypeOf(name, line.payload).Failed? && line.payload.cyber
  }

  predicate AnyCyber(name: EventType, lines: seq<Line>)
    decreases lines
  {
    lines != [] && (IsCyber(name, lines[0]) || AnyCyber(NextName(name, lines[0]), lines[1..]))
  }

  /** What the output classifiers say about a payload. */
  datatype Mark = Reasoning | VisibleOutput | RealOutput | FirstToken

  predicate Bears(p: Payload, mark: Mark) {
    match mark
    case Reasoning => p.reasoning
    case VisibleOutput => p.visible
    case RealOutput => p.realOutput
    case FirstToken => p.countsForTtft
  }

  /** A data line bears the mark; `raw` includes the lines whose payload is replaced. */
  predicate IsMarked(mark: Mark, raw: bool, name: EventType, line: Line) {
    line.Data? && Bears(line.payload, mark) && (raw || Counts(name, line))
  }

  predicate AnyMarked(mark: Mark, raw: bool, name: EventType, lines: seq<Line>)
    decreases lines
  {
    lines != []
    && (IsMarked(mark, raw, name, lines[0]) || AnyMarked(mark, raw, NextName(name, lines[0]), lines[1..]))
  }

  /** A list of lines, cut after its first one. */
  lemma {:induction false} MarksSplit(name: EventType, one: seq<Line>, rest: seq<Line>)
    requires |one| <= 1
    ensures AnyCyber(name, one + rest) == (AnyCyber(name, one) || AnyCyber(NameAfter(name, one), rest))
    ensures forall mark, raw ::
              AnyMarked(mark, raw, name, one + rest)
              == (AnyMarked(mark, raw, name, one) || AnyMarked(mark, raw, NameAfter(name, one), rest))
  {
    hide IsCyber, IsMarked, NextName;
    if one == [] {
      assert one + rest == rest;
    } else {
      var next := NextName(name, one[0]);
      assert (one + rest)[1..] == rest && (one + rest)[0] == one[0] && one[1..] == [];
      assert NameAfter(next, one[1..]) == next && !AnyCyber(next, one[1..]);
      assert forall mark, raw :: !AnyMarked(mark, raw, next, one[1..]);
    }
  }

  lemma MarksOfOne(name: EventType, line: Line)
    ensures AnyCyber(name, [line]) == IsCyber(name, line)
    ensures forall mark, raw :: AnyMarked(mark, raw, name, [line]) == IsMarked(mark, raw, name, line)
  {
    hide IsCyber, IsMarked, NextName;
    var rest, next := [line][1..], NextName(name, line);
    assert rest == [] && !AnyCyber(next, rest);
    assert forall mark, raw :: !AnyMarked(mark, raw, next, rest);
  }

  lemma NoMarks(name: EventType)
    ensures !AnyCyber(name, []) && forall mark, raw :: !AnyMarked(mark, raw, name, [])
  {
  }

  /** No line is a response.failed event, which may cut a run short. */
  predicate NoFailedEvent(name: EventType, lines: seq<Line>)
    decreases lines
  {
    lines == []
    || (!(lines[0].Data? && TypeOf(name, lines[0].payload).Failed?)
        && NoFailedEvent(NextName(name, lines[0]), lines[1..]))
  }

  /** The last neutral terminal type, or the one already known. */
  function NeutralAfter(neutral: EventType, name: EventType, lines: seq<Line>): EventType
    decreases lines
  {
    if lines == [] then neutral
    else NeutralAfter(NeutralNext(neutral, name, lines[0]), NextName(name, lines[0]), lines[1..])
  }

  function NeutralNext(neutral: EventType, name: EventType, line: Line): EventType {
    if line.Data? && IsNeutral(TypeOf(name, line.payload)) then TypeOf(name, line.payload) else neutral
  }

  /** The last terminal type, or the one already known. */
  function TerminalAfter(terminal: EventType, name: EventType, lines: seq<Line>): EventType
    decreases lines
  {
    if lines == [] then terminal
    else TerminalAfter(TerminalNext(terminal, name, lines[0]), NextName(name, lines[0]), lines[1..])
  }

  function TerminalNext(terminal: EventType, name: EventType, line: Line): EventType {
    if line.Data? && IsTerminal(TypeOf(name, line.payload)) then TypeOf(name, line.payload) else terminal
  }

  lemma {:induction false} FailsInParts(name: EventType, lines: seq<Line>, more: seq<Line>)
    ensures AnyFails(name, lines + more) == (AnyFails(name, lines) || AnyFails(NameAfter(name, lines), more))
    decreases lines
  {
    if lines == [] {
      assert lines + more == more;
    } else {
      assert (lines + more)[1..] == lines[1..] + more;
      FailsInParts(NextName(name, lines[0]), lines[1..], more);
    }
  }

  lemma {:induction false} OneLineOutcome(neutral: EventType, terminal: EventType, name: EventType, lines: seq<Line>)
    requires |lines| == 1
    ensures AnyFails(name, lines) == Fails(name, lines[0])
    ensures NeutralAfter(neutral, name, lines) == NeutralNext(neutral, name, lines[0])
    ensures TerminalAfter(terminal, name, lines) == TerminalNext(terminal, name, lines[0])
    ensures NameAfter(name, lines) == NextName(name, lines[0])
  {
    hide Fails, NeutralNext, TerminalNext, NextName;
    var rest, next := lines[1..], NextName(name, lines[0]);
    assert rest == [];
    assert !AnyFails(next, rest) && NameAfter(next, rest) == next;
    assert NeutralAfter(NeutralNext(neutral, name, lines[0]), next, rest) == NeutralNext(neutral, name, lines[0]);
    assert TerminalAfter(TerminalNext(terminal, name, lines[0]), next, rest) == TerminalNext(terminal, name, lines[0]);
  }
}
