/** What the native and the passthrough relay have in common. */
module Relays {
  import opened StreamEvents
  import opened Downstream
  import opened GatewayFrames
  import opened Strings

  datatype Config = Config(
    gatewayOnly: bool,          // the coordinator was active when the relay started
    flushPreamble: bool,
    safePlaceholder: bool,
    timeoutPlaceholder: bool,
    stallGuard: bool,
    bootstrap: bool,            // a delayed bootstrap comment is configured
    tokenFrame: string,
    errorFrame: string,
    answer: string)

  /** Each of the three coordinated features activates the coordinator before the first line. */
  predicate Coherent(cfg: Config) {
    cfg.safePlaceholder || cfg.timeoutPlaceholder || cfg.stallGuard ==> cfg.gatewayOnly
  }

  /** Only lines start the output: it is coordinated, or there is no delayed bootstrap comment. */
  predicate LinesDecide(cfg: Config) {
    Coherent(cfg) && (cfg.gatewayOnly || !cfg.bootstrap)
  }

  /** What the relay has concluded about the upstream response. */
  datatype Verdict = Verdict(terminal: EventType, neutral: EventType, failed: bool, cyber: bool)

  datatype Progress = Progress(sampled: bool, reasoningSeen: bool, visibleSeen: bool)

  datatype Exit =
    | Finished | Failover | RuleAnswered | UpstreamFailed | MissingTerminal
    | Interrupted | LineTooLong | ReadError | StallTimeout | IntervalTimeout

  datatype ScanError = ContextEnded | TooLong | OtherError

  /** The terminal type reported with the result. */
  function ResultTerminal(v: Verdict): EventType {
    if v.failed then Failed else if !v.neutral.NoType? then v.neutral else v.terminal
  }

  // ---- how a run ends ------------------------------------------------------------------------------------

  /** What the lines so far say about the response. */
  datatype Reading = Reading(terminal: bool, failed: bool, cyber: bool)

  function Read(lines: seq<Line>): Reading {
    Reading(!TerminalAfter(NoType, NoType, lines).NoType?, AnyFails(NoType, lines), AnyCyber(NoType, lines))
  }

  /** A failure that has to be reported as one. */
  predicate Failing(k: Reading) {
    k.failed && !k.cyber
  }

  /** The stream has shown reasoning and no visible output. */
  predicate ReasoningOnly(raw: bool, lines: seq<Line>) {
    AnyMarked(Reasoning, raw, NoType, lines) && !AnyMarked(VisibleOutput, raw, NoType, lines)
  }

  /** A read error: harmless after a terminal event, unless the response failed. */
  predicate EndsBroken(k: Reading, visible: bool, connected: bool, error: ScanError, exit: Exit) {
    var open := !Failing(k) && (k.failed || !k.terminal);
    && (exit.Finished? <==> k.terminal && !k.failed)
    && (exit.UpstreamFailed? <==> Failing(k))
    && (exit.LineTooLong? <==> open && error.TooLong?)
    && (exit.Failover? <==> open && error.OtherError? && !visible)
    && (exit.ReadError? <==> open && error.OtherError? && visible && connected)
    && (exit.Interrupted? <==> open && (error.ContextEnded? || (error.OtherError? && visible && !connected)))
  }

  /** A line that stops the run: a failed event nobody has seen the start of. */
  predicate EndsLine(name: EventType, visible: bool, line: Line, exit: Exit) {
    && line.Data? && TypeOf(name, line.payload).Failed? && !line.payload.cyber && !visible
    && (exit.RuleAnswered? <==> line.payload.ruleMatches)
    && (exit.Failover? <==> !line.payload.ruleMatches && line.payload.retryable)
  }

  function LineText(text: string): Text {
    Tag(FromUpstream, text) + Tag(FromUpstream, "\n")
  }

  /** An error body of the upstream, or something that is no event at all. */
  predicate IsError(t: EventType, p: Payload) {
    t.Failed? || t.ErrorEvent? || p.unsafe || p.blank || !p.valid
  }

  /** What a line may become on its way to the client: itself, or one of two safe texts for an error. */
  predicate Permitted(name: EventType, line: Line, text: Text) {
    match line
    case Data(p) =>
      if IsError(TypeOf(name, p), p) && !p.done then text == LineText(p.safeWire) || text == LineText(p.safeWireLate)
      else text == LineText(p.wire)
    case Blank => text == LineText("")
    case Comment => text == LineText(":")
    case Named(_, event) => text == LineText(event)
    case Dropped(_) => text == []
  }

  /** The text consists of what the lines may become, in order. */
  ghost predicate Permits(name: EventType, lines: seq<Line>, text: Text)
    decreases lines
  {
    if lines == [] then text == []
    else exists n :: 0 <= n <= |text| && Permitted(name, lines[0], text[..n])
                     && Permits(NextName(name, lines[0]), lines[1..], text[n..])
  }

  lemma NothingPermitted(name: EventType)
    ensures Permits(name, [], [])
  {
  }

  lemma PermitsOneMore(name: EventType, line: Line, text: Text, lines: seq<Line>, rest: Text)
    requires Permitted(name, line, text) && Permits(NextName(name, line), lines, rest)
    ensures Permits(name, [line] + lines, text + rest)
  {
    hide Permitted;
    var all, whole := [line] + lines, text + rest;
    assert all[0] == line && all[1..] == lines;
    assert whole[..|text|] == text && whole[|text|..] == rest;
  }

  /** Nothing but gateway frames was relayed, and nothing was sent at all without the coordinator. */
  predicate Clean(link: Link, c: Client) {
    OnlyGatewayFrames(link, c.sent) && (!c.active ==> c.sent == [])
  }

  /** Whether a data line may open the client's output. */
  predicate OpensOutput(cfg: Config, t: EventType, p: Payload) {
    || t.Failed? || NeedsSanitizing(t, p)
    || (if cfg.gatewayOnly then p.tokenDelta
        else !p.blank && (!IsPreamble(t) || cfg.flushPreamble))
  }

  /** A line before the first output: a control line, or the announcement of a response. */
  predicate IsPreliminary(name: EventType, line: Line) {
    line.Data? ==> Counts(name, line) && IsPreamble(TypeOf(name, line.payload)) && !line.payload.tokenDelta
  }

  predicate AllPreliminary(name: EventType, lines: seq<Line>)
    decreases lines
  {
    lines == [] || (IsPreliminary(name, lines[0]) && AllPreliminary(NextName(name, lines[0]), lines[1..]))
  }

  /** Preliminary lines do not open the output, unless the configuration has them flushed. */
  lemma PreambleIsClosed(cfg: Config, name: EventType, p: Payload)
    requires IsPreliminary(name, Data(p)) && (cfg.flushPreamble ==> cfg.gatewayOnly)
    ensures !OpensOutput(cfg, TypeOf(name, p), p) && !TypeOf(name, p).Failed?
  {
  }

  /** Nothing tells the relay that the client has seen output. */
  predicate Unseen(link: Link, c: Client) {
    if c.active then !c.committed else !c.touched && c.sent == []
  }

  /** A failed event that another account may be asked about. */
  predicate IsRetryable(name: EventType, line: Line) {
    && line.Data? && TypeOf(name, line.payload).Failed?
    && !line.payload.cyber && !line.payload.ruleMatches && line.payload.retryable
  }

  // ---- the announcement of a response ----------------------------------------------------------------------

  predicate IsCreated(name: EventType, line: Line) {
    Counts(name, line) && TypeOf(name, line.payload).Created?
  }

  /** An announcement is open until the blank line that ends its event. */
  predicate OpenNext(open: bool, name: EventType, line: Line) {
    !line.Blank? && (open || IsCreated(name, line))
  }

  predicate OpenAfter(open: bool, name: EventType, lines: seq<Line>)
    decreases lines
  {
    if lines == [] then open else OpenAfter(OpenNext(open, name, lines[0]), NextName(name, lines[0]), lines[1..])
  }

  /** Some announcement has ended. */
  predicate Announced(open: bool, name: EventType, lines: seq<Line>)
    decreases lines
  {
    lines != []
    && ((open && lines[0].Blank?)
        || Announced(OpenNext(open, name, lines[0]), NextName(name, lines[0]), lines[1..]))
  }

  ghost predicate HasBlank(lines: seq<Line>) {
    exists j :: 0 <= j < |lines| && lines[j].Blank?
  }

  ghost predicate CreatedThenBlank(name: EventType, lines: seq<Line>, i: nat) {
    i < |lines| && IsCreated(NameAfter(name, lines[..i]), lines[i]) && HasBlank(lines[i + 1..])
  }

  lemma BlankShifts(lines: seq<Line>)
    requires lines != []
    ensures HasBlank(lines) <==> lines[0].Blank? || HasBlank(lines[1..])
  {
    if j :| 0 < j < |lines| && lines[j].Blank? {
      assert lines[1..][j - 1].Blank?;
    }
    if j :| 0 <= j < |lines[1..]| && lines[1..][j].Blank? {
      assert lines[j + 1].Blank?;
    }
  }

  lemma CreatedShifts(name: EventType, lines: seq<Line>)
    requires lines != []
    ensures (exists i: nat :: CreatedThenBlank(name, lines, i))
            <==> || (IsCreated(name, lines[0]) && HasBlank(lines[1..]))
                 || exists i: nat :: CreatedThenBlank(NextName(name, lines[0]), lines[1..], i)
  {
    hide IsCreated, HasBlank;
    var next, rest := NextName(name, lines[0]), lines[1..];
    assert lines[..0] == [];
    NameShift(name, lines);
    assert CreatedThenBlank(name, lines, 0) == (IsCreated(name, lines[0]) && HasBlank(rest));
    forall i: nat | i < |rest| ensures CreatedThenBlank(next, rest, i) == CreatedThenBlank(name, lines, i + 1) {
      assert rest[i + 1..] == lines[i + 2..];
    }
    forall i: nat | CreatedThenBlank(name, lines, i) && i > 0 ensures CreatedThenBlank(next, rest, i - 1) {
    }
  }

  /** That is so exactly when a blank line follows a response.created event. */
  lemma {:induction false} AnnouncedExactly(open: bool, name: EventType, lines: seq<Line>)
    ensures Announced(open, name, lines)
            <==> (open && HasBlank(lines)) || exists i: nat :: CreatedThenBlank(name, lines, i)
    decreases lines
  {
    hide TypeOf, NeedsSanitizing, HasBlank, CreatedThenBlank;
    if lines != [] {
      AnnouncedExactly(OpenNext(open, name, lines[0]), NextName(name, lines[0]), lines[1..]);
      BlankShifts(lines);
      CreatedShifts(name, lines);
    } else {
      assert !HasBlank(lines) && forall i: nat :: !CreatedThenBlank(name, lines, i) by { NothingAnnounced(name); }
    }
  }

  lemma {:induction false} AnnouncedSplit(open: bool, name: EventType, one: seq<Line>, rest: seq<Line>)
    requires |one| <= 1
    ensures OpenAfter(open, name, one + rest) == OpenAfter(OpenAfter(open, name, one), NameAfter(name, one), rest)
    ensures Announced(open, name, one + rest)
            == (Announced(open, name, one) || Announced(OpenAfter(open, name, one), NameAfter(name, one), rest))
  {
    hide OpenNext, NextName;
    if one == [] {
      assert one + rest == rest;
    } else {
      var open', next := OpenNext(open, name, one[0]), NextName(name, one[0]);
      assert (one + rest)[1..] == rest && (one + rest)[0] == one[0] && one[1..] == [];
      assert NameAfter(next, one[1..]) == next && OpenAfter(open', next, one[1..]) == open';
      assert !Announced(open', next, one[1..]);
    }
  }

  lemma AnnouncedByOne(open: bool, name: EventType, line: Line)
    ensures OpenAfter(open, name, [line]) == OpenNext(open, name, line)
    ensures Announced(open, name, [line]) == (open && line.Blank?)
    ensures OpenAfter(open, name, []) == open && !Announced(open, name, [])
  {
    hide OpenNext, NextName;
    var rest, open', next := [line][1..], OpenNext(open, name, line), NextName(name, line);
    assert rest == [] && OpenAfter(open', next, rest) == open' && !Announced(open', next, rest);
  }

  /** Event lines are not empty. */
  ghost predicate Spelled(lines: seq<Line>) {
    forall i | 0 <= i < |lines| :: lines[i].Named? ==> lines[i].text != ""
  }

  lemma SpelledSplit(one: seq<Line>, rest: seq<Line>)
    requires Spelled(one + rest)
    ensures Spelled(one) && Spelled(rest)
  {
    assert forall i | 0 <= i < |one| :: one[i] == (one + rest)[i];
    assert forall i | 0 <= i < |rest| :: rest[i] == (one + rest)[|one| + i];
  }

  lemma NothingAnnounced(name: EventType)
    ensures !HasBlank([]) && forall i: nat :: !CreatedThenBlank(name, [], i)
  {
  }

  predicate IsWire(w: string) {
    IsData(w) && OneLine(w)
  }

  /** What lines look like: single lines, event lines among them. Neither the safe replacements, nor the
      end marker, nor a line that opens coordinated output is the gateway's own placeholder. */
  predicate Shaped(ph: Placeholder, line: Line) {
    match line
    case Data(p) =>
      && IsWire(p.wire) && IsWire(p.safeWire) && IsWire(p.safeWireLate)
      && !IsPlaceholder(ph, p.safeWire) && !IsPlaceholder(ph, p.safeWireLate)
      && (p.tokenDelta || p.done ==> !IsPlaceholder(ph, p.wire))
    case Named(_, text) => "event:" <= text && OneLine(text)
    case _ => true
  }

  /** The upstream sends the gateway's own placeholder. */
  predicate LooksLikePlaceholder(ph: Placeholder, line: Line) {
    line.Data? && IsPlaceholder(ph, line.payload.wire)
  }

  ghost predicate AllShaped(ph: Placeholder, lines: seq<Line>) {
    forall i | 0 <= i < |lines| :: Shaped(ph, lines[i])
  }

  ghost predicate NoPlaceholders(ph: Placeholder, lines: seq<Line>) {
    forall i | 0 <= i < |lines| :: !LooksLikePlaceholder(ph, lines[i])
  }

  /** An event line is not a data line. */
  lemma EventIsNoPlaceholder(ph: Placeholder, text: string)
    requires "event:" <= text
    ensures !IsPlaceholder(ph, text)
  {
    assert text[0] == 'e' && text[5] == ':' && text[..6] == "event:";
    assert TrimLeft(text, IsSpace) == text;
    TrimRightKeeps(text, 6);
    assert TrimSpace(text)[0] == 'e' && "data:"[0] == 'd';
  }

  lemma BareIsNoPlaceholder(ph: Placeholder)
    ensures !IsPlaceholder(ph, "") && !IsPlaceholder(ph, ":")
  {
    ColonIsPlain();
    assert TrimSpace("") == "";
  }

  /** What a control line is forwarded as is one line and no placeholder. */
  lemma ControlIsNoPlaceholder(ph: Placeholder, line: Line)
    requires !line.Data? && Shaped(ph, line) && ControlText(line).Some?
    ensures OneLine(ControlText(line).value) && !IsPlaceholder(ph, ControlText(line).value)
  {
    hide IsPlaceholder;
    BareIsNoPlaceholder(ph);
    if line.Named? {
      EventIsNoPlaceholder(ph, line.text);
    }
  }

  /** Nor is what an ordinary data line is relayed as. */
  lemma DataIsNoPlaceholder(ph: Placeholder, t: EventType, p: Payload, started: bool)
    requires Shaped(ph, Data(p)) && !IsPlaceholder(ph, p.wire)
    ensures OneLine(Sanitize(t, p, started).wire) && !IsPlaceholder(ph, Sanitize(t, p, started).wire)
  {
    hide IsPlaceholder;
  }

  /** The coordinator is inactive and what it has seen, up to the end of a line, has no placeholder. */
  ghost predicate Unmarked(link: Link, p: Pipe) {
    && !p.client.active
    && (p.client.disconnected
        || (Tame(link.placeholder, Plain(Stream(p))) && Aligned(Plain(Stream(p)))))
  }

  /** What was relayed before ends with a line and has no placeholder. */
  ghost predicate Spotless(link: Link, c: Client) {
    Tame(link.placeholder, Plain(Relayed(c.sent))) && Aligned(Plain(Relayed(c.sent)))
  }

  /** That is so when nothing was relayed before, or only the early comment. */
  lemma EarlyCommentIsSpotless(link: Link, c: Client)
    requires Plain(Relayed(c.sent)) == "" || Plain(Relayed(c.sent)) == ":\n\n"
    ensures Spotless(link, c)
  {
    hide Relayed, IsPlaceholder, Tame, Aligned;
    assert Tame(link.placeholder, "") && Aligned("") by { EmptyIsTame(link.placeholder); }
    BareIsNoPlaceholder(link.placeholder);
    TameLine(link.placeholder, "", ":");
    TameLine(link.placeholder, "" + (":" + "\n"), "");
    assert "" + (":" + "\n") + ("" + "\n") == ":\n\n";
  }

  lemma EmptyIsTame(ph: Placeholder)
    ensures Tame(ph, "") && Aligned("")
  {
    assert Split("") == [""];
  }

  lemma SpotlessIsUnmarked(link: Link, c: Client)
    requires Spotless(link, c) && !c.active
    ensures Unmarked(link, Pipe(c, []))
  {
    hide Relayed, Tame, Aligned;
    assert Relayed(c.sent) + [] == Relayed(c.sent);
  }

  /** Output is not coordinated and the upstream sends nothing that could activate the coordinator. */
  ghost predicate Ordinary(cfg: Config, link: Link, client: Client, lines: seq<Line>) {
    && !cfg.gatewayOnly && Faithful(link, client) && !client.active && Spotless(link, client)
    && (link.wrapped ==> AllShaped(link.placeholder, lines) && NoPlaceholders(link.placeholder, lines))
  }

  lemma PlainLine(t: Text, w: string)
    ensures Plain(t + LineText(w)) == Plain(t) + (w + "\n")
  {
    PlainConcat(t, LineText(w));
    assert Plain(LineText(w)) == w + "\n";
  }
}
