/** The passthrough streaming relay (handleStreamingResponsePassthrough): lines are held back in
    a list until the first one that may open the client's output, then written one by one. */
module PassthroughRelay {
  import opened StreamEvents
  import opened Downstream
  import opened Relays

  datatype Placeholders = Placeholders(
    safeSent: bool, safePending: bool, timeoutSent: bool, timeoutPending: bool, ttftSeen: bool, bootstrapPending: bool)

  datatype State = State(
    client: Client,
    pending: seq<string>,
    outputStarted: bool,
    verdict: Verdict,
    name: EventType,
    holders: Placeholders,
    progress: Progress,
    bill: Billing)

  datatype Step =
    | Upstream(line: Line)
    | BootstrapTimer
    | PlaceholderTimer
    | CoordinatorFrame
    | StallTimer(claimed: bool)
    | ScanFailed(error: ScanError)
    | EndOfStream(contextAlive: bool)

  datatype Run = Running(state: State) | Ended(state: State, exit: Exit)

  function Start(client: Client, cfg: Config, preflushed: bool, placeholderSent: bool): State {
    State(
      client, [], (preflushed || placeholderSent) && !cfg.gatewayOnly,
      Verdict(NoType, NoType, false, false), NoType,
      Placeholders(placeholderSent, false, placeholderSent, false, false, false),
      Progress(false, false, false), NOTHING_BILLED)
  }

  predicate Connected(s: State) {
    !s.client.disconnected
  }

  predicate Visible(link: Link, s: State) {
    OutputVisible(link, s.client, s.outputStarted)
  }

  predicate AtBoundary(s: State) {
    s.pending == [] || s.pending[|s.pending| - 1] == ""
  }

  function PendingText(pending: seq<string>): Text {
    if pending == [] then [] else LineText(pending[0]) + PendingText(pending[1..])
  }

  /** Upstream bytes on their way: those received, then the lines still held back. */
  function Underway(s: State): Text {
    UpstreamSent(s.client) + PendingText(s.pending)
  }

  ghost predicate OnlyWrites(link: Link, s: State, r: State) {
    && r.bill == s.bill && r.name == s.name && r.progress == s.progress && r.verdict == s.verdict
    && Advances(link, s.client, r.client)
  }

  // ---- writing -------------------------------------------------------------------------------

  function PutLines(link: Link, c: Client, lines: seq<string>): (r: Client)
    ensures Advances(link, c, r)
    ensures !link.wrapped ==> r.active == c.active
    decreases lines
  {
    hide Put;
    if lines == [] then c else PutLines(link, Put(link, c, LineText(lines[0])), lines[1..])
  }

  function WritePending(link: Link, s: State): (r: State)
    ensures OnlyWrites(link, s, r) && r == s.(client := r.client, pending := r.pending)
    ensures !link.wrapped ==> r.client.active == s.client.active
    ensures Connected(r) ==> r.pending == []
  {
    hide PutLines;
    var c := PutLines(link, s.client, s.pending);
    s.(client := c, pending := if c.disconnected then s.pending else [])
  }

  /** The gateway's own terminal event, after the lines that were held back. */
  function SendFailure(link: Link, cfg: Config, s: State): (r: State)
    ensures r.bill == s.bill && r.verdict.failed == s.verdict.failed && r.verdict.neutral == s.verdict.neutral
    ensures Later(s.client, r.client) && (Faithful(link, s.client) ==> Faithful(link, r.client))
  {
    hide PutLines, Answer;
    if !Connected(s) || link.sawTerminal(s.client.writes) then s
    else
      var w := WritePending(link, s);
      if !Connected(w) || link.sawTerminal(w.client.writes) then w
      else w.(client := Answer(link, w.client, cfg.errorFrame), verdict := s.verdict.(terminal := Failed))
  }

  function AfterFrame(cfg: Config, s: State, c: Client, h: Placeholders): State {
    if c.disconnected then s.(client := c, holders := h)
    else s.(client := c, holders := h, outputStarted := s.outputStarted || !cfg.gatewayOnly)
  }

  function SafePlaceholder(link: Link, cfg: Config, s: State): (r: State)
    ensures OnlyWrites(link, s, r) && r.pending == s.pending
    ensures cfg.gatewayOnly || Coherent(cfg) ==> r.outputStarted == s.outputStarted
  {
    hide PutFrame;
    if !cfg.safePlaceholder || s.holders.safeSent || !Connected(s) || !AtBoundary(s) then s
    else
      var c := PutFrame(link, s.client, cfg.tokenFrame, true);
      AfterFrame(cfg, s, c, if c.disconnected then s.holders else s.holders.(safeSent := true))
  }

  function TimeoutPlaceholder(link: Link, cfg: Config, s: State): (r: State)
    ensures OnlyWrites(link, s, r) && r.pending == s.pending
    ensures cfg.gatewayOnly || Coherent(cfg) ==> r.outputStarted == s.outputStarted
  {
    hide PutFrame;
    var h := s.holders;
    var over := !Connected(s) || h.ttftSeen || h.timeoutSent;
    if over || !cfg.timeoutPlaceholder || !AtBoundary(s) then s.(holders := h.(timeoutPending := !over))
    else
      var c := PutFrame(link, s.client, cfg.tokenFrame, true);
      AfterFrame(cfg, s, c,
        if c.disconnected then h.(timeoutPending := false)
        else h.(timeoutPending := false, timeoutSent := true, safeSent := true))
  }

  function DrainTimeout(link: Link, cfg: Config, s: State): (r: State)
    ensures OnlyWrites(link, s, r) && r.pending == s.pending
    ensures cfg.gatewayOnly || Coherent(cfg) ==> r.outputStarted == s.outputStarted
  {
    if s.holders.timeoutPending then TimeoutPlaceholder(link, cfg, s) else s
  }

  function BootstrapComment(link: Link, cfg: Config, s: State): (r: State)
    ensures OnlyWrites(link, s, r) && r.pending == s.pending
    ensures cfg.gatewayOnly ==> r.outputStarted == s.outputStarted
  {
    hide PutFrame;
    if !Connected(s) || Visible(link, s) || !AtBoundary(s) then s
    else AfterFrame(cfg, s, PutFrame(link, s.client, ":\n\n", false), s.holders)
  }

  // ---- one line ------------------------------------------------------------------------------

  function Rendered(link: Link, s: State, line: Line): Text {
    if line.Data? then LineText(Sanitize(TypeOf(s.name, line.payload), line.payload, Visible(link, s)).wire)
    else
      match ControlText(line)
      case None => []
      case Some(text) => LineText(text)
  }

  /** Holds a line back or writes it, after everything held back before it. */
  function Emit(link: Link, s: State, text: string, opens: bool): (r: State)
    ensures OnlyWrites(link, s, r) && r.holders == s.holders
    ensures !link.wrapped ==> r.client.active == s.client.active
  {
    hide Put, PutLines;
    if !Connected(s) then s
    else if !s.outputStarted && !opens then s.(pending := s.pending + [text])
    else
      var w := if s.outputStarted then s else WritePending(link, s);
      if !Connected(w) then w
      else
        var c := Put(link, w.client, LineText(text));
        w.(client := c, outputStarted := s.outputStarted || !c.disconnected)
  }

  /** What the end of an event lets through. */
  function EndEvent(link: Link, cfg: Config, s: State): (r: State)
    ensures OnlyWrites(link, s, r) && r.pending == s.pending
    ensures cfg.gatewayOnly || Coherent(cfg) ==> r.outputStarted == s.outputStarted
  {
    hide SafePlaceholder, DrainTimeout;
    if s.holders.safePending
    then DrainTimeout(link, cfg, SafePlaceholder(link, cfg, s.(holders := s.holders.(safePending := false))))
    else DrainTimeout(link, cfg, s)
  }

  function RelayControl(link: Link, cfg: Config, s: State, line: Line): (r: State)
    requires !line.Data?
    ensures OnlyWrites(link, s.(name := NextName(s.name, line)), r)
  {
    hide Emit, EndEvent;
    var named := s.(name := NextName(s.name, line));
    var text := ControlText(line);
    if text.None? then named
    else
      var w := Emit(link, named, text.value, false);
      if text.value == "" && Connected(s) then EndEvent(link, cfg, w) else w
  }

  /** The conclusions drawn from a relayed payload; unlike the native relay it looks at the type
      the sanitizer left. */
  function Judge(v: Verdict, t: EventType, p: Payload): Verdict {
    var shown := if NeedsSanitizing(t, p) then Sanitize(t, p, false).ptype else t;
    Verdict(
      if IsTerminal(shown) then shown else v.terminal,
      if IsNeutral(shown) then shown else v.neutral,
      v.failed || t.Failed? || NeedsSanitizing(t, p),
      v.cyber || (t.Failed? && p.cyber))
  }

  function EarlyStop(link: Link, s: State, t: EventType, p: Payload): Option<Exit> {
    if t.Failed? && !p.cyber && !Visible(link, s) then
      if p.ruleMatches then Some(RuleAnswered) else if p.retryable then Some(Failover) else None
    else None
  }

  /** What a relayed payload means for the placeholders and for the observed progress. */
  function Noted(cfg: Config, h: Placeholders, created: bool, counts: bool): Placeholders {
    h.(safePending := h.safePending || created,
       ttftSeen := h.ttftSeen || (cfg.timeoutPlaceholder && !h.timeoutSent && counts))
  }

  function Observed(p: Progress, q: Payload): Progress {
    Progress(p.sampled || q.realOutput, p.reasoningSeen || q.reasoning, p.visibleSeen || q.visible)
  }

  /** Everything a relayed data line changes except what is written. */
  function Examine(cfg: Config, s: State, t: EventType, p: Payload, q: Payload): State {
    var b := if t.Failed? then s.bill.(usage := ReadUsage(s.bill.usage, p)) else s.bill;
    s.(
      verdict := Judge(s.verdict, t, p),
      bill := Tally(b, q),
      holders := Noted(cfg, s.holders, t.Created? && !NeedsSanitizing(t, p), q.countsForTtft),
      progress := Observed(s.progress, q))
  }

  function RelayData(link: Link, cfg: Config, s: State, p: Payload): Run {
    var t := TypeOf(s.name, p);
    var stop := EarlyStop(link, s, t, p);
    if stop.Some? then
      var b := s.(bill := s.bill.(usage := ReadUsage(s.bill.usage, p)));
      Ended(if stop.value.RuleAnswered? then b.(client := Answer(link, s.client, cfg.answer)) else b, stop.value)
    else
      var q := Sanitize(t, p, Visible(link, s));
      Running(Emit(link, Examine(cfg, s, t, p, q), q.wire, OpensOutput(cfg, t, p)))
  }

  function Process(link: Link, cfg: Config, s: State, line: Line): Run {
    if line.Data? then RelayData(link, cfg, s, line.payload) else Running(RelayControl(link, cfg, s, line))
  }

  // ---- how a run ends ------------------------------------------------------------------------

  function OnScanError(link: Link, cfg: Config, s: State, error: ScanError): Run {
    if !s.verdict.terminal.NoType? && !s.verdict.failed then Ended(s, Finished)
    else if s.verdict.failed && !s.verdict.cyber then Ended(s, UpstreamFailed)
    else
      match error
      case ContextEnded => Ended(s, Interrupted)
      case TooLong => Ended(s, LineTooLong)
      case OtherError =>
        if !Visible(link, s) then Ended(s, Failover)
        else if !Connected(s) then Ended(s, Interrupted)
        else Ended(SendFailure(link, cfg, s), ReadError)
  }

  function Finalize(link: Link, cfg: Config, s: State, contextAlive: bool): Run {
    if s.verdict.failed && !s.verdict.cyber then Ended(s, UpstreamFailed)
    else if Connected(s) && s.verdict.terminal.NoType? && contextAlive then
      if !Visible(link, s) then Ended(s, Failover)
      else Ended(SendFailure(link, cfg, s), MissingTerminal)
    else Ended(s, Finished)
  }

  function WithBootstrap(link: Link, b: State): State {
    b.(holders := b.holders.(bootstrapPending := Connected(b) && !Visible(link, b)))
  }

  function Advance(link: Link, cfg: Config, s: State, step: Step): Run {
    match step
    case Upstream(line) =>
      (match Process(link, cfg, s, line)
       case Ended(e, exit) => Ended(e, exit)
       case Running(p) =>
         var b := if s.holders.bootstrapPending then WithBootstrap(link, BootstrapComment(link, cfg, p)) else p;
         Running(DrainTimeout(link, cfg, b)))
    case BootstrapTimer =>
      if !cfg.bootstrap then Running(s) else Running(WithBootstrap(link, BootstrapComment(link, cfg, s)))
    case PlaceholderTimer => Running(TimeoutPlaceholder(link, cfg, s))
    case CoordinatorFrame =>
      if s.client.active && link.frame(s.client.frames).FrameSent?
      then Running(s.(client := PutFrame(link, s.client, cfg.tokenFrame, true)))
      else Running(s)
    case StallTimer(claimed) =>
      if !cfg.stallGuard then Running(s)
      else if Connected(s) && !s.client.committed then
        if claimed then Ended(s, Failover) else Running(s)
      else if Connected(s) && s.progress.reasoningSeen && !s.progress.visibleSeen && !link.sawTerminal(s.client.writes)
      then Ended(SendFailure(link, cfg, s), StallTimeout)
      else Running(s)
    case ScanFailed(error) => OnScanError(link, cfg, s, error)
    case EndOfStream(contextAlive) => Finalize(link, cfg, s, contextAlive)
  }

  function RunSteps(link: Link, cfg: Config, s: State, steps: seq<Step>): Run
    decreases steps
  {
    if steps == [] then Running(s)
    else
      match Advance(link, cfg, s, steps[0])
      case Ended(e, exit) => Ended(e, exit)
      case Running(next) => RunSteps(link, cfg, next, steps[1..])
  }
}
