/** The native streaming relay (handleStreamingResponse) as a state machine over upstream
    lines, timers and write outcomes. Lines go through a 4 KiB buffered writer; gateway
    frames go straight to the response. */
module NativeRelay {
  import opened StreamEvents
  import opened Downstream
  import opened Relays

  /** The gateway-owned frames that were sent or are still wanted. */
  datatype Placeholders = Placeholders(
    atBoundary: bool, safeSent: bool, safePending: bool,
    timeoutSent: bool, timeoutPending: bool, ttftSeen: bool, bootstrapPending: bool)

  datatype State = State(
    pipe: Pipe,
    outputStarted: bool,
    errorSent: bool,
    verdict: Verdict,
    name: EventType,
    holders: Placeholders,
    progress: Progress,
    bill: Billing,
    stop: Option<Exit>)         // set while a line is processed, ends the run after it

  datatype Step =
    | Upstream(line: Line, drained: bool)
    | BootstrapTimer
    | PlaceholderTimer
    | CoordinatorFrame
    | StallTimer(claimed: bool)
    | IntervalTimer(silent: bool)
    | KeepaliveTimer(idle: bool)
    | ScanFailed(error: ScanError)
    | EndOfStream

  datatype Run = Running(state: State) | Ended(state: State, exit: Exit)

  function Start(client: Client, cfg: Config, preflushed: bool, placeholderSent: bool): State {
    State(
      Pipe(client, []), (preflushed || placeholderSent) && !cfg.gatewayOnly, false,
      Verdict(NoType, NoType, false, false), NoType,
      Placeholders(true, placeholderSent, false, placeholderSent, false, false, false),
      Progress(false, false, false), NOTHING_BILLED, None)
  }

  predicate Connected(s: State) {
    !s.pipe.client.disconnected
  }

  predicate Visible(link: Link, s: State) {
    OutputVisible(link, s.pipe.client, s.outputStarted)
  }

  /** r is s after nothing but writes: same accounting, same conclusions, except that an error
      event of the gateway may have become the terminal event. */
  ghost predicate OnlyWrites(link: Link, s: State, r: State) {
    && r.bill == s.bill && r.name == s.name && r.stop == s.stop && r.progress == s.progress
    && (r.verdict == s.verdict || r.verdict == s.verdict.(terminal := Failed))
    && Advances(link, s.pipe.client, r.pipe.client)
  }

  /** Writes a gateway-owned terminal event, once. */
  function SendError(link: Link, cfg: Config, s: State): (r: State)
    ensures OnlyWrites(link, s, r)
    ensures Connected(r) ==> r.pipe.buffer == [] || s.errorSent
    ensures !s.errorSent ==> r.verdict.terminal == if Connected(r) then Failed else s.verdict.terminal
  {
    hide Write, Flush;
    if s.errorSent || !Connected(s) then s
    else
      var flushed := Flush(link, s.pipe);
      var done := Flush(link, Write(link, flushed, Tag(FromGateway, cfg.errorFrame)));
      if done.client.disconnected then s.(pipe := done, errorSent := true)
      else s.(pipe := done, errorSent := true, outputStarted := true, verdict := s.verdict.(terminal := Failed))
  }

  // ---- gateway frames ----------------------------------------------------------------------

  /** A gateway frame counts as output only when the coordinator is not keeping score. */
  function AfterFrame(cfg: Config, s: State, c: Client, h: Placeholders): State {
    if c.disconnected then s.(pipe := s.pipe.(client := c), holders := h)
    else s.(pipe := s.pipe.(client := c), holders := h, outputStarted := s.outputStarted || !cfg.gatewayOnly)
  }

  function SafePlaceholder(link: Link, cfg: Config, s: State): (r: State)
    ensures OnlyWrites(link, s, r) && r.verdict == s.verdict && r.errorSent == s.errorSent
  {
    if !cfg.safePlaceholder || s.holders.safeSent || !Connected(s) || !s.holders.atBoundary then s
    else
      var c := PutFrame(link, s.pipe.client, cfg.tokenFrame, true);
      AfterFrame(cfg, s, c, if c.disconnected then s.holders else s.holders.(safeSent := true))
  }

  /** Writes the timeout placeholder, or leaves it pending while the stream is inside an event. */
  function TimeoutPlaceholder(link: Link, cfg: Config, s: State): (r: State)
    ensures OnlyWrites(link, s, r) && r.verdict == s.verdict && r.errorSent == s.errorSent
  {
    var h := s.holders;
    var over := !Connected(s) || h.ttftSeen || h.timeoutSent || s.stop.Some?;
    if over || !cfg.timeoutPlaceholder || !h.atBoundary then
      s.(holders := h.(timeoutPending := !over))
    else
      var c := PutFrame(link, s.pipe.client, cfg.tokenFrame, true);
      AfterFrame(cfg, s, c,
        if c.disconnected then h.(timeoutPending := false)
        else h.(timeoutPending := false, timeoutSent := true, safeSent := true))
  }

  function DrainTimeout(link: Link, cfg: Config, s: State): (r: State)
    ensures OnlyWrites(link, s, r) && r.verdict == s.verdict && r.errorSent == s.errorSent
  {
    if s.holders.timeoutPending then TimeoutPlaceholder(link, cfg, s) else s
  }

  function BootstrapComment(link: Link, cfg: Config, s: State): (r: State)
    ensures OnlyWrites(link, s, r) && r.verdict == s.verdict && r.errorSent == s.errorSent
  {
    if !Connected(s) || Visible(link, s) || s.stop.Some? || !s.holders.atBoundary then s
    else AfterFrame(cfg, s, PutFrame(link, s.pipe.client, ":\n\n", false), s.holders)
  }

  // ---- one line ------------------------------------------------------------------------------

  /** A whole line through the buffered writer. */
  function WriteLine(link: Link, p: Pipe, text: string): (r: Pipe)
    ensures Advances(link, p.client, r.client)
    ensures !link.wrapped ==> r.client.active == p.client.active
    ensures p.client.disconnected ==> r == p
  {
    Write(link, Write(link, p, Tag(FromUpstream, text)), Tag(FromUpstream, "\n"))
  }

  /** What a line is relayed as. */
  function Rendered(link: Link, s: State, line: Line): Text {
    if line.Data? then LineText(Sanitize(TypeOf(s.name, line.payload), line.payload, Visible(link, s)).wire)
    else
      match ControlText(line)
      case None => []
      case Some(text) => LineText(text)
  }

  function Judge(v: Verdict, t: EventType, p: Payload): Verdict {
    Verdict(
      if IsTerminal(t) then t else v.terminal,
      if IsNeutral(t) then t else v.neutral,
      v.failed || t.Failed? || NeedsSanitizing(t, p),
      v.cyber || (t.Failed? && p.cyber))
  }

  /** The early end a failed event may bring while nothing is visible to the client. */
  function EarlyStop(link: Link, s: State, t: EventType, p: Payload): Option<Exit> {
    if t.Failed? && !p.cyber && !Visible(link, s) then
      if p.ruleMatches then Some(RuleAnswered) else if p.retryable then Some(Failover) else None
    else None
  }

  /** What a data line changes before its fate is decided. */
  function Examine(s: State, t: EventType, p: Payload): State {
    s.(
      verdict := Judge(s.verdict, t, p),
      holders := s.holders.(atBoundary := false),
      progress := s.progress.(reasoningSeen := s.progress.reasoningSeen || p.reasoning,
                              visibleSeen := s.progress.visibleSeen || p.visible),
      bill := if t.Failed? then s.bill.(usage := ReadUsage(s.bill.usage, p)) else s.bill)
  }

  /** What the relayed payload means for the placeholders. */
  function Noted(cfg: Config, h: Placeholders, q: Payload, created: bool): Placeholders {
    h.(safePending := h.safePending || created,
       ttftSeen := h.ttftSeen || (cfg.timeoutPlaceholder && !h.timeoutSent && q.countsForTtft))
  }

  function SendLine(link: Link, p: Pipe, text: string, flush: bool): (r: Pipe)
    ensures Advances(link, p.client, r.client)
    ensures !link.wrapped ==> r.client.active == p.client.active
    ensures p.client.disconnected ==> r == p
  {
    hide WriteLine, Flush;
    var w := WriteLine(link, p, text);
    if flush then Flush(link, w) else w
  }

  /** Accounts for a payload and forwards it; q is the payload or its safe replacement. */
  function ForwardData(link: Link, cfg: Config, s: State, q: Payload, created: bool, opens: bool): (r: State)
    ensures Advances(link, s.pipe.client, r.pipe.client)
    ensures r.verdict == s.verdict && r.name == s.name && r.stop == s.stop && r.errorSent == s.errorSent
    ensures !link.wrapped ==> r.pipe.client.active == s.pipe.client.active
  {
    hide SendLine, Tally, Noted;
    var flush := s.outputStarted || opens;
    var f := SendLine(link, s.pipe, q.wire, flush);
    s.(
      pipe := f,
      outputStarted := s.outputStarted || (flush && !f.client.disconnected),
      bill := Tally(s.bill, q),
      holders := Noted(cfg, s.holders, q, created),
      progress := s.progress.(sampled := s.progress.sampled || q.realOutput))
  }

  function RelayData(link: Link, cfg: Config, s: State, p: Payload): State {
    var t := TypeOf(s.name, p);
    var seen := Examine(s, t, p);
    var stop := EarlyStop(link, s, t, p);
    if stop == Some(RuleAnswered) then
      seen.(pipe := s.pipe.(client := Answer(link, s.pipe.client, cfg.answer)), stop := stop)
    else if stop.Some? then seen.(stop := stop)
    else
      ForwardData(link, cfg, seen, Sanitize(t, p, Visible(link, s)),
                  t.Created? && !NeedsSanitizing(t, p), OpensOutput(cfg, t, p))
  }

  /** A control line that is kept: written, flushed at the end of an event once output has
      started, and followed by the safe placeholder when response.created has just ended. */
  function WriteControl(link: Link, cfg: Config, s: State, text: string, drained: bool): (r: State)
    ensures OnlyWrites(link, s, r) && r.verdict == s.verdict && r.errorSent == s.errorSent
  {
    hide Put, Write, Flush, WriteLine;
    if !Connected(s) then s
    else
      var w := WriteLine(link, s.pipe, text);
      var f := s.(pipe := if s.outputStarted && (text == "" || drained) then Flush(link, w) else w);
      if text == "" && s.holders.safePending
      then SafePlaceholder(link, cfg, f.(holders := s.holders.(safePending := false, atBoundary := true)))
      else f
  }

  function RelayControl(link: Link, cfg: Config, s: State, line: Line, drained: bool): (r: State)
    requires !line.Data?
    ensures OnlyWrites(link, s.(name := NextName(s.name, line)), r) && r.verdict == s.verdict
            && r.errorSent == s.errorSent
  {
    var named := s.(name := NextName(s.name, line));
    var text := ControlText(line);
    var w := if text.Some? then WriteControl(link, cfg, named, text.value, drained) else named;
    // A dropped line leaves an empty text behind, which the relay takes for an event boundary.
    var ended := line.Blank? || line.Dropped?;
    var b := w.(holders := w.holders.(atBoundary := ended));
    if ended then DrainTimeout(link, cfg, b) else b
  }

  function Process(link: Link, cfg: Config, s: State, line: Line, drained: bool): State {
    if s.stop.Some? then s
    else if line.Data? then RelayData(link, cfg, s, line.payload)
    else RelayControl(link, cfg, s, line, drained)
  }

  // ---- how a run ends ------------------------------------------------------------------------

  function Finalize(link: Link, cfg: Config, s: State): Run {
    if s.verdict.terminal.NoType? then
      if !Visible(link, s) then Ended(s, Failover)
      else Ended(SendError(link, cfg, s), MissingTerminal)
    else if s.verdict.failed && !s.verdict.cyber then Ended(s, UpstreamFailed)
    else
      var f := Flush(link, s.pipe);
      var started := s.outputStarted || (!f.client.disconnected && s.pipe.buffer != []);
      Ended(s.(pipe := f, outputStarted := started), Finished)
  }

  function OnScanError(link: Link, cfg: Config, s: State, error: ScanError): Run {
    if !s.verdict.terminal.NoType? && !s.verdict.failed then Ended(s, Finished)
    else if s.verdict.failed && !s.verdict.cyber then Ended(s, UpstreamFailed)
    else
      match error
      case ContextEnded => Ended(s, Interrupted)
      case TooLong => Ended(SendError(link, cfg, s), LineTooLong)
      case OtherError =>
        if !Visible(link, s) then Ended(s, Failover)
        else if !Connected(s) then Ended(s, Interrupted)
        else Ended(SendError(link, cfg, s), ReadError)
  }

  function WithBootstrap(link: Link, b: State, wanted: bool): State {
    b.(holders := b.holders.(bootstrapPending := wanted && Connected(b) && !Visible(link, b)))
  }

  /** One turn of the select loop. */
  function Advance(link: Link, cfg: Config, s: State, step: Step): Run {
    match step
    case Upstream(line, drained) =>
      var p := Process(link, cfg, s, line, drained);
      if p.stop.Some? then Ended(p, p.stop.value)
      else if s.holders.bootstrapPending then Running(WithBootstrap(link, BootstrapComment(link, cfg, p), true))
      else Running(p)
    case BootstrapTimer =>
      if !cfg.bootstrap then Running(s)
      else Running(WithBootstrap(link, BootstrapComment(link, cfg, s), true))
    case PlaceholderTimer => Running(TimeoutPlaceholder(link, cfg, s))
    case CoordinatorFrame =>
      if s.pipe.client.active && link.frame(s.pipe.client.frames).FrameSent?
      then Running(s.(pipe := s.pipe.(client := PutFrame(link, s.pipe.client, cfg.tokenFrame, true))))
      else Running(s)
    case StallTimer(claimed) =>
      if !cfg.stallGuard then Running(s)
      else if Connected(s) && !s.pipe.client.committed then
        if claimed then Ended(s, Failover) else Running(s)
      else if Connected(s) && s.progress.reasoningSeen && !s.progress.visibleSeen
          && !link.sawTerminal(s.pipe.client.writes)
      then Ended(SendError(link, cfg, s), StallTimeout)
      else Running(s)
    case IntervalTimer(silent) =>
      if !silent then Running(s)
      else if !Connected(s) then Ended(s, Interrupted)
      else Ended(SendError(link, cfg, s), IntervalTimeout)
    case KeepaliveTimer(idle) =>
      if !Connected(s) || !idle then Running(s)
      else Running(s.(pipe := Flush(link, Write(link, s.pipe, Tag(FromGateway, ":\n\n")))))
    case ScanFailed(error) => OnScanError(link, cfg, s, error)
    case EndOfStream => Finalize(link, cfg, s)
  }

  function RunSteps(link: Link, cfg: Config, s: State, steps: seq<Step>): Run
    decreases steps
  {
    if steps == [] then Running(s)
    else
      match Advance(link, cfg, s, steps[0])
      case Ended(e, exit) => Ended(e, exit)
      case Running(next) => RunSteps(link, cfg, next, steps[1..])
  }
}
