/** How a run of the passthrough relay ends, read off its lines and the step that ends it. */
module PassthroughRelayExits {
  import opened StreamEvents
  import opened Downstream
  import opened Relays
  import opened PassthroughRelay
  import opened PassthroughRelayProofs

  /** What the relay notes about lines besides its verdict; replaced payloads show no progress. */
  ghost predicate Notes(s: State, r: State, lines: seq<Line>) {
    && r.verdict.cyber == (s.verdict.cyber || AnyCyber(s.name, lines))
    && r.progress.reasoningSeen == (s.progress.reasoningSeen || AnyMarked(Reasoning, false, s.name, lines))
    && r.progress.visibleSeen == (s.progress.visibleSeen || AnyMarked(VisibleOutput, false, s.name, lines))
    && r.progress.sampled == (s.progress.sampled || AnyMarked(RealOutput, false, s.name, lines))
  }

  /** A policy match is a failure with a terminal type. */
  predicate CyberIsTerminal(v: Verdict) {
    v.cyber ==> v.failed && !v.terminal.NoType?
  }

  lemma LineNotes(link: Link, cfg: Config, s: State, line: Line)
    requires CyberIsTerminal(s.verdict)
    ensures var r := Process(link, cfg, s, line);
            r.Running? ==>
              && CyberIsTerminal(r.state.verdict)
              && r.state.verdict.cyber == (s.verdict.cyber || IsCyber(s.name, line))
              && r.state.progress.reasoningSeen
                 == (s.progress.reasoningSeen || IsMarked(Reasoning, false, s.name, line))
              && r.state.progress.visibleSeen
                 == (s.progress.visibleSeen || IsMarked(VisibleOutput, false, s.name, line))
              && r.state.progress.sampled == (s.progress.sampled || IsMarked(RealOutput, false, s.name, line))
  {
    hide RelayControl, Answer, Visible, Advances, Tally, ReadUsage, Emit, Noted;
  }

  lemma StepNotes(link: Link, cfg: Config, s: State, step: Step)
    requires CyberIsTerminal(s.verdict)
    ensures var r := Advance(link, cfg, s, step);
            r.Running? ==> CyberIsTerminal(r.state.verdict) && Notes(s, r.state, LinesOf([step]))
  {
    hide PutFrame, Advances, Process, SendFailure, TimeoutPlaceholder, DrainTimeout, BootstrapComment, Visible, IsCyber,
         IsMarked;
    assert [step][1..] == [] && LinesOf([]) == [];
    if step.Upstream? {
      LineNotes(link, cfg, s, step.line);
      MarksOfOne(s.name, step.line);
      assert LinesOf([step]) == [step.line];
    }
  }

  lemma {:induction false} RunNotes(link: Link, cfg: Config, s: State, steps: seq<Step>)
    requires CyberIsTerminal(s.verdict) && RunSteps(link, cfg, s, steps).Running?
    ensures var r := RunSteps(link, cfg, s, steps).state; CyberIsTerminal(r.verdict) && Notes(s, r, LinesOf(steps))
    decreases steps
  {
    hide Advance, AnyCyber, AnyMarked, NameAfter;
    if steps == [] {
      NoMarks(s.name);
    } else {
      StepNotes(link, cfg, s, steps[0]);
      StepDecides(link, cfg, s, steps[0]);
      RunNotes(link, cfg, Advance(link, cfg, s, steps[0]).state, steps[1..]);
      assert [steps[0]][1..] == [] && LinesOf([]) == [];
      MarksSplit(s.name, LinesOf([steps[0]]), LinesOf(steps[1..]));
      assert LinesOf(steps) == LinesOf([steps[0]]) + LinesOf(steps[1..]);
    }
  }

  // ---- the exit ------------------------------------------------------------------------------------------

  /** The end of the stream: an error for a failed response; one for a missing terminal event only when
      somebody is there to hear it; and success otherwise. */
  predicate EndsStream(k: Reading, visible: bool, heard: bool, exit: Exit) {
    var missing := !k.failed && !k.terminal && heard;
    && (exit.UpstreamFailed? <==> Failing(k))
    && (exit.Failover? <==> missing && !visible)
    && (exit.MissingTerminal? <==> missing && visible)
    && (exit.Finished? <==> !Failing(k) && !missing)
  }

  /** The run ends at `last` with `exit`; `s` is the relay before it, `lines` are the lines before it. */
  ghost predicate EndsAs(link: Link, cfg: Config, s: State, lines: seq<Line>, last: Step, exit: Exit) {
    match last
    case Upstream(line) => EndsLine(NameAfter(NoType, lines), Visible(link, s), line, exit)
    case EndOfStream(alive) => EndsStream(Read(lines), Visible(link, s), Connected(s) && alive, exit)
    case ScanFailed(error) => EndsBroken(Read(lines), Visible(link, s), Connected(s), error, exit)
    case StallTimer(claimed) =>
      (exit.Failover? <==> !s.client.committed) && (exit.StallTimeout? <==> s.client.committed)
    case _ => false
  }

  /** Which steps end a run: the end of the stream and a read error always, a failed event while nothing is
      visible, and a stall that is claimed or has shown reasoning only. */
  ghost predicate Ends(link: Link, cfg: Config, s: State, lines: seq<Line>, last: Step) {
    match last
    case Upstream(line) =>
      || EndsLine(NameAfter(NoType, lines), Visible(link, s), line, RuleAnswered)
      || EndsLine(NameAfter(NoType, lines), Visible(link, s), line, Failover)
    case EndOfStream(_) => true
    case ScanFailed(_) => true
    case StallTimer(claimed) =>
      && cfg.stallGuard && Connected(s)
      && (if s.client.committed then ReasoningOnly(false, lines) && !link.sawTerminal(s.client.writes) else claimed)
    case _ => false
  }

  lemma StepExit(link: Link, cfg: Config, s: State, lines: seq<Line>, last: Step)
    requires s.name == NameAfter(NoType, lines) && CyberIsTerminal(s.verdict)
    requires Read(lines).failed == s.verdict.failed && Read(lines).cyber == s.verdict.cyber
    requires !s.verdict.failed ==> Read(lines).terminal == !s.verdict.terminal.NoType?
    requires s.progress.reasoningSeen == AnyMarked(Reasoning, false, NoType, lines)
    requires s.progress.visibleSeen == AnyMarked(VisibleOutput, false, NoType, lines)
    ensures var r := Advance(link, cfg, s, last);
            && (r.Ended? <==> Ends(link, cfg, s, lines, last))
            && (r.Ended? ==> EndsAs(link, cfg, s, lines, last, r.exit))
  {
    hide PutFrame, Advances, SendFailure, TimeoutPlaceholder, DrainTimeout, BootstrapComment, Visible, Read, Emit,
         RelayControl, Answer, Sanitize, Judge, AnyMarked;
  }

  /** Which step ends a run of a fresh relay, and with which exit, read off the lines before it. */
  lemma ExitExactly(
      link: Link, cfg: Config, client: Client, preflushed: bool, placeholderSent: bool, steps: seq<Step>, last: Step)
    requires RunSteps(link, cfg, Start(client, cfg, preflushed, placeholderSent), steps).Running?
    ensures var s := Start(client, cfg, preflushed, placeholderSent);
            var mid, r := RunSteps(link, cfg, s, steps).state, RunSteps(link, cfg, s, steps + [last]);
            && (r.Ended? <==> Ends(link, cfg, mid, LinesOf(steps), last))
            && (r.Ended? ==> EndsAs(link, cfg, mid, LinesOf(steps), last, r.exit))
  {
    hide RunSteps, Advance, EndsAs, EndsLine, Visible, AnyFails, AnyCyber, AnyMarked, TerminalAfter, NameAfter;
    var s := Start(client, cfg, preflushed, placeholderSent);
    RunDecides(link, cfg, s, steps);
    RunJudges(link, cfg, s, steps);
    RunNotes(link, cfg, s, steps);
    RunThenEnd(link, cfg, s, steps, last);
    StepExit(link, cfg, RunSteps(link, cfg, s, steps).state, LinesOf(steps), last);
  }

  // ---- what the gateway says -------------------------------------------------------------------------------

  lemma {:induction false} PutLinesArrive(link: Link, c: Client, lines: seq<string>)
    ensures var r := PutLines(link, c, lines);
            !r.disconnected ==> Received(r.sent) == Received(c.sent) + PendingText(lines)
    decreases lines
  {
    hide Put, Received, LineText, Faithful;
    if lines != [] {
      var next := Put(link, c, LineText(lines[0]));
      PutArrives(link, c, LineText(lines[0]));
      PutLinesArrive(link, next, lines[1..]);
      Regroup(Received(c.sent), LineText(lines[0]), PendingText(lines[1..]));
    }
  }

  lemma FailureArrives(link: Link, cfg: Config, s: State)
    ensures var r := SendFailure(link, cfg, s);
            && (Connected(r) && !link.sawTerminal(r.client.writes) ==>
                  Received(r.client.sent)
                  == Received(s.client.sent) + PendingText(s.pending) + Tag(FromGateway, cfg.errorFrame))
            && (Connected(r) && link.sawTerminal(r.client.writes) ==>
                  Received(r.client.sent)
                  == if link.sawTerminal(s.client.writes) then Received(s.client.sent)
                     else Received(s.client.sent) + PendingText(s.pending))
  {
    hide PutLines, Advances, Received, Append;
    PutLinesArrive(link, s.client, s.pending);
    AnswerArrives(link, WritePending(link, s).client, cfg.errorFrame);
  }

  lemma StepSpeaks(link: Link, cfg: Config, s: State, last: Step)
    ensures var r := Advance(link, cfg, s, last);
            r.Ended? && Connected(r.state) ==>
              && (GatewayEnds(link, r.state, r.exit) ==>
                    Received(r.state.client.sent)
                    == Received(s.client.sent) + PendingText(s.pending) + Tag(FromGateway, cfg.errorFrame))
              && (MayFail(r.exit) && link.sawTerminal(r.state.client.writes) ==>
                    Received(r.state.client.sent)
                    == if link.sawTerminal(s.client.writes) then Received(s.client.sent)
                       else Received(s.client.sent) + PendingText(s.pending))
              && (r.exit.RuleAnswered? ==>
                    Received(r.state.client.sent) == Received(s.client.sent) + Tag(FromGateway, cfg.answer))
              && (Silent(r.exit) ==> r.state.client == s.client)
  {
    hide PutFrame, Advances, SendFailure, TimeoutPlaceholder, DrainTimeout, BootstrapComment, Visible, Emit,
         RelayControl, Answer, Sanitize, Judge, Received, Tally, ReadUsage, PendingText;
    FailureArrives(link, cfg, s);
    AnswerArrives(link, s.client, cfg.answer);
  }

  /** The exits at which the relay may write a terminal event of its own. */
  predicate MayFail(exit: Exit) {
    exit.MissingTerminal? || exit.ReadError? || exit.StallTimeout?
  }

  /** The exits at which the relay writes nothing. */
  predicate Silent(exit: Exit) {
    exit.Finished? || exit.Failover? || exit.UpstreamFailed? || exit.Interrupted? || exit.LineTooLong?
  }

  /** When the gateway ends the stream itself, the client has received the lines that were held back and then
      the gateway's error event, but never a second terminal event; a rule's answer follows what was received;
      any other end adds nothing. */
  lemma LastWord(
      link: Link, cfg: Config, client: Client, preflushed: bool, placeholderSent: bool, steps: seq<Step>, last: Step)
    requires RunSteps(link, cfg, Start(client, cfg, preflushed, placeholderSent), steps).Running?
    ensures var s := Start(client, cfg, preflushed, placeholderSent);
            var mid, r := RunSteps(link, cfg, s, steps).state, RunSteps(link, cfg, s, steps + [last]);
            r.Ended? && Connected(r.state) ==>
              && (GatewayEnds(link, r.state, r.exit) ==>
                    Received(r.state.client.sent)
                    == Received(mid.client.sent) + PendingText(mid.pending) + Tag(FromGateway, cfg.errorFrame))
              && (MayFail(r.exit) && link.sawTerminal(r.state.client.writes) ==>
                    Received(r.state.client.sent)
                    == if link.sawTerminal(mid.client.writes) then Received(mid.client.sent)
                       else Received(mid.client.sent) + PendingText(mid.pending))
              && (r.exit.RuleAnswered? ==>
                    Received(r.state.client.sent) == Received(mid.client.sent) + Tag(FromGateway, cfg.answer))
              && (Silent(r.exit) ==> r.state.client == mid.client)
  {
    hide RunSteps, Advance, Received, PendingText;
    var s := Start(client, cfg, preflushed, placeholderSent);
    RunThenEnd(link, cfg, s, steps, last);
    StepSpeaks(link, cfg, RunSteps(link, cfg, s, steps).state, last);
  }

  // ---- failure after the preamble ----------------------------------------------------------------------------

  ghost predicate Hidden(link: Link, cfg: Config, s: State) {
    !s.outputStarted && Unseen(link, s.client) && s.client.active == cfg.gatewayOnly
  }

  /** Frames of a coordinated relay count for nothing, and another has none. */
  lemma FramesHide(link: Link, cfg: Config, s: State)
    requires LinesDecide(cfg) && Hidden(link, cfg, s)
    ensures Hidden(link, cfg, TimeoutPlaceholder(link, cfg, s)) && Hidden(link, cfg, DrainTimeout(link, cfg, s))
    ensures cfg.bootstrap ==> Hidden(link, cfg, BootstrapComment(link, cfg, s))
    ensures Hidden(link, cfg, EndEvent(link, cfg, s))
  {
    hide Faithful, OnlyWrites;
  }

  lemma LineHides(link: Link, cfg: Config, s: State, line: Line)
    requires LinesDecide(cfg) && Hidden(link, cfg, s) && IsPreliminary(s.name, line)
    requires cfg.flushPreamble ==> cfg.gatewayOnly
    ensures var r := Process(link, cfg, s, line); r.Running? && Hidden(link, cfg, r.state)
  {
    hide EndEvent, Answer, Judge, Tally, OpensOutput, Visible, Faithful, Put, PutLines, OnlyWrites, IsPreliminary;
    if line.Data? {
      PreambleIsClosed(cfg, s.name, line.payload);
    } else if ControlText(line).Some? {
      FramesHide(link, cfg, Emit(link, s.(name := NextName(s.name, line)), ControlText(line).value, false));
    }
  }

  lemma StepHides(link: Link, cfg: Config, s: State, step: Step)
    requires LinesDecide(cfg) && Settled(cfg, s) && Hidden(link, cfg, s) && Passive(cfg, step)
    requires step.Upstream? ==> IsPreliminary(s.name, step.line)
    requires cfg.flushPreamble ==> cfg.gatewayOnly
    ensures var r := Advance(link, cfg, s, step); r.Running? && Hidden(link, cfg, r.state)
  {
    hide Process, SendFailure, PutFrame, BootstrapComment, TimeoutPlaceholder, DrainTimeout, Visible, IsPreliminary;
    FramesHide(link, cfg, s);
    if step.Upstream? {
      LineHides(link, cfg, s, step.line);
      var p := Process(link, cfg, s, step.line).state;
      FramesHide(link, cfg, p);
      var b := if s.holders.bootstrapPending then WithBootstrap(link, BootstrapComment(link, cfg, p)) else p;
      FramesHide(link, cfg, b);
    }
  }

  lemma {:induction false} RunHides(link: Link, cfg: Config, s: State, steps: seq<Step>)
    requires LinesDecide(cfg) && Settled(cfg, s) && Hidden(link, cfg, s)
    requires (forall i | 0 <= i < |steps| :: Passive(cfg, steps[i])) && AllPreliminary(s.name, LinesOf(steps))
    requires cfg.flushPreamble ==> cfg.gatewayOnly
    ensures var r := RunSteps(link, cfg, s, steps); r.Running? && Hidden(link, cfg, r.state)
    decreases steps
  {
    hide Advance, IsPreliminary, Hidden;
    if steps != [] {
      if steps[0].Upstream? {
        assert LinesOf(steps)[0] == steps[0].line && LinesOf(steps)[1..] == LinesOf(steps[1..]);
      } else {
        assert LinesOf(steps) == LinesOf(steps[1..]);
      }
      assert [steps[0]][1..] == [] && LinesOf([]) == [];
      StepHides(link, cfg, s, steps[0]);
      StepConserves(link, cfg, s, steps[0]);
      StepDecides(link, cfg, s, steps[0]);
      RunHides(link, cfg, Advance(link, cfg, s, steps[0]).state, steps[1..]);
    }
  }

  /** A response that fails after nothing but its preamble is tried on another account: for every client,
      whatever timers fire in between. */
  lemma PreambleFailsOver(link: Link, cfg: Config, client: Client, steps: seq<Step>, line: Line)
    requires LinesDecide(cfg) && (cfg.flushPreamble ==> cfg.gatewayOnly)
    requires Unseen(link, client) && client.active == cfg.gatewayOnly
    requires (forall i | 0 <= i < |steps| :: Passive(cfg, steps[i])) && AllPreliminary(NoType, LinesOf(steps))
    requires IsRetryable(NameAfter(NoType, LinesOf(steps)), line)
    ensures var r := RunSteps(link, cfg, Start(client, cfg, false, false), steps + [Upstream(line)]);
            r.Ended? && r.exit.Failover?
  {
    hide RunSteps, Advance, EndsAs, AnyFails, AnyCyber, AnyMarked, TerminalAfter, NameAfter, Faithful;
    var s := Start(client, cfg, false, false);
    RunHides(link, cfg, s, steps);
    ExitExactly(link, cfg, client, false, false, steps, Upstream(line));
    var mid := RunSteps(link, cfg, s, steps).state;
    assert !Visible(link, mid);
    EndsAsLine(link, cfg, mid, LinesOf(steps), line, RunSteps(link, cfg, s, steps + [Upstream(line)]).exit);
  }

  lemma EndsAsLine(link: Link, cfg: Config, s: State, lines: seq<Line>, line: Line, exit: Exit)
    requires EndsAs(link, cfg, s, lines, Upstream(line), exit)
    ensures EndsLine(NameAfter(NoType, lines), Visible(link, s), line, exit)
  {
  }
}
