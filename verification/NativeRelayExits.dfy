/** How a run of the native relay ends, read off its lines and the step that ends it, and what the gateway
    itself tells the client then. */
module NativeRelayExits {
  import opened StreamEvents
  import opened Downstream
  import opened Relays
  import opened NativeRelay
  import opened NativeRelayProofs

  // ---- policy matches and progress ---------------------------------------------------------------------

  /** What the relay notes about lines besides its verdict. */
  ghost predicate Notes(s: State, r: State, lines: seq<Line>) {
    && r.verdict.cyber == (s.verdict.cyber || AnyCyber(s.name, lines))
    && r.progress.reasoningSeen == (s.progress.reasoningSeen || AnyMarked(Reasoning, true, s.name, lines))
    && r.progress.visibleSeen == (s.progress.visibleSeen || AnyMarked(VisibleOutput, true, s.name, lines))
    && r.progress.sampled == (s.progress.sampled || AnyMarked(RealOutput, false, s.name, lines))
  }

  lemma LineNotes(link: Link, cfg: Config, s: State, line: Line, drained: bool)
    requires s.stop.None?
    ensures var r := Process(link, cfg, s, line, drained);
            r.stop.None? ==>
              && r.verdict.cyber == (s.verdict.cyber || IsCyber(s.name, line))
              && r.progress.reasoningSeen == (s.progress.reasoningSeen || IsMarked(Reasoning, true, s.name, line))
              && r.progress.visibleSeen == (s.progress.visibleSeen || IsMarked(VisibleOutput, true, s.name, line))
              && r.progress.sampled == (s.progress.sampled || IsMarked(RealOutput, false, s.name, line))
  {
    hide RelayControl, Answer, Visible, Advances, Tally, ReadUsage, NeedsSanitizing, SendLine, Noted;
  }

  lemma StepNotes(link: Link, cfg: Config, s: State, step: Step)
    requires s.stop.None?
    ensures var r := Advance(link, cfg, s, step); r.Running? ==> Notes(s, r.state, LinesOf([step]))
  {
    hide PutFrame, Write, Flush, Advances, Process, SendError, TimeoutPlaceholder, BootstrapComment, Visible, IsCyber,
         IsMarked;
    assert [step][1..] == [] && LinesOf([]) == [];
    if step.Upstream? {
      LineNotes(link, cfg, s, step.line, step.drained);
      MarksOfOne(s.name, step.line);
      assert LinesOf([step]) == [step.line];
    }
  }

  lemma {:induction false} RunNotes(link: Link, cfg: Config, s: State, steps: seq<Step>)
    requires s.stop.None? && RunSteps(link, cfg, s, steps).Running?
    ensures Notes(s, RunSteps(link, cfg, s, steps).state, LinesOf(steps))
    decreases steps
  {
    hide Advance, AnyCyber, AnyMarked, NameAfter;
    if steps == [] {
      assert !AnyCyber(s.name, []) && forall mark, raw :: !AnyMarked(mark, raw, s.name, []) by { NoMarks(s.name); }
    } else {
      StepNotes(link, cfg, s, steps[0]);
      StepDecides(link, cfg, s, steps[0]);
      RunNotes(link, cfg, Advance(link, cfg, s, steps[0]).state, steps[1..]);
      assert [steps[0]][1..] == [] && LinesOf([]) == [];
      MarksSplit(s.name, LinesOf([steps[0]]), LinesOf(steps[1..]));
      assert LinesOf(steps) == LinesOf([steps[0]]) + LinesOf(steps[1..]);
    }
  }

  // ---- the exit ------------------------------------------------------------------------------------------

  /** The end of the stream: an error for a failed response and for a missing terminal event, which the
      client may not notice, and success otherwise. */
  predicate EndsStream(k: Reading, visible: bool, exit: Exit) {
    && (exit.UpstreamFailed? <==> k.terminal && Failing(k))
    && (exit.Finished? <==> k.terminal && !Failing(k))
    && (exit.Failover? <==> !k.terminal && !visible)
    && (exit.MissingTerminal? <==> !k.terminal && visible)
  }

  /** The run ends at `last` with `exit`; `s` is the relay before it, `lines` are the lines before it. */
  ghost predicate EndsAs(link: Link, cfg: Config, s: State, lines: seq<Line>, last: Step, exit: Exit) {
    match last
    case Upstream(line, _) => EndsLine(NameAfter(NoType, lines), Visible(link, s), line, exit)
    case EndOfStream => EndsStream(Read(lines), Visible(link, s), exit)
    case ScanFailed(error) => EndsBroken(Read(lines), Visible(link, s), Connected(s), error, exit)
    case StallTimer(claimed) =>
      (exit.Failover? <==> !s.pipe.client.committed) && (exit.StallTimeout? <==> s.pipe.client.committed)
    case IntervalTimer(silent) =>
      (exit.Interrupted? <==> !Connected(s)) && (exit.IntervalTimeout? <==> Connected(s))
    case _ => false
  }

  /** Which steps end a run: the end of the stream, a read error and a silent upstream always, a failed
      event while nothing is visible, and a stall that is claimed or has shown reasoning only. */
  ghost predicate Ends(link: Link, cfg: Config, s: State, lines: seq<Line>, last: Step) {
    match last
    case Upstream(line, _) =>
      || EndsLine(NameAfter(NoType, lines), Visible(link, s), line, RuleAnswered)
      || EndsLine(NameAfter(NoType, lines), Visible(link, s), line, Failover)
    case EndOfStream => true
    case ScanFailed(_) => true
    case IntervalTimer(silent) => silent
    case StallTimer(claimed) =>
      && cfg.stallGuard && Connected(s)
      && (if s.pipe.client.committed
          then ReasoningOnly(true, lines) && !link.sawTerminal(s.pipe.client.writes)
          else claimed)
    case _ => false
  }

  lemma StepExit(link: Link, cfg: Config, s: State, lines: seq<Line>, last: Step)
    requires s.stop.None? && s.name == NameAfter(NoType, lines)
    requires Read(lines) == Reading(!s.verdict.terminal.NoType?, s.verdict.failed, s.verdict.cyber)
    requires s.progress.reasoningSeen == AnyMarked(Reasoning, true, NoType, lines)
    requires s.progress.visibleSeen == AnyMarked(VisibleOutput, true, NoType, lines)
    ensures var r := Advance(link, cfg, s, last);
            && (r.Ended? <==> Ends(link, cfg, s, lines, last))
            && (r.Ended? ==> EndsAs(link, cfg, s, lines, last, r.exit))
  {
    hide PutFrame, Write, Flush, Advances, SendError, TimeoutPlaceholder, BootstrapComment, Visible, Read, ForwardData,
         RelayControl, Answer, Sanitize, Judge, AnyMarked;
  }

  /** Which step ends a run of a fresh relay, and with which exit, read off the lines before it. */
  lemma ExitExactly(
      link: Link, cfg: Config, client: Client, preflushed: bool, placeholderSent: bool, steps: seq<Step>, last: Step)
    requires RunSteps(link, cfg, Start(client, cfg, preflushed, placeholderSent), steps).Running?
    ensures var s := Start(client, cfg, preflushed, placeholderSent);
            var mid, r := RunSteps(link, cfg, s, steps).state, RunSteps(link, cfg, s, steps + [last]);
            && (r.Ended? <==> Ends(link, cfg, mid, LinesOf(steps), last))
            && (r.Ended? ==> EndsAs(link, cfg, mid, LinesOf(steps), last, r.exit))
  {
    hide RunSteps, Advance, EndsAs, EndsLine, Visible, AnyFails, AnyCyber, AnyMarked, TerminalAfter, NameAfter;
    var s := Start(client, cfg, preflushed, placeholderSent);
    RunDecides(link, cfg, s, steps);
    RunNotes(link, cfg, s, steps);
    RunThenEnd(link, cfg, s, steps, last);
    StepExit(link, cfg, RunSteps(link, cfg, s, steps).state, LinesOf(steps), last);
  }

  // ---- what the gateway says -------------------------------------------------------------------------------

  lemma ErrorArrives(link: Link, cfg: Config, s: State)
    requires !s.errorSent
    ensures var r := SendError(link, cfg, s);
            Connected(r) ==>
              Received(r.pipe.client.sent) == Arriving(s.pipe) + Tag(FromGateway, cfg.errorFrame)
  {
    hide Write, Flush, Advances, Received;
    var flushed := Flush(link, s.pipe);
    FlushArrives(link, s.pipe);
    WriteArrives(link, flushed, Tag(FromGateway, cfg.errorFrame));
    FlushArrives(link, Write(link, flushed, Tag(FromGateway, cfg.errorFrame)));
  }

  lemma StepSpeaks(link: Link, cfg: Config, s: State, last: Step)
    requires s.stop.None? && !s.errorSent
    ensures var r := Advance(link, cfg, s, last);
            r.Ended? && Connected(r.state) ==>
              && (GatewayEnds(r.exit) ==>
                    Received(r.state.pipe.client.sent) == Arriving(s.pipe) + Tag(FromGateway, cfg.errorFrame))
              && (r.exit.RuleAnswered? ==>
                    Received(r.state.pipe.client.sent) == Received(s.pipe.client.sent) + Tag(FromGateway, cfg.answer))
              && (r.exit.Finished? && last.EndOfStream? ==> Received(r.state.pipe.client.sent) == Arriving(s.pipe))
              && (r.exit.Failover? || r.exit.UpstreamFailed? || r.exit.Interrupted? ==>
                    r.state.pipe.client == s.pipe.client)
  {
    hide PutFrame, Write, Flush, Advances, SendError, TimeoutPlaceholder, BootstrapComment, Visible, ForwardData,
         RelayControl, Answer, Sanitize, Judge, Received, Tally, ReadUsage;
    ErrorArrives(link, cfg, s);
    FlushArrives(link, s.pipe);
    AnswerArrives(link, s.pipe.client, cfg.answer);
  }

  /** When the gateway ends the stream itself, a client that is still there has received all that was
      relayed, and then the gateway's error event; a rule's answer follows what was received; the end of a
      response flushes all that was relayed; and any other end adds nothing. */
  lemma LastWord(
      link: Link, cfg: Config, client: Client, preflushed: bool, placeholderSent: bool, steps: seq<Step>, last: Step)
    requires RunSteps(link, cfg, Start(client, cfg, preflushed, placeholderSent), steps).Running?
    ensures var s := Start(client, cfg, preflushed, placeholderSent);
            var mid, r := RunSteps(link, cfg, s, steps).state, RunSteps(link, cfg, s, steps + [last]);
            r.Ended? && Connected(r.state) ==>
              && (GatewayEnds(r.exit) ==>
                    Received(r.state.pipe.client.sent) == Arriving(mid.pipe) + Tag(FromGateway, cfg.errorFrame))
              && (r.exit.RuleAnswered? ==>
                    Received(r.state.pipe.client.sent)
                    == Received(mid.pipe.client.sent) + Tag(FromGateway, cfg.answer))
              && (r.exit.Finished? && last.EndOfStream? ==> Received(r.state.pipe.client.sent) == Arriving(mid.pipe))
              && (r.exit.Failover? || r.exit.UpstreamFailed? || r.exit.Interrupted? ==>
                    r.state.pipe.client == mid.pipe.client)
  {
    hide RunSteps, Advance, Received, Arriving;
    var s := Start(client, cfg, preflushed, placeholderSent);
    RunDecides(link, cfg, s, steps);
    RunThenEnd(link, cfg, s, steps, last);
    StepSpeaks(link, cfg, RunSteps(link, cfg, s, steps).state, last);
  }

  // ---- failure after the preamble ----------------------------------------------------------------------------

  /** What a preliminary line takes in the buffered writer. */
  function SizeOf(line: Line): nat {
    if line.Data? then |line.payload.wire| + 1
    else
      match ControlText(line)
      case None => 0
      case Some(text) => |text| + 1
  }

  function SizeOfAll(lines: seq<Line>): nat {
    if lines == [] then 0 else SizeOf(lines[0]) + SizeOfAll(lines[1..])
  }

  /** Nothing is visible and there is still room for n bytes. */
  ghost predicate Hidden(link: Link, cfg: Config, s: State, n: nat) {
    && s.stop.None? && !s.outputStarted && Unseen(link, s.pipe.client) && s.pipe.client.active == cfg.gatewayOnly
    && |s.pipe.buffer| + n <= CAPACITY && (!cfg.bootstrap ==> !s.holders.bootstrapPending)
  }

  lemma FramesHide(link: Link, cfg: Config, s: State, n: nat)
    requires LinesDecide(cfg) && Hidden(link, cfg, s, n)
    ensures Hidden(link, cfg, SafePlaceholder(link, cfg, s), n)
            && Hidden(link, cfg, TimeoutPlaceholder(link, cfg, s), n)
    ensures Hidden(link, cfg, DrainTimeout(link, cfg, s), n)
    ensures cfg.bootstrap ==> Hidden(link, cfg, BootstrapComment(link, cfg, s), n)
  {
    hide Faithful, OnlyWrites;
  }

  lemma LineFits(link: Link, p: Pipe, text: string)
    requires |p.buffer| + |text| + 1 <= CAPACITY
    ensures WriteLine(link, p, text).client == p.client
    ensures |WriteLine(link, p, text).buffer| <= |p.buffer| + |text| + 1
  {
    hide Put, Advances;
  }

  lemma DataHides(link: Link, cfg: Config, s: State, p: Payload, n: nat)
    requires LinesDecide(cfg) && Hidden(link, cfg, s, |p.wire| + 1 + n) && IsPreliminary(s.name, Data(p))
    requires cfg.flushPreamble ==> cfg.gatewayOnly
    ensures Hidden(link, cfg, RelayData(link, cfg, s, p), n)
  {
    hide WriteLine, Answer, Judge, Tally, OpensOutput, Visible, Faithful, OnlyWrites, NeedsSanitizing, Advances,
         ReadUsage;
    PreambleIsClosed(cfg, s.name, p);
    LineFits(link, s.pipe, p.wire);
  }

  lemma ControlHides(link: Link, cfg: Config, s: State, line: Line, drained: bool, n: nat)
    requires LinesDecide(cfg) && !line.Data? && Hidden(link, cfg, s, SizeOf(line) + n)
    ensures Hidden(link, cfg, RelayControl(link, cfg, s, line, drained), n)
  {
    hide WriteLine, Flush, SafePlaceholder, DrainTimeout, Faithful, OnlyWrites, Advances;
    var named := s.(name := NextName(s.name, line));
    var w := named;
    if ControlText(line).Some? {
      var text := ControlText(line).value;
      LineFits(link, s.pipe, text);
      var f := named.(pipe := WriteLine(link, s.pipe, text));
      FramesHide(link, cfg, f.(holders := s.holders.(safePending := false, atBoundary := true)), n);
      w := WriteControl(link, cfg, named, text, drained);
    }
    FramesHide(link, cfg, w.(holders := w.holders.(atBoundary := line.Blank? || line.Dropped?)), n);
  }

  /** No keepalive flushes what is buffered. */
  predicate Undisturbed(cfg: Config, step: Step) {
    Passive(cfg, step) && (step.KeepaliveTimer? ==> !step.idle)
  }

  lemma StepHides(link: Link, cfg: Config, s: State, step: Step, n: nat)
    requires LinesDecide(cfg) && Undisturbed(cfg, step) && (cfg.flushPreamble ==> cfg.gatewayOnly)
    requires Hidden(link, cfg, s, SizeOfAll(LinesOf([step])) + n)
    requires step.Upstream? ==> IsPreliminary(s.name, step.line)
    ensures var r := Advance(link, cfg, s, step); r.Running? && Hidden(link, cfg, r.state, n)
  {
    hide RelayData, RelayControl, SendError, PutFrame, Write, Flush, BootstrapComment, TimeoutPlaceholder, Visible,
         IsPreliminary, SizeOf;
    assert [step][1..] == [] && LinesOf([]) == [];
    if step.Upstream? {
      assert LinesOf([step]) == [step.line] && [step.line][1..] == [];
      assert SizeOfAll([step.line]) == SizeOf(step.line) + SizeOfAll([]);
      if step.line.Data? {
        assert SizeOf(step.line) == |step.line.payload.wire| + 1 by { DataSize(step.line); }
        DataHides(link, cfg, s, step.line.payload, n);
      } else {
        ControlHides(link, cfg, s, step.line, step.drained, n);
      }
      FramesHide(link, cfg, Process(link, cfg, s, step.line, step.drained), n);
    } else {
      FramesHide(link, cfg, s, n);
    }
  }

  lemma DataSize(line: Line)
    requires line.Data?
    ensures SizeOf(line) == |line.payload.wire| + 1
  {
  }

  lemma {:induction false} RunHides(link: Link, cfg: Config, s: State, steps: seq<Step>)
    requires LinesDecide(cfg) && (cfg.flushPreamble ==> cfg.gatewayOnly)
    requires Hidden(link, cfg, s, SizeOfAll(LinesOf(steps)))
    requires (forall i | 0 <= i < |steps| :: Undisturbed(cfg, steps[i])) && AllPreliminary(s.name, LinesOf(steps))
    ensures var r := RunSteps(link, cfg, s, steps); r.Running? && Hidden(link, cfg, r.state, 0)
    decreases steps
  {
    hide Advance, IsPreliminary, Hidden, SizeOf;
    if steps != [] {
      assert [steps[0]][1..] == [] && LinesOf([]) == [];
      if steps[0].Upstream? {
        assert LinesOf(steps)[0] == steps[0].line && LinesOf(steps)[1..] == LinesOf(steps[1..]);
        assert LinesOf([steps[0]]) == [steps[0].line] && [steps[0].line][1..] == [];
      } else {
        assert LinesOf(steps) == LinesOf(steps[1..]) && LinesOf([steps[0]]) == [];
      }
      assert SizeOfAll(LinesOf(steps)) == SizeOfAll(LinesOf([steps[0]])) + SizeOfAll(LinesOf(steps[1..]));
      HiddenRuns(link, cfg, s, SizeOfAll(LinesOf(steps)));
      StepHides(link, cfg, s, steps[0], SizeOfAll(LinesOf(steps[1..])));
      StepDecides(link, cfg, s, steps[0]);
      RunHides(link, cfg, Advance(link, cfg, s, steps[0]).state, steps[1..]);
    }
  }

  lemma HiddenRuns(link: Link, cfg: Config, s: State, n: nat)
    requires Hidden(link, cfg, s, n)
    ensures s.stop.None?
  {
  }

  /** A response that fails after nothing but its preamble is tried on another account: for every client,
      whatever timers fire in between, as long as the preamble fits the buffered writer and no keepalive
      comes due. */
  lemma PreambleFailsOver(link: Link, cfg: Config, client: Client, steps: seq<Step>, line: Line, drained: bool)
    requires LinesDecide(cfg) && (cfg.flushPreamble ==> cfg.gatewayOnly)
    requires Unseen(link, client) && client.active == cfg.gatewayOnly && SizeOfAll(LinesOf(steps)) <= CAPACITY
    requires (forall i | 0 <= i < |steps| :: Undisturbed(cfg, steps[i])) && AllPreliminary(NoType, LinesOf(steps))
    requires IsRetryable(NameAfter(NoType, LinesOf(steps)), line)
    ensures var r := RunSteps(link, cfg, Start(client, cfg, false, false), steps + [Upstream(line, drained)]);
            r.Ended? && r.exit.Failover?
  {
    hide RunSteps, Advance, EndsAs, AnyFails, AnyCyber, AnyMarked, TerminalAfter, NameAfter, Faithful, SizeOfAll;
    var s, last := Start(client, cfg, false, false), Upstream(line, drained);
    RunHides(link, cfg, s, steps);
    ExitExactly(link, cfg, client, false, false, steps, last);
    var mid, r := RunSteps(link, cfg, s, steps).state, RunSteps(link, cfg, s, steps + [last]);
    assert !Visible(link, mid);
    assert r.Ended?;
    EndsAsLine(link, cfg, mid, LinesOf(steps), line, drained, r.exit);
  }

  lemma EndsAsLine(link: Link, cfg: Config, s: State, lines: seq<Line>, line: Line, drained: bool, exit: Exit)
    requires EndsAs(link, cfg, s, lines, Upstream(line, drained), exit)
    ensures EndsLine(NameAfter(NoType, lines), Visible(link, s), line, exit)
  {
  }
}
