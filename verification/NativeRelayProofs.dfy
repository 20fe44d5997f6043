/** What every run of the native relay guarantees. */
module NativeRelayProofs {
  import opened StreamEvents
  import opened Downstream
  import opened Relays
  import opened NativeRelay

  function LinesOf(steps: seq<Step>): seq<Line> {
    if steps == [] then []
    else (if steps[0].Upstream? then [steps[0].line] else []) + LinesOf(steps[1..])
  }

  // ---- one line, one step ------------------------------------------------------------------

  /** Accounting and conclusions after a relayed line are a matter of the line alone. */
  lemma LineDecides(link: Link, cfg: Config, s: State, line: Line, drained: bool)
    requires s.stop.None?
    ensures var r := Process(link, cfg, s, line, drained);
            && r.name == NextName(s.name, line)
            && (r.stop.None? ==>
                  && r.bill == BillLine(s.bill, s.name, line)
                  && r.errorSent == s.errorSent
                  && r.verdict.terminal == TerminalNext(s.verdict.terminal, s.name, line)
                  && r.verdict.failed == (s.verdict.failed || Fails(s.name, line))
                  && r.verdict.neutral == NeutralNext(s.verdict.neutral, s.name, line))
            && (r.stop.Some? ==> r.verdict.failed && line.Data? && TypeOf(s.name, line.payload).Failed?)
  {
    hide Put, PutFrame, Answer, SendLine, Advances, WriteControl, DrainTimeout, Noted;
    if line.Data? {
      var t := TypeOf(s.name, line.payload);
      var b := if t.Failed? then s.bill.(usage := ReadUsage(s.bill.usage, line.payload)) else s.bill;
      SanitizeBillsAlike(b, t, line.payload, Visible(link, s));
    }
  }

  lemma StepDecides(link: Link, cfg: Config, s: State, step: Step)
    requires s.stop.None?
    ensures var r := Advance(link, cfg, s, step);
            && r.state.name == NameAfter(s.name, LinesOf([step]))
            && (r.Running? ==>
                  && r.state.stop.None? && r.state.errorSent == s.errorSent
                  && r.state.verdict.terminal == TerminalAfter(s.verdict.terminal, s.name, LinesOf([step])))
            && (r.Running? || !step.Upstream? ==>
                  && r.state.bill == BillLines(s.bill, s.name, LinesOf([step]))
                  && r.state.verdict.failed == (s.verdict.failed || AnyFails(s.name, LinesOf([step])))
                  && r.state.verdict.neutral == NeutralAfter(s.verdict.neutral, s.name, LinesOf([step])))
  {
    hide Put, PutFrame, Write, Flush, Advances, Process, SendError, TimeoutPlaceholder, BootstrapComment;
    assert [step][1..] == [] && LinesOf([]) == [];
    if step.Upstream? {
      LineDecides(link, cfg, s, step.line, step.drained);
      assert LinesOf([step]) == [step.line];
    }
  }

  // ---- billing does not depend on the client -----------------------------------------------

  lemma {:induction false} RunDecides(link: Link, cfg: Config, s: State, steps: seq<Step>)
    requires s.stop.None? && RunSteps(link, cfg, s, steps).Running?
    ensures var r := RunSteps(link, cfg, s, steps).state;
            && r.stop.None? && r.errorSent == s.errorSent
            && r.name == NameAfter(s.name, LinesOf(steps))
            && r.verdict.terminal == TerminalAfter(s.verdict.terminal, s.name, LinesOf(steps))
            && r.bill == BillLines(s.bill, s.name, LinesOf(steps))
            && r.verdict.failed == (s.verdict.failed || AnyFails(s.name, LinesOf(steps)))
            && r.verdict.neutral == NeutralAfter(s.verdict.neutral, s.name, LinesOf(steps))
    decreases steps
  {
    if steps != [] {
      StepDecides(link, cfg, s, steps[0]);
      assert [steps[0]][1..] == [] && LinesOf([]) == [];
      var next := Advance(link, cfg, s, steps[0]).state;
      RunDecides(link, cfg, next, steps[1..]);
      if steps[0].Upstream? {
        assert LinesOf(steps)[1..] == LinesOf(steps[1..]);
      } else {
        assert LinesOf(steps) == LinesOf(steps[1..]);
      }
    }
  }

  /** Steps that never end a run by themselves. */
  predicate Passive(cfg: Config, step: Step) {
    step.Upstream? || step.BootstrapTimer? || step.PlaceholderTimer? || step.CoordinatorFrame?
    || step.KeepaliveTimer? || (step.IntervalTimer? && !step.silent) || (step.StallTimer? && !cfg.stallGuard)
  }

  /** Without a response.failed event nothing else stops a run: neither the client nor a frame. */
  lemma {:induction false} PassiveRunsOn(link: Link, cfg: Config, s: State, steps: seq<Step>)
    requires s.stop.None? && (forall i | 0 <= i < |steps| :: Passive(cfg, steps[i]))
    requires NoFailedEvent(s.name, LinesOf(steps))
    ensures RunSteps(link, cfg, s, steps).Running?
    decreases steps
  {
    if steps != [] {
      if steps[0].Upstream? {
        LineDecides(link, cfg, s, steps[0].line, steps[0].drained);
        assert LinesOf(steps)[1..] == LinesOf(steps[1..]);
      } else {
        assert LinesOf(steps) == LinesOf(steps[1..]);
      }
      StepDecides(link, cfg, s, steps[0]);
      assert [steps[0]][1..] == [] && LinesOf([]) == [];
      PassiveRunsOn(link, cfg, Advance(link, cfg, s, steps[0]).state, steps[1..]);
    }
  }

  lemma {:induction false} RunThenEnd(link: Link, cfg: Config, s: State, steps: seq<Step>, last: Step)
    requires RunSteps(link, cfg, s, steps).Running?
    ensures RunSteps(link, cfg, s, steps + [last]) == Advance(link, cfg, RunSteps(link, cfg, s, steps).state, last)
    decreases steps
  {
    if steps == [] {
      assert steps + [last] == [last] && [last][1..] == [];
    } else {
      assert (steps + [last])[1..] == steps[1..] + [last] && (steps + [last])[0] == steps[0];
      RunThenEnd(link, cfg, Advance(link, cfg, s, steps[0]).state, steps[1..], last);
    }
  }

  /** Any two runs over the same upstream lines that get past all of them bill the same, however they
      then end: whoever the clients are, whenever they disconnect, whatever timers fire and however
      the relays are configured. */
  lemma BillingIgnoresTheClient(
      link: Link, cfg: Config, s: State, steps: seq<Step>, last: Step,
      link': Link, cfg': Config, s': State, steps': seq<Step>, last': Step)
    requires s.stop.None? && s'.stop.None? && s.bill == s'.bill && s.name == s'.name
    requires LinesOf(steps) == LinesOf(steps') && !last.Upstream? && !last'.Upstream?
    requires RunSteps(link, cfg, s, steps).Running? && RunSteps(link', cfg', s', steps').Running?
    ensures RunSteps(link, cfg, s, steps + [last]).state.bill
            == RunSteps(link', cfg', s', steps' + [last']).state.bill
            == BillLines(s.bill, s.name, LinesOf(steps))
  {
    BilledAtEnd(link, cfg, s, steps, last);
    BilledAtEnd(link', cfg', s', steps', last');
  }

  lemma BilledAtEnd(link: Link, cfg: Config, s: State, steps: seq<Step>, last: Step)
    requires s.stop.None? && !last.Upstream? && RunSteps(link, cfg, s, steps).Running?
    ensures RunSteps(link, cfg, s, steps + [last]).state.bill == BillLines(s.bill, s.name, LinesOf(steps))
  {
    hide RunSteps, Advance;
    RunDecides(link, cfg, s, steps);
    RunThenEnd(link, cfg, s, steps, last);
    StepDecides(link, cfg, RunSteps(link, cfg, s, steps).state, last);
    assert [last][1..] == [] && LinesOf([]) == [];
  }

  // ---- transparent failover ----------------------------------------------------------------

  ghost predicate Evolves(link: Link, s: State, r: State) {
    && Later(s.pipe.client, r.pipe.client)
    && (Faithful(link, s.pipe.client) ==> Faithful(link, r.pipe.client))
    && (!link.wrapped && r.stop != Some(RuleAnswered) ==> r.pipe.client.committed == s.pipe.client.committed)
  }

  lemma DataEvolves(link: Link, cfg: Config, s: State, p: Payload)
    requires s.stop.None?
    ensures Evolves(link, s, RelayData(link, cfg, s, p))
  {
  }

  lemma LineEvolves(link: Link, cfg: Config, s: State, line: Line, drained: bool)
    requires s.stop.None?
    ensures Evolves(link, s, Process(link, cfg, s, line, drained))
  {
    hide RelayControl, RelayData, Faithful;
    if line.Data? {
      DataEvolves(link, cfg, s, line.payload);
    }
  }

  lemma StepEvolves(link: Link, cfg: Config, s: State, step: Step)
    requires s.stop.None?
    ensures Evolves(link, s, Advance(link, cfg, s, step).state)
  {
    hide Put, PutFrame, Write, Flush, Process, SendError, TimeoutPlaceholder, BootstrapComment, Faithful;
    if step.Upstream? {
      var p := Process(link, cfg, s, step.line, step.drained);
      LineEvolves(link, cfg, s, step.line, step.drained);
      if p.stop.None? && s.holders.bootstrapPending {
        var b := BootstrapComment(link, cfg, p);
        assert OnlyWrites(link, p, b);
      }
    }
  }

  /** A step that ends the run with a failover finds nothing of the upstream with the client. */
  lemma FailoverStep(link: Link, cfg: Config, s: State, step: Step)
    requires Coherent(cfg) && s.stop.None? && Faithful(link, s.pipe.client)
    requires cfg.gatewayOnly ==> s.pipe.client.active && link.wrapped
    requires link.wrapped || !s.pipe.client.active
    ensures var r := Advance(link, cfg, s, step); r.Ended? && r.exit.Failover? ==> Clean(link, r.state.pipe.client)
  {
  }

  /** Without an observed writer and without a coordinated feature nothing activates the
      coordinator. */
  lemma StaysInactive(link: Link, cfg: Config, s: State, step: Step)
    requires Coherent(cfg) && s.stop.None? && !link.wrapped && !cfg.gatewayOnly && !s.pipe.client.active
    ensures !Advance(link, cfg, s, step).state.pipe.client.active
  {
    hide Put, PutFrame, Answer, Write, Flush, WriteLine, Advances;
    if step.Upstream? {
      LineStaysInactive(link, cfg, s, step.line, step.drained);
    }
  }

  lemma LineStaysInactive(link: Link, cfg: Config, s: State, line: Line, drained: bool)
    requires Coherent(cfg) && s.stop.None? && !link.wrapped && !cfg.gatewayOnly && !s.pipe.client.active
    ensures !Process(link, cfg, s, line, drained).pipe.client.active
  {
    hide Put, PutFrame, Answer, Write, Flush, WriteLine, Advances, ForwardData, Judge;
  }

  lemma {:induction false} FailoverIsClean(link: Link, cfg: Config, s: State, steps: seq<Step>)
    requires Coherent(cfg) && s.stop.None? && Faithful(link, s.pipe.client)
    requires cfg.gatewayOnly ==> s.pipe.client.active && link.wrapped
    requires link.wrapped || !s.pipe.client.active
    ensures var r := RunSteps(link, cfg, s, steps);
            r.Ended? && r.exit.Failover? ==> Clean(link, r.state.pipe.client)
    decreases steps
  {
    if steps != [] {
      FailoverStep(link, cfg, s, steps[0]);
      var r := Advance(link, cfg, s, steps[0]);
      if r.Running? {
        StepEvolves(link, cfg, s, steps[0]);
        StepDecides(link, cfg, s, steps[0]);
        if !link.wrapped {
          StaysInactive(link, cfg, s, steps[0]);
        }
        FailoverIsClean(link, cfg, r.state, steps[1..]);
      }
    }
  }

  // ---- conservation --------------------------------------------------------------------------

  lemma WriteLineConserves(link: Link, p: Pipe, text: string)
    ensures var r := WriteLine(link, p, text); !r.client.disconnected ==> Wire(r) == Wire(p) + LineText(text)
  {
    hide Write, Wire, UpstreamOf;
    var t, n := Tag(FromUpstream, text), Tag(FromUpstream, "\n");
    WriteConserves(link, p, t);
    WriteConserves(link, Write(link, p, t), n);
    UpstreamOfTag(FromUpstream, text);
    UpstreamOfTag(FromUpstream, "\n");
    Regroup(Wire(p), t, n);
  }

  lemma FramesConserve(link: Link, cfg: Config, s: State)
    ensures Wire(SafePlaceholder(link, cfg, s).pipe) == Wire(s.pipe)
    ensures Wire(TimeoutPlaceholder(link, cfg, s).pipe) == Wire(s.pipe)
    ensures Wire(BootstrapComment(link, cfg, s).pipe) == Wire(s.pipe)
  {
    hide PutFrame, UpstreamSent, UpstreamOf, Advances, Visible;
  }

  lemma ErrorConserves(link: Link, cfg: Config, s: State)
    ensures var r := SendError(link, cfg, s); Connected(r) ==> Wire(r.pipe) == Wire(s.pipe)
  {
    hide Write, Flush, Wire, UpstreamOf;
    var frame := Tag(FromGateway, cfg.errorFrame);
    UpstreamOfTag(FromGateway, cfg.errorFrame);
    var flushed := Flush(link, s.pipe);
    FlushConserves(link, s.pipe);
    WriteConserves(link, flushed, frame);
    FlushConserves(link, Write(link, flushed, frame));
  }

  lemma DataConserves(link: Link, cfg: Config, s: State, p: Payload)
    requires s.stop.None?
    ensures var r := RelayData(link, cfg, s, p);
            Connected(r) ==> Wire(r.pipe) == Wire(s.pipe) + (if r.stop.None? then Rendered(link, s, Data(p)) else [])
  {
    hide Write, Flush, Wire, UpstreamOf, WriteLine, Answer, UpstreamSent;
    var q := Sanitize(TypeOf(s.name, p), p, Visible(link, s));
    WriteLineConserves(link, s.pipe, q.wire);
    FlushConserves(link, WriteLine(link, s.pipe, q.wire));
    if RelayData(link, cfg, s, p).stop == Some(RuleAnswered) {
      AnswerConserves(link, cfg, s.pipe);
    }
  }

  lemma AnswerConserves(link: Link, cfg: Config, p: Pipe)
    ensures Wire(p.(client := Answer(link, p.client, cfg.answer))) == Wire(p)
  {
  }

  lemma WriteControlConserves(link: Link, cfg: Config, s: State, text: string, drained: bool)
    ensures var r := WriteControl(link, cfg, s, text, drained);
            Connected(r) ==> Wire(r.pipe) == Wire(s.pipe) + LineText(text)
  {
    hide Write, Flush, Wire, UpstreamOf, WriteLine, UpstreamSent, SafePlaceholder;
    WriteLineConserves(link, s.pipe, text);
    var l := WriteLine(link, s.pipe, text);
    FlushConserves(link, l);
    var f := s.(pipe := if s.outputStarted && (text == "" || drained) then Flush(link, l) else l);
    FramesConserve(link, cfg, f.(holders := s.holders.(safePending := false, atBoundary := true)));
  }

  lemma ControlConserves(link: Link, cfg: Config, s: State, line: Line, drained: bool)
    requires s.stop.None? && !line.Data?
    ensures var r := RelayControl(link, cfg, s, line, drained);
            Connected(r) ==> Wire(r.pipe) == Wire(s.pipe) + Rendered(link, s, line)
  {
    hide Wire, WriteControl, TimeoutPlaceholder;
    var named := s.(name := NextName(s.name, line));
    var text := ControlText(line);
    if text.Some? {
      WriteControlConserves(link, cfg, named, text.value, drained);
    }
    var w := if text.Some? then WriteControl(link, cfg, named, text.value, drained) else named;
    FramesConserve(link, cfg, w.(holders := w.holders.(atBoundary := line.Blank? || line.Dropped?)));
  }

  /** What the run has decided to relay, line by line. */
  function KeptAlong(link: Link, cfg: Config, s: State, steps: seq<Step>): Text
    decreases steps
  {
    if steps == [] then []
    else
      match Advance(link, cfg, s, steps[0])
      case Ended(_, _) => []
      case Running(next) =>
        (if steps[0].Upstream? then Rendered(link, s, steps[0].line) else [])
        + KeptAlong(link, cfg, next, steps[1..])
  }

  lemma StepConserves(link: Link, cfg: Config, s: State, step: Step)
    requires s.stop.None?
    ensures var r := Advance(link, cfg, s, step);
            Connected(r.state) ==>
              && Connected(s)
              && Wire(r.state.pipe)
                 == Wire(s.pipe) + (if step.Upstream? && r.Running? then Rendered(link, s, step.line) else [])
  {
    hide Put, Write, Flush, Wire, UpstreamOf, UpstreamSent, Process, SendError, TimeoutPlaceholder, BootstrapComment,
         PutFrame;
    StepEvolves(link, cfg, s, step);
    match step
    case Upstream(line, drained) =>
      UpstreamConserves(link, cfg, s, line, drained);
    case KeepaliveTimer(_) =>
      var comment := Tag(FromGateway, ":\n\n");
      UpstreamOfTag(FromGateway, ":\n\n");
      WriteConserves(link, s.pipe, comment);
      FlushConserves(link, Write(link, s.pipe, comment));
    case CoordinatorFrame =>
      CoordinatorFrameConserves(link, cfg, s.pipe);
    case _ =>
      FramesConserve(link, cfg, s);
      ErrorConserves(link, cfg, s);
      FlushConserves(link, s.pipe);
  }

  lemma CoordinatorFrameConserves(link: Link, cfg: Config, p: Pipe)
    ensures Wire(p.(client := PutFrame(link, p.client, cfg.tokenFrame, true))) == Wire(p)
  {
  }

  lemma UpstreamConserves(link: Link, cfg: Config, s: State, line: Line, drained: bool)
    requires s.stop.None?
    ensures var r := Advance(link, cfg, s, Upstream(line, drained));
            Connected(r.state) ==>
              Wire(r.state.pipe) == Wire(s.pipe) + (if r.Running? then Rendered(link, s, line) else [])
  {
    hide Wire, RelayData, RelayControl, BootstrapComment, Rendered;
    if line.Data? {
      DataConserves(link, cfg, s, line.payload);
    } else {
      ControlConserves(link, cfg, s, line, drained);
    }
    FramesConserve(link, cfg, Process(link, cfg, s, line, drained));
  }

  /** While the client is connected, what it received followed by what is buffered is exactly
      what was received before and every kept line since: none lost, repeated or reordered. */
  lemma {:induction false} RunConserves(link: Link, cfg: Config, s: State, steps: seq<Step>)
    requires s.stop.None?
    ensures var r := RunSteps(link, cfg, s, steps);
            Connected(r.state) ==> Wire(r.state.pipe) == Wire(s.pipe) + KeptAlong(link, cfg, s, steps)
    decreases steps
  {
    hide Wire, Advance, Rendered;
    if steps != [] {
      StepConserves(link, cfg, s, steps[0]);
      StepDecides(link, cfg, s, steps[0]);
      var r := Advance(link, cfg, s, steps[0]);
      if r.Running? {
        RunConserves(link, cfg, r.state, steps[1..]);
        StillConnected(link, cfg, r.state, steps[1..]);
        if Connected(RunSteps(link, cfg, s, steps).state) {
          Regroup(Wire(s.pipe), if steps[0].Upstream? then Rendered(link, s, steps[0].line) else [],
                  KeptAlong(link, cfg, r.state, steps[1..]));
        }
      }
    }
  }

  lemma {:induction false} StillConnected(link: Link, cfg: Config, s: State, steps: seq<Step>)
    requires s.stop.None?
    ensures Connected(RunSteps(link, cfg, s, steps).state) ==> Connected(s)
    decreases steps
  {
    hide Advance;
    if steps != [] {
      StepEvolves(link, cfg, s, steps[0]);
      StepDecides(link, cfg, s, steps[0]);
      var r := Advance(link, cfg, s, steps[0]);
      if r.Running? {
        StillConnected(link, cfg, r.state, steps[1..]);
      }
    }
  }

  // ---- what passes ------------------------------------------------------------------------------------------

  lemma RenderedIsPermitted(link: Link, s: State, line: Line)
    ensures Permitted(s.name, line, Rendered(link, s, line))
  {
    hide LineText, Visible;
  }

  /** No error body of the upstream passes: what a run relays is each line itself, in order, with a safe text
      in the place of every error. */
  lemma {:induction false} NoErrorPasses(link: Link, cfg: Config, s: State, steps: seq<Step>)
    requires s.stop.None? && RunSteps(link, cfg, s, steps).Running?
    ensures Permits(s.name, LinesOf(steps), KeptAlong(link, cfg, s, steps))
    decreases steps
  {
    hide Advance, Rendered, Permitted, Permits;
    if steps == [] {
      assert Permits(s.name, [], []) by { NothingPermitted(s.name); }
    } else {
      var next := Advance(link, cfg, s, steps[0]).state;
      StepDecides(link, cfg, s, steps[0]);
      NoErrorPasses(link, cfg, next, steps[1..]);
      assert [steps[0]][1..] == [] && LinesOf([]) == [];
      if steps[0].Upstream? {
        var line := steps[0].line;
        assert NameAfter(s.name, [line]) == NextName(s.name, line) by { assert [line][1..] == []; }
        RenderedIsPermitted(link, s, line);
        PermitsOneMore(s.name, line, Rendered(link, s, line), LinesOf(steps[1..]),
                       KeptAlong(link, cfg, next, steps[1..]));
      } else {
        assert LinesOf(steps) == LinesOf(steps[1..]);
        assert KeptAlong(link, cfg, s, steps) == KeptAlong(link, cfg, next, steps[1..]);
      }
    }
  }

  // ---- delivery ------------------------------------------------------------------------------

  /** A run that finishes with the stream has handed a connected client every kept line. */
  lemma FinishedDelivers(link: Link, cfg: Config, s: State, steps: seq<Step>)
    requires s.stop.None? && s.pipe.buffer == [] && RunSteps(link, cfg, s, steps).Running?
    ensures var r := RunSteps(link, cfg, s, steps + [EndOfStream]);
            r.Ended? && r.exit.Finished? && Connected(r.state) ==>
              UpstreamSent(r.state.pipe.client) == UpstreamSent(s.pipe.client) + KeptAlong(link, cfg, s, steps)
  {
    hide Flush, UpstreamSent, RunSteps, Write;
    var mid := RunSteps(link, cfg, s, steps).state;
    RunThenEnd(link, cfg, s, steps, EndOfStream);
    RunConserves(link, cfg, s, steps);
    RunDecides(link, cfg, s, steps);
    StepConserves(link, cfg, mid, EndOfStream);
    var r := Advance(link, cfg, mid, EndOfStream);
    if r.exit.Finished? && Connected(r.state) {
      assert r.state.pipe.buffer == [];
      assert Wire(r.state.pipe) == UpstreamSent(r.state.pipe.client);
      assert Wire(s.pipe) == UpstreamSent(s.pipe.client);
    }
  }

  // ---- the reported terminal event -------------------------------------------------------------

  /** The exits after which the gateway sends its own error event. */
  predicate GatewayEnds(exit: Exit) {
    exit.MissingTerminal? || exit.LineTooLong? || exit.ReadError? || exit.StallTimeout? || exit.IntervalTimeout?
  }

  lemma EndTerminal(link: Link, cfg: Config, s: State, last: Step)
    requires !s.errorSent && !last.Upstream? && Advance(link, cfg, s, last).Ended?
    ensures var r := Advance(link, cfg, s, last);
            r.state.verdict.terminal == if GatewayEnds(r.exit) && Connected(r.state) then Failed else s.verdict.terminal
  {
    hide Put, PutFrame, Write, Flush, Advances, SendError, TimeoutPlaceholder, BootstrapComment;
  }

  /** The type reported with any ended run, read off its lines: response.failed if any line failed,
      else the last neutral type, else response.failed if the client received the gateway's error
      event, else the last terminal type. */
  lemma ReportedTerminal(link: Link, cfg: Config, s: State, steps: seq<Step>, last: Step)
    requires s.stop.None? && !s.errorSent && !s.verdict.failed && s.verdict.neutral.NoType?
    requires RunSteps(link, cfg, s, steps).Running? && RunSteps(link, cfg, s, steps + [last]).Ended?
    ensures var r := RunSteps(link, cfg, s, steps + [last]);
            var lines := LinesOf(steps) + LinesOf([last]);
            ResultTerminal(r.state.verdict) ==
              if AnyFails(s.name, lines) then Failed
              else if !NeutralAfter(NoType, s.name, lines).NoType? then NeutralAfter(NoType, s.name, lines)
              else if GatewayEnds(r.exit) && Connected(r.state) then Failed
              else TerminalAfter(s.verdict.terminal, s.name, lines)
  {
    hide RunSteps, Advance, Process;
    var mid := RunSteps(link, cfg, s, steps).state;
    RunDecides(link, cfg, s, steps);
    RunThenEnd(link, cfg, s, steps, last);
    StepDecides(link, cfg, mid, last);
    FailsInParts(s.name, LinesOf(steps), LinesOf([last]));
    assert [last][1..] == [] && LinesOf([]) == [];
    if last.Upstream? {
      LastLineStops(link, cfg, mid, last);
      assert LinesOf([last]) == [last.line] && LinesOf([last])[1..] == [];
    } else {
      EndTerminal(link, cfg, mid, last);
      assert LinesOf(steps) + LinesOf([last]) == LinesOf(steps);
    }
  }

  /** Failure is absorbing: once a line failed, response.failed is reported whatever follows. */
  lemma FailureIsAbsorbing(link: Link, cfg: Config, s: State, steps: seq<Step>, more: seq<Step>, last: Step)
    requires s.stop.None? && !s.errorSent && !s.verdict.failed && s.verdict.neutral.NoType?
    requires RunSteps(link, cfg, s, steps + more).Running? && RunSteps(link, cfg, s, steps + more + [last]).Ended?
    requires AnyFails(s.name, LinesOf(steps))
    ensures ResultTerminal(RunSteps(link, cfg, s, steps + more + [last]).state.verdict) == Failed
  {
    hide RunSteps, AnyFails;
    ReportedTerminal(link, cfg, s, steps + more, last);
    LinesOfConcat(steps, more);
    FailsInParts(s.name, LinesOf(steps), LinesOf(more));
    FailsInParts(s.name, LinesOf(steps + more), LinesOf([last]));
  }

  lemma {:induction false} LinesOfConcat(steps: seq<Step>, more: seq<Step>)
    ensures LinesOf(steps + more) == LinesOf(steps) + LinesOf(more)
  {
    if steps == [] {
      assert steps + more == more;
    } else {
      assert (steps + more)[1..] == steps[1..] + more && (steps + more)[0] == steps[0];
      LinesOfConcat(steps[1..], more);
    }
  }

  lemma LastLineStops(link: Link, cfg: Config, s: State, last: Step)
    requires s.stop.None? && last.Upstream? && Advance(link, cfg, s, last).Ended?
    ensures Advance(link, cfg, s, last).state.verdict.failed && Fails(s.name, last.line)
  {
  }

  /** The response is bound to the account, or its latency sampled, after a stream. */
  predicate SideEffects(r: Run) {
    r.Ended? && r.exit.Finished? && Connected(r.state)
    && (ResultTerminal(r.state.verdict).Completed? || ResultTerminal(r.state.verdict).Done?)
  }

  predicate CommitsSample(r: Run) {
    var v := r.state.verdict;
    r.Ended? && r.exit.Finished? && Connected(r.state) && !v.failed && v.neutral.NoType?
    && r.state.progress.sampled && (v.terminal.Completed? || v.terminal.Done?)
  }

  lemma SideEffectsOnlyOnSuccess(link: Link, cfg: Config, s: State, steps: seq<Step>, last: Step)
    requires s.stop.None? && !s.errorSent && !s.verdict.failed && s.verdict.neutral.NoType?
    requires RunSteps(link, cfg, s, steps).Running?
    requires SideEffects(RunSteps(link, cfg, s, steps + [last]))
             || CommitsSample(RunSteps(link, cfg, s, steps + [last]))
    ensures var lines := LinesOf(steps) + LinesOf([last]);
            !AnyFails(s.name, lines) && NeutralAfter(NoType, s.name, lines).NoType?
  {
    hide RunSteps;
    ReportedTerminal(link, cfg, s, steps, last);
    NeutralIsNeutral(NoType, s.name, LinesOf(steps) + LinesOf([last]));
  }

  lemma {:induction false} NeutralIsNeutral(neutral: EventType, name: EventType, lines: seq<Line>)
    requires neutral.NoType? || IsNeutral(neutral)
    ensures NeutralAfter(neutral, name, lines).NoType? || IsNeutral(NeutralAfter(neutral, name, lines))
    decreases lines
  {
    if lines != [] {
      NeutralIsNeutral(NeutralNext(neutral, name, lines[0]), NextName(name, lines[0]), lines[1..]);
    }
  }
}
