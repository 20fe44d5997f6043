/** What every run of the passthrough relay guarantees, and where its promises stop. */
module PassthroughRelayProofs {
  import opened StreamEvents
  import opened Downstream
  import opened Relays
  import opened PassthroughRelay

  function LinesOf(steps: seq<Step>): seq<Line> {
    if steps == [] then []
    else (if steps[0].Upstream? then [steps[0].line] else []) + LinesOf(steps[1..])
  }

  // ---- billing ---------------------------------------------------------------------------------

  lemma LineDecides(link: Link, cfg: Config, s: State, line: Line)
    ensures var r := Process(link, cfg, s, line);
            && r.state.name == NextName(s.name, line)
            && (r.Running? ==> r.state.bill == BillLine(s.bill, s.name, line))
            && (r.Ended? ==> line.Data? && TypeOf(s.name, line.payload).Failed?)
  {
    hide Emit, RelayControl, Judge, Answer, Tally, Advances;
    if line.Data? {
      var t := TypeOf(s.name, line.payload);
      var b := if t.Failed? then s.bill.(usage := ReadUsage(s.bill.usage, line.payload)) else s.bill;
      SanitizeBillsAlike(b, t, line.payload, Visible(link, s));
    }
  }

  lemma StepDecides(link: Link, cfg: Config, s: State, step: Step)
    ensures var r := Advance(link, cfg, s, step);
            && (r.Running? ==> r.state.name == NameAfter(s.name, LinesOf([step])))
            && (r.Running? || !step.Upstream? ==> r.state.bill == BillLines(s.bill, s.name, LinesOf([step])))
  {
    hide Process, SendFailure, PutFrame, BootstrapComment, TimeoutPlaceholder, DrainTimeout, Advances;
    assert [step][1..] == [] && LinesOf([]) == [];
    if step.Upstream? {
      LineDecides(link, cfg, s, step.line);
      assert LinesOf([step]) == [step.line];
    }
  }

  lemma {:induction false} RunDecides(link: Link, cfg: Config, s: State, steps: seq<Step>)
    requires RunSteps(link, cfg, s, steps).Running?
    ensures var r := RunSteps(link, cfg, s, steps).state;
            && r.name == NameAfter(s.name, LinesOf(steps))
            && r.bill == BillLines(s.bill, s.name, LinesOf(steps))
    decreases steps
  {
    hide Advance;
    if steps != [] {
      StepDecides(link, cfg, s, steps[0]);
      assert [steps[0]][1..] == [] && LinesOf([]) == [];
      RunDecides(link, cfg, Advance(link, cfg, s, steps[0]).state, steps[1..]);
      if steps[0].Upstream? {
        assert LinesOf(steps)[1..] == LinesOf(steps[1..]);
      } else {
        assert LinesOf(steps) == LinesOf(steps[1..]);
      }
    }
  }

  lemma {:induction false} RunThenEnd(link: Link, cfg: Config, s: State, steps: seq<Step>, last: Step)
    requires RunSteps(link, cfg, s, steps).Running?
    ensures RunSteps(link, cfg, s, steps + [last]) == Advance(link, cfg, RunSteps(link, cfg, s, steps).state, last)
    decreases steps
  {
    hide Advance;
    if steps == [] {
      assert steps + [last] == [last] && [last][1..] == [];
    } else {
      assert (steps + [last])[1..] == steps[1..] + [last] && (steps + [last])[0] == steps[0];
      RunThenEnd(link, cfg, Advance(link, cfg, s, steps[0]).state, steps[1..], last);
    }
  }

  /** Steps that never end a run by themselves. */
  predicate Passive(cfg: Config, step: Step) {
    step.Upstream? || step.BootstrapTimer? || step.PlaceholderTimer? || step.CoordinatorFrame?
    || (step.StallTimer? && !cfg.stallGuard)
  }

  /** Without a response.failed event nothing else stops a run: neither the client nor a frame. */
  lemma {:induction false} PassiveRunsOn(link: Link, cfg: Config, s: State, steps: seq<Step>)
    requires (forall i | 0 <= i < |steps| :: Passive(cfg, steps[i])) && NoFailedEvent(s.name, LinesOf(steps))
    ensures RunSteps(link, cfg, s, steps).Running?
    decreases steps
  {
    hide Process, BootstrapComment, TimeoutPlaceholder, DrainTimeout, PutFrame, SendFailure;
    if steps != [] {
      if steps[0].Upstream? {
        LineDecides(link, cfg, s, steps[0].line);
        assert LinesOf(steps)[1..] == LinesOf(steps[1..]);
      } else {
        assert LinesOf(steps) == LinesOf(steps[1..]);
      }
      StepDecides(link, cfg, s, steps[0]);
      assert [steps[0]][1..] == [] && LinesOf([]) == [];
      PassiveRunsOn(link, cfg, Advance(link, cfg, s, steps[0]).state, steps[1..]);
    }
  }

  /** Any two runs over the same upstream lines that get past all of them bill the same, however they
      then end and whatever the clients, the timers and the configurations do. */
  lemma BillingIgnoresTheClient(
      link: Link, cfg: Config, s: State, steps: seq<Step>, last: Step,
      link': Link, cfg': Config, s': State, steps': seq<Step>, last': Step)
    requires s.bill == s'.bill && s.name == s'.name
    requires LinesOf(steps) == LinesOf(steps') && !last.Upstream? && !last'.Upstream?
    requires RunSteps(link, cfg, s, steps).Running? && RunSteps(link', cfg', s', steps').Running?
    ensures RunSteps(link, cfg, s, steps + [last]).state.bill
            == RunSteps(link', cfg', s', steps' + [last']).state.bill
            == BillLines(s.bill, s.name, LinesOf(steps))
  {
    BilledAtEnd(link, cfg, s, steps, last);
    BilledAtEnd(link', cfg', s', steps', last');
  }

  lemma BilledAtEnd(link: Link, cfg: Config, s: State, steps: seq<Step>, last: Step)
    requires !last.Upstream? && RunSteps(link, cfg, s, steps).Running?
    ensures RunSteps(link, cfg, s, steps + [last]).state.bill == BillLines(s.bill, s.name, LinesOf(steps))
  {
    hide RunSteps, Advance;
    RunDecides(link, cfg, s, steps);
    RunThenEnd(link, cfg, s, steps, last);
    StepDecides(link, cfg, RunSteps(link, cfg, s, steps).state, last);
    assert [last][1..] == [] && LinesOf([]) == [];
  }

  // ---- the reported terminal event -------------------------------------------------------------

  /** What one line tells the relay: whether the response failed and, while it has not, its types. */
  ghost predicate Judges(s: Verdict, r: Verdict, name: EventType, lines: seq<Line>) {
    && r.failed == (s.failed || AnyFails(name, lines))
    && (!r.failed ==>
          && r.neutral == NeutralAfter(s.neutral, name, lines)
          && r.terminal == TerminalAfter(s.terminal, name, lines))
  }

  lemma {:induction false} LineJudges(link: Link, cfg: Config, s: State, line: Line)
    ensures var r := Process(link, cfg, s, line);
            && (r.Running? ==> Judges(s.verdict, r.state.verdict, s.name, [line]))
            && (r.Ended? ==> r.state.verdict == s.verdict)
  {
    hide Emit, RelayControl, Answer, Tally, Advances, AnyFails, NeutralAfter, TerminalAfter;
    OneLineOutcome(s.verdict.neutral, s.verdict.terminal, s.name, [line]);
  }

  lemma StepJudges(link: Link, cfg: Config, s: State, step: Step)
    ensures var r := Advance(link, cfg, s, step);
            && (r.Running? ==> Judges(s.verdict, r.state.verdict, s.name, LinesOf([step])))
            && (r.Ended? && step.Upstream? ==> r.state.verdict == s.verdict)
  {
    hide Process, SendFailure, PutFrame, BootstrapComment, TimeoutPlaceholder, DrainTimeout, Advances, Fails,
         NeutralNext, TerminalNext;
    assert [step][1..] == [] && LinesOf([]) == [];
    if step.Upstream? {
      LineJudges(link, cfg, s, step.line);
      assert LinesOf([step]) == [step.line];
    }
  }

  lemma JudgesOn(a: Verdict, b: Verdict, c: Verdict, name: EventType, step: Step, rest: seq<Step>)
    requires Judges(a, b, name, LinesOf([step])) && Judges(b, c, NameAfter(name, LinesOf([step])), LinesOf(rest))
    ensures Judges(a, c, name, LinesOf([step] + rest))
  {
    hide Fails, NeutralNext, TerminalNext;
    assert [step][1..] == [] && LinesOf([]) == [] && ([step] + rest)[1..] == rest;
    if step.Upstream? {
      assert LinesOf([step]) == [step.line];
      OneLineOutcome(a.neutral, a.terminal, name, LinesOf([step]));
      assert LinesOf([step] + rest)[0] == step.line;
      assert LinesOf([step] + rest)[1..] == LinesOf(rest);
    } else {
      assert LinesOf([step] + rest) == LinesOf(rest) && LinesOf([step]) == [];
    }
  }

  lemma {:induction false} RunJudges(link: Link, cfg: Config, s: State, steps: seq<Step>)
    requires RunSteps(link, cfg, s, steps).Running?
    ensures Judges(s.verdict, RunSteps(link, cfg, s, steps).state.verdict, s.name, LinesOf(steps))
    decreases steps
  {
    hide Advance;
    if steps != [] {
      var next := Advance(link, cfg, s, steps[0]).state;
      StepJudges(link, cfg, s, steps[0]);
      StepDecides(link, cfg, s, steps[0]);
      RunJudges(link, cfg, next, steps[1..]);
      JudgesOn(s.verdict, next.verdict, RunSteps(link, cfg, s, steps).state.verdict, s.name, steps[0], steps[1..]);
      assert [steps[0]] + steps[1..] == steps;
    }
  }

  /** The run ended with the gateway's own terminal event: the client was there to receive it and had none. */
  predicate GatewayEnds(link: Link, r: State, exit: Exit) {
    && (exit.MissingTerminal? || exit.ReadError? || exit.StallTimeout?)
    && Connected(r) && !link.sawTerminal(r.client.writes)
  }

  lemma {:induction false} EndTerminal(link: Link, cfg: Config, s: State, last: Step)
    requires !last.Upstream? && Advance(link, cfg, s, last).Ended?
    ensures var r := Advance(link, cfg, s, last);
            r.state.verdict
            == s.verdict.(terminal := if GatewayEnds(link, r.state, r.exit) then Failed else s.verdict.terminal)
  {
    hide PutLines, PutFrame, Advances, TimeoutPlaceholder, BootstrapComment, Process, Faithful, Append;
  }

  /** The type reported with any ended run, read off its lines: response.failed if any of them failed,
      else the last neutral type, else response.failed if the gateway's own terminal event went out, else
      the last terminal type. A line that ends the run by itself is not counted. */
  lemma ReportedTerminal(link: Link, cfg: Config, s: State, steps: seq<Step>, last: Step)
    requires !s.verdict.failed && s.verdict.neutral.NoType?
    requires RunSteps(link, cfg, s, steps).Running? && RunSteps(link, cfg, s, steps + [last]).Ended?
    ensures var r := RunSteps(link, cfg, s, steps + [last]);
            var lines := LinesOf(steps);
            ResultTerminal(r.state.verdict) ==
              if AnyFails(s.name, lines) then Failed
              else if !NeutralAfter(NoType, s.name, lines).NoType? then NeutralAfter(NoType, s.name, lines)
              else if GatewayEnds(link, r.state, r.exit) then Failed
              else TerminalAfter(s.verdict.terminal, s.name, lines)
  {
    hide RunSteps, Advance;
    var mid := RunSteps(link, cfg, s, steps).state;
    RunJudges(link, cfg, s, steps);
    RunThenEnd(link, cfg, s, steps, last);
    if last.Upstream? {
      StepJudges(link, cfg, mid, last);
      LineExits(link, cfg, mid, last);
    } else {
      EndTerminal(link, cfg, mid, last);
    }
  }

  /** A line ends a run only with an answer or a failover. */
  lemma LineExits(link: Link, cfg: Config, s: State, last: Step)
    requires last.Upstream? && Advance(link, cfg, s, last).Ended?
    ensures var exit := Advance(link, cfg, s, last).exit; exit.RuleAnswered? || exit.Failover?
  {
    hide Emit, RelayControl, Answer, Tally, Advances, Judge, Sanitize, DrainTimeout, BootstrapComment;
  }

  // ---- transparent failover ----------------------------------------------------------------

  ghost predicate Evolves(link: Link, s: State, r: State) {
    Later(s.client, r.client) && (Faithful(link, s.client) ==> Faithful(link, r.client))
  }

  lemma LineEvolves(link: Link, cfg: Config, s: State, line: Line)
    ensures Evolves(link, s, Process(link, cfg, s, line).state)
  {
  }

  lemma StepEvolves(link: Link, cfg: Config, s: State, step: Step)
    ensures Evolves(link, s, Advance(link, cfg, s, step).state)
  {
    hide Process, SendFailure, PutFrame, BootstrapComment, TimeoutPlaceholder, DrainTimeout, Faithful, Visible;
    if step.Upstream? {
      LineEvolves(link, cfg, s, step.line);
    }
  }

  lemma FailoverStep(link: Link, cfg: Config, s: State, step: Step)
    requires Coherent(cfg) && Faithful(link, s.client)
    requires cfg.gatewayOnly ==> s.client.active && link.wrapped
    requires link.wrapped || !s.client.active
    ensures var r := Advance(link, cfg, s, step); r.Ended? && r.exit.Failover? ==> Clean(link, r.state.client)
  {
  }

  lemma FramesStayInactive(link: Link, cfg: Config, s: State)
    requires Coherent(cfg) && !cfg.gatewayOnly
    ensures SafePlaceholder(link, cfg, s) == s
    ensures TimeoutPlaceholder(link, cfg, s).client == DrainTimeout(link, cfg, s).client == s.client
    ensures BootstrapComment(link, cfg, s).client.active == s.client.active
    ensures EndEvent(link, cfg, s).client == s.client
  {
  }

  lemma StaysInactive(link: Link, cfg: Config, s: State, step: Step)
    requires Coherent(cfg) && !link.wrapped && !cfg.gatewayOnly && !s.client.active
    ensures var r := Advance(link, cfg, s, step); r.Running? ==> !r.state.client.active
  {
    hide Emit, Answer, SendFailure, PutFrame, Judge, Tally, Advances, OnlyWrites, TimeoutPlaceholder, DrainTimeout,
         BootstrapComment, EndEvent;
    FramesStayInactive(link, cfg, s);
    if step.Upstream? {
      var r := Process(link, cfg, s, step.line);
      if !step.line.Data? && ControlText(step.line).Some? {
        var named := s.(name := NextName(s.name, step.line));
        FramesStayInactive(link, cfg, Emit(link, named, ControlText(step.line).value, false));
      }
      FramesStayInactive(link, cfg, r.state);
      FramesStayInactive(link, cfg, WithBootstrap(link, BootstrapComment(link, cfg, r.state)));
    }
  }

  lemma {:induction false} FailoverIsClean(link: Link, cfg: Config, s: State, steps: seq<Step>)
    requires Coherent(cfg) && Faithful(link, s.client)
    requires cfg.gatewayOnly ==> s.client.active && link.wrapped
    requires link.wrapped || !s.client.active
    ensures var r := RunSteps(link, cfg, s, steps); r.Ended? && r.exit.Failover? ==> Clean(link, r.state.client)
    decreases steps
  {
    hide Advance, Clean, Faithful;
    if steps != [] {
      FailoverStep(link, cfg, s, steps[0]);
      var r := Advance(link, cfg, s, steps[0]);
      if r.Running? {
        StepEvolves(link, cfg, s, steps[0]);
        if !link.wrapped {
          StaysInactive(link, cfg, s, steps[0]);
        }
        FailoverIsClean(link, cfg, r.state, steps[1..]);
      }
    }
  }

  // ---- conservation --------------------------------------------------------------------------

  /** Lines are held back only until output starts. */
  predicate Ordered(s: State) {
    s.outputStarted ==> s.pending == []
  }

  lemma {:induction false} PendingTextAppend(pending: seq<string>, text: string)
    ensures PendingText(pending + [text]) == PendingText(pending) + LineText(text)
    decreases pending
  {
    hide LineText;
    if pending == [] {
      assert pending + [text] == [text] && [text][1..] == [];
    } else {
      assert (pending + [text])[1..] == pending[1..] + [text];
      PendingTextAppend(pending[1..], text);
      Regroup(LineText(pending[0]), PendingText(pending[1..]), LineText(text));
    }
  }

  lemma LineIsUpstream(text: string)
    ensures UpstreamOf(LineText(text)) == LineText(text)
  {
    UpstreamOfTag(FromUpstream, text);
    UpstreamOfTag(FromUpstream, "\n");
    UpstreamOfConcat(Tag(FromUpstream, text), Tag(FromUpstream, "\n"));
  }

  lemma {:induction false} PutLinesConserves(link: Link, c: Client, lines: seq<string>)
    ensures var r := PutLines(link, c, lines);
            !r.disconnected ==> !c.disconnected && UpstreamSent(r) == UpstreamSent(c) + PendingText(lines)
    decreases lines
  {
    hide Put, UpstreamSent, LineText, UpstreamOf;
    if lines != [] {
      var next := Put(link, c, LineText(lines[0]));
      LineIsUpstream(lines[0]);
      PutLinesConserves(link, next, lines[1..]);
      Regroup(UpstreamSent(c), LineText(lines[0]), PendingText(lines[1..]));
    }
  }

  lemma EmitConserves(link: Link, s: State, text: string, opens: bool)
    requires Ordered(s)
    ensures var r := Emit(link, s, text, opens);
            && Ordered(r)
            && (Connected(r) ==>
                  && Underway(r) == Underway(s) + LineText(text)
                  && r.outputStarted == (s.outputStarted || opens))
  {
    hide Put, PutLines, UpstreamSent, LineText, UpstreamOf;
    if Connected(s) {
      if !s.outputStarted && !opens {
        PendingTextAppend(s.pending, text);
        Regroup(UpstreamSent(s.client), PendingText(s.pending), LineText(text));
      } else {
        var w := if s.outputStarted then s else WritePending(link, s);
        PutLinesConserves(link, s.client, s.pending);
        if Connected(w) {
          LineIsUpstream(text);
          assert w.pending == [] && PendingText([]) == [];
          assert UpstreamSent(w.client) == Underway(s);
        }
      }
    }
  }

  lemma FramesConserve(link: Link, cfg: Config, s: State)
    ensures UpstreamSent(SafePlaceholder(link, cfg, s).client) == UpstreamSent(s.client)
    ensures UpstreamSent(TimeoutPlaceholder(link, cfg, s).client) == UpstreamSent(s.client)
    ensures UpstreamSent(DrainTimeout(link, cfg, s).client) == UpstreamSent(s.client)
    ensures UpstreamSent(BootstrapComment(link, cfg, s).client) == UpstreamSent(s.client)
  {
    hide PutFrame, UpstreamSent, PendingText, Advances, Visible;
  }

  lemma EndEventConserves(link: Link, cfg: Config, s: State)
    ensures UpstreamSent(EndEvent(link, cfg, s).client) == UpstreamSent(s.client)
  {
    hide SafePlaceholder, DrainTimeout, Advances, OnlyWrites, PendingText, UpstreamSent;
    var cleared := s.(holders := s.holders.(safePending := false));
    FramesConserve(link, cfg, s);
    FramesConserve(link, cfg, cleared);
    FramesConserve(link, cfg, SafePlaceholder(link, cfg, cleared));
  }

  lemma FailureConserves(link: Link, cfg: Config, s: State)
    ensures var r := SendFailure(link, cfg, s); Connected(r) ==> Underway(r) == Underway(s)
  {
    hide PutLines, Answer, UpstreamSent, Advances;
    PutLinesConserves(link, s.client, s.pending);
    assert PendingText([]) == [];
  }

  predicate Settled(cfg: Config, s: State) {
    Ordered(s) && (!cfg.bootstrap ==> !s.holders.bootstrapPending)
  }

  /** A frame leaves a settled relay settled. */
  lemma FramesSettle(link: Link, cfg: Config, s: State)
    requires LinesDecide(cfg) && Ordered(s)
    ensures Ordered(TimeoutPlaceholder(link, cfg, s))
    ensures Ordered(DrainTimeout(link, cfg, s))
    ensures cfg.bootstrap ==> Ordered(BootstrapComment(link, cfg, s))
    ensures TimeoutPlaceholder(link, cfg, s).holders.bootstrapPending == s.holders.bootstrapPending
    ensures DrainTimeout(link, cfg, s).holders.bootstrapPending == s.holders.bootstrapPending
  {
  }

  lemma EndEventSettles(link: Link, cfg: Config, s: State)
    requires LinesDecide(cfg) && Ordered(s)
    ensures Ordered(EndEvent(link, cfg, s))
    ensures EndEvent(link, cfg, s).holders.bootstrapPending == s.holders.bootstrapPending
  {
    hide PutFrame, Advances, OnlyWrites, DrainTimeout;
    FramesSettle(link, cfg, s);
    FramesSettle(link, cfg, SafePlaceholder(link, cfg, s.(holders := s.holders.(safePending := false))));
  }

  lemma LineConserves(link: Link, cfg: Config, s: State, line: Line)
    requires LinesDecide(cfg) && Settled(cfg, s)
    ensures var r := Process(link, cfg, s, line);
            && (r.Running? ==> Settled(cfg, r.state))
            && (Connected(r.state) ==>
                  && Connected(s)
                  && Underway(r.state) == Underway(s) + (if r.Running? then Rendered(link, s, line) else []))
  {
    if line.Data? {
      DataConserves(link, cfg, s, line.payload);
    } else {
      ControlConserves(link, cfg, s, line);
    }
  }

  lemma DataConserves(link: Link, cfg: Config, s: State, p: Payload)
    requires LinesDecide(cfg) && Settled(cfg, s)
    ensures var r := RelayData(link, cfg, s, p);
            && (r.Running? ==> Settled(cfg, r.state))
            && (Connected(r.state) ==>
                  && Connected(s)
                  && Underway(r.state) == Underway(s) + (if r.Running? then Rendered(link, s, Data(p)) else []))
  {
    hide Emit, Answer, UpstreamSent, PendingText, LineText, Judge, Tally, OpensOutput;
    var t := TypeOf(s.name, p);
    var q := Sanitize(t, p, Visible(link, s));
    EmitConserves(link, Examine(cfg, s, t, p, q), q.wire, OpensOutput(cfg, t, p));
  }

  lemma ControlConserves(link: Link, cfg: Config, s: State, line: Line)
    requires LinesDecide(cfg) && Settled(cfg, s) && !line.Data?
    ensures var r := RelayControl(link, cfg, s, line);
            && Settled(cfg, r)
            && (Connected(r) ==> Connected(s) && Underway(r) == Underway(s) + Rendered(link, s, line))
  {
    hide Emit, EndEvent, UpstreamSent, PendingText, LineText;
    var named := s.(name := NextName(s.name, line));
    var text := ControlText(line);
    if text.Some? {
      EmitConserves(link, named, text.value, false);
      var w := Emit(link, named, text.value, false);
      EndEventSettles(link, cfg, w);
      EndEventConserves(link, cfg, w);
    }
  }

  function KeptAlong(link: Link, cfg: Config, s: State, steps: seq<Step>): Text
    decreases steps
  {
    if steps == [] then []
    else
      match Advance(link, cfg, s, steps[0])
      case Ended(_, _) => []
      case Running(next) =>
        (if steps[0].Upstream? then Rendered(link, s, steps[0].line) else [])
        + KeptAlong(link, cfg, next, steps[1..])
  }

  ghost predicate Conserves(cfg: Config, s: State, r: Run, kept: Text) {
    && (r.Running? ==> Settled(cfg, r.state))
    && (Connected(r.state) ==> Connected(s) && Underway(r.state) == Underway(s) + kept)
  }

  lemma UpstreamStepConserves(link: Link, cfg: Config, s: State, line: Line)
    requires LinesDecide(cfg) && Settled(cfg, s)
    ensures var r := Advance(link, cfg, s, Upstream(line));
            Conserves(cfg, s, r, if r.Running? then Rendered(link, s, line) else [])
  {
    hide Process, BootstrapComment, DrainTimeout, Rendered, UpstreamSent, PendingText, Visible;
    LineConserves(link, cfg, s, line);
    var p := Process(link, cfg, s, line).state;
    var b := if s.holders.bootstrapPending then WithBootstrap(link, BootstrapComment(link, cfg, p)) else p;
    FramesConserve(link, cfg, p);
    FramesConserve(link, cfg, b);
    if Process(link, cfg, s, line).Running? {
      FramesSettle(link, cfg, p);
      FramesSettle(link, cfg, b);
    }
  }

  lemma StepConserves(link: Link, cfg: Config, s: State, step: Step)
    requires LinesDecide(cfg) && Settled(cfg, s)
    ensures var r := Advance(link, cfg, s, step);
            Conserves(cfg, s, r, if step.Upstream? && r.Running? then Rendered(link, s, step.line) else [])
  {
    hide Process, SendFailure, PutFrame, BootstrapComment, TimeoutPlaceholder, DrainTimeout, Rendered, UpstreamSent,
         PendingText, Visible;
    if step.Upstream? {
      UpstreamStepConserves(link, cfg, s, step.line);
    } else {
      FramesConserve(link, cfg, s);
      FramesSettle(link, cfg, s);
      FailureConserves(link, cfg, s);
    }
  }

  /** While the client is connected, what it received followed by the lines held back is exactly
      what was received before and every kept line since. */
  lemma {:induction false} RunConserves(link: Link, cfg: Config, s: State, steps: seq<Step>)
    requires LinesDecide(cfg) && Settled(cfg, s)
    ensures var r := RunSteps(link, cfg, s, steps);
            && (r.Running? ==> Settled(cfg, r.state))
            && (Connected(r.state) ==>
                  Connected(s) && Underway(r.state) == Underway(s) + KeptAlong(link, cfg, s, steps))
    decreases steps
  {
    hide Advance, Underway, Rendered;
    if steps != [] {
      StepConserves(link, cfg, s, steps[0]);
      var r := Advance(link, cfg, s, steps[0]);
      if r.Running? {
        RunConserves(link, cfg, r.state, steps[1..]);
        if Connected(RunSteps(link, cfg, s, steps).state) {
          Regroup(Underway(s), if steps[0].Upstream? then Rendered(link, s, steps[0].line) else [],
                  KeptAlong(link, cfg, r.state, steps[1..]));
        }
      }
    }
  }

  /** Held-back lines keep their place in every run of a fresh relay. */
  ghost predicate Conserving(cfg: Config) {
    forall link: Link, client: Client, preflushed: bool, placeholderSent: bool, steps: seq<Step>
        {:trigger RunSteps(link, cfg, Start(client, cfg, preflushed, placeholderSent), steps)} ::
      var s := Start(client, cfg, preflushed, placeholderSent);
      var r := RunSteps(link, cfg, s, steps);
      Connected(r.state) ==> Underway(r.state) == Underway(s) + KeptAlong(link, cfg, s, steps)
  }

  /** Without coordination the delayed bootstrap comment counts as output although lines are
      still held back: later lines overtake them. */
  lemma BootstrapReorders(cfg: Config) returns (link: Link, client: Client, steps: seq<Step>)
    requires !cfg.gatewayOnly && cfg.bootstrap && Coherent(cfg)
    ensures var s := Start(client, cfg, false, false);
            var r := RunSteps(link, cfg, s, steps);
            Connected(r.state) && Underway(r.state) != Underway(s) + KeptAlong(link, cfg, s, steps)
  {
    hide Advance, UpstreamOf, Received;
    link := Link(true, false, n => Delivered, n => FrameSent, payload => false, n => false);
    client := Client([], false, false, false, false, 0, 0);
    steps := [Upstream(Blank), BootstrapTimer, Upstream(Comment)];
    var s := Start(client, cfg, false, false);
    var s1 := HoldBlank(link, cfg, s);
    var s2 := CommentTooEarly(link, cfg, s1);
    var s3 := Overtake(link, cfg, s2);
    assert steps[1..] == [BootstrapTimer, Upstream(Comment)];
    assert steps[1..][1..] == [Upstream(Comment)];
    assert steps[1..][1..][1..] == [];
    assert KeptAlong(link, cfg, s, steps) == LineText("") + ([] + (LineText(":") + []));
    assert PendingText([""]) == LineText("") by { assert [""][1..] == []; }
    NothingSent(client);
    assert Underway(s3)[0] == Byte(FromUpstream, ':');
    assert (LineText("") + LineText(":"))[0] == Byte(FromUpstream, '\n');
  }

  lemma NothingSent(c: Client)
    requires c.sent == []
    ensures UpstreamSent(c) == []
  {
  }

  lemma HoldBlank(link: Link, cfg: Config, s: State) returns (r: State)
    requires Coherent(cfg) && !cfg.gatewayOnly && Connected(s) && !s.outputStarted && s.pending == []
    requires s.holders == Placeholders(false, false, false, false, false, false) && s.name.NoType?
    ensures r == s.(pending := [""]) && Advance(link, cfg, s, Upstream(Blank)) == Running(r)
    ensures Rendered(link, s, Blank) == LineText("")
  {
    hide PutFrame, Advances, OnlyWrites;
    r := s.(pending := [""]);
  }

  lemma CommentTooEarly(link: Link, cfg: Config, s: State) returns (r: State)
    requires Coherent(cfg) && !cfg.gatewayOnly && cfg.bootstrap && Connected(s) && !Visible(link, s) && AtBoundary(s)
    requires link.frame(s.client.frames).FrameSent? && !s.client.active
    ensures Advance(link, cfg, s, BootstrapTimer) == Running(r)
    ensures r.outputStarted && r.pending == s.pending && Connected(r)
            && UpstreamSent(r.client) == UpstreamSent(s.client)
    ensures r.holders == s.holders.(bootstrapPending := false) && r.name == s.name && r.client.writes == s.client.writes
  {
    hide Advances, OnlyWrites, UpstreamOf, Received;
    r := Advance(link, cfg, s, BootstrapTimer).state;
  }

  lemma Overtake(link: Link, cfg: Config, s: State) returns (r: State)
    requires Connected(s) && s.outputStarted && !s.holders.bootstrapPending && !s.holders.timeoutPending
    requires link.write(s.client.writes).Delivered?
    ensures Advance(link, cfg, s, Upstream(Comment)) == Running(r)
    ensures Connected(r) && r.pending == s.pending && UpstreamSent(r.client) == UpstreamSent(s.client) + LineText(":")
    ensures Rendered(link, s, Comment) == LineText(":")
  {
    hide Advances, OnlyWrites, UpstreamOf, Received;
    LineIsUpstream(":");
    r := Advance(link, cfg, s, Upstream(Comment)).state;
  }

  /** Held-back lines keep their place in every run exactly when the coordinator is keeping score
      or there is no delayed bootstrap comment. */
  lemma ConservingExactly(cfg: Config)
    requires Coherent(cfg)
    ensures Conserving(cfg) <==> cfg.gatewayOnly || !cfg.bootstrap
  {
    if cfg.gatewayOnly || !cfg.bootstrap {
      forall link: Link, client: Client, preflushed: bool, placeholderSent: bool, steps: seq<Step>
        ensures var s := Start(client, cfg, preflushed, placeholderSent);
                var r := RunSteps(link, cfg, s, steps);
                Connected(r.state) ==> Underway(r.state) == Underway(s) + KeptAlong(link, cfg, s, steps)
      {
        RunConserves(link, cfg, Start(client, cfg, preflushed, placeholderSent), steps);
      }
    } else {
      var link, client, steps := BootstrapReorders(cfg);
    }
  }

  // ---- what passes ------------------------------------------------------------------------------------------

  lemma RenderedIsPermitted(link: Link, s: State, line: Line)
    ensures Permitted(s.name, line, Rendered(link, s, line))
  {
    hide LineText, Visible;
  }

  /** No error body of the upstream passes: what a run relays is each line itself, in order, with a safe text
      in the place of every error. */
  lemma {:induction false} NoErrorPasses(link: Link, cfg: Config, s: State, steps: seq<Step>)
    requires RunSteps(link, cfg, s, steps).Running?
    ensures Permits(s.name, LinesOf(steps), KeptAlong(link, cfg, s, steps))
    decreases steps
  {
    hide Advance, Rendered, Permitted, Permits;
    if steps == [] {
      assert Permits(s.name, [], []) by { NothingPermitted(s.name); }
    } else {
      var next := Advance(link, cfg, s, steps[0]).state;
      StepDecides(link, cfg, s, steps[0]);
      NoErrorPasses(link, cfg, next, steps[1..]);
      assert [steps[0]][1..] == [] && LinesOf([]) == [];
      if steps[0].Upstream? {
        var line := steps[0].line;
        assert NameAfter(s.name, [line]) == NextName(s.name, line) by { assert [line][1..] == []; }
        RenderedIsPermitted(link, s, line);
        PermitsOneMore(s.name, line, Rendered(link, s, line), LinesOf(steps[1..]),
                       KeptAlong(link, cfg, next, steps[1..]));
      } else {
        assert LinesOf(steps) == LinesOf(steps[1..]);
        assert KeptAlong(link, cfg, s, steps) == KeptAlong(link, cfg, next, steps[1..]);
      }
    }
  }

  // ---- delivery ------------------------------------------------------------------------------

  /** Some line of the sequence opens the client's output. */
  predicate AnyOpens(cfg: Config, name: EventType, lines: seq<Line>)
    decreases lines
  {
    lines != []
    && ((lines[0].Data? && OpensOutput(cfg, TypeOf(name, lines[0].payload), lines[0].payload))
        || AnyOpens(cfg, NextName(name, lines[0]), lines[1..]))
  }

  lemma LineOpens(link: Link, cfg: Config, s: State, line: Line)
    requires Coherent(cfg) && Ordered(s)
    ensures var r := Process(link, cfg, s, line);
            r.Running? && Connected(r.state) ==>
              && Connected(s)
              && r.state.outputStarted
                 == (s.outputStarted || (line.Data? && OpensOutput(cfg, TypeOf(s.name, line.payload), line.payload)))
  {
  }

  lemma StepOpens(link: Link, cfg: Config, s: State, step: Step)
    requires LinesDecide(cfg) && Settled(cfg, s)
    ensures var r := Advance(link, cfg, s, step);
            r.Running? && Connected(r.state) ==>
              Connected(s) && r.state.outputStarted == (s.outputStarted || AnyOpens(cfg, s.name, LinesOf([step])))
  {
    hide Process, BootstrapComment, TimeoutPlaceholder, DrainTimeout, PutFrame, SendFailure, OpensOutput, Visible,
         Faithful;
    assert [step][1..] == [] && LinesOf([]) == [];
    if step.Upstream? {
      assert LinesOf([step]) == [step.line] && LinesOf([step])[1..] == [];
      LineOpens(link, cfg, s, step.line);
    }
  }

  lemma {:induction false} RunOpens(link: Link, cfg: Config, s: State, steps: seq<Step>)
    requires LinesDecide(cfg) && Settled(cfg, s)
    ensures var r := RunSteps(link, cfg, s, steps);
            r.Running? && Connected(r.state) ==>
              r.state.outputStarted == (s.outputStarted || AnyOpens(cfg, s.name, LinesOf(steps)))
    decreases steps
  {
    hide Advance, OpensOutput;
    if steps != [] && RunSteps(link, cfg, s, steps).Running? && Connected(RunSteps(link, cfg, s, steps).state) {
      var next := Advance(link, cfg, s, steps[0]).state;
      StepConserves(link, cfg, s, steps[0]);
      RunConserves(link, cfg, next, steps[1..]);
      StepOpens(link, cfg, s, steps[0]);
      StepDecides(link, cfg, s, steps[0]);
      RunOpens(link, cfg, next, steps[1..]);
      assert [steps[0]][1..] == [] && LinesOf([]) == [];
      if steps[0].Upstream? {
        assert LinesOf(steps)[1..] == LinesOf(steps[1..]);
        assert LinesOf([steps[0]]) == [steps[0].line] && LinesOf([steps[0]])[1..] == [];
      } else {
        assert LinesOf(steps) == LinesOf(steps[1..]);
      }
    }
  }

  lemma PendingTextIsEmptyExactly(pending: seq<string>)
    ensures PendingText(pending) == [] <==> pending == []
  {
  }

  /** A run that finishes with the stream, its client still connected, has delivered every kept line
      exactly when output had started before the first line or one of the lines opened it: a response
      without such a line stays in the list of held-back lines and is reported as a success. */
  lemma FinishedDeliversExactly(
      link: Link, cfg: Config, client: Client, preflushed: bool, placeholderSent: bool, steps: seq<Step>, alive: bool)
    requires LinesDecide(cfg)
    requires var s := Start(client, cfg, preflushed, placeholderSent);
             && RunSteps(link, cfg, s, steps).Running?
             && RunSteps(link, cfg, s, steps + [EndOfStream(alive)]).Ended?
             && RunSteps(link, cfg, s, steps + [EndOfStream(alive)]).exit.Finished?
             && Connected(RunSteps(link, cfg, s, steps + [EndOfStream(alive)]).state)
    ensures var s := Start(client, cfg, preflushed, placeholderSent);
            var r := RunSteps(link, cfg, s, steps + [EndOfStream(alive)]);
            UpstreamSent(r.state.client) == UpstreamSent(client) + KeptAlong(link, cfg, s, steps)
            <==> s.outputStarted || AnyOpens(cfg, NoType, LinesOf(steps)) || KeptAlong(link, cfg, s, steps) == []
  {
    hide Advance, RunSteps, UpstreamSent, AnyOpens, KeptAlong, PendingText;
    var s := Start(client, cfg, preflushed, placeholderSent);
    var mid := RunSteps(link, cfg, s, steps).state;
    RunThenEnd(link, cfg, s, steps, EndOfStream(alive));
    EndChangesNothing(link, cfg, mid, alive);
    RunConserves(link, cfg, s, steps);
    RunOpens(link, cfg, s, steps);
    PendingTextIsEmptyExactly(mid.pending);
    assert PendingText([]) == [] by { PendingTextIsEmptyExactly([]); }
    assert UpstreamSent(mid.client) + PendingText(mid.pending)
           == UpstreamSent(client) + KeptAlong(link, cfg, s, steps);
    if !mid.outputStarted {
      RunHoldsBack(link, cfg, s, steps);
    }
  }

  lemma EndChangesNothing(link: Link, cfg: Config, s: State, alive: bool)
    ensures var r := Advance(link, cfg, s, EndOfStream(alive));
            r.Ended? && (r.exit.Finished? ==> r.state == s)
  {
  }

  /** Until output starts nothing of the upstream is written. */
  lemma {:induction false} RunHoldsBack(link: Link, cfg: Config, s: State, steps: seq<Step>)
    requires LinesDecide(cfg) && Settled(cfg, s)
    requires RunSteps(link, cfg, s, steps).Running? && Connected(RunSteps(link, cfg, s, steps).state)
    requires !RunSteps(link, cfg, s, steps).state.outputStarted
    ensures UpstreamSent(RunSteps(link, cfg, s, steps).state.client) == UpstreamSent(s.client)
    decreases steps
  {
    hide Advance, UpstreamSent, AnyOpens;
    if steps != [] {
      var next := Advance(link, cfg, s, steps[0]).state;
      StepConserves(link, cfg, s, steps[0]);
      RunConserves(link, cfg, next, steps[1..]);
      RunOpens(link, cfg, next, steps[1..]);
      StepHoldsBack(link, cfg, s, steps[0]);
      RunHoldsBack(link, cfg, next, steps[1..]);
    }
  }

  lemma EmitHoldsBack(link: Link, s: State, text: string, opens: bool)
    ensures var r := Emit(link, s, text, opens); Connected(r) && !r.outputStarted ==> r.client == s.client
  {
  }

  lemma LineHoldsBack(link: Link, cfg: Config, s: State, line: Line)
    requires Coherent(cfg)
    ensures var r := Process(link, cfg, s, line);
            r.Running? && Connected(r.state) && !r.state.outputStarted ==>
              UpstreamSent(r.state.client) == UpstreamSent(s.client)
  {
    hide Emit, EndEvent, Answer, UpstreamSent, Judge, Tally, OpensOutput, Visible, Sanitize, Faithful;
    if line.Data? {
      var t := TypeOf(s.name, line.payload);
      var q := Sanitize(t, line.payload, Visible(link, s));
      EmitHoldsBack(link, Examine(cfg, s, t, line.payload, q), q.wire, OpensOutput(cfg, t, line.payload));
    } else if ControlText(line).Some? {
      var named := s.(name := NextName(s.name, line));
      EmitHoldsBack(link, named, ControlText(line).value, false);
      EndEventConserves(link, cfg, Emit(link, named, ControlText(line).value, false));
    }
  }

  lemma StepHoldsBack(link: Link, cfg: Config, s: State, step: Step)
    requires LinesDecide(cfg) && Settled(cfg, s)
    requires Advance(link, cfg, s, step).Running? && Connected(Advance(link, cfg, s, step).state)
    requires !Advance(link, cfg, s, step).state.outputStarted
    ensures UpstreamSent(Advance(link, cfg, s, step).state.client) == UpstreamSent(s.client)
  {
    hide Process, SendFailure, PutFrame, BootstrapComment, TimeoutPlaceholder, DrainTimeout, UpstreamSent, Visible;
    if step.Upstream? {
      LineHoldsBack(link, cfg, s, step.line);
      var p := Process(link, cfg, s, step.line).state;
      FramesConserve(link, cfg, p);
      var b := if s.holders.bootstrapPending then WithBootstrap(link, BootstrapComment(link, cfg, p)) else p;
      FramesConserve(link, cfg, b);
    } else {
      FramesConserve(link, cfg, s);
    }
  }
}
