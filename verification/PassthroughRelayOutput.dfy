/** Which lines of a passthrough relay go out, and which of them the coordinator has seen. */
module PassthroughRelayOutput {
  import opened StreamEvents
  import opened Downstream
  import opened GatewayFrames
  import opened Relays
  import opened PassthroughRelay
  import opened PassthroughRelayProofs

  // ---- opened output is committed ------------------------------------------------------------------

  /** Under the coordinator's eyes, output that has started is committed. */
  predicate OpenIsCommitted(s: State) {
    s.outputStarted ==> s.client.committed
  }

  lemma LineCommits(link: Link, c: Client, w: string)
    requires link.wrapped && IsWire(w) && !IsPlaceholder(link.placeholder, w)
    ensures var r := Put(link, c, LineText(w)); !r.disconnected ==> r.committed
  {
    hide ReadsAsGateway, IsPlaceholder, Advances, UpstreamOf, Received;
    assert Plain(LineText(w)) == w + "\n";
    DataLineReads(link.placeholder, w);
  }

  lemma EmitCommits(link: Link, s: State, w: string, opens: bool)
    requires link.wrapped && OpenIsCommitted(s)
    requires opens ==> IsWire(w) && !IsPlaceholder(link.placeholder, w)
    ensures OpenIsCommitted(Emit(link, s, w, opens))
  {
    hide Put, PutLines, Faithful, IsPlaceholder, IsWire;
    if opens {
      LineCommits(link, s.client, w);
      LineCommits(link, WritePending(link, s).client, w);
    }
  }

  /** A line that opens coordinated output is not a placeholder, as it is relayed. */
  lemma OpeningWire(cfg: Config, ph: Placeholder, t: EventType, p: Payload, started: bool)
    requires cfg.gatewayOnly && Shaped(ph, Data(p)) && OpensOutput(cfg, t, p)
    ensures IsWire(Sanitize(t, p, started).wire) && !IsPlaceholder(ph, Sanitize(t, p, started).wire)
  {
    hide IsWire, IsPlaceholder;
  }

  lemma ProcessCommits(link: Link, cfg: Config, s: State, line: Line)
    requires link.wrapped && cfg.gatewayOnly && OpenIsCommitted(s) && Shaped(link.placeholder, line)
    ensures var r := Process(link, cfg, s, line); r.Running? ==> OpenIsCommitted(r.state)
  {
    hide Emit, EndEvent, Answer, Judge, Tally, OpensOutput, Visible, Sanitize, Faithful, Shaped, IsWire, IsPlaceholder;
    if line.Data? {
      var t := TypeOf(s.name, line.payload);
      var q := Sanitize(t, line.payload, Visible(link, s));
      if OpensOutput(cfg, t, line.payload) {
        OpeningWire(cfg, link.placeholder, t, line.payload, Visible(link, s));
      }
      EmitCommits(link, Examine(cfg, s, t, line.payload, q), q.wire, OpensOutput(cfg, t, line.payload));
    } else if ControlText(line).Some? {
      EmitCommits(link, s.(name := NextName(s.name, line)), ControlText(line).value, false);
    }
  }

  lemma StepCommits(link: Link, cfg: Config, s: State, step: Step)
    requires link.wrapped && cfg.gatewayOnly && OpenIsCommitted(s)
    requires step.Upstream? ==> Shaped(link.placeholder, step.line)
    ensures var r := Advance(link, cfg, s, step); r.Running? ==> OpenIsCommitted(r.state)
  {
    hide Process, BootstrapComment, TimeoutPlaceholder, DrainTimeout, PutFrame, SendFailure, Visible, Faithful, Shaped;
    if step.Upstream? {
      ProcessCommits(link, cfg, s, step.line);
    }
  }

  lemma {:induction false} RunCommits(link: Link, cfg: Config, s: State, steps: seq<Step>)
    requires link.wrapped && cfg.gatewayOnly && OpenIsCommitted(s) && AllShaped(link.placeholder, LinesOf(steps))
    ensures var r := RunSteps(link, cfg, s, steps); r.Running? ==> OpenIsCommitted(r.state)
    decreases steps
  {
    hide Advance, Shaped;
    if steps != [] {
      if steps[0].Upstream? {
        assert LinesOf(steps)[0] == steps[0].line && LinesOf(steps)[1..] == LinesOf(steps[1..]);
        assert AllShaped(link.placeholder, LinesOf(steps[1..])) by {
          assert forall i | 0 <= i < |LinesOf(steps[1..])| :: LinesOf(steps[1..])[i] == LinesOf(steps)[i + 1];
        }
      } else {
        assert LinesOf(steps) == LinesOf(steps[1..]);
      }
      StepCommits(link, cfg, s, steps[0]);
      if Advance(link, cfg, s, steps[0]).Running? {
        RunCommits(link, cfg, Advance(link, cfg, s, steps[0]).state, steps[1..]);
      }
    }
  }

  // ---- which lines go out ------------------------------------------------------------------------------

  /** Some line goes out: one that opens the output, or any kept line after output has started. */
  predicate Exposes(cfg: Config, started: bool, name: EventType, lines: seq<Line>)
    decreases lines
  {
    lines != []
    && (|| (started && !lines[0].Dropped?)
        || (lines[0].Data? && OpensOutput(cfg, TypeOf(name, lines[0].payload), lines[0].payload))
        || Exposes(cfg, started, NextName(name, lines[0]), lines[1..]))
  }

  lemma QuietLine(link: Link, cfg: Config, s: State, line: Line)
    requires Coherent(cfg) && (s.outputStarted ==> line.Dropped?)
    requires line.Data? ==> !OpensOutput(cfg, TypeOf(s.name, line.payload), line.payload)
    ensures var r := Process(link, cfg, s, line);
            r.Running? ==>
              r.state.outputStarted == s.outputStarted && UpstreamSent(r.state.client) == UpstreamSent(s.client)
  {
    hide EndEvent, Answer, UpstreamSent, Judge, Tally, OpensOutput, Visible, Sanitize, Faithful, Put, PutLines;
    if !line.Data? && ControlText(line).Some? {
      EndEventConserves(link, cfg, Emit(link, s.(name := NextName(s.name, line)), ControlText(line).value, false));
    }
  }

  lemma QuietStep(link: Link, cfg: Config, s: State, step: Step)
    requires LinesDecide(cfg) && Settled(cfg, s) && !Exposes(cfg, s.outputStarted, s.name, LinesOf([step]))
    ensures var r := Advance(link, cfg, s, step);
            r.Running? ==>
              r.state.outputStarted == s.outputStarted && UpstreamSent(r.state.client) == UpstreamSent(s.client)
  {
    hide Process, SendFailure, PutFrame, BootstrapComment, TimeoutPlaceholder, DrainTimeout, UpstreamSent, Visible,
         OpensOutput;
    assert [step][1..] == [] && LinesOf([]) == [];
    if step.Upstream? {
      assert LinesOf([step]) == [step.line] && LinesOf([step])[0] == step.line;
      QuietLine(link, cfg, s, step.line);
      var p := Process(link, cfg, s, step.line).state;
      var b := if s.holders.bootstrapPending then WithBootstrap(link, BootstrapComment(link, cfg, p)) else p;
      FramesConserve(link, cfg, p);
      FramesConserve(link, cfg, b);
    } else {
      FramesConserve(link, cfg, s);
    }
  }

  lemma ExposesShift(cfg: Config, started: bool, name: EventType, steps: seq<Step>)
    requires steps != []
    ensures Exposes(cfg, started, name, LinesOf(steps))
            <==> || Exposes(cfg, started, name, LinesOf([steps[0]]))
                 || Exposes(cfg, started, NameAfter(name, LinesOf([steps[0]])), LinesOf(steps[1..]))
  {
    hide OpensOutput;
    assert [steps[0]][1..] == [] && LinesOf([]) == [];
    if steps[0].Upstream? {
      var one, next := LinesOf([steps[0]]), NextName(name, steps[0].line);
      assert one == [steps[0].line] && one[1..] == [];
      assert NameAfter(name, one) == next && !Exposes(cfg, started, next, one[1..]);
      assert LinesOf(steps)[1..] == LinesOf(steps[1..]) && LinesOf(steps)[0] == steps[0].line;
    } else {
      assert LinesOf(steps) == LinesOf(steps[1..]) && LinesOf([steps[0]]) == [];
    }
  }

  /** While no line goes out, no client receives anything of the upstream, also when its connection breaks. */
  lemma {:induction false} UnexposedIsFree(link: Link, cfg: Config, s: State, steps: seq<Step>)
    requires LinesDecide(cfg) && Settled(cfg, s) && !Exposes(cfg, s.outputStarted, s.name, LinesOf(steps))
    requires RunSteps(link, cfg, s, steps).Running?
    ensures UpstreamSent(RunSteps(link, cfg, s, steps).state.client) == UpstreamSent(s.client)
    decreases steps
  {
    hide Advance, UpstreamSent, Exposes;
    if steps != [] {
      ExposesShift(cfg, s.outputStarted, s.name, steps);
      QuietStep(link, cfg, s, steps[0]);
      StepConserves(link, cfg, s, steps[0]);
      StepDecides(link, cfg, s, steps[0]);
      UnexposedIsFree(link, cfg, Advance(link, cfg, s, steps[0]).state, steps[1..]);
    }
  }

  lemma {:induction false} ExposedIsOpen(cfg: Config, started: bool, name: EventType, lines: seq<Line>)
    requires Exposes(cfg, started, name, lines)
    ensures started || AnyOpens(cfg, name, lines)
    decreases lines
  {
    hide OpensOutput;
    if Exposes(cfg, started, NextName(name, lines[0]), lines[1..]) {
      ExposedIsOpen(cfg, started, NextName(name, lines[0]), lines[1..]);
    }
  }

  lemma {:induction false} ExposedIsKept(link: Link, cfg: Config, s: State, steps: seq<Step>, started: bool)
    requires RunSteps(link, cfg, s, steps).Running? && Exposes(cfg, started, s.name, LinesOf(steps))
    ensures KeptAlong(link, cfg, s, steps) != []
    decreases steps
  {
    hide Advance, OpensOutput, Visible;
    StepDecides(link, cfg, s, steps[0]);
    ExposesShift(cfg, started, s.name, steps);
    assert [steps[0]][1..] == [] && LinesOf([]) == [];
    if steps[0].Upstream? && !steps[0].line.Dropped? {
      assert |Rendered(link, s, steps[0].line)| > 0;
    } else {
      ExposedIsKept(link, cfg, Advance(link, cfg, s, steps[0]).state, steps[1..], started);
    }
  }

  // ---- failover ----------------------------------------------------------------------------------------

  lemma FailoverWritesNothing(link: Link, cfg: Config, s: State, last: Step)
    ensures var r := Advance(link, cfg, s, last);
            r.Ended? && r.exit.Failover? ==>
              r.state.client == s.client && (s.client.active && Coherent(cfg) ==> !s.client.committed)
  {
    hide Emit, RelayControl, SendFailure, PutFrame, BootstrapComment, TimeoutPlaceholder, DrainTimeout, Answer,
         Faithful, Judge, Tally, Sanitize;
  }

  /** When a run ends in transparent failover: if no line went out, the client has received nothing of the
      upstream; a client that is still there has received nothing exactly then; and when the coordinator
      keeps score and observes the writer, that client never has. */
  lemma FailoverByExposure(
      link: Link, cfg: Config, client: Client, preflushed: bool, placeholderSent: bool, steps: seq<Step>, last: Step)
    requires LinesDecide(cfg)
    requires var s := Start(client, cfg, preflushed, placeholderSent);
             && RunSteps(link, cfg, s, steps).Running?
             && RunSteps(link, cfg, s, steps + [last]).Ended?
             && RunSteps(link, cfg, s, steps + [last]).exit.Failover?
    ensures var s := Start(client, cfg, preflushed, placeholderSent);
            var r := RunSteps(link, cfg, s, steps + [last]).state;
            var exposed := Exposes(cfg, s.outputStarted, NoType, LinesOf(steps));
            && (!exposed ==> UpstreamSent(r.client) == UpstreamSent(client))
            && (Connected(r) ==> (UpstreamSent(r.client) == UpstreamSent(client) <==> !exposed))
            && (Connected(r) && cfg.gatewayOnly && client.active && link.wrapped
                && AllShaped(link.placeholder, LinesOf(steps)) ==>
                  UpstreamSent(r.client) == UpstreamSent(client))
  {
    hide RunSteps, Advance, UpstreamSent, Exposes, AnyOpens, KeptAlong, PendingText, AllShaped;
    var s := Start(client, cfg, preflushed, placeholderSent);
    var mid := RunSteps(link, cfg, s, steps).state;
    RunThenEnd(link, cfg, s, steps, last);
    FailoverWritesNothing(link, cfg, mid, last);
    if !Exposes(cfg, s.outputStarted, NoType, LinesOf(steps)) {
      UnexposedIsFree(link, cfg, s, steps);
    } else if Connected(mid) {
      RunConserves(link, cfg, s, steps);
      RunOpens(link, cfg, s, steps);
      ExposedIsOpen(cfg, s.outputStarted, NoType, LinesOf(steps));
      ExposedIsKept(link, cfg, s, steps, s.outputStarted);
      assert PendingText([]) == [] by { PendingTextIsEmptyExactly([]); }
      assert UpstreamSent(mid.client) + [] == UpstreamSent(client) + [] + KeptAlong(link, cfg, s, steps);
      StaysActive(link, cfg, s, steps);
      if cfg.gatewayOnly && link.wrapped && AllShaped(link.placeholder, LinesOf(steps)) {
        RunCommits(link, cfg, s, steps);
      }
    }
  }

  lemma {:induction false} StaysActive(link: Link, cfg: Config, s: State, steps: seq<Step>)
    ensures s.client.active ==> RunSteps(link, cfg, s, steps).state.client.active
    decreases steps
  {
    hide Advance;
    if steps != [] {
      StepEvolves(link, cfg, s, steps[0]);
      if Advance(link, cfg, s, steps[0]).Running? {
        StaysActive(link, cfg, Advance(link, cfg, s, steps[0]).state, steps[1..]);
      }
    }
  }
}
