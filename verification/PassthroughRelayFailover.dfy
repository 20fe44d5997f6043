/** Transparent failover of the passthrough relay: what of the upstream the client can have then, and which
    configurations and upstreams rule it out. */
module PassthroughRelayFailover {
  import opened StreamEvents
  import opened Downstream
  import opened GatewayFrames
  import opened Strings
  import opened Relays
  import opened RelayExamples
  import opened PassthroughRelay
  import opened PassthroughRelayProofs
  import opened PassthroughRelayOutput

  // ---- without coordination ------------------------------------------------------------------------------

  predicate Harmless(ph: Placeholder, w: string) {
    OneLine(w) && !IsPlaceholder(ph, w)
  }

  ghost predicate AllHarmless(ph: Placeholder, lines: seq<string>) {
    forall i | 0 <= i < |lines| :: Harmless(ph, lines[i])
  }

  /** The coordinator is inactive and nothing written or held back could activate it. */
  ghost predicate Unnoticed(link: Link, s: State) {
    Unmarked(link, Pipe(s.client, [])) && AllHarmless(link.placeholder, s.pending)
  }

  lemma PutLineUnmarked(link: Link, c: Client, w: string)
    requires Unmarked(link, Pipe(c, [])) && Harmless(link.placeholder, w)
    ensures Unmarked(link, Pipe(Put(link, c, LineText(w)), []))
  {
    hide Put, Tame, Aligned, Plain, IsPlaceholder, Relayed, Activates, Refuses, ReadsAsGateway, LineText;
    if !c.disconnected {
      var seen := Relayed(c.sent);
      var whole := seen + LineText(w);
      assert Stream(Pipe(c, [])) == seen;
      PlainLine(seen, w);
      TameLine(link.placeholder, Plain(seen), w);
      PutUnmarked(link, c, LineText(w), whole);
      PutObserved(link, c, LineText(w));
      assert whole + [] == whole;
    }
  }

  lemma {:induction false} PutLinesUnmarked(link: Link, c: Client, lines: seq<string>)
    requires Unmarked(link, Pipe(c, [])) && AllHarmless(link.placeholder, lines)
    ensures Unmarked(link, Pipe(PutLines(link, c, lines), []))
    decreases lines
  {
    hide Put, Unmarked, Harmless, LineText;
    if lines != [] {
      PutLineUnmarked(link, c, lines[0]);
      PutLinesUnmarked(link, Put(link, c, LineText(lines[0])), lines[1..]);
    }
  }

  lemma EmitUnnoticed(link: Link, s: State, text: string, opens: bool)
    requires Unnoticed(link, s) && Harmless(link.placeholder, text)
    ensures Unnoticed(link, Emit(link, s, text, opens))
  {
    hide Put, PutLines, Unmarked, Harmless, LineText;
    PutLinesUnmarked(link, s.client, s.pending);
    var w := if s.outputStarted then s else WritePending(link, s);
    PutLineUnmarked(link, w.client, text);
  }

  /** Without coordination the only frame is the bootstrap comment, which the coordinator does not see. */
  lemma FramesUnnoticed(link: Link, cfg: Config, s: State)
    requires Coherent(cfg) && !cfg.gatewayOnly && Unnoticed(link, s)
    ensures Unnoticed(link, TimeoutPlaceholder(link, cfg, s)) && Unnoticed(link, DrainTimeout(link, cfg, s))
    ensures Unnoticed(link, BootstrapComment(link, cfg, s)) && Unnoticed(link, EndEvent(link, cfg, s))
  {
    hide PutFrame, Tame, Aligned, Plain, Relayed, Advances, OnlyWrites, Visible, Harmless;
    PutFrameUnseen(link, s.client, ":\n\n", false);
  }

  lemma DataUnnoticed(link: Link, cfg: Config, s: State, p: Payload)
    requires Unnoticed(link, s) && Shaped(link.placeholder, Data(p)) && !IsPlaceholder(link.placeholder, p.wire)
    ensures var r := RelayData(link, cfg, s, p); r.Running? ==> Unnoticed(link, r.state)
  {
    hide Emit, Unmarked, Answer, Tally, Noted, Judge, Observed, ReadUsage, Visible, Sanitize, IsPlaceholder, Shaped,
         OpensOutput;
    var t := TypeOf(s.name, p);
    var q := Sanitize(t, p, Visible(link, s));
    DataIsNoPlaceholder(link.placeholder, t, p, Visible(link, s));
    EmitUnnoticed(link, Examine(cfg, s, t, p, q), q.wire, OpensOutput(cfg, t, p));
  }

  lemma ControlUnnoticed(link: Link, cfg: Config, s: State, line: Line)
    requires Coherent(cfg) && !cfg.gatewayOnly && Unnoticed(link, s) && !line.Data? && Shaped(link.placeholder, line)
    ensures Unnoticed(link, RelayControl(link, cfg, s, line))
  {
    hide Emit, EndEvent, Unmarked, OnlyWrites, IsPlaceholder, Shaped;
    if ControlText(line).Some? {
      var named := s.(name := NextName(s.name, line));
      ControlIsNoPlaceholder(link.placeholder, line);
      EmitUnnoticed(link, named, ControlText(line).value, false);
      FramesUnnoticed(link, cfg, Emit(link, named, ControlText(line).value, false));
    }
  }

  lemma StepUnnoticed(link: Link, cfg: Config, s: State, step: Step)
    requires Coherent(cfg) && !cfg.gatewayOnly && Unnoticed(link, s)
    requires step.Upstream? ==>
               Shaped(link.placeholder, step.line) && !LooksLikePlaceholder(link.placeholder, step.line)
    ensures var r := Advance(link, cfg, s, step); r.Running? ==> Unnoticed(link, r.state)
  {
    hide RelayData, RelayControl, SendFailure, PutFrame, BootstrapComment, TimeoutPlaceholder, DrainTimeout, Tame,
         Aligned, Plain, Relayed, Visible, IsPlaceholder, Shaped, AllHarmless;
    FramesUnnoticed(link, cfg, s);
    if step.Upstream? {
      if step.line.Data? {
        DataUnnoticed(link, cfg, s, step.line.payload);
      } else {
        ControlUnnoticed(link, cfg, s, step.line);
      }
      var r := Process(link, cfg, s, step.line);
      if r.Running? {
        FramesUnnoticed(link, cfg, r.state);
        FramesUnnoticed(
          link, cfg,
          if s.holders.bootstrapPending then WithBootstrap(link, BootstrapComment(link, cfg, r.state)) else r.state);
      }
    }
  }

  /** While the coordinator is inactive, failover is decided by whether anything was sent. */
  lemma InactiveFailoverStep(link: Link, cfg: Config, s: State, step: Step)
    requires Coherent(cfg) && !cfg.gatewayOnly && Faithful(link, s.client) && !s.client.active
    ensures var r := Advance(link, cfg, s, step);
            r.Ended? && r.exit.Failover? ==> r.state.client == s.client && s.client.sent == []
  {
    hide Emit, RelayControl, SendFailure, PutFrame, BootstrapComment, TimeoutPlaceholder, DrainTimeout, Answer,
         OnlyGatewayFrames, Judge, Tally, Sanitize;
  }

  lemma UnnoticedIsInactive(link: Link, s: State)
    requires Unnoticed(link, s)
    ensures !s.client.active
  {
  }

  lemma LinesShift(ph: Placeholder, steps: seq<Step>)
    requires steps != [] && AllShaped(ph, LinesOf(steps)) && NoPlaceholders(ph, LinesOf(steps))
    ensures steps[0].Upstream? ==> Shaped(ph, steps[0].line) && !LooksLikePlaceholder(ph, steps[0].line)
    ensures AllShaped(ph, LinesOf(steps[1..])) && NoPlaceholders(ph, LinesOf(steps[1..]))
  {
    hide Shaped, LooksLikePlaceholder;
    var all, rest := LinesOf(steps), LinesOf(steps[1..]);
    if steps[0].Upstream? {
      assert all[0] == steps[0].line && forall i | 0 <= i < |rest| :: rest[i] == all[i + 1];
    } else {
      assert all == rest;
    }
  }

  /** Without coordination, and as long as the upstream sends nothing that looks like the gateway's own
      placeholder, a run fails over only when nothing at all was sent. */
  lemma {:induction false} UncoordinatedFailoverIsEmpty(link: Link, cfg: Config, s: State, steps: seq<Step>)
    requires Coherent(cfg) && !cfg.gatewayOnly && Faithful(link, s.client) && Unnoticed(link, s)
    requires AllShaped(link.placeholder, LinesOf(steps)) && NoPlaceholders(link.placeholder, LinesOf(steps))
    ensures var r := RunSteps(link, cfg, s, steps);
            r.Ended? && r.exit.Failover? ==> r.state.client.sent == [] && s.client.sent == []
    decreases steps
  {
    hide Advance, Faithful, Unnoticed, Shaped, LooksLikePlaceholder;
    if steps != [] {
      var r := Advance(link, cfg, s, steps[0]);
      LinesShift(link.placeholder, steps);
      StepEvolves(link, cfg, s, steps[0]);
      UnnoticedIsInactive(link, s);
      InactiveFailoverStep(link, cfg, s, steps[0]);
      StepUnnoticed(link, cfg, s, steps[0]);
      if r.Running? {
        UncoordinatedFailoverIsEmpty(link, cfg, r.state, steps[1..]);
      }
    }
  }

  /** With a writer the coordinator does not observe it never becomes active. */
  lemma {:induction false} UnobservedFailoverIsEmpty(link: Link, cfg: Config, s: State, steps: seq<Step>)
    requires Coherent(cfg) && !cfg.gatewayOnly && Faithful(link, s.client) && !link.wrapped && !s.client.active
    ensures var r := RunSteps(link, cfg, s, steps);
            r.Ended? && r.exit.Failover? ==> r.state.client.sent == [] && s.client.sent == []
    decreases steps
  {
    hide Advance, Faithful;
    if steps != [] {
      var r := Advance(link, cfg, s, steps[0]);
      StepEvolves(link, cfg, s, steps[0]);
      StaysInactive(link, cfg, s, steps[0]);
      InactiveFailoverStep(link, cfg, s, steps[0]);
      if r.Running? {
        UnobservedFailoverIsEmpty(link, cfg, r.state, steps[1..]);
      }
    }
  }

  lemma StartIsUnnoticed(link: Link, cfg: Config, client: Client, preflushed: bool, placeholderSent: bool)
    requires Spotless(link, client) && !client.active
    ensures Unnoticed(link, Start(client, cfg, preflushed, placeholderSent))
  {
    hide Unmarked;
    SpotlessIsUnmarked(link, client);
  }

  lemma OrdinaryFailoverIsEmpty(
      link: Link, cfg: Config, client: Client, preflushed: bool, placeholderSent: bool, steps: seq<Step>)
    requires Coherent(cfg) && Ordinary(cfg, link, client, LinesOf(steps))
    ensures var r := RunSteps(link, cfg, Start(client, cfg, preflushed, placeholderSent), steps);
            r.Ended? && r.exit.Failover? ==> r.state.client.sent == client.sent == []
  {
    hide RunSteps, Faithful, AllShaped, NoPlaceholders, Spotless, Unnoticed;
    var s := Start(client, cfg, preflushed, placeholderSent);
    if link.wrapped {
      StartIsUnnoticed(link, cfg, client, preflushed, placeholderSent);
      UncoordinatedFailoverIsEmpty(link, cfg, s, steps);
    } else {
      UnobservedFailoverIsEmpty(link, cfg, s, steps);
    }
  }

  /** When a run ends in transparent failover: without coordination and without a placeholder from the
      upstream nothing at all was sent. Where only lines start the output, the client has nothing of the
      upstream if no line went out, and a client that is still there has nothing exactly then; and when the
      coordinator keeps score and observes the writer, that client never has. */
  lemma FailoverFreeExactly(
      link: Link, cfg: Config, client: Client, preflushed: bool, placeholderSent: bool, steps: seq<Step>, last: Step)
    requires Coherent(cfg)
    requires var s := Start(client, cfg, preflushed, placeholderSent);
             && RunSteps(link, cfg, s, steps).Running?
             && RunSteps(link, cfg, s, steps + [last]).Ended?
             && RunSteps(link, cfg, s, steps + [last]).exit.Failover?
    ensures var s := Start(client, cfg, preflushed, placeholderSent);
            var r := RunSteps(link, cfg, s, steps + [last]).state;
            var exposed := Exposes(cfg, s.outputStarted, NoType, LinesOf(steps));
            && (Ordinary(cfg, link, client, LinesOf(steps + [last])) ==> r.client.sent == client.sent == [])
            && (LinesDecide(cfg) && !exposed ==> UpstreamSent(r.client) == UpstreamSent(client))
            && (LinesDecide(cfg) && Connected(r) ==> (UpstreamSent(r.client) == UpstreamSent(client) <==> !exposed))
            && (Connected(r) && cfg.gatewayOnly && client.active && link.wrapped
                && AllShaped(link.placeholder, LinesOf(steps)) ==>
                  UpstreamSent(r.client) == UpstreamSent(client))
  {
    hide RunSteps, UpstreamSent, Exposes, Ordinary, AllShaped;
    if LinesDecide(cfg) {
      FailoverByExposure(link, cfg, client, preflushed, placeholderSent, steps, last);
    }
    if Ordinary(cfg, link, client, LinesOf(steps + [last])) {
      OrdinaryFailoverIsEmpty(link, cfg, client, preflushed, placeholderSent, steps + [last]);
    }
  }

  // ---- runs that fail over with upstream text at the client ------------------------------------------------

  /** A run that fails over although the client, still connected or not, has something of the upstream. */
  ghost predicate Leaks(cfg: Config, link: Link, client: Client, steps: seq<Step>, connected: bool) {
    && Faithful(link, client) && client.active == cfg.gatewayOnly && Spotless(link, client)
    && AllShaped(link.placeholder, LinesOf(steps))
    && var r := RunSteps(link, cfg, Start(client, cfg, false, false), steps);
       && r.Ended? && r.exit.Failover? && Connected(r.state) == connected
       && UpstreamSent(r.state.client) != UpstreamSent(client)
  }

  lemma EndFailsOver(link: Link, cfg: Config, s: State)
    requires s.verdict == Verdict(NoType, NoType, false, false) && s.client.active && !s.client.committed
    ensures Connected(s) ==> Advance(link, cfg, s, EndOfStream(true)) == Ended(s, Failover)
    ensures Advance(link, cfg, s, ScanFailed(OtherError)) == Ended(s, Failover)
  {
  }

  predicate NoFramesWanted(s: State) {
    !s.holders.safePending && !s.holders.timeoutPending && !s.holders.bootstrapPending
  }

  lemma LineGoesOut(link: Link, active: bool, w: string)
    requires link.write(0).Delivered? && w != "" && OneLine(w)
    requires link.wrapped ==> ReadsAsGateway(link.placeholder, Plain(LineText(w)))
    ensures Put(link, NewClient(active), LineText(w))
            == Client([Chunk(true, LineText(w))], true, active, false, false, 1, 0)
  {
    hide Put, ReadsAsGateway, Refuses, Activates;
    assert Plain(LineText(w)) == w + "\n";
    LoneLine(link.placeholder, w);
    FirstPut(link, active, LineText(w));
  }

  /** A first line that opens the output goes out at once. */
  lemma DataGoesOut(link: Link, cfg: Config, s: State, p: Payload)
    requires s.client == NewClient(s.client.active) && s.pending == [] && !s.outputStarted && NoFramesWanted(s)
    requires link.write(0).Delivered? && IsWire(p.wire) && s.verdict == Verdict(NoType, NoType, false, false)
    requires p.ptype.OtherEvent? && OpensOutput(cfg, p.ptype, p) && !NeedsSanitizing(p.ptype, p)
    requires link.wrapped ==> ReadsAsGateway(link.placeholder, Plain(LineText(p.wire)))
    ensures var r := Advance(link, cfg, s, Upstream(Data(p)));
            && r.Running? && r.state.verdict == s.verdict && r.state.outputStarted && NoFramesWanted(r.state)
            && r.state.pending == []
            && r.state.client == Client([Chunk(true, LineText(p.wire))], true, s.client.active, false, false, 1, 0)
  {
    hide Put, Advances, ReadsAsGateway, OnlyWrites, PutFrame, Tally, Visible;
    assert PutLines(link, s.client, []) == s.client;
    LineGoesOut(link, s.client.active, p.wire);
  }

  lemma BlankActivates(link: Link, cfg: Config, s: State, w: string)
    requires s.outputStarted && NoFramesWanted(s) && IsWire(w) && IsPlaceholder(link.placeholder, w)
    requires s.client == Client([Chunk(true, LineText(w))], true, false, false, false, 1, 0)
    requires link.wrapped && link.write(1).Delivered?
    ensures var r := Advance(link, cfg, s, Upstream(Blank));
            && r.Running? && r.state.verdict == s.verdict
            && r.state.client
               == Client([Chunk(true, LineText(w)), Chunk(true, LineText(""))], true, true, false, false, 2, 0)
  {
    hide Put, Advances, ReadsAsGateway, Refuses, Activates, OnlyWrites, PutFrame, IsPlaceholder;
    assert Plain(LineText("")) == "\n";
    BareLinesRead(link.placeholder);
    PlaceholderEvent(link.placeholder, w);
    PlainLine(LineText(w), "");
    assert Plain(LineText(w)) == w + "\n" && "" + "\n" == "\n";
    SecondPut(link, LineText(w), LineText(""));
  }

  /** A run of two lines and a last step. */
  lemma ThreeSteps(link: Link, cfg: Config, s: State, s1: State, s2: State, a: Line, b: Line, last: Step)
    requires Advance(link, cfg, s, Upstream(a)) == Running(s1) && Advance(link, cfg, s1, Upstream(b)) == Running(s2)
    requires Advance(link, cfg, s2, last).Ended? && !last.Upstream?
    ensures RunSteps(link, cfg, s, [Upstream(a), Upstream(b), last]) == Advance(link, cfg, s2, last)
    ensures LinesOf([Upstream(a), Upstream(b), last]) == [a, b]
  {
    hide Advance;
    var steps := [Upstream(a), Upstream(b), last];
    assert steps[1..] == [Upstream(b), last] && steps[1..][1..] == [last] && steps[1..][1..][1..] == [];
    assert LinesOf([]) == [] && LinesOf([last]) == [] && LinesOf(steps[1..]) == [b];
    assert RunSteps(link, cfg, s1, steps[1..]) == RunSteps(link, cfg, s2, [last]);
  }

  /** With a writer the coordinator does not observe, a delta goes out and failover still follows. */
  lemma UnobservedWriterLeaks(cfg: Config, ph: Placeholder, w: string)
      returns (link: Link, client: Client, steps: seq<Step>)
    requires cfg.gatewayOnly && IsWire(w) && !IsPlaceholder(ph, w)
    ensures !link.wrapped && link.placeholder == ph && Leaks(cfg, link, client, steps, true)
    ensures NoPlaceholders(ph, LinesOf(steps))
  {
    hide Advance, Spotless, IsPlaceholder, IsWire, ReadsAsGateway, OpensOutput, NeedsSanitizing, Delta, UpstreamSent;
    link, client := Clear(false, ph), NewClient(true);
    var delta := Delta(w, true, w);
    DeltaOpens(cfg, w, true, w);
    steps := [Upstream(Data(delta)), EndOfStream(true)];
    var s := Start(client, cfg, false, false);
    DataGoesOut(link, cfg, s, delta);
    var s1 := Advance(link, cfg, s, steps[0]).state;
    EndFailsOver(link, cfg, s1);
    FirstChunkShows(s1.client, w);
    NothingRelayed(link, client);
    assert steps[1..] == [EndOfStream(true)] && steps[1..][1..] == [];
    assert LinesOf([]) == [] && LinesOf([EndOfStream(true)]) == [] && LinesOf(steps) == [Data(delta)];
    assert RunSteps(link, cfg, s1, [EndOfStream(true)]) == Ended(s1, Failover);
  }

  /** Even without coordination: when the upstream sends an event that looks like the gateway's own
      placeholder, relaying it activates the coordinator without committing the response. */
  lemma PlaceholderEventLeaks(cfg: Config, ph: Placeholder, w: string, safe: string)
      returns (link: Link, client: Client, steps: seq<Step>)
    requires !cfg.gatewayOnly && IsWire(w) && IsPlaceholder(ph, w) && IsWire(safe) && !IsPlaceholder(ph, safe)
    ensures link.wrapped && link.placeholder == ph && Leaks(cfg, link, client, steps, true)
  {
    hide Advance, RunSteps, LinesOf, Spotless, UpstreamSent, IsPlaceholder, ReadsAsGateway, OpensOutput,
         NeedsSanitizing, Delta;
    link, client := Clear(true, ph), NewClient(false);
    var event := Delta(w, false, safe);
    DeltaOpens(cfg, w, false, safe);
    assert Plain(LineText(w)) == w + "\n";
    DataLineReads(ph, w);
    steps := [Upstream(Data(event)), Upstream(Blank), EndOfStream(true)];
    var s := Start(client, cfg, false, false);
    DataGoesOut(link, cfg, s, event);
    var s1 := Advance(link, cfg, s, steps[0]).state;
    BlankActivates(link, cfg, s1, w);
    var s2 := Advance(link, cfg, s1, steps[1]).state;
    EndFailsOver(link, cfg, s2);
    ThreeSteps(link, cfg, s, s1, s2, Data(event), Blank, EndOfStream(true));
    FirstChunkShows(s2.client, w);
    NothingRelayed(link, client);
  }

  lemma BlankWaits(link: Link, cfg: Config, s: State)
    requires Connected(s) && !s.outputStarted && s.pending == [] && NoFramesWanted(s)
    ensures Advance(link, cfg, s, Upstream(Blank)) == Running(s.(name := NoType, pending := [""]))
  {
    hide Put, PutFrame, Advances, OnlyWrites;
  }

  /** A write that breaks before its first byte. */
  lemma BrokenPut(link: Link, c: Client, t: Text)
    requires !c.disconnected && link.write(c.writes) == Broken(0) && t != []
    ensures Put(link, c, t) == c.(touched := true, disconnected := true, writes := c.writes + 1)
  {
    hide ReadsAsGateway, Refuses, Activates, Plain, UpstreamOf, Received, Relayed, OnlyGatewayFrames, Advances;
    assert t[..0] == [];
  }

  /** The connection breaks after the held-back blank line and before the line that opens. */
  lemma BreakBehindBlank(link: Link, cfg: Config, s: State, p: Payload)
    requires s.client == NewClient(true) && s.pending == [""] && !s.outputStarted && NoFramesWanted(s)
    requires s.verdict == Verdict(NoType, NoType, false, false) && link.wrapped
    requires link.write(0).Delivered? && link.write(1) == Broken(0)
    requires p.ptype.OtherEvent? && OpensOutput(cfg, p.ptype, p) && !NeedsSanitizing(p.ptype, p)
    ensures var r := Advance(link, cfg, s, Upstream(Data(p)));
            && r.Running? && r.state.verdict == s.verdict && !Connected(r.state)
            && r.state.client.active && !r.state.client.committed
            && r.state.client.sent == [Chunk(true, LineText(""))]
  {
    hide Put, Advances, ReadsAsGateway, Refuses, Activates, OnlyWrites, PutFrame, Tally, Visible;
    assert Plain(LineText("")) == "\n";
    BareLinesRead(link.placeholder);
    LoneBlank(link.placeholder);
    FirstPut(link, true, LineText(""));
    var c1 := Put(link, s.client, LineText(""));
    assert [""][1..] == [] && PutLines(link, c1, []) == c1;
    assert PutLines(link, s.client, s.pending) == c1;
    BrokenPut(link, c1, LineText(p.wire));
  }

  /** A coordinated relay can fail over with a byte of the upstream sent when the connection breaks
      while it writes what it held back. */
  lemma BrokenWriteLeaks(cfg: Config, ph: Placeholder, w: string)
      returns (link: Link, client: Client, steps: seq<Step>)
    requires cfg.gatewayOnly && IsWire(w) && !IsPlaceholder(ph, w)
    ensures link.wrapped && link.placeholder == ph && Leaks(cfg, link, client, steps, false)
    ensures NoPlaceholders(ph, LinesOf(steps))
  {
    hide Advance, RunSteps, LinesOf, Spotless, UpstreamSent, IsPlaceholder, IsWire, ReadsAsGateway, OpensOutput,
         NeedsSanitizing, Delta;
    link := Clear(true, ph).(write := n => if n == 0 then Delivered else Broken(0));
    client := NewClient(true);
    var delta := Delta(w, true, w);
    DeltaOpens(cfg, w, true, w);
    steps := [Upstream(Blank), Upstream(Data(delta)), ScanFailed(OtherError)];
    var s := Start(client, cfg, false, false);
    BlankWaits(link, cfg, s);
    var s1 := s.(name := NoType, pending := [""]);
    BreakBehindBlank(link, cfg, s1, delta);
    var s2 := Advance(link, cfg, s1, steps[1]).state;
    EndFailsOver(link, cfg, s2);
    ThreeSteps(link, cfg, s, s1, s2, Blank, Data(delta), ScanFailed(OtherError));
    FirstChunkShows(s2.client, "");
    NothingRelayed(link, client);
  }

  // ---- which configurations are safe -------------------------------------------------------------------

  /** Every failover of every run, or at least every one at which the client is still connected, leaves the
      client with nothing of the upstream; `allowed` says that the upstream may send placeholder events of
      its own. */
  ghost predicate FailoverFree(cfg: Config, wrapped: bool, allowed: bool, connected: bool) {
    forall link: Link, client: Client, preflushed: bool, placeholderSent: bool, steps: seq<Step>
        {:trigger RunSteps(link, cfg, Start(client, cfg, preflushed, placeholderSent), steps)} |
        && link.wrapped == wrapped && Faithful(link, client) && client.active == cfg.gatewayOnly
        && Spotless(link, client) && AllShaped(link.placeholder, LinesOf(steps))
        && (allowed || NoPlaceholders(link.placeholder, LinesOf(steps))) ::
      var r := RunSteps(link, cfg, Start(client, cfg, preflushed, placeholderSent), steps);
      r.Ended? && r.exit.Failover? && (connected ==> Connected(r.state)) ==>
        UpstreamSent(r.state.client) == UpstreamSent(client)
  }

  lemma NotFree(cfg: Config, link: Link, client: Client, steps: seq<Step>, allowed: bool, connected: bool)
    requires Leaks(cfg, link, client, steps, connected)
    requires allowed || NoPlaceholders(link.placeholder, LinesOf(steps))
    ensures !FailoverFree(cfg, link.wrapped, allowed, connected) && !FailoverFree(cfg, link.wrapped, allowed, false)
  {
    hide RunSteps, AllShaped, NoPlaceholders, UpstreamSent, Faithful, Spotless;
  }

  lemma UncoordinatedIsFree(cfg: Config, wrapped: bool, allowed: bool, connected: bool)
    requires Coherent(cfg) && !cfg.gatewayOnly && (!wrapped || !allowed)
    ensures FailoverFree(cfg, wrapped, allowed, connected)
  {
    hide RunSteps, AllShaped, NoPlaceholders, Faithful, Spotless;
    forall link: Link, client: Client, preflushed: bool, placeholderSent: bool, steps: seq<Step> |
        && link.wrapped == wrapped && Faithful(link, client) && !client.active && Spotless(link, client)
        && AllShaped(link.placeholder, LinesOf(steps)) && (allowed || NoPlaceholders(link.placeholder, LinesOf(steps)))
      ensures var r := RunSteps(link, cfg, Start(client, cfg, preflushed, placeholderSent), steps);
              r.Ended? && r.exit.Failover? ==> UpstreamSent(r.state.client) == UpstreamSent(client)
    {
      OrdinaryFailoverIsEmpty(link, cfg, client, preflushed, placeholderSent, steps);
    }
  }

  /** A run that ended consists of a running part and the step that ended it. */
  lemma {:induction false} EndingStep(link: Link, cfg: Config, s: State, steps: seq<Step>) returns (n: nat)
    requires RunSteps(link, cfg, s, steps).Ended?
    ensures n < |steps| && RunSteps(link, cfg, s, steps[..n]).Running?
    ensures RunSteps(link, cfg, s, steps[..n] + [steps[n]]) == RunSteps(link, cfg, s, steps)
    decreases steps
  {
    hide Advance;
    var r := Advance(link, cfg, s, steps[0]);
    if r.Ended? {
      n := 0;
      assert steps[..0] == [] && [] + [steps[0]] == [steps[0]] && [steps[0]][1..] == [];
    } else {
      var m := EndingStep(link, cfg, r.state, steps[1..]);
      n := m + 1;
      var ended := steps[..n] + [steps[n]];
      assert steps[..n][1..] == steps[1..][..m] && steps[..n][0] == steps[0];
      assert ended[1..] == steps[1..][..m] + [steps[1..][m]] && ended[0] == steps[0];
    }
  }

  lemma {:induction false} LinesOfPrefix(steps: seq<Step>, n: nat)
    requires n <= |steps|
    ensures LinesOf(steps[..n]) <= LinesOf(steps)
  {
    if n > 0 {
      assert steps[..n][1..] == steps[1..][..n - 1];
      LinesOfPrefix(steps[1..], n - 1);
    }
  }

  lemma ObservedIsFree(cfg: Config, allowed: bool)
    requires Coherent(cfg) && cfg.gatewayOnly
    ensures FailoverFree(cfg, true, allowed, true)
  {
    hide RunSteps, Shaped, NoPlaceholders, Faithful, UpstreamSent, Spotless, Exposes, Ordinary;
    forall link: Link, client: Client, preflushed: bool, placeholderSent: bool, steps: seq<Step> |
        link.wrapped && client.active && AllShaped(link.placeholder, LinesOf(steps))
      ensures var r := RunSteps(link, cfg, Start(client, cfg, preflushed, placeholderSent), steps);
              r.Ended? && r.exit.Failover? && Connected(r.state) ==>
                UpstreamSent(r.state.client) == UpstreamSent(client)
    {
      var s := Start(client, cfg, preflushed, placeholderSent);
      if RunSteps(link, cfg, s, steps).Ended? && RunSteps(link, cfg, s, steps).exit.Failover? {
        var n := EndingStep(link, cfg, s, steps);
        LinesOfPrefix(steps, n);
        FailoverFreeExactly(link, cfg, client, preflushed, placeholderSent, steps[..n], steps[n]);
      }
    }
  }

  /** With an observed writer the relay is free of that in all its runs, for a client that is still connected,
      exactly when output is coordinated or the upstream never sends a placeholder event; with an unobserved
      one exactly when output is not coordinated. For every client, coordinated output rules it out. */
  lemma FailoverFreeConfigurations(cfg: Config, wrapped: bool, allowed: bool)
    requires Coherent(cfg)
    ensures FailoverFree(cfg, wrapped, allowed, true)
            <==> if wrapped then cfg.gatewayOnly || !allowed else !cfg.gatewayOnly
    ensures FailoverFree(cfg, wrapped, allowed, false) <==> !cfg.gatewayOnly && (!wrapped || !allowed)
  {
    hide FailoverFree, Leaks, IsPlaceholder, IsWire, NoPlaceholders;
    var ph: Placeholder := payload => payload == "p";
    ExampleWires(ph);
    if cfg.gatewayOnly && wrapped {
      ObservedIsFree(cfg, allowed);
      var link, client, steps := BrokenWriteLeaks(cfg, ph, DataText("x"));
      NotFree(cfg, link, client, steps, allowed, false);
    } else if cfg.gatewayOnly {
      var link, client, steps := UnobservedWriterLeaks(cfg, ph, DataText("x"));
      NotFree(cfg, link, client, steps, allowed, true);
    } else if wrapped && allowed {
      var link, client, steps := PlaceholderEventLeaks(cfg, ph, DataText("p"), DataText("x"));
      NotFree(cfg, link, client, steps, allowed, true);
    } else {
      UncoordinatedIsFree(cfg, wrapped, allowed, true);
      UncoordinatedIsFree(cfg, wrapped, allowed, false);
    }
  }

  // ---- what can be there ---------------------------------------------------------------------------------

  /** At a coordinated failover every data line relayed is a placeholder. */
  lemma NoRealOutputAtFailover(link: Link, cfg: Config, s: State, steps: seq<Step>, k: nat, i: nat)
    requires Coherent(cfg) && Faithful(link, s.client) && cfg.gatewayOnly && s.client.active && link.wrapped
    requires RunSteps(link, cfg, s, steps).Ended? && RunSteps(link, cfg, s, steps).exit.Failover?
    requires var sent := RunSteps(link, cfg, s, steps).state.client.sent;
             && k < |sent| && sent[k].relayed
             && i < |Split(Plain(sent[k].text))| && IsData(Split(Plain(sent[k].text))[i])
    ensures var sent := RunSteps(link, cfg, s, steps).state.client.sent;
            IsPlaceholder(link.placeholder, Split(Plain(sent[k].text))[i])
  {
    hide RunSteps, IsPlaceholder, IsData, Split, Accepts;
    var sent := RunSteps(link, cfg, s, steps).state.client.sent;
    FailoverIsClean(link, cfg, s, steps);
    RelayedReadsAsGateway(link, sent, k);
    AcceptedDataIsPlaceholder(link.placeholder, Split(Plain(sent[k].text)), Block.Fresh, i);
  }
}
