/** Transparent failover of the native relay: what of the upstream the client can have then, and which
    configurations and upstreams rule it out. */
module NativeRelayFailover {
  import opened StreamEvents
  import opened Downstream
  import opened GatewayFrames
  import opened Strings
  import opened Relays
  import opened RelayExamples
  import opened NativeRelay
  import opened NativeRelayProofs
  import opened NativeRelayOutput

  // ---- without coordination ------------------------------------------------------------------------------

  lemma LineUnmarked(link: Link, p: Pipe, text: string)
    requires Unmarked(link, p) && OneLine(text) && !IsPlaceholder(link.placeholder, text)
    ensures Unmarked(link, WriteLine(link, p, text))
  {
    hide Write, Tame, Aligned, Plain, IsPlaceholder, Advances, Relayed;
    if !p.client.disconnected {
      var t, n := Tag(FromUpstream, text), Tag(FromUpstream, "\n");
      var whole := Stream(p) + LineText(text);
      PlainLine(Stream(p), text);
      TameLine(link.placeholder, Plain(Stream(p)), text);
      assert Stream(p) + t + n == whole;
      WriteUnmarked(link, p, t, whole);
      var w := Write(link, p, t);
      if !w.client.disconnected {
        WriteUnmarked(link, w, n, whole);
      }
    }
  }

  lemma FlushKeepsUnmarked(link: Link, p: Pipe)
    requires Unmarked(link, p)
    ensures Unmarked(link, Flush(link, p))
  {
    hide Flush, Tame, Aligned, Plain, Relayed;
    if !p.client.disconnected {
      FlushUnmarked(link, p);
    }
  }

  lemma KeepaliveUnmarked(link: Link, p: Pipe)
    requires Unmarked(link, p)
    ensures Unmarked(link, Flush(link, Write(link, p, Tag(FromGateway, ":\n\n"))))
  {
    hide Write, Flush, Tame, Aligned, Plain, IsPlaceholder, Relayed;
    if !p.client.disconnected {
      var t := Tag(FromGateway, ":\n\n");
      var seen := Plain(Stream(p));
      BareIsNoPlaceholder(link.placeholder);
      TameLine(link.placeholder, seen, ":");
      TameLine(link.placeholder, seen + (":" + "\n"), "");
      PlainConcat(Stream(p), t);
      assert Plain(t) == ":\n\n" by { PlainTag(FromGateway, ":\n\n"); }
      assert seen + (":" + "\n") + ("" + "\n") == seen + ":\n\n";
      WriteUnmarked(link, p, t, Stream(p) + t);
      FlushKeepsUnmarked(link, Write(link, p, t));
    }
  }

  lemma PlainTag(o: Origin, s: string)
    ensures Plain(Tag(o, s)) == s
  {
  }

  /** Without coordination the only frame is the bootstrap comment, which the coordinator does not see. */
  lemma FramesUnmarked(link: Link, cfg: Config, s: State)
    requires Coherent(cfg) && !cfg.gatewayOnly && Unmarked(link, s.pipe)
    ensures Unmarked(link, SafePlaceholder(link, cfg, s).pipe) && Unmarked(link, TimeoutPlaceholder(link, cfg, s).pipe)
    ensures Unmarked(link, DrainTimeout(link, cfg, s).pipe) && Unmarked(link, BootstrapComment(link, cfg, s).pipe)
  {
    hide PutFrame, Tame, Aligned, Plain, Relayed, Advances, OnlyWrites, Visible;
    PutFrameUnseen(link, s.pipe.client, ":\n\n", false);
  }

  lemma DataUnmarked(link: Link, cfg: Config, s: State, p: Payload)
    requires Unmarked(link, s.pipe) && Shaped(link.placeholder, Data(p)) && !IsPlaceholder(link.placeholder, p.wire)
    ensures RelayData(link, cfg, s, p).stop.None? ==> Unmarked(link, RelayData(link, cfg, s, p).pipe)
  {
    hide WriteLine, Flush, Unmarked, Answer, Tally, Noted, Judge, ReadUsage, Visible, Advances, Sanitize, IsPlaceholder,
         Shaped, OpensOutput;
    var q := Sanitize(TypeOf(s.name, p), p, Visible(link, s));
    DataIsNoPlaceholder(link.placeholder, TypeOf(s.name, p), p, Visible(link, s));
    LineUnmarked(link, s.pipe, q.wire);
    FlushKeepsUnmarked(link, WriteLine(link, s.pipe, q.wire));
  }

  lemma ControlUnmarked(link: Link, cfg: Config, s: State, line: Line, drained: bool)
    requires Coherent(cfg) && !cfg.gatewayOnly && Unmarked(link, s.pipe) && !line.Data?
             && Shaped(link.placeholder, line)
    ensures Unmarked(link, RelayControl(link, cfg, s, line, drained).pipe)
  {
    hide WriteLine, Flush, Unmarked, SafePlaceholder, DrainTimeout, Advances, OnlyWrites, IsPlaceholder, Shaped;
    var named := s.(name := NextName(s.name, line));
    var text := ControlText(line);
    if text.Some? && Connected(s) {
      ControlIsNoPlaceholder(link.placeholder, line);
      LineUnmarked(link, s.pipe, text.value);
      var w := WriteLine(link, s.pipe, text.value);
      FlushKeepsUnmarked(link, w);
      var f := named.(pipe := if s.outputStarted && (text.value == "" || drained) then Flush(link, w) else w);
      FramesUnmarked(link, cfg, f.(holders := s.holders.(safePending := false, atBoundary := true)));
    }
    var w := if text.Some? then WriteControl(link, cfg, named, text.value, drained) else named;
    FramesUnmarked(link, cfg, w.(holders := w.holders.(atBoundary := line.Blank? || line.Dropped?)));
  }

  lemma StepUnmarked(link: Link, cfg: Config, s: State, step: Step)
    requires Coherent(cfg) && !cfg.gatewayOnly && Unmarked(link, s.pipe) && s.stop.None?
    requires step.Upstream? ==>
               Shaped(link.placeholder, step.line) && !LooksLikePlaceholder(link.placeholder, step.line)
    ensures var r := Advance(link, cfg, s, step); r.Running? ==> Unmarked(link, r.state.pipe)
  {
    hide RelayData, RelayControl, SendError, PutFrame, Write, Flush, BootstrapComment, TimeoutPlaceholder, Tame,
         Aligned, Plain, Relayed, Visible, IsPlaceholder, Shaped;
    FramesUnmarked(link, cfg, s);
    match step
    case Upstream(line, drained) =>
      if line.Data? {
        DataUnmarked(link, cfg, s, line.payload);
      } else {
        ControlUnmarked(link, cfg, s, line, drained);
      }
      var p := Process(link, cfg, s, line, drained);
      if p.stop.None? {
        FramesUnmarked(link, cfg, p);
      }
    case KeepaliveTimer(idle) =>
      KeepaliveUnmarked(link, s.pipe);
    case _ =>
  }

  /** Without coordination, and as long as the upstream sends nothing that looks like the gateway's own
      placeholder, a run fails over only when nothing at all was sent. */
  lemma {:induction false} UncoordinatedFailoverIsEmpty(link: Link, cfg: Config, s: State, steps: seq<Step>)
    requires Coherent(cfg) && !cfg.gatewayOnly && Faithful(link, s.pipe.client) && s.stop.None?
             && Unmarked(link, s.pipe)
    requires AllShaped(link.placeholder, LinesOf(steps)) && NoPlaceholders(link.placeholder, LinesOf(steps))
    ensures var r := RunSteps(link, cfg, s, steps);
            r.Ended? && r.exit.Failover? ==> r.state.pipe.client.sent == [] && s.pipe.client.sent == []
    decreases steps
  {
    hide Advance, Faithful, Unmarked, Shaped, LooksLikePlaceholder;
    if steps != [] {
      var r := Advance(link, cfg, s, steps[0]);
      LinesShift(link.placeholder, steps);
      StepEvolves(link, cfg, s, steps[0]);
      StepDecides(link, cfg, s, steps[0]);
      assert !s.pipe.client.active by { UnmarkedIsInactive(link, s.pipe); }
      InactiveFailoverStep(link, cfg, s, steps[0]);
      StepUnmarked(link, cfg, s, steps[0]);
      if r.Running? {
        UncoordinatedFailoverIsEmpty(link, cfg, r.state, steps[1..]);
      }
    }
  }

  lemma UnmarkedIsInactive(link: Link, p: Pipe)
    requires Unmarked(link, p)
    ensures !p.client.active
  {
  }

  /** While the coordinator is inactive, failover is decided by whether anything was sent. */
  lemma InactiveFailoverStep(link: Link, cfg: Config, s: State, step: Step)
    requires Coherent(cfg) && !cfg.gatewayOnly && Faithful(link, s.pipe.client) && s.stop.None? && !s.pipe.client.active
    ensures var r := Advance(link, cfg, s, step);
            r.Ended? && r.exit.Failover? ==> r.state.pipe.client == s.pipe.client && s.pipe.client.sent == []
  {
    hide ForwardData, RelayControl, SendError, PutFrame, Write, Flush, BootstrapComment, TimeoutPlaceholder, Answer,
         OnlyGatewayFrames, Judge, Tally, Sanitize;
  }

  lemma LinesShift(ph: Placeholder, steps: seq<Step>)
    requires steps != [] && AllShaped(ph, LinesOf(steps)) && NoPlaceholders(ph, LinesOf(steps))
    ensures steps[0].Upstream? ==> Shaped(ph, steps[0].line) && !LooksLikePlaceholder(ph, steps[0].line)
    ensures AllShaped(ph, LinesOf(steps[1..])) && NoPlaceholders(ph, LinesOf(steps[1..]))
  {
    hide Shaped, LooksLikePlaceholder;
    var all, rest := LinesOf(steps), LinesOf(steps[1..]);
    if steps[0].Upstream? {
      assert all[0] == steps[0].line && forall i | 0 <= i < |rest| :: rest[i] == all[i + 1];
    } else {
      assert all == rest;
    }
  }

  /** With a writer the coordinator does not observe it never becomes active. */
  lemma {:induction false} UnobservedFailoverIsEmpty(link: Link, cfg: Config, s: State, steps: seq<Step>)
    requires Coherent(cfg) && !cfg.gatewayOnly && Faithful(link, s.pipe.client) && s.stop.None?
    requires !link.wrapped && !s.pipe.client.active
    ensures var r := RunSteps(link, cfg, s, steps);
            r.Ended? && r.exit.Failover? ==> r.state.pipe.client.sent == [] && s.pipe.client.sent == []
    decreases steps
  {
    hide Advance, Faithful;
    if steps != [] {
      var r := Advance(link, cfg, s, steps[0]);
      StepEvolves(link, cfg, s, steps[0]);
      StepDecides(link, cfg, s, steps[0]);
      StaysInactive(link, cfg, s, steps[0]);
      InactiveFailoverStep(link, cfg, s, steps[0]);
      if r.Running? {
        UnobservedFailoverIsEmpty(link, cfg, r.state, steps[1..]);
      }
    }
  }

  lemma OrdinaryFailoverIsEmpty(
      link: Link, cfg: Config, client: Client, preflushed: bool, placeholderSent: bool, steps: seq<Step>)
    requires Coherent(cfg) && Ordinary(cfg, link, client, LinesOf(steps))
    ensures var r := RunSteps(link, cfg, Start(client, cfg, preflushed, placeholderSent), steps);
            r.Ended? && r.exit.Failover? ==> r.state.pipe.client.sent == client.sent == []
  {
    hide RunSteps, Faithful, AllShaped, NoPlaceholders, Spotless, Unmarked;
    var s := Start(client, cfg, preflushed, placeholderSent);
    if link.wrapped {
      SpotlessIsUnmarked(link, client);
      UncoordinatedFailoverIsEmpty(link, cfg, s, steps);
    } else {
      UnobservedFailoverIsEmpty(link, cfg, s, steps);
    }
  }

  /** When a run ends in transparent failover: without coordination and without a placeholder from the
      upstream nothing at all was sent. Where only lines start the output, the client has nothing of the
      upstream if no step let anything out, and a client that is still there has nothing exactly then. */
  lemma FailoverFreeExactly(
      link: Link, cfg: Config, client: Client, preflushed: bool, placeholderSent: bool, steps: seq<Step>, last: Step)
    requires Coherent(cfg)
    requires var s := Start(client, cfg, preflushed, placeholderSent);
             && RunSteps(link, cfg, s, steps).Running?
             && RunSteps(link, cfg, s, steps + [last]).Ended?
             && RunSteps(link, cfg, s, steps + [last]).exit.Failover?
    ensures var r := RunSteps(link, cfg, Start(client, cfg, preflushed, placeholderSent), steps + [last]).state;
            && (Ordinary(cfg, link, client, LinesOf(steps + [last])) ==> r.pipe.client.sent == client.sent == [])
            && (LinesDecide(cfg) && !Exposes(cfg, preflushed, placeholderSent, steps) ==>
                  UpstreamSent(r.pipe.client) == UpstreamSent(client))
            && (LinesDecide(cfg) && Connected(r) ==>
                  (UpstreamSent(r.pipe.client) == UpstreamSent(client)
                   <==> !Exposes(cfg, preflushed, placeholderSent, steps)))
  {
    hide RunSteps, UpstreamSent, Exposes, Ordinary;
    if LinesDecide(cfg) {
      FailoverByExposure(link, cfg, client, preflushed, placeholderSent, steps, last);
    }
    if Ordinary(cfg, link, client, LinesOf(steps + [last])) {
      OrdinaryFailoverIsEmpty(link, cfg, client, preflushed, placeholderSent, steps + [last]);
    }
  }

  // ---- runs that fail over with upstream text at the client ------------------------------------------------

  /** A run that fails over although the client, still connected, has something of the upstream. */
  ghost predicate Leaks(cfg: Config, link: Link, client: Client, steps: seq<Step>) {
    && Faithful(link, client) && client.active == cfg.gatewayOnly && Spotless(link, client)
    && AllShaped(link.placeholder, LinesOf(steps))
    && var r := RunSteps(link, cfg, Start(client, cfg, false, false), steps);
       && r.Ended? && r.exit.Failover? && Connected(r.state)
       && UpstreamSent(r.state.pipe.client) != UpstreamSent(client)
  }

  lemma EndFailsOver(link: Link, cfg: Config, s: State)
    requires s.verdict.terminal.NoType? && s.pipe.client.active && !s.pipe.client.committed
    ensures Advance(link, cfg, s, EndOfStream) == Ended(s, Failover)
  {
  }

  lemma ThreeSteps(link: Link, cfg: Config, s: State, s1: State, s2: State, a: Step, b: Step)
    requires Advance(link, cfg, s, a) == Running(s1) && Advance(link, cfg, s1, b) == Running(s2)
    requires Advance(link, cfg, s2, EndOfStream).Ended? && a.Upstream?
    ensures RunSteps(link, cfg, s, [a, b, EndOfStream]) == Advance(link, cfg, s2, EndOfStream)
    ensures LinesOf([a, b, EndOfStream]) == if b.Upstream? then [a.line, b.line] else [a.line]
  {
    hide Advance;
    var steps := [a, b, EndOfStream];
    assert steps[1..] == [b, EndOfStream] && steps[1..][1..] == [EndOfStream] && steps[1..][1..][1..] == [];
    assert LinesOf([]) == [] && LinesOf([EndOfStream]) == [];
    assert RunSteps(link, cfg, s1, steps[1..]) == RunSteps(link, cfg, s2, [EndOfStream]);
  }

  predicate NoFramesWanted(s: State) {
    !s.holders.safePending && !s.holders.timeoutPending && !s.holders.bootstrapPending
  }

  lemma BlankWaits(link: Link, cfg: Config, s: State)
    requires s.stop.None? && Connected(s) && !s.outputStarted && s.pipe.buffer == [] && NoFramesWanted(s)
    ensures var r := Advance(link, cfg, s, Upstream(Blank, false));
            && r.Running? && r.state.stop.None? && r.state.verdict == s.verdict
            && r.state.pipe == Pipe(s.pipe.client, LineText(""))
  {
    hide Put, Flush, PutFrame, Advances, OnlyWrites;
    assert [] + Tag(FromUpstream, "") == [] && [] + Tag(FromUpstream, "\n") == LineText("");
  }

  lemma KeepaliveSends(link: Link, cfg: Config, s: State)
    requires Connected(s) && s.pipe == Pipe(NewClient(true), LineText("")) && link.write(0).Delivered? && link.wrapped
    ensures var r := Advance(link, cfg, s, KeepaliveTimer(true));
            && r.Running? && r.state.stop == s.stop && r.state.verdict == s.verdict
            && r.state.pipe.client
               == Client([Chunk(true, LineText("") + Tag(FromGateway, ":\n\n"))], true, true, false, false, 1, 0)
  {
    hide Put, Advances, UpstreamOf, Received, ReadsAsGateway, Refuses, Activates;
    var t := LineText("") + Tag(FromGateway, ":\n\n");
    assert Plain(t) == "\n:\n\n";
    BlankBeforeComment(link.placeholder);
    FirstPut(link, true, t);
  }

  /** A keepalive flushes a buffered blank line together with its own comment: the coordinator takes the
      write for a gateway frame, and failover goes on with a byte of the upstream at the client. */
  lemma KeepaliveLeaks(cfg: Config, ph: Placeholder) returns (link: Link, client: Client, steps: seq<Step>)
    requires cfg.gatewayOnly
    ensures link.wrapped && link.placeholder == ph && Leaks(cfg, link, client, steps)
    ensures NoPlaceholders(ph, LinesOf(steps))
  {
    hide Advance, RunSteps, LinesOf, Spotless, UpstreamSent;
    link, client := Clear(true, ph), NewClient(true);
    steps := [Upstream(Blank, false), KeepaliveTimer(true), EndOfStream];
    var s := Start(client, cfg, false, false);
    BlankWaits(link, cfg, s);
    var s1 := Advance(link, cfg, s, steps[0]).state;
    KeepaliveSends(link, cfg, s1);
    var s2 := Advance(link, cfg, s1, steps[1]).state;
    EndFailsOver(link, cfg, s2);
    ThreeSteps(link, cfg, s, s1, s2, steps[0], steps[1]);
    FirstChunkShows(s2.pipe.client, "");
    NothingRelayed(link, client);
  }

  lemma LineGoesOut(link: Link, p: Pipe, w: string)
    requires p == Pipe(NewClient(p.client.active), []) && link.write(0).Delivered? && |w| < 100 && w != "" && OneLine(w)
    requires link.wrapped ==> ReadsAsGateway(link.placeholder, Plain(LineText(w)))
    ensures SendLine(link, p, w, true)
            == Pipe(Client([Chunk(true, LineText(w))], true, p.client.active, false, false, 1, 0), [])
  {
    hide Put, Advances, UpstreamOf, Received, ReadsAsGateway, Refuses, Activates;
    assert [] + Tag(FromUpstream, w) == Tag(FromUpstream, w);
    assert WriteLine(link, p, w).buffer == LineText(w);
    assert Plain(LineText(w)) == w + "\n";
    LoneLine(link.placeholder, w);
    FirstPut(link, p.client.active, LineText(w));
  }

  lemma DataGoesOut(link: Link, cfg: Config, s: State, p: Payload)
    requires s.pipe == Pipe(NewClient(s.pipe.client.active), []) && link.write(0).Delivered? && IsWire(p.wire)
    requires s.stop.None? && s.verdict.terminal.NoType? && NoFramesWanted(s)
    requires p.ptype.OtherEvent? && OpensOutput(cfg, p.ptype, p) && !NeedsSanitizing(p.ptype, p) && |p.wire| < 100
    requires link.wrapped ==> ReadsAsGateway(link.placeholder, Plain(LineText(p.wire)))
    ensures var r := Advance(link, cfg, s, Upstream(Data(p), true));
            && r.Running? && r.state.stop.None? && r.state.verdict.terminal.NoType? && r.state.outputStarted
            && NoFramesWanted(r.state)
            && r.state.pipe
               == Pipe(Client([Chunk(true, LineText(p.wire))], true, s.pipe.client.active, false, false, 1, 0), [])
  {
    hide SendLine, Tally, Advances, ReadsAsGateway;
    LineGoesOut(link, s.pipe, p.wire);
  }

  /** With a writer the coordinator does not observe, a delta goes out and failover still follows. */
  lemma UnobservedWriterLeaks(cfg: Config, ph: Placeholder, w: string)
      returns (link: Link, client: Client, steps: seq<Step>)
    requires cfg.gatewayOnly && IsWire(w) && !IsPlaceholder(ph, w) && |w| < 100
    ensures !link.wrapped && link.placeholder == ph && Leaks(cfg, link, client, steps)
    ensures NoPlaceholders(ph, LinesOf(steps))
  {
    hide Advance, Spotless, IsPlaceholder, ReadsAsGateway, OpensOutput, NeedsSanitizing, Delta, UpstreamSent;
    link, client := Clear(false, ph), NewClient(true);
    var delta := Delta(w, true, w);
    DeltaOpens(cfg, w, true, w);
    steps := [Upstream(Data(delta), true), EndOfStream];
    var s := Start(client, cfg, false, false);
    DataGoesOut(link, cfg, s, delta);
    var s1 := Advance(link, cfg, s, steps[0]).state;
    EndFailsOver(link, cfg, s1);
    FirstChunkShows(s1.pipe.client, w);
    NothingRelayed(link, client);
    assert steps[1..] == [EndOfStream] && steps[1..][1..] == [];
    assert LinesOf([]) == [] && LinesOf([EndOfStream]) == [] && LinesOf(steps) == [Data(delta)];
    assert RunSteps(link, cfg, s1, [EndOfStream]) == Ended(s1, Failover);
  }

  lemma BlankActivates(link: Link, cfg: Config, s: State, w: string)
    requires s.stop.None? && s.outputStarted && NoFramesWanted(s) && IsWire(w) && IsPlaceholder(link.placeholder, w)
    requires s.pipe == Pipe(Client([Chunk(true, LineText(w))], true, false, false, false, 1, 0), [])
    requires link.wrapped && link.write(1).Delivered?
    ensures var r := Advance(link, cfg, s, Upstream(Blank, true));
            && r.Running? && r.state.verdict == s.verdict
            && r.state.pipe.client
               == Client([Chunk(true, LineText(w)), Chunk(true, LineText(""))], true, true, false, false, 2, 0)
  {
    hide Put, Advances, ReadsAsGateway, Refuses, Activates, PutFrame, OnlyWrites, IsPlaceholder;
    assert [] + Tag(FromUpstream, "") == [] && [] + Tag(FromUpstream, "\n") == LineText("");
    assert Plain(LineText("")) == "\n";
    BareLinesRead(link.placeholder);
    PlaceholderEvent(link.placeholder, w);
    PlainLine(LineText(w), "");
    assert Plain(LineText(w)) == w + "\n" && "" + "\n" == "\n";
    SecondPut(link, LineText(w), LineText(""));
  }

  /** Even without coordination: when the upstream sends an event that looks like the gateway's own
      placeholder, relaying it activates the coordinator without committing the response. */
  lemma PlaceholderEventLeaks(cfg: Config, ph: Placeholder, w: string, safe: string)
      returns (link: Link, client: Client, steps: seq<Step>)
    requires !cfg.gatewayOnly && IsWire(w) && IsPlaceholder(ph, w) && |w| < 100
    requires IsWire(safe) && !IsPlaceholder(ph, safe)
    ensures link.wrapped && link.placeholder == ph && Leaks(cfg, link, client, steps)
  {
    hide Advance, RunSteps, LinesOf, Spotless, UpstreamSent, IsPlaceholder, ReadsAsGateway, OpensOutput,
         NeedsSanitizing, Delta;
    link, client := Clear(true, ph), NewClient(false);
    var event := Delta(w, false, safe);
    DeltaOpens(cfg, w, false, safe);
    assert Plain(LineText(w)) == w + "\n";
    DataLineReads(ph, w);
    steps := [Upstream(Data(event), true), Upstream(Blank, true), EndOfStream];
    var s := Start(client, cfg, false, false);
    DataGoesOut(link, cfg, s, event);
    var s1 := Advance(link, cfg, s, steps[0]).state;
    BlankActivates(link, cfg, s1, w);
    var s2 := Advance(link, cfg, s1, steps[1]).state;
    EndFailsOver(link, cfg, s2);
    ThreeSteps(link, cfg, s, s1, s2, steps[0], steps[1]);
    FirstChunkShows(s2.pipe.client, w);
    NothingRelayed(link, client);
  }

  // ---- which configurations are safe -------------------------------------------------------------------

  /** Every failover of every run leaves the client with nothing of the upstream; `allowed` says that the
      upstream may send placeholder events of its own. */
  ghost predicate FailoverFree(cfg: Config, wrapped: bool, allowed: bool) {
    forall link: Link, client: Client, preflushed: bool, placeholderSent: bool, steps: seq<Step>
        {:trigger RunSteps(link, cfg, Start(client, cfg, preflushed, placeholderSent), steps)} |
        && link.wrapped == wrapped && Faithful(link, client) && client.active == cfg.gatewayOnly
        && Spotless(link, client) && AllShaped(link.placeholder, LinesOf(steps))
        && (allowed || NoPlaceholders(link.placeholder, LinesOf(steps))) ::
      var r := RunSteps(link, cfg, Start(client, cfg, preflushed, placeholderSent), steps);
      r.Ended? && r.exit.Failover? ==> UpstreamSent(r.state.pipe.client) == UpstreamSent(client)
  }

  lemma NotFree(cfg: Config, link: Link, client: Client, steps: seq<Step>, allowed: bool)
    requires Leaks(cfg, link, client, steps) && (allowed || NoPlaceholders(link.placeholder, LinesOf(steps)))
    ensures !FailoverFree(cfg, link.wrapped, allowed)
  {
    hide RunSteps, AllShaped, NoPlaceholders, UpstreamSent, Faithful, Spotless;
  }

  lemma UncoordinatedIsFree(cfg: Config, wrapped: bool, allowed: bool)
    requires Coherent(cfg) && !cfg.gatewayOnly && (!wrapped || !allowed)
    ensures FailoverFree(cfg, wrapped, allowed)
  {
    hide RunSteps, AllShaped, NoPlaceholders, Faithful, Spotless, Unmarked;
    forall link: Link, client: Client, preflushed: bool, placeholderSent: bool, steps: seq<Step> |
        && link.wrapped == wrapped && Faithful(link, client) && !client.active && Spotless(link, client)
        && AllShaped(link.placeholder, LinesOf(steps)) && (allowed || NoPlaceholders(link.placeholder, LinesOf(steps)))
      ensures var r := RunSteps(link, cfg, Start(client, cfg, preflushed, placeholderSent), steps);
              r.Ended? && r.exit.Failover? ==> UpstreamSent(r.state.pipe.client) == UpstreamSent(client)
    {
      OrdinaryFailoverIsEmpty(link, cfg, client, preflushed, placeholderSent, steps);
    }
  }

  /** The relay is free of that in all its runs exactly when output is not coordinated and the coordinator
      does not observe the writer or the upstream never sends a placeholder event. */
  lemma FailoverFreeConfigurations(cfg: Config, wrapped: bool, allowed: bool)
    requires Coherent(cfg)
    ensures FailoverFree(cfg, wrapped, allowed) <==> !cfg.gatewayOnly && (!wrapped || !allowed)
  {
    hide FailoverFree, IsPlaceholder, IsWire, Leaks, NoPlaceholders;
    var ph: Placeholder := payload => payload == "p";
    ExampleWires(ph);
    if cfg.gatewayOnly {
      if wrapped {
        var link, client, steps := KeepaliveLeaks(cfg, ph);
        NotFree(cfg, link, client, steps, allowed);
      } else {
        var link, client, steps := UnobservedWriterLeaks(cfg, ph, DataText("x"));
        NotFree(cfg, link, client, steps, allowed);
      }
    } else if wrapped && allowed {
      var link, client, steps := PlaceholderEventLeaks(cfg, ph, DataText("p"), DataText("x"));
      NotFree(cfg, link, client, steps, allowed);
    } else {
      UncoordinatedIsFree(cfg, wrapped, allowed);
    }
  }

  // ---- what can be there ---------------------------------------------------------------------------------

  /** At a coordinated failover everything relayed reads as gateway frames: every data line among it is
      a placeholder, so no real output has reached the client. */
  lemma NoRealOutputAtFailover(link: Link, cfg: Config, s: State, steps: seq<Step>, k: nat, i: nat)
    requires Coherent(cfg) && Faithful(link, s.pipe.client) && s.stop.None?
    requires cfg.gatewayOnly && s.pipe.client.active && link.wrapped
    requires RunSteps(link, cfg, s, steps).Ended? && RunSteps(link, cfg, s, steps).exit.Failover?
    requires var sent := RunSteps(link, cfg, s, steps).state.pipe.client.sent;
             && k < |sent| && sent[k].relayed
             && i < |Split(Plain(sent[k].text))| && IsData(Split(Plain(sent[k].text))[i])
    ensures var sent := RunSteps(link, cfg, s, steps).state.pipe.client.sent;
            IsPlaceholder(link.placeholder, Split(Plain(sent[k].text))[i])
  {
    hide RunSteps, IsPlaceholder, IsData, Split, Accepts;
    var sent := RunSteps(link, cfg, s, steps).state.pipe.client.sent;
    FailoverIsClean(link, cfg, s, steps);
    RelayedReadsAsGateway(link, sent, k);
    AcceptedDataIsPlaceholder(link.placeholder, Split(Plain(sent[k].text)), Block.Fresh, i);
  }
}
