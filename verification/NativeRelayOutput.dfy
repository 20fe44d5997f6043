/** What of the upstream has reached the client of a native relay, read off the steps alone: which
    lines open the output, what fills the buffered writer, and what flushes it. */
module NativeRelayOutput {
  import opened StreamEvents
  import opened Downstream
  import opened GatewayFrames
  import opened Relays
  import opened RelayExamples
  import opened NativeRelay
  import opened NativeRelayProofs

  // ---- following the output through the steps ------------------------------------------------------

  /** Whether output has started, how many bytes wait in the buffered writer, and whether any byte of
      the upstream has left it. */
  datatype Track = Track(name: EventType, started: bool, held: nat, exposed: bool)

  /** Bytes waiting after n more: what does not fit pushes out what is there. */
  function Fill(held: nat, n: nat): nat {
    if held + n <= CAPACITY then held + n
    else if held == 0 || held > CAPACITY || held + n - CAPACITY > CAPACITY then 0
    else held + n - CAPACITY
  }

  function Wrote(k: Track, n: nat): Track {
    k.(held := Fill(k.held, n), exposed := k.exposed || k.held + n > CAPACITY)
  }

  function WroteLine(k: Track, n: nat): Track {
    Wrote(Wrote(k, n), 1)
  }

  function Flushed(k: Track): Track {
    k.(held := 0, exposed := k.exposed || k.held > 0)
  }

  function Opened(k: Track): Track {
    k.(started := true, held := 0, exposed := true)
  }

  function TrackLine(cfg: Config, k: Track, line: Line, drained: bool): Track {
    var named := k.(name := NextName(k.name, line));
    match line
    case Data(p) =>
      if k.started || OpensOutput(cfg, TypeOf(k.name, p), p) then Opened(named) else WroteLine(named, |p.wire|)
    case _ =>
      match ControlText(line)
      case None => named
      case Some(text) =>
        if k.started && (text == "" || drained) then Opened(named) else WroteLine(named, |text|)
  }

  function TrackStep(cfg: Config, k: Track, step: Step): Track {
    match step
    case Upstream(line, drained) => TrackLine(cfg, k, line, drained)
    case KeepaliveTimer(idle) => if idle then Flushed(k) else k
    case _ => k
  }

  function TrackAll(cfg: Config, k: Track, steps: seq<Step>): Track
    decreases steps
  {
    if steps == [] then k else TrackAll(cfg, TrackStep(cfg, k, steps[0]), steps[1..])
  }

  function Begin(cfg: Config, preflushed: bool, placeholderSent: bool): Track {
    Track(NoType, (preflushed || placeholderSent) && !cfg.gatewayOnly, 0, false)
  }

  // ---- the buffered writer -------------------------------------------------------------------------

  /** The writer holds what the steps say, all of it upstream, and has let bytes out exactly when they
      say so. */
  ghost predicate Holds(p: Pipe, from: nat, held: nat, exposed: bool) {
    && |p.buffer| == held && AllUpstream(p.buffer)
    && |UpstreamSent(p.client)| >= from
    && (|UpstreamSent(p.client)| == from <==> !exposed)
  }

  lemma WriteHolds(link: Link, p: Pipe, t: Text, from: nat, k: Track)
    requires Holds(p, from, k.held, k.exposed) && AllUpstream(t)
    requires !Write(link, p, t).client.disconnected
    ensures Holds(Write(link, p, t), from, Wrote(k, |t|).held, Wrote(k, |t|).exposed)
  {
    hide Put, UpstreamSent, UpstreamOf, Advances;
    var r := Write(link, p, t);
    assert |r.buffer| == Fill(k.held, |t|) && AllUpstream(r.buffer);
    WriteConserves(link, p, t);
    UpstreamOfAll(p.buffer);
    UpstreamOfAll(r.buffer);
    UpstreamOfAll(t);
    assert |Wire(r)| == |UpstreamSent(r.client)| + |r.buffer|;
    assert |Wire(p)| == |UpstreamSent(p.client)| + |p.buffer|;
  }

  lemma FlushHolds(link: Link, p: Pipe, from: nat, k: Track)
    requires Holds(p, from, k.held, k.exposed) && !Flush(link, p).client.disconnected
    ensures Holds(Flush(link, p), from, 0, Flushed(k).exposed)
  {
    hide Put, UpstreamSent, UpstreamOf, Advances;
    var r := Flush(link, p);
    FlushConserves(link, p);
    UpstreamOfAll(p.buffer);
    UpstreamOfAll([]);
    assert |Wire(r)| == |UpstreamSent(r.client)| + 0;
    assert |Wire(p)| == |UpstreamSent(p.client)| + |p.buffer|;
  }

  lemma LineHolds(link: Link, p: Pipe, text: string, from: nat, k: Track)
    requires Holds(p, from, k.held, k.exposed) && !WriteLine(link, p, text).client.disconnected
    ensures Holds(WriteLine(link, p, text), from, WroteLine(k, |text|).held, WroteLine(k, |text|).exposed)
  {
    hide Write, Holds, Fill;
    var t, n := Tag(FromUpstream, text), Tag(FromUpstream, "\n");
    assert AllUpstream(t) && AllUpstream(n) && |n| == 1;
    WriteHolds(link, p, t, from, k);
    WriteHolds(link, Write(link, p, t), n, from, Wrote(k, |text|));
  }

  /** A line that is flushed at once leaves the writer empty and has certainly let bytes out. */
  lemma OpenedHolds(link: Link, p: Pipe, text: string, from: nat, k: Track)
    requires Holds(p, from, k.held, k.exposed) && !Flush(link, WriteLine(link, p, text)).client.disconnected
    ensures Holds(Flush(link, WriteLine(link, p, text)), from, 0, true)
  {
    hide Write, Flush, Holds, WriteLine;
    LineHolds(link, p, text, from, k);
    FlushHolds(link, WriteLine(link, p, text), from, WroteLine(k, |text|));
  }

  lemma KeepaliveHolds(link: Link, p: Pipe, from: nat, k: Track)
    requires Holds(p, from, k.held, k.exposed)
    requires !Flush(link, Write(link, p, Tag(FromGateway, ":\n\n"))).client.disconnected
    ensures Holds(Flush(link, Write(link, p, Tag(FromGateway, ":\n\n"))), from, 0, Flushed(k).exposed)
  {
    hide Write, Flush, UpstreamSent, UpstreamOf, Advances;
    var w := Write(link, p, Tag(FromGateway, ":\n\n"));
    var r := Flush(link, w);
    WriteConserves(link, p, Tag(FromGateway, ":\n\n"));
    UpstreamOfTag(FromGateway, ":\n\n");
    FlushConserves(link, w);
    UpstreamOfAll(p.buffer);
    UpstreamOfAll([]);
    assert |Wire(r)| == |UpstreamSent(r.client)| + 0;
    assert |Wire(p)| == |UpstreamSent(p.client)| + |p.buffer|;
  }

  // ---- steps -----------------------------------------------------------------------------------------

  ghost predicate Matches(cfg: Config, s: State, k: Track, from: nat) {
    && s.stop.None? && s.name == k.name && s.outputStarted == k.started
    && (!cfg.bootstrap ==> !s.holders.bootstrapPending)
    && Holds(s.pipe, from, k.held, k.exposed)
  }

  /** A gateway frame touches neither the writer nor what of the upstream was sent. */
  ghost predicate Still(s: State, r: State) {
    && r.outputStarted == s.outputStarted && r.pipe.buffer == s.pipe.buffer
    && UpstreamSent(r.pipe.client) == UpstreamSent(s.pipe.client)
    && r.holders.bootstrapPending == s.holders.bootstrapPending
  }

  lemma FramesHoldStill(link: Link, cfg: Config, s: State)
    requires LinesDecide(cfg)
    ensures Still(s, SafePlaceholder(link, cfg, s)) && Still(s, TimeoutPlaceholder(link, cfg, s))
    ensures Still(s, DrainTimeout(link, cfg, s))
    ensures cfg.bootstrap ==> Still(s, BootstrapComment(link, cfg, s))
  {
    hide PutFrame, UpstreamSent, Advances, OnlyWrites, Visible;
  }

  lemma StillMatches(cfg: Config, s: State, r: State, k: Track, from: nat)
    requires Matches(cfg, s, k, from) && Still(s, r) && r.name == s.name && r.stop == s.stop
    ensures Matches(cfg, r, k, from)
  {
    hide UpstreamSent;
  }

  lemma DataMatches(link: Link, cfg: Config, s: State, p: Payload, k: Track, from: nat)
    requires Matches(cfg, s, k, from)
    requires var r := RelayData(link, cfg, s, p); r.stop.None? && Connected(r)
    ensures Matches(cfg, RelayData(link, cfg, s, p), TrackLine(cfg, k, Data(p), false), from)
  {
    hide Holds, WriteLine, Flush, Answer, Tally, Judge, ReadUsage, Visible, Advances, Fill;
    var q := Sanitize(TypeOf(s.name, p), p, Visible(link, s));
    if k.started || OpensOutput(cfg, TypeOf(s.name, p), p) {
      OpenedHolds(link, s.pipe, q.wire, from, k);
    } else {
      LineHolds(link, s.pipe, q.wire, from, k);
    }
  }

  lemma WriteControlMatches(link: Link, cfg: Config, s: State, text: string, drained: bool, k: Track, from: nat)
    requires LinesDecide(cfg) && Matches(cfg, s, k, from) && Connected(WriteControl(link, cfg, s, text, drained))
    ensures Matches(cfg, WriteControl(link, cfg, s, text, drained),
                    if k.started && (text == "" || drained) then Opened(k) else WroteLine(k, |text|), from)
  {
    hide Holds, WriteLine, Flush, SafePlaceholder, Faithful, UpstreamSent, Fill;
    var flush := k.started && (text == "" || drained);
    var w := WriteLine(link, s.pipe, text);
    var f := s.(pipe := if flush then Flush(link, w) else w);
    var k' := if flush then Opened(k) else WroteLine(k, |text|);
    if flush {
      OpenedHolds(link, s.pipe, text, from, k);
    } else {
      LineHolds(link, s.pipe, text, from, k);
    }
    assert Matches(cfg, f, k', from);
    var g := f.(holders := s.holders.(safePending := false, atBoundary := true));
    FramesHoldStill(link, cfg, g);
    assert Matches(cfg, g, k', from);
    if text == "" && s.holders.safePending {
      StillMatches(cfg, g, SafePlaceholder(link, cfg, g), k', from);
    }
  }

  lemma ControlMatches(link: Link, cfg: Config, s: State, line: Line, drained: bool, k: Track, from: nat)
    requires LinesDecide(cfg) && !line.Data? && Matches(cfg, s, k, from)
             && Connected(RelayControl(link, cfg, s, line, drained))
    ensures Matches(cfg, RelayControl(link, cfg, s, line, drained), TrackLine(cfg, k, line, drained), from)
  {
    hide Holds, WriteControl, DrainTimeout, Faithful, UpstreamSent, Wrote;
    var named, k1 := s.(name := NextName(s.name, line)), k.(name := NextName(k.name, line));
    var text := ControlText(line);
    var w := if text.Some? then WriteControl(link, cfg, named, text.value, drained) else named;
    var b := w.(holders := w.holders.(atBoundary := line.Blank? || line.Dropped?));
    assert Matches(cfg, named, k1, from);
    if text.Some? {
      WriteControlMatches(link, cfg, named, text.value, drained, k1, from);
    }
    var k' := TrackLine(cfg, k, line, drained);
    assert Matches(cfg, w, k', from);
    assert Matches(cfg, b, k', from);
    FramesHoldStill(link, cfg, b);
    StillMatches(cfg, b, DrainTimeout(link, cfg, b), k', from);
  }

  lemma LineMatches(link: Link, cfg: Config, s: State, line: Line, drained: bool, k: Track, from: nat)
    requires LinesDecide(cfg) && Matches(cfg, s, k, from)
    requires var r := Process(link, cfg, s, line, drained); r.stop.None? && Connected(r)
    ensures Matches(cfg, Process(link, cfg, s, line, drained), TrackLine(cfg, k, line, drained), from)
  {
    hide RelayData, RelayControl, Matches, Wrote;
    if line.Data? {
      assert s.stop.None? by { StopOf(cfg, s, k, from); }
      DataMatches(link, cfg, s, line.payload, k, from);
    } else {
      assert s.stop.None? by { StopOf(cfg, s, k, from); }
      ControlMatches(link, cfg, s, line, drained, k, from);
    }
  }

  lemma StopOf(cfg: Config, s: State, k: Track, from: nat)
    requires Matches(cfg, s, k, from)
    ensures s.stop.None?
  {
  }

  lemma StepMatches(link: Link, cfg: Config, s: State, step: Step, k: Track, from: nat)
    requires LinesDecide(cfg) && Matches(cfg, s, k, from)
    requires var r := Advance(link, cfg, s, step); r.Running? && Connected(r.state)
    ensures Matches(cfg, Advance(link, cfg, s, step).state, TrackStep(cfg, k, step), from)
  {
    hide Process, SendError, PutFrame, Write, Flush, BootstrapComment, TimeoutPlaceholder, Holds, Faithful, Visible,
         UpstreamSent, TrackLine;
    FramesHoldStill(link, cfg, s);
    match step
    case Upstream(line, drained) =>
      var p := Process(link, cfg, s, line, drained);
      BootstrapKeepsConnection(link, cfg, p);
      LineMatches(link, cfg, s, line, drained, k, from);
      FramesHoldStill(link, cfg, p);
      if s.holders.bootstrapPending {
        var b := BootstrapComment(link, cfg, p);
        StillMatches(cfg, p, b, TrackStep(cfg, k, step), from);
      }
    case BootstrapTimer =>
      if cfg.bootstrap {
        StillMatches(cfg, s, BootstrapComment(link, cfg, s), k, from);
      }
    case PlaceholderTimer =>
      StillMatches(cfg, s, TimeoutPlaceholder(link, cfg, s), k, from);
    case CoordinatorFrame =>
      StillMatches(cfg, s, Advance(link, cfg, s, step).state, k, from);
    case KeepaliveTimer(idle) =>
      if idle {
        KeepaliveHolds(link, s.pipe, from, k);
      }
    case _ =>
  }

  lemma BootstrapKeepsConnection(link: Link, cfg: Config, s: State)
    ensures Connected(BootstrapComment(link, cfg, s)) ==> Connected(s)
  {
    hide PutFrame, Faithful;
  }

  /** While the client is connected, the steps say exactly what the buffered writer holds, whether
      output has started, and whether anything of the upstream has reached the client. */
  lemma {:induction false} RunMatches(link: Link, cfg: Config, s: State, steps: seq<Step>, k: Track, from: nat)
    requires LinesDecide(cfg) && Matches(cfg, s, k, from)
    requires var r := RunSteps(link, cfg, s, steps); r.Running? && Connected(r.state)
    ensures Matches(cfg, RunSteps(link, cfg, s, steps).state, TrackAll(cfg, k, steps), from)
    decreases steps
  {
    hide Advance, Matches, TrackStep;
    if steps != [] {
      var next := Advance(link, cfg, s, steps[0]).state;
      StopOf(cfg, s, k, from);
      StepDecides(link, cfg, s, steps[0]);
      StillConnected(link, cfg, next, steps[1..]);
      StepMatches(link, cfg, s, steps[0], k, from);
      RunMatches(link, cfg, next, steps[1..], TrackStep(cfg, k, steps[0]), from);
    }
  }

  // ---- steps that let nothing out, whatever the connection does ------------------------------------------

  lemma PutGateway(link: Link, c: Client, t: Text)
    requires forall i | 0 <= i < |t| :: t[i].origin.FromGateway?
    ensures UpstreamSent(Put(link, c, t)) == UpstreamSent(c)
  {
    hide Advances, UpstreamOf, ReadsAsGateway;
    UpstreamOfNone(t);
    var outcome := link.write(c.writes);
    if outcome.Broken? && outcome.taken < |t| {
      UpstreamOfNone(t[..outcome.taken]);
    }
  }

  lemma RoomForLine(link: Link, p: Pipe, text: string, k: Track)
    requires |p.buffer| == k.held && !WroteLine(k, |text|).exposed
    ensures WriteLine(link, p, text).client == p.client
  {
    hide Put, Advances;
  }

  lemma SilentKeepalive(link: Link, p: Pipe)
    requires p.buffer == []
    ensures UpstreamSent(Flush(link, Write(link, p, Tag(FromGateway, ":\n\n"))).client) == UpstreamSent(p.client)
  {
    hide Put, Advances, UpstreamOf;
    var t := Tag(FromGateway, ":\n\n");
    assert p.buffer + t == t;
    PutGateway(link, p.client, t);
  }

  lemma SilentLine(link: Link, cfg: Config, s: State, line: Line, drained: bool, k: Track, from: nat)
    requires LinesDecide(cfg) && Matches(cfg, s, k, from) && !TrackLine(cfg, k, line, drained).exposed
    requires Process(link, cfg, s, line, drained).stop.None?
    ensures UpstreamSent(Process(link, cfg, s, line, drained).pipe.client) == UpstreamSent(s.pipe.client)
  {
    hide WriteLine, Flush, SafePlaceholder, DrainTimeout, Advances, UpstreamSent, Wrote, Judge, Tally, Noted, Visible,
         Answer, OnlyWrites;
    if line.Data? {
      var p := line.payload;
      var q := Sanitize(TypeOf(s.name, p), p, Visible(link, s));
      RoomForLine(link, s.pipe, q.wire, k.(name := NextName(k.name, line)));
    } else {
      var named := s.(name := NextName(s.name, line));
      if ControlText(line).Some? {
        var text := ControlText(line).value;
        RoomForLine(link, s.pipe, text, k.(name := NextName(k.name, line)));
        var f := named.(pipe := WriteLine(link, s.pipe, text));
        FramesHoldStill(link, cfg, f.(holders := s.holders.(safePending := false, atBoundary := true)));
      }
      var w := if ControlText(line).Some? then WriteControl(link, cfg, named, ControlText(line).value, drained)
               else named;
      FramesHoldStill(link, cfg, w.(holders := w.holders.(atBoundary := line.Blank? || line.Dropped?)));
    }
  }

  lemma SilentStep(link: Link, cfg: Config, s: State, step: Step, k: Track, from: nat)
    requires LinesDecide(cfg) && Matches(cfg, s, k, from) && !TrackStep(cfg, k, step).exposed
    requires Advance(link, cfg, s, step).Running?
    ensures UpstreamSent(Advance(link, cfg, s, step).state.pipe.client) == UpstreamSent(s.pipe.client)
  {
    hide Process, SendError, PutFrame, Write, Flush, BootstrapComment, TimeoutPlaceholder, Faithful, Visible,
         UpstreamSent, TrackLine;
    FramesHoldStill(link, cfg, s);
    match step
    case Upstream(line, drained) =>
      SilentLine(link, cfg, s, line, drained, k, from);
      FramesHoldStill(link, cfg, Process(link, cfg, s, line, drained));
    case KeepaliveTimer(idle) =>
      if idle {
        SilentKeepalive(link, s.pipe);
      }
    case _ =>
  }

  lemma {:induction false} ExposureStays(cfg: Config, k: Track, steps: seq<Step>)
    ensures k.exposed ==> TrackAll(cfg, k, steps).exposed
    decreases steps
  {
    if steps != [] {
      ExposureStays(cfg, TrackStep(cfg, k, steps[0]), steps[1..]);
    }
  }

  lemma {:induction false} GoneStays(link: Link, cfg: Config, s: State, steps: seq<Step>)
    requires s.stop.None? && !Connected(s) && RunSteps(link, cfg, s, steps).Running?
    ensures RunSteps(link, cfg, s, steps).state.pipe.client == s.pipe.client
    decreases steps
  {
    hide Advance;
    if steps != [] {
      StepEvolves(link, cfg, s, steps[0]);
      StepDecides(link, cfg, s, steps[0]);
      GoneStays(link, cfg, Advance(link, cfg, s, steps[0]).state, steps[1..]);
    }
  }

  /** If no step lets anything out, no client has received anything, also when its connection broke. */
  lemma {:induction false} UnexposedIsFree(link: Link, cfg: Config, s: State, steps: seq<Step>, k: Track, from: nat)
    requires LinesDecide(cfg) && Matches(cfg, s, k, from) && !TrackAll(cfg, k, steps).exposed
    requires RunSteps(link, cfg, s, steps).Running?
    ensures |UpstreamSent(RunSteps(link, cfg, s, steps).state.pipe.client)| == from
    decreases steps
  {
    hide Advance, TrackStep, UpstreamSent;
    if steps != [] {
      var next, k' := Advance(link, cfg, s, steps[0]).state, TrackStep(cfg, k, steps[0]);
      ExposureStays(cfg, k', steps[1..]);
      ExposureStays(cfg, k, steps);
      StepDecides(link, cfg, s, steps[0]);
      SilentStep(link, cfg, s, steps[0], k, from);
      if Connected(next) {
        StepMatches(link, cfg, s, steps[0], k, from);
        UnexposedIsFree(link, cfg, next, steps[1..], k', from);
      } else {
        GoneStays(link, cfg, next, steps[1..]);
      }
    } else {
      ExposureStays(cfg, k, steps);
    }
  }

  // ---- failover --------------------------------------------------------------------------------------

  /** Whether the steps of a relay let anything of the upstream out. */
  predicate Exposes(cfg: Config, preflushed: bool, placeholderSent: bool, steps: seq<Step>) {
    TrackAll(cfg, Begin(cfg, preflushed, placeholderSent), steps).exposed
  }

  lemma FailoverWritesNothing(link: Link, cfg: Config, s: State, last: Step)
    requires s.stop.None?
    ensures var r := Advance(link, cfg, s, last);
            r.Ended? && r.exit.Failover? ==> r.state.pipe.client == s.pipe.client
  {
    hide ForwardData, RelayControl, SendError, PutFrame, Write, Flush, BootstrapComment, TimeoutPlaceholder, Answer,
         Faithful, Visible;
  }

  lemma BeginMatches(link: Link, cfg: Config, client: Client, preflushed: bool, placeholderSent: bool)
    ensures Matches(cfg, Start(client, cfg, preflushed, placeholderSent), Begin(cfg, preflushed, placeholderSent),
                    |UpstreamSent(client)|)
  {
  }

  lemma {:induction false} SentGrows(link: Link, cfg: Config, s: State, steps: seq<Step>)
    requires s.stop.None? && RunSteps(link, cfg, s, steps).Running?
    ensures s.pipe.client.sent <= RunSteps(link, cfg, s, steps).state.pipe.client.sent
    decreases steps
  {
    hide Advance;
    if steps != [] {
      StepEvolves(link, cfg, s, steps[0]);
      StepDecides(link, cfg, s, steps[0]);
      SentGrows(link, cfg, Advance(link, cfg, s, steps[0]).state, steps[1..]);
    }
  }

  /** When a run ends in transparent failover: if its steps let nothing out, the client has received
      nothing of the upstream; and a client that is still there has received nothing exactly then. */
  lemma FailoverByExposure(
      link: Link, cfg: Config, client: Client, preflushed: bool, placeholderSent: bool, steps: seq<Step>, last: Step)
    requires LinesDecide(cfg)
    requires var s := Start(client, cfg, preflushed, placeholderSent);
             && RunSteps(link, cfg, s, steps).Running?
             && RunSteps(link, cfg, s, steps + [last]).Ended?
             && RunSteps(link, cfg, s, steps + [last]).exit.Failover?
    ensures var r := RunSteps(link, cfg, Start(client, cfg, preflushed, placeholderSent), steps + [last]).state;
            && (!Exposes(cfg, preflushed, placeholderSent, steps) ==>
                  UpstreamSent(r.pipe.client) == UpstreamSent(client))
            && (Connected(r) ==> (UpstreamSent(r.pipe.client) == UpstreamSent(client)
                                  <==> !Exposes(cfg, preflushed, placeholderSent, steps)))
  {
    hide RunSteps, Advance, UpstreamSent, Matches, TrackAll, Begin;
    var s, k := Start(client, cfg, preflushed, placeholderSent), Begin(cfg, preflushed, placeholderSent);
    var mid := RunSteps(link, cfg, s, steps).state;
    BeginMatches(link, cfg, client, preflushed, placeholderSent);
    RunDecides(link, cfg, s, steps);
    RunThenEnd(link, cfg, s, steps, last);
    FailoverWritesNothing(link, cfg, mid, last);
    SentGrows(link, cfg, s, steps);
    assert UpstreamSent(client) <= UpstreamSent(mid.pipe.client) by {
      assert UpstreamSent(client) == UpstreamOf(Received(client.sent)) by { SentMeans(client); }
      SentMeans(mid.pipe.client);
      SentPrefix(client.sent, mid.pipe.client.sent);
    }
    if !Exposes(cfg, preflushed, placeholderSent, steps) {
      UnexposedIsFree(link, cfg, s, steps, k, |UpstreamSent(client)|);
    }
    if Connected(mid) {
      RunMatches(link, cfg, s, steps, k, |UpstreamSent(client)|);
      ExposedMeans(cfg, mid, TrackAll(cfg, k, steps), |UpstreamSent(client)|);
    }
  }

  lemma ExposedMeans(cfg: Config, s: State, k: Track, from: nat)
    requires Matches(cfg, s, k, from)
    ensures |UpstreamSent(s.pipe.client)| == from <==> !k.exposed
    ensures |s.pipe.buffer| == k.held && AllUpstream(s.pipe.buffer)
  {
  }

  // ---- delivery after a break --------------------------------------------------------------------------------

  /** When the upstream breaks right after its terminal event, the relay reports success without
      flushing: a coordinated client that is still connected may have received nothing of it. */
  lemma BrokenAfterTerminalLosesOutput(cfg: Config) returns (link: Link, client: Client, steps: seq<Step>)
    requires cfg.gatewayOnly
    ensures link.wrapped && Faithful(link, client) && client.active && client.sent == []
    ensures var s := Start(client, cfg, false, false);
            var r := RunSteps(link, cfg, s, steps + [ScanFailed(OtherError)]);
            && r.Ended? && r.exit.Finished? && Connected(r.state) && ResultTerminal(r.state.verdict).Completed?
            && KeptAlong(link, cfg, s, steps) != [] && r.state.pipe.client.sent == []
  {
    link, client := Clear(true, payload => false), NewClient(true);
    var completed := Delta("data: x", false, "").(ptype := Completed);
    steps := [Upstream(Data(completed), true)];
    var s := Start(client, cfg, false, false);
    assert RunSteps(link, cfg, s, steps) == Advance(link, cfg, s, steps[0]) by { assert steps[1..] == []; }
    RunThenEnd(link, cfg, s, steps, ScanFailed(OtherError));
    assert steps[1..] == [] && KeptAlong(link, cfg, s, steps) == Rendered(link, s, steps[0].line) + [];
  }

  /** A run reported as a success after a read error has delivered everything exactly when its steps
      leave nothing in the buffered writer. */
  lemma BrokenDeliversExactly(
      link: Link, cfg: Config, client: Client, preflushed: bool, placeholderSent: bool, steps: seq<Step>,
      error: ScanError)
    requires LinesDecide(cfg)
    requires var s := Start(client, cfg, preflushed, placeholderSent);
             && RunSteps(link, cfg, s, steps).Running?
             && RunSteps(link, cfg, s, steps + [ScanFailed(error)]).Ended?
             && RunSteps(link, cfg, s, steps + [ScanFailed(error)]).exit.Finished?
             && Connected(RunSteps(link, cfg, s, steps + [ScanFailed(error)]).state)
    ensures var s := Start(client, cfg, preflushed, placeholderSent);
            var r := RunSteps(link, cfg, s, steps + [ScanFailed(error)]);
            UpstreamSent(r.state.pipe.client) == UpstreamSent(client) + KeptAlong(link, cfg, s, steps)
            <==> TrackAll(cfg, Begin(cfg, preflushed, placeholderSent), steps).held == 0
  {
    hide UpstreamSent, UpstreamOf, RunSteps, KeptAlong, SendError, TrackAll, Begin, Matches;
    var s, k := Start(client, cfg, preflushed, placeholderSent), Begin(cfg, preflushed, placeholderSent);
    var mid := RunSteps(link, cfg, s, steps).state;
    RunThenEnd(link, cfg, s, steps, ScanFailed(error));
    assert RunSteps(link, cfg, s, steps + [ScanFailed(error)]).state == mid;
    BeginMatches(link, cfg, client, preflushed, placeholderSent);
    RunMatches(link, cfg, s, steps, k, |UpstreamSent(client)|);
    ExposedMeans(cfg, mid, TrackAll(cfg, k, steps), |UpstreamSent(client)|);
    RunConserves(link, cfg, s, steps);
    UpstreamOfAll(mid.pipe.buffer);
    UpstreamOfAll([]);
    assert UpstreamSent(mid.pipe.client) + mid.pipe.buffer == UpstreamSent(client) + KeptAlong(link, cfg, s, steps);
  }
}
