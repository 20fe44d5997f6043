/** The gateway's own placeholders in the stream of a passthrough relay: how many there can be, and when. */
module PassthroughRelayFrames {
  import opened StreamEvents
  import opened Downstream
  import opened Relays
  import opened PassthroughRelay
  import opened PassthroughRelayProofs

  const COMMENT := ":\n\n"

  function Bit(b: bool): nat {
    if b then 1 else 0
  }

  /** The placeholders the relay may still write. */
  function Left(cfg: Config, h: Placeholders): nat {
    Bit(cfg.safePlaceholder && !h.safeSent) + Bit(cfg.timeoutPlaceholder && !h.timeoutSent)
  }

  /** Those written and those it may still write. */
  function Total(cfg: Config, s: State): nat {
    Times(cfg.tokenFrame, s.client.sent) + Left(cfg, s.holders)
  }

  lemma FramesSpend(link: Link, cfg: Config, s: State)
    requires cfg.tokenFrame != COMMENT
    ensures Total(cfg, SafePlaceholder(link, cfg, s)) <= Total(cfg, s)
    ensures Total(cfg, TimeoutPlaceholder(link, cfg, s)) <= Total(cfg, s)
    ensures Total(cfg, DrainTimeout(link, cfg, s)) <= Total(cfg, s)
    ensures Total(cfg, BootstrapComment(link, cfg, s)) <= Total(cfg, s)
  {
    hide PutFrame, Times, Advances, OnlyWrites, Visible;
    PutFrameTimes(link, s.client, cfg.tokenFrame, true, cfg.tokenFrame);
    PutFrameTimes(link, s.client, COMMENT, false, cfg.tokenFrame);
  }

  lemma {:induction false} PutLinesTimes(link: Link, c: Client, lines: seq<string>, frame: string)
    ensures Times(frame, PutLines(link, c, lines).sent) == Times(frame, c.sent)
    decreases lines
  {
    hide Put, Times, LineText;
    if lines != [] {
      PutTimes(link, c, LineText(lines[0]), frame);
      PutLinesTimes(link, Put(link, c, LineText(lines[0])), lines[1..], frame);
    }
  }

  lemma EmitSpends(link: Link, cfg: Config, s: State, text: string, opens: bool)
    ensures Total(cfg, Emit(link, s, text, opens)) == Total(cfg, s)
  {
    hide Put, PutLines, Times, LineText, OnlyWrites;
    PutLinesTimes(link, s.client, s.pending, cfg.tokenFrame);
    var w := if s.outputStarted then s else WritePending(link, s);
    PutTimes(link, w.client, LineText(text), cfg.tokenFrame);
  }

  lemma LineSpends(link: Link, cfg: Config, s: State, line: Line)
    requires cfg.tokenFrame != COMMENT
    ensures var r := Process(link, cfg, s, line); r.Running? ==> Total(cfg, r.state) <= Total(cfg, s)
  {
    hide Emit, SafePlaceholder, DrainTimeout, Answer, Judge, Tally, OpensOutput, Visible, Sanitize, Times, OnlyWrites,
         ReadUsage, Observed, EarlyStop, Advances;
    if line.Data? {
      var t := TypeOf(s.name, line.payload);
      var q := Sanitize(t, line.payload, Visible(link, s));
      EmitSpends(link, cfg, Examine(cfg, s, t, line.payload, q), q.wire, OpensOutput(cfg, t, line.payload));
    } else if ControlText(line).Some? {
      var named := s.(name := NextName(s.name, line));
      EmitSpends(link, cfg, named, ControlText(line).value, false);
      var w := Emit(link, named, ControlText(line).value, false);
      var cleared := w.(holders := w.holders.(safePending := false));
      FramesSpend(link, cfg, w);
      FramesSpend(link, cfg, cleared);
      FramesSpend(link, cfg, SafePlaceholder(link, cfg, cleared));
    }
  }

  lemma StepSpends(link: Link, cfg: Config, s: State, step: Step)
    requires cfg.tokenFrame != COMMENT && !step.CoordinatorFrame?
    ensures var r := Advance(link, cfg, s, step); r.Running? ==> Total(cfg, r.state) <= Total(cfg, s)
  {
    hide Process, SendFailure, PutFrame, BootstrapComment, TimeoutPlaceholder, DrainTimeout, Visible, Times,
         OnlyWrites;
    FramesSpend(link, cfg, s);
    if step.Upstream? {
      LineSpends(link, cfg, s, step.line);
      var p := Process(link, cfg, s, step.line).state;
      FramesSpend(link, cfg, p);
      var b := if s.holders.bootstrapPending then WithBootstrap(link, BootstrapComment(link, cfg, p)) else p;
      FramesSpend(link, cfg, b);
    }
  }

  /** Besides those of the coordinator's own timer, the relay writes at most one safe and one timeout
      placeholder, each only if configured, and none after one was sent for the request before. */
  lemma {:induction false} FewPlaceholders(link: Link, cfg: Config, s: State, steps: seq<Step>)
    requires cfg.tokenFrame != COMMENT && forall i | 0 <= i < |steps| :: !steps[i].CoordinatorFrame?
    requires RunSteps(link, cfg, s, steps).Running?
    ensures Total(cfg, RunSteps(link, cfg, s, steps).state) <= Total(cfg, s)
    decreases steps
  {
    hide Advance, Total;
    if steps != [] {
      StepSpends(link, cfg, s, steps[0]);
      FewPlaceholders(link, cfg, Advance(link, cfg, s, steps[0]).state, steps[1..]);
    }
  }

  // ---- after the first token ------------------------------------------------------------------------------


  predicate Over(s: State) {
    s.holders.ttftSeen || s.holders.timeoutSent
  }

  lemma FramesStayOver(link: Link, cfg: Config, s: State)
    ensures Over(s) ==> Over(SafePlaceholder(link, cfg, s)) && Over(TimeoutPlaceholder(link, cfg, s))
    ensures Over(s) ==> Over(DrainTimeout(link, cfg, s)) && Over(BootstrapComment(link, cfg, s))
    ensures Over(s) ==> TimeoutPlaceholder(link, cfg, s).client == s.client
  {
    hide PutFrame, Advances, OnlyWrites, Visible;
  }

  lemma DataStaysOver(link: Link, cfg: Config, s: State, p: Payload)
    ensures var r := RelayData(link, cfg, s, p);
            r.Running? && (Over(s) || (cfg.timeoutPlaceholder && IsMarked(FirstToken, false, s.name, Data(p)))) ==>
              Over(r.state)
  {
    hide Emit, Answer, Judge, Tally, OpensOutput, Visible, ReadUsage, NeedsSanitizing, Advances, Observed, EarlyStop;
  }

  lemma ControlStaysOver(link: Link, cfg: Config, s: State, line: Line)
    requires !line.Data? && Over(s)
    ensures Over(RelayControl(link, cfg, s, line))
  {
    hide Emit, SafePlaceholder, DrainTimeout, Advances;
    if ControlText(line).Some? {
      var w := Emit(link, s.(name := NextName(s.name, line)), ControlText(line).value, false);
      var cleared := w.(holders := w.holders.(safePending := false));
      FramesStayOver(link, cfg, w);
      FramesStayOver(link, cfg, cleared);
      FramesStayOver(link, cfg, SafePlaceholder(link, cfg, cleared));
    }
  }

  lemma LineStaysOver(link: Link, cfg: Config, s: State, line: Line)
    ensures var r := Process(link, cfg, s, line);
            r.Running? && (Over(s) || (cfg.timeoutPlaceholder && IsMarked(FirstToken, false, s.name, line))) ==>
              Over(r.state)
  {
    hide RelayData, RelayControl;
    if line.Data? {
      DataStaysOver(link, cfg, s, line.payload);
    } else if Over(s) {
      ControlStaysOver(link, cfg, s, line);
    }
  }

  lemma StepStaysOver(link: Link, cfg: Config, s: State, step: Step)
    ensures var r := Advance(link, cfg, s, step);
            r.Running?
            && (Over(s) || (cfg.timeoutPlaceholder && AnyMarked(FirstToken, false, s.name, LinesOf([step])))) ==>
              Over(r.state)
  {
    hide Process, SendFailure, PutFrame, BootstrapComment, TimeoutPlaceholder, DrainTimeout, Visible, IsMarked;
    assert [step][1..] == [] && LinesOf([]) == [];
    FramesStayOver(link, cfg, s);
    if step.Upstream? {
      assert LinesOf([step]) == [step.line];
      MarksOfOne(s.name, step.line);
      LineStaysOver(link, cfg, s, step.line);
      var p := Process(link, cfg, s, step.line).state;
      FramesStayOver(link, cfg, p);
      var b := if s.holders.bootstrapPending then WithBootstrap(link, BootstrapComment(link, cfg, p)) else p;
      FramesStayOver(link, cfg, b);
    } else {
      NoMarks(s.name);
    }
  }

  lemma {:induction false} RunStaysOver(link: Link, cfg: Config, s: State, steps: seq<Step>)
    requires cfg.timeoutPlaceholder && RunSteps(link, cfg, s, steps).Running?
    requires Over(s) || AnyMarked(FirstToken, false, s.name, LinesOf(steps))
    ensures Over(RunSteps(link, cfg, s, steps).state)
    decreases steps
  {
    hide Advance, AnyMarked, NameAfter;
    if steps == [] {
      NoMarks(s.name);
    } else {
      StepStaysOver(link, cfg, s, steps[0]);
      StepDecides(link, cfg, s, steps[0]);
      assert [steps[0]][1..] == [] && LinesOf([]) == [];
      assert LinesOf(steps) == LinesOf([steps[0]]) + LinesOf(steps[1..]);
      MarksSplit(s.name, LinesOf([steps[0]]), LinesOf(steps[1..]));
      RunStaysOver(link, cfg, Advance(link, cfg, s, steps[0]).state, steps[1..]);
    }
  }

  /** Once the upstream has sent a token that counts, the timeout placeholder is not written any more. */
  lemma NoTimeoutAfterToken(link: Link, cfg: Config, s: State, steps: seq<Step>)
    requires cfg.timeoutPlaceholder && RunSteps(link, cfg, s, steps).Running?
    requires AnyMarked(FirstToken, false, s.name, LinesOf(steps))
    ensures var mid := RunSteps(link, cfg, s, steps).state;
            RunSteps(link, cfg, s, steps + [PlaceholderTimer]).state.client == mid.client
  {
    hide RunSteps, AnyMarked, TimeoutPlaceholder, Over;
    RunStaysOver(link, cfg, s, steps);
    RunThenEnd(link, cfg, s, steps, PlaceholderTimer);
    FramesStayOver(link, cfg, RunSteps(link, cfg, s, steps).state);
  }

  // ---- the safe placeholder ---------------------------------------------------------------------------------

  /** The safe placeholder and the announcement it waits for, before and after some lines; what is marked
      as sent was handed to the client's writer. */
  ghost predicate Follows(s: State, r: State, lines: seq<Line>) {
    && r.holders.safePending == OpenAfter(s.holders.safePending, s.name, lines)
    && (s.holders.timeoutSent ==> r.holders.timeoutSent)
    && (s.holders.safeSent || Announced(s.holders.safePending, s.name, lines) ==> r.holders.safeSent)
    && (r.holders.safeSent ==>
          s.holders.safeSent || r.holders.timeoutSent || Announced(s.holders.safePending, s.name, lines))
    && s.client.frames <= r.client.frames
    && (r.holders.safeSent && !s.holders.safeSent ==> s.client.frames < r.client.frames)
  }

  /** A frame other than the safe placeholder. */
  ghost predicate Aside(s: State, r: State) {
    && r.holders.safePending == s.holders.safePending
    && (s.holders.timeoutSent ==> r.holders.timeoutSent) && (s.holders.safeSent ==> r.holders.safeSent)
    && (r.holders.safeSent ==> s.holders.safeSent || r.holders.timeoutSent)
    && s.client.frames <= r.client.frames
    && (r.holders.safeSent && !s.holders.safeSent ==> s.client.frames < r.client.frames)
  }

  lemma OtherFrames(link: Link, cfg: Config, s: State)
    ensures Aside(s, TimeoutPlaceholder(link, cfg, s)) && Aside(s, DrainTimeout(link, cfg, s))
    ensures Aside(s, BootstrapComment(link, cfg, s))
  {
    hide Advances, OnlyWrites, Visible, PutFrame;
    FrameCounts(link, s.client, cfg.tokenFrame, true);
    FrameCounts(link, s.client, COMMENT, false);
  }

  lemma {:induction false} PutLinesFrames(link: Link, c: Client, lines: seq<string>)
    ensures PutLines(link, c, lines).frames == c.frames
    decreases lines
  {
    hide Put, LineText;
    if lines != [] {
      PutIsNoFrame(link, c, LineText(lines[0]));
      PutLinesFrames(link, Put(link, c, LineText(lines[0])), lines[1..]);
    }
  }

  lemma EmitFrames(link: Link, s: State, text: string, opens: bool)
    requires Ordered(s)
    ensures var r := Emit(link, s, text, opens);
            && r.client.frames == s.client.frames && (Connected(r) && text == "" ==> AtBoundary(r))
  {
    hide Put, PutLines, LineText;
    PutLinesFrames(link, s.client, s.pending);
    PutIsNoFrame(link, (if s.outputStarted then s else WritePending(link, s)).client, LineText(text));
  }

  lemma SafeIsSent(link: Link, cfg: Config, s: State)
    requires cfg.safePlaceholder && AtBoundary(s)
    ensures var r := SafePlaceholder(link, cfg, s);
            Connected(r) ==>
              && Connected(s) && r.holders == s.holders.(safeSent := true) && s.client.frames <= r.client.frames
              && (!s.holders.safeSent ==> s.client.frames < r.client.frames)
  {
    hide Append, Advances, OnlyWrites;
  }

  lemma EndEventFollows(link: Link, cfg: Config, s: State)
    requires cfg.safePlaceholder && AtBoundary(s)
    ensures var r := EndEvent(link, cfg, s);
            Connected(r) ==>
              && Connected(s) && !r.holders.safePending && (s.holders.timeoutSent ==> r.holders.timeoutSent)
              && (s.holders.safeSent || s.holders.safePending ==> r.holders.safeSent)
              && (r.holders.safeSent ==> s.holders.safeSent || r.holders.timeoutSent || s.holders.safePending)
              && s.client.frames <= r.client.frames
              && (r.holders.safeSent && !s.holders.safeSent ==> s.client.frames < r.client.frames)
  {
    hide SafePlaceholder, DrainTimeout, Faithful;
    var cleared := s.(holders := s.holders.(safePending := false));
    SafeIsSent(link, cfg, cleared);
    OtherFrames(link, cfg, s);
    OtherFrames(link, cfg, SafePlaceholder(link, cfg, cleared));
  }

  lemma LineFollows(link: Link, cfg: Config, s: State, line: Line)
    requires cfg.safePlaceholder && Ordered(s) && (line.Named? ==> line.text != "")
    ensures var r := Process(link, cfg, s, line);
            r.Running? && Connected(r.state) ==> Follows(s, r.state, [line])
  {
    hide Emit, EndEvent, Answer, Judge, Tally, OpensOutput, Visible, ReadUsage, NeedsSanitizing, Faithful;
    AnnouncedByOne(s.holders.safePending, s.name, line);
    if line.Data? {
      var t := TypeOf(s.name, line.payload);
      var q := Sanitize(t, line.payload, Visible(link, s));
      EmitFrames(link, Examine(cfg, s, t, line.payload, q), q.wire, OpensOutput(cfg, t, line.payload));
    } else if ControlText(line).Some? {
      var named := s.(name := NextName(s.name, line));
      EmitFrames(link, named, ControlText(line).value, false);
      var w := Emit(link, named, ControlText(line).value, false);
      if ControlText(line).value == "" && Connected(w) {
        EndEventFollows(link, cfg, w);
      }
    }
  }

  lemma StepFollows(link: Link, cfg: Config, s: State, step: Step)
    requires cfg.safePlaceholder && Ordered(s) && Spelled(LinesOf([step]))
    ensures var r := Advance(link, cfg, s, step);
            r.Running? && Connected(r.state) ==> Follows(s, r.state, LinesOf([step]))
  {
    hide Process, SendFailure, BootstrapComment, TimeoutPlaceholder, DrainTimeout, Visible, OpenAfter, Announced,
         Append, Faithful;
    assert [step][1..] == [] && LinesOf([]) == [];
    AnnouncedByOne(s.holders.safePending, s.name, Blank);
    OtherFrames(link, cfg, s);
    if step.Upstream? {
      assert LinesOf([step]) == [step.line] && LinesOf([step])[0] == step.line;
      LineFollows(link, cfg, s, step.line);
      var p := Process(link, cfg, s, step.line).state;
      OtherFrames(link, cfg, p);
      var b := if s.holders.bootstrapPending then WithBootstrap(link, BootstrapComment(link, cfg, p)) else p;
      OtherFrames(link, cfg, b);
    }
  }

  lemma {:induction false} RunFollows(link: Link, cfg: Config, s: State, steps: seq<Step>)
    requires cfg.safePlaceholder && LinesDecide(cfg) && Settled(cfg, s) && Spelled(LinesOf(steps))
    requires RunSteps(link, cfg, s, steps).Running? && Connected(RunSteps(link, cfg, s, steps).state)
    ensures Follows(s, RunSteps(link, cfg, s, steps).state, LinesOf(steps))
    decreases steps
  {
    hide Advance, OpenAfter, Announced, NameAfter;
    assert [] == LinesOf([]);
    AnnouncedByOne(s.holders.safePending, s.name, Blank);
    if steps != [] {
      var next := Advance(link, cfg, s, steps[0]).state;
      assert [steps[0]][1..] == [];
      var one, rest := LinesOf([steps[0]]), LinesOf(steps[1..]);
      assert LinesOf(steps) == one + rest;
      SpelledSplit(one, rest);
      StepConserves(link, cfg, s, steps[0]);
      StepDecides(link, cfg, s, steps[0]);
      RunConserves(link, cfg, next, steps[1..]);
      StepFollows(link, cfg, s, steps[0]);
      RunFollows(link, cfg, next, steps[1..]);
      AnnouncedSplit(s.holders.safePending, s.name, one, rest);
    }
  }

  /** For a client that is still there, the safe placeholder has been sent once the event that announces a
      response has ended; and it is sent for no other reason than that, a timeout, or an earlier one. */
  lemma SafePlaceholderExactly(
      link: Link, cfg: Config, client: Client, preflushed: bool, placeholderSent: bool, steps: seq<Step>)
    requires cfg.safePlaceholder && Coherent(cfg) && Spelled(LinesOf(steps))
    requires var r := RunSteps(link, cfg, Start(client, cfg, preflushed, placeholderSent), steps);
             r.Running? && Connected(r.state)
    ensures var h := RunSteps(link, cfg, Start(client, cfg, preflushed, placeholderSent), steps).state.holders;
            var announced := exists i: nat :: CreatedThenBlank(NoType, LinesOf(steps), i);
            && (placeholderSent || announced ==> h.safeSent)
            && (h.safeSent ==> placeholderSent || announced || h.timeoutSent)
  {
    hide RunSteps, OpenAfter, Announced, CreatedThenBlank, Spelled;
    RunFollows(link, cfg, Start(client, cfg, preflushed, placeholderSent), steps);
    AnnouncedExactly(false, NoType, LinesOf(steps));
  }

  // ---- between events -----------------------------------------------------------------------------------------

  /** A frame is written only between events, and one that breaks the connection starts no output. */
  ghost predicate Placed(s: State, r: State) {
    && s.client.frames <= r.client.frames && (s.client.frames < r.client.frames ==> AtBoundary(r))
    && (Connected(s) && !Connected(r) ==> r.outputStarted == s.outputStarted)
  }

  lemma FramesArePlaced(link: Link, cfg: Config, s: State)
    ensures Placed(s, SafePlaceholder(link, cfg, s)) && Placed(s, TimeoutPlaceholder(link, cfg, s))
    ensures Placed(s, DrainTimeout(link, cfg, s)) && Placed(s, BootstrapComment(link, cfg, s))
  {
    hide Advances, OnlyWrites, Visible, PutFrame;
    FrameCounts(link, s.client, cfg.tokenFrame, true);
    FrameCounts(link, s.client, COMMENT, false);
  }

  lemma EndEventIsPlaced(link: Link, cfg: Config, s: State)
    ensures var r := EndEvent(link, cfg, s);
            s.client.frames <= r.client.frames && (s.client.frames < r.client.frames ==> AtBoundary(r))
  {
    hide SafePlaceholder, DrainTimeout, Advances;
    var cleared := s.(holders := s.holders.(safePending := false));
    FramesArePlaced(link, cfg, s);
    FramesArePlaced(link, cfg, cleared);
    FramesArePlaced(link, cfg, SafePlaceholder(link, cfg, cleared));
  }

  lemma LineIsPlaced(link: Link, cfg: Config, s: State, line: Line)
    requires Ordered(s)
    ensures var r := Process(link, cfg, s, line);
            r.Running? ==>
              && s.client.frames <= r.state.client.frames
              && (s.client.frames < r.state.client.frames ==> AtBoundary(r.state))
  {
    hide Emit, EndEvent, Answer, Judge, Tally, OpensOutput, Visible, Sanitize, ReadUsage, Faithful, AtBoundary;
    if line.Data? {
      var t := TypeOf(s.name, line.payload);
      var q := Sanitize(t, line.payload, Visible(link, s));
      EmitFrames(link, Examine(cfg, s, t, line.payload, q), q.wire, OpensOutput(cfg, t, line.payload));
    } else if ControlText(line).Some? {
      var named := s.(name := NextName(s.name, line));
      EmitFrames(link, named, ControlText(line).value, false);
      EndEventIsPlaced(link, cfg, Emit(link, named, ControlText(line).value, false));
    }
  }

  /** While lines are held back, no step but the coordinator's own writes a frame inside an event. */
  lemma FramesBetweenEvents(link: Link, cfg: Config, s: State, step: Step)
    requires Ordered(s) && !step.CoordinatorFrame?
    ensures var r := Advance(link, cfg, s, step);
            r.Running? ==>
              && s.client.frames <= r.state.client.frames
              && (s.client.frames < r.state.client.frames ==> AtBoundary(r.state))
  {
    hide Process, SendFailure, PutFrame, BootstrapComment, TimeoutPlaceholder, DrainTimeout, Visible, Faithful,
         AtBoundary;
    FramesArePlaced(link, cfg, s);
    BoundaryIsPending(BootstrapComment(link, cfg, s), WithBootstrap(link, BootstrapComment(link, cfg, s)));
    if step.Upstream? {
      LineIsPlaced(link, cfg, s, step.line);
      var p := Process(link, cfg, s, step.line).state;
      FramesArePlaced(link, cfg, p);
      var b := if s.holders.bootstrapPending then WithBootstrap(link, BootstrapComment(link, cfg, p)) else p;
      FramesArePlaced(link, cfg, b);
      BoundaryIsPending(p, b);
      BoundaryIsPending(b, DrainTimeout(link, cfg, b));
      BoundaryIsPending(BootstrapComment(link, cfg, p), b);
    }
  }

  lemma BoundaryIsPending(s: State, r: State)
    requires s.pending == r.pending
    ensures AtBoundary(s) == AtBoundary(r)
  {
  }

  // ---- the timeout placeholder ------------------------------------------------------------------------------

  /** The timeout placeholder is on its way: sent, overtaken by a token, or waiting for the end of an event. */
  predicate UnderWay(s: State) {
    s.holders.timeoutSent || s.holders.ttftSeen || s.holders.timeoutPending
  }

  /** It waits inside an event only. */
  predicate WaitsInside(s: State) {
    s.holders.timeoutPending ==> !AtBoundary(s)
  }

  /** The timer has left a trace. */
  predicate Noticed(s: State) {
    s.holders.timeoutSent || s.holders.timeoutPending
  }

  /** A step other than the timer, for a client that is still there. */
  ghost predicate KeepsWaiting(s: State, r: State) {
    (UnderWay(s) ==> UnderWay(r)) && (!Noticed(s) ==> !Noticed(r))
  }

  lemma TimerIsHeard(link: Link, cfg: Config, s: State)
    requires cfg.timeoutPlaceholder
    ensures var r := TimeoutPlaceholder(link, cfg, s);
            Connected(r) ==> UnderWay(r) && WaitsInside(r) && (UnderWay(s) ==> UnderWay(r))
  {
    hide PutFrame, Advances, OnlyWrites;
  }

  lemma DrainServes(link: Link, cfg: Config, s: State)
    requires cfg.timeoutPlaceholder
    ensures var r := DrainTimeout(link, cfg, s); Connected(r) ==> WaitsInside(r) && KeepsWaiting(s, r)
  {
    hide TimeoutPlaceholder, AtBoundary;
    TimerIsHeard(link, cfg, s);
  }

  lemma FramesKeepWaiting(link: Link, cfg: Config, s: State)
    ensures KeepsWaiting(s, SafePlaceholder(link, cfg, s)) && KeepsWaiting(s, BootstrapComment(link, cfg, s))
    ensures BootstrapComment(link, cfg, s).holders == s.holders
  {
    hide PutFrame, Advances, OnlyWrites, Visible;
  }

  lemma LineKeepsWaiting(link: Link, cfg: Config, s: State, line: Line)
    requires cfg.timeoutPlaceholder
    ensures var r := Process(link, cfg, s, line); r.Running? && Connected(r.state) ==> KeepsWaiting(s, r.state)
  {
    hide Emit, SafePlaceholder, DrainTimeout, Answer, Judge, Tally, OpensOutput, Visible, ReadUsage, Sanitize, Observed,
         AtBoundary, Faithful;
    if !line.Data? && ControlText(line).Some? {
      var w := Emit(link, s.(name := NextName(s.name, line)), ControlText(line).value, false);
      var cleared := w.(holders := w.holders.(safePending := false));
      DrainServes(link, cfg, w);
      FramesKeepWaiting(link, cfg, cleared);
      DrainServes(link, cfg, SafePlaceholder(link, cfg, cleared));
    }
  }

  lemma StepKeepsWaiting(link: Link, cfg: Config, s: State, step: Step)
    requires cfg.timeoutPlaceholder && WaitsInside(s)
    ensures var r := Advance(link, cfg, s, step);
            r.Running? && Connected(r.state) ==>
              && Connected(s) && WaitsInside(r.state)
              && (if step.PlaceholderTimer? then UnderWay(r.state) else KeepsWaiting(s, r.state))
  {
    hide Process, SendFailure, PutFrame, BootstrapComment, TimeoutPlaceholder, DrainTimeout, Visible, Faithful,
         AtBoundary;
    if step.Upstream? {
      LineEvolves(link, cfg, s, step.line);
      LineKeepsWaiting(link, cfg, s, step.line);
      var p := Process(link, cfg, s, step.line).state;
      FramesKeepWaiting(link, cfg, p);
      var b := if s.holders.bootstrapPending then WithBootstrap(link, BootstrapComment(link, cfg, p)) else p;
      DrainServes(link, cfg, b);
    } else {
      TimerIsHeard(link, cfg, s);
      FramesKeepWaiting(link, cfg, s);
      BoundaryIsPending(s, BootstrapComment(link, cfg, s));
      if Advance(link, cfg, s, step).Running? {
        BoundaryIsPending(s, Advance(link, cfg, s, step).state);
      }
    }
  }

  ghost predicate Fired(steps: seq<Step>) {
    exists i :: 0 <= i < |steps| && steps[i].PlaceholderTimer?
  }

  lemma FiredShifts(steps: seq<Step>)
    requires steps != []
    ensures Fired(steps) <==> steps[0].PlaceholderTimer? || Fired(steps[1..])
  {
    if i :| 0 < i < |steps| && steps[i].PlaceholderTimer? {
      assert steps[1..][i - 1].PlaceholderTimer?;
    }
    if i :| 0 <= i < |steps[1..]| && steps[1..][i].PlaceholderTimer? {
      assert steps[i + 1].PlaceholderTimer?;
    }
  }

  lemma {:induction false} RunKeepsWaiting(link: Link, cfg: Config, s: State, steps: seq<Step>)
    requires cfg.timeoutPlaceholder && WaitsInside(s)
    requires RunSteps(link, cfg, s, steps).Running? && Connected(RunSteps(link, cfg, s, steps).state)
    ensures var r := RunSteps(link, cfg, s, steps).state;
            && WaitsInside(r) && (UnderWay(s) || Fired(steps) ==> UnderWay(r))
            && (Noticed(r) ==> Noticed(s) || Fired(steps))
    decreases steps
  {
    hide Advance, UnderWay, Noticed, WaitsInside, Fired;
    if steps == [] {
      assert !Fired(steps) by { NotFired(); }
    } else {
      StepKeepsWaiting(link, cfg, s, steps[0]);
      StaysConnected(link, cfg, Advance(link, cfg, s, steps[0]).state, steps[1..]);
      RunKeepsWaiting(link, cfg, Advance(link, cfg, s, steps[0]).state, steps[1..]);
      FiredShifts(steps);
    }
  }

  lemma {:induction false} StaysConnected(link: Link, cfg: Config, s: State, steps: seq<Step>)
    ensures Connected(RunSteps(link, cfg, s, steps).state) ==> Connected(s)
    decreases steps
  {
    hide Advance;
    if steps != [] {
      StepEvolves(link, cfg, s, steps[0]);
      if Advance(link, cfg, s, steps[0]).Running? {
        StaysConnected(link, cfg, Advance(link, cfg, s, steps[0]).state, steps[1..]);
      }
    }
  }

  lemma NotFired()
    ensures !Fired([])
  {
  }

  /** For a client that is still there: once its timer has fired, the timeout placeholder was sent, or a token
      came first, or the stream is inside an event, after which it follows; and it is sent for no other reason
      than the timer or an earlier one. */
  lemma TimeoutPlaceholderExactly(
      link: Link, cfg: Config, client: Client, preflushed: bool, placeholderSent: bool, steps: seq<Step>)
    requires cfg.timeoutPlaceholder
    requires var r := RunSteps(link, cfg, Start(client, cfg, preflushed, placeholderSent), steps);
             r.Running? && Connected(r.state)
    ensures var r := RunSteps(link, cfg, Start(client, cfg, preflushed, placeholderSent), steps).state;
            && (Fired(steps) ==>
                  r.holders.timeoutSent || r.holders.ttftSeen || (r.holders.timeoutPending && !AtBoundary(r)))
            && (r.holders.timeoutSent ==> placeholderSent || Fired(steps))
  {
    hide RunSteps, Fired;
    RunKeepsWaiting(link, cfg, Start(client, cfg, preflushed, placeholderSent), steps);
  }

  // ---- the bootstrap comment ----------------------------------------------------------------------------------

  /** When its timer fires, the bootstrap comment is written at once if nothing is visible and the stream is
      between events; afterwards it is wanted again exactly while nothing is visible. */
  lemma BootstrapIsServed(link: Link, cfg: Config, s: State)
    requires cfg.bootstrap
    ensures var r := Advance(link, cfg, s, BootstrapTimer);
            && r.Running?
            && (Connected(r.state) ==> (r.state.holders.bootstrapPending <==> !Visible(link, r.state)))
            && (if Connected(s) && !Visible(link, s) && AtBoundary(s)
                then r.state.client == PutFrame(link, s.client, COMMENT, false)
                     && (Connected(r.state) && !cfg.gatewayOnly ==> r.state.outputStarted)
                else r.state.client == s.client)
  {
    hide PutFrame, Advances, OnlyWrites;
  }

  /** A frame of the coordinator's own timer never ends the connection, starts no output and uses up no
      placeholder of the relay. */
  lemma CoordinatorIsHarmless(link: Link, cfg: Config, s: State)
    ensures var r := Advance(link, cfg, s, CoordinatorFrame);
            && r.Running? && Connected(r.state) == Connected(s)
            && r.state.outputStarted == s.outputStarted && r.state.holders == s.holders
            && Times(cfg.tokenFrame, s.client.sent) <= Times(cfg.tokenFrame, r.state.client.sent)
            <= Times(cfg.tokenFrame, s.client.sent) + Bit(s.client.active)
  {
    hide Times, Advances, Append;
    PutFrameTimes(link, s.client, cfg.tokenFrame, true, cfg.tokenFrame);
  }
}
