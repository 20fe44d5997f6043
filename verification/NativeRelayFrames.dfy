/** The gateway's own placeholders in the stream of a native relay: how many there can be, and when. */
module NativeRelayFrames {
  import opened StreamEvents
  import opened Downstream
  import opened Relays
  import opened NativeRelay
  import opened NativeRelayProofs

  const COMMENT := ":\n\n"

  function Bit(b: bool): nat {
    if b then 1 else 0
  }

  /** The placeholders the relay may still write. */
  function Left(cfg: Config, h: Placeholders): nat {
    Bit(cfg.safePlaceholder && !h.safeSent) + Bit(cfg.timeoutPlaceholder && !h.timeoutSent)
  }

  /** Those written and those it may still write. */
  function Total(cfg: Config, s: State): nat {
    Times(cfg.tokenFrame, s.pipe.client.sent) + Left(cfg, s.holders)
  }

  lemma TokensSpend(link: Link, cfg: Config, s: State)
    ensures Total(cfg, SafePlaceholder(link, cfg, s)) <= Total(cfg, s)
    ensures Total(cfg, TimeoutPlaceholder(link, cfg, s)) <= Total(cfg, s)
  {
    hide PutFrame, Times, Advances, OnlyWrites, Visible;
    PutFrameTimes(link, s.pipe.client, cfg.tokenFrame, true, cfg.tokenFrame);
  }

  lemma FramesSpend(link: Link, cfg: Config, s: State)
    requires cfg.tokenFrame != COMMENT
    ensures Total(cfg, SafePlaceholder(link, cfg, s)) <= Total(cfg, s)
    ensures Total(cfg, TimeoutPlaceholder(link, cfg, s)) <= Total(cfg, s)
    ensures Total(cfg, DrainTimeout(link, cfg, s)) <= Total(cfg, s)
    ensures Total(cfg, BootstrapComment(link, cfg, s)) <= Total(cfg, s)
  {
    hide PutFrame, Times, Advances, OnlyWrites, Visible, SafePlaceholder, TimeoutPlaceholder;
    TokensSpend(link, cfg, s);
    PutFrameTimes(link, s.pipe.client, COMMENT, false, cfg.tokenFrame);
  }

  lemma WriteTimes(link: Link, p: Pipe, t: Text, frame: string)
    ensures Times(frame, Write(link, p, t).client.sent) == Times(frame, p.client.sent)
  {
    hide Put, Times, Advances;
    if |p.buffer| + |t| > CAPACITY {
      if p.buffer == [] {
        PutTimes(link, p.client, t, frame);
      } else {
        var room := CAPACITY - |p.buffer|;
        var c := Put(link, p.client, p.buffer + t[..room]);
        PutTimes(link, p.client, p.buffer + t[..room], frame);
        PutTimes(link, c, t[room..], frame);
      }
    }
  }

  lemma FlushTimes(link: Link, p: Pipe, frame: string)
    ensures Times(frame, Flush(link, p).client.sent) == Times(frame, p.client.sent)
  {
    hide Put, Times, Advances;
    PutTimes(link, p.client, p.buffer, frame);
  }

  lemma LineTimes(link: Link, p: Pipe, text: string, flush: bool, frame: string)
    ensures Times(frame, WriteLine(link, p, text).client.sent) == Times(frame, p.client.sent)
    ensures Times(frame, SendLine(link, p, text, flush).client.sent) == Times(frame, p.client.sent)
    ensures Times(frame, Flush(link, WriteLine(link, p, text)).client.sent) == Times(frame, p.client.sent)
  {
    hide Write, Flush, Times, Advances;
    WriteTimes(link, p, Tag(FromUpstream, text), frame);
    WriteTimes(link, Write(link, p, Tag(FromUpstream, text)), Tag(FromUpstream, "\n"), frame);
    FlushTimes(link, WriteLine(link, p, text), frame);
  }

  lemma DataSpends(link: Link, cfg: Config, s: State, p: Payload)
    ensures var r := RelayData(link, cfg, s, p); r.stop.None? ==> Total(cfg, r) == Total(cfg, s)
  {
    hide SendLine, Answer, Judge, Tally, OpensOutput, Visible, Sanitize, Times, ReadUsage, Advances;
    var q := Sanitize(TypeOf(s.name, p), p, Visible(link, s));
    LineTimes(link, s.pipe, q.wire, s.outputStarted || OpensOutput(cfg, TypeOf(s.name, p), p), cfg.tokenFrame);
  }

  lemma WriteControlSpends(link: Link, cfg: Config, s: State, text: string, drained: bool)
    requires cfg.tokenFrame != COMMENT
    ensures Total(cfg, WriteControl(link, cfg, s, text, drained)) <= Total(cfg, s)
  {
    hide WriteLine, Flush, SafePlaceholder, Times, OnlyWrites, Advances;
    LineTimes(link, s.pipe, text, false, cfg.tokenFrame);
    var l := WriteLine(link, s.pipe, text);
    var f := s.(pipe := if s.outputStarted && (text == "" || drained) then Flush(link, l) else l);
    FramesSpend(link, cfg, f.(holders := s.holders.(safePending := false, atBoundary := true)));
  }

  lemma ControlSpends(link: Link, cfg: Config, s: State, line: Line, drained: bool)
    requires cfg.tokenFrame != COMMENT && !line.Data?
    ensures Total(cfg, RelayControl(link, cfg, s, line, drained)) <= Total(cfg, s)
  {
    hide WriteControl, DrainTimeout, Times, OnlyWrites, Advances;
    var named := s.(name := NextName(s.name, line));
    var text := ControlText(line);
    if text.Some? {
      WriteControlSpends(link, cfg, named, text.value, drained);
    }
    var w := if text.Some? then WriteControl(link, cfg, named, text.value, drained) else named;
    FramesSpend(link, cfg, w.(holders := w.holders.(atBoundary := line.Blank? || line.Dropped?)));
  }

  lemma LineSpends(link: Link, cfg: Config, s: State, line: Line, drained: bool)
    requires cfg.tokenFrame != COMMENT && s.stop.None?
    ensures var r := Process(link, cfg, s, line, drained); r.stop.None? ==> Total(cfg, r) <= Total(cfg, s)
  {
    hide RelayData, RelayControl, Total;
    if line.Data? {
      DataSpends(link, cfg, s, line.payload);
    } else {
      ControlSpends(link, cfg, s, line, drained);
    }
  }

  lemma StepSpends(link: Link, cfg: Config, s: State, step: Step)
    requires cfg.tokenFrame != COMMENT && !step.CoordinatorFrame? && s.stop.None?
    ensures var r := Advance(link, cfg, s, step); r.Running? ==> Total(cfg, r.state) <= Total(cfg, s)
  {
    hide Process, SendError, PutFrame, Write, Flush, BootstrapComment, TimeoutPlaceholder, Visible, Times, OnlyWrites;
    FramesSpend(link, cfg, s);
    if step.Upstream? {
      LineSpends(link, cfg, s, step.line, step.drained);
      FramesSpend(link, cfg, Process(link, cfg, s, step.line, step.drained));
    } else if step.KeepaliveTimer? {
      WriteTimes(link, s.pipe, Tag(FromGateway, COMMENT), cfg.tokenFrame);
      FlushTimes(link, Write(link, s.pipe, Tag(FromGateway, COMMENT)), cfg.tokenFrame);
    }
  }

  /** Besides those of the coordinator's own timer, the relay writes at most one safe and one timeout
      placeholder, each only if configured, and none after one was sent for the request before. */
  lemma {:induction false} FewPlaceholders(link: Link, cfg: Config, s: State, steps: seq<Step>)
    requires cfg.tokenFrame != COMMENT && forall i | 0 <= i < |steps| :: !steps[i].CoordinatorFrame?
    requires s.stop.None? && RunSteps(link, cfg, s, steps).Running?
    ensures Total(cfg, RunSteps(link, cfg, s, steps).state) <= Total(cfg, s)
    decreases steps
  {
    hide Advance, Total;
    if steps != [] {
      StepSpends(link, cfg, s, steps[0]);
      StepDecides(link, cfg, s, steps[0]);
      FewPlaceholders(link, cfg, Advance(link, cfg, s, steps[0]).state, steps[1..]);
    }
  }

  // ---- after the first token ------------------------------------------------------------------------------


  predicate Over(s: State) {
    s.holders.ttftSeen || s.holders.timeoutSent
  }

  lemma FramesStayOver(link: Link, cfg: Config, s: State)
    ensures Over(s) ==> Over(SafePlaceholder(link, cfg, s)) && Over(TimeoutPlaceholder(link, cfg, s))
    ensures Over(s) ==> Over(DrainTimeout(link, cfg, s)) && Over(BootstrapComment(link, cfg, s))
    ensures Over(s) ==> TimeoutPlaceholder(link, cfg, s).pipe.client == s.pipe.client
  {
    hide PutFrame, Advances, OnlyWrites, Visible;
  }

  lemma DataStaysOver(link: Link, cfg: Config, s: State, p: Payload)
    ensures var r := RelayData(link, cfg, s, p);
            r.stop.None? && (Over(s) || (cfg.timeoutPlaceholder && IsMarked(FirstToken, false, s.name, Data(p)))) ==>
              Over(r)
  {
    hide SendLine, Answer, Judge, Tally, OpensOutput, Visible, ReadUsage, NeedsSanitizing, Advances;
  }

  lemma ControlStaysOver(link: Link, cfg: Config, s: State, line: Line, drained: bool)
    requires !line.Data? && Over(s)
    ensures Over(RelayControl(link, cfg, s, line, drained))
  {
    hide WriteLine, Flush, SafePlaceholder, DrainTimeout, OnlyWrites, Advances;
    var named := s.(name := NextName(s.name, line));
    var w := named;
    if ControlText(line).Some? {
      var text := ControlText(line).value;
      var l := WriteLine(link, s.pipe, text);
      var f := named.(pipe := if s.outputStarted && (text == "" || drained) then Flush(link, l) else l);
      FramesStayOver(link, cfg, f.(holders := s.holders.(safePending := false, atBoundary := true)));
      w := WriteControl(link, cfg, named, text, drained);
    }
    FramesStayOver(link, cfg, w.(holders := w.holders.(atBoundary := line.Blank? || line.Dropped?)));
  }

  lemma StepStaysOver(link: Link, cfg: Config, s: State, step: Step)
    requires s.stop.None? && cfg.timeoutPlaceholder
    requires Over(s) || AnyMarked(FirstToken, false, s.name, LinesOf([step]))
    ensures var r := Advance(link, cfg, s, step); r.Running? ==> Over(r.state)
  {
    hide RelayData, RelayControl, SendError, PutFrame, Write, Flush, BootstrapComment, TimeoutPlaceholder, Visible,
         IsMarked, OnlyWrites;
    assert [step][1..] == [] && LinesOf([]) == [];
    FramesStayOver(link, cfg, s);
    NoMarks(s.name);
    if step.Upstream? {
      assert LinesOf([step]) == [step.line];
      MarksOfOne(s.name, step.line);
      if step.line.Data? {
        DataStaysOver(link, cfg, s, step.line.payload);
      } else {
        assert !IsMarked(FirstToken, false, s.name, step.line) by { ControlIsUnmarked(s.name, step.line); }
        ControlStaysOver(link, cfg, s, step.line, step.drained);
      }
      FramesStayOver(link, cfg, Process(link, cfg, s, step.line, step.drained));
    }
  }

  lemma ControlIsUnmarked(name: EventType, line: Line)
    requires !line.Data?
    ensures !IsMarked(FirstToken, false, name, line)
  {
  }

  lemma {:induction false} RunStaysOver(link: Link, cfg: Config, s: State, steps: seq<Step>)
    requires s.stop.None? && cfg.timeoutPlaceholder && RunSteps(link, cfg, s, steps).Running?
    requires Over(s) || AnyMarked(FirstToken, false, s.name, LinesOf(steps))
    ensures Over(RunSteps(link, cfg, s, steps).state)
    decreases steps
  {
    hide Advance, AnyMarked, NameAfter;
    if steps == [] {
      NoMarks(s.name);
    } else {
      StepDecides(link, cfg, s, steps[0]);
      assert [steps[0]][1..] == [] && LinesOf([]) == [];
      assert LinesOf(steps) == LinesOf([steps[0]]) + LinesOf(steps[1..]);
      MarksSplit(s.name, LinesOf([steps[0]]), LinesOf(steps[1..]));
      if Over(s) || AnyMarked(FirstToken, false, s.name, LinesOf([steps[0]])) {
        StepStaysOver(link, cfg, s, steps[0]);
      }
      RunStaysOver(link, cfg, Advance(link, cfg, s, steps[0]).state, steps[1..]);
    }
  }

  /** Once the upstream has sent a token that counts, the timeout placeholder is not written any more. */
  lemma NoTimeoutAfterToken(link: Link, cfg: Config, s: State, steps: seq<Step>)
    requires s.stop.None? && cfg.timeoutPlaceholder && RunSteps(link, cfg, s, steps).Running?
    requires AnyMarked(FirstToken, false, s.name, LinesOf(steps))
    ensures var mid := RunSteps(link, cfg, s, steps).state;
            RunSteps(link, cfg, s, steps + [PlaceholderTimer]).state.pipe.client == mid.pipe.client
  {
    hide RunSteps, AnyMarked, TimeoutPlaceholder, Over;
    RunStaysOver(link, cfg, s, steps);
    RunThenEnd(link, cfg, s, steps, PlaceholderTimer);
    FramesStayOver(link, cfg, RunSteps(link, cfg, s, steps).state);
  }

  // ---- the safe placeholder ---------------------------------------------------------------------------------

  /** The safe placeholder and the announcement it waits for, before and after some lines; what is marked
      as sent was handed to the client's writer. */
  ghost predicate Follows(s: State, r: State, lines: seq<Line>) {
    && r.holders.safePending == OpenAfter(s.holders.safePending, s.name, lines)
    && (s.holders.timeoutSent ==> r.holders.timeoutSent)
    && (s.holders.safeSent || Announced(s.holders.safePending, s.name, lines) ==> r.holders.safeSent)
    && (r.holders.safeSent ==>
          s.holders.safeSent || r.holders.timeoutSent || Announced(s.holders.safePending, s.name, lines))
    && s.pipe.client.frames <= r.pipe.client.frames
    && (r.holders.safeSent && !s.holders.safeSent ==> s.pipe.client.frames < r.pipe.client.frames)
  }

  /** A frame other than the safe placeholder. */
  ghost predicate Aside(s: State, r: State) {
    && r.holders.safePending == s.holders.safePending
    && (s.holders.timeoutSent ==> r.holders.timeoutSent) && (s.holders.safeSent ==> r.holders.safeSent)
    && (r.holders.safeSent ==> s.holders.safeSent || r.holders.timeoutSent)
    && s.pipe.client.frames <= r.pipe.client.frames
    && (r.holders.safeSent && !s.holders.safeSent ==> s.pipe.client.frames < r.pipe.client.frames)
  }

  lemma OtherFrames(link: Link, cfg: Config, s: State)
    ensures Aside(s, TimeoutPlaceholder(link, cfg, s)) && Aside(s, DrainTimeout(link, cfg, s))
    ensures Aside(s, BootstrapComment(link, cfg, s))
  {
    hide Advances, OnlyWrites, Visible, PutFrame;
    FrameCounts(link, s.pipe.client, cfg.tokenFrame, true);
    FrameCounts(link, s.pipe.client, COMMENT, false);
  }

  lemma WritesAreNoFrames(link: Link, p: Pipe, t: Text)
    ensures Write(link, p, t).client.frames == Flush(link, p).client.frames == p.client.frames
  {
    hide Put, Advances;
    PutIsNoFrame(link, p.client, p.buffer);
    PutIsNoFrame(link, p.client, t);
    if p.buffer != [] && |p.buffer| + |t| > CAPACITY {
      var room := CAPACITY - |p.buffer|;
      PutIsNoFrame(link, p.client, p.buffer + t[..room]);
      PutIsNoFrame(link, Put(link, p.client, p.buffer + t[..room]), t[room..]);
    }
  }

  lemma LineIsNoFrame(link: Link, p: Pipe, text: string, flush: bool)
    ensures var w := WriteLine(link, p, text);
            && w.client.frames == Flush(link, w).client.frames == p.client.frames
            && SendLine(link, p, text, flush).client.frames == p.client.frames
  {
    hide Write, Flush, Advances;
    var w := Write(link, p, Tag(FromUpstream, text));
    WritesAreNoFrames(link, p, Tag(FromUpstream, text));
    WritesAreNoFrames(link, w, Tag(FromUpstream, "\n"));
    WritesAreNoFrames(link, WriteLine(link, p, text), []);
  }

  lemma SafeIsSent(link: Link, cfg: Config, s: State)
    requires cfg.safePlaceholder && s.holders.atBoundary
    ensures var r := SafePlaceholder(link, cfg, s);
            Connected(r) ==>
              && Connected(s) && r.holders == s.holders.(safeSent := true)
              && s.pipe.client.frames <= r.pipe.client.frames
              && (!s.holders.safeSent ==> s.pipe.client.frames < r.pipe.client.frames)
  {
    hide Append, Advances, OnlyWrites;
  }

  lemma DataFollows(link: Link, cfg: Config, s: State, p: Payload)
    ensures var r := RelayData(link, cfg, s, p); r.stop.None? ==> Follows(s, r, [Data(p)])
  {
    hide SendLine, Answer, Judge, Tally, OpensOutput, Visible, ReadUsage, NeedsSanitizing, Advances, OpenAfter,
         Announced;
    AnnouncedByOne(s.holders.safePending, s.name, Data(p));
    var t := TypeOf(s.name, p);
    LineIsNoFrame(link, s.pipe, Sanitize(t, p, Visible(link, s)).wire, s.outputStarted || OpensOutput(cfg, t, p));
  }

  /** A control line that is written; a blank one ends an announcement. */
  lemma WriteControlFollows(link: Link, cfg: Config, s: State, text: string, drained: bool)
    requires cfg.safePlaceholder
    ensures var r := WriteControl(link, cfg, s, text, drained);
            Connected(r) ==>
              && Connected(s) && r.holders.timeoutSent == s.holders.timeoutSent
              && r.holders.safePending == (s.holders.safePending && text != "")
              && r.holders.safeSent == (s.holders.safeSent || (s.holders.safePending && text == ""))
              && s.pipe.client.frames <= r.pipe.client.frames
              && (r.holders.safeSent && !s.holders.safeSent ==> s.pipe.client.frames < r.pipe.client.frames)
  {
    hide WriteLine, Flush, SafePlaceholder, Faithful;
    LineIsNoFrame(link, s.pipe, text, false);
    var w := WriteLine(link, s.pipe, text);
    var f := s.(pipe := if s.outputStarted && (text == "" || drained) then Flush(link, w) else w);
    SafeIsSent(link, cfg, f.(holders := s.holders.(safePending := false, atBoundary := true)));
  }

  lemma ControlFollows(link: Link, cfg: Config, s: State, line: Line, drained: bool)
    requires cfg.safePlaceholder && !line.Data? && (line.Named? ==> line.text != "")
    ensures var r := RelayControl(link, cfg, s, line, drained); Connected(r) ==> Follows(s, r, [line])
  {
    hide WriteControl, DrainTimeout, Faithful, OpenAfter, Announced;
    AnnouncedByOne(s.holders.safePending, s.name, line);
    var named := s.(name := NextName(s.name, line));
    var text := ControlText(line);
    if text.Some? {
      WriteControlFollows(link, cfg, named, text.value, drained);
    }
    var w := if text.Some? then WriteControl(link, cfg, named, text.value, drained) else named;
    OtherFrames(link, cfg, w.(holders := w.holders.(atBoundary := line.Blank? || line.Dropped?)));
  }

  lemma StepFollows(link: Link, cfg: Config, s: State, step: Step)
    requires cfg.safePlaceholder && s.stop.None? && Spelled(LinesOf([step]))
    ensures var r := Advance(link, cfg, s, step);
            r.Running? && Connected(r.state) ==> Connected(s) && Follows(s, r.state, LinesOf([step]))
  {
    hide RelayData, RelayControl, SendError, Write, Flush, BootstrapComment, TimeoutPlaceholder, Visible, OpenAfter,
         Announced, Append, Faithful;
    assert [step][1..] == [] && LinesOf([]) == [];
    AnnouncedByOne(s.holders.safePending, s.name, Blank);
    StepEvolves(link, cfg, s, step);
    OtherFrames(link, cfg, s);
    if step.Upstream? {
      assert LinesOf([step]) == [step.line] && LinesOf([step])[0] == step.line;
      if step.line.Data? {
        DataFollows(link, cfg, s, step.line.payload);
      } else {
        ControlFollows(link, cfg, s, step.line, step.drained);
      }
      OtherFrames(link, cfg, Process(link, cfg, s, step.line, step.drained));
    } else if step.KeepaliveTimer? {
      WritesAreNoFrames(link, s.pipe, Tag(FromGateway, COMMENT));
      WritesAreNoFrames(link, Write(link, s.pipe, Tag(FromGateway, COMMENT)), []);
    }
  }

  lemma {:induction false} RunFollows(link: Link, cfg: Config, s: State, steps: seq<Step>)
    requires cfg.safePlaceholder && s.stop.None? && Spelled(LinesOf(steps))
    requires RunSteps(link, cfg, s, steps).Running? && Connected(RunSteps(link, cfg, s, steps).state)
    ensures Follows(s, RunSteps(link, cfg, s, steps).state, LinesOf(steps))
    decreases steps
  {
    hide Advance, OpenAfter, Announced, NameAfter;
    assert [] == LinesOf([]);
    AnnouncedByOne(s.holders.safePending, s.name, Blank);
    if steps != [] {
      var next := Advance(link, cfg, s, steps[0]).state;
      assert [steps[0]][1..] == [];
      var one, rest := LinesOf([steps[0]]), LinesOf(steps[1..]);
      assert LinesOf(steps) == one + rest;
      SpelledSplit(one, rest);
      StepDecides(link, cfg, s, steps[0]);
      StillConnected(link, cfg, next, steps[1..]);
      StepFollows(link, cfg, s, steps[0]);
      RunFollows(link, cfg, next, steps[1..]);
      AnnouncedSplit(s.holders.safePending, s.name, one, rest);
    }
  }

  /** For a client that is still there, the safe placeholder has been sent once the event that announces a
      response has ended; and it is sent for no other reason than that, a timeout, or an earlier one. */
  lemma SafePlaceholderExactly(
      link: Link, cfg: Config, client: Client, preflushed: bool, placeholderSent: bool, steps: seq<Step>)
    requires cfg.safePlaceholder && Spelled(LinesOf(steps))
    requires var r := RunSteps(link, cfg, Start(client, cfg, preflushed, placeholderSent), steps);
             r.Running? && Connected(r.state)
    ensures var h := RunSteps(link, cfg, Start(client, cfg, preflushed, placeholderSent), steps).state.holders;
            var announced := exists i: nat :: CreatedThenBlank(NoType, LinesOf(steps), i);
            && (placeholderSent || announced ==> h.safeSent)
            && (h.safeSent ==> placeholderSent || announced || h.timeoutSent)
  {
    hide RunSteps, OpenAfter, Announced, CreatedThenBlank, Spelled;
    RunFollows(link, cfg, Start(client, cfg, preflushed, placeholderSent), steps);
    AnnouncedExactly(false, NoType, LinesOf(steps));
  }

  // ---- between events -----------------------------------------------------------------------------------------

  /** The stream is between events: no line yet, or the last one was blank or dropped. */
  predicate Between(lines: seq<Line>) {
    lines == [] || lines[|lines| - 1].Blank? || lines[|lines| - 1].Dropped?
  }

  lemma DataLeavesBoundary(link: Link, cfg: Config, s: State, p: Payload)
    ensures var r := RelayData(link, cfg, s, p); r.stop.None? ==> !r.holders.atBoundary
  {
    hide SendLine, Answer, Judge, Tally, OpensOutput, Visible, Sanitize, ReadUsage, Advances, NeedsSanitizing;
  }

  lemma ControlSetsBoundary(link: Link, cfg: Config, s: State, line: Line, drained: bool)
    requires !line.Data?
    ensures RelayControl(link, cfg, s, line, drained).holders.atBoundary == (line.Blank? || line.Dropped?)
  {
    hide WriteControl, DrainTimeout, OnlyWrites, Advances;
    var named := s.(name := NextName(s.name, line));
    var text := ControlText(line);
    var w := if text.Some? then WriteControl(link, cfg, named, text.value, drained) else named;
    DrainKeepsBoundary(link, cfg, w.(holders := w.holders.(atBoundary := line.Blank? || line.Dropped?)));
  }

  lemma DrainKeepsBoundary(link: Link, cfg: Config, s: State)
    ensures DrainTimeout(link, cfg, s).holders.atBoundary == s.holders.atBoundary
  {
    hide PutFrame, OnlyWrites, Advances;
  }

  lemma LineSetsBoundary(link: Link, cfg: Config, s: State, line: Line, drained: bool)
    requires s.stop.None?
    ensures var r := Process(link, cfg, s, line, drained);
            r.stop.None? ==> r.holders.atBoundary == (line.Blank? || line.Dropped?)
  {
    hide RelayData, RelayControl;
    if line.Data? {
      DataLeavesBoundary(link, cfg, s, line.payload);
    } else {
      ControlSetsBoundary(link, cfg, s, line, drained);
    }
  }

  lemma StepSetsBoundary(link: Link, cfg: Config, s: State, step: Step)
    requires s.stop.None?
    ensures var r := Advance(link, cfg, s, step);
            r.Running? ==>
              r.state.holders.atBoundary
              == if step.Upstream? then step.line.Blank? || step.line.Dropped? else s.holders.atBoundary
  {
    hide Process, SendError, PutFrame, Write, Flush, Visible, OnlyWrites, Advances;
    if step.Upstream? {
      LineSetsBoundary(link, cfg, s, step.line, step.drained);
    }
  }

  lemma {:induction false} BoundaryExactly(link: Link, cfg: Config, s: State, steps: seq<Step>)
    requires s.stop.None? && RunSteps(link, cfg, s, steps).Running?
    ensures var lines := LinesOf(steps);
            RunSteps(link, cfg, s, steps).state.holders.atBoundary
            == if lines == [] then s.holders.atBoundary else Between(lines)
    decreases steps
  {
    hide Advance;
    if steps != [] {
      var rest := LinesOf(steps[1..]);
      StepSetsBoundary(link, cfg, s, steps[0]);
      StepDecides(link, cfg, s, steps[0]);
      BoundaryExactly(link, cfg, Advance(link, cfg, s, steps[0]).state, steps[1..]);
      if steps[0].Upstream? {
        assert rest != [] ==> LinesOf(steps)[|LinesOf(steps)| - 1] == rest[|rest| - 1];
      } else {
        assert LinesOf(steps) == rest;
      }
    }
  }

  /** A frame is written only between events. */
  ghost predicate Placed(s: State, r: State) {
    && s.pipe.client.frames <= r.pipe.client.frames && r.holders.atBoundary == s.holders.atBoundary
    && (s.pipe.client.frames < r.pipe.client.frames ==> s.holders.atBoundary)
    && (Connected(s) && !Connected(r) ==> r.outputStarted == s.outputStarted)
  }

  lemma FramesArePlaced(link: Link, cfg: Config, s: State)
    ensures Placed(s, SafePlaceholder(link, cfg, s)) && Placed(s, TimeoutPlaceholder(link, cfg, s))
    ensures Placed(s, DrainTimeout(link, cfg, s)) && Placed(s, BootstrapComment(link, cfg, s))
  {
    hide Advances, OnlyWrites, Visible, PutFrame;
    FrameCounts(link, s.pipe.client, cfg.tokenFrame, true);
    FrameCounts(link, s.pipe.client, COMMENT, false);
  }

  lemma WriteControlIsPlaced(link: Link, cfg: Config, s: State, text: string, drained: bool)
    ensures var r := WriteControl(link, cfg, s, text, drained);
            && s.pipe.client.frames <= r.pipe.client.frames
            && (s.pipe.client.frames < r.pipe.client.frames ==> text == "")
  {
    hide WriteLine, Flush, SafePlaceholder, OnlyWrites, Advances;
    LineIsNoFrame(link, s.pipe, text, false);
    var w := WriteLine(link, s.pipe, text);
    var f := s.(pipe := if s.outputStarted && (text == "" || drained) then Flush(link, w) else w);
    FramesArePlaced(link, cfg, f.(holders := s.holders.(safePending := false, atBoundary := true)));
  }

  lemma DataIsNoFrame(link: Link, cfg: Config, s: State, p: Payload)
    ensures var r := RelayData(link, cfg, s, p); r.stop.None? ==> r.pipe.client.frames == s.pipe.client.frames
  {
    hide SendLine, Answer, Judge, Tally, OpensOutput, Visible, Sanitize, ReadUsage, Advances, Noted;
    var t := TypeOf(s.name, p);
    LineIsNoFrame(link, s.pipe, Sanitize(t, p, Visible(link, s)).wire, s.outputStarted || OpensOutput(cfg, t, p));
  }

  lemma LineIsPlaced(link: Link, cfg: Config, s: State, line: Line, drained: bool)
    requires s.stop.None? && (line.Named? ==> line.text != "")
    ensures var r := Process(link, cfg, s, line, drained);
            r.stop.None? ==>
              && s.pipe.client.frames <= r.pipe.client.frames
              && (s.pipe.client.frames < r.pipe.client.frames ==> line.Blank? || line.Dropped?)
  {
    hide RelayData, WriteControl, DrainTimeout, OnlyWrites, Advances;
    if line.Data? {
      DataIsNoFrame(link, cfg, s, line.payload);
    } else {
      var named := s.(name := NextName(s.name, line));
      var text := ControlText(line);
      if text.Some? {
        WriteControlIsPlaced(link, cfg, named, text.value, drained);
      }
      var w := if text.Some? then WriteControl(link, cfg, named, text.value, drained) else named;
      FramesArePlaced(link, cfg, w.(holders := w.holders.(atBoundary := line.Blank? || line.Dropped?)));
    }
  }

  lemma StepIsPlaced(link: Link, cfg: Config, s: State, step: Step)
    requires s.stop.None? && !step.CoordinatorFrame? && Spelled(LinesOf([step]))
    ensures var r := Advance(link, cfg, s, step);
            r.Running? ==>
              && s.pipe.client.frames <= r.state.pipe.client.frames
              && (s.pipe.client.frames < r.state.pipe.client.frames ==>
                    if step.Upstream? then step.line.Blank? || step.line.Dropped? else s.holders.atBoundary)
  {
    hide Process, SendError, PutFrame, Write, Flush, BootstrapComment, TimeoutPlaceholder, Visible, OnlyWrites,
         Advances;
    FramesArePlaced(link, cfg, s);
    assert [step][1..] == [] && LinesOf([]) == [];
    if step.Upstream? {
      assert LinesOf([step]) == [step.line] && LinesOf([step])[0] == step.line;
      LineIsPlaced(link, cfg, s, step.line, step.drained);
      LineSetsBoundary(link, cfg, s, step.line, step.drained);
      FramesArePlaced(link, cfg, Process(link, cfg, s, step.line, step.drained));
    } else if step.KeepaliveTimer? {
      WritesAreNoFrames(link, s.pipe, Tag(FromGateway, COMMENT));
      WritesAreNoFrames(link, Write(link, s.pipe, Tag(FromGateway, COMMENT)), []);
    }
  }

  /** No step but the coordinator's own writes a placeholder or a bootstrap comment inside an event. */
  lemma FramesBetweenEvents(
      link: Link, cfg: Config, client: Client, preflushed: bool, placeholderSent: bool, steps: seq<Step>, step: Step)
    requires !step.CoordinatorFrame? && Spelled(LinesOf([step]))
    requires RunSteps(link, cfg, Start(client, cfg, preflushed, placeholderSent), steps + [step]).Running?
    requires RunSteps(link, cfg, Start(client, cfg, preflushed, placeholderSent), steps).Running?
    ensures var s := Start(client, cfg, preflushed, placeholderSent);
            var mid, r := RunSteps(link, cfg, s, steps).state, RunSteps(link, cfg, s, steps + [step]).state;
            mid.pipe.client.frames < r.pipe.client.frames ==> Between(LinesOf(steps) + LinesOf([step]))
  {
    hide RunSteps, Advance, Spelled;
    var s := Start(client, cfg, preflushed, placeholderSent);
    var mid := RunSteps(link, cfg, s, steps).state;
    RunDecides(link, cfg, s, steps);
    RunThenEnd(link, cfg, s, steps, step);
    BoundaryExactly(link, cfg, s, steps);
    StepIsPlaced(link, cfg, mid, step);
    assert [step][1..] == [] && LinesOf([]) == [];
    assert LinesOf([step]) == if step.Upstream? then [step.line] else [];
    assert !step.Upstream? ==> LinesOf(steps) + LinesOf([step]) == LinesOf(steps);
  }

  // ---- the timeout placeholder ------------------------------------------------------------------------------

  /** The timeout placeholder is on its way: sent, overtaken by a token, or waiting for the end of an event. */
  predicate UnderWay(s: State) {
    s.holders.timeoutSent || s.holders.ttftSeen || s.holders.timeoutPending
  }

  /** It waits inside an event only. */
  predicate WaitsInside(s: State) {
    s.holders.timeoutPending ==> !s.holders.atBoundary
  }

  /** The timer has left a trace. */
  predicate Noticed(s: State) {
    s.holders.timeoutSent || s.holders.timeoutPending
  }

  /** A step other than the timer, for a client that is still there. */
  ghost predicate KeepsWaiting(s: State, r: State) {
    (UnderWay(s) ==> UnderWay(r)) && (!Noticed(s) ==> !Noticed(r))
  }

  lemma TimerIsHeard(link: Link, cfg: Config, s: State)
    requires cfg.timeoutPlaceholder && s.stop.None?
    ensures var r := TimeoutPlaceholder(link, cfg, s);
            Connected(r) ==> UnderWay(r) && WaitsInside(r) && (UnderWay(s) ==> UnderWay(r))
  {
    hide PutFrame, Advances, OnlyWrites;
  }

  lemma DrainServes(link: Link, cfg: Config, s: State)
    requires cfg.timeoutPlaceholder && s.stop.None?
    ensures var r := DrainTimeout(link, cfg, s); Connected(r) ==> WaitsInside(r) && KeepsWaiting(s, r)
  {
    hide TimeoutPlaceholder;
    TimerIsHeard(link, cfg, s);
  }

  lemma FramesKeepWaiting(link: Link, cfg: Config, s: State)
    ensures KeepsWaiting(s, SafePlaceholder(link, cfg, s)) && KeepsWaiting(s, BootstrapComment(link, cfg, s))
    ensures SafePlaceholder(link, cfg, s).holders.timeoutPending == s.holders.timeoutPending
    ensures BootstrapComment(link, cfg, s).holders == s.holders
    ensures SafePlaceholder(link, cfg, s).holders.atBoundary == s.holders.atBoundary
  {
    hide PutFrame, Advances, OnlyWrites, Visible;
  }

  lemma WriteControlKeepsWaiting(link: Link, cfg: Config, s: State, text: string, drained: bool)
    ensures KeepsWaiting(s, WriteControl(link, cfg, s, text, drained))
  {
    hide WriteLine, Flush, SafePlaceholder, OnlyWrites, Advances;
    var w := WriteLine(link, s.pipe, text);
    var f := s.(pipe := if s.outputStarted && (text == "" || drained) then Flush(link, w) else w);
    FramesKeepWaiting(link, cfg, f.(holders := s.holders.(safePending := false, atBoundary := true)));
  }

  lemma LineKeepsWaiting(link: Link, cfg: Config, s: State, line: Line, drained: bool)
    requires cfg.timeoutPlaceholder && s.stop.None?
    ensures var r := Process(link, cfg, s, line, drained);
            r.stop.None? && Connected(r) ==> WaitsInside(r) && KeepsWaiting(s, r)
  {
    hide SendLine, WriteControl, DrainTimeout, Answer, Judge, Tally, OpensOutput, Visible, ReadUsage, Sanitize,
         Advances;
    if !line.Data? {
      var named := s.(name := NextName(s.name, line));
      var text := ControlText(line);
      if text.Some? {
        WriteControlKeepsWaiting(link, cfg, named, text.value, drained);
      }
      var w := if text.Some? then WriteControl(link, cfg, named, text.value, drained) else named;
      DrainServes(link, cfg, w.(holders := w.holders.(atBoundary := line.Blank? || line.Dropped?)));
    }
  }

  lemma StepKeepsWaiting(link: Link, cfg: Config, s: State, step: Step)
    requires cfg.timeoutPlaceholder && WaitsInside(s) && s.stop.None?
    ensures var r := Advance(link, cfg, s, step);
            r.Running? && Connected(r.state) ==>
              && Connected(s) && WaitsInside(r.state)
              && (if step.PlaceholderTimer? then UnderWay(r.state) else KeepsWaiting(s, r.state))
  {
    hide Process, SendError, PutFrame, Write, Flush, BootstrapComment, TimeoutPlaceholder, Visible, OnlyWrites,
         Faithful;
    StepEvolves(link, cfg, s, step);
    TimerIsHeard(link, cfg, s);
    FramesKeepWaiting(link, cfg, s);
    if step.Upstream? {
      LineKeepsWaiting(link, cfg, s, step.line, step.drained);
      var p := Process(link, cfg, s, step.line, step.drained);
      FramesKeepWaiting(link, cfg, p);
      FrameKeepsConnection(link, cfg, p);
    }
  }

  lemma FrameKeepsConnection(link: Link, cfg: Config, s: State)
    ensures Connected(BootstrapComment(link, cfg, s)) ==> Connected(s)
  {
    hide PutFrame, Visible;
  }

  ghost predicate Fired(steps: seq<Step>) {
    exists i :: 0 <= i < |steps| && steps[i].PlaceholderTimer?
  }

  lemma FiredShifts(steps: seq<Step>)
    requires steps != []
    ensures Fired(steps) <==> steps[0].PlaceholderTimer? || Fired(steps[1..])
  {
    if i :| 0 < i < |steps| && steps[i].PlaceholderTimer? {
      assert steps[1..][i - 1].PlaceholderTimer?;
    }
    if i :| 0 <= i < |steps[1..]| && steps[1..][i].PlaceholderTimer? {
      assert steps[i + 1].PlaceholderTimer?;
    }
  }

  lemma {:induction false} RunKeepsWaiting(link: Link, cfg: Config, s: State, steps: seq<Step>)
    requires cfg.timeoutPlaceholder && WaitsInside(s) && s.stop.None?
    requires RunSteps(link, cfg, s, steps).Running? && Connected(RunSteps(link, cfg, s, steps).state)
    ensures var r := RunSteps(link, cfg, s, steps).state;
            && WaitsInside(r) && (UnderWay(s) || Fired(steps) ==> UnderWay(r))
            && (Noticed(r) ==> Noticed(s) || Fired(steps))
    decreases steps
  {
    hide Advance, UnderWay, Noticed, WaitsInside, Fired;
    if steps == [] {
      assert !Fired(steps) by { NotFired(); }
    } else {
      StepKeepsWaiting(link, cfg, s, steps[0]);
      StepDecides(link, cfg, s, steps[0]);
      StillConnected(link, cfg, Advance(link, cfg, s, steps[0]).state, steps[1..]);
      RunKeepsWaiting(link, cfg, Advance(link, cfg, s, steps[0]).state, steps[1..]);
      FiredShifts(steps);
    }
  }

  lemma NotFired()
    ensures !Fired([])
  {
  }

  /** For a client that is still there: once its timer has fired, the timeout placeholder was sent, or a token
      came first, or the stream is inside an event, after which it follows; and it is sent for no other reason
      than the timer or an earlier one. */
  lemma TimeoutPlaceholderExactly(
      link: Link, cfg: Config, client: Client, preflushed: bool, placeholderSent: bool, steps: seq<Step>)
    requires cfg.timeoutPlaceholder
    requires var r := RunSteps(link, cfg, Start(client, cfg, preflushed, placeholderSent), steps);
             r.Running? && Connected(r.state)
    ensures var r := RunSteps(link, cfg, Start(client, cfg, preflushed, placeholderSent), steps).state;
            && (Fired(steps) ==>
                  r.holders.timeoutSent || r.holders.ttftSeen || (r.holders.timeoutPending && !r.holders.atBoundary))
            && (r.holders.timeoutSent ==> placeholderSent || Fired(steps))
  {
    hide RunSteps, Fired;
    RunKeepsWaiting(link, cfg, Start(client, cfg, preflushed, placeholderSent), steps);
  }

  // ---- the bootstrap comment ----------------------------------------------------------------------------------

  /** When its timer fires, the bootstrap comment is written at once if nothing is visible and the stream is
      between events; afterwards it is wanted again exactly while nothing is visible. */
  lemma BootstrapIsServed(link: Link, cfg: Config, s: State)
    requires s.stop.None? && cfg.bootstrap
    ensures var r := Advance(link, cfg, s, BootstrapTimer);
            && r.Running?
            && (Connected(r.state) ==> (r.state.holders.bootstrapPending <==> !Visible(link, r.state)))
            && (if Connected(s) && !Visible(link, s) && s.holders.atBoundary
                then r.state.pipe.client == PutFrame(link, s.pipe.client, COMMENT, false)
                     && (Connected(r.state) && !cfg.gatewayOnly ==> r.state.outputStarted)
                else r.state.pipe.client == s.pipe.client)
  {
    hide PutFrame, Advances, OnlyWrites;
  }

  /** A frame of the coordinator's own timer never ends the connection, starts no output and uses up no
      placeholder of the relay. */
  lemma CoordinatorIsHarmless(link: Link, cfg: Config, s: State)
    ensures var r := Advance(link, cfg, s, CoordinatorFrame);
            && r.Running? && Connected(r.state) == Connected(s)
            && r.state.outputStarted == s.outputStarted && r.state.holders == s.holders
            && Times(cfg.tokenFrame, s.pipe.client.sent) <= Times(cfg.tokenFrame, r.state.pipe.client.sent)
            <= Times(cfg.tokenFrame, s.pipe.client.sent) + Bit(s.pipe.client.active)
  {
    hide Times, Advances, Append;
    PutFrameTimes(link, s.pipe.client, cfg.tokenFrame, true, cfg.tokenFrame);
  }
}
