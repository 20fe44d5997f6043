/** What exactly follows each forward of the WebSocket reconnect loop: the trace of a run, read off the
    upstream's answers. */
module WsTraces {
  import opened Durations
  import opened WsReconnect

  /** The last reason given before the n-th forward. */
  function LatestReason(env: Environment, n: nat): Reason {
    if n <= 1 then NoReason
    else if env.attempt(n - 1).reason.NoReason? then LatestReason(env, n - 1)
    else env.attempt(n - 1).reason
  }

  /** The time that forwards and delays have taken. */
  function Clock(env: Environment, trace: seq<Event>): nat {
    if trace == [] then 0
    else
      var before, last := Clock(env, trace[..|trace| - 1]), trace[|trace| - 1];
      before + match last
               case Forwarded(_, _) => env.attempt(Count(trace, ANY_FORWARD)).busy
               case BackedOff(_, _, delay) => if delay > 0 then delay else 0
               case _ => 0
  }

  /** The forward at i came back with an error before anything was committed. */
  predicate Open(a: Attempt) {
    !a.ok && !a.committed
  }

  predicate DropsPrevious(a: Attempt, before: seq<Event>, q: Request) {
    && Open(a) && a.reason.PreviousNotFound? && Count(before, DroppedPrevious) == 0
    && q.previousId != "" && !q.hasCallOutput
  }

  predicate DropsEncrypted(a: Attempt, before: seq<Event>, q: Request) {
    Open(a) && a.reason.InvalidEncrypted? && Count(before, DroppedEncrypted) == 0 && q.encrypted
  }

  predicate MarksAgent(a: Attempt, before: seq<Event>) {
    Open(a) && a.reason.AgentRecovered? && Count(before, MarkedAgent) == 0
  }

  /** No recovery, but the error may pass and attempts are left. */
  predicate MayReconnect(a: Attempt, before: seq<Event>, q: Request, n: nat) {
    && Open(a) && !DropsPrevious(a, before, q) && !DropsEncrypted(a, before, q) && !MarksAgent(a, before)
    && !a.placeholderPending && a.retryable && n < MAX_ATTEMPTS
  }

  /** The delay is known and the budget, if there is one, still covers it. */
  predicate Affordable(env: Environment, n: nat, elapsed: nat) {
    var delay := Backoff(env.cfg, n, env.attempt(n).draw);
    delay.Wait? && !(env.budget > 0 && Wrap(Elapsed(elapsed) + delay.ns) > env.budget)
  }

  /** The request after the event that follows its forward. */
  function Changed(q: Request, e: Event): Request {
    match e
    case DroppedPrevious => q.(previousId := "")
    case DroppedEncrypted => q.(encrypted := false, previousId := if q.hasCallOutput then q.previousId else "")
    case _ => q
  }

  /** The context ended while the loop waited. */
  predicate Interrupted(a: Attempt, e: Event) {
    e.BackedOff? && e.delay > 0 && a.cancelled
  }

  /** What follows the forward at position i of a finished trace. */
  ghost predicate Answered(env: Environment, trace: seq<Event>, i: nat)
    requires i < |trace| && trace[i].Forwarded?
  {
    var n, before, q := Count(trace[..i + 1], ANY_FORWARD), trace[..i], trace[i].request;
    var a, elapsed := env.attempt(n), Clock(env, trace[..i + 1]);
    && 0 < n <= MAX_ATTEMPTS && trace[i].reason == LatestReason(env, n)
    && (i + 1 < |trace|
        <==> || DropsPrevious(a, before, q) || DropsEncrypted(a, before, q) || MarksAgent(a, before)
             || (MayReconnect(a, before, q, n) && Affordable(env, n, elapsed)))
    && (i + 1 < |trace| ==>
          var e := trace[i + 1];
          && (e.DroppedPrevious? <==> DropsPrevious(a, before, q))
          && (e.DroppedEncrypted? <==> DropsEncrypted(a, before, q))
          && (e.MarkedAgent? <==> MarksAgent(a, before))
          && !e.Forwarded?
          && (e.BackedOff? ==> e.attempt == n && e.elapsed == elapsed
                               && Wait(e.delay) == Backoff(env.cfg, n, a.draw))
          && (i + 2 < |trace| <==> n < MAX_ATTEMPTS && !Interrupted(a, e))
          && (i + 2 < |trace| ==> trace[i + 2].Forwarded? && trace[i + 2].request == Changed(q, e)))
  }

  // ---- every run ---------------------------------------------------------------------------------------

  /** The loop's variables say what its trace says. */
  ghost predicate InStep(env: Environment, s: State) {
    && s.attempt == Count(s.trace, ANY_FORWARD) + 1
    && s.clock == Clock(env, s.trace)
    && s.lastReason == LatestReason(env, s.attempt)
    && s.previousTried == (Count(s.trace, DroppedPrevious) > 0)
    && s.encryptedTried == (Count(s.trace, DroppedEncrypted) > 0)
    && s.agentTried == (Count(s.trace, MarkedAgent) > 0)
  }

  lemma ClockGrows(env: Environment, trace: seq<Event>, e: Event)
    ensures Clock(env, trace + [e])
            == Clock(env, trace) + match e
                                   case Forwarded(_, _) => env.attempt(Count(trace, ANY_FORWARD) + 1).busy
                                   case BackedOff(_, _, delay) => if delay > 0 then delay else 0
                                   case _ => 0
  {
    hide Count;
    assert (trace + [e])[..|trace|] == trace;
    Counted(trace, [e], ANY_FORWARD);
  }

  function Sent(env: Environment, s: State): State {
    Record(s.(clock := s.clock + env.attempt(s.attempt).busy), Forwarded(s.request, s.lastReason))
  }

  /** The event that a turn adds after its forward, by the conditions on the trace. */
  ghost predicate Goes(env: Environment, s: State, e: Event) {
    var a := env.attempt(s.attempt);
    match e
    case Forwarded(_, _) => false
    case DroppedPrevious => DropsPrevious(a, s.trace, s.request)
    case DroppedEncrypted => DropsEncrypted(a, s.trace, s.request)
    case MarkedAgent => MarksAgent(a, s.trace)
    case BackedOff(n, elapsed, delay) =>
      && MayReconnect(a, s.trace, s.request, s.attempt) && Affordable(env, n, elapsed)
      && n == s.attempt && elapsed == s.clock + a.busy && Wait(delay) == Backoff(env.cfg, n, a.draw)
  }

  ghost predicate Stays(env: Environment, s: State) {
    var a := env.attempt(s.attempt);
    && !DropsPrevious(a, s.trace, s.request) && !DropsEncrypted(a, s.trace, s.request) && !MarksAgent(a, s.trace)
    && !(MayReconnect(a, s.trace, s.request, s.attempt) && Affordable(env, s.attempt, s.clock + a.busy))
  }

  lemma ReconnectGoes(env: Environment, a: Attempt, s: State) returns (extra: seq<Event>)
    ensures var r := Reconnect(env, a, s);
            && |extra| <= 1 && r.state.trace == s.trace + extra
            && r.state.request == s.request && r.state.attempt == s.attempt && r.state.lastReason == s.lastReason
            && (extra != [] ==>
                  && extra[0].BackedOff? && extra[0].attempt == s.attempt && extra[0].elapsed == s.clock
                  && Wait(extra[0].delay) == Backoff(env.cfg, s.attempt, a.draw)
                  && (r.Again? <==> !Interrupted(a, extra[0]))
                  && (r.Again? ==> r.state.clock == s.clock + Waited(extra)))
            && (extra == [] ==> r.Stop?)
            && (extra != [] <==>
                  && !a.placeholderPending && a.retryable && s.attempt < MAX_ATTEMPTS
                  && Backoff(env.cfg, s.attempt, a.draw).Wait?
                  && !(env.budget > 0
                       && Wrap(Elapsed(s.clock) + Backoff(env.cfg, s.attempt, a.draw).ns) > env.budget))
  {
    hide Backoff, Wrap, Elapsed;
    var delay := Backoff(env.cfg, s.attempt, a.draw);
    extra := if Reconnect(env, a, s).state.trace == s.trace then []
             else [BackedOff(s.attempt, s.clock, if delay.Wait? then delay.ns else 0)];
  }

  /** What a turn does, by what its trace says. */
  ghost predicate Gone(env: Environment, s: State, extra: seq<Event>) {
    var r := Next(env, s);
    && |extra| <= 1 && r.state.trace == s.trace + [Forwarded(s.request, s.lastReason)] + extra
    && (extra == [] ==> r.Stop? && Stays(env, s))
    && (extra != [] ==>
          && Goes(env, s, extra[0])
          && (r.Again? <==> !Interrupted(env.attempt(s.attempt), extra[0]))
          && r.state.request == Changed(s.request, extra[0]))
    && (r.Again? ==>
          && r.state.attempt == s.attempt + 1 && r.state.clock == Sent(env, s).clock + Waited(extra)
          && r.state.lastReason == LatestReason(env, s.attempt + 1))
  }

  lemma TurnReconnects(env: Environment, s: State) returns (extra: seq<Event>)
    requires InStep(env, s) && s.attempt <= MAX_ATTEMPTS
    requires var a := env.attempt(s.attempt);
             && Open(a) && !DropsPrevious(a, s.trace, s.request) && !DropsEncrypted(a, s.trace, s.request)
             && !MarksAgent(a, s.trace)
    ensures Gone(env, s, extra)
  {
    hide Backoff, Reconnect, Wrap, Elapsed, Count, Clock;
    var a, sent := env.attempt(s.attempt), Sent(env, s);
    var t := sent.(lastReason := if a.reason.NoReason? then s.lastReason else a.reason);
    extra := ReconnectGoes(env, a, t);
    assert Decide(env, a, sent) == Reconnect(env, a, t);
  }

  lemma TurnRecovers(env: Environment, s: State) returns (extra: seq<Event>)
    requires InStep(env, s) && s.attempt <= MAX_ATTEMPTS
    requires var a := env.attempt(s.attempt);
             || !Open(a) || DropsPrevious(a, s.trace, s.request) || DropsEncrypted(a, s.trace, s.request)
             || MarksAgent(a, s.trace)
    ensures Gone(env, s, extra)
  {
    hide Backoff, Reconnect, Wrap, Elapsed, Count, Clock;
    var a := env.attempt(s.attempt);
    extra := if !Open(a) then []
             else if DropsPrevious(a, s.trace, s.request) then [DroppedPrevious]
             else if DropsEncrypted(a, s.trace, s.request) then [DroppedEncrypted]
             else [MarkedAgent];
  }

  lemma TurnGoes(env: Environment, s: State) returns (extra: seq<Event>)
    requires InStep(env, s) && s.attempt <= MAX_ATTEMPTS
    ensures Gone(env, s, extra)
  {
    hide Gone, InStep, DropsPrevious, DropsEncrypted, MarksAgent;
    var a := env.attempt(s.attempt);
    if Open(a) && !DropsPrevious(a, s.trace, s.request) && !DropsEncrypted(a, s.trace, s.request)
       && !MarksAgent(a, s.trace) {
      extra := TurnReconnects(env, s);
    } else {
      extra := TurnRecovers(env, s);
    }
  }

  lemma TurnKeepsStep(env: Environment, s: State)
    requires InStep(env, s) && s.attempt <= MAX_ATTEMPTS && Next(env, s).Again?
    ensures InStep(env, Next(env, s).state)
  {
    hide Backoff, Next, Count, Clock, Goes, LatestReason;
    var extra := TurnGoes(env, s);
    var shape := TurnShape(env, s);
    var f := Forwarded(s.request, s.lastReason);
    assert extra == shape by { assert Next(env, s).state.trace[|s.trace| + 1..] == extra == shape; }
    CountedTwice(s.trace, f, extra, ANY_FORWARD);
    CountedTwice(s.trace, f, extra, DroppedPrevious);
    CountedTwice(s.trace, f, extra, DroppedEncrypted);
    CountedTwice(s.trace, f, extra, MarkedAgent);
    ClockGrows(env, s.trace, f);
    ClockGrows(env, s.trace + [f], extra[0]);
    assert s.trace + [f] + [extra[0]] == s.trace + [f] + extra;
  }

  /** A run goes on from its trace, with a forward while attempts are left. */
  lemma {:induction false} RunContinues(env: Environment, s: State)
    ensures s.trace <= Run(env, s).state.trace
    ensures s.attempt <= MAX_ATTEMPTS ==>
              s.trace + [Forwarded(s.request, s.lastReason)] <= Run(env, s).state.trace
    ensures s.attempt > MAX_ATTEMPTS ==> Run(env, s).state.trace == s.trace
    decreases MAX_ATTEMPTS + 1 - s.attempt
  {
    hide Next;
    if s.attempt <= MAX_ATTEMPTS {
      var _ := TurnShape(env, s);
      if Next(env, s).Again? {
        RunContinues(env, Next(env, s).state);
      }
    }
  }

  lemma FirstIsAnswered(env: Environment, s: State)
    requires InStep(env, s) && s.attempt <= MAX_ATTEMPTS
    ensures var trace := Run(env, s).state.trace;
            |s.trace| < |trace| && trace[|s.trace|].Forwarded? && Answered(env, trace, |s.trace|)
  {
    hide Backoff, Next, Count, Clock, LatestReason, Affordable, MayReconnect, DropsPrevious, DropsEncrypted, MarksAgent;
    var extra := TurnGoes(env, s);
    var trace, i, f := Run(env, s).state.trace, |s.trace|, Forwarded(s.request, s.lastReason);
    var t := Next(env, s).state;
    RunContinues(env, s);
    if Next(env, s).Again? {
      RunContinues(env, t);
    }
    assert t.trace <= trace && t.trace == s.trace + [f] + extra;
    assert trace[..i] == s.trace && trace[..i + 1] == s.trace + [f];
    Counted(s.trace, [f], ANY_FORWARD);
    ClockGrows(env, s.trace, f);
    ExclusiveEvents(env, s);
  }

  lemma ExclusiveEvents(env: Environment, s: State)
    ensures var a := env.attempt(s.attempt);
            && !(DropsPrevious(a, s.trace, s.request) && DropsEncrypted(a, s.trace, s.request))
            && !(DropsPrevious(a, s.trace, s.request) && MarksAgent(a, s.trace))
            && !(DropsEncrypted(a, s.trace, s.request) && MarksAgent(a, s.trace))
            && (MayReconnect(a, s.trace, s.request, s.attempt) ==>
                  && !DropsPrevious(a, s.trace, s.request) && !DropsEncrypted(a, s.trace, s.request)
                  && !MarksAgent(a, s.trace))
  {
    hide Count;
  }

  /** Every forward of every run is followed by exactly what the trace so far and the answer call for: the
      recovery that applies and has not been made, else a delay that attempts and budget allow, else
      nothing; and then, while attempts are left, by a forward of the request so changed. */
  lemma {:induction false} EveryForwardAnswered(env: Environment, s: State, i: nat)
    requires InStep(env, s) && |s.trace| <= i < |Run(env, s).state.trace| && Run(env, s).state.trace[i].Forwarded?
    ensures Answered(env, Run(env, s).state.trace, i)
    decreases MAX_ATTEMPTS + 1 - s.attempt
  {
    hide Next, Answered, InStep;
    assert s.attempt > MAX_ATTEMPTS ==> Run(env, s).state.trace == s.trace;
    FirstIsAnswered(env, s);
    if i > |s.trace| {
      var extra := TurnGoes(env, s);
      assert Next(env, s).state.trace == s.trace + [Forwarded(s.request, s.lastReason)] + extra;
      if Next(env, s).Again? {
        RunContinues(env, Next(env, s).state);
        TurnKeepsStep(env, s);
        assert extra != [] ==> !extra[0].Forwarded?;
        EveryForwardAnswered(env, Next(env, s).state, i);
      }
    }
  }

  // ---- the result --------------------------------------------------------------------------------------

  /** The result after the last forward, at position i, and what followed it. */
  ghost predicate Concludes(env: Environment, trace: seq<Event>, i: nat, result: Result) {
    && i < |trace| <= i + 2 && trace[i].Forwarded?
    && var n := Count(trace[..i + 1], ANY_FORWARD);
       var a := env.attempt(n);
       && (result.Succeeded? <==> a.ok)
       && (result.Cancelled? <==> i + 1 < |trace| && Interrupted(a, trace[i + 1]))
       && (result.Panicked?
           <==> MayReconnect(a, trace[..i], trace[i].request, n) && Backoff(env.cfg, n, a.draw).Panic?)
  }

  lemma TurnConcludes(env: Environment, s: State)
    requires InStep(env, s) && s.attempt <= MAX_ATTEMPTS
    ensures var r := Next(env, s);
            && (r.Stop? ==> Concludes(env, r.state.trace, |s.trace|, r.result))
            && (r.Again? && s.attempt == MAX_ATTEMPTS ==> Concludes(env, r.state.trace, |s.trace|, Failed))
  {
    hide Backoff, Wrap, Elapsed, Count, Clock, LatestReason, Waited;
    var extra := TurnGoes(env, s);
    var trace, i, f := Next(env, s).state.trace, |s.trace|, Forwarded(s.request, s.lastReason);
    assert trace[..i] == s.trace && trace[..i + 1] == s.trace + [f];
    Counted(s.trace, [f], ANY_FORWARD);
  }

  /** The result of every run: success exactly when the last forward succeeded, a cancellation exactly when
      the context ended during a delay, a panic exactly when the delay could not be drawn, and failure
      otherwise. */
  lemma {:induction false} ResultExactly(env: Environment, s: State) returns (i: nat)
    requires InStep(env, s) && s.attempt <= MAX_ATTEMPTS
    ensures Run(env, s).Stop? && Concludes(env, Run(env, s).state.trace, i, Run(env, s).result)
    decreases MAX_ATTEMPTS + 1 - s.attempt
  {
    hide Next, Concludes, InStep;
    i := |s.trace|;
    TurnConcludes(env, s);
    var t := Next(env, s);
    if t.Again? {
      TurnKeepsStep(env, s);
      var _ := TurnShape(env, s);
      if s.attempt < MAX_ATTEMPTS {
        i := ResultExactly(env, t.state);
      }
    }
  }

  lemma EnterInStep(env: Environment, request: Request)
    ensures InStep(env, Enter(request))
  {
  }
}
