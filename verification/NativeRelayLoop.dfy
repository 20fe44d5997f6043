/** handleStreamingResponse as a loop over its events, with what a caller may rely on. */
module NativeRelayLoop {
  import opened StreamEvents
  import opened Downstream
  import opened Relays
  import opened NativeRelay
  import opened NativeRelayProofs
  import opened NativeRelayOutput
  import opened NativeRelayExits
  import opened NativeRelayFailover

  lemma {:induction false} EndedEarly(link: Link, cfg: Config, s: State, steps: seq<Step>, more: seq<Step>)
    requires RunSteps(link, cfg, s, steps).Ended?
    ensures RunSteps(link, cfg, s, steps + more) == RunSteps(link, cfg, s, steps)
    decreases steps
  {
    hide Advance;
    assert (steps + more)[0] == steps[0] && (steps + more)[1..] == steps[1..] + more;
    if Advance(link, cfg, s, steps[0]).Running? {
      EndedEarly(link, cfg, Advance(link, cfg, s, steps[0]).state, steps[1..], more);
    }
  }

  /** The terminal type a caller reads off the lines and the way the run ended. */
  function Reported(lines: seq<Line>, exit: Exit, connected: bool): EventType {
    if AnyFails(NoType, lines) then Failed
    else if !NeutralAfter(NoType, NoType, lines).NoType? then NeutralAfter(NoType, NoType, lines)
    else if GatewayEnds(exit) && connected then Failed
    else TerminalAfter(NoType, NoType, lines)
  }

  predicate Coordinated(cfg: Config, link: Link, client: Client) {
    cfg.gatewayOnly && Faithful(link, client) && client.active && link.wrapped
  }

  /** The relay before the i-th event. */
  ghost function Before(
      link: Link, cfg: Config, client: Client, preflushed: bool, placeholderSent: bool, steps: seq<Step>, i: nat): State
    requires i <= |steps|
  {
    RunSteps(link, cfg, Start(client, cfg, preflushed, placeholderSent), steps[..i]).state
  }

  /** The select loop. It stops with the event that ends the run; n events were taken. */
  method HandleStreamingResponse(
      link: Link, cfg: Config, client: Client, preflushed: bool, placeholderSent: bool, steps: seq<Step>)
    returns (run: Run, n: nat)
    ensures run == RunSteps(link, cfg, Start(client, cfg, preflushed, placeholderSent), steps)
    ensures n <= |steps| && (run.Running? ==> n == |steps|) && (run.Ended? ==> n > 0)
    // when and how it ends
    ensures forall i | 0 <= i < |steps| && (i < n || run.Running?) ::
              Ends(link, cfg, Before(link, cfg, client, preflushed, placeholderSent, steps, i),
                   LinesOf(steps[..i]), steps[i])
              <==> run.Ended? && i == n - 1
    ensures run.Ended? ==>
              EndsAs(link, cfg, Before(link, cfg, client, preflushed, placeholderSent, steps, n - 1),
                     LinesOf(steps[..n - 1]), steps[n - 1], run.exit)
    // what is billed
    ensures run.Ended? && !steps[n - 1].Upstream? ==>
              run.state.bill == BillLines(NOTHING_BILLED, NoType, LinesOf(steps[..n - 1]))
    // what is reported
    ensures run.Ended? ==>
              ResultTerminal(run.state.verdict)
              == Reported(LinesOf(steps[..n - 1]) + LinesOf([steps[n - 1]]), run.exit, Connected(run.state))
    // what the client of a run that fails over has received
    ensures run.Ended? && run.exit.Failover? && Coherent(cfg) && Ordinary(cfg, link, client, LinesOf(steps[..n])) ==>
              run.state.pipe.client.sent == client.sent == []
    ensures run.Ended? && run.exit.Failover? && LinesDecide(cfg)
            && !Exposes(cfg, preflushed, placeholderSent, steps[..n - 1]) ==>
              UpstreamSent(run.state.pipe.client) == UpstreamSent(client)
    ensures run.Ended? && run.exit.Failover? && LinesDecide(cfg) && Connected(run.state) ==>
              (UpstreamSent(run.state.pipe.client) == UpstreamSent(client)
               <==> !Exposes(cfg, preflushed, placeholderSent, steps[..n - 1]))
    ensures run.Ended? && run.exit.Failover? && Coherent(cfg) && Coordinated(cfg, link, client) ==>
              Clean(link, run.state.pipe.client)
  {
    hide Advance, RunSteps, Exposes, UpstreamSent, Clean, Faithful, Reported, Ordinary, Coordinated, Ends, EndsAs;
    ghost var s := Start(client, cfg, preflushed, placeholderSent);
    run, n := Running(Start(client, cfg, preflushed, placeholderSent)), 0;
    assert steps[..0] == [] && RunSteps(link, cfg, s, []) == Running(s) by { NoSteps(link, cfg, s); }
    while n < |steps| && run.Running?
      invariant n <= |steps| && run == RunSteps(link, cfg, s, steps[..n])
      invariant run.Ended? ==> n > 0 && RunSteps(link, cfg, s, steps[..n - 1]).Running?
      invariant forall i | 0 <= i < n ::
                  Ends(link, cfg, RunSteps(link, cfg, s, steps[..i]).state, LinesOf(steps[..i]), steps[i])
                  <==> run.Ended? && i == n - 1
      decreases |steps| - n
    {
      RunThenEnd(link, cfg, s, steps[..n], steps[n]);
      ExitExactly(link, cfg, client, preflushed, placeholderSent, steps[..n], steps[n]);
      assert steps[..n] + [steps[n]] == steps[..n + 1];
      run := Advance(link, cfg, run.state, steps[n]);
      n := n + 1;
    }
    assert steps[..n] + steps[n..] == steps && (n == |steps| ==> steps[..n] == steps);
    if run.Ended? {
      EndedEarly(link, cfg, s, steps[..n], steps[n..]);
      assert steps[..n - 1] + [steps[n - 1]] == steps[..n];
      EndedRun(link, cfg, client, preflushed, placeholderSent, steps[..n - 1], steps[n - 1]);
    }
  }

  lemma NoSteps(link: Link, cfg: Config, s: State)
    ensures RunSteps(link, cfg, s, []) == Running(s)
  {
  }

  /** The theorems about one ended run, together. */
  lemma EndedRun(
      link: Link, cfg: Config, client: Client, preflushed: bool, placeholderSent: bool, steps: seq<Step>, last: Step)
    requires RunSteps(link, cfg, Start(client, cfg, preflushed, placeholderSent), steps).Running?
    requires RunSteps(link, cfg, Start(client, cfg, preflushed, placeholderSent), steps + [last]).Ended?
    ensures var s := Start(client, cfg, preflushed, placeholderSent);
            var run := RunSteps(link, cfg, s, steps + [last]);
            && EndsAs(link, cfg, RunSteps(link, cfg, Start(client, cfg, preflushed, placeholderSent), steps).state,
                      LinesOf(steps), last, run.exit)
            && (!last.Upstream? ==> run.state.bill == BillLines(NOTHING_BILLED, NoType, LinesOf(steps)))
            && ResultTerminal(run.state.verdict)
               == Reported(LinesOf(steps) + LinesOf([last]), run.exit, Connected(run.state))
            && (run.exit.Failover? && Coherent(cfg) && Ordinary(cfg, link, client, LinesOf(steps + [last])) ==>
                  run.state.pipe.client.sent == client.sent == [])
            && (run.exit.Failover? && LinesDecide(cfg) && !Exposes(cfg, preflushed, placeholderSent, steps) ==>
                  UpstreamSent(run.state.pipe.client) == UpstreamSent(client))
            && (run.exit.Failover? && LinesDecide(cfg) && Connected(run.state) ==>
                  (UpstreamSent(run.state.pipe.client) == UpstreamSent(client)
                   <==> !Exposes(cfg, preflushed, placeholderSent, steps)))
            && (run.exit.Failover? && Coherent(cfg) && Coordinated(cfg, link, client) ==>
                  Clean(link, run.state.pipe.client))
  {
    hide RunSteps, Advance, Exposes, UpstreamSent, Clean, Faithful, Ordinary, EndsAs, Ends;
    var s := Start(client, cfg, preflushed, placeholderSent);
    if !last.Upstream? {
      BilledAtEnd(link, cfg, s, steps, last);
    }
    ExitExactly(link, cfg, client, preflushed, placeholderSent, steps, last);
    ReportedTerminal(link, cfg, s, steps, last);
    if RunSteps(link, cfg, s, steps + [last]).exit.Failover? && Coherent(cfg) {
      FailoverFreeExactly(link, cfg, client, preflushed, placeholderSent, steps, last);
      if Coordinated(cfg, link, client) {
        FailoverIsClean(link, cfg, s, steps + [last]);
      }
    }
  }
}
