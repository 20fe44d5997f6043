/** handleStreamingResponsePassthrough as a loop over its events, and the loop that writes the lines it
    held back. */
module PassthroughRelayLoop {
  import opened StreamEvents
  import opened Downstream
  import opened Relays
  import opened PassthroughRelay
  import opened PassthroughRelayProofs
  import opened PassthroughRelayOutput
  import opened PassthroughRelayExits
  import opened PassthroughRelayFailover

  /** Writes the held-back lines one by one until the connection breaks: a client that is still there
      has received all of them in order. */
  method WritePendingLines(link: Link, client0: Client, pending: seq<string>) returns (client: Client, ok: bool)
    requires !client0.disconnected
    ensures client == PutLines(link, client0, pending)
    ensures ok == !client.disconnected
    ensures ok ==> UpstreamSent(client) == UpstreamSent(client0) + PendingText(pending)
  {
    hide Put, Advances, UpstreamSent, PendingText;
    client := client0;
    PutLinesConserves(link, client0, pending);
    for i := 0 to |pending|
      invariant !client.disconnected
      invariant PutLines(link, client0, pending) == PutLines(link, client, pending[i..])
    {
      client := Put(link, client, LineText(pending[i]));
      if client.disconnected {
        BrokenStaysBroken(link, client, pending[i + 1..]);
        return client, false;
      }
    }
    return client, true;
  }

  lemma BrokenStaysBroken(link: Link, c: Client, lines: seq<string>)
    requires c.disconnected
    ensures PutLines(link, c, lines) == c
  {
  }

  lemma {:induction false} EndedEarly(link: Link, cfg: Config, s: State, steps: seq<Step>, more: seq<Step>)
    requires RunSteps(link, cfg, s, steps).Ended?
    ensures RunSteps(link, cfg, s, steps + more) == RunSteps(link, cfg, s, steps)
    decreases steps
  {
    hide Advance;
    assert (steps + more)[0] == steps[0] && (steps + more)[1..] == steps[1..] + more;
    if Advance(link, cfg, s, steps[0]).Running? {
      EndedEarly(link, cfg, Advance(link, cfg, s, steps[0]).state, steps[1..], more);
    }
  }

  lemma NoSteps(link: Link, cfg: Config, s: State)
    ensures RunSteps(link, cfg, s, []) == Running(s)
  {
  }

  /** The terminal type a caller reads off the lines and whether the gateway ended the stream itself. */
  function Reported(lines: seq<Line>, gatewayEnds: bool): EventType {
    if AnyFails(NoType, lines) then Failed
    else if !NeutralAfter(NoType, NoType, lines).NoType? then NeutralAfter(NoType, NoType, lines)
    else if gatewayEnds then Failed
    else TerminalAfter(NoType, NoType, lines)
  }

  /** Output counts as started before the first line. */
  predicate Started(cfg: Config, preflushed: bool, placeholderSent: bool) {
    (preflushed || placeholderSent) && !cfg.gatewayOnly
  }

  /** The relay before the i-th event. */
  ghost function Before(
      link: Link, cfg: Config, client: Client, preflushed: bool, placeholderSent: bool, steps: seq<Step>, i: nat): State
    requires i <= |steps|
  {
    RunSteps(link, cfg, Start(client, cfg, preflushed, placeholderSent), steps[..i]).state
  }

  /** The select loop. It stops with the event that ends the run; n events were taken. */
  method HandleStreamingResponsePassthrough(
      link: Link, cfg: Config, client: Client, preflushed: bool, placeholderSent: bool, steps: seq<Step>)
    returns (run: Run, n: nat)
    ensures run == RunSteps(link, cfg, Start(client, cfg, preflushed, placeholderSent), steps)
    ensures n <= |steps| && (run.Running? ==> n == |steps|) && (run.Ended? ==> n > 0)
    // when and how it ends
    ensures forall i | 0 <= i < |steps| && (i < n || run.Running?) ::
              Ends(link, cfg, Before(link, cfg, client, preflushed, placeholderSent, steps, i),
                   LinesOf(steps[..i]), steps[i])
              <==> run.Ended? && i == n - 1
    ensures run.Ended? ==>
              EndsAs(link, cfg, Before(link, cfg, client, preflushed, placeholderSent, steps, n - 1),
                     LinesOf(steps[..n - 1]), steps[n - 1], run.exit)
    // what is billed
    ensures run.Ended? && !steps[n - 1].Upstream? ==>
              run.state.bill == BillLines(NOTHING_BILLED, NoType, LinesOf(steps[..n - 1]))
    // what is reported
    ensures run.Ended? ==>
              ResultTerminal(run.state.verdict)
              == Reported(LinesOf(steps[..n - 1]), GatewayEnds(link, run.state, run.exit))
    // what the client of a run that fails over has received
    ensures run.Ended? && run.exit.Failover? && Coherent(cfg) && Ordinary(cfg, link, client, LinesOf(steps[..n])) ==>
              run.state.client.sent == client.sent == []
    ensures run.Ended? && run.exit.Failover? && LinesDecide(cfg)
            && !Exposes(cfg, Started(cfg, preflushed, placeholderSent), NoType, LinesOf(steps[..n - 1])) ==>
              UpstreamSent(run.state.client) == UpstreamSent(client)
    ensures run.Ended? && run.exit.Failover? && LinesDecide(cfg) && Connected(run.state) ==>
              (UpstreamSent(run.state.client) == UpstreamSent(client)
               <==> !Exposes(cfg, Started(cfg, preflushed, placeholderSent), NoType, LinesOf(steps[..n - 1])))
    ensures run.Ended? && run.exit.Failover? && Coherent(cfg) && cfg.gatewayOnly && client.active
            && Connected(run.state) && link.wrapped && AllShaped(link.placeholder, LinesOf(steps[..n - 1])) ==>
              UpstreamSent(run.state.client) == UpstreamSent(client)
  {
    hide Advance, RunSteps, UpstreamSent, AllShaped, Exposes, Ordinary, Reported, GatewayEnds, Ends,
         EndsAs;
    ghost var s := Start(client, cfg, preflushed, placeholderSent);
    run, n := Running(Start(client, cfg, preflushed, placeholderSent)), 0;
    assert steps[..0] == [] && RunSteps(link, cfg, s, []) == Running(s) by { NoSteps(link, cfg, s); }
    while n < |steps| && run.Running?
      invariant n <= |steps| && run == RunSteps(link, cfg, s, steps[..n])
      invariant run.Ended? ==> n > 0 && RunSteps(link, cfg, s, steps[..n - 1]).Running?
      invariant forall i | 0 <= i < n ::
                  Ends(link, cfg, RunSteps(link, cfg, s, steps[..i]).state, LinesOf(steps[..i]), steps[i])
                  <==> run.Ended? && i == n - 1
      decreases |steps| - n
    {
      RunThenEnd(link, cfg, s, steps[..n], steps[n]);
      ExitExactly(link, cfg, client, preflushed, placeholderSent, steps[..n], steps[n]);
      assert steps[..n] + [steps[n]] == steps[..n + 1];
      run := Advance(link, cfg, run.state, steps[n]);
      n := n + 1;
    }
    assert steps[..n] + steps[n..] == steps && (n == |steps| ==> steps[..n] == steps);
    if run.Ended? {
      EndedEarly(link, cfg, s, steps[..n], steps[n..]);
      assert steps[..n - 1] + [steps[n - 1]] == steps[..n];
      EndedRun(link, cfg, client, preflushed, placeholderSent, steps[..n - 1], steps[n - 1]);
    }
  }

  /** The theorems about one ended run, together. */
  lemma EndedRun(
      link: Link, cfg: Config, client: Client, preflushed: bool, placeholderSent: bool, steps: seq<Step>, last: Step)
    requires RunSteps(link, cfg, Start(client, cfg, preflushed, placeholderSent), steps).Running?
    requires RunSteps(link, cfg, Start(client, cfg, preflushed, placeholderSent), steps + [last]).Ended?
    ensures var run := RunSteps(link, cfg, Start(client, cfg, preflushed, placeholderSent), steps + [last]);
            var exposed := Exposes(cfg, Started(cfg, preflushed, placeholderSent), NoType, LinesOf(steps));
            && EndsAs(link, cfg, RunSteps(link, cfg, Start(client, cfg, preflushed, placeholderSent), steps).state,
                      LinesOf(steps), last, run.exit)
            && (!last.Upstream? ==> run.state.bill == BillLines(NOTHING_BILLED, NoType, LinesOf(steps)))
            && ResultTerminal(run.state.verdict)
               == Reported(LinesOf(steps), GatewayEnds(link, run.state, run.exit))
            && (run.exit.Failover? && Coherent(cfg) && Ordinary(cfg, link, client, LinesOf(steps + [last])) ==>
                  run.state.client.sent == client.sent == [])
            && (run.exit.Failover? && LinesDecide(cfg) && !exposed ==>
                  UpstreamSent(run.state.client) == UpstreamSent(client))
            && (run.exit.Failover? && LinesDecide(cfg) && Connected(run.state) ==>
                  (UpstreamSent(run.state.client) == UpstreamSent(client) <==> !exposed))
            && (run.exit.Failover? && Coherent(cfg) && cfg.gatewayOnly && client.active && Connected(run.state)
                && link.wrapped && AllShaped(link.placeholder, LinesOf(steps)) ==>
                  UpstreamSent(run.state.client) == UpstreamSent(client))
  {
    hide RunSteps, Advance, Exposes, UpstreamSent, Ordinary, AllShaped, GatewayEnds, Ends, EndsAs;
    var s := Start(client, cfg, preflushed, placeholderSent);
    if !last.Upstream? {
      BilledAtEnd(link, cfg, s, steps, last);
    }
    ExitExactly(link, cfg, client, preflushed, placeholderSent, steps, last);
    ReportedTerminal(link, cfg, s, steps, last);
    if RunSteps(link, cfg, s, steps + [last]).exit.Failover? && Coherent(cfg) {
      FailoverFreeExactly(link, cfg, client, preflushed, placeholderSent, steps, last);
    }
  }
}
