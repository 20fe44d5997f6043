/** The WebSocket reconnect loop in the source's own form. */
module WsReconnectLoop {
  import opened WsReconnect
  import opened WsTraces

  /** However the upstream behaves: at most six forwards, each recovery at most once, and the request
      changed by exactly the recorded recoveries; what follows each forward is what its answer calls for. */
  method ForwardOverWebSocket(env: Environment, request: Request) returns (result: Result, s: State)
    ensures Stop(result, s) == Run(env, Enter(request))
    ensures Count(s.trace, ANY_FORWARD) <= MAX_ATTEMPTS && Accounts(request, s)
    ensures AllScheduled(env, s.trace)
    // what follows each forward, and the result
    ensures s.trace != [] && s.trace[0] == Forwarded(request, NoReason)
    ensures forall i | 0 <= i < |s.trace| && s.trace[i].Forwarded? :: Answered(env, s.trace, i)
    ensures exists i: nat :: Concludes(env, s.trace, i, result)
    ensures env.budget > 0 && Sensible(env) ==> Delays(s.trace) <= env.budget
  {
    hide Next, Accounts, Scheduled, Sensible, InStep, Answered, Concludes;
    if env.budget > 0 && Sensible(env) {
      DelaysWithinBudget(env, Enter(request));
    }
    EnterAccounts(request);
    RunCounts(env, request, Enter(request));
    EveryDelayFits(env, Enter(request));
    EnterInStep(env, Enter(request).request);
    RunContinues(env, Enter(request));
    ghost var trace := Run(env, Enter(request)).state.trace;
    forall i | 0 <= i < |trace| && trace[i].Forwarded? ensures Answered(env, trace, i) {
      EveryForwardAnswered(env, Enter(request), i);
    }
    ghost var _ := ResultExactly(env, Enter(request));
    s := Enter(request);
    while s.attempt <= MAX_ATTEMPTS
      invariant Run(env, Enter(request)) == Run(env, s)
      decreases MAX_ATTEMPTS + 1 - s.attempt
    {
      var _ := TurnShape(env, s);
      var turn := Next(env, s);
      s := turn.state;
      if turn.Stop? {
        return turn.result, s;
      }
    }
    return Failed, s;
  }

  lemma EnterAccounts(request: Request)
    ensures Accounts(request, Enter(request)) && Count(Enter(request).trace, ANY_FORWARD) == 0
  {
  }
}
