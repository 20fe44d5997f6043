/** The HTTP retry loop in the source's own form, with its recursive re-entry. */
module HttpRetryLoop {
  import opened HttpRetry
  import opened HttpRetryProofs
  import opened HttpRetryOutcome

  /** One pass through Forward and, when the optimized request is not supported, a second one. However
      the upstream answers: it ends, within the bound, sends nothing after a commit, and the outcome is what
      the last answer and the recoveries that were left make it. */
  method ForwardOverHttp(env: Environment, s0: Loop) returns (outcome: Outcome, s: Loop)
    ensures Stop(outcome, s) == Run(env, s0)
    ensures s0.sent <= s.sent && |s.sent| <= |s0.sent| + 1 + Potential(s0)
    ensures forall k: nat | |s0.sent| <= k < |s.sent| - 1 :: !env.reply(k).committed
    ensures var last := Last(env, s0);
            && EndsAs(env.reply(|last.sent|), last, outcome)
            && s.sent == if outcome.BuildFailed? then last.sent else last.sent + [last.request.body]
    decreases s0.optimized
  {
    hide DropBoost, Recovered, Potential, EndsAs, Last;
    SendsBounded(env, s0);
    OutcomeExactly(env, s0);
    forall k: nat | |s0.sent| <= k < |Run(env, s0).loop.sent| - 1 ensures !env.reply(k).committed {
      NoSendAfterCommit(env, s0, k);
    }
    s := s0;
    while true
      invariant Run(env, s0) == Run(env, s) && s.optimized == s0.optimized
      decreases Unspent(s)
    {
      RetryShrinks(env, s);
      var r := env.reply(|s.sent|);
      if r.buildFails {
        return BuildFailed, s;
      }
      s := Send(s);
      if r.transportFails {
        return if r.committed then FailedAfterCommit else TransportFailed, s;
      }
      if 200 <= r.status < 300 {
        return Responded, s;
      }
      if !r.committed && !s.tried.agent && r.agentTaskInvalid {
        s := s.(tried := s.tried.(agent := true));
        if !r.agentRecovers {
          return AgentRecoveryFailed, s;
        }
        s := Retry(s, AgentIdentity);
        continue;
      }
      if r.committed {
        return FailedAfterCommit, s;
      }
      if r.status == 401 && r.refreshable && !s.refreshTried {
        s := s.(refreshTried := true);
        if r.refreshes {
          s := Retry(s, TokenRefresh);
          continue;
        }
      }
      if s.optimized && r.optimizationUnsupported {
        var again := Loop(false, s.refreshTried, FRESH, env.plain, s.sent, s.log);
        outcome, s := ForwardOverHttp(env, Retry(again, Reentry));
        return;
      }
      BoostKeepsPolicy(r, s);
      var turn := DropBoost(r, s);
      s := turn.loop;
      if turn.Stop? {
        return turn.outcome, s;
      }
    }
  }

  lemma BoostKeepsPolicy(r: Reply, s: Loop)
    ensures DropBoost(r, s).loop.optimized == s.optimized
  {
  }
}
