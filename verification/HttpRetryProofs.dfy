/** What every request through the HTTP retry loop guarantees. */
module HttpRetryProofs {
  import opened StreamEvents
  import opened HttpRetry

  /** The state in which Forward enters the loop. */
  function Enter(optimized: bool, request: Request): Loop {
    Loop(optimized, false, FRESH, request, [], [])
  }

  // ---- how often the upstream is asked -----------------------------------------------------

  /** All recoveries a request can still make, the re-entry and its own recoveries included. */
  function Potential(s: Loop): nat {
    Unspent(s) + if s.optimized then 11 else 0
  }

  lemma {:induction false} SendsBounded(env: Environment, s: Loop)
    ensures var e := Run(env, s).loop;
            s.sent <= e.sent && |e.sent| <= |s.sent| + 1 + Potential(s)
    decreases if s.optimized then 1 else 0, Unspent(s)
  {
    hide Next, Rewrite, Sync, Strip, Trim;
    TurnExplained(env, s);
    RetryShrinks(env, s);
    if Next(env, s).Again? {
      SendsBounded(env, Next(env, s).loop);
    } else {
      StopSends(env, s);
    }
  }

  lemma StopSends(env: Environment, s: Loop)
    ensures var t := Next(env, s);
            t.Stop? ==> t.loop.log == s.log
                        && t.loop.sent == if t.outcome.BuildFailed? then s.sent else Send(s).sent
  {
    hide Rewrite, Sync, Strip, Trim;
  }

  /** No request is sent upstream more than 23 times, 12 without the cache optimization. */
  lemma AtMostTwentyThreeSends(env: Environment, optimized: bool, request: Request)
    ensures |Run(env, Enter(optimized, request)).loop.sent| <= if optimized then 23 else 12
  {
    SendsBounded(env, Enter(optimized, request));
  }

  /** Only the last send can have found the response committed. */
  lemma {:induction false} NoSendAfterCommit(env: Environment, s: Loop, k: nat)
    requires |s.sent| <= k < |Run(env, s).loop.sent| - 1
    ensures !env.reply(k).committed
    decreases if s.optimized then 1 else 0, Unspent(s)
  {
    hide Next, Rewrite, Sync, Strip, Trim;
    TurnExplained(env, s);
    RetryShrinks(env, s);
    StopSends(env, s);
    if Next(env, s).Again? && k > |s.sent| {
      NoSendAfterCommit(env, Next(env, s).loop, k);
    }
  }

  // ---- each recovery once --------------------------------------------------------------------

  function Count(log: seq<Recovery>, why: Recovery): nat {
    if log == [] then 0
    else Count(log[..|log| - 1], why) + if log[|log| - 1] == why then 1 else 0
  }

  /** How often since the last re-entry. */
  function InPass(log: seq<Recovery>, why: Recovery): nat {
    if log == [] || log[|log| - 1].Reentry? then 0
    else InPass(log[..|log| - 1], why) + if log[|log| - 1] == why then 1 else 0
  }

  function Limit(why: Recovery): nat {
    if why.RejectedField? then MAX_FIELD_RETRIES else 1
  }

  predicate Ledger(s: Loop) {
    && InPass(s.log, AgentIdentity) == 1 - Bit(s.tried.agent)
    && InPass(s.log, CacheBoost) == 1 - Bit(s.tried.boost)
    && InPass(s.log, EncryptedContent) == 1 - Bit(s.tried.encrypted)
    && InPass(s.log, ResetCredit) == 1 - Bit(s.tried.credit)
    && InPass(s.log, RejectedField) == s.tried.attempts <= MAX_FIELD_RETRIES
    && Count(s.log, TokenRefresh) <= 1 - Bit(s.refreshTried)
    && Count(s.log, Reentry) <= 1
    && (s.optimized ==> Count(s.log, Reentry) == 0)
  }

  lemma LedgerStep(env: Environment, s: Loop, t: Loop, why: Recovery)
    requires Ledger(s) && Recovered(env, s, t, why)
    ensures Ledger(t)
  {
    hide Rewrite, Sync, Strip, Trim;
    assert t.log[..|t.log| - 1] == s.log;
  }

  /** At the end of every request: each one-shot recovery at most once in a pass, at most six field
      retries in a pass, at most one token refresh and one re-entry overall. */
  lemma {:induction false} EachRecoveryOnce(env: Environment, s: Loop)
    requires Ledger(s) && |s.log| == |s.sent|
    ensures var e := Run(env, s).loop;
            && (forall why :: InPass(e.log, why) <= Limit(why))
            && Count(e.log, TokenRefresh) <= 1 && Count(e.log, Reentry) <= 1
            && |e.log| <= |e.sent| <= |e.log| + 1
    decreases if s.optimized then 1 else 0, Unspent(s)
  {
    hide Next, Rewrite, Sync, Strip, Trim;
    TurnExplained(env, s);
    RetryShrinks(env, s);
    StopSends(env, s);
    if Next(env, s).Again? {
      var t := Next(env, s).loop;
      LedgerStep(env, Send(s), t, t.log[|t.log| - 1]);
      EachRecoveryOnce(env, t);
    } else {
      PassWithinTotal(s.log);
      forall why ensures InPass(s.log, why) <= Limit(why) {
        match why
        case Reentry => NoReentryInPass(s.log);
        case _ =>
      }
    }
  }

  lemma {:induction false} PassWithinTotal(log: seq<Recovery>)
    ensures forall why :: InPass(log, why) <= Count(log, why)
  {
    if log != [] {
      PassWithinTotal(log[..|log| - 1]);
    }
  }

  lemma {:induction false} NoReentryInPass(log: seq<Recovery>)
    ensures InPass(log, Reentry) == 0
  {
    if log != [] {
      NoReentryInPass(log[..|log| - 1]);
    }
  }

  // ---- the bodies that are sent --------------------------------------------------------------

  predicate Marker(f: Field) {
    f.EncryptedOf? || f.CompactionOf?
  }

  ghost predicate HasMarker(b: Body) {
    exists f :: f in b && Marker(f)
  }

  /** The encrypted content of the parsed form is in the bytes too. */
  ghost predicate Tracks(q: Request) {
    forall f :: f in q.parsed && Marker(f) ==> f in q.body
  }

  /** Each body remembered by the field retries is larger than the current one, or still has
      encrypted content while the current one has none. */
  ghost predicate Remembers(s: Loop) {
    && Tracks(s.request)
    && (s.tried.encrypted ==> !HasMarker(s.request.body))
    && forall b :: b in s.tried.seen ==> s.request.body <= b || (s.tried.encrypted && HasMarker(b))
  }

  lemma TrimDropsMarkers(b: Body)
    ensures !HasMarker(Trim(b)) && Trim(b) <= b
    ensures Trim(b) != b ==> HasMarker(b)
  {
  }

  /** The duplicate check never stands in the way: only the limit refuses a field retry. */
  lemma OnlyTheLimitRefuses(s: Loop, rejection: Rejection)
    requires Remembers(s) && Rewrite(s.request.body, rejection).Some?
    ensures Allow(s.tried, s.request.body, Rewrite(s.request.body, rejection).value).0
            == (s.tried.attempts < MAX_FIELD_RETRIES)
  {
  }

  lemma RemembersStep(env: Environment, s: Loop, t: Loop, why: Recovery)
    requires Remembers(s) && Recovered(env, s, t, why) && Tracks(env.plain)
    ensures Remembers(t)
  {
  }

  /** The states in which the loop starts a turn. */
  function Heads(env: Environment, s: Loop): seq<Loop>
    decreases if s.optimized then 1 else 0, Unspent(s)
  {
    hide Next;
    RetryShrinks(env, s);
    [s] + match Next(env, s)
          case Stop(_, _) => []
          case Again(t) => Heads(env, t)
  }

  /** In no turn of any request does the memory of sent bodies refuse a field retry. */
  lemma {:induction false} NeverADuplicate(env: Environment, s: Loop, h: Loop, rejection: Rejection)
    requires Remembers(s) && Tracks(env.plain)
    requires h in Heads(env, s) && Rewrite(h.request.body, rejection).Some?
    ensures Allow(h.tried, h.request.body, Rewrite(h.request.body, rejection).value).0
            == (h.tried.attempts < MAX_FIELD_RETRIES)
    decreases if s.optimized then 1 else 0, Unspent(s)
  {
    hide Next, Rewrite, Allow, Recovered, Remembers;
    if h == s {
      OnlyTheLimitRefuses(s, rejection);
    } else {
      TurnExplained(env, s);
      RetryShrinks(env, s);
      var t := Next(env, s).loop;
      SendRemembers(s);
      RemembersStep(env, Send(s), t, t.log[|t.log| - 1]);
      NeverADuplicate(env, t, h, rejection);
    }
  }

  lemma SendRemembers(s: Loop)
    requires Remembers(s)
    ensures Remembers(Send(s))
  {
  }

  // ---- does a rejected field come back? --------------------------------------------------------

  ghost predicate Chain(sent: seq<Body>) {
    forall i | 0 < i < |sent| :: sent[i] <= sent[i - 1]
  }

  /** Encrypted content, and beside it something that the bytes lack or can lose while the parsed
      form keeps it. */
  ghost predicate Resendable(q: Request) {
    && Trim(q.parsed) != q.parsed
    && (|| !(Trim(q.parsed) <= q.body)
        || (exists f :: f in Trim(q.parsed) && f.StatusOf?)
        || (MaxOutputTokens in q.body && MaxTokens in q.parsed))
  }

  /** How far the bytes and the parsed form of a request can drift apart from their start. */
  ghost predicate Drift(q: Request, from: Request) {
    && q.parsed <= from.parsed && q.body <= from.body
    && (forall f :: f in from.parsed && Marker(f) ==> f in q.parsed)
    && forall f :: f in q.parsed && f in from.body && f !in q.body ==>
         f.StatusOf? || (f.MaxTokens? && MaxOutputTokens in from.body)
  }

  ghost predicate Descends(s: Loop, from: Request) {
    && Chain(s.sent)
    && (s.sent != [] ==> s.request.body <= s.sent[|s.sent| - 1])
    && (!s.tried.encrypted ==> Drift(s.request, from))
  }

  lemma DescendsStep(env: Environment, s: Loop, t: Loop, why: Recovery, from: Request)
    requires Descends(s, from) && !s.optimized && Recovered(env, s, t, why) && !Resendable(from)
    requires s.sent != [] && s.request.body == s.sent[|s.sent| - 1]
    ensures Descends(t, from)
  {
  }

  lemma {:induction false} BodiesDescend(env: Environment, s: Loop, from: Request)
    requires Descends(s, from) && !s.optimized && !Resendable(from)
    ensures Chain(Run(env, s).loop.sent)
    decreases Unspent(s)
  {
    hide Next, Rewrite, Sync, Trim, Strip, Drift, Resendable, Recovered;
    TurnExplained(env, s);
    RetryShrinks(env, s);
    StopSends(env, s);
    if Next(env, s).Again? {
      var t := Next(env, s).loop;
      DescendsStep(env, Send(s), t, t.log[|t.log| - 1], from);
      StillPlain(env, Send(s), t, t.log[|t.log| - 1]);
      BodiesDescend(env, t, from);
    }
  }

  lemma StillPlain(env: Environment, s: Loop, t: Loop, why: Recovery)
    requires !s.optimized && Recovered(env, s, t, why)
    ensures !t.optimized
  {
  }

  /** A reply that names one field, one that complains about encrypted content, and a refusal. */
  const REFUSAL := Reply(false, false, false, 500, false, false, false, false, false, false, false, false, true,
                         None, false, false, false)

  function Contrary(rejection: Option<Rejection>): Environment {
    Environment(
      n => if n == 0 && rejection.Some? then REFUSAL.(status := 400, rejection := rejection)
           else if n <= 1 then REFUSAL.(status := 400, encryptedInvalid := true)
           else REFUSAL,
      Request({}, {}, false, false))
  }

  lemma TrimAtOnce(q: Request)
    requires Trim(q.parsed) != q.parsed
    ensures var sent := Run(Contrary(None), Enter(false, q)).loop.sent;
            |sent| > 1 && sent[0] == q.body && sent[1] == Trim(q.parsed)
  {
  }

  lemma TrimAfterRejection(rejection: Rejection, q: Request)
    requires Rewrite(q.body, rejection).Some?
    requires var kept := Sync(q.parsed, rejection); Trim(kept) != kept
    ensures Run(Contrary(Some(rejection)), Enter(false, q)).loop.sent
            == [q.body, Rewrite(q.body, rejection).value, Trim(Sync(q.parsed, rejection))]
  {
    hide Rewrite, Sync, Trim;
    var env, s := Contrary(Some(rejection)), Enter(false, q);
    var s1 := Next(env, s);
    RewriteDiffers(q.body, rejection);
    assert s1.Again?
           && s1.loop.request == q.(body := Rewrite(q.body, rejection).value, parsed := Sync(q.parsed, rejection));
    var s2 := Next(env, s1.loop);
    assert s2.Again? && s2.loop.request.body == Trim(Sync(q.parsed, rejection));
    var s3 := Next(env, s2.loop);
    assert s3.Stop? && Run(env, s2.loop) == s3;
    assert Run(env, s1.loop) == s3 && Run(env, s) == s3;
  }

  lemma RewriteDiffers(b: Body, rejection: Rejection)
    requires Rewrite(b, rejection).Some?
    ensures Rewrite(b, rejection).value != b
  {
  }

  /** Without the cache optimization the bodies of a request only ever lose fields, whatever the
      upstream answers, exactly when the request does not combine encrypted content with something
      its parsed form would bring back: that form is not told when a status or max_tokens is
      removed, and the encrypted-content retry sends it in full. */
  lemma FieldsStayGoneExactly(q: Request)
    ensures (forall env | PlausibleUpstream(env) :: Chain(Run(env, Enter(false, q)).loop.sent)) <==> !Resendable(q)
  {
    hide Run;
    if !Resendable(q) {
      forall env ensures Chain(Run(env, Enter(false, q)).loop.sent) {
        BodiesDescend(env, Enter(false, q), q);
      }
    } else if !(Trim(q.parsed) <= q.body) {
      TrimAtOnce(q);
      var sent := Run(Contrary(None), Enter(false, q)).loop.sent;
      assert !(sent[1] <= sent[0]);
    } else {
      var rejection := RevivingRejection(q);
      TrimAfterRejection(rejection, q);
      var sent := Run(Contrary(Some(rejection)), Enter(false, q)).loop.sent;
      assert !(sent[2] <= sent[1]);
    }
  }

  lemma RevivingRejection(q: Request) returns (rejection: Rejection)
    requires Resendable(q) && Trim(q.parsed) <= q.body
    ensures Rewrite(q.body, rejection).Some? && Trim(Sync(q.parsed, rejection)) != Sync(q.parsed, rejection)
    ensures !(Trim(Sync(q.parsed, rejection)) <= Rewrite(q.body, rejection).value)
  {
    if f :| f in Trim(q.parsed) && f.StatusOf? {
      rejection := RejectedStatus(f.item, {});
      assert f in Trim(Sync(q.parsed, rejection));
    } else {
      rejection := RejectedLimit;
      var kept := Sync(q.parsed, rejection);
      TrimDropsMarkers(q.parsed);
      var m :| m in q.parsed && Marker(m);
      assert m in kept && m !in Trim(kept);
      assert MaxTokens in Trim(kept);
    }
  }

  // ---- the bound is reached --------------------------------------------------------------------

  /** An upstream that uses every recovery of both passes; the first pass loses the injected cache key,
      the second, which no longer injects one, the injected retention. */
  function Complaint(m: nat, second: bool): Reply {
    if m == 0 then REFUSAL.(status := 401, agentTaskInvalid := true, agentRecovers := true)
    else if m == 1 then REFUSAL.(status := 400, keyUnsupported := !second, retentionUnsupported := second)
    else if m == 2 then REFUSAL.(status := 400, encryptedInvalid := true)
    else if m == 3 then REFUSAL.(status := 429, resetCredit := true)
    else if m < 10 then REFUSAL.(status := 400, rejection := Some(RejectedNamespace(m - 4)))
    else REFUSAL
  }

  function Complaints(n: nat): Reply {
    if n < 10 then Complaint(n, false)
    else if n == 10 then REFUSAL.(status := 400, optimizationUnsupported := true)
    else if n < 21 then Complaint(n - 11, true)
    else if n == 21 then REFUSAL.(status := 401, refreshable := true, refreshes := true)
    else REFUSAL
  }

  const COMMON: Body := (set i: nat | i < 6 :: NamespaceOf(i)) + {CacheRetention, EncryptedOf(0)}
  // the optimized request has lost its retention
  const OPTIMIZED: Body := COMMON - {CacheRetention} + {CacheKey}
  const FIRST := Request(OPTIMIZED, OPTIMIZED, true, false)
  const SECOND := Request(COMMON, COMMON, false, true)

  function Worst(): Environment {
    Environment((n: nat) => Complaints(n), SECOND)
  }

  /** The state of the worst request after m complaints of a pass. */
  ghost predicate Pressed(s: Loop, m: nat) {
    && m <= 10
    && s.tried.agent == (m > 0) && s.tried.boost == (m > 1) && s.tried.encrypted == (m > 2) && s.tried.credit == (m > 3)
    && s.tried.attempts == (if m > 4 then m - 4 else 0)
    && (m <= 4 ==> s.tried.seen == {})
    && (m <= 1 ==> if s.optimized then s.request.keyInjected && CacheKey in s.request.body
                   else s.request.retentionInjected && CacheRetention in s.request.body)
    && (m <= 2 ==> EncryptedOf(0) in s.request.parsed)
    && (forall i: nat :: NamespaceOf(i) in s.request.body <==> s.tried.attempts <= i < 6)
    && (forall i: nat :: NamespaceOf(i) in s.request.parsed <==> s.tried.attempts <= i < 6)
    && (forall i: nat :: CompactionOf(i) !in s.request.parsed)
    && (forall b, i: nat | b in s.tried.seen && s.tried.attempts <= i < 6 :: NamespaceOf(i) in b)
  }

  lemma PressOn(s: Loop, m: nat)
    requires m < 10 && Pressed(s, m) && Complaints(|s.sent|) == Complaint(m, !s.optimized)
    ensures var t := Next(Worst(), s);
            t.Again? && Pressed(t.loop, m + 1) && |t.loop.sent| == |s.sent| + 1
            && t.loop.optimized == s.optimized && t.loop.refreshTried == s.refreshTried
  {
  }

  lemma {:induction false} PressThrough(s: Loop, m: nat)
    requires Pressed(s, m) && |s.sent| == (if s.optimized then m else m + 11) && !s.refreshTried
    ensures |Run(Worst(), s).loop.sent| == 23
    decreases s.optimized, 10 - m
  {
    hide Next;
    RetryShrinks(Worst(), s);
    if m < 10 {
      PressOn(s, m);
      PressThrough(Next(Worst(), s).loop, m + 1);
    } else if s.optimized {
      SecondPass(s);
      PressThrough(Next(Worst(), s).loop, 0);
    } else {
      FinalTurns(s);
    }
  }

  lemma SecondPass(s: Loop)
    requires s.optimized && |s.sent| == 10 && !s.refreshTried && Pressed(s, 10)
    ensures var t := Next(Worst(), s);
            t.Again? && Pressed(t.loop, 0) && |t.loop.sent| == 11 && !t.loop.optimized && !t.loop.refreshTried
  {
  }

  lemma FinalTurns(s: Loop)
    requires !s.optimized && |s.sent| == 21 && !s.refreshTried
    ensures |Run(Worst(), s).loop.sent| == 23
  {
  }

  /** Some upstream whose answers the classifiers can meet really is asked 23 times. */
  lemma BoundIsReached()
    ensures PlausibleUpstream(Worst()) && |Run(Worst(), Enter(true, FIRST)).loop.sent| == 23
  {
    hide Run, Next, Complaints;
    WorstIsPlausible();
    assert Pressed(Enter(true, FIRST), 0);
    PressThrough(Enter(true, FIRST), 0);
  }

  lemma WorstIsPlausible()
    ensures PlausibleUpstream(Worst())
  {
  }
}
