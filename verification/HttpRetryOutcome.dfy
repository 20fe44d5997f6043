/** Which recovery follows an answer of the upstream, and with which outcome a request ends. */
module HttpRetryOutcome {
  import opened StreamEvents
  import opened HttpRetry
  import opened HttpRetryProofs

  // ---- which recovery is taken ---------------------------------------------------------------------------

  /** The request still has an injected field that the upstream does not know. */
  predicate BoostRejected(r: Reply, q: Request) {
    || (q.keyInjected && r.keyUnsupported && CacheKey in q.body)
    || (q.retentionInjected && r.retentionUnsupported && CacheRetention in q.body)
  }

  /** The rejected field is in the body. */
  predicate Names(rejection: Rejection, b: Body) {
    match rejection
    case RejectedLimit => MaxOutputTokens in b
    case RejectedNamespace(i) => NamespaceOf(i) in b
    case RejectedStatus(i, _) => StatusOf(i) in b
  }

  /** A rejected field can still be removed, or the attempt to remove it fails. */
  ghost predicate FieldRejected(r: Reply, s: Loop) {
    && r.status == 400 && r.rejection.Some?
    && (|| r.rewriteFails
        || (Names(r.rejection.value, s.request.body) && s.tried.attempts < MAX_FIELD_RETRIES
            && Rewrite(s.request.body, r.rejection.value).value !in s.tried.seen))
  }

  /** The recovery is not used up and the answer calls for it. */
  ghost predicate Applies(r: Reply, s: Loop, why: Recovery) {
    match why
    case AgentIdentity => r.agentTaskInvalid && !s.tried.agent
    case TokenRefresh => r.status == 401 && r.refreshable && !s.refreshTried && r.refreshes
    case Reentry => r.optimizationUnsupported && s.optimized
    case CacheBoost => !s.tried.boost && BoostRejected(r, s.request)
    case EncryptedContent => r.status == 400 && r.encryptedInvalid && !s.tried.encrypted && HasMarker(s.request.parsed)
    case RejectedField => FieldRejected(r, s)
    case ResetCredit => r.status == 429 && r.resetCredit && !s.tried.credit
  }

  function Rank(why: Recovery): nat {
    match why
    case AgentIdentity => 0
    case TokenRefresh => 1
    case Reentry => 2
    case CacheBoost => 3
    case EncryptedContent => 4
    case RejectedField => 5
    case ResetCredit => 6
  }

  /** It is the first one that applies. */
  ghost predicate First(r: Reply, s: Loop, why: Recovery) {
    Applies(r, s, why) && forall other | Rank(other) < Rank(why) :: !Applies(r, s, other)
  }

  ghost predicate NoneApplies(r: Reply, s: Loop) {
    forall why: Recovery :: !Applies(r, s, why)
  }

  /** A recovery that was called for and did not work out. */
  predicate Fails(r: Reply, why: Recovery) {
    match why
    case AgentIdentity => !r.agentRecovers
    case EncryptedContent => !r.marshals
    case RejectedField => r.rewriteFails
    case _ => false
  }

  /** An error answer that nobody has seen anything of. */
  predicate Recoverable(r: Reply) {
    !r.buildFails && !r.transportFails && !r.committed && !(200 <= r.status < 300)
  }

  function Taken(turn: Turn): Recovery
    requires turn.Again? && turn.loop.log != []
  {
    turn.loop.log[|turn.loop.log| - 1]
  }

  lemma TrimNeedsMarker(b: Body)
    ensures Trim(b) != b <==> HasMarker(b)
  {
    TrimDropsMarkers(b);
    if f :| f in b && Marker(f) {
      assert f !in Trim(b);
    }
  }

  lemma StripNeedsField(r: Reply, q: Request)
    ensures Strip(q.body, q.keyInjected && r.keyUnsupported, q.retentionInjected && r.retentionUnsupported) != q.body
            <==> BoostRejected(r, q)
  {
    var key, retention := q.keyInjected && r.keyUnsupported, q.retentionInjected && r.retentionUnsupported;
    var stripped := Strip(q.body, key, retention);
    assert CacheKey in stripped <==> CacheKey in q.body && !key;
    assert CacheRetention in stripped <==> CacheRetention in q.body && !retention;
    if !BoostRejected(r, q) {
      assert forall f :: f in stripped <==> f in q.body;
    }
  }

  lemma RewriteNeedsField(b: Body, rejection: Rejection)
    ensures Rewrite(b, rejection).Some? <==> Names(rejection, b)
    ensures Rewrite(b, rejection).Some? ==> Rewrite(b, rejection).value != b
  {
    match rejection
    case RejectedLimit =>
      assert Names(rejection, b) ==> MaxOutputTokens !in Rewrite(b, rejection).value;
    case RejectedNamespace(i) =>
      assert Names(rejection, b) ==> NamespaceOf(i) !in Rewrite(b, rejection).value;
    case RejectedStatus(i, _) =>
      assert Names(rejection, b) ==> StatusOf(i) !in Rewrite(b, rejection).value;
  }

  /** How a turn goes on from the recovery `why`. */
  ghost predicate Follows(turn: Turn, r: Reply, s: Loop, why: Recovery) {
    if Fails(r, why) then
      turn.Stop? && turn.outcome == (match why
                                     case AgentIdentity => AgentRecoveryFailed
                                     case EncryptedContent => SerializeFailed
                                     case _ => RewriteFailed)
    else turn.Again? && turn.loop.log == s.log + [why]
  }

  ghost predicate GivesUp(turn: Turn, r: Reply) {
    turn.Stop? && turn.outcome == if r.failsOver then FailedOver else ErrorAnswered
  }

  /** The last two recoveries. */
  lemma FieldDecides(r: Reply, s: Loop)
    ensures var turn := DropField(r, s);
            if FieldRejected(r, s) then Follows(turn, r, s, RejectedField)
            else if Applies(r, s, ResetCredit) then Follows(turn, r, s, ResetCredit)
            else GivesUp(turn, r)
  {
    hide Rewrite, Sync;
    if r.rejection.Some? {
      RewriteNeedsField(s.request.body, r.rejection.value);
    }
  }

  lemma BoostDecides(r: Reply, s: Loop)
    ensures var turn := DropBoost(r, s);
            if Applies(r, s, CacheBoost) then Follows(turn, r, s, CacheBoost)
            else if Applies(r, s, EncryptedContent) then Follows(turn, r, s, EncryptedContent)
            else turn == DropField(r, s)
  {
    hide Strip, Trim, DropField, HasMarker;
    StripNeedsField(r, s.request);
    TrimNeedsMarker(s.request.parsed);
  }

  lemma FirstIsTaken(env: Environment, s: Loop, why: Recovery)
    requires Recoverable(env.reply(|s.sent|)) && First(env.reply(|s.sent|), Send(s), why)
    ensures Follows(Next(env, s), env.reply(|s.sent|), s, why)
  {
    hide DropBoost, DropField, HasMarker, BoostRejected, FieldRejected;
    var r, t := env.reply(|s.sent|), Send(s);
    ChainDecides(r, t);
    ChainDecides(r, t.(refreshTried := true));
    RefreshIsApart(r, t);
    assert Rank(why) > 0 ==> !Applies(r, t, AgentIdentity);
    assert Rank(why) > 1 ==> !Applies(r, t, TokenRefresh);
    assert Rank(why) > 2 ==> !Applies(r, t, Reentry);
  }

  lemma NoneGivesUp(env: Environment, s: Loop)
    requires Recoverable(env.reply(|s.sent|)) && NoneApplies(env.reply(|s.sent|), Send(s))
    ensures GivesUp(Next(env, s), env.reply(|s.sent|))
  {
    hide DropBoost, DropField, HasMarker, BoostRejected, FieldRejected;
    var r, t := env.reply(|s.sent|), Send(s);
    ChainDecides(r, t);
    ChainDecides(r, t.(refreshTried := true));
    RefreshIsApart(r, t);
    assert !Applies(r, t, AgentIdentity) && !Applies(r, t, TokenRefresh) && !Applies(r, t, Reentry);
  }

  /** After an error answer before any commit: the first recovery that applies is taken, and with none the
      request fails over or is answered with an error. */
  lemma TurnDecides(env: Environment, s: Loop)
    requires Recoverable(env.reply(|s.sent|))
    ensures var r, turn := env.reply(|s.sent|), Next(env, s);
            && (forall why | First(r, Send(s), why) :: Follows(turn, r, s, why))
            && (NoneApplies(r, Send(s)) ==> GivesUp(turn, r))
  {
    hide Next, First, NoneApplies, Follows, GivesUp;
    forall why | First(env.reply(|s.sent|), Send(s), why) ensures Follows(Next(env, s), env.reply(|s.sent|), s, why) {
      FirstIsTaken(env, s, why);
    }
    if NoneApplies(env.reply(|s.sent|), Send(s)) {
      NoneGivesUp(env, s);
    }
  }

  lemma ChainDecides(r: Reply, s: Loop)
    ensures var turn := DropBoost(r, s);
            && (forall why | Rank(why) >= 3 && Applies(r, s, why)
                             && (forall other | 3 <= Rank(other) < Rank(why) :: !Applies(r, s, other)) ::
                  Follows(turn, r, s, why))
            && ((forall why | Rank(why) >= 3 :: !Applies(r, s, why)) ==> GivesUp(turn, r))
  {
    hide DropBoost, DropField, HasMarker, BoostRejected, FieldRejected, Follows, GivesUp;
    FieldDecides(r, s);
    BoostDecides(r, s);
    assert Rank(CacheBoost) == 3 && Rank(EncryptedContent) == 4 && Rank(RejectedField) == 5 && Rank(ResetCredit) == 6;
    assert Applies(r, s, RejectedField) == FieldRejected(r, s);
  }

  /** A failed refresh changes nothing for the recoveries after it. */
  lemma RefreshIsApart(r: Reply, s: Loop)
    ensures forall why | why != TokenRefresh :: Applies(r, s.(refreshTried := true), why) == Applies(r, s, why)
  {
    hide HasMarker, BoostRejected;
  }

  // ---- what a recovery changes ---------------------------------------------------------------------------

  /** The fields a recovery takes out of the bytes to send. */
  predicate Drops(r: Reply, q: Request, why: Recovery, f: Field) {
    match why
    case CacheBoost =>
      || (f == CacheKey && q.keyInjected && r.keyUnsupported)
      || (f == CacheRetention && q.retentionInjected && r.retentionUnsupported)
    case EncryptedContent => f.EncryptedOf? || Compacted(q.parsed, f)
    case RejectedField =>
      r.rejection.Some?
      && (match r.rejection.value
          case RejectedLimit => f == MaxOutputTokens || f == MaxTokens
          case RejectedNamespace(i) => f == NamespaceOf(i)
          case RejectedStatus(i, alike) => f.StatusOf? && (f.item == i || f.item in alike))
    case _ => false
  }

  /** The parsed form keeps a rejected status and the second name of a limit. */
  predicate DropsParsed(r: Reply, q: Request, why: Recovery, f: Field) {
    Drops(r, q, why, f) && (why.RejectedField? ==> !f.StatusOf? && f != MaxTokens)
  }

  /** The next request of this pass has exactly the fields that the recovery did not drop; the bytes are
      rebuilt from the parsed form when encrypted content goes. */
  ghost predicate Changed(r: Reply, q: Request, why: Recovery, next: Request) {
    && (forall f :: f in next.body
                    <==> f in (if why.EncryptedContent? then q.parsed else q.body) && !Drops(r, q, why, f))
    && (forall f :: f in next.parsed <==> f in q.parsed && !DropsParsed(r, q, why, f))
    && (next.keyInjected <==> q.keyInjected && !(why.CacheBoost? && r.keyUnsupported))
    && (next.retentionInjected <==> q.retentionInjected && !(why.CacheBoost? && r.retentionUnsupported))
  }

  ghost predicate Effect(env: Environment, r: Reply, s: Loop, turn: Turn) {
    turn.Again? && turn.loop.log != [] ==>
      var why := Taken(turn);
      if why.Reentry? then turn.loop.request == env.plain && turn.loop.tried == FRESH
      else Changed(r, s.request, why, turn.loop.request)
           && (why.RejectedField? ==> Remembered(s, turn.loop))
  }

  /** A field retry counts, and both its bodies are remembered, the old one if it is the first. */
  ghost predicate Remembered(s: Loop, t: Loop) {
    && t.tried.attempts == s.tried.attempts + 1
    && forall b :: b in t.tried.seen
                   <==> b in s.tried.seen || b == t.request.body || (s.tried.seen == {} && b == s.request.body)
  }

  /** The token is refreshed at most once, also when that fails. */
  lemma RefreshIsSpent(env: Environment, s: Loop)
    ensures var r := env.reply(|s.sent|);
            Next(env, s).loop.refreshTried
            <==> s.refreshTried || (Recoverable(r) && !Applies(r, s, AgentIdentity) && r.status == 401 && r.refreshable)
  {
    hide DropBoost;
    var r := env.reply(|s.sent|);
    BoostKeepsRefresh(r, Send(s));
    BoostKeepsRefresh(r, Send(s).(refreshTried := true));
  }

  lemma BoostKeepsRefresh(r: Reply, s: Loop)
    ensures DropBoost(r, s).loop.refreshTried == s.refreshTried
  {
    hide Strip, Trim, Rewrite, Sync;
  }

  lemma FieldEffect(env: Environment, r: Reply, s: Loop)
    ensures Effect(env, r, s, DropField(r, s))
  {
  }

  lemma BoostEffect(env: Environment, r: Reply, s: Loop)
    ensures Effect(env, r, s, DropBoost(r, s))
  {
    hide DropField;
    FieldEffect(env, r, s);
  }

  lemma TurnEffect(env: Environment, s: Loop)
    ensures Effect(env, env.reply(|s.sent|), s, Next(env, s))
  {
    hide DropBoost;
    var r := env.reply(|s.sent|);
    BoostEffect(env, r, Send(s));
    BoostEffect(env, r, Send(s).(refreshTried := true));
  }

  // ---- how a request ends ----------------------------------------------------------------------------------

  /** The state in which a request sends for the last time. */
  ghost function Last(env: Environment, s: Loop): Loop
    decreases if s.optimized then 1 else 0, Unspent(s)
  {
    RetryShrinks(env, s);
    match Next(env, s)
    case Stop(_, _) => s
    case Again(t) => Last(env, t)
  }

  lemma {:induction false} LastIsLast(env: Environment, s: Loop)
    ensures Run(env, s) == Next(env, Last(env, s)) && Run(env, s).Stop?
    ensures s.sent <= Last(env, s).sent
    decreases if s.optimized then 1 else 0, Unspent(s)
  {
    hide Next;
    RetryShrinks(env, s);
    TurnExplained(env, s);
    if Next(env, s).Again? {
      LastIsLast(env, Next(env, s).loop);
    }
  }

  /** The outcome after the reply r to the last send of s. */
  ghost predicate EndsAs(r: Reply, s: Loop, outcome: Outcome) {
    && (outcome.BuildFailed? <==> r.buildFails)
    && (outcome.Responded? <==> !r.buildFails && !r.transportFails && 200 <= r.status < 300)
    && (outcome.TransportFailed? <==> !r.buildFails && r.transportFails && !r.committed)
    && (outcome.FailedAfterCommit?
        <==> !r.buildFails && r.committed && (r.transportFails || !(200 <= r.status < 300)))
    && (outcome.AgentRecoveryFailed? <==> Recoverable(r) && First(r, s, AgentIdentity) && Fails(r, AgentIdentity))
    && (outcome.SerializeFailed? <==> Recoverable(r) && First(r, s, EncryptedContent) && Fails(r, EncryptedContent))
    && (outcome.RewriteFailed? <==> Recoverable(r) && First(r, s, RejectedField) && Fails(r, RejectedField))
    && (outcome.FailedOver? <==> Recoverable(r) && NoneApplies(r, s) && r.failsOver)
    && (outcome.ErrorAnswered? <==> Recoverable(r) && NoneApplies(r, s) && !r.failsOver)
  }

  /** Some recovery is the first to apply, or none applies. */
  lemma FirstExists(r: Reply, s: Loop)
    ensures NoneApplies(r, s) || exists why :: First(r, s, why)
  {
    hide Applies;
    if Applies(r, s, AgentIdentity) {
      assert First(r, s, AgentIdentity);
    } else if Applies(r, s, TokenRefresh) {
      assert First(r, s, TokenRefresh);
    } else if Applies(r, s, Reentry) {
      assert First(r, s, Reentry);
    } else if Applies(r, s, CacheBoost) {
      assert First(r, s, CacheBoost);
    } else if Applies(r, s, EncryptedContent) {
      assert First(r, s, EncryptedContent);
    } else if Applies(r, s, RejectedField) {
      assert First(r, s, RejectedField);
    } else if Applies(r, s, ResetCredit) {
      assert First(r, s, ResetCredit);
    } else {
      forall why ensures !Applies(r, s, why) {
        match why
        case AgentIdentity =>
        case TokenRefresh =>
        case Reentry =>
        case CacheBoost =>
        case EncryptedContent =>
        case RejectedField =>
        case ResetCredit =>
      }
    }
  }

  /** Two recoveries cannot both be first. */
  lemma FirstIsUnique(r: Reply, s: Loop, a: Recovery, b: Recovery)
    requires First(r, s, a) && First(r, s, b)
    ensures a == b
  {
    hide Applies;
  }

  lemma SendKeepsChoice(r: Reply, s: Loop)
    ensures forall why :: Applies(r, Send(s), why) == Applies(r, s, why)
  {
    hide HasMarker, BoostRejected;
  }

  lemma StopExactly(env: Environment, s: Loop)
    requires Next(env, s).Stop?
    ensures EndsAs(env.reply(|s.sent|), s, Next(env, s).outcome)
  {
    hide Applies, NoneApplies, First;
    var r := env.reply(|s.sent|);
    if Recoverable(r) {
      RecoverableStop(env, s);
    } else {
      PlainStop(env, s);
    }
  }

  lemma PlainStop(env: Environment, s: Loop)
    requires !Recoverable(env.reply(|s.sent|))
    ensures Next(env, s).Stop? && EndsAs(env.reply(|s.sent|), s, Next(env, s).outcome)
  {
    hide RefreshToken, First, NoneApplies;
  }

  lemma RecoverableStop(env: Environment, s: Loop)
    requires Recoverable(env.reply(|s.sent|)) && Next(env, s).Stop?
    ensures EndsAs(env.reply(|s.sent|), s, Next(env, s).outcome)
  {
    hide Applies, Next;
    var r := env.reply(|s.sent|);
    SendKeepsChoice(r, s);
    TurnDecides(env, s);
    FirstExists(r, s);
    if !NoneApplies(r, s) {
      var why :| First(r, s, why);
      assert First(r, Send(s), why);
      forall other | First(r, s, other) ensures other == why {
        FirstIsUnique(r, s, why, other);
      }
    }
  }

  /** The outcome of every request, by the answer to its last send and the recoveries that were left. */
  lemma OutcomeExactly(env: Environment, s: Loop)
    ensures Run(env, s).Stop?
    ensures var last := Last(env, s); EndsAs(env.reply(|last.sent|), last, Run(env, s).outcome)
    ensures var last, e := Last(env, s), Run(env, s);
            e.loop.sent == if e.outcome.BuildFailed? then last.sent else last.sent + [last.request.body]
  {
    hide EndsAs, Next;
    LastIsLast(env, s);
    StopExactly(env, Last(env, s));
    StopSends(env, Last(env, s));
  }
}
