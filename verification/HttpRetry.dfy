/** The HTTP retry loop of Forward: one upstream send per turn, followed by at most one recovery
    that changes the request and tries again, and one re-entry with the default request policy. */
module HttpRetry {
  import opened StreamEvents

  // ---- the request ---------------------------------------------------------------------------

  /** The parts of a request body the recoveries can remove; items are identified by position. */
  datatype Field =
    | CacheKey | CacheRetention | MaxOutputTokens | MaxTokens
    | NamespaceOf(item: nat) | StatusOf(item: nat) | EncryptedOf(item: nat) | CompactionOf(item: nat)
    | Rest(name: string)

  type Body = set<Field>

  /** The bytes to send and the parsed form kept beside them for later changes. */
  datatype Request = Request(body: Body, parsed: Body, keyInjected: bool, retentionInjected: bool)

  /** A field the upstream named as unknown; a rejected status covers all items of its type. */
  datatype Rejection = RejectedLimit | RejectedNamespace(at: nat) | RejectedStatus(at: nat, alike: set<nat>)

  predicate Compacted(b: Body, f: Field) {
    match f
    case NamespaceOf(i) => CompactionOf(i) in b
    case StatusOf(i) => CompactionOf(i) in b
    case CompactionOf(i) => true
    case _ => false
  }

  /** Encrypted reasoning content and whole compaction items removed. */
  function Trim(b: Body): Body {
    set f | f in b && !f.EncryptedOf? && !Compacted(b, f)
  }

  /** The body without the rejected field, None when there is nothing to remove. */
  function Rewrite(b: Body, rejection: Rejection): Option<Body> {
    match rejection
    case RejectedLimit => if MaxOutputTokens in b then Some(b - {MaxOutputTokens, MaxTokens}) else None
    case RejectedNamespace(i) => if NamespaceOf(i) in b then Some(b - {NamespaceOf(i)}) else None
    case RejectedStatus(i, alike) =>
      if StatusOf(i) in b then Some(set f | f in b && !(f.StatusOf? && (f.item == i || f.item in alike))) else None
  }

  /** What the same rejection removes from the parsed form: a status stays there. */
  function Sync(parsed: Body, rejection: Rejection): Body {
    match rejection
    case RejectedLimit => parsed - {MaxOutputTokens}
    case RejectedNamespace(i) => parsed - {NamespaceOf(i)}
    case RejectedStatus(_, _) => parsed
  }

  function Strip(b: Body, key: bool, retention: bool): Body {
    b - (if key then {CacheKey} else {}) - (if retention then {CacheRetention} else {})
  }

  // ---- the environment -----------------------------------------------------------------------

  /** How the n-th send goes, and what the classifiers and services say about its answer. */
  datatype Reply = Reply(
    buildFails: bool,
    transportFails: bool,
    committed: bool,            // the placeholder state says upstream output reached the client
    status: nat,
    agentTaskInvalid: bool, agentRecovers: bool,
    refreshable: bool, refreshes: bool,
    optimizationUnsupported: bool,
    keyUnsupported: bool, retentionUnsupported: bool,
    encryptedInvalid: bool, marshals: bool,
    rejection: Option<Rejection>, rewriteFails: bool,
    resetCredit: bool,
    failsOver: bool)

  datatype Environment = Environment(reply: nat -> Reply, plain: Request)

  /** The classifiers look at the status first. */
  predicate Plausible(r: Reply) {
    && (r.agentTaskInvalid ==> r.status == 401)
    && (r.keyUnsupported || r.retentionUnsupported || r.optimizationUnsupported ==> 400 <= r.status < 500)
  }

  ghost predicate PlausibleUpstream(env: Environment) {
    forall n: nat {:trigger env.reply(n)} :: Plausible(env.reply(n))
  }

  datatype Outcome =
    | Responded | BuildFailed | TransportFailed | FailedAfterCommit | AgentRecoveryFailed
    | SerializeFailed | RewriteFailed | FailedOver | ErrorAnswered

  // ---- the loop ------------------------------------------------------------------------------

  datatype Recovery =
    AgentIdentity | TokenRefresh | Reentry | CacheBoost | EncryptedContent | RejectedField | ResetCredit

  const MAX_FIELD_RETRIES := 6

  /** The variables of one pass through Forward. */
  datatype Tried = Tried(agent: bool, boost: bool, encrypted: bool, credit: bool, attempts: nat, seen: set<Body>)

  const FRESH := Tried(false, false, false, false, 0, {})

  datatype Loop = Loop(
    optimized: bool,            // the cache creation optimization is applied to this request
    refreshTried: bool,         // kept in the request's context, so it survives the re-entry
    tried: Tried,
    request: Request,
    sent: seq<Body>,
    log: seq<Recovery>)

  datatype Turn = Again(loop: Loop) | Stop(outcome: Outcome, loop: Loop)

  function Retry(s: Loop, why: Recovery): Loop {
    s.(log := s.log + [why])
  }

  /** The bookkeeping of field retries: a limit, and no body twice. */
  function Allow(t: Tried, current: Body, next: Body): (bool, Tried) {
    if t.attempts >= MAX_FIELD_RETRIES then (false, t)
    else
      var seen := if t.seen == {} then {current} else t.seen;
      if next in seen then (false, t.(seen := seen))
      else (true, t.(seen := seen + {next}, attempts := t.attempts + 1))
  }

  function LastResort(r: Reply, s: Loop): Turn {
    if !s.tried.credit && r.status == 429 && r.resetCredit
    then Again(Retry(s.(tried := s.tried.(credit := true)), ResetCredit))
    else Stop(if r.failsOver then FailedOver else ErrorAnswered, s)
  }

  function DropField(r: Reply, s: Loop): Turn {
    if r.status != 400 || r.rejection.None? then LastResort(r, s)
    else if r.rewriteFails then Stop(RewriteFailed, s)
    else
      var next := Rewrite(s.request.body, r.rejection.value);
      if next.None? then LastResort(r, s)
      else
        var (allowed, tried) := Allow(s.tried, s.request.body, next.value);
        if allowed
        then Again(Retry(s.(tried := tried,
                            request := s.request.(body := next.value,
                                                  parsed := Sync(s.request.parsed, r.rejection.value))),
                         RejectedField))
        else LastResort(r, s.(tried := tried))
  }

  function DropEncrypted(r: Reply, s: Loop): Turn {
    var trimmed := Trim(s.request.parsed);
    if s.tried.encrypted || r.status != 400 || !r.encryptedInvalid || trimmed == s.request.parsed then DropField(r, s)
    else if !r.marshals then Stop(SerializeFailed, s.(request := s.request.(parsed := trimmed)))
    else Again(Retry(s.(tried := s.tried.(encrypted := true),
                        request := s.request.(body := trimmed, parsed := trimmed)),
                     EncryptedContent))
  }

  function DropBoost(r: Reply, s: Loop): Turn {
    var q := s.request;
    var key, retention := q.keyInjected && r.keyUnsupported, q.retentionInjected && r.retentionUnsupported;
    var stripped := Strip(q.body, key, retention);
    if s.tried.boost || stripped == q.body
    then DropEncrypted(r, s)
    else Again(Retry(s.(tried := s.tried.(boost := true),
                        request := Request(stripped, Strip(q.parsed, key, retention),
                                           q.keyInjected && !key, q.retentionInjected && !retention)),
                     CacheBoost))
  }

  function Reenter(env: Environment, r: Reply, s: Loop): Turn {
    if s.optimized && r.optimizationUnsupported
    then Again(Retry(Loop(false, s.refreshTried, FRESH, env.plain, s.sent, s.log), Reentry))
    else DropBoost(r, s)
  }

  function RefreshToken(env: Environment, r: Reply, s: Loop): Turn {
    if r.status != 401 || !r.refreshable || s.refreshTried then Reenter(env, r, s)
    else if r.refreshes then Again(Retry(s.(refreshTried := true), TokenRefresh))
    else Reenter(env, r, s.(refreshTried := true))
  }

  /** What follows one answer. */
  function Handle(env: Environment, r: Reply, s: Loop): Turn {
    if r.transportFails then Stop(if r.committed then FailedAfterCommit else TransportFailed, s)
    else if 200 <= r.status < 300 then Stop(Responded, s)
    else if !r.committed && !s.tried.agent && r.agentTaskInvalid then
      var t := s.(tried := s.tried.(agent := true));
      if r.agentRecovers then Again(Retry(t, AgentIdentity)) else Stop(AgentRecoveryFailed, t)
    else if r.committed then Stop(FailedAfterCommit, s)
    else RefreshToken(env, r, s)
  }

  function Send(s: Loop): Loop {
    s.(sent := s.sent + [s.request.body])
  }

  /** One turn: build, send, and decide. */
  function Next(env: Environment, s: Loop): Turn {
    var r := env.reply(|s.sent|);
    if r.buildFails then Stop(BuildFailed, s) else Handle(env, r, Send(s))
  }

  // ---- the measure ---------------------------------------------------------------------------

  function Bit(spent: bool): nat {
    if spent then 0 else 1
  }

  /** The recoveries this pass can still make. */
  function Unspent(s: Loop): nat {
    Bit(s.tried.agent) + Bit(s.tried.boost) + Bit(s.tried.encrypted) + Bit(s.tried.credit)
    + Bit(s.refreshTried)
    + (if s.tried.attempts <= MAX_FIELD_RETRIES then MAX_FIELD_RETRIES - s.tried.attempts else 0)
  }

  predicate Shrinks(s: Loop, r: Loop) {
    (s.optimized && !r.optimized) || (s.optimized == r.optimized && Unspent(r) < Unspent(s))
  }

  /** What a recovery changes, kind by kind. */
  ghost predicate Recovered(env: Environment, s: Loop, t: Loop, why: Recovery) {
    && t.sent == s.sent && t.log == s.log + [why]
    && (s.refreshTried ==> t.refreshTried)
    && match why
       case Reentry => s.optimized && !t.optimized && t.tried == FRESH && t.request == env.plain
       case AgentIdentity =>
         && t.optimized == s.optimized && t.request == s.request && !s.tried.agent
         && t.tried == s.tried.(agent := true)
       case TokenRefresh =>
         && t.optimized == s.optimized && t.request == s.request && t.tried == s.tried
         && !s.refreshTried && t.refreshTried
       case CacheBoost =>
         && t.optimized == s.optimized && !s.tried.boost && t.tried == s.tried.(boost := true)
         && exists key: bool, retention: bool ::
              && t.request.body == Strip(s.request.body, key, retention)
              && t.request.parsed == Strip(s.request.parsed, key, retention)
       case EncryptedContent =>
         && t.optimized == s.optimized && !s.tried.encrypted && t.tried == s.tried.(encrypted := true)
         && t.request.body == t.request.parsed == Trim(s.request.parsed) != s.request.parsed
       case RejectedField =>
         && t.optimized == s.optimized && s.tried.attempts < MAX_FIELD_RETRIES
         && exists rejection: Rejection ::
              && Rewrite(s.request.body, rejection) == Some(t.request.body)
              && t.request.parsed == Sync(s.request.parsed, rejection)
              && Allow(s.tried, s.request.body, t.request.body) == (true, t.tried)
       case ResetCredit =>
         && t.optimized == s.optimized && t.request == s.request && !s.tried.credit
         && t.tried.(seen := {}) == s.tried.(credit := true, seen := {})
         && (t.tried.seen == s.tried.seen || (s.tried.seen == {} && t.tried.seen == {s.request.body}))
  }

  ghost predicate Explained(env: Environment, s: Loop, turn: Turn) {
    turn.Again? ==> turn.loop.log != [] && Recovered(env, s, turn.loop, turn.loop.log[|turn.loop.log| - 1])
  }

  lemma FieldExplained(env: Environment, r: Reply, s: Loop)
    ensures Explained(env, s, DropField(r, s))
  {
    hide Rewrite, Sync, Strip, Trim;
  }

  lemma BoostExplained(env: Environment, r: Reply, s: Loop)
    ensures Explained(env, s, DropBoost(r, s))
  {
    hide Rewrite, Sync, Strip, Trim, DropField;
    FieldExplained(env, r, s);
  }

  /** Every retry is one of the seven recoveries, and none of them is taken after a commit. */
  lemma TurnExplained(env: Environment, s: Loop)
    ensures Explained(env, Send(s), Next(env, s))
    ensures Next(env, s).Again? ==> !env.reply(|s.sent|).committed
  {
    hide Rewrite, Sync, Strip, Trim, DropBoost;
    var r := env.reply(|s.sent|);
    BoostExplained(env, r, Send(s));
    BoostExplained(env, r, Send(s).(refreshTried := true));
  }

  /** Every retry uses up something. */
  lemma RetryShrinks(env: Environment, s: Loop)
    ensures Next(env, s).Again? ==> Shrinks(s, Next(env, s).loop)
  {
    hide Next, Rewrite, Sync, Strip, Trim;
    TurnExplained(env, s);
  }

  /** The whole request: turns until one of them stops. */
  function Run(env: Environment, s: Loop): Turn
    decreases if s.optimized then 1 else 0, Unspent(s)
  {
    hide Next;
    RetryShrinks(env, s);
    match Next(env, s)
    case Stop(outcome, e) => Stop(outcome, e)
    case Again(t) => Run(env, t)
  }
}
