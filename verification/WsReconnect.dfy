/** The WebSocket reconnect loop of Forward and its backoff. Durations are nanoseconds in a signed
    64-bit integer, so every product and sum that can wrap is written out. */
module WsReconnect {
  import opened Durations

  // ---- backoff ---------------------------------------------------------------------------------

  /** Configured milliseconds; values that are not positive leave the defaults in force. */
  datatype Settings = Settings(initialMs: int, maxMs: int, jitterRatio: real)

  const INITIAL_DEFAULT := 120 * MILLISECOND
  const MAX_DEFAULT := 2000 * MILLISECOND
  const JITTER_DEFAULT := 0.2

  function Initial(cfg: Settings): int {
    if cfg.initialMs > 0 then Wrap(cfg.initialMs * MILLISECOND) else INITIAL_DEFAULT
  }

  function Ceiling(cfg: Settings): int {
    var max := if cfg.maxMs > 0 then Wrap(cfg.maxMs * MILLISECOND) else MAX_DEFAULT;
    if max < Initial(cfg) then Initial(cfg) else max
  }

  function Ratio(cfg: Settings): real {
    var r := if cfg.jitterRatio >= 0.0 then cfg.jitterRatio else JITTER_DEFAULT;
    if r > 1.0 then 1.0 else r
  }

  function Pow2(n: nat): nat {
    if n == 0 then 1 else 2 * Pow2(n - 1)
  }

  /** The doubled delay as computed, before jitter. */
  function Base(cfg: Settings, attempt: int): int
    requires attempt > 0
  {
    var doubled := Wrap(Initial(cfg) * Pow2(attempt - 1));
    if doubled > Ceiling(cfg) then Ceiling(cfg) else doubled
  }

  /** The doubled delay over unbounded integers. */
  function IdealBase(cfg: Settings, attempt: int): int
    requires attempt > 0
  {
    var doubled := Initial(cfg) * Pow2(attempt - 1);
    if doubled > Ceiling(cfg) then Ceiling(cfg) else doubled
  }

  function Jitter(cfg: Settings, base: int): int {
    (base as real * Ratio(cfg)).Floor
  }

  /** Drawing from an empty range panics. */
  datatype Delay = Panic | Wait(ns: int)

  /** draw is the random number, reduced to the range the source asks for. */
  function Backoff(cfg: Settings, attempt: int, draw: nat): Delay {
    if attempt <= 0 || Initial(cfg) <= 0 then Wait(0)
    else
      var base := Base(cfg, attempt);
      var jitter := Jitter(cfg, base);
      var range := Wrap(2 * jitter + 1);
      if jitter <= 0 then Wait(base)
      else if range <= 0 then Panic
      else
        var d := Wrap(base + draw % range - jitter);
        Wait(if d < 0 then 0 else d)
  }

  /** There is no delay before the first attempt, nor when the initial delay wraps to nothing. */
  lemma NoDelay(cfg: Settings, attempt: int, draw: nat)
    requires attempt <= 0 || Initial(cfg) <= 0
    ensures Backoff(cfg, attempt, draw) == Wait(0)
  {
  }

  lemma Pow2Positive(n: nat)
    ensures Pow2(n) >= 1
  {
  }

  /** The computed delay is the unbounded one exactly when the doubling fits in 64 bits or wraps
      to something that is capped anyway. */
  lemma BaseIdealExactly(cfg: Settings, attempt: int)
    requires attempt > 0 && Initial(cfg) > 0
    ensures Base(cfg, attempt) == IdealBase(cfg, attempt)
            <==> Initial(cfg) * Pow2(attempt - 1) < TWO63 || Wrap(Initial(cfg) * Pow2(attempt - 1)) >= Ceiling(cfg)
  {
    Pow2Positive(attempt - 1);
    var doubled := Initial(cfg) * Pow2(attempt - 1);
    assert doubled > 0;
    CeilingFits(cfg);
  }

  lemma CeilingFits(cfg: Settings)
    ensures Fits(Initial(cfg)) && Fits(Ceiling(cfg)) && Initial(cfg) <= Ceiling(cfg)
  {
  }

  lemma JitterWithin(cfg: Settings, base: int)
    requires base >= 0
    ensures 0 <= Jitter(cfg, base) <= base
  {
    var product := base as real * Ratio(cfg);
    assert 0.0 <= Ratio(cfg) <= 1.0;
    ShareWithin(base as real, Ratio(cfg));
    assert product.Floor as real <= product < (product.Floor + 1) as real;
    assert product.Floor <= base && product.Floor >= 0;
  }

  lemma ShareWithin(x: real, ratio: real)
    requires x >= 0.0 && 0.0 <= ratio <= 1.0
    ensures 0.0 <= x * ratio <= x
  {
    assert x * ratio <= x * 1.0;
  }

  /** The longest delay is a 64-bit number; then so is the range of the jitter. */
  predicate JitterFits(cfg: Settings, base: int) {
    base + Jitter(cfg, base) < TWO63
  }

  predicate Around(d: Delay, base: int, jitter: int) {
    d.Wait? && base - jitter <= d.ns <= base + jitter
  }

  lemma JitteredDelay(cfg: Settings, attempt: int, draw: nat)
    requires attempt > 0 && Initial(cfg) > 0 && Initial(cfg) * Pow2(attempt - 1) < TWO63
    requires JitterFits(cfg, IdealBase(cfg, attempt))
    ensures Around(Backoff(cfg, attempt, draw), IdealBase(cfg, attempt), Jitter(cfg, IdealBase(cfg, attempt)))
    ensures 0 <= Backoff(cfg, attempt, draw).ns <= 2 * Ceiling(cfg)
  {
    hide Jitter, Ratio, Base, IdealBase, Ceiling, Wrap;
    BaseIdealExactly(cfg, attempt);
    IdealBaseWithin(cfg, attempt);
    var base := IdealBase(cfg, attempt);
    JitterWithin(cfg, base);
    var jitter := Jitter(cfg, base);
    if jitter > 0 {
      assert 0 <= draw % (2 * jitter + 1) <= 2 * jitter;
    }
  }

  lemma IdealBaseWithin(cfg: Settings, attempt: int)
    requires attempt > 0 && Initial(cfg) > 0
    ensures 0 < IdealBase(cfg, attempt) <= Ceiling(cfg) < TWO63
  {
    Pow2Positive(attempt - 1);
    CeilingFits(cfg);
  }

  /** As long as the doubling does not overflow, every draw yields a delay around the doubled one
      exactly when the jitter fits: otherwise the source panics, or the sum wraps and the delay is
      zero. */
  lemma BackoffAroundExactly(cfg: Settings, attempt: int)
    requires attempt > 0 && Initial(cfg) > 0 && Initial(cfg) * Pow2(attempt - 1) < TWO63
    ensures var base := IdealBase(cfg, attempt);
            (forall draw: nat :: Around(Backoff(cfg, attempt, draw), base, Jitter(cfg, base)))
            <==> JitterFits(cfg, base)
  {
    hide Jitter, Ratio, Base, IdealBase, Ceiling, Wrap;
    BaseIdealExactly(cfg, attempt);
    IdealBaseWithin(cfg, attempt);
    var base := IdealBase(cfg, attempt);
    JitterWithin(cfg, base);
    var jitter := Jitter(cfg, base);
    if JitterFits(cfg, base) {
      forall draw: nat ensures Around(Backoff(cfg, attempt, draw), base, jitter) {
        JitteredDelay(cfg, attempt, draw);
      }
    } else if 2 * jitter + 1 >= TWO63 {
      WrapsNegative(2 * jitter + 1);
      assert !Around(Backoff(cfg, attempt, 0), base, jitter);
    } else {
      SumWraps(cfg, attempt, base, jitter);
      assert !Around(Backoff(cfg, attempt, 2 * jitter), base, jitter);
    }
  }

  lemma SumWraps(cfg: Settings, attempt: int, base: int, jitter: int)
    requires attempt > 0 && Initial(cfg) > 0 && Base(cfg, attempt) == base && Jitter(cfg, base) == jitter
    requires 0 < jitter && 2 * jitter + 1 < TWO63 && TWO63 <= base + jitter < 2 * TWO63
    ensures Backoff(cfg, attempt, 2 * jitter) == Wait(0)
  {
    hide Jitter, Base, Initial, Wrap;
    SmallRemainders(jitter);
    WrapsNegative(base + jitter);
  }

  lemma WrapsNegative(x: int)
    requires TWO63 <= x < 2 * TWO63
    ensures Wrap(x) == x - 2 * TWO63 < 0
  {
  }

  /** Every delay lies between zero and twice the ceiling, unless the doubling or the jitter overflows. */
  lemma BackoffBounded(cfg: Settings, attempt: int, draw: nat)
    requires attempt > 0 && Initial(cfg) > 0 && Initial(cfg) * Pow2(attempt - 1) < TWO63
    requires JitterFits(cfg, IdealBase(cfg, attempt))
    ensures Backoff(cfg, attempt, draw).Wait? && 0 <= Backoff(cfg, attempt, draw).ns <= 2 * Ceiling(cfg)
  {
    JitteredDelay(cfg, attempt, draw);
  }

  /** Both bounds are reached with full jitter. */
  lemma BackoffBoundsReached(cfg: Settings, attempt: int)
    requires attempt > 0 && Initial(cfg) > 0 && cfg.jitterRatio >= 1.0 && 2 * Ceiling(cfg) + 1 < TWO63
    requires Ceiling(cfg) <= Initial(cfg) * Pow2(attempt - 1) < TWO63
    ensures Backoff(cfg, attempt, 0) == Wait(0)
    ensures Backoff(cfg, attempt, 2 * Ceiling(cfg)) == Wait(2 * Ceiling(cfg))
  {
    hide Base, Ceiling, Initial, Wrap, Jitter, Ratio;
    BaseAtCeiling(cfg, attempt);
    CeilingFits(cfg);
    FullJitter(cfg, Ceiling(cfg));
    SmallRemainders(Ceiling(cfg));
  }

  lemma FullJitter(cfg: Settings, base: int)
    requires cfg.jitterRatio >= 1.0
    ensures Jitter(cfg, base) == base
  {
    assert base as real * Ratio(cfg) == base as real;
  }

  lemma SmallRemainders(base: int)
    requires base >= 0
    ensures 0 % (2 * base + 1) == 0 && (2 * base) % (2 * base + 1) == 2 * base
  {
  }

  /** Half of the range with full jitter: no delay at all, whatever is drawn. */
  lemma LargeJitterPanics(draw: nat)
    ensures Backoff(Settings(4_611_686_018_428, 4_611_686_018_428, 1.0), 1, draw) == Panic
  {
    var cfg := Settings(4_611_686_018_428, 4_611_686_018_428, 1.0);
    assert Base(cfg, 1) == 4_611_686_018_428_000_000;
    assert Jitter(cfg, Base(cfg, 1)) == 4_611_686_018_428_000_000;
    WrapsNegative(9_223_372_036_856_000_001);
  }

  lemma BaseAtCeiling(cfg: Settings, attempt: int)
    requires attempt > 0 && Initial(cfg) > 0 && Ceiling(cfg) <= Initial(cfg) * Pow2(attempt - 1) < TWO63
    ensures Base(cfg, attempt) == Ceiling(cfg)
  {
  }

  const RETRY_LIMIT := 5
  const MAX_ATTEMPTS := RETRY_LIMIT + 1

  /** For every attempt the loop makes, settings up to eighteen years are safe. */
  lemma ReasonableSettingsNeverOverflow(cfg: Settings, attempt: int, draw: nat)
    requires 0 < attempt <= RETRY_LIMIT
    requires cfg.initialMs <= 576_460_752_303 && cfg.maxMs <= 576_460_752_303
    ensures 0 < Initial(cfg) && Initial(cfg) * Pow2(attempt - 1) < TWO63
    ensures Backoff(cfg, attempt, draw).Wait? && 0 <= Backoff(cfg, attempt, draw).ns <= 2 * Ceiling(cfg) <= TWO63 / 8
  {
    SmallPowers();
    assert 1 <= Pow2(attempt - 1) <= 16;
    var i := cfg.initialMs * MILLISECOND;
    assert cfg.initialMs > 0 ==> Fits(i);
    var initial := Initial(cfg);
    assert 0 < initial <= 576_460_752_303_000_000;
    assert initial * Pow2(attempt - 1) <= initial * 16;
    IdealBaseWithin(cfg, attempt);
    JitterWithin(cfg, IdealBase(cfg, attempt));
    BackoffBounded(cfg, attempt, draw);
  }

  function Default(ms: int, standard: int): int {
    if ms > 0 then ms else standard
  }

  function Smaller(a: int, b: int): int {
    if a < b then a else b
  }

  function Larger(a: int, b: int): int {
    if a < b then b else a
  }

  /** Such a delay in plain numbers: the initial one doubled with every attempt up to the ceiling, and then
      moved by at most the jitter's share of it either way. */
  lemma DelayExactly(cfg: Settings, attempt: int, draw: nat)
    requires 0 < attempt <= RETRY_LIMIT
    requires cfg.initialMs <= 576_460_752_303 && cfg.maxMs <= 576_460_752_303
    ensures var first, top := Default(cfg.initialMs, 120), Default(cfg.maxMs, 2000);
            var base := Smaller(first * Pow2(attempt - 1), Larger(top, first)) * MILLISECOND;
            var ratio := if cfg.jitterRatio < 0.0 then 0.2 else if cfg.jitterRatio > 1.0 then 1.0 else cfg.jitterRatio;
            var jitter := (base as real * ratio).Floor;
            0 <= jitter && Backoff(cfg, attempt, draw) == Wait(base - jitter + draw % (2 * jitter + 1))
  {
    hide Backoff, Base, Initial, Ceiling, Pow2, Default, Smaller, Larger;
    BaseInPlainNumbers(cfg, attempt);
    BaseIsSmall(cfg, attempt);
    JitterWithin(cfg, Base(cfg, attempt));
    DrawnDelay(cfg, attempt, draw);
  }

  lemma BaseIsSmall(cfg: Settings, attempt: int)
    requires 0 < attempt <= RETRY_LIMIT
    requires cfg.initialMs <= 576_460_752_303 && cfg.maxMs <= 576_460_752_303
    ensures Initial(cfg) > 0 && 0 <= Base(cfg, attempt) <= TWO63 / 16
  {
    hide Backoff, Ceiling, Initial, Wrap;
    ReasonableSettingsNeverOverflow(cfg, attempt, 0);
    BaseIdealExactly(cfg, attempt);
    IdealBaseWithin(cfg, attempt);
  }

  lemma BaseInPlainNumbers(cfg: Settings, attempt: int)
    requires 0 < attempt <= RETRY_LIMIT
    requires cfg.initialMs <= 576_460_752_303 && cfg.maxMs <= 576_460_752_303
    ensures var first, top := Default(cfg.initialMs, 120), Default(cfg.maxMs, 2000);
            Base(cfg, attempt) == Smaller(first * Pow2(attempt - 1), Larger(top, first)) * MILLISECOND
  {
    SmallPowers();
    var first, top := Default(cfg.initialMs, 120), Default(cfg.maxMs, 2000);
    assert Initial(cfg) == first * MILLISECOND && Ceiling(cfg) == Larger(top, first) * MILLISECOND;
    var power := Pow2(attempt - 1);
    assert 1 <= power <= 16;
    assert first * power <= first * 16;
    assert first * MILLISECOND * power == first * power * MILLISECOND;
  }

  lemma DrawnDelay(cfg: Settings, attempt: int, draw: nat)
    requires attempt > 0 && Initial(cfg) > 0 && 0 <= Jitter(cfg, Base(cfg, attempt)) <= Base(cfg, attempt) <= TWO63 / 16
    ensures var base := Base(cfg, attempt);
            var jitter := Jitter(cfg, base);
            Backoff(cfg, attempt, draw) == Wait(base - jitter + draw % (2 * jitter + 1))
  {
    hide Jitter, Base, Initial;
    var jitter := Jitter(cfg, Base(cfg, attempt));
    assert 0 <= draw % (2 * jitter + 1) <= 2 * jitter;
  }

  lemma SmallPowers()
    ensures Pow2(0) == 1 && Pow2(1) == 2 && Pow2(2) == 4 && Pow2(3) == 8 && Pow2(4) == 16
  {
  }

  /** One more millisecond wraps to a negative delay in the fifth attempt. */
  lemma LargeSettingsOverflow(draw: nat)
    ensures Backoff(Settings(576_460_752_304, 576_460_752_304, 0.2), 5, draw).Wait?
    ensures Backoff(Settings(576_460_752_304, 576_460_752_304, 0.2), 5, draw).ns < 0
  {
    SmallPowers();
    var cfg := Settings(576_460_752_304, 576_460_752_304, 0.2);
    assert Initial(cfg) == 576_460_752_304_000_000;
    var base := Base(cfg, 5);
    assert base == Wrap(9_223_372_036_864_000_000) < 0;
    assert base as real * Ratio(cfg) < 0.0;
  }

  // ---- the loop ----------------------------------------------------------------------------------

  datatype Reason = NoReason | PreviousNotFound | InvalidEncrypted | AgentRecovered | OtherReason(name: string)

  /** The request: an empty previous id stands for a missing or blank one. */
  datatype Request = Request(previousId: string, hasCallOutput: bool, encrypted: bool)

  /** How the n-th forward ends. */
  datatype Attempt = Attempt(
    ok: bool,
    committed: bool,
    reason: Reason,
    retryable: bool,
    placeholderPending: bool,    // placeholder coordination is pending and the error retryable
    busy: nat,                   // how long it took
    draw: nat,
    cancelled: bool)             // the context ends during the backoff

  datatype Environment = Environment(attempt: nat -> Attempt, cfg: Settings, budget: int)

  datatype Event =
    | Forwarded(request: Request, reason: Reason)     // with the reason of the last failure
    | DroppedPrevious
    | DroppedEncrypted
    | MarkedAgent
    | BackedOff(attempt: nat, elapsed: nat, delay: int)

  datatype State = State(
    attempt: nat, clock: nat, request: Request, previousTried: bool, encryptedTried: bool, agentTried: bool,
    lastReason: Reason, trace: seq<Event>)

  datatype Result = Succeeded | Failed | Cancelled | Panicked

  datatype Turn = Again(state: State) | Stop(result: Result, state: State)

  function Record(s: State, e: Event): State {
    s.(trace := s.trace + [e])
  }

  function WithoutEncrypted(q: Request): Request {
    Request(if q.hasCallOutput then q.previousId else "", q.hasCallOutput, false)
  }

  /** The time since the loop started, as far as a duration can tell. */
  function Elapsed(clock: nat): int {
    if clock < TWO63 then clock else TWO63 - 1
  }

  /** A plain reconnect after a delay, while attempts and budget last. */
  function Reconnect(env: Environment, a: Attempt, s: State): Turn {
    if a.placeholderPending || !a.retryable || s.attempt >= MAX_ATTEMPTS then Stop(Failed, s)
    else
      match Backoff(env.cfg, s.attempt, a.draw)
      case Panic => Stop(Panicked, s)
      case Wait(delay) =>
        if env.budget > 0 && Wrap(Elapsed(s.clock) + delay) > env.budget then Stop(Failed, s)
        else
          var t := Record(s, BackedOff(s.attempt, s.clock, delay));
          if delay <= 0 then Again(t)
          else if a.cancelled then Stop(Cancelled, t)
          else Again(t.(clock := s.clock + delay))
  }

  function Decide(env: Environment, a: Attempt, s: State): Turn {
    if a.ok then Stop(Succeeded, s)
    else if a.committed then Stop(Failed, s)
    else
      var t := s.(lastReason := if a.reason.NoReason? then s.lastReason else a.reason);
      if a.reason.PreviousNotFound? && !s.previousTried && s.request.previousId != "" && !s.request.hasCallOutput then
        Again(Record(t.(request := s.request.(previousId := ""), previousTried := true), DroppedPrevious))
      else if a.reason.InvalidEncrypted? && !s.encryptedTried && s.request.encrypted then
        Again(Record(t.(request := WithoutEncrypted(s.request), encryptedTried := true), DroppedEncrypted))
      else if a.reason.AgentRecovered? && !s.agentTried then
        Again(Record(t.(agentTried := true), MarkedAgent))
      else Reconnect(env, a, t)
  }

  function Next(env: Environment, s: State): Turn {
    var a := env.attempt(s.attempt);
    var sent := Record(s.(clock := s.clock + a.busy), Forwarded(s.request, s.lastReason));
    match Decide(env, a, sent)
    case Stop(result, e) => Stop(result, e)
    case Again(t) => Again(t.(attempt := t.attempt + 1))
  }

  function Run(env: Environment, s: State): Turn
    decreases MAX_ATTEMPTS + 1 - s.attempt
  {
    if s.attempt > MAX_ATTEMPTS then Stop(Failed, s)
    else
      match Next(env, s)
      case Stop(result, e) => Stop(result, e)
      case Again(t) => Run(env, t)
  }

  function Enter(request: Request): State {
    State(1, 0, request, false, false, false, NoReason, [])
  }

  // ---- what every run keeps ----------------------------------------------------------------------

  predicate Same(kind: Event, e: Event) {
    match kind
    case Forwarded(_, _) => e.Forwarded?
    case DroppedPrevious => e.DroppedPrevious?
    case DroppedEncrypted => e.DroppedEncrypted?
    case MarkedAgent => e.MarkedAgent?
    case BackedOff(_, _, _) => e.BackedOff?
  }

  function Count(trace: seq<Event>, kind: Event): nat {
    if trace == [] then 0
    else Count(trace[..|trace| - 1], kind) + if Same(kind, trace[|trace| - 1]) then 1 else 0
  }

  const ANY_FORWARD := Forwarded(Request("", false, false), NoReason)
  const ANY_BACKOFF := BackedOff(0, 0, 0)

  function Delays(trace: seq<Event>): int {
    if trace == [] then 0
    else
      var last := trace[|trace| - 1];
      Delays(trace[..|trace| - 1]) + if last.BackedOff? then last.delay else 0
  }

  /** Forwards and recoveries add up, and the request is the first one minus what was dropped. */
  predicate Accounts(first: Request, s: State) {
    && Count(s.trace, DroppedPrevious) == (if s.previousTried then 1 else 0)
    && Count(s.trace, DroppedEncrypted) == (if s.encryptedTried then 1 else 0)
    && Count(s.trace, MarkedAgent) == (if s.agentTried then 1 else 0)
    && s.request.hasCallOutput == first.hasCallOutput
    && s.request.encrypted == (first.encrypted && !s.encryptedTried)
    && s.request.previousId
       == (if first.hasCallOutput || (!s.previousTried && !s.encryptedTried) then first.previousId else "")
  }

  lemma {:induction false} Counted(trace: seq<Event>, extra: seq<Event>, kind: Event)
    requires |extra| <= 1
    ensures Count(trace + extra, kind) == Count(trace, kind) + (if extra != [] && Same(kind, extra[0]) then 1 else 0)
    ensures Delays(trace + extra) == Delays(trace) + (if extra != [] && extra[0].BackedOff? then extra[0].delay else 0)
  {
    if extra == [] {
      assert trace + extra == trace;
    } else {
      assert (trace + extra)[..|trace + extra| - 1] == trace;
    }
  }

  /** A moment and a delay that a duration can add up. */
  predicate Measurable(elapsed: nat, delay: int) {
    elapsed < TWO63 && Fits(elapsed + delay)
  }

  function Waited(extra: seq<Event>): nat {
    if extra != [] && extra[0].BackedOff? && extra[0].delay > 0 then extra[0].delay else 0
  }

  /** What one turn does, by the event it adds after its forward. */
  ghost predicate Turned(env: Environment, s: State, t: State, extra: seq<Event>) {
    && |extra| <= 1 && t.trace == s.trace + [Forwarded(s.request, s.lastReason)] + extra
    && s.clock <= t.clock <= s.clock + env.attempt(s.attempt).busy + Waited(extra)
    && (extra == [] || extra[0].BackedOff? ==>
          t.request == s.request && t.previousTried == s.previousTried
          && t.encryptedTried == s.encryptedTried && t.agentTried == s.agentTried)
    && (extra != [] ==>
          match extra[0]
          case Forwarded(_, _) => false
          case DroppedPrevious =>
            && !s.previousTried && !s.request.hasCallOutput && s.request.previousId != ""
            && t.request == s.request.(previousId := "")
            && t.previousTried && t.encryptedTried == s.encryptedTried && t.agentTried == s.agentTried
          case DroppedEncrypted =>
            && !s.encryptedTried && s.request.encrypted && t.request == WithoutEncrypted(s.request)
            && t.encryptedTried && t.previousTried == s.previousTried && t.agentTried == s.agentTried
          case MarkedAgent =>
            && !s.agentTried && t.agentTried && t.request == s.request
            && t.previousTried == s.previousTried && t.encryptedTried == s.encryptedTried
          case BackedOff(n, elapsed, delay) =>
            && n == s.attempt < MAX_ATTEMPTS && elapsed == s.clock + env.attempt(n).busy
            && Wait(delay) == Backoff(env.cfg, n, env.attempt(n).draw)
            && (env.budget > 0 && Measurable(elapsed, delay) ==> elapsed + delay <= env.budget))
  }

  lemma TurnShape(env: Environment, s: State) returns (extra: seq<Event>)
    ensures Turned(env, s, Next(env, s).state, extra)
    ensures Next(env, s).Again? ==> Next(env, s).state.attempt == s.attempt + 1 && extra != []
    ensures Next(env, s).Again? && extra[0].BackedOff? ==> extra[0].elapsed + extra[0].delay <= Next(env, s).state.clock
  {
    hide Backoff, Reconnect, Turned;
    var a := env.attempt(s.attempt);
    var sent := Record(s.(clock := s.clock + a.busy), Forwarded(s.request, s.lastReason));
    extra := DecisionShape(env, a, sent);
    TurnedAfterSending(env, s, Decide(env, a, sent).state, extra);
    KeepsShape(env, s, Decide(env, a, sent).state, extra, s.attempt + 1);
  }

  lemma KeepsShape(env: Environment, s: State, t: State, extra: seq<Event>, next: nat)
    requires Turned(env, s, t, extra)
    ensures Turned(env, s, t.(attempt := next), extra)
  {
  }

  ghost predicate Decided(env: Environment, s: State, t: State, extra: seq<Event>) {
    && |extra| <= 1 && t.trace == s.trace + extra && t.attempt == s.attempt
    && s.clock <= t.clock <= s.clock + Waited(extra)
    && (if extra == [] || extra[0].BackedOff? then
          && t == s.(clock := t.clock, trace := t.trace, lastReason := t.lastReason)
          && (extra != [] ==>
                && extra[0].attempt == s.attempt < MAX_ATTEMPTS && s.clock == extra[0].elapsed
                && Wait(extra[0].delay) == Backoff(env.cfg, s.attempt, env.attempt(s.attempt).draw)
                && (env.budget > 0 && Measurable(s.clock, extra[0].delay) ==> s.clock + extra[0].delay <= env.budget))
        else if extra[0].DroppedPrevious? then
          && !s.previousTried && !s.request.hasCallOutput && s.request.previousId != ""
          && t == s.(request := s.request.(previousId := ""), previousTried := true, trace := t.trace,
                     lastReason := t.lastReason)
        else if extra[0].DroppedEncrypted? then
          && !s.encryptedTried && s.request.encrypted
          && t == s.(request := WithoutEncrypted(s.request), encryptedTried := true, trace := t.trace,
                     lastReason := t.lastReason)
        else
          && extra[0].MarkedAgent? && !s.agentTried
          && t == s.(agentTried := true, trace := t.trace, lastReason := t.lastReason))
  }

  lemma TurnedAfterSending(env: Environment, s: State, t: State, extra: seq<Event>)
    requires var sent := Record(s.(clock := s.clock + env.attempt(s.attempt).busy), Forwarded(s.request, s.lastReason));
             Decided(env, sent, t, extra)
    ensures Turned(env, s, t, extra)
  {
  }

  lemma DecisionShape(env: Environment, a: Attempt, s: State) returns (extra: seq<Event>)
    requires a == env.attempt(s.attempt)
    ensures Decided(env, s, Decide(env, a, s).state, extra)
    ensures Decide(env, a, s).Again? ==> extra != []
    ensures Decide(env, a, s).Again? && extra[0].BackedOff? ==>
              extra[0].elapsed + extra[0].delay <= Decide(env, a, s).state.clock
  {
    hide Backoff, Reconnect, Measurable, WithoutEncrypted;
    var t := s.(lastReason := if a.reason.NoReason? then s.lastReason else a.reason);
    if a.ok || a.committed {
      extra := [];
    } else if a.reason.PreviousNotFound? && !s.previousTried && s.request.previousId != "" && !s.request.hasCallOutput {
      extra := [DroppedPrevious];
    } else if a.reason.InvalidEncrypted? && !s.encryptedTried && s.request.encrypted {
      extra := [DroppedEncrypted];
    } else if a.reason.AgentRecovered? && !s.agentTried {
      extra := [MarkedAgent];
    } else {
      extra := ReconnectDecided(env, a, s, t);
    }
  }

  lemma ReconnectDecided(env: Environment, a: Attempt, s: State, t: State) returns (extra: seq<Event>)
    requires a == env.attempt(s.attempt) && t == s.(lastReason := t.lastReason)
    ensures Decided(env, s, Reconnect(env, a, t).state, extra)
    ensures Reconnect(env, a, t).Again? ==> extra != []
    ensures Reconnect(env, a, t).Again? && extra[0].BackedOff? ==>
              extra[0].elapsed + extra[0].delay <= Reconnect(env, a, t).state.clock
  {
    hide Backoff, Reconnect, Measurable, WithoutEncrypted;
    ReconnectShape(env, a, t);
    var delay := Backoff(env.cfg, s.attempt, a.draw);
    extra := if delay.Panic? || Reconnect(env, a, t) == Stop(Failed, t) then []
             else [BackedOff(s.attempt, s.clock, delay.ns)];
  }

  lemma ReconnectShape(env: Environment, a: Attempt, s: State)
    ensures var r := Reconnect(env, a, s);
            var delay := Backoff(env.cfg, s.attempt, a.draw);
            || r == Stop(Failed, s)
            || (r == Stop(Panicked, s) && delay.Panic?)
            || (delay.Wait? && s.attempt < MAX_ATTEMPTS
                && (env.budget > 0 && Measurable(s.clock, delay.ns) ==> s.clock + delay.ns <= env.budget)
                && (r == Again(Record(s.(clock := if delay.ns > 0 then s.clock + delay.ns else s.clock),
                                      BackedOff(s.attempt, s.clock, delay.ns)))
                    || r == Stop(Cancelled, Record(s, BackedOff(s.attempt, s.clock, delay.ns)))))
  {
    hide Backoff;
  }

  lemma TurnCounts(env: Environment, first: Request, s: State)
    requires Accounts(first, s)
    ensures Accounts(first, Next(env, s).state)
    ensures Count(Next(env, s).state.trace, ANY_FORWARD) == Count(s.trace, ANY_FORWARD) + 1
  {
    hide Backoff, Next, Count;
    var extra := TurnShape(env, s);
    CountedTwice(s.trace, Forwarded(s.request, s.lastReason), extra, DroppedPrevious);
    CountedTwice(s.trace, Forwarded(s.request, s.lastReason), extra, DroppedEncrypted);
    CountedTwice(s.trace, Forwarded(s.request, s.lastReason), extra, MarkedAgent);
    CountedTwice(s.trace, Forwarded(s.request, s.lastReason), extra, ANY_FORWARD);
  }

  lemma CountedTwice(trace: seq<Event>, e: Event, extra: seq<Event>, kind: Event)
    requires |extra| <= 1
    ensures Count(trace + [e] + extra, kind)
            == Count(trace, kind) + (if Same(kind, e) then 1 else 0)
                + (if extra != [] && Same(kind, extra[0]) then 1 else 0)
  {
    Counted(trace, [e], kind);
    Counted(trace + [e], extra, kind);
  }

  /** At most six forwards, each recovery at most once; the previous response id survives next to a
      function-call output, and otherwise goes exactly with one of the two recoveries that drop it. */
  lemma {:induction false} RunCounts(env: Environment, first: Request, s: State)
    requires Accounts(first, s) && Count(s.trace, ANY_FORWARD) < s.attempt <= MAX_ATTEMPTS + 1
    ensures var e := Run(env, s).state;
            && Count(e.trace, ANY_FORWARD) <= MAX_ATTEMPTS
            && Accounts(first, e)
    decreases MAX_ATTEMPTS + 1 - s.attempt
  {
    hide Next, Accounts;
    if s.attempt <= MAX_ATTEMPTS {
      TurnCounts(env, first, s);
      var _ := TurnShape(env, s);
      if Next(env, s).Again? {
        RunCounts(env, first, Next(env, s).state);
      }
    }
  }

  lemma AtMostSixForwards(env: Environment, request: Request)
    ensures var e := Run(env, Enter(request)).state;
            && Count(e.trace, ANY_FORWARD) <= 6
            && Count(e.trace, DroppedPrevious) <= 1 && Count(e.trace, DroppedEncrypted) <= 1
            && Count(e.trace, MarkedAgent) <= 1
            && (request.hasCallOutput ==> e.request.previousId == request.previousId)
  {
    RunCounts(env, request, Enter(request));
  }

  /** Settings of at most eighteen years and forwards of at most nine. */
  ghost predicate Sensible(env: Environment) {
    && env.cfg.initialMs <= 576_460_752_303 && env.cfg.maxMs <= 576_460_752_303
    && forall n {:trigger env.attempt(n)} :: env.attempt(n).busy <= TWO63 / 32
  }

  /** A connection that keeps failing in a retryable way, without a budget, is tried six times. */
  lemma {:induction false} SixForwardsReached(env: Environment, s: State)
    requires env.budget <= 0 && 0 < s.attempt <= MAX_ATTEMPTS && Sensible(env)
    requires forall n {:trigger env.attempt(n)} ::
               env.attempt(n) == Attempt(false, false, NoReason, true, false, 0, 0, false)
    ensures Count(Run(env, s).state.trace, ANY_FORWARD) == Count(s.trace, ANY_FORWARD) + MAX_ATTEMPTS + 1 - s.attempt
    decreases MAX_ATTEMPTS - s.attempt
  {
    hide Backoff, Count;
    var extra := TurnShape(env, s);
    CountedTwice(s.trace, Forwarded(s.request, s.lastReason), extra, ANY_FORWARD);
    if s.attempt < MAX_ATTEMPTS {
      ReasonableSettingsNeverOverflow(env.cfg, s.attempt, 0);
      assert Next(env, s).Again?;
      SixForwardsReached(env, Next(env, s).state);
    }
  }

  /** Nothing is forwarded after a committed or successful forward. */
  lemma {:induction false} NoForwardAfterCommit(env: Environment, s: State, k: nat)
    requires s.attempt <= k <= MAX_ATTEMPTS && (env.attempt(k).committed || env.attempt(k).ok)
    ensures Run(env, s).state.attempt <= k
    ensures Run(env, s).Stop? && (Run(env, s).state.attempt == k ==>
              Run(env, s).result == if env.attempt(k).ok then Succeeded else Failed)
    decreases MAX_ATTEMPTS + 1 - s.attempt
  {
    hide Backoff;
    if s.attempt < k && Next(env, s).Again? {
      NoForwardAfterCommit(env, Next(env, s).state, k);
    }
  }

  // ---- backoff within a run ------------------------------------------------------------------------

  /** A scheduled delay is the one of its attempt and fits what is left of the budget. */
  ghost predicate Scheduled(env: Environment, e: Event) {
    e.BackedOff? ==>
      && 0 < e.attempt <= RETRY_LIMIT
      && (env.budget > 0 && Measurable(e.elapsed, e.delay) ==> e.elapsed + e.delay <= env.budget)
      && exists draw: nat :: Backoff(env.cfg, e.attempt, draw) == Wait(e.delay)
  }

  ghost predicate AllScheduled(env: Environment, trace: seq<Event>) {
    forall i | 0 <= i < |trace| :: Scheduled(env, trace[i])
  }

  lemma {:induction false} EveryDelayFits(env: Environment, s: State)
    requires s.attempt > 0 && AllScheduled(env, s.trace)
    ensures AllScheduled(env, Run(env, s).state.trace)
    decreases MAX_ATTEMPTS + 1 - s.attempt
  {
    hide Backoff, Next;
    if s.attempt <= MAX_ATTEMPTS {
      var extra := TurnShape(env, s);
      assert extra != [] ==> Scheduled(env, extra[0]);
      assert AllScheduled(env, s.trace + [Forwarded(s.request, s.lastReason)] + extra);
      if Next(env, s).Again? {
        EveryDelayFits(env, Next(env, s).state);
      }
    }
  }

  const LONGEST_TURN := TWO63 / 32 + TWO63 / 8

  lemma TurnIsMeasurable(env: Environment, s: State, t: State, extra: seq<Event>)
    requires Sensible(env) && 0 < s.attempt <= MAX_ATTEMPTS && Turned(env, s, t, extra)
    requires s.clock <= (s.attempt - 1) * LONGEST_TURN
    ensures t.clock <= s.attempt * LONGEST_TURN
    ensures extra != [] && extra[0].BackedOff? ==> Measurable(extra[0].elapsed, extra[0].delay)
  {
    hide Backoff, Ceiling, Initial;
    if extra != [] && extra[0].BackedOff? {
      ReasonableSettingsNeverOverflow(env.cfg, s.attempt, env.attempt(s.attempt).draw);
    }
    assert s.clock <= 5 * LONGEST_TURN;
  }

  /** All delays of a run together stay within the budget. */
  lemma {:induction false} DelaysWithinBudget(env: Environment, s: State)
    requires env.budget > 0 && s.attempt > 0 && Sensible(env)
    requires s.clock <= (s.attempt - 1) * LONGEST_TURN
    requires Delays(s.trace) <= env.budget && Delays(s.trace) <= s.clock
    ensures Delays(Run(env, s).state.trace) <= env.budget
    decreases MAX_ATTEMPTS + 1 - s.attempt
  {
    hide Backoff, Next, Delays, Sensible;
    if s.attempt <= MAX_ATTEMPTS {
      var extra := TurnShape(env, s);
      Counted(s.trace, [Forwarded(s.request, s.lastReason)], ANY_BACKOFF);
      Counted(s.trace + [Forwarded(s.request, s.lastReason)], extra, ANY_BACKOFF);
      TurnIsMeasurable(env, s, Next(env, s).state, extra);
      if Next(env, s).Again? {
        DelaysWithinBudget(env, Next(env, s).state);
      }
    }
  }
}
