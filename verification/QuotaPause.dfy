/** Quota auto-pause: usage snapshots from response headers, the map they are stored in, and the
    clock that ends a pause. Times are nanoseconds, stored timestamps whole seconds. */
module QuotaPause {
  import opened StreamEvents
  import opened Durations

  // ---- snapshots -----------------------------------------------------------------------------------

  /** One of the two limits of a snapshot. */
  datatype Limit = Limit(used: Option<real>, resetAfter: Option<int>, minutes: Option<int>)

  datatype Snapshot = Snapshot(primary: Limit, secondary: Limit, updatedAt: Stamp)

  datatype Normalized = Normalized(five: Limit, seven: Limit)

  /** Whether the primary limit is the 5h window. */
  predicate PrimaryIsFive(s: Snapshot) {
    if s.primary.minutes.Some? && s.secondary.minutes.Some? then s.primary.minutes.value < s.secondary.minutes.value
    else if s.primary.minutes.Some? then s.primary.minutes.value <= 360
    else if s.secondary.minutes.Some? then s.secondary.minutes.value > 360
    else false
  }

  function Normalize(s: Snapshot): Normalized {
    if PrimaryIsFive(s) then Normalized(s.primary, s.secondary) else Normalized(s.secondary, s.primary)
  }

  /** Which header carries which window does not matter once both windows are known, and the shorter
      one is always taken for 5h. */
  lemma NormalizeIgnoresOrder(s: Snapshot)
    requires s.primary.minutes.Some? && s.secondary.minutes.Some? && s.primary.minutes != s.secondary.minutes
    ensures Normalize(s.(primary := s.secondary, secondary := s.primary)) == Normalize(s)
    ensures Normalize(s).five.minutes.value < Normalize(s).seven.minutes.value
  {
  }

  /** Which limit is taken for the 5h window: the shorter one if both windows are known, the one with a known
      window of at most six hours, or else the other one; without any known window the secondary limit. */
  lemma WindowsExactly(s: Snapshot)
    ensures var one, two := s.primary.minutes, s.secondary.minutes;
            && (one.Some? && two.Some? ==> (PrimaryIsFive(s) <==> one.value < two.value))
            && (one.Some? && two.None? ==> (PrimaryIsFive(s) <==> one.value <= 6 * 60))
            && (one.None? && two.Some? ==> (PrimaryIsFive(s) <==> two.value > 6 * 60))
            && (one.None? && two.None? ==> !PrimaryIsFive(s))
    ensures PrimaryIsFive(s) ==> Normalize(s) == Normalized(s.primary, s.secondary)
    ensures !PrimaryIsFive(s) ==> Normalize(s) == Normalized(s.secondary, s.primary)
  {
  }

  // ---- time ------------------------------------------------------------------------------------------

  /** A stored timestamp: a second since 1970, or text that does not parse. */
  datatype Stamp = At(second: int) | Garbled

  const FIRST_SECOND := -62_167_219_200   // year 0
  const LAST_SECOND := 253_402_300_799    // end of year 9999

  function Format(t: int): Stamp {
    At(t / SECOND)
  }

  /** RFC 3339 has four digits for the year; anything outside does not parse. */
  function Parse(s: Stamp): Option<int> {
    if s.At? && FIRST_SECOND <= s.second <= LAST_SECOND then Some(s.second * SECOND) else None
  }

  /** A stored moment is read back to the second, and anything outside the years 0 to 9999 is not. */
  lemma StampRoundTrip(t: int)
    ensures FIRST_SECOND <= t / SECOND <= LAST_SECOND ==> Parse(Format(t)) == Some(t - t % SECOND)
    ensures !(FIRST_SECOND <= t / SECOND <= LAST_SECOND) ==> Parse(Format(t)) == None
  {
  }

  /** A duration of whole seconds in a signed 64-bit number of nanoseconds. */
  function Seconds(n: int): int {
    Wrap(n * SECOND)
  }

  /** Overflow can only shorten a positive duration. */
  lemma SecondsShorten(n: int)
    requires n >= 0
    ensures Seconds(n) <= n * SECOND
    ensures n * SECOND < TWO63 ==> Seconds(n) == n * SECOND
  {
  }

  // ---- the stored map --------------------------------------------------------------------------------

  datatype Window = FiveHours | SevenDays

  datatype Entry = Entry(used: Option<real>, resetAfter: Option<int>, resetAt: Option<Stamp>)

  datatype Extra = Extra(five: Entry, seven: Entry, updatedAt: Option<Stamp>)

  function EntryOf(e: Extra, w: Window): Entry {
    if w.FiveHours? then e.five else e.seven
  }

  function LimitOf(n: Normalized, w: Window): Limit {
    if w.FiveHours? then n.five else n.seven
  }

  function BaseTime(s: Snapshot, fallback: int): int {
    match Parse(s.updatedAt)
    case Some(t) => t
    case None => fallback
  }

  function ResetAt(base: int, resetAfter: Option<int>): Option<Stamp> {
    match resetAfter
    case None => None
    case Some(sec) => Some(Format(base + Seconds(if sec < 0 then 0 else sec)))
  }

  function UpdateEntry(base: int, l: Limit): Entry {
    Entry(l.used, l.resetAfter, ResetAt(base, l.resetAfter))
  }

  /** The updates a snapshot makes. */
  function Updates(s: Snapshot, fallback: int): Extra {
    var base, n := BaseTime(s, fallback), Normalize(s);
    Extra(UpdateEntry(base, n.five), UpdateEntry(base, n.seven), Some(Format(base)))
  }

  function Newer<T>(stored: Option<T>, update: Option<T>): Option<T> {
    if update.Some? then update else stored
  }

  function MergeEntry(a: Entry, b: Entry): Entry {
    Entry(Newer(a.used, b.used), Newer(a.resetAfter, b.resetAfter), Newer(a.resetAt, b.resetAt))
  }

  /** Updates are merged into what was stored before, key by key. */
  function Merge(a: Extra, b: Extra): Extra {
    Extra(MergeEntry(a.five, b.five), MergeEntry(a.seven, b.seven), Newer(a.updatedAt, b.updatedAt))
  }

  /** What a snapshot does not say stays as it was stored, and what it says replaces it. */
  lemma MergeExactly(stored: Extra, s: Snapshot, fallback: int, w: Window)
    ensures var was, now := EntryOf(stored, w), EntryOf(Merge(stored, Updates(s, fallback)), w);
            var limit := LimitOf(Normalize(s), w);
            && now.used == (if limit.used.Some? then limit.used else was.used)
            && now.resetAfter == (if limit.resetAfter.Some? then limit.resetAfter else was.resetAfter)
            && (limit.resetAfter.None? ==> now.resetAt == was.resetAt)
            && (limit.resetAfter.Some? ==>
                  var sec := if limit.resetAfter.value < 0 then 0 else limit.resetAfter.value;
                  now.resetAt == Some(At((BaseTime(s, fallback) + Seconds(sec)) / SECOND)))
    ensures Merge(stored, Updates(s, fallback)).updatedAt == Some(Format(BaseTime(s, fallback)))
  {
  }

  // ---- the decision ----------------------------------------------------------------------------------

  /** openAIQuotaWindowReset */
  predicate WindowReset(e: Extra, w: Window, now: int) {
    var entry := EntryOf(e, w);
    if entry.resetAt.Some? && Parse(entry.resetAt.value).Some? then now >= Parse(entry.resetAt.value).value
    else if entry.resetAfter.None? || entry.resetAfter.value <= 0 then false
    else
      var base := if e.updatedAt.Some? && Parse(e.updatedAt.value).Some? then Parse(e.updatedAt.value).value else now;
      now >= base + Seconds(entry.resetAfter.value)
  }

  /** One window pauses the account. */
  predicate Pauses(e: Extra, w: Window, threshold: real, now: int) {
    var used := EntryOf(e, w).used;
    used.Some? && used.value > 0.0 && !WindowReset(e, w, now) && used.value / 100.0 >= threshold
  }

  function Clamp(x: real): real {
    if x < 0.0 then 0.0 else if x > 1.0 then 1.0 else x
  }

  /** Settings of one window: the account's own threshold, the global default, and the opt-out. */
  datatype Setting = Setting(own: real, standard: real, disabled: bool)

  function Threshold(s: Setting): real {
    if Clamp(s.own) > 0.0 then Clamp(s.own) else Clamp(s.standard)
  }

  predicate ShouldPause(five: Setting, seven: Setting, e: Extra, now: int) {
    || (!five.disabled && Threshold(five) > 0.0 && Pauses(e, FiveHours, Threshold(five), now))
    || (!seven.disabled && Threshold(seven) > 0.0 && Pauses(e, SevenDays, Threshold(seven), now))
  }

  /** The usage has reached the limit in force: the account's own if it has one, else the standard one, and
      never more than everything. */
  predicate LimitReached(s: Setting, used: Option<real>) {
    && !s.disabled && used.Some? && used.value > 0.0
    && (if s.own > 0.0 then used.value >= 100.0 * s.own || used.value >= 100.0
        else s.standard > 0.0 && (used.value >= 100.0 * s.standard || used.value >= 100.0))
  }

  /** An account pauses exactly when one of its windows has reached its limit and has not been reset. */
  lemma PausesExactly(five: Setting, seven: Setting, e: Extra, now: int)
    ensures ShouldPause(five, seven, e, now)
            <==> || (LimitReached(five, e.five.used) && !WindowReset(e, FiveHours, now))
                 || (LimitReached(seven, e.seven.used) && !WindowReset(e, SevenDays, now))
  {
    hide WindowReset;
    LimitMeans(five, e.five.used);
    LimitMeans(seven, e.seven.used);
  }

  lemma LimitMeans(s: Setting, used: Option<real>)
    ensures LimitReached(s, used)
            <==> && !s.disabled && Threshold(s) > 0.0 && used.Some? && used.value > 0.0
                 && used.value / 100.0 >= Threshold(s)
  {
    if used.Some? {
      assert used.value / 100.0 >= Threshold(s) <==> used.value >= 100.0 * Threshold(s);
    }
  }

  // ---- pauses end ------------------------------------------------------------------------------------

  predicate Representable(t: int) {
    FIRST_SECOND <= t / SECOND <= LAST_SECOND
  }

  function Longest(sec: int): int {
    if sec < 0 then 0 else sec * SECOND
  }

  lemma FloorBelow(t: int)
    ensures t / SECOND * SECOND <= t < (t / SECOND + 1) * SECOND
  {
  }

  /** A snapshot that says when a window resets ends that window's pause by then, whatever was stored
      before, and for good. */
  lemma PauseEnds(stored: Extra, s: Snapshot, fallback: int, w: Window, now: int)
    requires LimitOf(Normalize(s), w).resetAfter.Some?
    requires var base := BaseTime(s, fallback);
             Representable(base) && now >= base + Longest(LimitOf(Normalize(s), w).resetAfter.value)
    ensures WindowReset(Merge(stored, Updates(s, fallback)), w, now)
    ensures forall threshold :: !Pauses(Merge(stored, Updates(s, fallback)), w, threshold, now)
  {
    hide Normalize, Seconds;
    var base, sec := BaseTime(s, fallback), LimitOf(Normalize(s), w).resetAfter.value;
    SecondsShorten(if sec < 0 then 0 else sec);
    FloorBelow(base);
    FloorBelow(base + Seconds(if sec < 0 then 0 else sec));
    if sec <= 0 {
      assert Seconds(0) == 0 by { SecondsShorten(0); }
    }
  }

  /** Without overflow the pause ends exactly at that moment, rounded down to the second. */
  lemma PauseEndsExactly(stored: Extra, s: Snapshot, fallback: int, w: Window, now: int)
    requires LimitOf(Normalize(s), w).resetAfter.Some?
    requires var base, sec := BaseTime(s, fallback), LimitOf(Normalize(s), w).resetAfter.value;
             Representable(base) && Longest(sec) < TWO63 && Representable(base + Longest(sec))
    ensures var base, sec := BaseTime(s, fallback), LimitOf(Normalize(s), w).resetAfter.value;
            WindowReset(Merge(stored, Updates(s, fallback)), w, now) <==> now >= (base + Longest(sec)) / SECOND * SECOND
  {
    hide Normalize, Seconds;
    var sec := LimitOf(Normalize(s), w).resetAfter.value;
    SecondsShorten(if sec < 0 then 0 else sec);
  }

  /** Some moment after which a window never pauses again. */
  ghost predicate PauseIsBounded(e: Extra, w: Window, threshold: real) {
    exists t :: OverFrom(e, w, threshold, t)
  }

  ghost predicate OverFrom(e: Extra, w: Window, threshold: real, t: int) {
    forall now | now >= t :: !Pauses(e, w, threshold, now)
  }

  /** The stored map says when the window resets. */
  predicate KnowsReset(e: Extra, w: Window) {
    var entry := EntryOf(e, w);
    || (entry.resetAt.Some? && Parse(entry.resetAt.value).Some?)
    || (entry.resetAfter.Some? && entry.resetAfter.value > 0
        && ((e.updatedAt.Some? && Parse(e.updatedAt.value).Some?) || Seconds(entry.resetAfter.value) <= 0))
  }

  predicate OverThreshold(e: Extra, w: Window, threshold: real) {
    var used := EntryOf(e, w).used;
    used.Some? && used.value > 0.0 && used.value / 100.0 >= threshold
  }

  /** For every stored map: the pause of a window is bounded exactly when its usage is below the
      threshold or the map knows when the window resets. A snapshot with a usage and no reset
      seconds, on a map that has none either, pauses the account for ever. */
  lemma PauseIsBoundedExactly(e: Extra, w: Window, threshold: real)
    ensures PauseIsBounded(e, w, threshold) <==> !OverThreshold(e, w, threshold) || KnowsReset(e, w)
  {
    hide Seconds;
    if !OverThreshold(e, w, threshold) || KnowsReset(e, w) {
      assert OverFrom(e, w, threshold, ResetMoment(e, w));
    } else {
      forall t ensures !OverFrom(e, w, threshold, t) {
        assert Pauses(e, w, threshold, t);
      }
    }
  }

  function ResetMoment(e: Extra, w: Window): int {
    var entry := EntryOf(e, w);
    if entry.resetAt.Some? && Parse(entry.resetAt.value).Some? then Parse(entry.resetAt.value).value
    else if entry.resetAfter.Some? && e.updatedAt.Some? && Parse(e.updatedAt.value).Some?
    then Parse(e.updatedAt.value).value + Seconds(entry.resetAfter.value)
    else 0
  }

  /** The snapshot's reset time for a window has come. */
  predicate HasReset(s: Snapshot, fallback: int, w: Window, now: int) {
    var after := LimitOf(Normalize(s), w).resetAfter;
    after.Some? && now >= BaseTime(s, fallback) + Longest(after.value)
  }

  /** The account as a whole resumes once every window that can pause it has reset. */
  lemma AccountResumes(stored: Extra, s: Snapshot, fallback: int, five: Setting, seven: Setting, now: int)
    requires Representable(BaseTime(s, fallback))
    requires !five.disabled ==> HasReset(s, fallback, FiveHours, now)
    requires !seven.disabled ==> HasReset(s, fallback, SevenDays, now)
    ensures !ShouldPause(five, seven, Merge(stored, Updates(s, fallback)), now)
  {
    hide Normalize, Merge, Updates, Pauses, Threshold;
    if !five.disabled {
      PauseEnds(stored, s, fallback, FiveHours, now);
    }
    if !seven.disabled {
      PauseEnds(stored, s, fallback, SevenDays, now);
    }
  }

  /** The reset seconds of either header end the pause of whichever window it turns out to be. */
  lemma HeaderEndsItsWindow(stored: Extra, s: Snapshot, fallback: int, primary: bool, now: int) returns (w: Window)
    requires var header := if primary then s.primary else s.secondary;
             && header.resetAfter.Some? && Representable(BaseTime(s, fallback))
             && now >= BaseTime(s, fallback) + Longest(header.resetAfter.value)
    ensures LimitOf(Normalize(s), w) == if primary then s.primary else s.secondary
    ensures forall threshold :: !Pauses(Merge(stored, Updates(s, fallback)), w, threshold, now)
  {
    w := if PrimaryIsFive(s) == primary then FiveHours else SevenDays;
    PauseEnds(stored, s, fallback, w, now);
  }

  /** Used up, and nobody knows until when. */
  lemma PausedForever(now: int)
    ensures var s := Snapshot(Limit(Some(100.0), None, Some(300)), Limit(None, None, None), Garbled);
            var nothing := Extra(Entry(None, None, None), Entry(None, None, None), None);
            Pauses(Merge(nothing, Updates(s, 0)), FiveHours, 0.9, now)
  {
  }
}
