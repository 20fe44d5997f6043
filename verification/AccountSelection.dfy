/** selectBestAccount: one pass over the candidates that keeps the best account seen so far and
    breaks ties by reservoir sampling. */
module AccountSelection {
  import opened StreamEvents

  datatype Account = Account(id: int, tier: nat, priority: int, pool: bool, lastUsed: Option<int>)

  /** One candidate with what the filters find out about it; `resolved` is None when the account is
      not schedulable, does not belong to the group, or fails the capability checks. */
  datatype Candidate = Candidate(
    id: int, resolved: Option<Account>, restricted: bool, cooling: bool, due: bool, clears: bool)

  datatype Request = Request(excluded: set<int>, compact: bool)

  datatype Verdict = Skipped | Blocked | Probe(probe: Account) | Accepted(account: Account)

  function Judge(q: Request, c: Candidate): Verdict {
    if c.id in q.excluded || c.resolved.None? || c.restricted then Skipped
    else if q.compact && c.resolved.value.tier == 0 then Blocked
    else if c.cooling && !(c.due && c.clears) then
      if c.due then Probe(c.resolved.value) else Skipped
    else Accepted(c.resolved.value)
  }

  /** The candidate may serve the request at all: not set aside, resolved, not restricted. */
  predicate Admissible(q: Request, c: Candidate) {
    c.id !in q.excluded && c.resolved.Some? && !c.restricted
  }

  /** It lacks the compact support the request needs. */
  predicate LacksCompact(q: Request, c: Candidate) {
    Admissible(q, c) && q.compact && c.resolved.value.tier == 0
  }

  /** It can be selected: with compact support where needed, and not cooling down. */
  predicate Eligible(q: Request, c: Candidate) {
    Admissible(q, c) && !LacksCompact(q, c) && (c.cooling ==> c.due && c.clears)
  }

  /** It is cooling down and its probe is due. */
  predicate DueForProbe(q: Request, c: Candidate) {
    Admissible(q, c) && !LacksCompact(q, c) && c.cooling && c.due && !c.clears
  }

  /** l lists the accounts of exactly the candidates at the positions ps, in order. */
  ghost predicate Lists(cs: seq<Candidate>, ps: seq<int>, l: seq<Account>) {
    && |l| == |ps|
    && (forall k | 0 <= k < |ps| :: 0 <= ps[k] < |cs| && cs[ps[k]].resolved == Some(l[k]))
    && (forall k, k' | 0 <= k < k' < |ps| :: ps[k] < ps[k'])
  }

  lemma ListsOneMore(cs: seq<Candidate>, ps: seq<int>, l: seq<Account>, c: Candidate, a: Account)
    requires Lists(cs, ps, l)
    ensures Lists(cs + [c], ps, l)
    ensures c.resolved == Some(a) ==> Lists(cs + [c], ps + [|cs|], l + [a])
  {
  }

  /** The loop offers exactly the eligible accounts, in order, and collects exactly those due for a probe. */
  lemma {:induction false} FiltersExactly(q: Request, cs: seq<Candidate>) returns (offered: seq<int>, probed: seq<int>)
    ensures Lists(cs, offered, AcceptedOf(q, cs)) && Lists(cs, probed, ProbesOf(q, cs))
    ensures forall i | 0 <= i < |cs| ::
              (i in offered <==> Eligible(q, cs[i])) && (i in probed <==> DueForProbe(q, cs[i]))
  {
    hide Lists;
    offered, probed := [], [];
    if cs == [] {
      assert Lists(cs, [], []) by { ListsNothing(cs); }
    } else {
      var init, c := cs[..|cs| - 1], cs[|cs| - 1];
      assert init + [c] == cs;
      offered, probed := FiltersExactly(q, init);
      ListsGrow(q, init, c);
      ListsBounded(init, offered, AcceptedOf(q, init));
      ListsBounded(init, probed, ProbesOf(q, init));
      if c.resolved.Some? {
        ListsOneMore(init, offered, AcceptedOf(q, init), c, c.resolved.value);
        ListsOneMore(init, probed, ProbesOf(q, init), c, c.resolved.value);
      } else {
        ListsOneMore(init, offered, AcceptedOf(q, init), c, Account(0, 0, 0, false, None));
        ListsOneMore(init, probed, ProbesOf(q, init), c, Account(0, 0, 0, false, None));
      }
      if Eligible(q, c) {
        offered := offered + [|init|];
      }
      if DueForProbe(q, c) {
        probed := probed + [|init|];
      }
    }
  }

  lemma ListsNothing(cs: seq<Candidate>)
    ensures Lists(cs, [], [])
  {
  }

  lemma ListsBounded(cs: seq<Candidate>, ps: seq<int>, l: seq<Account>)
    requires Lists(cs, ps, l)
    ensures |cs| !in ps
  {
  }

  // ---- the order -----------------------------------------------------------------------------

  function Tier(q: Request, a: Account): nat {
    if q.compact then a.tier else 0
  }

  /** Never used before least recently used. */
  predicate UsedBefore(a: Option<int>, b: Option<int>) {
    b.Some? && (a.None? || a.value < b.value)
  }

  /** a is strictly preferable: higher compact tier, smaller priority, not pooled, used longer ago. */
  predicate Better(q: Request, a: Account, b: Account) {
    || Tier(q, a) > Tier(q, b)
    || (Tier(q, a) == Tier(q, b)
        && (a.priority < b.priority
            || (a.priority == b.priority
                && (if a.pool != b.pool then b.pool else UsedBefore(a.lastUsed, b.lastUsed)))))
  }

  predicate Equal(q: Request, a: Account, b: Account) {
    Tier(q, a) == Tier(q, b) && a.priority == b.priority && a.pool == b.pool && a.lastUsed == b.lastUsed
  }

  /** isBetterAccount: the comparison the loop makes inside one compact tier. */
  predicate IsBetterAccount(a: Account, b: Account) {
    if a.priority < b.priority then true
    else if a.priority > b.priority then false
    else if a.pool != b.pool then !a.pool
    else
      match (a.lastUsed, b.lastUsed)
      case (None, Some(_)) => true
      case (Some(_), None) => false
      case (None, None) => false
      case (Some(x), Some(y)) => x < y
  }

  lemma BetterIsAStrictWeakOrder(q: Request, a: Account, b: Account, c: Account)
    ensures !(Better(q, a, b) && Better(q, b, a))
    ensures Better(q, a, b) && Better(q, b, c) ==> Better(q, a, c)
    ensures Equal(q, a, b) <==> !Better(q, a, b) && !Better(q, b, a)
    ensures Tier(q, a) == Tier(q, b) ==> (Better(q, a, b) <==> IsBetterAccount(a, b))
  {
  }

  /** The compact tier comes first for compact requests and counts for nothing in others. */
  lemma TierCountsForCompact(q: Request, a: Account, b: Account, tier: nat)
    ensures q.compact && a.tier > b.tier ==> Better(q, a, b)
    ensures !q.compact ==> (Better(q, a.(tier := tier), b) <==> Better(q, a, b))
    ensures !q.compact ==> (Better(q, a, b) <==> IsBetterAccount(a, b))
  {
  }

  // ---- one pass --------------------------------------------------------------------------------

  datatype Pick = Pick(selected: Option<Account>, rank: nat, drawn: nat)

  const NOTHING := Pick(None, 0, 0)

  /** The code's tie predicate. */
  predicate SameLastUsed(a: Account, b: Account) {
    a.lastUsed == b.lastUsed
  }

  type Tie = (Account, Account) -> bool

  /** An accepted account against the best so far. */
  function Offer(q: Request, tie: Tie, draws: nat -> nat, s: Pick, a: Account): Pick {
    if s.selected.None? then Pick(Some(a), 1, s.drawn)
    else
      var best := s.selected.value;
      if Tier(q, a) != Tier(q, best) then
        if Tier(q, a) > Tier(q, best) then Pick(Some(a), 1, s.drawn) else s
      else if IsBetterAccount(a, best) then Pick(Some(a), 1, s.drawn)
      else if a.priority == best.priority && tie(a, best) then
        Pick(if draws(s.drawn) % (s.rank + 1) == 0 then Some(a) else s.selected, s.rank + 1, s.drawn + 1)
      else s
  }

  function Fold(q: Request, tie: Tie, draws: nat -> nat, l: seq<Account>): Pick {
    if l == [] then NOTHING
    else Offer(q, tie, draws, Fold(q, tie, draws, l[..|l| - 1]), l[|l| - 1])
  }

  function AcceptedOf(q: Request, cs: seq<Candidate>): seq<Account> {
    if cs == [] then []
    else
      var v := Judge(q, cs[|cs| - 1]);
      AcceptedOf(q, cs[..|cs| - 1]) + if v.Accepted? then [v.account] else []
  }

  function ProbesOf(q: Request, cs: seq<Candidate>): seq<Account> {
    if cs == [] then []
    else
      var v := Judge(q, cs[|cs| - 1]);
      ProbesOf(q, cs[..|cs| - 1]) + if v.Probe? then [v.probe] else []
  }

  /** The loop itself, over all candidates with their filters. */
  method SelectBestAccount(q: Request, cs: seq<Candidate>, draws: nat -> nat)
    returns (selected: Option<Account>, compactBlocked: bool, probes: seq<Account>)
    ensures selected == Fold(q, SameLastUsed, draws, AcceptedOf(q, cs)).selected
    ensures compactBlocked <==> exists i :: 0 <= i < |cs| && Judge(q, cs[i]).Blocked?
    ensures probes == ProbesOf(q, cs)
    // in terms of the candidates themselves
    ensures selected.None? <==> forall i | 0 <= i < |cs| :: !Eligible(q, cs[i])
    ensures selected.Some? ==> exists i :: 0 <= i < |cs| && Eligible(q, cs[i]) && cs[i].resolved == selected
    ensures compactBlocked <==> exists i :: 0 <= i < |cs| && LacksCompact(q, cs[i])
    ensures exists ps :: Lists(cs, ps, probes) && forall i | 0 <= i < |cs| :: i in ps <==> DueForProbe(q, cs[i])
  {
    hide Offer, Fold, Lists, Eligible, DueForProbe;
    compactBlocked, probes := false, [];
    var pick := NOTHING;
    assert pick == Fold(q, SameLastUsed, draws, []) by { FoldOfNothing(q, SameLastUsed, draws); }
    for i := 0 to |cs|
      invariant pick == Fold(q, SameLastUsed, draws, AcceptedOf(q, cs[..i]))
      invariant compactBlocked <==> exists j :: 0 <= j < i && Judge(q, cs[j]).Blocked?
      invariant probes == ProbesOf(q, cs[..i])
    {
      var c := cs[i];
      assert cs[..i + 1] == cs[..i] + [c];
      ListsGrow(q, cs[..i], c);
      if c.id in q.excluded || c.resolved.None? || c.restricted {
        continue;
      }
      var account := c.resolved.value;
      if q.compact && account.tier == 0 {
        assert Judge(q, cs[i]).Blocked?;
        compactBlocked := true;
        continue;
      }
      if c.cooling && !(c.due && c.clears) {
        if c.due {
          probes := probes + [account];
        }
        continue;
      }
      FoldGrows(q, SameLastUsed, draws, AcceptedOf(q, cs[..i]), account);
      pick := Offer(q, SameLastUsed, draws, pick, account);
    }
    assert cs[..|cs|] == cs;
    selected := pick.selected;
    SelectedIsEligible(q, cs, draws);
    assert forall i | 0 <= i < |cs| :: Judge(q, cs[i]).Blocked? == LacksCompact(q, cs[i]);
    ghost var _, probed := FiltersExactly(q, cs);
  }

  /** One of the eligible candidates is selected, if there is any. */
  lemma SelectedIsEligible(q: Request, cs: seq<Candidate>, draws: nat -> nat)
    ensures var selected := Fold(q, SameLastUsed, draws, AcceptedOf(q, cs)).selected;
            && (selected.None? <==> forall i | 0 <= i < |cs| :: !Eligible(q, cs[i]))
            && (selected.Some? ==> exists i :: 0 <= i < |cs| && Eligible(q, cs[i]) && cs[i].resolved == selected)
  {
    hide Fold, Eligible, DueForProbe;
    var l := AcceptedOf(q, cs);
    SelectedIsAccepted(q, SameLastUsed, draws, l);
    var offered, _ := FiltersExactly(q, cs);
    assert l == [] ==> forall i | 0 <= i < |cs| :: i !in offered;
    if l != [] {
      var k :| 0 <= k < |l| && Fold(q, SameLastUsed, draws, l).selected == Some(l[k]);
      assert offered[k] in offered && Eligible(q, cs[offered[k]]);
    }
  }

  lemma FoldOfNothing(q: Request, tie: Tie, draws: nat -> nat)
    ensures Fold(q, tie, draws, []) == NOTHING
  {
  }

  lemma ListsGrow(q: Request, cs: seq<Candidate>, c: Candidate)
    ensures AcceptedOf(q, cs + [c])
            == if Judge(q, c).Accepted? then AcceptedOf(q, cs) + [Judge(q, c).account] else AcceptedOf(q, cs)
    ensures ProbesOf(q, cs + [c])
            == if Judge(q, c).Probe? then ProbesOf(q, cs) + [Judge(q, c).probe] else ProbesOf(q, cs)
  {
  }

  lemma FoldGrows(q: Request, tie: Tie, draws: nat -> nat, l: seq<Account>, a: Account)
    ensures Fold(q, tie, draws, l + [a]) == Offer(q, tie, draws, Fold(q, tie, draws, l), a)
  {
  }

  // ---- optimality ------------------------------------------------------------------------------

  ghost predicate Minimal(q: Request, l: seq<Account>, a: Account) {
    a in l && forall b :: b in l ==> !Better(q, b, a)
  }

  /** An account is selected exactly when one is accepted, and it is one of them. */
  lemma {:induction false} SelectedIsAccepted(q: Request, tie: Tie, draws: nat -> nat, l: seq<Account>)
    ensures var s := Fold(q, tie, draws, l);
            && (s.selected.None? <==> l == [])
            && (s.selected.Some? ==> s.selected.value in l && s.rank > 0)
  {
    if l != [] {
      SelectedIsAccepted(q, tie, draws, l[..|l| - 1]);
    }
  }

  /** The tie predicate never calls a better or a worse account equal. */
  ghost predicate HonestTie(q: Request, tie: Tie, l: seq<Account>) {
    forall a, b | a in l && b in l && Tier(q, a) == Tier(q, b) && a.priority == b.priority && tie(a, b) ::
      !Better(q, a, b) && !Better(q, b, a)
  }

  /** With an honest tie predicate the selected account is minimal, whatever is drawn. */
  lemma {:induction false} HonestTieIsOptimal(q: Request, tie: Tie, draws: nat -> nat, l: seq<Account>)
    requires HonestTie(q, tie, l) && l != []
    ensures Minimal(q, l, Fold(q, tie, draws, l).selected.value)
  {
    var init, a := l[..|l| - 1], l[|l| - 1];
    assert l == init + [a];
    SelectedIsAccepted(q, tie, draws, l);
    SelectedIsAccepted(q, tie, draws, init);
    if init != [] {
      HonestTieIsOptimal(q, tie, draws, init);
      var best := Fold(q, tie, draws, init).selected.value;
      forall b | b in l ensures !Better(q, b, Fold(q, tie, draws, l).selected.value) {
        BetterIsAStrictWeakOrder(q, b, a, best);
        BetterIsAStrictWeakOrder(q, b, best, a);
        BetterIsAStrictWeakOrder(q, a, best, b);
      }
    }
  }

  /** A pooled account that differs from a better one only in being pooled. */
  predicate PoolTie(q: Request, a: Account, m: Account) {
    Tier(q, a) == Tier(q, m) && a.priority == m.priority && a.lastUsed == m.lastUsed && a.pool && !m.pool
  }

  /** After the last best account comes a pooled one that was last used at the same time. */
  ghost predicate Displaceable(q: Request, l: seq<Account>) {
    exists m, j | 0 <= j < |l| && Minimal(q, l, m) :: PoolTie(q, l[j], m) && NoneAfter(q, l, m, j)
  }

  predicate NoneAfter(q: Request, l: seq<Account>, m: Account, j: int) {
    forall i | j < i < |l| :: i >= 0 ==> !Equal(q, l[i], m)
  }

  lemma {:induction false} StaysBest(q: Request, draws: nat -> nat, l: seq<Account>, m: Account, n: nat, i: nat)
    requires Minimal(q, l, m) && i < n <= |l| && Equal(q, l[i], m)
    requires forall j | i < j < n :: Equal(q, l[j], m) || !PoolTie(q, l[j], m)
    ensures Fold(q, SameLastUsed, draws, l[..n]).selected.Some?
    ensures Equal(q, Fold(q, SameLastUsed, draws, l[..n]).selected.value, m)
  {
    var init := l[..n - 1];
    assert l[..n][..n - 1] == init;
    SelectedIsAccepted(q, SameLastUsed, draws, init);
    if i < n - 1 {
      StaysBest(q, draws, l, m, n - 1, i);
      BetterIsAStrictWeakOrder(q, l[n - 1], m, m);
    } else if init != [] {
      var best := Fold(q, SameLastUsed, draws, init).selected.value;
      assert best in l;
      BetterIsAStrictWeakOrder(q, best, m, m);
      BetterIsAStrictWeakOrder(q, best, l[i], m);
    }
  }

  /** A best account that came after position i, or i itself. */
  lemma {:induction false} LastBest(q: Request, l: seq<Account>, m: Account, i: nat) returns (k: nat)
    requires i < |l| && Equal(q, l[i], m)
    ensures i <= k < |l| && Equal(q, l[k], m) && NoneAfter(q, l, m, k)
    decreases |l| - i
  {
    if j :| i < j < |l| && Equal(q, l[j], m) {
      k := LastBest(q, l, m, j);
    } else {
      k := i;
    }
  }

  lemma {:induction false} Displaced(q: Request, l: seq<Account>, m: Account, j: nat, n: nat)
    requires Minimal(q, l, m) && j < n <= |l| && PoolTie(q, l[j], m) && NoneAfter(q, l, m, j)
    ensures Fold(q, SameLastUsed, _ => 0, l[..n]).selected.Some?
    ensures !Equal(q, Fold(q, SameLastUsed, _ => 0, l[..n]).selected.value, m)
  {
    assert l[..n][..n - 1] == l[..n - 1];
    SelectedIsAccepted(q, SameLastUsed, _ => 0, l[..n - 1]);
    if j < n - 1 {
      Displaced(q, l, m, j, n - 1);
    }
  }

  lemma BestIsFound(q: Request, l: seq<Account>) returns (m: Account)
    requires l != []
    ensures Minimal(q, l, m)
  {
    var honest: Tie := (a, b) => Equal(q, a, b);
    forall a, b | Equal(q, a, b) ensures !Better(q, a, b) && !Better(q, b, a) {
      BetterIsAStrictWeakOrder(q, a, b, a);
    }
    HonestTieIsOptimal(q, honest, _ => 0, l);
    m := Fold(q, honest, _ => 0, l).selected.value;
  }

  lemma MinimalIsEqual(q: Request, l: seq<Account>, m: Account, a: Account)
    requires Minimal(q, l, m) && a in l
    ensures Minimal(q, l, a) <==> Equal(q, a, m)
  {
  }

  /** The selection is minimal for every sequence of draws exactly when no pooled account that was
      last used together with the best one follows the last best account: the tie predicate looks
      at the time of last use only, so such an account can displace a better one. */
  lemma OptimalExactly(q: Request, l: seq<Account>)
    requires l != []
    ensures (forall draws: nat -> nat ::
               Fold(q, SameLastUsed, draws, l).selected.Some?
               && Minimal(q, l, Fold(q, SameLastUsed, draws, l).selected.value))
            <==> !Displaceable(q, l)
  {
    assert l[..|l|] == l;
    if Displaceable(q, l) {
      var m, j :| 0 <= j < |l| && Minimal(q, l, m) && PoolTie(q, l[j], m) && NoneAfter(q, l, m, j);
      Displaced(q, l, m, j, |l|);
      SelectedIsAccepted(q, SameLastUsed, _ => 0, l);
      MinimalIsEqual(q, l, m, Fold(q, SameLastUsed, _ => 0, l).selected.value);
    } else {
      var m := BestIsFound(q, l);
      var i :| 0 <= i < |l| && l[i] == m;
      var k := LastBest(q, l, m, i);
      forall draws: nat -> nat
        ensures Fold(q, SameLastUsed, draws, l).selected.Some?
                && Minimal(q, l, Fold(q, SameLastUsed, draws, l).selected.value)
      {
        forall j | k < j < |l| ensures !PoolTie(q, l[j], m) {
          if PoolTie(q, l[j], m) {
            assert NoneAfter(q, l, m, j);
          }
        }
        StaysBest(q, draws, l, m, |l|, k);
        SelectedIsAccepted(q, SameLastUsed, draws, l);
        MinimalIsEqual(q, l, m, Fold(q, SameLastUsed, draws, l).selected.value);
      }
    }
  }
}
