/** Which of several equally ranked best accounts a run of the selection returns. */
module AccountFairness {
  import opened StreamEvents
  import opened AccountSelection
  import opened Reservoir

  /** For the accounts behind position f the tie with a best one is equality of rank. */
  ghost predicate FairAfter(q: Request, tie: Tie, l: seq<Account>, m: Account, f: nat) {
    forall i, b | f < i < |l| && b in l && Equal(q, b, m) && Tier(q, l[i]) == Tier(q, b)
        && l[i].priority == b.priority ::
      tie(l[i], b) <==> Equal(q, l[i], m)
  }

  ghost predicate NoPoolTieAfter(q: Request, l: seq<Account>, m: Account, f: nat) {
    forall i | f < i < |l| :: !PoolTie(q, l[i], m)
  }

  lemma CodeTieAfter(q: Request, l: seq<Account>, m: Account, f: nat)
    requires Minimal(q, l, m) && NoPoolTieAfter(q, l, m, f)
    ensures FairAfter(q, SameLastUsed, l, m, f)
  {
    forall i | f < i < |l| ensures !Better(q, l[i], m) {}
  }

  function BestOf(q: Request, l: seq<Account>, m: Account): seq<Account> {
    if l == [] then []
    else BestOf(q, l[..|l| - 1], m) + if Equal(q, l[|l| - 1], m) then [l[|l| - 1]] else []
  }

  lemma {:induction false} BestAreEqual(q: Request, l: seq<Account>, m: Account)
    ensures forall i | 0 <= i < |BestOf(q, l, m)| :: Equal(q, BestOf(q, l, m)[i], m) && BestOf(q, l, m)[i] in l
    ensures (forall a | a in l :: !Equal(q, a, m)) <==> BestOf(q, l, m) == []
  {
    if l != [] {
      BestAreEqual(q, l[..|l| - 1], m);
      assert l == l[..|l| - 1] + [l[|l| - 1]];
    }
  }

  /** The choice vector of k candidates whose draws start at position d. */
  function Choices(draws: nat -> nat, d: nat, k: nat): Vector {
    seq(k, i requires 0 <= i < k => if i == 0 then 0 else draws(d + i - 1) % (i + 1))
  }

  lemma ChoicesGrow(draws: nat -> nat, d: nat, k: nat)
    requires k > 0
    ensures LastZero(Choices(draws, d, k + 1))
            == if draws(d + k - 1) % (k + 1) == 0 then k else LastZero(Choices(draws, d, k))
  {
    assert Choices(draws, d, k + 1)[..k] == Choices(draws, d, k);
  }

  ghost predicate Chosen(q: Request, draws: nat -> nat, s: Pick, best: seq<Account>, d: nat) {
    && |best| > 0 && s.rank == |best| && s.drawn == d + |best| - 1
    && LastZero(Choices(draws, d, |best|)) < |best|
    && s.selected == Some(best[LastZero(Choices(draws, d, |best|))])
  }

  lemma RankRestarts(q: Request, tie: Tie, draws: nat -> nat, l: seq<Account>, m: Account, f: nat)
    requires Minimal(q, l, m) && f < |l| && Equal(q, l[f], m)
    requires forall i | 0 <= i < f :: !Equal(q, l[i], m)
    ensures Chosen(
              q, draws, Fold(q, tie, draws, l[..f + 1]), BestOf(q, l[..f + 1], m), Fold(q, tie, draws, l[..f]).drawn)
  {
    var init := l[..f];
    assert l[..f + 1] == init + [l[f]] && l[..f + 1][..f] == init;
    BestAreEqual(q, init, m);
    SelectedIsAccepted(q, tie, draws, init);
    if init != [] {
      var best := Fold(q, tie, draws, init).selected.value;
      BetterIsAStrictWeakOrder(q, best, m, m);
      BetterIsAStrictWeakOrder(q, l[f], best, m);
    }
    assert BestOf(q, l[..f + 1], m) == [l[f]];
  }

  lemma WorseIsIgnored(q: Request, tie: Tie, draws: nat -> nat, l: seq<Account>, m: Account, f: nat, s: Pick, i: nat)
    requires Minimal(q, l, m) && FairAfter(q, tie, l, m, f) && f < i < |l| && !Equal(q, l[i], m)
    requires s.selected.Some? && Equal(q, s.selected.value, m) && s.selected.value in l
    ensures Offer(q, tie, draws, s, l[i]) == s
  {
    assert !Better(q, l[i], m);
  }

  /** Counting restarts at the first best account, ignores everything worse, and the account kept
      is the last one that drew zero. */
  lemma {:induction false} LastZeroWins(
      q: Request, tie: Tie, draws: nat -> nat, l: seq<Account>, m: Account, f: nat, n: nat)
    requires Minimal(q, l, m) && FairAfter(q, tie, l, m, f) && f < n <= |l| && Equal(q, l[f], m)
    requires forall i | 0 <= i < f :: !Equal(q, l[i], m)
    ensures Chosen(q, draws, Fold(q, tie, draws, l[..n]), BestOf(q, l[..n], m), Fold(q, tie, draws, l[..f]).drawn)
  {
    hide Offer, Better, Choices, LastZero, Equal, BestOf, Minimal, FairAfter;
    if n == f + 1 {
      RankRestarts(q, tie, draws, l, m, f);
    } else {
      LastZeroWins(q, tie, draws, l, m, f, n - 1);
      assert l[..n][..n - 1] == l[..n - 1];
      ChosenStep(q, tie, draws, l, m, f, Fold(q, tie, draws, l[..n - 1]), l[..n - 1], n - 1,
          Fold(q, tie, draws, l[..f]).drawn);
      assert l[..n] == l[..n - 1] + [l[n - 1]];
    }
  }

  lemma ChosenStep(
      q: Request, tie: Tie, draws: nat -> nat, l: seq<Account>, m: Account, f: nat, s: Pick, init: seq<Account>,
      i: nat, d: nat)
    requires Minimal(q, l, m) && FairAfter(q, tie, l, m, f) && f < i < |l| && forall b | b in init :: b in l
    requires Chosen(q, draws, s, BestOf(q, init, m), d)
    ensures Chosen(q, draws, Offer(q, tie, draws, s, l[i]), BestOf(q, init + [l[i]], m), d)
  {
    hide Offer, Better, Choices, LastZero, Minimal, FairAfter;
    assert (init + [l[i]])[..|init + [l[i]]| - 1] == init;
    var best := BestOf(q, init, m);
    BestAreEqual(q, init, m);
    if Equal(q, l[i], m) {
      TieDraws(q, tie, draws, l, m, f, s, i, s.selected.value);
      ChoicesGrow(draws, d, |best|);
    } else {
      WorseIsIgnored(q, tie, draws, l, m, f, s, i);
    }
  }

  lemma TieDraws(
      q: Request, tie: Tie, draws: nat -> nat, l: seq<Account>, m: Account, f: nat, s: Pick, i: nat, best: Account)
    requires FairAfter(q, tie, l, m, f) && f < i < |l| && best in l && s.selected == Some(best)
    requires Equal(q, l[i], m) && Equal(q, best, m)
    ensures Offer(q, tie, draws, s, l[i])
            == Pick(if draws(s.drawn) % (s.rank + 1) == 0 then Some(l[i]) else s.selected, s.rank + 1, s.drawn + 1)
  {
  }

  // ---- every vector arises, and each account for equally many -----------------------------------

  /** The draws of a run, with the choices among the best accounts replaced by v. */
  function Redraw(draws: nat -> nat, d: nat, v: Vector): nat -> nat {
    (n: nat) => if n < d || n - d + 1 >= |v| then draws(n) else v[n - d + 1]
  }

  lemma {:induction false} OnlyDrawnMatters(
      q: Request, tie: Tie, draws: nat -> nat, draws': nat -> nat, l: seq<Account>)
    requires forall n: nat | n < Fold(q, tie, draws, l).drawn :: draws(n) == draws'(n)
    ensures Fold(q, tie, draws', l) == Fold(q, tie, draws, l)
  {
    if l != [] {
      OnlyDrawnMatters(q, tie, draws, draws', l[..|l| - 1]);
    }
  }

  lemma RedrawnChoices(draws: nat -> nat, d: nat, v: Vector)
    requires |v| > 0 && forall i | 0 <= i < |v| :: v[i] <= i
    ensures Choices(Redraw(draws, d, v), d, |v|) == v
  {
    var choices := Choices(Redraw(draws, d, v), d, |v|);
    forall i | 0 <= i < |v| ensures choices[i] == v[i] {
      if i > 0 {
        assert Redraw(draws, d, v)(d + i - 1) == v[i];
        assert v[i] % (i + 1) == v[i];
      }
    }
  }

  ghost function Selecting(
      q: Request, tie: Tie, draws: nat -> nat, l: seq<Account>, d: nat, k: nat, a: Account): set<Vector>
  {
    set v | v in Vectors(k) && Fold(q, tie, Redraw(draws, d, v), l).selected == Some(a)
  }

  lemma VectorSelects(q: Request, tie: Tie, draws: nat -> nat, l: seq<Account>, m: Account, f: nat, v: Vector)
    requires Minimal(q, l, m) && FairAfter(q, tie, l, m, f) && f < |l| && Equal(q, l[f], m)
    requires forall i | 0 <= i < f :: !Equal(q, l[i], m)
    requires v in Vectors(|BestOf(q, l, m)|) && |BestOf(q, l, m)| > 0
    ensures LastZero(v) < |BestOf(q, l, m)|
    ensures Fold(q, tie, Redraw(draws, Fold(q, tie, draws, l[..f]).drawn, v), l).selected
            == Some(BestOf(q, l, m)[LastZero(v)])
  {
    hide Fold, Vectors, LastZero, Choices, BestOf;
    var best, d := BestOf(q, l, m), Fold(q, tie, draws, l[..f]).drawn;
    var again := Redraw(draws, d, v);
    VectorCount(|best|);
    RedrawnChoices(draws, d, v);
    OnlyDrawnMatters(q, tie, draws, again, l[..f]);
    assert l[..|l|] == l;
    LastZeroWins(q, tie, again, l, m, f, |l|);
  }

  /** Of the k! ways the k equally ranked best accounts can draw, each of them is selected by
      exactly (k - 1)!, whatever was drawn before the first of them. */
  lemma FairAmongTheBest(q: Request, tie: Tie, draws: nat -> nat, l: seq<Account>, m: Account, f: nat, j: nat)
    requires Minimal(q, l, m) && FairAfter(q, tie, l, m, f) && f < |l| && Equal(q, l[f], m)
    requires forall i | 0 <= i < f :: !Equal(q, l[i], m)
    requires j < |BestOf(q, l, m)|
    requires forall i, i' | 0 <= i < i' < |BestOf(q, l, m)| :: BestOf(q, l, m)[i] != BestOf(q, l, m)[i']
    ensures var k := |BestOf(q, l, m)|;
            && |Vectors(k)| == Factorial(k)
            && |Selecting(q, tie, draws, l, Fold(q, tie, draws, l[..f]).drawn, k, BestOf(q, l, m)[j])|
               == Factorial(k - 1)
  {
    hide Fold, Vectors, LastZero, BestOf;
    var best, d := BestOf(q, l, m), Fold(q, tie, draws, l[..f]).drawn;
    EachCandidateEquallyOften(|best|, j);
    forall v | v in Vectors(|best|)
      ensures Fold(q, tie, Redraw(draws, d, v), l).selected == Some(best[j]) <==> LastZero(v) == j
    {
      VectorSelects(q, tie, draws, l, m, f, v);
    }
    assert Selecting(q, tie, draws, l, d, |best|, best[j]) == Choosing(|best|, j);
  }

  // ---- the code's own tie -----------------------------------------------------------------------------

  /** How many accounts behind position f the code takes for equal to the best. */
  function Rivals(q: Request, l: seq<Account>, m: Account, f: nat): nat {
    if |l| <= f + 1 then 0
    else Rivals(q, l[..|l| - 1], m, f) + if Equal(q, l[|l| - 1], m) || PoolTie(q, l[|l| - 1], m) then 1 else 0
  }

  predicate NoZero(v: Vector, r: nat) {
    forall i | 1 <= i < r && i < |v| :: v[i] != 0
  }

  lemma {:induction false} LastZeroAtStart(v: Vector)
    requires |v| > 0
    ensures LastZero(v) == 0 <==> NoZero(v, |v|)
  {
    if |v| > 1 {
      LastZeroAtStart(v[..|v| - 1]);
    }
  }

  /** Among the accounts up to n the first best one is still selected exactly when nobody behind it drew
      zero; once displaced it never returns. */
  ghost predicate FirstHolds(s: Pick, first: Account, v: Vector, d: nat, r: nat) {
    && s.selected.Some? && (s.selected.value == first <==> NoZero(v, r))
    && (NoZero(v, r) ==> s.rank == r && s.drawn == d + r - 1)
  }

  lemma RivalDraws(q: Request, draws: nat -> nat, l: seq<Account>, m: Account, s: Pick, first: Account, a: Account)
    requires Minimal(q, l, m) && a in l && Equal(q, first, m) && s.selected == Some(first)
    ensures Offer(q, SameLastUsed, draws, s, a)
            == if Equal(q, a, m) || PoolTie(q, a, m)
               then Pick(if draws(s.drawn) % (s.rank + 1) == 0 then Some(a) else s.selected, s.rank + 1, s.drawn + 1)
               else s
  {
    assert !Better(q, a, m);
  }

  lemma FirstStep(
      q: Request, draws: nat -> nat, l: seq<Account>, m: Account, s: Pick, first: Account, a: Account, v: Vector,
      d: nat, r: nat)
    requires Minimal(q, l, m) && a in l && Equal(q, first, m) && a != first && r > 0 && FirstHolds(s, first, v, d, r)
    requires Equal(q, a, m) || PoolTie(q, a, m) ==> r < |v| && draws(d + r - 1) == v[r] <= r
    ensures FirstHolds(Offer(q, SameLastUsed, draws, s, a), first, v, d,
                       if Equal(q, a, m) || PoolTie(q, a, m) then r + 1 else r)
  {
    hide Better, Equal, PoolTie, Minimal, IsBetterAccount;
    if s.selected.value == first {
      RivalDraws(q, draws, l, m, s, first, a);
    }
  }

  lemma {:induction false} FirstStays(
      q: Request, draws: nat -> nat, l: seq<Account>, m: Account, f: nat, n: nat, v: Vector)
    requires Minimal(q, l, m) && f < n <= |l| && Equal(q, l[f], m)
    requires forall i | 0 <= i < f :: !Equal(q, l[i], m)
    requires forall i | f < i < |l| :: l[i] != l[f]
    requires |v| == 1 + Rivals(q, l, m, f) && forall i | 0 <= i < |v| :: v[i] <= i
    ensures var d := Fold(q, SameLastUsed, draws, l[..f]).drawn;
            FirstHolds(Fold(q, SameLastUsed, Redraw(draws, d, v), l[..n]), l[f], v, d, 1 + Rivals(q, l[..n], m, f))
  {
    hide Offer, Equal, PoolTie, Minimal, Choices, LastZero, FirstHolds, BestOf;
    var d := Fold(q, SameLastUsed, draws, l[..f]).drawn;
    var again := Redraw(draws, d, v);
    if n == f + 1 {
      FirstArrives(q, draws, l, m, f, v);
    } else {
      FirstStays(q, draws, l, m, f, n - 1, v);
      assert l[..n][..n - 1] == l[..n - 1];
      RivalsGrow(q, l, m, f, n);
      FirstStep(q, again, l, m, Fold(q, SameLastUsed, again, l[..n - 1]), l[f], l[n - 1], v, d,
          1 + Rivals(q, l[..n - 1], m, f));
    }
  }

  lemma FirstArrives(q: Request, draws: nat -> nat, l: seq<Account>, m: Account, f: nat, v: Vector)
    requires Minimal(q, l, m) && f < |l| && Equal(q, l[f], m) && forall i | 0 <= i < f :: !Equal(q, l[i], m)
    ensures var d := Fold(q, SameLastUsed, draws, l[..f]).drawn;
            FirstHolds(Fold(q, SameLastUsed, Redraw(draws, d, v), l[..f + 1]), l[f], v, d, 1)
    ensures Rivals(q, l[..f + 1], m, f) == 0
  {
    hide Fold, Choices, BestOf;
    var d := Fold(q, SameLastUsed, draws, l[..f]).drawn;
    var again := Redraw(draws, d, v);
    OnlyDrawnMatters(q, SameLastUsed, draws, again, l[..f]);
    RankRestarts(q, SameLastUsed, again, l, m, f);
    assert BestOf(q, l[..f + 1], m) == [l[f]] by { FirstBest(q, l, m, f); }
  }

  lemma FirstBest(q: Request, l: seq<Account>, m: Account, f: nat)
    requires f < |l| && Equal(q, l[f], m) && forall i | 0 <= i < f :: !Equal(q, l[i], m)
    ensures BestOf(q, l[..f + 1], m) == [l[f]]
  {
    assert l[..f + 1][..f] == l[..f];
    BestAreEqual(q, l[..f], m);
  }

  lemma {:induction false} RivalsGrow(q: Request, l: seq<Account>, m: Account, f: nat, n: nat)
    requires f + 1 < n <= |l|
    ensures Rivals(q, l[..n], m, f)
            == Rivals(q, l[..n - 1], m, f) + if Equal(q, l[n - 1], m) || PoolTie(q, l[n - 1], m) then 1 else 0
    ensures Rivals(q, l[..n], m, f) <= Rivals(q, l, m, f)
    decreases |l| - n
  {
    assert l[..n][..n - 1] == l[..n - 1];
    if n < |l| {
      RivalsGrow(q, l, m, f, n + 1);
      assert l[..n + 1][..n] == l[..n];
    } else {
      assert l[..n] == l;
    }
  }

  /** The best accounts and their pooled rivals, counted. */
  lemma {:induction false} RivalsCounted(q: Request, l: seq<Account>, m: Account, f: nat, n: nat)
    requires Minimal(q, l, m) && f < n <= |l| && Equal(q, l[f], m) && forall i | 0 <= i < f :: !Equal(q, l[i], m)
    ensures |BestOf(q, l[..n], m)| <= 1 + Rivals(q, l[..n], m, f)
    ensures |BestOf(q, l[..n], m)| == 1 + Rivals(q, l[..n], m, f) <==> forall i | f < i < n :: !PoolTie(q, l[i], m)
  {
    hide Minimal;
    if n == f + 1 {
      FirstBest(q, l, m, f);
    } else {
      RivalsCounted(q, l, m, f, n - 1);
      assert l[..n][..n - 1] == l[..n - 1];
    }
  }

  /** Each of the k best accounts is selected by one k-th of the ways the rivals can draw. */
  ghost predicate Fair(q: Request, draws: nat -> nat, l: seq<Account>, m: Account, f: nat)
    requires f <= |l|
  {
    var best, d, n := BestOf(q, l, m), Fold(q, SameLastUsed, draws, l[..f]).drawn, 1 + Rivals(q, l, m, f);
    forall a | a in best :: |Selecting(q, SameLastUsed, draws, l, d, n, a)| * |best| == |Vectors(n)|
  }

  lemma FirstSelectedBy(q: Request, draws: nat -> nat, l: seq<Account>, m: Account, f: nat)
    requires Minimal(q, l, m) && f < |l| && Equal(q, l[f], m) && forall i | 0 <= i < f :: !Equal(q, l[i], m)
    requires forall i | f < i < |l| :: l[i] != l[f]
    ensures var d, n := Fold(q, SameLastUsed, draws, l[..f]).drawn, 1 + Rivals(q, l, m, f);
            |Selecting(q, SameLastUsed, draws, l, d, n, l[f])| == Factorial(n - 1) && |Vectors(n)| == Factorial(n)
  {
    hide Fold, Vectors, LastZero, Rivals, Redraw, NoZero, Equal, Minimal;
    var d, n := Fold(q, SameLastUsed, draws, l[..f]).drawn, 1 + Rivals(q, l, m, f);
    EachCandidateEquallyOften(n, 0);
    VectorCount(n);
    assert l[..|l|] == l;
    forall v | v in Vectors(n)
      ensures Fold(q, SameLastUsed, Redraw(draws, d, v), l).selected == Some(l[f]) <==> LastZero(v) == 0
    {
      FirstStays(q, draws, l, m, f, |l|, v);
      LastZeroAtStart(v);
    }
    assert Selecting(q, SameLastUsed, draws, l, d, n, l[f]) == Choosing(n, 0);
  }

  lemma FactorialSteps(n: nat)
    requires n > 0
    ensures Factorial(n) == n * Factorial(n - 1) && Factorial(n - 1) > 0
  {
    FactorialPositive(n - 1);
  }

  lemma {:induction false} FactorialPositive(n: nat)
    ensures Factorial(n) > 0
  {
    if n > 0 {
      FactorialPositive(n - 1);
    }
  }

  lemma FairWithoutRivals(q: Request, draws: nat -> nat, l: seq<Account>, m: Account, f: nat)
    requires Minimal(q, l, m) && f < |l| && Equal(q, l[f], m) && forall i | 0 <= i < f :: !Equal(q, l[i], m)
    requires (forall i, j | 0 <= i < j < |l| :: l[i] != l[j]) && NoPoolTieAfter(q, l, m, f)
    ensures Fair(q, draws, l, m, f)
  {
    hide Fold, Vectors, Rivals, Equal, Better, BestOf, Minimal, Selecting, PoolTie, Factorial, FairAfter;
    var best, d, n := BestOf(q, l, m), Fold(q, SameLastUsed, draws, l[..f]).drawn, 1 + Rivals(q, l, m, f);
    assert l[..|l|] == l;
    RivalsCounted(q, l, m, f, |l|);
    FactorialSteps(n);
    CodeTieAfter(q, l, m, f);
    BestAreDistinct(q, l, m);
    forall a | a in best ensures |Selecting(q, SameLastUsed, draws, l, d, n, a)| * |best| == |Vectors(n)| {
      var j :| 0 <= j < |best| && best[j] == a;
      FairAmongTheBest(q, SameLastUsed, draws, l, m, f, j);
    }
  }

  lemma RivalsAreUnfair(q: Request, draws: nat -> nat, l: seq<Account>, m: Account, f: nat)
    requires Minimal(q, l, m) && f < |l| && Equal(q, l[f], m) && forall i | 0 <= i < f :: !Equal(q, l[i], m)
    requires (forall i, j | 0 <= i < j < |l| :: l[i] != l[j]) && !NoPoolTieAfter(q, l, m, f)
    ensures !Fair(q, draws, l, m, f)
  {
    hide Fold, Vectors, Rivals, Equal, Better, BestOf, Minimal, Selecting, PoolTie, Factorial;
    var best, n := BestOf(q, l, m), 1 + Rivals(q, l, m, f);
    assert l[..|l|] == l;
    RivalsCounted(q, l, m, f, |l|);
    FirstSelectedBy(q, draws, l, m, f);
    FactorialSteps(n);
    BestIsListed(q, l, m, f);
    if Fair(q, draws, l, m, f) {
      assert Factorial(n - 1) * |best| == n * Factorial(n - 1);
      SameFactor(Factorial(n - 1), |best|, n);
      assert false;
    }
  }

  /** With the code's own tie the best accounts are selected equally often exactly when no pooled account
      that was last used together with them follows the first of them: each such rival takes its share of
      the draws. */
  lemma CodeIsFairExactly(q: Request, draws: nat -> nat, l: seq<Account>, m: Account, f: nat)
    requires Minimal(q, l, m) && f < |l| && Equal(q, l[f], m) && forall i | 0 <= i < f :: !Equal(q, l[i], m)
    requires forall i, j | 0 <= i < j < |l| :: l[i] != l[j]
    ensures Fair(q, draws, l, m, f) <==> NoPoolTieAfter(q, l, m, f)
  {
    hide Fair, NoPoolTieAfter, Minimal, Equal;
    if NoPoolTieAfter(q, l, m, f) {
      FairWithoutRivals(q, draws, l, m, f);
    } else {
      RivalsAreUnfair(q, draws, l, m, f);
    }
  }

  lemma SameFactor(x: nat, a: nat, b: nat)
    requires x > 0 && x * a == b * x
    ensures a == b
  {
    assert a < b ==> x * a < x * b;
    assert a > b ==> x * a > x * b;
  }

  lemma {:induction false} BestIsListed(q: Request, l: seq<Account>, m: Account, f: nat)
    requires f < |l| && Equal(q, l[f], m)
    ensures l[f] in BestOf(q, l, m)
  {
    if f < |l| - 1 {
      BestIsListed(q, l[..|l| - 1], m, f);
    }
  }

  lemma {:induction false} BestAreDistinct(q: Request, l: seq<Account>, m: Account)
    requires forall i, j | 0 <= i < j < |l| :: l[i] != l[j]
    ensures forall i, j | 0 <= i < j < |BestOf(q, l, m)| :: BestOf(q, l, m)[i] != BestOf(q, l, m)[j]
  {
    hide Equal;
    if l != [] {
      BestAreDistinct(q, l[..|l| - 1], m);
      BestAreEqual(q, l[..|l| - 1], m);
    }
  }

  /** A pooled account between two equally used ones: the first of the two gets less than half. */
  lemma PooledRivalIsUnfair(draws: nat -> nat)
    ensures var q := Request({}, false);
            var a, p, b := Account(1, 0, 0, false, None), Account(2, 0, 0, true, None), Account(3, 0, 0, false, None);
            !Fair(q, draws, [a, p, b], a, 0)
  {
    var q := Request({}, false);
    var a, p, b := Account(1, 0, 0, false, None), Account(2, 0, 0, true, None), Account(3, 0, 0, false, None);
    var l := [a, p, b];
    assert PoolTie(q, l[1], a);
    CodeIsFairExactly(q, draws, l, a, 0);
  }
}
