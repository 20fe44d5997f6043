/** selectAccountWithLoadAwareness: the sticky, load-aware and waiting layers and the loop used
    without load batching. The concern is the concurrency slot: who holds one at return. */
module SlotScheduling {
  import opened StreamEvents
  import opened AccountSelection

  datatype Refusal = NoAccounts | NoCompactAccounts | Broken

  /** A selection holds a slot, or tells the caller to wait for one. */
  datatype Result = Acquired(id: int) | Wait(id: int) | Refused(why: Refusal)

  /** What the selection of one account for the loop without batching comes to. */
  datatype Choice = Chosen(id: int) | Nothing(compactBlocked: bool) | ChoiceFails

  /** Everything one round of that loop finds out from the outside. */
  datatype Round = Round(
    priceRestricted: bool,
    sticky: Option<int>,        // the account of the sticky session, when it passes its checks
    listFails: bool,
    candidates: seq<Candidate>,
    draws: nat -> nat,
    hydrates: int -> bool,
    grants: bool)

  datatype Rounds = Rounds(round: nat -> Round, universe: set<int>, service: bool)

  predicate KnownCandidates(cs: seq<Candidate>, universe: set<int>) {
    forall i | 0 <= i < |cs| :: cs[i].id in universe && (cs[i].resolved.Some? ==> cs[i].resolved.value.id == cs[i].id)
  }

  /** Accounts come from a finite set and are looked up by their id. */
  ghost predicate Closed(env: Rounds) {
    forall n: nat {:trigger env.round(n)} ::
      && KnownCandidates(env.round(n).candidates, env.universe)
      && (env.round(n).sticky.Some? ==> env.round(n).sticky.value in env.universe)
  }

  function Selected(q: Request, r: Round): Option<Account> {
    Fold(q, SameLastUsed, r.draws, AcceptedOf(q, r.candidates)).selected
  }

  ghost function Choose(q: Request, r: Round): Choice {
    if r.priceRestricted then Nothing(false)
    else if r.sticky.Some? && r.sticky.value !in q.excluded then Chosen(r.sticky.value)
    else if r.listFails then ChoiceFails
    else
      match Selected(q, r)
      case None => Nothing(exists i :: 0 <= i < |r.candidates| && Judge(q, r.candidates[i]).Blocked?)
      case Some(a) => if r.hydrates(a.id) then Chosen(a.id) else ChoiceFails
  }

  /** Every accepted account comes from a candidate that is not excluded. */
  lemma {:induction false} AcceptedIsEligible(q: Request, cs: seq<Candidate>, universe: set<int>)
    requires KnownCandidates(cs, universe)
    ensures forall a | a in AcceptedOf(q, cs) :: a.id in universe && a.id !in q.excluded
  {
    if cs != [] {
      AcceptedIsEligible(q, cs[..|cs| - 1], universe);
    }
  }

  lemma ChosenIsNew(env: Rounds, q: Request, n: nat)
    requires Closed(env)
    ensures var c := Choose(q, env.round(n)); c.Chosen? ==> c.id in env.universe && c.id !in q.excluded
  {
    var r := env.round(n);
    AcceptedIsEligible(q, r.candidates, env.universe);
    SelectedIsAccepted(q, SameLastUsed, r.draws, AcceptedOf(q, r.candidates));
  }

  function Hydrated(hydrates: int -> bool, result: Result): Result {
    if (result.Acquired? || result.Wait?) && !hydrates(result.id) then Refused(Broken) else result
  }

  function Exclude(q: Request, id: int): Request {
    q.(excluded := q.excluded + {id})
  }

  lemma ExclusionShrinks(universe: set<int>, q: Request, id: int)
    requires id in universe && id !in q.excluded
    ensures |universe - Exclude(q, id).excluded| < |universe - q.excluded|
  {
    assert universe - Exclude(q, id).excluded == universe - q.excluded - {id};
  }

  /** The loop from round n on, after the accounts in q.excluded were found busy or ruled out. */
  ghost function WithoutBatching(env: Rounds, q: Request, n: nat, fallback: Option<int>): Result
    requires Closed(env)
    decreases |env.universe - q.excluded|
  {
    var r := env.round(n);
    ChosenIsNew(env, q, n);
    match Choose(q, r)
    case ChoiceFails => Refused(Broken)
    case Nothing(blocked) =>
      if blocked then Refused(NoCompactAccounts)
      else if fallback.Some? then Hydrated(r.hydrates, Wait(fallback.value))
      else Refused(NoAccounts)
    case Chosen(id) =>
      if !env.service || r.grants then Hydrated(r.hydrates, Acquired(id))
      else
        ExclusionShrinks(env.universe, q, id);
        WithoutBatching(env, Exclude(q, id), n + 1, if fallback.Some? then fallback else Some(id))
  }

  // ---- batching: sticky, load-aware, waiting ------------------------------------------------------

  datatype Listed = Listed(id: int, admitted: bool)

  /** One account in the order in which a layer tries it. */
  datatype Probe = Probe(id: int, usable: bool, granted: bool)

  /** What the sticky layer finds: `usable` says the account passed every check before the slot. */
  datatype Sticky = Sticky(id: int, usable: bool, granted: bool)

  datatype Layers = Layers(
    priceRestricted: bool,
    listFails: bool,
    listed: seq<Listed>,
    sticky: Option<Sticky>,
    loads: Option<seq<Probe>>,       // ordered by the load batch, None when reading it fails
    freshLoads: Option<seq<Probe>>,
    ordered: seq<Probe>,             // the order used when the load batch fails
    waiting: seq<Probe>,
    hydrates: int -> bool)

  ghost predicate Ordering(probes: seq<Probe>, ids: set<int>) {
    forall i | 0 <= i < |probes| :: probes[i].id in ids
  }

  /** The candidates of the load-aware layer. */
  ghost function CandidateIds(q: Request, listed: seq<Listed>): set<int> {
    set i | 0 <= i < |listed| && listed[i].admitted && listed[i].id !in q.excluded :: listed[i].id
  }

  /** The orders contain candidates only. */
  ghost predicate Sorted(q: Request, l: Layers) {
    var ids := CandidateIds(q, l.listed);
    && (l.loads.Some? ==> Ordering(l.loads.value, ids))
    && (l.freshLoads.Some? ==> Ordering(l.freshLoads.value, ids))
    && Ordering(l.ordered, ids) && Ordering(l.waiting, ids)
  }

  /** Holds the slots of one request, as the concurrency service sees them. */
  class Slots {
    var held: multiset<int>

    constructor ()
      ensures held == multiset{}
    {
      held := multiset{};
    }

    method TryAcquire(id: int, granted: bool) returns (acquired: bool)
      modifies this
      ensures acquired == granted
      ensures held == if granted then old(held) + multiset{id} else old(held)
    {
      acquired := granted;
      if granted {
        held := held + multiset{id};
      }
    }

    method Release(id: int)
      requires id in held
      modifies this
      ensures held == old(held) - multiset{id}
    {
      held := held - multiset{id};
    }

    /** Turns an acquired slot into a selection, and gives it back when that fails. */
    method NewAcquiredSelection(hydrates: int -> bool, id: int, counted: bool) returns (r: Result)
      requires counted ==> id in held
      modifies this
      ensures r == Hydrated(hydrates, Acquired(id))
      ensures held == if counted && r.Refused? then old(held) - multiset{id} else old(held)
    {
      if !hydrates(id) {
        if counted {
          Release(id);
        }
        return Refused(Broken);
      }
      return Acquired(id);
    }

    /** The loop without load batching. */
    method SelectWithoutBatching(env: Rounds, q0: Request) returns (r: Result)
      requires Closed(env)
      modifies this
      ensures r == WithoutBatching(env, q0, 0, None)
      ensures exists busy: seq<int> :: AllBusy(env, q0, busy) && Concludes(env, q0, busy, r)
      ensures held == old(held) + if r.Acquired? && env.service then multiset{r.id} else multiset{}
    {
      hide Choose, AllBusy, Concludes;
      ghost var _ := LoopExactly(env, q0);
      var q, n, fallback := q0, 0, None;
      while true
        invariant held == old(held)
        invariant WithoutBatching(env, q0, 0, None) == WithoutBatching(env, q, n, fallback)
        decreases |env.universe - q.excluded|
      {
        var round := env.round(n);
        ChosenIsNew(env, q, n);
        var choice := ChooseOnce(q, round);
        if choice.ChoiceFails? {
          return Refused(Broken);
        }
        if choice.Nothing? {
          if choice.compactBlocked {
            return Refused(NoCompactAccounts);
          }
          if fallback.Some? {
            return Hydrated(round.hydrates, Wait(fallback.value));
          }
          return Refused(NoAccounts);
        }
        var id := choice.id;
        if !env.service {
          r := NewAcquiredSelection(round.hydrates, id, false);
          return;
        }
        var acquired := TryAcquire(id, round.grants);
        if acquired {
          r := NewAcquiredSelection(round.hydrates, id, true);
          assert held == old(held) + if r.Acquired? then multiset{id} else multiset{};
          return;
        }
        if fallback.None? {
          fallback := Some(id);
        }
        ExclusionShrinks(env.universe, q, id);
        q, n := Exclude(q, id), n + 1;
      }
    }

    /** Tries the accounts of a layer in order until one grants a slot. */
    method TryInOrder(hydrates: int -> bool, probes: seq<Probe>) returns (r: Option<Result>)
      modifies this
      ensures r == FirstGranted(hydrates, probes)
      ensures r.None? <==> !HasGrant(probes)
      ensures forall i | FirstGrant(probes, i) :: r == Some(Hydrated(hydrates, Acquired(probes[i].id)))
      ensures held == old(held) + Owned(r)
    {
      hide HasGrant, FirstGrant;
      GrantedMeans(hydrates, probes);
      var i := 0;
      while i < |probes|
        invariant i <= |probes| && held == old(held)
        invariant FirstGranted(hydrates, probes) == FirstGranted(hydrates, probes[i..])
      {
        var p := probes[i];
        if p.usable {
          var acquired := TryAcquire(p.id, p.granted);
          if acquired {
            var selection := NewAcquiredSelection(hydrates, p.id, true);
            assert held == old(held) + Owned(Some(selection));
            return Some(selection);
          }
        }
        i := i + 1;
      }
      return None;
    }

    method TrySticky(q: Request, l: Layers) returns (r: Option<Result>)
      modifies this
      ensures r == StickyLayer(q, l)
      ensures held == old(held) + Owned(r)
    {
      if l.sticky.None? || l.sticky.value.id in q.excluded || !l.sticky.value.usable {
        return None;
      }
      var id := l.sticky.value.id;
      var acquired := TryAcquire(id, l.sticky.value.granted);
      if !acquired {
        return None;
      }
      var selection := NewAcquiredSelection(l.hydrates, id, true);
      assert held == old(held) + Owned(Some(selection));
      return Some(selection);
    }

    /** The load-aware layer, retried once with fresh loads. */
    method TryLoads(l: Layers) returns (r: Option<Result>)
      modifies this
      ensures r == LoadAware(l)
      ensures held == old(held) + Owned(r)
    {
      if l.loads.None? {
        r := TryInOrder(l.hydrates, l.ordered);
        return;
      }
      r := TryInOrder(l.hydrates, l.loads.value);
      if r.None? && l.loads.value != [] && l.freshLoads.Some? {
        r := TryInOrder(l.hydrates, l.freshLoads.value);
      }
    }

    /** The three layers. */
    method SelectWithBatching(q: Request, l: Layers) returns (r: Result)
      modifies this
      ensures r == WithBatching(q, l) && Settles(q, l, r)
      ensures held == old(held) + Owned(Some(r))
    {
      hide StickyLayer, LoadAware, AdmittedIds, FirstUsable, Settles;
      LayersExactly(q, l);
      if l.priceRestricted {
        return Refused(NoAccounts);
      }
      if l.listFails {
        return Refused(Broken);
      }
      if l.listed == [] {
        return Refused(NoAccounts);
      }
      var taken := TrySticky(q, l);
      if taken.Some? {
        return taken.value;
      }
      assert held == old(held);
      var candidates := AdmittedIds(q, l.listed);
      if candidates == [] {
        return Refused(NoAccounts);
      }
      taken := TryLoads(l);
      if taken.Some? {
        return taken.value;
      }
      assert held == old(held);
      r := FindWaiting(q, l);
    }
  }

  /** The waiting layer. */
  method FindWaiting(q: Request, l: Layers) returns (r: Result)
    ensures r == WaitingLayer(q, l)
  {
    var i := 0;
    while i < |l.waiting|
      invariant i <= |l.waiting| && FirstUsable(l.waiting) == FirstUsable(l.waiting[i..])
    {
      if l.waiting[i].usable {
        return Hydrated(l.hydrates, Wait(l.waiting[i].id));
      }
      i := i + 1;
    }
    return Refused(if q.compact then NoCompactAccounts else NoAccounts);
  }

  method ChooseOnce(q: Request, r: Round) returns (c: Choice)
    ensures c == Choose(q, r)
  {
    if r.priceRestricted {
      return Nothing(false);
    }
    if r.sticky.Some? && r.sticky.value !in q.excluded {
      return Chosen(r.sticky.value);
    }
    if r.listFails {
      return ChoiceFails;
    }
    var selected, compactBlocked, _ := SelectBestAccount(q, r.candidates, r.draws);
    if selected.None? {
      return Nothing(compactBlocked);
    }
    if !r.hydrates(selected.value.id) {
      return ChoiceFails;
    }
    return Chosen(selected.value.id);
  }

  function Owned(r: Option<Result>): multiset<int> {
    if r.Some? && r.value.Acquired? then multiset{r.value.id} else multiset{}
  }

  function AdmittedIds(q: Request, listed: seq<Listed>): seq<int> {
    if listed == [] then []
    else
      var first := if listed[0].admitted && listed[0].id !in q.excluded then [listed[0].id] else [];
      first + AdmittedIds(q, listed[1..])
  }

  function FirstGranted(hydrates: int -> bool, probes: seq<Probe>): Option<Result> {
    if probes == [] then None
    else if probes[0].usable && probes[0].granted then Some(Hydrated(hydrates, Acquired(probes[0].id)))
    else FirstGranted(hydrates, probes[1..])
  }

  function FirstUsable(probes: seq<Probe>): Option<int> {
    if probes == [] then None else if probes[0].usable then Some(probes[0].id) else FirstUsable(probes[1..])
  }

  function StickyLayer(q: Request, l: Layers): Option<Result> {
    if l.sticky.Some? && l.sticky.value.id !in q.excluded && l.sticky.value.usable && l.sticky.value.granted
    then Some(Hydrated(l.hydrates, Acquired(l.sticky.value.id)))
    else None
  }

  function LoadAware(l: Layers): Option<Result> {
    if l.loads.None? then FirstGranted(l.hydrates, l.ordered)
    else
      var first := FirstGranted(l.hydrates, l.loads.value);
      if first.None? && l.loads.value != [] && l.freshLoads.Some?
      then FirstGranted(l.hydrates, l.freshLoads.value) else first
  }

  function WaitingLayer(q: Request, l: Layers): Result {
    match FirstUsable(l.waiting)
    case Some(id) => Hydrated(l.hydrates, Wait(id))
    case None => Refused(if q.compact then NoCompactAccounts else NoAccounts)
  }

  function WithBatching(q: Request, l: Layers): Result {
    if l.priceRestricted then Refused(NoAccounts)
    else if l.listFails then Refused(Broken)
    else if l.listed == [] then Refused(NoAccounts)
    else if StickyLayer(q, l).Some? then StickyLayer(q, l).value
    else if AdmittedIds(q, l.listed) == [] then Refused(NoAccounts)
    else if LoadAware(l).Some? then LoadAware(l).value
    else WaitingLayer(q, l)
  }

  // ---- which account is taken -----------------------------------------------------------------------

  predicate Grants(p: Probe) {
    p.usable && p.granted
  }

  /** i is the first account of the order that passes its checks and grants a slot. */
  predicate FirstGrant(probes: seq<Probe>, i: int) {
    0 <= i < |probes| && Grants(probes[i]) && forall j | 0 <= j < i :: !Grants(probes[j])
  }

  /** i is the first account of the order that passes its checks. */
  predicate FirstFit(probes: seq<Probe>, i: int) {
    0 <= i < |probes| && probes[i].usable && forall j | 0 <= j < i :: !probes[j].usable
  }

  lemma {:induction false} FirstGrantedExactly(hydrates: int -> bool, probes: seq<Probe>)
    ensures var r := FirstGranted(hydrates, probes);
            && (r.None? <==> forall i | 0 <= i < |probes| :: !Grants(probes[i]))
            && forall i | FirstGrant(probes, i) :: r == Some(Hydrated(hydrates, Acquired(probes[i].id)))
  {
    if probes != [] {
      var rest := probes[1..];
      FirstGrantedExactly(hydrates, rest);
      assert forall i | 0 <= i < |rest| :: rest[i] == probes[i + 1];
      forall i | FirstGrant(probes, i) && i > 0 ensures FirstGrant(rest, i - 1) {
      }
    }
  }

  lemma {:induction false} FirstUsableExactly(probes: seq<Probe>)
    ensures var r := FirstUsable(probes);
            && (r.None? <==> forall i | 0 <= i < |probes| :: !probes[i].usable)
            && forall i | FirstFit(probes, i) :: r == Some(probes[i].id)
  {
    if probes != [] {
      var rest := probes[1..];
      FirstUsableExactly(rest);
      assert forall i | 0 <= i < |rest| :: rest[i] == probes[i + 1];
      forall i | FirstFit(probes, i) && i > 0 ensures FirstFit(rest, i - 1) {
      }
    }
  }

  lemma {:induction false} GrantIsFound(probes: seq<Probe>, i: nat) returns (k: int)
    requires i < |probes| && Grants(probes[i])
    ensures FirstGrant(probes, k)
    decreases i
  {
    if j :| 0 <= j < i && Grants(probes[j]) {
      k := GrantIsFound(probes, j);
    } else {
      k := i;
    }
  }

  lemma {:induction false} FitIsFound(probes: seq<Probe>, i: nat) returns (k: int)
    requires i < |probes| && probes[i].usable
    ensures FirstFit(probes, k)
    decreases i
  {
    if j :| 0 <= j < i && probes[j].usable {
      k := FitIsFound(probes, j);
    } else {
      k := i;
    }
  }

  ghost predicate HasGrant(probes: seq<Probe>) {
    exists i :: FirstGrant(probes, i)
  }

  ghost predicate HasFit(probes: seq<Probe>) {
    exists i :: FirstFit(probes, i)
  }

  /** The order in which the load-aware layer finds its account: that of the loads, that of the fresh loads
      when the first reading granted nothing, or the plain one when the loads cannot be read. */
  ghost function TriedOrder(l: Layers): seq<Probe> {
    if l.loads.None? then l.ordered
    else if HasGrant(l.loads.value) || l.loads.value == [] || l.freshLoads.None? then l.loads.value
    else l.freshLoads.value
  }

  /** The sticky account may be used and grants a slot. */
  predicate StickyGrants(q: Request, l: Layers) {
    l.sticky.Some? && l.sticky.value.id !in q.excluded && l.sticky.value.usable && l.sticky.value.granted
  }

  /** The accounts could be listed, and one of them may be selected. */
  ghost predicate HasCandidate(q: Request, l: Layers) {
    exists i :: 0 <= i < |l.listed| && l.listed[i].admitted && l.listed[i].id !in q.excluded
  }

  predicate CanList(l: Layers) {
    !l.priceRestricted && !l.listFails && l.listed != []
  }

  /** The account that comes to hold the slot: the sticky one if it grants, else the first to grant in the
      order that was tried. */
  ghost predicate Takes(q: Request, l: Layers, id: int) {
    && CanList(l)
    && (if StickyGrants(q, l) then id == l.sticky.value.id
        else HasCandidate(q, l) && exists i :: FirstGrant(TriedOrder(l), i) && TriedOrder(l)[i].id == id)
  }

  /** Nobody grants a slot, and the account is the first that can be waited for. */
  ghost predicate Awaits(q: Request, l: Layers, id: int) {
    && CanList(l) && !StickyGrants(q, l) && HasCandidate(q, l) && !HasGrant(TriedOrder(l))
    && exists i :: FirstFit(l.waiting, i) && l.waiting[i].id == id
  }

  /** Nobody grants a slot and nobody can be waited for. */
  ghost predicate Exhausted(q: Request, l: Layers) {
    && CanList(l) && !StickyGrants(q, l) && HasCandidate(q, l)
    && !HasGrant(TriedOrder(l)) && !HasFit(l.waiting)
  }

  /** The result, by the accounts and what they answer. */
  ghost predicate Settles(q: Request, l: Layers, r: Result) {
    && (forall id :: r == Acquired(id) <==> Takes(q, l, id) && l.hydrates(id))
    && (forall id :: r == Wait(id) <==> Awaits(q, l, id) && l.hydrates(id))
    && (r == Refused(Broken)
        <==> || (!l.priceRestricted && l.listFails)
             || (exists id :: (Takes(q, l, id) || Awaits(q, l, id)) && !l.hydrates(id)))
    && (r == Refused(NoCompactAccounts) <==> Exhausted(q, l) && q.compact)
  }

  lemma OrderIsTried(l: Layers)
    ensures HasGrant(TriedOrder(l)) <==> LoadAware(l).Some?
    ensures forall i | FirstGrant(TriedOrder(l), i) ::
              LoadAware(l) == Some(Hydrated(l.hydrates, Acquired(TriedOrder(l)[i].id)))
  {
    hide FirstGranted, Hydrated;
    GrantedMeans(l.hydrates, l.ordered);
    if l.loads.Some? {
      GrantedMeans(l.hydrates, l.loads.value);
    }
    if l.freshLoads.Some? {
      GrantedMeans(l.hydrates, l.freshLoads.value);
    }
  }

  lemma GrantedMeans(hydrates: int -> bool, probes: seq<Probe>)
    ensures HasGrant(probes) <==> FirstGranted(hydrates, probes).Some?
    ensures forall i | FirstGrant(probes, i) ::
              FirstGranted(hydrates, probes) == Some(Hydrated(hydrates, Acquired(probes[i].id)))
  {
    FirstGrantedExactly(hydrates, probes);
    if FirstGranted(hydrates, probes).Some? {
      var i :| 0 <= i < |probes| && Grants(probes[i]);
      var k := GrantIsFound(probes, i);
    }
  }

  lemma FitMeans(probes: seq<Probe>)
    ensures HasFit(probes) <==> FirstUsable(probes).Some?
    ensures forall i | FirstFit(probes, i) :: FirstUsable(probes) == Some(probes[i].id)
  {
    FirstUsableExactly(probes);
    if FirstUsable(probes).Some? {
      var i :| 0 <= i < |probes| && probes[i].usable;
      var k := FitIsFound(probes, i);
    }
  }

  lemma {:induction false} CandidatesExactly(q: Request, listed: seq<Listed>)
    ensures AdmittedIds(q, listed) != []
            <==> exists i :: 0 <= i < |listed| && listed[i].admitted && listed[i].id !in q.excluded
  {
    if listed != [] {
      var rest := listed[1..];
      CandidatesExactly(q, rest);
      if i :| 0 <= i < |rest| && rest[i].admitted && rest[i].id !in q.excluded {
        assert listed[i + 1].admitted && listed[i + 1].id !in q.excluded;
      }
      if i :| 0 < i < |listed| && listed[i].admitted && listed[i].id !in q.excluded {
        assert rest[i - 1].admitted && rest[i - 1].id !in q.excluded;
      }
    }
  }

  /** Through the three layers: a sticky account that grants is taken; else the first account to grant a slot
      in the order that was tried; else the caller waits for the first account that can be waited for. */
  lemma LayersExactly(q: Request, l: Layers)
    ensures Settles(q, l, WithBatching(q, l))
  {
    hide LoadAware, FirstUsable, AdmittedIds, TriedOrder, FirstGrant, FirstFit;
    CandidatesExactly(q, l.listed);
    OrderIsTried(l);
    FitMeans(l.waiting);
  }

  // ---- the loop without batching ----------------------------------------------------------------------

  /** The request after the accounts in `busy` were set aside. */
  function After(q: Request, busy: seq<int>): Request {
    q.(excluded := q.excluded + set i | 0 <= i < |busy| :: busy[i])
  }

  /** Round by round, these accounts were chosen and had no slot to grant. */
  ghost predicate AllBusy(env: Rounds, q: Request, busy: seq<int>) {
    (busy != [] ==> env.service)
    && forall k | 0 <= k < |busy| ::
         Choose(After(q, busy[..k]), env.round(k)) == Chosen(busy[k]) && !env.round(k).grants
  }

  /** The result after the last choice: its slot, a place in the queue of the first account that was busy,
      or an error. */
  ghost predicate Concludes(env: Rounds, q: Request, busy: seq<int>, r: Result) {
    var round := env.round(|busy|);
    match Choose(After(q, busy), round)
    case ChoiceFails => r == Refused(Broken)
    case Nothing(blocked) =>
      && (r == Refused(NoCompactAccounts) <==> blocked)
      && (r == Refused(NoAccounts) <==> !blocked && busy == [])
      && (forall id :: r == Wait(id) <==> !blocked && busy != [] && id == busy[0] && round.hydrates(id))
    case Chosen(id) =>
      && (!env.service || round.grants)
      && r == if round.hydrates(id) then Acquired(id) else Refused(Broken)
  }

  lemma AfterOneMore(q: Request, busy: seq<int>, id: int)
    ensures After(q, busy + [id]) == Exclude(After(q, busy), id)
  {
    var more := busy + [id];
    assert (set i | 0 <= i < |more| :: more[i]) == (set i | 0 <= i < |busy| :: busy[i]) + {id} by {
      assert more[|busy|] == id && forall i | 0 <= i < |busy| :: more[i] == busy[i];
    }
  }

  lemma OneMoreBusy(env: Rounds, q: Request, busy: seq<int>, id: int)
    requires AllBusy(env, q, busy) && env.service && !env.round(|busy|).grants
    requires Choose(After(q, busy), env.round(|busy|)) == Chosen(id)
    ensures AllBusy(env, q, busy + [id])
  {
    hide Choose, After;
    var more := busy + [id];
    assert more[..|busy|] == busy && forall k | 0 <= k < |busy| :: more[..k] == busy[..k] && more[k] == busy[k];
  }

  function FirstOf(busy: seq<int>): Option<int> {
    if busy == [] then None else Some(busy[0])
  }

  lemma LoopStops(env: Rounds, q: Request, busy: seq<int>)
    requires Closed(env)
    requires var round := env.round(|busy|);
             Choose(After(q, busy), round).Chosen? ==> !env.service || round.grants
    ensures Concludes(env, q, busy, WithoutBatching(env, After(q, busy), |busy|, FirstOf(busy)))
  {
    hide Choose, After;
  }

  lemma {:induction false} LoopConcludes(env: Rounds, q: Request, busy: seq<int>) returns (all: seq<int>)
    requires Closed(env) && AllBusy(env, q, busy)
    ensures AllBusy(env, q, all)
    ensures Concludes(env, q, all, WithoutBatching(env, After(q, busy), |busy|, FirstOf(busy)))
    decreases |env.universe - After(q, busy).excluded|
  {
    hide Choose, After, AllBusy, Concludes;
    var now, round := After(q, busy), env.round(|busy|);
    var c := Choose(now, round);
    if c.Chosen? && env.service && !round.grants {
      ChosenIsNew(env, now, |busy|);
      ExclusionShrinks(env.universe, now, c.id);
      AfterOneMore(q, busy, c.id);
      OneMoreBusy(env, q, busy, c.id);
      assert FirstOf(busy + [c.id]) == if busy == [] then Some(c.id) else FirstOf(busy);
      all := LoopConcludes(env, q, busy + [c.id]);
    } else {
      all := busy;
      LoopStops(env, q, busy);
    }
  }

  /** Every run of the loop: some accounts are chosen in vain, each set aside for the next round, and the
      first choice after them settles the result. */
  lemma LoopExactly(env: Rounds, q: Request) returns (busy: seq<int>)
    requires Closed(env)
    ensures AllBusy(env, q, busy) && Concludes(env, q, busy, WithoutBatching(env, q, 0, None))
  {
    assert After(q, []) == q;
    busy := LoopConcludes(env, q, []);
  }

  /** Whom a round chooses: the sticky account as long as it was not set aside, else the best account. */
  lemma ChoiceExactly(q: Request, r: Round)
    ensures var bound := r.sticky.Some? && r.sticky.value !in q.excluded;
            var best := Selected(q, r);
            && (forall id :: Choose(q, r) == Chosen(id)
                             <==> && !r.priceRestricted
                                  && (if bound then id == r.sticky.value
                                      else !r.listFails && best.Some? && id == best.value.id && r.hydrates(id)))
            && (Choose(q, r).ChoiceFails?
                <==> && !r.priceRestricted && !bound
                     && (r.listFails || (best.Some? && !r.hydrates(best.value.id))))
            && (Choose(q, r) == Nothing(true)
                <==> !r.priceRestricted && !bound && !r.listFails && best.None? && AnyBlocked(q, r.candidates))
  {
    hide Selected;
  }

  // ---- what the scheduler never does ---------------------------------------------------------------

  predicate Avoids(r: Result, excluded: set<int>) {
    !r.Refused? ==> r.id !in excluded
  }

  lemma {:induction false} FirstIsAmong(hydrates: int -> bool, probes: seq<Probe>, ids: set<int>)
    requires Ordering(probes, ids)
    ensures FirstGranted(hydrates, probes).Some? && !FirstGranted(hydrates, probes).value.Refused? ==>
              FirstGranted(hydrates, probes).value.id in ids
    ensures FirstUsable(probes).Some? ==> FirstUsable(probes).value in ids
  {
    if probes != [] {
      FirstIsAmong(hydrates, probes[1..], ids);
    }
  }

  /** An excluded account is neither selected nor waited for, in any layer. */
  lemma BatchingAvoidsExcluded(q: Request, l: Layers)
    requires Sorted(q, l)
    ensures Avoids(WithBatching(q, l), q.excluded)
  {
    var ids := CandidateIds(q, l.listed);
    FirstIsAmong(l.hydrates, l.ordered, ids);
    FirstIsAmong(l.hydrates, l.waiting, ids);
    if l.loads.Some? {
      FirstIsAmong(l.hydrates, l.loads.value, ids);
    }
    if l.freshLoads.Some? {
      FirstIsAmong(l.hydrates, l.freshLoads.value, ids);
    }
  }

  lemma {:induction false} LoopAvoidsExcluded(
      env: Rounds, q: Request, n: nat, fallback: Option<int>, excluded: set<int>)
    requires Closed(env) && excluded <= q.excluded && (fallback.Some? ==> fallback.value !in excluded)
    ensures Avoids(WithoutBatching(env, q, n, fallback), excluded)
    decreases |env.universe - q.excluded|
  {
    hide Choose;
    ChosenIsNew(env, q, n);
    var c := Choose(q, env.round(n));
    if c.Chosen? && env.service && !env.round(n).grants {
      ExclusionShrinks(env.universe, q, c.id);
      LoopAvoidsExcluded(env, Exclude(q, c.id), n + 1, if fallback.Some? then fallback else Some(c.id), excluded);
    }
  }

  // ---- when everybody is busy ------------------------------------------------------------------------

  /** A pool that does not change while all its accounts are busy. */
  ghost predicate Busy(env: Rounds, cs: seq<Candidate>) {
    && Closed(env) && env.service
    && forall n: nat {:trigger env.round(n)} ::
         var r := env.round(n);
         && !r.priceRestricted && r.sticky.None? && !r.listFails && r.candidates == cs
         && !r.grants && forall id :: r.hydrates(id)
  }

  ghost predicate AnyBlocked(q: Request, cs: seq<Candidate>) {
    exists i :: 0 <= i < |cs| && Judge(q, cs[i]).Blocked?
  }

  ghost predicate DistinctIds(cs: seq<Candidate>) {
    forall i, j | 0 <= i < j < |cs| :: cs[i].id != cs[j].id
  }

  lemma {:induction false} AcceptedComesFrom(q: Request, cs: seq<Candidate>, a: Account)
    requires a in AcceptedOf(q, cs)
    ensures exists i :: 0 <= i < |cs| && Judge(q, cs[i]) == Accepted(a)
  {
    var last := |cs| - 1;
    if Judge(q, cs[last]) != Accepted(a) {
      AcceptedComesFrom(q, cs[..last], a);
      var i :| 0 <= i < last && Judge(q, cs[..last][i]) == Accepted(a);
      assert Judge(q, cs[i]) == Accepted(a);
    }
  }

  /** Setting a busy account aside does not hide an account without compact support. */
  lemma BlockedStaysBlocked(q: Request, cs: seq<Candidate>, universe: set<int>, a: Account)
    requires KnownCandidates(cs, universe) && DistinctIds(cs) && a in AcceptedOf(q, cs)
    ensures AnyBlocked(Exclude(q, a.id), cs) <==> AnyBlocked(q, cs)
  {
    AcceptedComesFrom(q, cs, a);
    var k :| 0 <= k < |cs| && Judge(q, cs[k]) == Accepted(a);
    if AnyBlocked(q, cs) {
      var i :| 0 <= i < |cs| && Judge(q, cs[i]).Blocked?;
      assert Judge(Exclude(q, a.id), cs[i]).Blocked?;
    }
    if AnyBlocked(Exclude(q, a.id), cs) {
      var i :| 0 <= i < |cs| && Judge(Exclude(q, a.id), cs[i]).Blocked?;
      assert Judge(q, cs[i]).Blocked?;
    }
  }

  /** When every account is busy, the caller is told to wait for the first choice exactly when no
      candidate was passed over for lacking compact support: then the error hides the wait plan. */
  lemma {:induction false} BusyPoolWaitsExactly(
      env: Rounds, q: Request, n: nat, cs: seq<Candidate>, fallback: Option<int>)
    requires Busy(env, cs) && DistinctIds(cs)
    requires fallback.Some? || AcceptedOf(q, cs) != []
    ensures var r := WithoutBatching(env, q, n, fallback);
            if AnyBlocked(q, cs) then r == Refused(NoCompactAccounts)
            else if fallback.Some? then r == Wait(fallback.value)
            else Selected(q, env.round(n)).Some? && r == Wait(Selected(q, env.round(n)).value.id)
    decreases |env.universe - q.excluded|
  {
    hide Fold, AcceptedOf, Judge;
    var r := env.round(n);
    SelectedIsAccepted(q, SameLastUsed, r.draws, AcceptedOf(q, cs));
    ChosenIsNew(env, q, n);
    var c := Choose(q, r);
    if c.Chosen? {
      ExclusionShrinks(env.universe, q, c.id);
      BlockedStaysBlocked(q, cs, env.universe, Selected(q, r).value);
      BusyPoolWaitsExactly(env, Exclude(q, c.id), n + 1, cs, if fallback.Some? then fallback else Some(c.id));
    }
  }
}
