/** Counting the ideal choices of a reservoir that keeps one of k equally ranked candidates: the
    i-th candidate draws a number below i + 1 and takes the place when it draws zero. */
module Reservoir {
  type Vector = seq<nat>

  function Factorial(k: nat): nat {
    if k == 0 then 1 else k * Factorial(k - 1)
  }

  function Append(s: set<Vector>, r: nat): set<Vector> {
    set v | v in s :: v + [r]
  }

  /** Every way to extend the vectors of s by a number in [low, n). */
  function Extend(s: set<Vector>, low: nat, n: nat): set<Vector> {
    if n <= low then {} else Extend(s, low, n - 1) + Append(s, n - 1)
  }

  /** The ideal choice vectors of k candidates. */
  function Vectors(k: nat): set<Vector> {
    if k == 0 then {[]} else Extend(Vectors(k - 1), 0, k)
  }

  /** The candidate that a vector lets through: the last one that drew zero. */
  function LastZero(v: Vector): nat {
    if |v| <= 1 then 0
    else if v[|v| - 1] == 0 then |v| - 1
    else LastZero(v[..|v| - 1])
  }

  predicate Extends(w: Vector, s: set<Vector>) {
    |w| > 0 && w[..|w| - 1] in s
  }

  lemma InAppend(s: set<Vector>, r: nat)
    ensures forall w :: w in Append(s, r) <==> Extends(w, s) && w[|w| - 1] == r
  {
    forall w ensures w in Append(s, r) <==> Extends(w, s) && w[|w| - 1] == r {
      if w in Append(s, r) {
        var v :| v in s && w == v + [r];
        assert w[..|w| - 1] == v;
      }
      if Extends(w, s) && w[|w| - 1] == r {
        assert w == w[..|w| - 1] + [r];
      }
    }
  }

  lemma {:induction false} InExtend(s: set<Vector>, low: nat, n: nat)
    ensures forall w :: w in Extend(s, low, n) <==> Extends(w, s) && low <= w[|w| - 1] < n
  {
    if n > low {
      InExtend(s, low, n - 1);
      InAppend(s, n - 1);
    }
  }

  lemma {:induction false} AppendSize(s: set<Vector>, r: nat)
    ensures |Append(s, r)| == |s|
  {
    if s != {} {
      var x :| x in s;
      AppendSize(s - {x}, r);
      InAppend(s - {x}, r);
      assert (x + [r])[..|x|] == x;
      assert Append(s, r) == Append(s - {x}, r) + {x + [r]};
    }
  }

  lemma {:induction false} ExtendSize(s: set<Vector>, low: nat, n: nat)
    ensures |Extend(s, low, n)| == if n <= low then 0 else |s| * (n - low)
  {
    hide Append;
    if n > low {
      ExtendSize(s, low, n - 1);
      AppendSize(s, n - 1);
      InExtend(s, low, n - 1);
      InAppend(s, n - 1);
      assert Extend(s, low, n - 1) !! Append(s, n - 1);
      assert |s| * (n - low) == |s| * (n - 1 - low) + |s|;
    }
  }

  lemma {:induction false} VectorCount(k: nat)
    ensures |Vectors(k)| == Factorial(k)
    ensures forall v :: v in Vectors(k) ==> |v| == k && forall i | 0 <= i < k :: v[i] <= i
  {
    hide Extend;
    if k > 0 {
      VectorCount(k - 1);
      ExtendSize(Vectors(k - 1), 0, k);
      InExtend(Vectors(k - 1), 0, k);
      forall v | v in Vectors(k) ensures |v| == k && forall i | 0 <= i < k :: v[i] <= i {
        var init := v[..|v| - 1];
        assert init in Vectors(k - 1);
        assert forall i | 0 <= i < k - 1 :: v[i] == init[i];
      }
    }
  }

  ghost function Choosing(k: nat, j: nat): set<Vector> {
    set v | v in Vectors(k) && LastZero(v) == j
  }

  lemma {:induction false} LastZeroBelow(v: Vector)
    ensures |v| > 0 ==> LastZero(v) < |v|
  {
    if |v| > 1 {
      LastZeroBelow(v[..|v| - 1]);
    }
  }

  /** The last candidate takes the place when it draws zero. */
  lemma LastChosen(k: nat)
    requires k > 1
    ensures Choosing(k, k - 1) == Append(Vectors(k - 1), 0)
  {
    hide Extend, Append;
    VectorCount(k - 1);
    InExtend(Vectors(k - 1), 0, k);
    InAppend(Vectors(k - 1), 0);
    forall w | Extends(w, Vectors(k - 1)) ensures LastZero(w) == k - 1 <==> w[|w| - 1] == 0 {
      LastZeroBelow(w[..|w| - 1]);
    }
  }

  /** An earlier one keeps it when the last draws anything else. */
  lemma EarlierChosen(k: nat, j: nat)
    requires k > 1 && j < k - 1
    ensures Choosing(k, j) == Extend(Choosing(k - 1, j), 1, k)
  {
    hide Extend, Append;
    VectorCount(k - 1);
    InExtend(Vectors(k - 1), 0, k);
    InExtend(Choosing(k - 1, j), 1, k);
  }

  /** Each of k candidates is let through by (k - 1)! of the k! ideal vectors. */
  lemma {:induction false} EachCandidateEquallyOften(k: nat, j: nat)
    requires j < k
    ensures |Choosing(k, j)| == Factorial(k - 1)
    ensures |Vectors(k)| == Factorial(k)
  {
    hide Extend, Append, Choosing;
    VectorCount(k);
    if k == 1 {
      OnlyCandidate();
    } else if j == k - 1 {
      LastChosen(k);
      VectorCount(k - 1);
      AppendSize(Vectors(k - 1), 0);
    } else {
      EachCandidateEquallyOften(k - 1, j);
      EarlierChosen(k, j);
      ExtendSize(Choosing(k - 1, j), 1, k);
    }
  }

  lemma OnlyCandidate()
    ensures |Choosing(1, 0)| == Factorial(0)
  {
    VectorCount(1);
    InExtend(Vectors(0), 0, 1);
    forall v ensures v in Choosing(1, 0) <==> v == [0] {
      assert [0][..0] == [];
    }
    assert Choosing(1, 0) == {[0]};
  }
}
