/** The synergistic-efficacy coefficient beta of the N-drug model: for a
    state with at least two drugs, the relative change in maximal effect
    from its reference parent (the state with its lowest-numbered drug
    removed) to the state itself, measured against the drug-free effect. */
module Synergy {
  import opened Numbers
  import opened StateSpace
  import opened Labels

  /** A member of a strictly increasing list is at least its head. */
  lemma HeadIsLeast(xs: seq<nat>, x: nat)
    requires StrictlyIncreasing(xs) && x in xs
    ensures xs[0] <= x
  {
    var j :| 0 <= j < |xs| && xs[j] == x;
    if j > 0 {
      assert xs[0] < xs[j];
    }
  }

  /** Drug d (1-based) is engaged in s. */
  predicate Engaged(s: State, d: nat)
  {
    1 <= d <= |s| && s[|s| - d] == 1
  }

  /** The lowest-numbered drug engaged in s: engaged, and no lower drug is. */
  function LowestDrug(s: State): (m: nat)
    requires Popcount(s) >= 1
    ensures Engaged(s, m)
    ensures forall x :: Engaged(s, x) ==> m <= x
  {
    NoDrugs(s);
    DrugsOfSpec(s);
    LowestDrugIsHead(s);
    assert DrugsOf(s)[0] in DrugsOf(s);
    DrugsOf(s)[0]
  }

  lemma LowestDrugIsHead(s: State)
    requires DrugsOf(s) != []
    ensures forall x :: Engaged(s, x) ==> DrugsOf(s)[0] <= x
  {
    DrugsOfSpec(s);
    forall x | Engaged(s, x)
      ensures DrugsOf(s)[0] <= x
    {
      HeadIsLeast(DrugsOf(s), x);
    }
  }

  /** Clearing an engaged position removes exactly one drug. */
  lemma PopcountClear(s: State, p: nat)
    requires p < |s| && s[p] == 1
    ensures Popcount(s[p := 0]) + 1 == Popcount(s)
  {
    var t := s[p := 0];
    assert s == (s[..p] + [1]) + s[p + 1..];
    assert t == (s[..p] + [0]) + s[p + 1..];
    PopcountAppend(s[..p] + [1], s[p + 1..]);
    PopcountAppend(s[..p], [1]);
    PopcountAppend(s[..p] + [0], s[p + 1..]);
    PopcountAppend(s[..p], [0]);
    assert Popcount([1]) == 1 && Popcount([0]) == 0;
  }

  /** The reference parent of s: s with its lowest-numbered drug m removed,
      one drug fewer and 2^(m-1) below s in index order. */
  function Parent(s: State): (p: State)
    requires Popcount(s) >= 1
    ensures |p| == |s| && Popcount(p) + 1 == Popcount(s)
    ensures Index(p) + Pow2(LowestDrug(s) - 1) == Index(s)
  {
    var m := LowestDrug(s);
    IndexUpdate(s, |s| - m, 0);
    PopcountClear(s, |s| - m);
    assert |s| - 1 - (|s| - m) == m - 1;
    s[|s| - m := 0]
  }

  /** The reference parent is the last remove edge of the state's
      neighbours: the remove list runs by decreasing drug, so its last edge
      removes the lowest-numbered drug. */
  lemma ParentIsLastRemoveEdge(s: State)
    requires Popcount(s) >= 1
    ensures Neighbors(Index(s), |s|).1 != []
    ensures var remove := Neighbors(Index(s), |s|).1;
      remove[|remove| - 1] == (LowestDrug(s) - 1, Index(Parent(s)))
  {
    var idx, n, m := Index(s), |s|, LowestDrug(s);
    LowestSetBit(s, m);
    LastRemoveEdge(idx, n, m - 1, Index(Parent(s)));
  }

  /** Drug m engaged and no lower one is, read on the index: bit m-1 is set
      and no lower bit is. */
  lemma LowestSetBit(s: State, m: nat)
    requires Engaged(s, m) && forall x :: Engaged(s, x) ==> m <= x
    ensures TestBit(Index(s), m - 1) == 1
    ensures forall j: nat :: j < |s| && TestBit(Index(s), j) == 1 ==> m - 1 <= j
  {
    var idx, n := Index(s), |s|;
    BitsOfIndex(s);
    BitIsEntry(idx, n, m - 1);
    assert n - 1 - (m - 1) == n - m;
    forall j: nat | j < n && TestBit(idx, j) == 1
      ensures m - 1 <= j
    {
      BitIsEntry(idx, n, j);
      assert Engaged(s, j + 1);
    }
  }

  /** The lowest set bit k of idx gives the last remove edge. */
  lemma LastRemoveEdge(idx: nat, n: nat, k: nat, c: nat)
    requires k < n && TestBit(idx, k) == 1 && c + Pow2(k) == idx
    requires forall j: nat :: j < n && TestBit(idx, j) == 1 ==> k <= j
    ensures RemoveEdges(idx, n) != [] && RemoveEdges(idx, n)[|RemoveEdges(idx, n)| - 1] == (k, c)
  {
    var remove := RemoveEdges(idx, n);
    RemoveEdgesMembers(idx, n);
    assert (k, c) in remove;
    var i :| 0 <= i < |remove| && remove[i] == (k, c);
    var last := |remove| - 1;
    var k0, c0 := remove[last].0, remove[last].1;
    assert (k0, c0) in remove;
  }

  /** `_get_beta` on the vector e of E parameters in state-index order:
      not-a-number for a state with fewer than two drugs; otherwise the
      ratio (E_parent - E_S) / (E_0 - E_parent) under IEEE division. When
      the parent's effect differs from the drug-free effect, the state's own
      effect is recovered from beta; otherwise beta is not finite. */
  function Beta(e: seq<real>, s: State): (r: Num)
    requires Index(s) < |e|
    ensures Popcount(s) < 2 ==> r == NaN
    ensures Popcount(s) >= 2 ==>
      var e0, eP, eS := e[0], e[Index(Parent(s))], e[Index(s)];
      && (e0 != eP ==> r.Fin? && eS == Combined(e0, eP, r.r))
      && (e0 == eP ==> (r == NaN <==> eS == eP) && (r == PosInf <==> eS < eP))
  {
    if Popcount(s) < 2 then NaN
    else
      var p := Index(Parent(s));
      Div(e[p] - e[Index(s)], e[0] - e[p])
  }

  /** The effect of a combination whose reference parent has effect eP,
      given the drug-free effect e0 and the synergistic efficacy beta. */
  function Combined(e0: real, eP: real, beta: real): (eS: real)
    ensures beta == 0.0 ==> eS == eP
  {
    eP - beta * (e0 - eP)
  }

  /** Beta and Combined are inverse: an E vector built from a beta gives
      that beta back. */
  lemma {:induction false} BetaOfCombined(e: seq<real>, s: State, beta: real)
    requires Index(s) < |e| && Popcount(s) >= 2
    requires e[0] != e[Index(Parent(s))]
    requires e[Index(s)] == Combined(e[0], e[Index(Parent(s))], beta)
    ensures Beta(e, s) == Fin(beta)
  {
    var d := e[0] - e[Index(Parent(s))];
    assert Beta(e, s).r * d == beta * d;
  }

  /** When the parent lowers the effect below the drug-free level, beta is
      positive exactly when the combination lowers it further, and zero
      exactly when adding the extra drug changes nothing. */
  lemma BetaSign(e: seq<real>, s: State)
    requires Index(s) < |e| && Popcount(s) >= 2
    requires e[Index(Parent(s))] < e[0]
    ensures Beta(e, s).Fin?
    ensures Beta(e, s).r > 0.0 <==> e[Index(s)] < e[Index(Parent(s))]
    ensures Beta(e, s).r == 0.0 <==> e[Index(s)] == e[Index(Parent(s))]
  {
    var eP, eS := e[Index(Parent(s))], e[Index(s)];
    var b := Beta(e, s).r;
    assert eS == eP - b * (e[0] - eP);
    if b > 0.0 {
      assert b * (e[0] - eP) > 0.0;
    }
    if eS < eP {
      assert b * (e[0] - eP) > 0.0;
    }
  }

  /** The E vector of the three-drug test, in state-index order. */
  lemma ThreeDrugBetas(e: seq<real>)
    requires e == [1.0, 0.6, 0.5, 0.7, 0.2, 0.2, 0.15, 0.0]
    ensures Beta(e, [0, 1, 1]) == Fin(-0.4)
    ensures Beta(e, [1, 0, 1]) == Fin(0.0)
    ensures Beta(e, [1, 1, 0]) == Fin(0.0625)
    ensures Beta(e, [1, 1, 1]) == Fin(3.0 / 17.0)
    ensures Beta(e, [0, 0, 0]) == NaN && Beta(e, [0, 0, 1]) == NaN
    ensures Beta(e, [0, 1, 0]) == NaN && Beta(e, [1, 0, 0]) == NaN
  {
    ThreeDrugBits();
    ThreeDrugLists();
    ParentOf(e, [0, 1, 1], 3, [0, 1, 0], 2, 1);
    ParentOf(e, [1, 0, 1], 5, [1, 0, 0], 4, 1);
    ParentOf(e, [1, 1, 0], 6, [1, 0, 0], 4, 2);
    ParentOf(e, [1, 1, 1], 7, [1, 1, 0], 6, 1);
    SmallStates();
  }

  /** For a three-drug state of index i whose drugs start at m, with at
      least two of them, and the state p of index j = i - 2^(m-1): p is the
      reference parent and beta compares E at i and j. */
  lemma ParentOf(e: seq<real>, s: State, i: nat, p: State, j: nat, m: nat)
    requires |e| == 8 && i < 8 && j < 8 && 1 <= m <= 3
    requires Bits(i, 3) == s && Bits(j, 3) == p
    requires |DrugsOf(s)| >= 2 && DrugsOf(s)[0] == m && p == s[3 - m := 0]
    ensures Beta(e, s) == Div(e[j] - e[i], e[0] - e[j])
  {
    IndexOfBits(i, 3);
    IndexOfBits(j, 3);
    DrugsOfSpec(s);
    NoDrugs(s);
    DrugCount(s);
  }

  /** The drug lists of the three-drug states with two or more drugs. */
  lemma ThreeDrugLists()
    ensures DrugsOf([0, 1, 1]) == [1, 2] && DrugsOf([1, 0, 1]) == [1, 3]
    ensures DrugsOf([1, 1, 0]) == [2, 3] && DrugsOf([1, 1, 1]) == [1, 2, 3]
  {
  }

  /** The three-drug states with fewer than two drugs. */
  lemma SmallStates()
    ensures Popcount([0, 0, 0]) == 0 && Popcount([0, 0, 1]) == 1
    ensures Popcount([0, 1, 0]) == 1 && Popcount([1, 0, 0]) == 1
    ensures Index([0, 0, 0]) == 0 && Index([0, 0, 1]) == 1 && Index([0, 1, 0]) == 2 && Index([1, 0, 0]) == 4
  {
    ThreeDrugBits();
    IndexOfBits(0, 3); IndexOfBits(1, 3); IndexOfBits(2, 3); IndexOfBits(4, 3);
  }
}
