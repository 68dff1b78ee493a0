/** The parameter registry of the N-drug MuSyC model: how many parameters of
    each family there are, their canonical names and order, and their
    fitting bounds resolved from a map of bound overrides. */
module Registry {
  import opened Numbers
  import opened StateSpace
  import opened Labels

  /** The parameter families: effects E, Hill slopes h, potencies C and the
      potency shifts alpha of the edges with a non-empty parent. */
  datatype Family = Effect | HillSlope | Potency | Alpha

  function FamilyName(f: Family): string
  {
    match f
    case Effect => "E"
    case HillSlope => "h"
    case Potency => "C"
    case Alpha => "alpha"
  }

  /** h, C and alpha are fitted in log space: their bounds are stored as the
      logarithm of the bounds given. */
  predicate LogScaled(f: Family)
  {
    f != Effect
  }

  datatype Param = Param(family: Family, name: string)

  /** The E name of a state: "E_" and its drug string, "E_0" for the origin. */
  function EName(s: State): string
  {
    var drugs := DrugString(s);
    "E_" + (if drugs == "" then "0" else drugs)
  }

  /** One E parameter per state, in state-index order. */
  function EParams(n: nat): (ps: seq<Param>)
    ensures |ps| == Pow2(n)
  {
    seq(Pow2(n), i requires 0 <= i < Pow2(n) => Param(Effect, EName(Bits(i, n))))
  }

  /** h_1, ..., h_n. */
  function HParams(n: nat): (ps: seq<Param>)
    ensures |ps| == n
  {
    seq(n, i requires 0 <= i < n => Param(HillSlope, "h_" + NatToString(i + 1)))
  }

  /** C_1, ..., C_n. */
  function CParams(n: nat): (ps: seq<Param>)
    ensures |ps| == n
  {
    seq(n, i requires 0 <= i < n => Param(Potency, "C_" + NatToString(i + 1)))
  }

  /** The alpha parameters of the edges leaving state s by engaging the drug
      at a clear list position p, p, p+1, ... (so in decreasing drug
      number); each is named "alpha_" and the edge string. */
  function AlphaFrom(s: State, p: nat): seq<Param>
    decreases |s| - p
  {
    if p >= |s| then []
    else (if s[p] == 0 then [Param(Alpha, "alpha_" + EdgeString(s, s[p := 1]))] else []) + AlphaFrom(s, p + 1)
  }

  /** The alpha parameters of the parent states idx, idx+1, ..., 2^n - 1. */
  function AlphaParamsFrom(idx: nat, n: nat): seq<Param>
    decreases Pow2(n) - idx
  {
    if idx >= Pow2(n) then [] else AlphaFrom(Bits(idx, n), 0) + AlphaParamsFrom(idx + 1, n)
  }

  /** The alpha parameters, grouped by increasing parent index; the origin
      is skipped, its edges being the single-drug Hill curves. */
  function AlphaParams(n: nat): seq<Param>
  {
    AlphaParamsFrom(1, n)
  }

  /** The full parameter layout: E, then h, then C, then alpha. */
  function Params(n: nat): seq<Param>
  {
    EParams(n) + HParams(n) + CParams(n) + AlphaParams(n)
  }

  /** The names of a list of parameters, in order. */
  function Names(ps: seq<Param>): (names: seq<string>)
    ensures |names| == |ps|
  {
    seq(|ps|, i requires 0 <= i < |ps| => ps[i].name)
  }

  /** `_parameter_names`: the names of the E, h, C and alpha families back
      to back, one per counted parameter. */
  function ParameterNames(n: nat): (names: seq<string>)
    ensures |names| == NumEParams(n) + NumHParams(n) + NumCParams(n) + NumAlphaParams(n)
  {
    Names(Params(n))
  }

  // ---- Counting the parameters ----

  /** The number of clear list positions p, p+1, ... of s. */
  function ZerosFrom(s: State, p: nat): nat
    decreases |s| - p
  {
    if p >= |s| then 0 else (if s[p] == 0 then 1 else 0) + ZerosFrom(s, p + 1)
  }

  lemma {:induction false} AlphaFromCount(s: State, p: nat)
    requires p <= |s|
    ensures |AlphaFrom(s, p)| == ZerosFrom(s, p)
    ensures ZerosFrom(s, p) + Popcount(s[p..]) == |s| - p
    decreases |s| - p
  {
    if p < |s| {
      AlphaFromCount(s, p + 1);
      PopcountAppend([s[p]], s[p + 1..]);
      assert s[p..] == [s[p]] + s[p + 1..];
      assert [s[p]][..0] == [];
    } else {
      assert s[p..] == [];
    }
  }

  /** The number of clear bits of the n-bit state idx. */
  function Zeros(n: nat): nat -> nat
  {
    idx => n - Popcount(Bits(idx, n))
  }

  /** f(lo) + ... + f(hi - 1). */
  ghost function Sum(f: nat -> nat, lo: nat, hi: nat): nat
    decreases hi - lo
  {
    if lo >= hi then 0 else f(lo) + Sum(f, lo + 1, hi)
  }

  lemma {:induction false} AlphaParamsFromCount(idx: nat, n: nat)
    ensures |AlphaParamsFrom(idx, n)| == Sum(Zeros(n), idx, Pow2(n))
    decreases Pow2(n) - idx
  {
    if idx < Pow2(n) {
      AlphaParamsFromCount(idx + 1, n);
      AlphaFromCount(Bits(idx, n), 0);
      assert Bits(idx, n)[0..] == Bits(idx, n);
    }
  }

  lemma {:induction false} SumLast(f: nat -> nat, lo: nat, hi: nat)
    requires lo <= hi
    ensures Sum(f, lo, hi + 1) == Sum(f, lo, hi) + f(hi)
    decreases hi - lo
  {
    if lo < hi {
      SumLast(f, lo + 1, hi);
    }
  }

  /** Summing f over 0 .. 2m - 1 in pairs, when f(2j) = g(j) + 1 and
      f(2j + 1) = g(j). */
  lemma {:induction false} SumPairs(f: nat -> nat, g: nat -> nat, m: nat)
    requires forall j: nat :: j < m ==> f(2 * j) == g(j) + 1 && f(2 * j + 1) == g(j)
    ensures Sum(f, 0, 2 * m) == 2 * Sum(g, 0, m) + m
  {
    if m > 0 {
      var j := m - 1;
      SumPairs(f, g, j);
      SumLast(f, 0, 2 * j);
      SumLast(f, 0, 2 * j + 1);
      SumLast(g, 0, j);
      assert f(2 * j) == g(j) + 1 && f(2 * j + 1) == g(j);
      assert 2 * j + 1 + 1 == 2 * m;
    }
  }

  /** The n-bit states 2j and 2j+1 are the (n-1)-bit state j followed by a
      clear and by a set bit. */
  lemma PairZeros(n: nat, j: nat)
    requires n >= 1
    ensures Zeros(n)(2 * j) == Zeros(n - 1)(j) + 1
    ensures Zeros(n)(2 * j + 1) == Zeros(n - 1)(j)
  {
    assert (2 * j) / 2 == j && (2 * j) % 2 == 0;
    assert (2 * j + 1) / 2 == j && (2 * j + 1) % 2 == 1;
    assert Bits(2 * j, n) == Bits(j, n - 1) + [0];
    assert Bits(2 * j + 1, n) == Bits(j, n - 1) + [1];
    assert (Bits(j, n - 1) + [0])[..n - 1] == Bits(j, n - 1);
    assert (Bits(j, n - 1) + [1])[..n - 1] == Bits(j, n - 1);
  }

  /** Over all 2^n states, each drug is clear in half of them. */
  lemma {:induction false} ZeroSumAll(n: nat)
    ensures 2 * Sum(Zeros(n), 0, Pow2(n)) == n * Pow2(n)
  {
    if n > 0 {
      var h := Pow2(n - 1);
      AllPairZeros(n);
      SumPairs(Zeros(n), Zeros(n - 1), h);
      ZeroSumAll(n - 1);
      DoublingStep(n, h, Sum(Zeros(n - 1), 0, h), Sum(Zeros(n), 0, 2 * h));
    }
  }

  lemma AllPairZeros(n: nat)
    requires n >= 1
    ensures forall j: nat :: j < Pow2(n - 1) ==> Zeros(n)(2 * j) == Zeros(n - 1)(j) + 1 && Zeros(n)(2 * j + 1) == Zeros(n - 1)(j)
  {
    forall j: nat | j < Pow2(n - 1)
      ensures Zeros(n)(2 * j) == Zeros(n - 1)(j) + 1 && Zeros(n)(2 * j + 1) == Zeros(n - 1)(j)
    {
      PairZeros(n, j);
    }
  }

  lemma DoublingStep(n: int, h: int, z: int, w: int)
    requires 2 * z == (n - 1) * h && w == 2 * z + h
    ensures 2 * w == n * (2 * h)
  {
    assert n * (2 * h) == 2 * ((n - 1) * h) + 2 * h;
  }

  /** The alpha parameters of a list of edges out of s, one per edge, named
      by the edge string. */
  function EdgeAlphas(s: State, es: seq<(nat, nat)>): (ps: seq<Param>)
    ensures |ps| == |es|
  {
    if es == [] then []
    else [Param(Alpha, "alpha_" + EdgeString(s, Bits(es[0].1, |s|)))] + EdgeAlphas(s, es[1..])
  }

  /** The alphas of a parent state, from list position p on, are those of
      its add edges of drug positions below n - p, in the same order. */
  lemma {:induction false} AlphaFromAddEdges(idx: nat, n: nat, p: nat)
    requires idx < Pow2(n) && p <= n
    ensures AlphaFrom(Bits(idx, n), p) == EdgeAlphas(Bits(idx, n), AddEdges(idx, n - p))
    decreases n - p
  {
    if p < n {
      AlphaFromAddEdges(idx, n, p + 1);
      AlphaAddEdgeStep(idx, n, p, n - 1 - p, Bits(idx, n));
    }
  }

  lemma AlphaAddEdgeStep(idx: nat, n: nat, p: nat, k: nat, s: State)
    requires idx < Pow2(n) && p < n && k == n - 1 - p && s == Bits(idx, n)
    requires AlphaFrom(s, p + 1) == EdgeAlphas(s, AddEdges(idx, k))
    ensures AlphaFrom(s, p) == EdgeAlphas(s, AddEdges(idx, n - p))
  {
    var head := if TestBit(idx, k) == 0 then [(k, idx + Pow2(k))] else [];
    AddEdgesStep(idx, n - p, k, head);
    EdgeAlphasAppend(s, head, AddEdges(idx, k));
    AlphaAtPosition(idx, n, k, s, p, head);
    AlphaFromStep(s, p);
  }

  lemma AddEdgesStep(idx: nat, m: nat, k: nat, head: seq<(nat, nat)>)
    requires m == k + 1 && head == if TestBit(idx, k) == 0 then [(k, idx + Pow2(k))] else []
    ensures AddEdges(idx, m) == head + AddEdges(idx, k)
  {
  }

  lemma AlphaFromStep(s: State, p: nat)
    requires p < |s|
    ensures AlphaFrom(s, p) == (if s[p] == 0 then [Param(Alpha, "alpha_" + EdgeString(s, s[p := 1]))] else []) + AlphaFrom(s, p + 1)
  {
  }

  lemma {:induction false} EdgeAlphasAppend(s: State, xs: seq<(nat, nat)>, ys: seq<(nat, nat)>)
    ensures EdgeAlphas(s, xs + ys) == EdgeAlphas(s, xs) + EdgeAlphas(s, ys)
  {
    if xs == [] {
      assert xs + ys == ys;
    } else {
      assert (xs + ys)[0] == xs[0] && (xs + ys)[1..] == xs[1..] + ys;
      EdgeAlphasAppend(s, xs[1..], ys);
    }
  }

  /** The alpha, if any, of list position p = n-1-k of s is that of the add
      edge of bit k, if any. */
  lemma AlphaAtPosition(idx: nat, n: nat, k: nat, s: State, p: nat, head: seq<(nat, nat)>)
    requires idx < Pow2(n) && k < n && p == n - 1 - k && s == Bits(idx, n)
    requires head == if TestBit(idx, k) == 0 then [(k, idx + Pow2(k))] else []
    ensures (if s[p] == 0 then [Param(Alpha, "alpha_" + EdgeString(s, s[p := 1]))] else []) == EdgeAlphas(s, head)
  {
    BitIsEntry(idx, n, k);
    if s[p] == 0 {
      FlipBit(idx, idx + Pow2(k), n, k, 1);
      assert head[1..] == [];
    }
  }

  /** The alphas of a parent state are the alphas of its add edges, in the
      order `_get_neighbors` lists them. */
  lemma AlphasOfAddEdges(idx: nat, n: nat)
    requires idx < Pow2(n)
    ensures AlphaFrom(Bits(idx, n), 0) == EdgeAlphas(Bits(idx, n), Neighbors(idx, n).0)
  {
    AlphaFromAddEdges(idx, n, 0);
  }

  /** The number of add edges of each state. */
  function AddCount(n: nat): nat -> nat
  {
    idx => |Neighbors(idx, n).0|
  }

  lemma {:induction false} AlphaParamsFromEdges(idx: nat, n: nat)
    requires idx >= 1
    ensures |AlphaParamsFrom(idx, n)| == Sum(AddCount(n), idx, Pow2(n))
    decreases Pow2(n) - idx
  {
    if idx < Pow2(n) {
      AlphaParamsFromEdges(idx + 1, n);
      AlphaPerAddEdge(idx, n);
      assert AlphaParamsFrom(idx, n) == AlphaFrom(Bits(idx, n), 0) + AlphaParamsFrom(idx + 1, n);
    }
  }

  /** A parent state has one alpha per add edge. */
  lemma AlphaPerAddEdge(idx: nat, n: nat)
    requires idx < Pow2(n)
    ensures |AlphaFrom(Bits(idx, n), 0)| == AddCount(n)(idx)
  {
    AlphasOfAddEdges(idx, n);
  }

  /** Alpha counts the add edges of every non-origin state; that is
      n 2^(n-1) - n, the n 2^(n-1) add edges of all states less the n out
      of the origin. */
  lemma AlphaCount(n: nat)
    ensures |AlphaParams(n)| == Sum(AddCount(n), 1, Pow2(n))
    ensures 2 * (|AlphaParams(n)| + n) == n * Pow2(n)
  {
    AlphaParamsFromEdges(1, n);
    AlphaParamsFromCount(1, n);
    ZeroSumAll(n);
    IndexOfBits(0, n);
    PopcountZero(Bits(0, n));
  }

  /** `_num_E_params`: one per state. */
  function NumEParams(n: nat): (r: nat)
    ensures r == |EParams(n)|
  {
    Pow2(n)
  }

  /** `_num_h_params`: one per drug. */
  function NumHParams(n: nat): (r: nat)
    ensures r == |HParams(n)|
  {
    n
  }

  /** `_num_C_params`: one per drug. */
  function NumCParams(n: nat): (r: nat)
    ensures r == |CParams(n)|
  {
    n
  }

  /** `_num_alpha_params`: n 2^(n-1) - n, the number of add edges whose
      parent is not the origin, which is the length of the alpha names. */
  function NumAlphaParams(n: nat): (r: nat)
    ensures r == |AlphaParams(n)| && r == Sum(AddCount(n), 1, Pow2(n))
  {
    AlphaCount(n);
    n * Pow2(n) / 2 - n
  }

  /** `_num_gamma_params`: one cooperativity shift per alpha. */
  function NumGammaParams(n: nat): (r: nat)
    ensures r == |AlphaParams(n)|
  {
    NumAlphaParams(n)
  }

  /** The counts asserted for two drugs. */
  lemma NumParamsTwoDrugs()
    ensures NumEParams(2) == 4 && NumHParams(2) == 2 && NumCParams(2) == 2
    ensures NumAlphaParams(2) == 2 && NumGammaParams(2) == 2
  {
    assert Pow2(2) == 4;
    assert 2 * Pow2(2) / 2 - 2 == 2;
  }

  /** The counts asserted for three drugs. */
  lemma NumParamsThreeDrugs()
    ensures NumEParams(3) == 8 && NumHParams(3) == 3 && NumCParams(3) == 3
    ensures NumAlphaParams(3) == 9 && NumGammaParams(3) == 9
  {
    assert Pow2(3) == 8;
    assert 3 * Pow2(3) / 2 - 3 == 9;
  }

  // ---- Every add edge out of a non-origin state has its alpha ----

  /** Engaging a clear position q at or after p gives an alpha of AlphaFrom(s, p). */
  lemma {:induction false} AlphaFromEdge(s: State, p: nat, q: nat)
    requires p <= q < |s| && s[q] == 0
    ensures Param(Alpha, "alpha_" + EdgeString(s, s[q := 1])) in AlphaFrom(s, p)
    decreases q - p
  {
    if p < q {
      AlphaFromEdge(s, p + 1, q);
    }
  }

  lemma {:induction false} AlphaParamsFromEdge(lo: nat, n: nat, idx: nat, q: nat)
    requires lo <= idx < Pow2(n) && q < n && Bits(idx, n)[q] == 0
    ensures Param(Alpha, "alpha_" + EdgeString(Bits(idx, n), Bits(idx, n)[q := 1])) in AlphaParamsFrom(lo, n)
    decreases idx - lo
  {
    if lo < idx {
      AlphaParamsFromEdge(lo + 1, n, idx, q);
    } else {
      AlphaFromEdge(Bits(idx, n), 0, q);
    }
  }

  /** Each add edge (k, c) of a state other than the origin carries the
      alpha named by the parent's drug string and the added drug k+1. */
  lemma EdgeHasAlpha(idx: nat, n: nat, k: nat, c: nat)
    requires 1 <= idx < Pow2(n) && k < n && (k, c) in Neighbors(idx, n).0
    ensures Param(Alpha, "alpha_" + DrugString(Bits(idx, n)) + "_" + NatToString(k + 1)) in AlphaParams(n)
  {
    AddEdgeChild(idx, n, k, c);
    EdgeStringOfEdge(idx, n, k, c);
    AlphaOfFlip(idx, n, Bits(idx, n), Bits(c, n), n - 1 - k, k + 1);
  }

  lemma AlphaOfFlip(idx: nat, n: nat, parent: State, child: State, q: nat, d: nat)
    requires 1 <= idx < Pow2(n) && q < n && parent == Bits(idx, n)
    requires parent[q] == 0 && child == parent[q := 1]
    requires EdgeString(parent, child) == DrugString(parent) + "_" + NatToString(d)
    ensures Param(Alpha, "alpha_" + DrugString(parent) + "_" + NatToString(d)) in AlphaParams(n)
  {
    AlphaParamsFromEdge(1, n, idx, q);
    assert "alpha_" + EdgeString(parent, child) == "alpha_" + DrugString(parent) + "_" + NatToString(d);
  }

  // ---- The three-drug layout ----

  lemma DigitStrings()
    ensures NatToString(1) == "1" && NatToString(2) == "2" && NatToString(3) == "3"
  {
  }

  lemma ThreeDrugStringsLow()
    ensures DrugString([0, 0, 0]) == "" && DrugString([0, 0, 1]) == "1"
    ensures DrugString([0, 1, 0]) == "2" && DrugString([0, 1, 1]) == "1,2"
  {
    DigitStrings();
    assert DrugsOf([0, 0, 0]) == [] && DrugsOf([0, 0, 1]) == [1];
    assert DrugsOf([0, 1, 0]) == [2] && DrugsOf([0, 1, 1]) == [1, 2];
  }

  lemma ThreeDrugStringsHigh()
    ensures DrugString([1, 0, 0]) == "3" && DrugString([1, 0, 1]) == "1,3"
    ensures DrugString([1, 1, 0]) == "2,3" && DrugString([1, 1, 1]) == "1,2,3"
  {
    DigitStrings();
    assert DrugsOf([1, 0, 0]) == [3] && DrugsOf([1, 0, 1]) == [1, 3];
    assert DrugsOf([1, 1, 0]) == [2, 3] && DrugsOf([1, 1, 1]) == [1, 2, 3];
  }

  lemma ThreeDrugENamesLow(n: nat)
    requires n == 3
    ensures |EParams(n)| == 8
    ensures EParams(n)[0].name == "E_0" && EParams(n)[1].name == "E_1"
    ensures EParams(n)[2].name == "E_2" && EParams(n)[3].name == "E_1,2"
  {
    ThreeDrugBits();
    ThreeDrugStringsLow();
    assert Pow2(n) == 8;
  }

  lemma ThreeDrugENamesHigh(n: nat)
    requires n == 3
    ensures |EParams(n)| == 8
    ensures EParams(n)[4].name == "E_3" && EParams(n)[5].name == "E_1,3"
    ensures EParams(n)[6].name == "E_2,3" && EParams(n)[7].name == "E_1,2,3"
  {
    ThreeDrugBits();
    ThreeDrugStringsHigh();
    assert Pow2(n) == 8;
  }

  /** The alpha parameter of engaging a clear position of s. */
  lemma AlphaStep(s: State, p: nat)
    requires p < |s|
    ensures AlphaFrom(s, p) == (if s[p] == 0 then [Param(Alpha, "alpha_" + DrugString(s) + "_" + NatToString(|s| - p))] else []) + AlphaFrom(s, p + 1)
  {
    if s[p] == 0 {
      AddedByFlip(s, p);
      assert "alpha_" + EdgeString(s, s[p := 1]) == "alpha_" + DrugString(s) + "_" + NatToString(|s| - p);
    }
  }

  lemma AlphaOf001()
    ensures AlphaFrom([0, 0, 1], 0) == [Param(Alpha, "alpha_1_3"), Param(Alpha, "alpha_1_2")]
  {
    var s: State := [0, 0, 1];
    ThreeDrugStringsLow();
    DigitStrings();
    AlphaStep(s, 0);
    AlphaStep(s, 1);
    AlphaStep(s, 2);
    assert AlphaFrom(s, 3) == [];
    assert "alpha_" + DrugString(s) + "_" + NatToString(3) == "alpha_1_3";
    assert "alpha_" + DrugString(s) + "_" + NatToString(2) == "alpha_1_2";
  }

  lemma AlphaOf010()
    ensures AlphaFrom([0, 1, 0], 0) == [Param(Alpha, "alpha_2_3"), Param(Alpha, "alpha_2_1")]
  {
    var s: State := [0, 1, 0];
    ThreeDrugStringsLow();
    DigitStrings();
    AlphaStep(s, 0);
    AlphaStep(s, 1);
    AlphaStep(s, 2);
    assert AlphaFrom(s, 3) == [];
    assert "alpha_" + DrugString(s) + "_" + NatToString(3) == "alpha_2_3";
    assert "alpha_" + DrugString(s) + "_" + NatToString(1) == "alpha_2_1";
  }

  lemma AlphaOf011()
    ensures AlphaFrom([0, 1, 1], 0) == [Param(Alpha, "alpha_1,2_3")]
  {
    var s: State := [0, 1, 1];
    ThreeDrugStringsLow();
    DigitStrings();
    AlphaStep(s, 0);
    AlphaStep(s, 1);
    AlphaStep(s, 2);
    assert AlphaFrom(s, 3) == [];
    assert "alpha_" + DrugString(s) + "_" + NatToString(3) == "alpha_1,2_3";
  }

  lemma AlphaOf100()
    ensures AlphaFrom([1, 0, 0], 0) == [Param(Alpha, "alpha_3_2"), Param(Alpha, "alpha_3_1")]
  {
    var s: State := [1, 0, 0];
    ThreeDrugStringsHigh();
    DigitStrings();
    AlphaStep(s, 0);
    AlphaStep(s, 1);
    AlphaStep(s, 2);
    assert AlphaFrom(s, 3) == [];
    assert "alpha_" + DrugString(s) + "_" + NatToString(2) == "alpha_3_2";
    assert "alpha_" + DrugString(s) + "_" + NatToString(1) == "alpha_3_1";
  }

  lemma AlphaOf101()
    ensures AlphaFrom([1, 0, 1], 0) == [Param(Alpha, "alpha_1,3_2")]
  {
    var s: State := [1, 0, 1];
    ThreeDrugStringsHigh();
    DigitStrings();
    AlphaStep(s, 0);
    AlphaStep(s, 1);
    AlphaStep(s, 2);
    assert AlphaFrom(s, 3) == [];
    assert "alpha_" + DrugString(s) + "_" + NatToString(2) == "alpha_1,3_2";
  }

  lemma AlphaOf110()
    ensures AlphaFrom([1, 1, 0], 0) == [Param(Alpha, "alpha_2,3_1")]
  {
    var s: State := [1, 1, 0];
    ThreeDrugStringsHigh();
    DigitStrings();
    AlphaStep(s, 0);
    AlphaStep(s, 1);
    AlphaStep(s, 2);
    assert AlphaFrom(s, 3) == [];
    assert "alpha_" + DrugString(s) + "_" + NatToString(1) == "alpha_2,3_1";
  }

  lemma AlphaOf111()
    ensures AlphaFrom([1, 1, 1], 0) == []
  {
    var s: State := [1, 1, 1];
    ThreeDrugStringsHigh();
    DigitStrings();
    AlphaStep(s, 0);
    AlphaStep(s, 1);
    AlphaStep(s, 2);
    assert AlphaFrom(s, 3) == [];
  }

  lemma ThreeDrugAlphaHigh(n: nat)
    requires n == 3
    ensures AlphaParamsFrom(4, n) == [
      Param(Alpha, "alpha_3_2"), Param(Alpha, "alpha_3_1"), Param(Alpha, "alpha_1,3_2"), Param(Alpha, "alpha_2,3_1")]
  {
    ThreeDrugBits();
    AlphaOf100();
    AlphaOf101();
    AlphaOf110();
    AlphaOf111();
    assert Pow2(n) == 8;
    assert AlphaParamsFrom(8, n) == [];
    assert AlphaParamsFrom(7, n) == AlphaFrom(Bits(7, n), 0) + AlphaParamsFrom(8, n);
    assert AlphaParamsFrom(6, n) == AlphaFrom(Bits(6, n), 0) + AlphaParamsFrom(7, n);
    assert AlphaParamsFrom(5, n) == AlphaFrom(Bits(5, n), 0) + AlphaParamsFrom(6, n);
    assert AlphaParamsFrom(4, n) == AlphaFrom(Bits(4, n), 0) + AlphaParamsFrom(5, n);
  }

  lemma ThreeDrugAlphaParams(n: nat)
    requires n == 3
    ensures AlphaParams(n) == [
      Param(Alpha, "alpha_1_3"), Param(Alpha, "alpha_1_2"), Param(Alpha, "alpha_2_3"),
      Param(Alpha, "alpha_2_1"), Param(Alpha, "alpha_1,2_3"), Param(Alpha, "alpha_3_2"),
      Param(Alpha, "alpha_3_1"), Param(Alpha, "alpha_1,3_2"), Param(Alpha, "alpha_2,3_1")]
  {
    ThreeDrugBits();
    AlphaOf001();
    AlphaOf010();
    AlphaOf011();
    ThreeDrugAlphaHigh(n);
    assert Pow2(n) == 8;
    assert AlphaParamsFrom(3, n) == AlphaFrom(Bits(3, n), 0) + AlphaParamsFrom(4, n);
    assert AlphaParamsFrom(2, n) == AlphaFrom(Bits(2, n), 0) + AlphaParamsFrom(3, n);
    assert AlphaParamsFrom(1, n) == AlphaFrom(Bits(1, n), 0) + AlphaParamsFrom(2, n);
  }

  lemma ThreeDrugHillAndPotency(n: nat)
    requires n == 3
    ensures HParams(n) == [Param(HillSlope, "h_1"), Param(HillSlope, "h_2"), Param(HillSlope, "h_3")]
    ensures CParams(n) == [Param(Potency, "C_1"), Param(Potency, "C_2"), Param(Potency, "C_3")]
  {
    DigitStrings();
    var h, c := HParams(n), CParams(n);
    assert h[0].name == "h_1" && h[1].name == "h_2" && h[2].name == "h_3";
    assert c[0].name == "C_1" && c[1].name == "C_2" && c[2].name == "C_3";
  }

  lemma ThreeDrugEParams(n: nat)
    requires n == 3
    ensures EParams(n) == [
      Param(Effect, "E_0"), Param(Effect, "E_1"), Param(Effect, "E_2"), Param(Effect, "E_1,2"),
      Param(Effect, "E_3"), Param(Effect, "E_1,3"), Param(Effect, "E_2,3"), Param(Effect, "E_1,2,3")]
  {
    ThreeDrugENamesLow(n);
    ThreeDrugENamesHigh(n);
  }

  lemma ThreeDrugParamList(e: seq<Param>, h: seq<Param>, c: seq<Param>, a: seq<Param>)
    requires e == [
      Param(Effect, "E_0"), Param(Effect, "E_1"), Param(Effect, "E_2"), Param(Effect, "E_1,2"),
      Param(Effect, "E_3"), Param(Effect, "E_1,3"), Param(Effect, "E_2,3"), Param(Effect, "E_1,2,3")]
    requires h == [Param(HillSlope, "h_1"), Param(HillSlope, "h_2"), Param(HillSlope, "h_3")]
    requires c == [Param(Potency, "C_1"), Param(Potency, "C_2"), Param(Potency, "C_3")]
    requires a == [
      Param(Alpha, "alpha_1_3"), Param(Alpha, "alpha_1_2"), Param(Alpha, "alpha_2_3"), Param(Alpha, "alpha_2_1"),
      Param(Alpha, "alpha_1,2_3"), Param(Alpha, "alpha_3_2"), Param(Alpha, "alpha_3_1"), Param(Alpha, "alpha_1,3_2"),
      Param(Alpha, "alpha_2,3_1")]
    ensures e + h + c + a == [
      Param(Effect, "E_0"), Param(Effect, "E_1"), Param(Effect, "E_2"), Param(Effect, "E_1,2"),
      Param(Effect, "E_3"), Param(Effect, "E_1,3"), Param(Effect, "E_2,3"), Param(Effect, "E_1,2,3"),
      Param(HillSlope, "h_1"), Param(HillSlope, "h_2"), Param(HillSlope, "h_3"), Param(Potency, "C_1"),
      Param(Potency, "C_2"), Param(Potency, "C_3"), Param(Alpha, "alpha_1_3"), Param(Alpha, "alpha_1_2"),
      Param(Alpha, "alpha_2_3"), Param(Alpha, "alpha_2_1"), Param(Alpha, "alpha_1,2_3"), Param(Alpha, "alpha_3_2"),
      Param(Alpha, "alpha_3_1"), Param(Alpha, "alpha_1,3_2"), Param(Alpha, "alpha_2,3_1")]
  {
  }

  /** The parameter layout for three drugs, family by family. */
  lemma ThreeDrugParams(n: nat)
    requires n == 3
    ensures Params(n) == [
      Param(Effect, "E_0"), Param(Effect, "E_1"), Param(Effect, "E_2"), Param(Effect, "E_1,2"),
      Param(Effect, "E_3"), Param(Effect, "E_1,3"), Param(Effect, "E_2,3"), Param(Effect, "E_1,2,3"),
      Param(HillSlope, "h_1"), Param(HillSlope, "h_2"), Param(HillSlope, "h_3"), Param(Potency, "C_1"),
      Param(Potency, "C_2"), Param(Potency, "C_3"), Param(Alpha, "alpha_1_3"), Param(Alpha, "alpha_1_2"),
      Param(Alpha, "alpha_2_3"), Param(Alpha, "alpha_2_1"), Param(Alpha, "alpha_1,2_3"), Param(Alpha, "alpha_3_2"),
      Param(Alpha, "alpha_3_1"), Param(Alpha, "alpha_1,3_2"), Param(Alpha, "alpha_2,3_1")]
  {
    ThreeDrugEParams(n);
    ThreeDrugHillAndPotency(n);
    ThreeDrugAlphaParams(n);
    ThreeDrugParamList(EParams(n), HParams(n), CParams(n), AlphaParams(n));
  }

  lemma ThreeDrugNameList(ps: seq<Param>)
    requires ps == [
      Param(Effect, "E_0"), Param(Effect, "E_1"), Param(Effect, "E_2"), Param(Effect, "E_1,2"),
      Param(Effect, "E_3"), Param(Effect, "E_1,3"), Param(Effect, "E_2,3"), Param(Effect, "E_1,2,3"),
      Param(HillSlope, "h_1"), Param(HillSlope, "h_2"), Param(HillSlope, "h_3"), Param(Potency, "C_1"),
      Param(Potency, "C_2"), Param(Potency, "C_3"), Param(Alpha, "alpha_1_3"), Param(Alpha, "alpha_1_2"),
      Param(Alpha, "alpha_2_3"), Param(Alpha, "alpha_2_1"), Param(Alpha, "alpha_1,2_3"), Param(Alpha, "alpha_3_2"),
      Param(Alpha, "alpha_3_1"), Param(Alpha, "alpha_1,3_2"), Param(Alpha, "alpha_2,3_1")]
    ensures Names(ps) == [
      "E_0", "E_1", "E_2", "E_1,2", "E_3", "E_1,3", "E_2,3", "E_1,2,3",
      "h_1", "h_2", "h_3", "C_1", "C_2", "C_3", "alpha_1_3", "alpha_1_2",
      "alpha_2_3", "alpha_2_1", "alpha_1,2_3", "alpha_3_2", "alpha_3_1", "alpha_1,3_2", "alpha_2,3_1"]
  {
  }

  /** The parameter names asserted for three drugs. */
  lemma ThreeDrugParameterNames(n: nat)
    requires n == 3
    ensures ParameterNames(n) == [
      "E_0", "E_1", "E_2", "E_1,2", "E_3", "E_1,3", "E_2,3", "E_1,2,3",
      "h_1", "h_2", "h_3", "C_1", "C_2", "C_3", "alpha_1_3", "alpha_1_2",
      "alpha_2_3", "alpha_2_1", "alpha_1,2_3", "alpha_3_2", "alpha_3_1", "alpha_1,3_2", "alpha_2,3_1"]
  {
    ThreeDrugParams(n);
    ThreeDrugNameList(Params(n));
  }
}
