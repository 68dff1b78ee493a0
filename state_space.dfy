/** The drug-state space of the N-drug MuSyC model: which drugs are engaged,
    as a 0/1 vector and as an integer index, the Hamming distance between two
    states, and the single-drug add/remove transitions of a state. */
module StateSpace {
  import opened Numbers

  type Bit = b: int | 0 <= b <= 1

  /** A drug state of n drugs. Drug k (1-based) is bit k-1 of the index and
      sits at list position n-k: the vector is the big-endian binary form of
      the index. */
  type State = seq<Bit>

  function Pow2(k: nat): (p: nat)
    ensures p >= 1
  {
    if k == 0 then 1 else 2 * Pow2(k - 1)
  }

  /** Bit k of idx (bit 0 is the least significant). */
  function TestBit(idx: nat, k: nat): Bit
  {
    if k == 0 then idx % 2 else TestBit(idx / 2, k - 1)
  }

  /** The n low bits of idx, most significant first. */
  function Bits(idx: nat, n: nat): (s: State)
    ensures |s| == n
  {
    if n == 0 then [] else Bits(idx / 2, n - 1) + [idx % 2]
  }

  /** The index a state encodes, reading it as a big-endian binary number. */
  function Index(s: State): (i: nat)
    ensures i < Pow2(|s|)
  {
    if s == [] then 0 else 2 * Index(s[..|s| - 1]) + s[|s| - 1]
  }

  /** The number of engaged drugs. */
  function Popcount(s: State): (c: nat)
    ensures c <= |s|
  {
    if s == [] then 0 else Popcount(s[..|s| - 1]) + s[|s| - 1]
  }

  /** `_idx_to_state`: the n-drug state of an index, a domain error when the
      index is outside [0, 2^n). The state read back gives the index. */
  function IdxToState(idx: int, n: nat): (r: Result<State>)
    ensures r.Ok? <==> 0 <= idx < Pow2(n)
    ensures r.Ok? ==> |r.value| == n && Index(r.value) == idx
  {
    if 0 <= idx < Pow2(n) then
      IndexOfBits(idx, n);
      Ok(Bits(idx, n))
    else DomainError
  }

  /** `_state_to_idx`: the index of a 0/1 vector, a domain error when an entry
      is neither 0 nor 1. The index decodes back to the same vector. */
  function StateToIdx(xs: seq<int>): (r: Result<nat>)
    ensures r.Ok? <==> forall p :: 0 <= p < |xs| ==> 0 <= xs[p] <= 1
    ensures r.Ok? ==> r.value < Pow2(|xs|) && Bits(r.value, |xs|) == xs
  {
    if forall p :: 0 <= p < |xs| ==> 0 <= xs[p] <= 1 then
      BitsOfIndex(xs);
      Ok(Index(xs))
    else DomainError
  }

  /** Position p of the n-bit vector of idx holds bit n-1-p of idx. */
  lemma {:induction false} BitsAt(idx: nat, n: nat, p: nat)
    requires p < n
    ensures Bits(idx, n)[p] == TestBit(idx, n - 1 - p)
  {
    if p < n - 1 {
      BitsAt(idx / 2, n - 1, p);
    }
  }

  lemma {:induction false} IndexOfBits(idx: nat, n: nat)
    requires idx < Pow2(n)
    ensures Index(Bits(idx, n)) == idx
  {
    if n > 0 {
      var s := Bits(idx, n);
      var pre := Bits(idx / 2, n - 1);
      assert s == pre + [idx % 2];
      assert s[..n - 1] == pre;
      IndexOfBits(idx / 2, n - 1);
      assert Index(s) == 2 * Index(pre) + idx % 2;
    }
  }

  lemma {:induction false} BitsOfIndex(s: State)
    ensures Bits(Index(s), |s|) == s
  {
    if s != [] {
      var pre := s[..|s| - 1];
      BitsOfIndex(pre);
      assert Index(s) / 2 == Index(pre);
      assert s == pre + [s[|s| - 1]];
    }
  }

  /** Encoding round trip in both directions, for every index in range and
      every state. */
  lemma EncodingRoundTrip(idx: int, n: nat, s: State)
    requires 0 <= idx < Pow2(n)
    ensures IdxToState(idx, n).Ok? && StateToIdx(IdxToState(idx, n).value) == Ok(idx)
    ensures StateToIdx(s).Ok? && IdxToState(StateToIdx(s).value, |s|) == Ok(s)
  {
  }

  /** Two states of the same length with the same index are equal. */
  lemma IndexInjective(a: State, b: State)
    requires |a| == |b| && Index(a) == Index(b)
    ensures a == b
  {
    BitsOfIndex(a);
    BitsOfIndex(b);
  }

  /** Setting position p to 1 (it was 0) adds 2^(n-1-p) to the index;
      clearing it (it was 1) subtracts the same amount. */
  lemma {:induction false} IndexUpdate(s: State, p: nat, b: Bit)
    requires p < |s| && s[p] != b
    ensures Index(s[p := b]) == if b == 1 then Index(s) + Pow2(|s| - 1 - p)
                                else Index(s) - Pow2(|s| - 1 - p)
  {
    var n := |s|;
    var pre := s[..n - 1];
    var t := s[p := b];
    assert t[..n - 1] == if p == n - 1 then pre else pre[p := b];
    if p < n - 1 {
      IndexUpdate(pre, p, b);
      assert Pow2(n - 1 - p) == 2 * Pow2(n - 2 - p);
    }
  }

  lemma {:induction false} PopcountAppend(a: State, b: State)
    ensures Popcount(a + b) == Popcount(a) + Popcount(b)
  {
    if b != [] {
      assert (a + b)[..|a + b| - 1] == a + b[..|b| - 1];
      PopcountAppend(a, b[..|b| - 1]);
    } else {
      assert a + b == a;
    }
  }

  /** A state has no engaged drug exactly when its index is 0. */
  lemma {:induction false} PopcountZero(s: State)
    ensures Popcount(s) == 0 <==> Index(s) == 0
  {
    if s != [] {
      PopcountZero(s[..|s| - 1]);
    }
  }

  /** Drugs present in a and not in b, and vice versa, as list positions. */
  ghost function DiffPositions(a: seq<int>, b: seq<int>): set<nat>
    requires |a| == |b|
  {
    set p: nat | p < |a| && a[p] != b[p]
  }

  /** The number of positions at which two equal-length vectors differ. */
  function CountDiffs(a: seq<int>, b: seq<int>): (c: nat)
    requires |a| == |b|
    ensures c == |DiffPositions(a, b)|
  {
    if a == [] then 0
    else
      var n := |a|;
      var rest := CountDiffs(a[..n - 1], b[..n - 1]);
      assert DiffPositions(a, b) == DiffPositions(a[..n - 1], b[..n - 1])
                                    + (if a[n - 1] != b[n - 1] then {n - 1} else {});
      rest + (if a[n - 1] != b[n - 1] then 1 else 0)
  }

  /** `_hamming`: the number of differing positions, a domain error when the
      two vectors have different lengths. */
  function Hamming(a: seq<int>, b: seq<int>): (r: Result<nat>)
    ensures r.Ok? <==> |a| == |b|
    ensures r.Ok? ==> r.value == |DiffPositions(a, b)|
  {
    if |a| != |b| then DomainError else Ok(CountDiffs(a, b))
  }

  /** Hamming distance is symmetric and is 0 exactly for identical vectors. */
  lemma HammingMetric(a: seq<int>, b: seq<int>)
    requires |a| == |b|
    ensures Hamming(a, b) == Hamming(b, a)
    ensures Hamming(a, b) == Ok(0) <==> a == b
  {
    assert DiffPositions(a, b) == DiffPositions(b, a);
    if a != b {
      var p :| 0 <= p < |a| && a[p] != b[p];
      assert p in DiffPositions(a, b);
    }
  }

  /** Two vectors that differ at exactly one position are at distance 1. */
  lemma HammingOne(a: seq<int>, b: seq<int>, p: nat)
    requires |a| == |b| && p < |a| && a[p] != b[p]
    requires forall q :: 0 <= q < |a| && q != p ==> a[q] == b[q]
    ensures Hamming(a, b) == Ok(1)
  {
    assert DiffPositions(a, b) == {p};
  }

  /** The "add one drug" edges of idx over n drugs: (k, idx + 2^k) for every
      clear bit k < n, in decreasing k, that is by list position of the
      state from left to right. */
  function AddEdges(idx: nat, n: nat): seq<(nat, nat)>
  {
    if n == 0 then []
    else (if TestBit(idx, n - 1) == 0 then [(n - 1, idx + Pow2(n - 1))] else []) + AddEdges(idx, n - 1)
  }

  /** The "remove one drug" edges of idx over n drugs: (k, idx - 2^k) for
      every set bit k < n, in decreasing k like the add edges. */
  function RemoveEdges(idx: nat, n: nat): seq<(nat, nat)>
  {
    if n == 0 then []
    else (if TestBit(idx, n - 1) == 1 && idx >= Pow2(n - 1) then [(n - 1, idx - Pow2(n - 1))] else []) + RemoveEdges(idx, n - 1)
  }

  /** A set bit k means idx >= 2^k. */
  lemma {:induction false} SetBitBound(idx: nat, k: nat)
    requires TestBit(idx, k) == 1
    ensures idx >= Pow2(k)
  {
    if k > 0 {
      SetBitBound(idx / 2, k - 1);
    }
  }

  lemma {:induction false} AddEdgesMembers(idx: nat, n: nat)
    ensures forall k: nat, c: nat :: (k, c) in AddEdges(idx, n) <==> k < n && TestBit(idx, k) == 0 && c == idx + Pow2(k)
    ensures forall i, j :: 0 <= i < j < |AddEdges(idx, n)| ==> AddEdges(idx, n)[i].0 > AddEdges(idx, n)[j].0
  {
    if n > 0 {
      AddEdgesMembers(idx, n - 1);
    }
  }

  lemma {:induction false} RemoveEdgesMembers(idx: nat, n: nat)
    ensures forall k: nat, c: nat :: (k, c) in RemoveEdges(idx, n) <==> k < n && TestBit(idx, k) == 1 && c + Pow2(k) == idx
    ensures forall i, j :: 0 <= i < j < |RemoveEdges(idx, n)| ==> RemoveEdges(idx, n)[i].0 > RemoveEdges(idx, n)[j].0
  {
    if n > 0 {
      RemoveEdgesMembers(idx, n - 1);
      if TestBit(idx, n - 1) == 1 {
        SetBitBound(idx, n - 1);
      }
    }
  }

  /** The n-bit vector of idx is bit n-1 followed by the (n-1)-bit vector. */
  lemma BitsHead(idx: nat, n: nat)
    requires n > 0
    ensures Bits(idx, n) == [TestBit(idx, n - 1)] + Bits(idx, n - 1)
  {
    forall p | 0 <= p < n ensures Bits(idx, n)[p] == ([TestBit(idx, n - 1)] + Bits(idx, n - 1))[p] {
      BitsAt(idx, n, p);
      if p > 0 {
        BitsAt(idx, n - 1, p - 1);
      }
    }
  }

  lemma PopcountHead(idx: nat, n: nat)
    requires n > 0
    ensures Popcount(Bits(idx, n)) == TestBit(idx, n - 1) + Popcount(Bits(idx, n - 1))
  {
    BitsHead(idx, n);
    PopcountAppend([TestBit(idx, n - 1)], Bits(idx, n - 1));
    assert [TestBit(idx, n - 1)][..0] == [];
  }

  /** Each drug position is either an add edge or a remove edge. */
  lemma {:induction false} EdgesPartition(idx: nat, n: nat)
    ensures |AddEdges(idx, n)| + |RemoveEdges(idx, n)| == n
  {
    if n > 0 {
      EdgesPartition(idx, n - 1);
      if TestBit(idx, n - 1) == 1 {
        SetBitBound(idx, n - 1);
      }
    }
  }

  /** There is one remove edge per engaged drug. */
  lemma {:induction false} RemoveEdgesCount(idx: nat, n: nat)
    ensures |RemoveEdges(idx, n)| == Popcount(Bits(idx, n))
  {
    if n > 0 {
      RemoveEdgesCount(idx, n - 1);
      PopcountHead(idx, n);
      if TestBit(idx, n - 1) == 1 {
        SetBitBound(idx, n - 1);
      }
    }
  }

  /** `_get_neighbors`: the add edges and the remove edges of idx over n
      drugs. Every drug gives exactly one of the two. */
  function Neighbors(idx: nat, n: nat): (r: (seq<(nat, nat)>, seq<(nat, nat)>))
    ensures |r.0| + |r.1| == n
  {
    EdgesPartition(idx, n);
    (AddEdges(idx, n), RemoveEdges(idx, n))
  }

  /** The add edges are exactly (k, idx + 2^k) for the clear bits k < n, the
      remove edges exactly (k, idx - 2^k) for the set bits; both lists hold
      each drug at most once, in decreasing drug position, so they are fixed
      as multisets by their members; and there is one remove edge per
      engaged drug. */
  lemma NeighborsSpec(idx: nat, n: nat)
    ensures var (add, remove) := Neighbors(idx, n);
      && (forall k: nat, c: nat :: (k, c) in add <==> k < n && TestBit(idx, k) == 0 && c == idx + Pow2(k))
      && (forall k: nat, c: nat :: (k, c) in remove <==> k < n && TestBit(idx, k) == 1 && c + Pow2(k) == idx)
      && (forall i, j :: 0 <= i < j < |add| ==> add[i].0 > add[j].0)
      && (forall i, j :: 0 <= i < j < |remove| ==> remove[i].0 > remove[j].0)
      && |remove| == Popcount(Bits(idx, n))
  {
    AddEdgesMembers(idx, n);
    RemoveEdgesMembers(idx, n);
    RemoveEdgesCount(idx, n);
  }

  /** The origin, and only the origin, has no remove edges. */
  lemma OriginHasNoRemoveEdges(idx: nat, n: nat)
    requires idx < Pow2(n)
    ensures Neighbors(idx, n).1 == [] <==> idx == 0
  {
    RemoveEdgesCount(idx, n);
    PopcountZero(Bits(idx, n));
    IndexOfBits(idx, n);
  }

  /** Bit k of an in-range index is the entry at list position n-1-k. */
  lemma BitIsEntry(idx: nat, n: nat, k: nat)
    requires k < n
    ensures TestBit(idx, k) == Bits(idx, n)[n - 1 - k]
  {
    BitsAt(idx, n, n - 1 - k);
  }

  /** An add edge (k, c) of an in-range state leads to the state with drug
      k+1 engaged as well, one Hamming step away, and still in range. */
  lemma AddEdgeChild(idx: nat, n: nat, k: nat, c: nat)
    requires idx < Pow2(n) && k < n && (k, c) in Neighbors(idx, n).0
    ensures c < Pow2(n) && Bits(idx, n)[n - 1 - k] == 0
    ensures Bits(c, n) == Bits(idx, n)[n - 1 - k := 1]
    ensures Hamming(Bits(idx, n), Bits(c, n)) == Ok(1)
  {
    NeighborsSpec(idx, n);
    FlipBit(idx, c, n, k, 1);
  }

  /** A remove edge (k, c) of an in-range state leads to the state with drug
      k+1 disengaged, one Hamming step away. */
  lemma RemoveEdgeParent(idx: nat, n: nat, k: nat, c: nat)
    requires idx < Pow2(n) && k < n && (k, c) in Neighbors(idx, n).1
    ensures c < Pow2(n) && Bits(idx, n)[n - 1 - k] == 1
    ensures Bits(c, n) == Bits(idx, n)[n - 1 - k := 0]
    ensures Hamming(Bits(idx, n), Bits(c, n)) == Ok(1)
  {
    NeighborsSpec(idx, n);
    FlipBit(idx, c, n, k, 0);
  }

  /** Flipping bit k of an in-range index to b flips list position n-1-k. */
  lemma FlipBit(idx: nat, c: nat, n: nat, k: nat, b: Bit)
    requires idx < Pow2(n) && k < n && TestBit(idx, k) != b
    requires if b == 1 then c == idx + Pow2(k) else c + Pow2(k) == idx
    ensures c < Pow2(n) && Bits(idx, n)[n - 1 - k] != b
    ensures Bits(c, n) == Bits(idx, n)[n - 1 - k := b]
    ensures Hamming(Bits(idx, n), Bits(c, n)) == Ok(1)
  {
    var s := Bits(idx, n);
    var t := s[n - 1 - k := b];
    FlipBitIndex(idx, c, n, k, b);
    BitsOfIndex(t);
    HammingOne(s, t, n - 1 - k);
  }

  lemma FlipBitIndex(idx: nat, c: nat, n: nat, k: nat, b: Bit)
    requires idx < Pow2(n) && k < n && TestBit(idx, k) != b
    requires if b == 1 then c == idx + Pow2(k) else c + Pow2(k) == idx
    ensures Bits(idx, n)[n - 1 - k] != b
    ensures Index(Bits(idx, n)[n - 1 - k := b]) == c
  {
    var s := Bits(idx, n);
    var p := n - 1 - k;
    BitIsEntry(idx, n, k);
    IndexOfBits(idx, n);
    assert |s| - 1 - p == k;
    IndexUpdate(s, p, b);
  }

  /** The transition graph is consistent: c is reached from p by adding drug
      k+1 exactly when p is reached from c by removing it. */
  lemma AddRemoveInverse(p: nat, c: nat, n: nat, k: nat)
    requires p < Pow2(n) && c < Pow2(n)
    ensures (k, c) in Neighbors(p, n).0 <==> (k, p) in Neighbors(c, n).1
  {
    NeighborsSpec(p, n);
    NeighborsSpec(c, n);
    if (k, c) in Neighbors(p, n).0 {
      AddEdgeChild(p, n, k, c);
      BitIsEntry(c, n, k);
    }
    if (k, p) in Neighbors(c, n).1 {
      RemoveEdgeParent(c, n, k, p);
      BitIsEntry(p, n, k);
    }
  }

  /** The three-drug states of indices 0 to 7. */
  lemma ThreeDrugBits()
    ensures Bits(0, 3) == [0, 0, 0] && Bits(1, 3) == [0, 0, 1]
    ensures Bits(2, 3) == [0, 1, 0] && Bits(3, 3) == [0, 1, 1]
    ensures Bits(4, 3) == [1, 0, 0] && Bits(5, 3) == [1, 0, 1]
    ensures Bits(6, 3) == [1, 1, 0] && Bits(7, 3) == [1, 1, 1]
  {
    assert Bits(0, 1) == [0] && Bits(1, 1) == [1];
    assert Bits(0, 2) == Bits(0, 1) + [0] && Bits(1, 2) == Bits(0, 1) + [1];
    assert Bits(2, 2) == Bits(1, 1) + [0] && Bits(3, 2) == Bits(1, 1) + [1];
    assert Bits(0, 3) == Bits(0, 2) + [0] && Bits(1, 3) == Bits(0, 2) + [1];
    assert Bits(2, 3) == Bits(1, 2) + [0] && Bits(3, 3) == Bits(1, 2) + [1];
    assert Bits(4, 3) == Bits(2, 2) + [0] && Bits(5, 3) == Bits(2, 2) + [1];
    assert Bits(6, 3) == Bits(3, 2) + [0] && Bits(7, 3) == Bits(3, 2) + [1];
  }

  /** The cases exercised for `_idx_to_state`, and the two out-of-range
      indices on either side. */
  lemma IdxToStateExamples()
    ensures IdxToState(0, 3) == Ok([0, 0, 0]) && IdxToState(1, 3) == Ok([0, 0, 1])
    ensures IdxToState(2, 3) == Ok([0, 1, 0]) && IdxToState(3, 3) == Ok([0, 1, 1])
    ensures IdxToState(4, 3) == Ok([1, 0, 0]) && IdxToState(5, 3) == Ok([1, 0, 1])
    ensures IdxToState(6, 3) == Ok([1, 1, 0]) && IdxToState(7, 3) == Ok([1, 1, 1])
    ensures IdxToState(8, 3) == DomainError && IdxToState(-1, 3) == DomainError
  {
    assert Pow2(3) == 8;
    ThreeDrugBits();
  }

  /** Reading back the index of a three-drug state. */
  lemma StateToIdxOf(xs: seq<int>, i: nat)
    requires i < 8 && |xs| == 3 && forall p :: 0 <= p < 3 ==> 0 <= xs[p] <= 1
    requires Bits(i, 3) == xs
    ensures StateToIdx(xs) == Ok(i)
  {
    assert Pow2(3) == 8;
    var r := StateToIdx(xs);
    IndexOfBits(i, 3);
    IndexOfBits(r.value, 3);
  }

  /** The cases exercised for `_state_to_idx`, and a vector with an entry
      that is not a bit. */
  lemma StateToIdxExamples()
    ensures StateToIdx([0, 0, 0]) == Ok(0) && StateToIdx([0, 0, 1]) == Ok(1)
    ensures StateToIdx([0, 1, 0]) == Ok(2) && StateToIdx([0, 1, 1]) == Ok(3)
    ensures StateToIdx([1, 0, 0]) == Ok(4) && StateToIdx([1, 0, 1]) == Ok(5)
    ensures StateToIdx([1, 1, 0]) == Ok(6) && StateToIdx([1, 1, 1]) == Ok(7)
    ensures StateToIdx([0, 2]) == DomainError
  {
    ThreeDrugBits();
    StateToIdxOf([0, 0, 0], 0);
    StateToIdxOf([0, 0, 1], 1);
    StateToIdxOf([0, 1, 0], 2);
    StateToIdxOf([0, 1, 1], 3);
    StateToIdxOf([1, 0, 0], 4);
    StateToIdxOf([1, 0, 1], 5);
    StateToIdxOf([1, 1, 0], 6);
    StateToIdxOf([1, 1, 1], 7);
    assert !(0 <= [0, 2][1] <= 1);
  }

  /** The cases exercised for `_hamming`. */
  lemma HammingExamples()
    ensures Hamming([0, 0, 0, 0], [0, 0, 0, 0]) == Ok(0)
    ensures Hamming([0, 0, 0, 0], [1, 1, 0, 0]) == Ok(2) && Hamming([1, 1, 0, 0], [0, 0, 0, 0]) == Ok(2)
    ensures Hamming([0, 1], [1, 1]) == Ok(1) && Hamming([0, 1], [0, 1, 1]) == DomainError
  {
    HammingMetric([0, 0, 0, 0], [0, 0, 0, 0]);
    assert DiffPositions([0, 0, 0, 0], [1, 1, 0, 0]) == {0, 1};
    assert DiffPositions([1, 1, 0, 0], [0, 0, 0, 0]) == {0, 1};
    HammingOne([0, 1], [1, 1], 0);
  }

  /** The cases exercised for `_get_neighbors`: the origin of three drugs,
      and state [0,1,1,0] (index 6) of four drugs. */
  lemma NeighborsExamples()
    ensures Neighbors(0, 3) == ([(2, 4), (1, 2), (0, 1)], [])
    ensures Neighbors(6, 4) == ([(3, 14), (0, 7)], [(2, 2), (1, 4)])
  {
    OriginNeighbors();
    InnerNeighbors();
  }

  lemma OriginNeighbors()
    ensures AddEdges(0, 3) == [(2, 4), (1, 2), (0, 1)] && RemoveEdges(0, 3) == []
  {
    assert Pow2(1) == 2 && Pow2(2) == 4 && Pow2(3) == 8;
    assert TestBit(0, 1) == TestBit(0, 0) == 0 && TestBit(0, 2) == TestBit(0, 1);
    assert AddEdges(0, 1) == [(0, 1)] && RemoveEdges(0, 1) == [];
    assert AddEdges(0, 2) == [(1, 2), (0, 1)] && RemoveEdges(0, 2) == [];
  }

  lemma InnerNeighbors()
    ensures AddEdges(6, 4) == [(3, 14), (0, 7)] && RemoveEdges(6, 4) == [(2, 2), (1, 4)]
  {
    assert Pow2(1) == 2 && Pow2(2) == 4 && Pow2(3) == 8;
    assert TestBit(6, 0) == 0;
    assert TestBit(6, 1) == TestBit(3, 0) == 1;
    assert TestBit(6, 2) == TestBit(3, 1) == TestBit(1, 0) == 1;
    assert TestBit(6, 3) == TestBit(3, 2) == TestBit(1, 1) == TestBit(0, 0) == 0;
    assert AddEdges(6, 1) == [(0, 7)] && RemoveEdges(6, 1) == [];
    assert AddEdges(6, 2) == [(0, 7)] && RemoveEdges(6, 2) == [(1, 4)];
    assert AddEdges(6, 3) == [(0, 7)] && RemoveEdges(6, 3) == [(2, 2), (1, 4)];
  }
}
