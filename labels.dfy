/** The human-readable labels of states and edges: the drug string of a
    state ("2,3" for drugs 2 and 3), the difference string of two states and
    the edge string of a transition, from which parameter names are built. */
module Labels {
  import opened StateSpace

  function DigitChar(d: nat): (c: char)
    requires d < 10
    ensures '0' <= c <= '9'
  {
    (48 + d) as char
  }

  function DigitValue(c: char): nat
  {
    if '0' <= c <= '9' then c as int - 48 else 0
  }

  predicate IsDigits(s: string)
  {
    forall i :: 0 <= i < |s| ==> '0' <= s[i] <= '9'
  }

  /** The decimal form of a natural number, as Python's `str` writes it. */
  function NatToString(d: nat): (s: string)
    ensures |s| >= 1 && IsDigits(s)
  {
    if d < 10 then [DigitChar(d)] else NatToString(d / 10) + [DigitChar(d % 10)]
  }

  /** Reads a string of decimal digits back as a number. */
  function ParseNat(s: string): nat
  {
    if s == [] then 0 else ParseNat(s[..|s| - 1]) * 10 + DigitValue(s[|s| - 1])
  }

  lemma {:induction false} ParseNatToString(d: nat)
    ensures ParseNat(NatToString(d)) == d
  {
    var s := NatToString(d);
    if d < 10 {
      assert s[..0] == [];
    } else {
      assert s[..|s| - 1] == NatToString(d / 10);
      ParseNatToString(d / 10);
    }
  }

  /** Comma-joins strings, as Python's `",".join`. */
  function Join(parts: seq<string>): string
  {
    if |parts| == 0 then ""
    else if |parts| == 1 then parts[0]
    else parts[0] + "," + Join(parts[1..])
  }

  /** Splits a string at every comma, as Python's `str.split(",")`. */
  function Split(s: string): (r: seq<string>)
    ensures |r| >= 1
  {
    if s == [] then [""]
    else
      var rest := Split(s[1..]);
      if s[0] == ',' then [""] + rest else [[s[0]] + rest[0]] + rest[1..]
  }

  lemma {:induction false} SplitPrefix(a: string, b: string)
    requires ',' !in a
    ensures Split(a + b) == [a + Split(b)[0]] + Split(b)[1..]
  {
    var sb := Split(b);
    if a == [] {
      assert a + b == b;
      assert a + sb[0] == sb[0];
      assert [sb[0]] + sb[1..] == sb;
    } else {
      var ab := a + b;
      assert ab[0] == a[0] && ab[1..] == a[1..] + b;
      SplitPrefix(a[1..], b);
      var r := Split(a[1..] + b);
      assert r[0] == a[1..] + sb[0] && r[1..] == sb[1..];
      assert Split(ab) == [[a[0]] + r[0]] + r[1..];
      assert [a[0]] + (a[1..] + sb[0]) == a + sb[0];
    }
  }

  predicate CommaFree(parts: seq<string>)
  {
    forall i :: 0 <= i < |parts| ==> ',' !in parts[i]
  }

  lemma {:induction false} SplitJoin(parts: seq<string>)
    requires |parts| >= 1 && CommaFree(parts)
    ensures Split(Join(parts)) == parts
  {
    if |parts| == 1 {
      SplitPrefix(parts[0], "");
      assert parts[0] + "" == parts[0];
      assert [parts[0]] + [""][1..] == parts;
    } else {
      var rest := Join(parts[1..]);
      var tail := "," + rest;
      SplitPrefix(parts[0], tail);
      assert tail[0] == ',' && tail[1..] == rest;
      SplitJoin(parts[1..]);
      assert Split(tail) == [""] + parts[1..];
      assert Join(parts) == parts[0] + tail;
      assert parts[0] + "" == parts[0];
      assert [parts[0]] + parts[1..] == parts;
    }
  }

  lemma {:induction false} JoinEmpty(parts: seq<string>)
    requires forall i :: 0 <= i < |parts| ==> parts[i] != ""
    ensures Join(parts) == "" <==> parts == []
  {
  }

  /** The drugs d..|s| (1-based) engaged in s, in increasing order. Drug d
      sits at list position |s| - d. */
  function DrugsFrom(s: State, d: nat): seq<nat>
    requires d >= 1
    decreases |s| + 1 - d
  {
    if d > |s| then [] else (if s[|s| - d] == 1 then [d] else []) + DrugsFrom(s, d + 1)
  }

  /** The engaged drugs of s (1-based), in increasing order. */
  function DrugsOf(s: State): seq<nat>
  {
    DrugsFrom(s, 1)
  }

  ghost predicate StrictlyIncreasing(xs: seq<nat>)
  {
    forall i, j :: 0 <= i < j < |xs| ==> xs[i] < xs[j]
  }

  lemma DrugsFromSpec(s: State, d: nat)
    requires d >= 1
    ensures forall x :: x in DrugsFrom(s, d) <==> d <= x <= |s| && s[|s| - x] == 1
    ensures StrictlyIncreasing(DrugsFrom(s, d))
  {
    DrugsFromMembers(s, d);
    DrugsFromIncreasing(s, d);
  }

  lemma {:induction false} DrugsFromMembers(s: State, d: nat)
    requires d >= 1
    ensures forall x :: x in DrugsFrom(s, d) <==> d <= x <= |s| && s[|s| - x] == 1
    decreases |s| + 1 - d
  {
    if d <= |s| {
      DrugsFromMembers(s, d + 1);
      var rest := DrugsFrom(s, d + 1);
      if s[|s| - d] == 1 {
        assert DrugsFrom(s, d) == [d] + rest;
        ConsMembers(d, rest);
      } else {
        assert DrugsFrom(s, d) == rest;
      }
    }
  }

  lemma {:induction false} DrugsFromIncreasing(s: State, d: nat)
    requires d >= 1
    ensures StrictlyIncreasing(DrugsFrom(s, d))
    decreases |s| + 1 - d
  {
    if d <= |s| {
      DrugsFromIncreasing(s, d + 1);
      DrugsFromMembers(s, d + 1);
      var rest := DrugsFrom(s, d + 1);
      if s[|s| - d] == 1 {
        assert DrugsFrom(s, d) == [d] + rest;
        ConsIncreasing(d, rest);
      } else {
        assert DrugsFrom(s, d) == rest;
      }
    }
  }

  lemma ConsMembers(d: nat, rest: seq<nat>)
    ensures forall x :: x in [d] + rest <==> x == d || x in rest
  {
  }

  /** Putting a value below every member in front keeps a list increasing. */
  lemma ConsIncreasing(d: nat, rest: seq<nat>)
    requires StrictlyIncreasing(rest) && forall x :: x in rest ==> d < x
    ensures StrictlyIncreasing([d] + rest)
  {
    var xs := [d] + rest;
    forall i, j | 0 <= i < j < |xs| ensures xs[i] < xs[j] {
      assert xs[j] == rest[j - 1];
      assert rest[j - 1] in rest;
      if i > 0 {
        assert xs[i] == rest[i - 1];
      }
    }
  }

  /** The drugs of a state are exactly those whose list position holds 1,
      listed once each in increasing order; there are popcount of them. */
  lemma DrugsOfSpec(s: State)
    ensures forall x :: x in DrugsOf(s) <==> 1 <= x <= |s| && s[|s| - x] == 1
    ensures StrictlyIncreasing(DrugsOf(s))
  {
    DrugsFromSpec(s, 1);
  }

  function DrugNames(ds: seq<nat>): (names: seq<string>)
    ensures |names| == |ds|
  {
    seq(|ds|, i requires 0 <= i < |ds| => NatToString(ds[i]))
  }

  /** Only digits and commas: the alphabet of drug strings. */
  predicate DrugChars(str: string)
  {
    forall i :: 0 <= i < |str| ==> str[i] == ',' || '0' <= str[i] <= '9'
  }

  /** `_get_drug_string_from_state`: the engaged drugs of s, 1-based and
      counted from the right of the vector, ascending and comma-joined; ""
      for the origin. */
  function DrugString(s: State): string
  {
    Join(DrugNames(DrugsOf(s)))
  }

  /** Reads a drug string back as its list of drugs. */
  function ParseDrugString(str: string): seq<nat>
  {
    if str == "" then []
    else
      var parts := Split(str);
      seq(|parts|, i requires 0 <= i < |parts| => ParseNat(parts[i]))
  }

  lemma DrugNamesShape(ds: seq<nat>)
    ensures CommaFree(DrugNames(ds))
    ensures forall i :: 0 <= i < |ds| ==> DrugNames(ds)[i] != ""
  {
    forall i | 0 <= i < |ds| ensures ',' !in DrugNames(ds)[i] {
      assert IsDigits(NatToString(ds[i]));
    }
  }

  /** The comma-joined decimal forms of a list of drugs read back as that
      list, and are "" just for the empty list. */
  lemma JoinNamesRoundTrip(ds: seq<nat>)
    ensures ParseDrugString(Join(DrugNames(ds))) == ds
    ensures Join(DrugNames(ds)) == "" <==> ds == []
  {
    var names := DrugNames(ds);
    DrugNamesShape(ds);
    JoinEmpty(names);
    if ds != [] {
      SplitJoin(names);
      forall i | 0 <= i < |ds| ensures ParseDrugString(Join(names))[i] == ds[i] {
        ParseNatToString(ds[i]);
      }
    }
  }

  /** Comma-joining strings of digits gives digits and commas only. */
  lemma {:induction false} JoinDigits(parts: seq<string>)
    requires forall i :: 0 <= i < |parts| ==> IsDigits(parts[i])
    ensures DrugChars(Join(parts))
  {
    if |parts| > 1 {
      JoinDigits(parts[1..]);
      var head, rest := parts[0], Join(parts[1..]);
      assert IsDigits(head);
      forall i | 0 <= i < |head + "," + rest|
        ensures (head + "," + rest)[i] == ',' || '0' <= (head + "," + rest)[i] <= '9'
      {
        if i > |head| {
          assert (head + "," + rest)[i] == rest[i - |head| - 1];
        }
      }
    } else if |parts| == 1 {
      assert IsDigits(parts[0]);
    }
  }

  /** The drug string of a state is read back as the drugs of that state. */
  lemma DrugStringRoundTrip(s: State)
    ensures ParseDrugString(DrugString(s)) == DrugsOf(s)
    ensures DrugString(s) == "" <==> DrugsOf(s) == []
  {
    JoinNamesRoundTrip(DrugsOf(s));
  }

  /** `_get_drug_string_from_state` as the tests describe it: the string
      reads back as exactly the engaged drugs, each once, ascending, and it
      is "" just for the origin. */
  lemma DrugStringSpec(s: State)
    ensures ParseDrugString(DrugString(s)) == DrugsOf(s)
    ensures forall x :: x in DrugsOf(s) <==> 1 <= x <= |s| && s[|s| - x] == 1
    ensures StrictlyIncreasing(DrugsOf(s))
    ensures DrugString(s) == "" <==> Popcount(s) == 0
  {
    DrugStringRoundTrip(s);
    DrugsOfSpec(s);
    NoDrugs(s);
  }

  /** The drug string determines the state among states of the same number
      of drugs. */
  lemma DrugStringInjective(a: State, b: State)
    requires |a| == |b| && DrugString(a) == DrugString(b)
    ensures a == b
  {
    DrugsOfSpec(a);
    DrugsOfSpec(b);
    DrugStringRoundTrip(a);
    DrugStringRoundTrip(b);
    assert DrugsOf(a) == DrugsOf(b);
    forall p | 0 <= p < |a| ensures a[p] == b[p] {
      assert a[|a| - (|a| - p)] == a[p];
      assert b[|b| - (|b| - p)] == b[p];
      assert (a[p] == 1) == ((|a| - p) in DrugsOf(a));
      assert (b[p] == 1) == ((|a| - p) in DrugsOf(b));
    }
  }

  /** A state lists as many drugs as it has engaged. */
  lemma DrugCount(s: State)
    ensures |DrugsOf(s)| == Popcount(s)
  {
    DrugsFromCount(s, |s|);
    assert s[..|s|] == s;
  }

  /** The drugs numbered |s| + 1 - k and up sit at the first k positions. */
  lemma {:induction false} DrugsFromCount(s: State, k: nat)
    requires k <= |s|
    ensures |DrugsFrom(s, |s| + 1 - k)| == Popcount(s[..k])
  {
    if k == 0 {
      assert s[..k] == [];
    } else {
      var d := |s| + 1 - k;
      DrugsFromCount(s, k - 1);
      assert |s| + 1 - (k - 1) == d + 1;
      PrefixPopcount(s, k - 1);
      DrugsFromStep(s, d);
      assert |s| - d == k - 1;
    }
  }

  lemma PrefixPopcount(s: State, q: nat)
    requires q < |s|
    ensures Popcount(s[..q + 1]) == Popcount(s[..q]) + s[q]
  {
    assert s[..q + 1][..q] == s[..q];
  }

  lemma DrugsFromStep(s: State, d: nat)
    requires 1 <= d <= |s|
    ensures |DrugsFrom(s, d)| == s[|s| - d] + |DrugsFrom(s, d + 1)|
  {
  }

  /** A state has no drugs listed exactly when no drug is engaged. */
  lemma NoDrugs(s: State)
    ensures DrugsOf(s) == [] <==> Popcount(s) == 0
  {
    DrugsOfSpec(s);
    PopcountZero(s);
    if Popcount(s) != 0 {
      ZeroIndexFrom(s);
      var p :| 0 <= p < |s| && s[p] == 1;
      assert s[|s| - (|s| - p)] == 1;
      assert (|s| - p) in DrugsOf(s);
    } else {
      AllZero(s);
      DrugsFromNone(s, 1);
    }
  }

  lemma {:induction false} AllZero(s: State)
    requires Popcount(s) == 0
    ensures forall p :: 0 <= p < |s| ==> s[p] == 0
  {
    if s != [] {
      AllZero(s[..|s| - 1]);
      assert forall p :: 0 <= p < |s| - 1 ==> s[p] == s[..|s| - 1][p];
    }
  }

  lemma {:induction false} ZeroIndexFrom(s: State)
    requires Popcount(s) != 0
    ensures exists p :: 0 <= p < |s| && s[p] == 1
  {
    var pre := s[..|s| - 1];
    if s[|s| - 1] == 0 {
      ZeroIndexFrom(pre);
      var p :| 0 <= p < |pre| && pre[p] == 1;
      assert s[p] == 1;
    }
  }

  lemma {:induction false} DrugsFromNone(s: State, d: nat)
    requires d >= 1 && forall p :: 0 <= p < |s| ==> s[p] == 0
    ensures DrugsFrom(s, d) == []
    decreases |s| + 1 - d
  {
    if d <= |s| {
      DrugsFromNone(s, d + 1);
    }
  }

  lemma {:induction false} DrugsFromSingle(s: State, p: nat, d: nat)
    requires p < |s| && d >= 1
    requires forall q :: 0 <= q < |s| ==> s[q] == if q == p then 1 else 0
    ensures DrugsFrom(s, d) == if d <= |s| - p then [|s| - p] else []
    decreases |s| + 1 - d
  {
    if d <= |s| {
      DrugsFromSingle(s, p, d + 1);
      assert s[|s| - d] == if d == |s| - p then 1 else 0;
    }
  }

  /** A state with the single drug at list position p engaged has the drug
      string of drug |s| - p alone. */
  lemma SingleDrugString(s: State, p: nat)
    requires p < |s|
    requires forall q :: 0 <= q < |s| ==> s[q] == if q == p then 1 else 0
    ensures DrugsOf(s) == [|s| - p]
    ensures DrugString(s) == NatToString(|s| - p)
  {
    DrugsFromSingle(s, p, 1);
  }

  /** The state of a single drug keeps only the additions of b over a. */
  function Added(a: State, b: State): (s: State)
    requires |a| == |b|
    ensures |s| == |a|
  {
    seq(|a|, p requires 0 <= p < |a| => if b[p] == 1 && a[p] == 0 then 1 else 0)
  }

  /** `_get_drug_difference_string`: the drugs engaged in b and not in a,
      labelled as a drug string. */
  function DifferenceString(a: State, b: State): string
    requires |a| == |b|
  {
    DrugString(Added(a, b))
  }

  /** The difference string lists exactly the drugs that b adds to a, once
      each and ascending; it is "" exactly when b adds nothing, whatever b
      removes. */
  lemma DifferenceStringSpec(a: State, b: State)
    requires |a| == |b|
    ensures ParseDrugString(DifferenceString(a, b)) == DrugsOf(Added(a, b))
    ensures forall x :: x in DrugsOf(Added(a, b)) <==> 1 <= x <= |a| && b[|a| - x] == 1 && a[|a| - x] == 0
    ensures StrictlyIncreasing(DrugsOf(Added(a, b)))
    ensures DifferenceString(a, b) == "" <==> forall p :: 0 <= p < |a| && b[p] == 1 ==> a[p] == 1
  {
    var s := Added(a, b);
    DrugStringSpec(s);
    if Popcount(s) == 0 {
      AllZero(s);
      forall p | 0 <= p < |a| && b[p] == 1 ensures a[p] == 1 {
        assert s[p] == 0;
      }
    } else {
      ZeroIndexFrom(s);
    }
  }

  /** The part of a string before its first "_" (all of it when there is
      none), as the head of Python's `str.partition("_")`. */
  function PartitionHead(str: string): string
  {
    if str == [] || str[0] == '_' then [] else [str[0]] + PartitionHead(str[1..])
  }

  /** The part of a string after its first "_" ("" when there is none). */
  function PartitionTail(str: string): string
  {
    if str == [] then [] else if str[0] == '_' then str[1..] else PartitionTail(str[1..])
  }

  /** A string without "_", then "_", partitions back into its two parts. */
  lemma {:induction false} PartitionJoin(x: string, y: string)
    requires DrugChars(x)
    ensures PartitionHead(x + "_" + y) == x && PartitionTail(x + "_" + y) == y
  {
    var xy := x + "_" + y;
    if x == [] {
      assert xy == "_" + y && xy[1..] == y;
    } else {
      assert xy[0] == x[0] != '_';
      assert xy[1..] == x[1..] + "_" + y;
      PartitionJoin(x[1..], y);
      assert [x[0]] + x[1..] == x;
    }
  }

  /** `_get_drug_string_from_edge`: the drug string of the parent state,
      then "_", then the drugs the child adds. */
  function EdgeString(parent: State, child: State): string
    requires |parent| == |child|
  {
    DrugString(parent) + "_" + DifferenceString(parent, child)
  }

  /** A drug string holds only digits and commas. */
  lemma DrugStringChars(s: State)
    ensures DrugChars(DrugString(s))
  {
    JoinDigits(DrugNames(DrugsOf(s)));
  }

  /** Partitioned at its first "_", an edge string gives back the parent's
      drug string and the difference string, and so reads back as the
      parent's drugs and the drugs the child adds. */
  lemma EdgeStringParts(parent: State, child: State)
    requires |parent| == |child|
    ensures PartitionHead(EdgeString(parent, child)) == DrugString(parent)
    ensures PartitionTail(EdgeString(parent, child)) == DifferenceString(parent, child)
    ensures ParseDrugString(PartitionHead(EdgeString(parent, child))) == DrugsOf(parent)
    ensures ParseDrugString(PartitionTail(EdgeString(parent, child))) == DrugsOf(Added(parent, child))
  {
    DrugStringChars(parent);
    PartitionJoin(DrugString(parent), DifferenceString(parent, child));
    DrugStringRoundTrip(parent);
    DrugStringRoundTrip(Added(parent, child));
  }

  /** Along an add edge (k, c) of the transition graph the edge string is
      the parent's drug string, "_", and the added drug k+1. */
  lemma EdgeStringOfEdge(idx: nat, n: nat, k: nat, c: nat)
    requires idx < Pow2(n) && k < n && (k, c) in Neighbors(idx, n).0
    ensures EdgeString(Bits(idx, n), Bits(c, n)) == DrugString(Bits(idx, n)) + "_" + NatToString(k + 1)
  {
    AddEdgeChild(idx, n, k, c);
    EdgeStringOfFlip(Bits(idx, n), Bits(c, n), n - 1 - k, k + 1);
  }

  /** Engaging the clear list position p of a state, the position of drug
      d, labels the edge with the state's drug string and d. */
  lemma EdgeStringOfFlip(s: State, t: State, p: nat, d: nat)
    requires p < |s| && s[p] == 0 && t == s[p := 1] && |s| - p == d
    ensures EdgeString(s, t) == DrugString(s) + "_" + NatToString(d)
  {
    AddedByFlip(s, p);
  }

  /** Engaging the drug at list position p of s adds that drug alone. */
  lemma AddedByFlip(s: State, p: nat)
    requires p < |s| && s[p] == 0
    ensures DifferenceString(s, s[p := 1]) == NatToString(|s| - p)
  {
    var added := Added(s, s[p := 1]);
    forall q | 0 <= q < |s| ensures added[q] == if q == p then 1 else 0 {
      assert s[p := 1][q] == if q == p then 1 else s[q];
    }
    SingleDrugString(added, p);
  }

  /** The origin's drug string is "" and the state of drug i+1 alone, index
      2^i, has drug string "i+1". */
  lemma SingleDrugIndexString(i: nat, n: nat)
    requires i < n
    ensures DrugString(Bits(0, n)) == ""
    ensures Pow2(i) < Pow2(n) && DrugString(Bits(Pow2(i), n)) == NatToString(i + 1)
  {
    OriginDrugString(n);
    OriginIsZero(n);
    SingleBitState(i, n);
    SingleDrugString(Bits(Pow2(i), n), n - 1 - i);
  }

  lemma OriginDrugString(n: nat)
    ensures DrugString(Bits(0, n)) == ""
  {
    IndexOfBits(0, n);
    PopcountZero(Bits(0, n));
    DrugStringSpec(Bits(0, n));
  }

  lemma OriginIsZero(n: nat)
    ensures forall p :: 0 <= p < n ==> Bits(0, n)[p] == 0
  {
    IndexOfBits(0, n);
    PopcountZero(Bits(0, n));
    AllZero(Bits(0, n));
  }

  /** The state of index 2^i is the origin with list position n-1-i set. */
  lemma SingleBitState(i: nat, n: nat)
    requires i < n
    ensures Pow2(i) < Pow2(n) && Bits(Pow2(i), n) == Bits(0, n)[n - 1 - i := 1]
  {
    BitIsEntry(0, n, i);
    OriginIsZero(n);
    FlipBit(0, Pow2(i), n, i, 1);
  }

  /** The cases exercised for `_get_drug_string_from_state`. */
  lemma DrugStringExamples()
    ensures DrugString([1, 1, 0]) == "2,3"
    ensures DrugString([1, 0, 1, 1, 0]) == "2,3,5"
  {
    ExampleDrugs();
    ExampleNames();
    DrugStringOf([1, 1, 0], [2, 3], "2,3");
    DrugStringOf([1, 0, 1, 1, 0], [2, 3, 5], "2,3,5");
  }

  lemma ExampleDrugs()
    ensures DrugsOf([1, 1, 0]) == [2, 3] && DrugsOf([1, 0, 1, 1, 0]) == [2, 3, 5]
  {
  }

  lemma ExampleNames()
    ensures Join(DrugNames([2, 3])) == "2,3" && Join(DrugNames([2, 3, 5])) == "2,3,5"
  {
    assert DrugNames([2, 3]) == ["2", "3"];
    assert DrugNames([2, 3, 5]) == ["2", "3", "5"];
  }

  /** The drug string of a state from its drugs and their joined names. */
  lemma DrugStringOf(s: State, ds: seq<nat>, str: string)
    requires DrugsOf(s) == ds && Join(DrugNames(ds)) == str
    ensures DrugString(s) == str
  {
  }

  /** The case exercised for `_get_drug_string_from_edge`. */
  lemma EdgeStringExample()
    ensures EdgeString([1, 0, 0], [1, 0, 1]) == "3_1"
  {
    assert DrugsOf([1, 0, 0]) == [3];
    assert Added([1, 0, 0], [1, 0, 1]) == [0, 0, 1];
    assert DrugsOf([0, 0, 1]) == [1];
  }

  /** The cases exercised for `_get_drug_difference_string`: one added
      drug, two added drugs, nothing added, and a removal (ignored). */
  lemma DifferenceStringExamples()
    ensures DifferenceString([1, 0, 0], [1, 0, 1]) == "1"
    ensures DifferenceString([1, 0, 0], [1, 1, 0]) == "2"
    ensures DifferenceString([1, 0, 0], [1, 1, 1]) == "1,2"
    ensures DifferenceString([1, 0, 0], [1, 0, 0]) == ""
    ensures DifferenceString([1, 0, 0], [0, 0, 0]) == ""
  {
    ExampleAdditions();
    ExampleAddedDrugs();
    DifferenceStringOf([1, 0, 0], [1, 0, 1], [0, 0, 1], [1], "1");
    DifferenceStringOf([1, 0, 0], [1, 1, 0], [0, 1, 0], [2], "2");
    DifferenceStringOf([1, 0, 0], [1, 1, 1], [0, 1, 1], [1, 2], "1,2");
    DifferenceStringOf([1, 0, 0], [1, 0, 0], [0, 0, 0], [], "");
    DifferenceStringOf([1, 0, 0], [0, 0, 0], [0, 0, 0], [], "");
  }

  lemma ExampleAdditions()
    ensures Added([1, 0, 0], [1, 0, 1]) == [0, 0, 1] && Added([1, 0, 0], [1, 1, 0]) == [0, 1, 0]
    ensures Added([1, 0, 0], [1, 1, 1]) == [0, 1, 1]
    ensures Added([1, 0, 0], [1, 0, 0]) == [0, 0, 0] && Added([1, 0, 0], [0, 0, 0]) == [0, 0, 0]
  {
  }

  lemma ExampleAddedDrugs()
    ensures DrugsOf([0, 0, 1]) == [1] && DrugsOf([0, 1, 0]) == [2]
    ensures DrugsOf([0, 1, 1]) == [1, 2] && DrugsOf([0, 0, 0]) == []
    ensures Join(DrugNames([1])) == "1" && Join(DrugNames([2])) == "2"
    ensures Join(DrugNames([1, 2])) == "1,2" && Join(DrugNames([])) == ""
  {
    assert DrugNames([1]) == ["1"] && DrugNames([2]) == ["2"] && DrugNames([1, 2]) == ["1", "2"];
  }

  /** The difference string of two states from the additions, their drugs
      and the drugs' joined names. */
  lemma DifferenceStringOf(a: State, b: State, added: State, ds: seq<nat>, str: string)
    requires |a| == |b| && Added(a, b) == added
    requires DrugsOf(added) == ds && Join(DrugNames(ds)) == str
    ensures DifferenceString(a, b) == str
  {
    DrugStringOf(added, ds, str);
  }
}
