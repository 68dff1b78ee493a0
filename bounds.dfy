/** Fitting bounds: resolving every parameter's (lower, upper) pair from the
    bound overrides a model is built with, and projecting the bounds of one
    drug's single-drug Hill model out of them. */
module Bounds {
  import opened Numbers
  import opened StateSpace
  import opened Labels
  import opened Registry

  /** A (lower, upper) bound pair. */
  datatype Interval = Interval(lo: Num, hi: Num)

  /** No constraint: (-inf, inf). */
  const Unbounded: Interval := Interval(NegInf, PosInf)

  /** The linear-scale default of a single-drug h or C: (0, inf). */
  const NonNegative: Interval := Interval(Fin(0.0), PosInf)

  /** The bound overrides, keyed "<name>_bounds" for one parameter and
      "<family>_bounds" for a whole family, in linear scale. */
  type Overrides = map<string, Interval>

  function BoundKey(name: string): string
  {
    name + "_bounds"
  }

  /** The override that applies to parameter `name` of family f: its own key
      when present, otherwise its family's key. */
  function Override(kwargs: Overrides, name: string, f: Family): (o: Option<Interval>)
    ensures o.Some? <==> BoundKey(name) in kwargs || BoundKey(FamilyName(f)) in kwargs
    ensures BoundKey(name) in kwargs ==> o.value == kwargs[BoundKey(name)]
    ensures BoundKey(name) !in kwargs && o.Some? ==> o.value == kwargs[BoundKey(FamilyName(f))]
  {
    if BoundKey(name) in kwargs then Some(kwargs[BoundKey(name)])
    else if BoundKey(FamilyName(f)) in kwargs then Some(kwargs[BoundKey(FamilyName(f))])
    else None
  }

  /** Both ends of a bound pair in log scale. */
  function LogInterval(b: Interval, log: real -> real): Interval
  {
    Interval(ExtLog(b.lo, log), ExtLog(b.hi, log))
  }

  /** The bounds of one parameter as the model stores them: the override,
      logged for the log-scaled families, or unbounded when none applies. */
  function ResolveBound(kwargs: Overrides, p: Param, log: real -> real): (b: Interval)
    ensures Override(kwargs, p.name, p.family).None? ==> b == Unbounded
    ensures Override(kwargs, p.name, p.family).Some? && !LogScaled(p.family) ==>
      b == Override(kwargs, p.name, p.family).value
    ensures Override(kwargs, p.name, p.family).Some? && LogScaled(p.family) ==>
      b == LogInterval(Override(kwargs, p.name, p.family).value, log)
  {
    match Override(kwargs, p.name, p.family)
    case None => Unbounded
    case Some(given) => if LogScaled(p.family) then LogInterval(given, log) else given
  }

  /** A parameter's own override beats its family's, whatever that says. */
  lemma OwnOverrideWins(kwargs: Overrides, p: Param, log: real -> real, family: Interval)
    requires BoundKey(p.name) in kwargs && p.name != FamilyName(p.family)
    ensures ResolveBound(kwargs[BoundKey(FamilyName(p.family)) := family], p, log)
         == ResolveBound(kwargs, p, log)
    ensures ResolveBound(kwargs, p, log)
         == if LogScaled(p.family) then LogInterval(kwargs[BoundKey(p.name)], log) else kwargs[BoundKey(p.name)]
  {
    assert BoundKey(p.name)[..|p.name|] == p.name;
  }

  /** Without its own override a parameter takes its family's override, and
      with neither it is unbounded. */
  lemma FamilyOverrideApplies(kwargs: Overrides, p: Param, log: real -> real)
    requires BoundKey(p.name) !in kwargs
    ensures BoundKey(FamilyName(p.family)) in kwargs ==>
      ResolveBound(kwargs, p, log) ==
        if LogScaled(p.family) then LogInterval(kwargs[BoundKey(FamilyName(p.family))], log)
        else kwargs[BoundKey(FamilyName(p.family))]
    ensures BoundKey(FamilyName(p.family)) !in kwargs ==> ResolveBound(kwargs, p, log) == Unbounded
  {
  }

  /** A finite strictly positive interval has finite log bounds; the (0, inf)
      default of a single-drug h or C logs to the unbounded interval. */
  lemma LogIntervalFacts(b: Interval, log: real -> real)
    ensures b.lo.Fin? && b.lo.r > 0.0 && b.hi.Fin? && b.hi.r > 0.0 ==>
      LogInterval(b, log).lo.Fin? && LogInterval(b, log).hi.Fin?
    ensures LogInterval(NonNegative, log) == Unbounded
  {
  }

  /** The keyword bounds of one drug's single-drug Hill model, in linear scale. */
  datatype SingleDrugKwargs = SingleDrugKwargs(e0: Interval, emax: Interval, h: Interval, c: Interval)

  function OrElse(o: Option<Interval>, fallback: Interval): Interval
  {
    if o.Some? then o.value else fallback
  }

  /** The single-drug bounds of drug i + 1 (0-based i): E0 from E_0, Emax
      from E_<i+1>, h and C from h_<i+1> and C_<i+1>, each by its own key
      then its family's, defaulting to (-inf, inf) for E and (0, inf) for h
      and C. */
  function SingleDrugBounds(kwargs: Overrides, i: nat): (r: SingleDrugKwargs)
    ensures BoundKey("E_0") in kwargs ==> r.e0 == kwargs[BoundKey("E_0")]
    ensures BoundKey("E_" + NatToString(i + 1)) in kwargs ==> r.emax == kwargs[BoundKey("E_" + NatToString(i + 1))]
    ensures BoundKey("h_" + NatToString(i + 1)) in kwargs ==> r.h == kwargs[BoundKey("h_" + NatToString(i + 1))]
    ensures BoundKey("C_" + NatToString(i + 1)) in kwargs ==> r.c == kwargs[BoundKey("C_" + NatToString(i + 1))]
    ensures BoundKey("E_0") !in kwargs && BoundKey("E") !in kwargs ==> r.e0 == Unbounded
    ensures BoundKey("E_" + NatToString(i + 1)) !in kwargs && BoundKey("E") !in kwargs ==> r.emax == Unbounded
    ensures BoundKey("h_" + NatToString(i + 1)) !in kwargs && BoundKey("h") !in kwargs ==> r.h == NonNegative
    ensures BoundKey("C_" + NatToString(i + 1)) !in kwargs && BoundKey("C") !in kwargs ==> r.c == NonNegative
  {
    var drug := NatToString(i + 1);
    SingleDrugKwargs(
      OrElse(Override(kwargs, "E_0", Effect), Unbounded),
      OrElse(Override(kwargs, "E_" + drug, Effect), Unbounded),
      OrElse(Override(kwargs, "h_" + drug, HillSlope), NonNegative),
      OrElse(Override(kwargs, "C_" + drug, Potency), NonNegative))
  }

  /** In the parameter layout, E_0 sits at 0, E_<i+1> at 2^i, h_<i+1> at
      2^n + i and C_<i+1> at 2^n + n + i. */
  lemma SingleDrugSlots(n: nat, i: nat)
    requires i < n
    ensures Pow2(i) < Pow2(n) && Pow2(n) + n + i < |Params(n)|
    ensures Params(n)[0] == Param(Effect, "E_0")
    ensures Params(n)[Pow2(i)] == Param(Effect, "E_" + NatToString(i + 1))
    ensures Params(n)[Pow2(n) + i] == Param(HillSlope, "h_" + NatToString(i + 1))
    ensures Params(n)[Pow2(n) + n + i] == Param(Potency, "C_" + NatToString(i + 1))
  {
    SingleDrugIndexString(i, n);
    var e, h, c, a := EParams(n), HParams(n), CParams(n), AlphaParams(n);
    LayoutSlots(e, h, c, a, i);
    assert e[0] == Param(Effect, "E_0");
    assert e[Pow2(i)] == Param(Effect, "E_" + NatToString(i + 1));
  }

  /** Positions in four lists laid back to back. */
  lemma LayoutSlots(e: seq<Param>, h: seq<Param>, c: seq<Param>, a: seq<Param>, i: nat)
    requires i < |h| && i < |c|
    ensures forall k :: 0 <= k < |e| ==> (e + h + c + a)[k] == e[k]
    ensures (e + h + c + a)[|e| + i] == h[i]
    ensures (e + h + c + a)[|e| + |h| + i] == c[i]
  {
  }

  /** The single-drug bounds are the full bounds' slice for that drug, with
      h and C taken back to linear scale: never invented independently. */
  lemma SingleDrugProjection(kwargs: Overrides, n: nat, i: nat, log: real -> real)
    requires i < n
    ensures Pow2(i) < Pow2(n) && Pow2(n) + n + i < |Params(n)|
    ensures SingleDrugBounds(kwargs, i).e0 == ResolveBound(kwargs, Params(n)[0], log)
    ensures SingleDrugBounds(kwargs, i).emax == ResolveBound(kwargs, Params(n)[Pow2(i)], log)
    ensures LogInterval(SingleDrugBounds(kwargs, i).h, log) == ResolveBound(kwargs, Params(n)[Pow2(n) + i], log)
    ensures LogInterval(SingleDrugBounds(kwargs, i).c, log) == ResolveBound(kwargs, Params(n)[Pow2(n) + n + i], log)
  {
    SingleDrugSlots(n, i);
    var drug := NatToString(i + 1);
    ResolveLinear(kwargs, Param(Effect, "E_0"), log);
    ResolveLinear(kwargs, Param(Effect, "E_" + drug), log);
    ResolveLogged(kwargs, Param(HillSlope, "h_" + drug), log);
    ResolveLogged(kwargs, Param(Potency, "C_" + drug), log);
  }

  lemma ResolveLinear(kwargs: Overrides, p: Param, log: real -> real)
    requires !LogScaled(p.family)
    ensures ResolveBound(kwargs, p, log) == OrElse(Override(kwargs, p.name, p.family), Unbounded)
  {
  }

  /** For a log-scaled family the (0, inf) default is the unbounded log. */
  lemma ResolveLogged(kwargs: Overrides, p: Param, log: real -> real)
    requires LogScaled(p.family)
    ensures ResolveBound(kwargs, p, log) == LogInterval(OrElse(Override(kwargs, p.name, p.family), NonNegative), log)
  {
    LogIntervalFacts(NonNegative, log);
  }

  /** The names and the lower and upper bound vectors hold, position by
      position, the parameter layout of n drugs and its resolved bounds. */
  ghost predicate Stored(n: nat, kwargs: Overrides, log: real -> real, names: seq<string>, lower: seq<Num>, upper: seq<Num>)
  {
    && names == ParameterNames(n)
    && |lower| == |Params(n)| && |upper| == |Params(n)|
    && forall j :: 0 <= j < |Params(n)| ==> Interval(lower[j], upper[j]) == ResolveBound(kwargs, Params(n)[j], log)
  }

  /** The slice of drug i + 1 in stored bounds is its single-drug bounds,
      h and C in log scale. */
  lemma StoredSingleDrug(n: nat, kwargs: Overrides, log: real -> real, names: seq<string>, lower: seq<Num>, upper: seq<Num>, i: nat)
    requires Stored(n, kwargs, log, names, lower, upper) && i < n
    ensures Pow2(i) < Pow2(n) && Pow2(n) + n + i < |lower| && |lower| == |upper| == |names|
    ensures SingleDrugBounds(kwargs, i).e0 == Interval(lower[0], upper[0])
    ensures var j := Pow2(i); SingleDrugBounds(kwargs, i).emax == Interval(lower[j], upper[j])
    ensures var j := Pow2(n) + i; LogInterval(SingleDrugBounds(kwargs, i).h, log) == Interval(lower[j], upper[j])
    ensures var j := Pow2(n) + n + i; LogInterval(SingleDrugBounds(kwargs, i).c, log) == Interval(lower[j], upper[j])
  {
    SingleDrugProjection(kwargs, n, i, log);
  }

  lemma NamesAtSlots(ps: seq<Param>, n: nat, i: nat)
    requires Pow2(i) < Pow2(n) && Pow2(n) + n + i < |ps|
    requires ps[0] == Param(Effect, "E_0")
    requires ps[Pow2(i)] == Param(Effect, "E_" + NatToString(i + 1))
    requires ps[Pow2(n) + i] == Param(HillSlope, "h_" + NatToString(i + 1))
    requires ps[Pow2(n) + n + i] == Param(Potency, "C_" + NatToString(i + 1))
    ensures var names := Names(ps);
      && names[0] == "E_0"
      && names[Pow2(i)] == "E_" + NatToString(i + 1)
      && names[Pow2(n) + i] == "h_" + NatToString(i + 1)
      && names[Pow2(n) + n + i] == "C_" + NatToString(i + 1)
  {
  }

  /** The names at the slice of drug i + 1: E_0, E_<i+1>, h_<i+1>, C_<i+1>. */
  lemma SingleDrugNames(n: nat, i: nat)
    requires i < n
    ensures Pow2(i) < Pow2(n) && Pow2(n) + n + i < |ParameterNames(n)|
    ensures var names := ParameterNames(n);
      && names[0] == "E_0"
      && names[Pow2(i)] == "E_" + NatToString(i + 1)
      && names[Pow2(n) + i] == "h_" + NatToString(i + 1)
      && names[Pow2(n) + n + i] == "C_" + NatToString(i + 1)
  {
    SingleDrugSlots(n, i);
    NamesAtSlots(Params(n), n, i);
  }

  /** Bounds of the N-drug MuSyC model: the parameter names and the
      (lower, upper) bound vectors, filled once from the overrides. */
  class MuSyC {
    const numDrugs: nat
    const kwargs: Overrides
    const log: real -> real
    var parameterNames: seq<string>
    /** The lower bounds and the upper bounds, in parameter order. */
    var bounds: (seq<Num>, seq<Num>)

    ghost predicate Valid()
      reads this
    {
      Stored(numDrugs, kwargs, log, parameterNames, bounds.0, bounds.1)
    }

    constructor (n: nat, kwargs: Overrides, log: real -> real)
      ensures numDrugs == n && this.kwargs == kwargs && this.log == log
      ensures Valid()
    {
      numDrugs, this.kwargs, this.log := n, kwargs, log;
      parameterNames := ParameterNames(n);
      var params := Params(n);
      var lower, upper := [], [];
      var j := 0;
      while j < |params|
        invariant 0 <= j <= |params|
        invariant |lower| == j && |upper| == j
        invariant forall k :: 0 <= k < j ==> Interval(lower[k], upper[k]) == ResolveBound(kwargs, params[k], log)
      {
        var b := ResolveBound(kwargs, params[j], log);
        lower, upper := lower + [b.lo], upper + [b.hi];
        j := j + 1;
      }
      bounds := (lower, upper);
    }

    /** `_get_default_single_drug_kwargs`: the keyword bounds of drug
        i + 1's single-drug model, which are its slice of the stored bounds
        with h and C in linear scale. */
    function GetDefaultSingleDrugKwargs(i: nat): (r: SingleDrugKwargs)
      reads this
      requires Valid() && i < numDrugs
      ensures Pow2(i) < Pow2(numDrugs) && Pow2(numDrugs) + numDrugs + i < |bounds.0| == |bounds.1| == |parameterNames|
      ensures r.e0 == Interval(bounds.0[0], bounds.1[0])
      ensures var j := Pow2(i); r.emax == Interval(bounds.0[j], bounds.1[j])
      ensures var j := Pow2(numDrugs) + i; LogInterval(r.h, log) == Interval(bounds.0[j], bounds.1[j])
      ensures var j := Pow2(numDrugs) + numDrugs + i; LogInterval(r.c, log) == Interval(bounds.0[j], bounds.1[j])
    {
      StoredSingleDrug(numDrugs, kwargs, log, parameterNames, bounds.0, bounds.1, i);
      SingleDrugBounds(kwargs, i)
    }
  }

  // ---- The overrides of the bounds tests ----

  /** The overrides of the initialisation test, where em1, e1, em3 and e3
      stand for e^-1, e, e^-3 and e^3. */
  function InitKwargs(em1: real, e1: real, em3: real, e3: real): Overrides
  {
    map[
      "E_0_bounds" := Interval(Fin(0.95), Fin(1.05)),
      "E_1,2,3_bounds" := Interval(Fin(0.0), Fin(0.1)),
      "E_bounds" := Interval(Fin(0.0), Fin(1.0)),
      "h_1_bounds" := Interval(Fin(em1), Fin(e1)),
      "alpha_bounds" := Interval(Fin(em3), Fin(e3))]
  }

  /** Looking the given keys up in InitKwargs. */
  lemma InitKwargsLookup(em1: real, e1: real, em3: real, e3: real)
    ensures var kw := InitKwargs(em1, e1, em3, e3);
      && BoundKey("E_0") in kw && kw[BoundKey("E_0")] == Interval(Fin(0.95), Fin(1.05))
      && BoundKey("E_1,2,3") in kw && kw[BoundKey("E_1,2,3")] == Interval(Fin(0.0), Fin(0.1))
      && BoundKey("E") in kw && kw[BoundKey("E")] == Interval(Fin(0.0), Fin(1.0))
      && BoundKey("h_1") in kw && kw[BoundKey("h_1")] == Interval(Fin(em1), Fin(e1))
      && BoundKey("alpha") in kw && kw[BoundKey("alpha")] == Interval(Fin(em3), Fin(e3))
  {
    assert "E_0_bounds"[0] != "h_1_bounds"[0];
    assert BoundKey("E_0") == "E_0_bounds" && BoundKey("E_1,2,3") == "E_1,2,3_bounds";
    assert BoundKey("E") == "E_bounds" && BoundKey("h_1") == "h_1_bounds" && BoundKey("alpha") == "alpha_bounds";
  }

  lemma InitBoundsEffect(log: real -> real, em1: real, e1: real, em3: real, e3: real)
    requires em1 > 0.0 && e1 > 0.0 && em3 > 0.0 && e3 > 0.0
    requires log(em1) == -1.0 && log(e1) == 1.0 && log(em3) == -3.0 && log(e3) == 3.0
    ensures ResolveBound(InitKwargs(em1, e1, em3, e3), Param(Effect, "E_0"), log) == Interval(Fin(0.95), Fin(1.05))
    ensures ResolveBound(InitKwargs(em1, e1, em3, e3), Param(Effect, "E_1"), log) == Interval(Fin(0.0), Fin(1.0))
    ensures ResolveBound(InitKwargs(em1, e1, em3, e3), Param(Effect, "E_2"), log) == Interval(Fin(0.0), Fin(1.0))
    ensures ResolveBound(InitKwargs(em1, e1, em3, e3), Param(Effect, "E_1,2"), log) == Interval(Fin(0.0), Fin(1.0))
    ensures ResolveBound(InitKwargs(em1, e1, em3, e3), Param(Effect, "E_3"), log) == Interval(Fin(0.0), Fin(1.0))
    ensures ResolveBound(InitKwargs(em1, e1, em3, e3), Param(Effect, "E_1,3"), log) == Interval(Fin(0.0), Fin(1.0))
    ensures ResolveBound(InitKwargs(em1, e1, em3, e3), Param(Effect, "E_2,3"), log) == Interval(Fin(0.0), Fin(1.0))
    ensures ResolveBound(InitKwargs(em1, e1, em3, e3), Param(Effect, "E_1,2,3"), log) == Interval(Fin(0.0), Fin(0.1))
  {
    InitKwargsLookup(em1, e1, em3, e3);
    assert "E_0_bounds"[0] != "h_1_bounds"[0];
    assert "E_1_bounds"[2] != "E_0_bounds"[2];
    assert "E_1_bounds"[0] != "h_1_bounds"[0];
    assert "E_2_bounds"[2] != "E_0_bounds"[2];
    assert "E_2_bounds"[0] != "h_1_bounds"[0];
    assert "E_1,2_bounds"[0] != "alpha_bounds"[0];
    assert "E_3_bounds"[2] != "E_0_bounds"[2];
    assert "E_3_bounds"[0] != "h_1_bounds"[0];
    assert "E_1,3_bounds"[0] != "alpha_bounds"[0];
    assert "E_2,3_bounds"[0] != "alpha_bounds"[0];
  }

  lemma InitBoundsHillAndPotency(log: real -> real, em1: real, e1: real, em3: real, e3: real)
    requires em1 > 0.0 && e1 > 0.0 && em3 > 0.0 && e3 > 0.0
    requires log(em1) == -1.0 && log(e1) == 1.0 && log(em3) == -3.0 && log(e3) == 3.0
    ensures ResolveBound(InitKwargs(em1, e1, em3, e3), Param(HillSlope, "h_1"), log) == Interval(Fin(-1.0), Fin(1.0))
    ensures ResolveBound(InitKwargs(em1, e1, em3, e3), Param(HillSlope, "h_2"), log) == Interval(NegInf, PosInf)
    ensures ResolveBound(InitKwargs(em1, e1, em3, e3), Param(HillSlope, "h_3"), log) == Interval(NegInf, PosInf)
    ensures ResolveBound(InitKwargs(em1, e1, em3, e3), Param(Potency, "C_1"), log) == Interval(NegInf, PosInf)
    ensures ResolveBound(InitKwargs(em1, e1, em3, e3), Param(Potency, "C_2"), log) == Interval(NegInf, PosInf)
    ensures ResolveBound(InitKwargs(em1, e1, em3, e3), Param(Potency, "C_3"), log) == Interval(NegInf, PosInf)
  {
    InitKwargsLookup(em1, e1, em3, e3);
    assert "h_1_bounds"[0] != "E_0_bounds"[0];
    assert "h_bounds"[0] != "E_bounds"[0];
    assert "h_2_bounds"[0] != "E_0_bounds"[0];
    assert "h_2_bounds"[2] != "h_1_bounds"[2];
    assert "h_3_bounds"[0] != "E_0_bounds"[0];
    assert "h_3_bounds"[2] != "h_1_bounds"[2];
    assert "C_1_bounds"[0] != "E_0_bounds"[0];
    assert "C_1_bounds"[0] != "h_1_bounds"[0];
    assert "C_bounds"[0] != "E_bounds"[0];
    assert "C_2_bounds"[0] != "E_0_bounds"[0];
    assert "C_2_bounds"[0] != "h_1_bounds"[0];
    assert "C_3_bounds"[0] != "E_0_bounds"[0];
    assert "C_3_bounds"[0] != "h_1_bounds"[0];
  }

  lemma InitBoundsAlphaLow(log: real -> real, em1: real, e1: real, em3: real, e3: real)
    requires em1 > 0.0 && e1 > 0.0 && em3 > 0.0 && e3 > 0.0
    requires log(em1) == -1.0 && log(e1) == 1.0 && log(em3) == -3.0 && log(e3) == 3.0
    ensures ResolveBound(InitKwargs(em1, e1, em3, e3), Param(Alpha, "alpha_1_3"), log) == Interval(Fin(-3.0), Fin(3.0))
    ensures ResolveBound(InitKwargs(em1, e1, em3, e3), Param(Alpha, "alpha_1_2"), log) == Interval(Fin(-3.0), Fin(3.0))
    ensures ResolveBound(InitKwargs(em1, e1, em3, e3), Param(Alpha, "alpha_2_3"), log) == Interval(Fin(-3.0), Fin(3.0))
    ensures ResolveBound(InitKwargs(em1, e1, em3, e3), Param(Alpha, "alpha_2_1"), log) == Interval(Fin(-3.0), Fin(3.0))
  {
    InitKwargsLookup(em1, e1, em3, e3);

  }

  lemma InitBoundsAlphaHigh(log: real -> real, em1: real, e1: real, em3: real, e3: real)
    requires em1 > 0.0 && e1 > 0.0 && em3 > 0.0 && e3 > 0.0
    requires log(em1) == -1.0 && log(e1) == 1.0 && log(em3) == -3.0 && log(e3) == 3.0
    ensures ResolveBound(InitKwargs(em1, e1, em3, e3), Param(Alpha, "alpha_1,2_3"), log) == Interval(Fin(-3.0), Fin(3.0))
    ensures ResolveBound(InitKwargs(em1, e1, em3, e3), Param(Alpha, "alpha_3_2"), log) == Interval(Fin(-3.0), Fin(3.0))
    ensures ResolveBound(InitKwargs(em1, e1, em3, e3), Param(Alpha, "alpha_3_1"), log) == Interval(Fin(-3.0), Fin(3.0))
    ensures ResolveBound(InitKwargs(em1, e1, em3, e3), Param(Alpha, "alpha_1,3_2"), log) == Interval(Fin(-3.0), Fin(3.0))
    ensures ResolveBound(InitKwargs(em1, e1, em3, e3), Param(Alpha, "alpha_2,3_1"), log) == Interval(Fin(-3.0), Fin(3.0))
  {
    InitKwargsLookup(em1, e1, em3, e3);

  }

  /** The overrides of the single-drug test, where em1, e1, em3 and e3
      stand for e^-1, e, e^-3 and e^3. */
  function SingleKwargs(em1: real, e1: real, em3: real, e3: real): Overrides
  {
    map[
      "E_0_bounds" := Interval(Fin(0.95), Fin(1.05)),
      "E_1_bounds" := Interval(Fin(0.45), Fin(0.55)),
      "E_2_bounds" := Interval(Fin(0.6), Fin(0.7)),
      "E_1,2,3_bounds" := Interval(Fin(0.0), Fin(0.1)),
      "E_bounds" := Interval(Fin(0.0), Fin(1.0)),
      "h_1_bounds" := Interval(Fin(em1), Fin(e1)),
      "C_3_bounds" := Interval(Fin(0.5), Fin(2.0)),
      "alpha_bounds" := Interval(Fin(em3), Fin(e3))]
  }

  /** Looking the E keys up in SingleKwargs. */
  lemma SingleKwargsEffect(em1: real, e1: real, em3: real, e3: real)
    ensures var kw := SingleKwargs(em1, e1, em3, e3);
      && Override(kw, "E_0", Effect) == Some(Interval(Fin(0.95), Fin(1.05)))
      && Override(kw, "E_1", Effect) == Some(Interval(Fin(0.45), Fin(0.55)))
      && Override(kw, "E_2", Effect) == Some(Interval(Fin(0.6), Fin(0.7)))
      && Override(kw, "E_3", Effect) == Some(Interval(Fin(0.0), Fin(1.0)))
  {
    assert "E_0_bounds"[2] != "E_1_bounds"[2];
    assert "E_0_bounds"[2] != "E_2_bounds"[2];
    assert "E_0_bounds"[0] != "h_1_bounds"[0];
    assert "E_0_bounds"[0] != "C_3_bounds"[0];
    assert "E_1_bounds"[2] != "E_2_bounds"[2];
    assert "E_1_bounds"[0] != "h_1_bounds"[0];
    assert "E_1_bounds"[0] != "C_3_bounds"[0];
    assert "E_2_bounds"[0] != "h_1_bounds"[0];
    assert "E_2_bounds"[0] != "C_3_bounds"[0];
    assert "h_1_bounds"[0] != "C_3_bounds"[0];
    assert "E_3_bounds"[2] != "E_0_bounds"[2];
    assert "E_3_bounds"[2] != "E_1_bounds"[2];
    assert "E_3_bounds"[2] != "E_2_bounds"[2];
    assert "E_3_bounds"[0] != "h_1_bounds"[0];
    assert "E_3_bounds"[0] != "C_3_bounds"[0];
    assert BoundKey("E_0") == "E_0_bounds" && BoundKey("E_1") == "E_1_bounds" && BoundKey("E_2") == "E_2_bounds";
    assert BoundKey("E_3") == "E_3_bounds" && BoundKey("E") == "E_bounds";
  }

  /** Looking the h keys up in SingleKwargs. */
  lemma SingleKwargsHill(em1: real, e1: real, em3: real, e3: real)
    ensures var kw := SingleKwargs(em1, e1, em3, e3);
      && Override(kw, "h_1", HillSlope) == Some(Interval(Fin(em1), Fin(e1)))
      && Override(kw, "h_2", HillSlope) == None && Override(kw, "h_3", HillSlope) == None
  {
    assert "E_0_bounds"[0] != "h_1_bounds"[0];
    assert "E_1_bounds"[0] != "h_1_bounds"[0];
    assert "E_2_bounds"[0] != "h_1_bounds"[0];
    assert "h_1_bounds"[0] != "C_3_bounds"[0];
    assert "h_2_bounds"[0] != "E_0_bounds"[0];
    assert "h_2_bounds"[0] != "E_1_bounds"[0];
    assert "h_2_bounds"[0] != "E_2_bounds"[0];
    assert "h_2_bounds"[2] != "h_1_bounds"[2];
    assert "h_2_bounds"[0] != "C_3_bounds"[0];
    assert "h_3_bounds"[0] != "E_0_bounds"[0];
    assert "h_3_bounds"[0] != "E_1_bounds"[0];
    assert "h_3_bounds"[0] != "E_2_bounds"[0];
    assert "h_3_bounds"[2] != "h_1_bounds"[2];
    assert "h_3_bounds"[0] != "C_3_bounds"[0];
    assert "h_bounds"[0] != "E_bounds"[0];
    assert BoundKey("h_1") == "h_1_bounds" && BoundKey("h_2") == "h_2_bounds" && BoundKey("h_3") == "h_3_bounds";
    assert BoundKey("h") == "h_bounds";
  }

  /** Looking the C keys up in SingleKwargs. */
  lemma SingleKwargsPotency(em1: real, e1: real, em3: real, e3: real)
    ensures var kw := SingleKwargs(em1, e1, em3, e3);
      && Override(kw, "C_1", Potency) == None && Override(kw, "C_2", Potency) == None
      && Override(kw, "C_3", Potency) == Some(Interval(Fin(0.5), Fin(2.0)))
  {
    assert "E_0_bounds"[0] != "C_3_bounds"[0];
    assert "E_1_bounds"[0] != "C_3_bounds"[0];
    assert "E_2_bounds"[0] != "C_3_bounds"[0];
    assert "h_1_bounds"[0] != "C_3_bounds"[0];
    assert "C_1_bounds"[0] != "E_0_bounds"[0];
    assert "C_1_bounds"[0] != "E_1_bounds"[0];
    assert "C_1_bounds"[0] != "E_2_bounds"[0];
    assert "C_1_bounds"[0] != "h_1_bounds"[0];
    assert "C_1_bounds"[2] != "C_3_bounds"[2];
    assert "C_2_bounds"[0] != "E_0_bounds"[0];
    assert "C_2_bounds"[0] != "E_1_bounds"[0];
    assert "C_2_bounds"[0] != "E_2_bounds"[0];
    assert "C_2_bounds"[0] != "h_1_bounds"[0];
    assert "C_2_bounds"[2] != "C_3_bounds"[2];
    assert "C_bounds"[0] != "E_bounds"[0];
    assert BoundKey("C_1") == "C_1_bounds" && BoundKey("C_2") == "C_2_bounds" && BoundKey("C_3") == "C_3_bounds";
    assert BoundKey("C") == "C_bounds";
  }

  /** The single-drug bounds asserted for the three drugs: own overrides,
      E_bounds for drug 3's Emax, and (0, inf) for h and C otherwise. */
  lemma InferSingleDrugBounds(em1: real, e1: real, em3: real, e3: real)
    ensures SingleDrugBounds(SingleKwargs(em1, e1, em3, e3), 0) == SingleDrugKwargs(
      Interval(Fin(0.95), Fin(1.05)), Interval(Fin(0.45), Fin(0.55)), Interval(Fin(em1), Fin(e1)), NonNegative)
    ensures SingleDrugBounds(SingleKwargs(em1, e1, em3, e3), 1) == SingleDrugKwargs(
      Interval(Fin(0.95), Fin(1.05)), Interval(Fin(0.6), Fin(0.7)), NonNegative, NonNegative)
    ensures SingleDrugBounds(SingleKwargs(em1, e1, em3, e3), 2) == SingleDrugKwargs(
      Interval(Fin(0.95), Fin(1.05)), Interval(Fin(0.0), Fin(1.0)), NonNegative, Interval(Fin(0.5), Fin(2.0)))
  {
    SingleKwargsEffect(em1, e1, em3, e3);
    SingleKwargsHill(em1, e1, em3, e3);
    SingleKwargsPotency(em1, e1, em3, e3);
    assert NatToString(1) == "1" && NatToString(2) == "2" && NatToString(3) == "3";
    assert "E_" + NatToString(1) == "E_1" && "E_" + NatToString(2) == "E_2" && "E_" + NatToString(3) == "E_3";
    assert "h_" + NatToString(1) == "h_1" && "h_" + NatToString(2) == "h_2" && "h_" + NatToString(3) == "h_3";
    assert "C_" + NatToString(1) == "C_1" && "C_" + NatToString(2) == "C_2" && "C_" + NatToString(3) == "C_3";
  }

  /** With only a family E override, E0 and Emax of every drug's
      single-drug model both take it. */
  lemma FamilyEffectBoundsReachSingleDrugs(kwargs: Overrides, i: nat, b: Interval)
    requires kwargs == map["E_bounds" := b]
    ensures SingleDrugBounds(kwargs, i).e0 == b && SingleDrugBounds(kwargs, i).emax == b
  {
    var own := BoundKey("E_" + NatToString(i + 1));
    assert own[2] == NatToString(i + 1)[0];
    assert "E_bounds"[2] == 'b';
    assert own != "E_bounds";
    assert BoundKey("E_0")[2] != "E_bounds"[2];
    assert BoundKey("E") == "E_bounds";
  }
}
