/**
 * The reference centrality calculator CentralityRun14
 * (reader/centrality_test.cc): a validity gate on the event, the luminosity
 * (ZDC) and vertex corrections of the reference multiplicity, the 16- and
 * 9-bin centrality classes found by scanning the bin edges from the top,
 * and the event weight. The helpers the unit test compares against
 * (zdcCorr, vzCorr, refmultCorr, cent16, cent9) are modelled beside it.
 */
module CentralityCalc {
  import opened Wrappers
  import opened CentralityDefinitions

  /** The failures of the calculation. */
  const WeightParametersOutOfRange: string := "weight parameters read out of range"
  const WeightDividesByZero: string := "weight formula divides by zero"
  const ZdcUnset: string := "ZDC parameters read before they are set"
  const ZdcScalingZero: string := "ZDC scaling is zero"

  datatype Range = Range(min: real, max: real)
  datatype RunRange = RunRange(min: int, max: int)

  /** What `setEvent` computes: corrected multiplicity, the two classes (or -1) and the weight. */
  datatype Outcome = Outcome(refMultCorr: real, centrality16: int, centrality9: int, weight: real)

  /** The calculator's parameters. */
  datatype Calibration = Calibration(
    vz: Range, zdc: Range, run: RunRange, weightBound: real,
    vzNorm: real, zdcNorm: real,
    zdcPar: seq<real>, vzPar: seq<real>, weightPar: seq<real>,
    bins16: seq<nat>, bins9: seq<nat>)

  const DefaultBins16: seq<nat> := [7, 10, 15, 22, 31, 43, 58, 77, 100, 129, 163, 203, 249, 303, 366, 441]
  const DefaultZdcPar: seq<real> := [175.758, -0.307738]
  const DefaultVzPar: seq<real> :=
    [529.051, 0.192153, 0.00485177, -0.00017741, -0.0000144156, 0.000000397255, -0.000000000680378]
  const DefaultWeightPar: seq<real> := [1.22692, -2.04056, 1.53857, 1.55649, -0.00123008, 193.648, 0.00000130923]

  /** The parameters a new calculator starts with. */
  const Defaults := Calibration(
    Range(-30.0, 30.0), Range(0.0, 60000.0), RunRange(15076101, 15167014), 400.0,
    0.0, 30000.0, DefaultZdcPar, DefaultVzPar, DefaultWeightPar,
    DefaultBins16, NineBins(DefaultBins16))

  /** The outcome a new calculator reports before any event. */
  const Unset := Outcome(-1.0, -1, -1, 0.0)

  /** Positions of the 16-bin edges that are also 9-bin edges: the even ones and the last. */
  predicate KeptForNine(i: nat) { i % 2 == 0 || i == 15 }

  /** The 9-bin edges taken from a list of 16-bin edges, in order. */
  function NineBins(s: seq<nat>): seq<nat>
  {
    if s == [] then []
    else NineBins(s[..|s| - 1]) + (if KeptForNine(|s| - 1) then [s[|s| - 1]] else [])
  }

  predicate Ascending(s: seq<nat>)
  {
    forall i, j :: 0 <= i < j < |s| ==> s[i] <= s[j]
  }

  /** The parameter sizes the setters allow, and 9-bin edges derived from the 16-bin ones. */
  predicate Valid(p: Calibration)
  {
    (|p.zdcPar| == 0 || |p.zdcPar| == 2) && (|p.vzPar| == 0 || |p.vzPar| == 7) &&
    (|p.weightPar| == 0 || |p.weightPar| == 7) &&
    (|p.bins16| == 0 || |p.bins16| == 16) && p.bins9 == NineBins(p.bins16)
  }

  /** The validity gate: non-negative multiplicity, run in range (when a range is set, that is when its upper end is positive), vertex and ZDC in their closed ranges. */
  predicate CheckEvent(p: Calibration, runId: int, refMult: real, zdc: real, vz: real)
    ensures CheckEvent(p, runId, refMult, zdc, vz) <==>
      (refMult >= 0.0 && (p.run.max <= 0 || p.run.min <= runId <= p.run.max) &&
       p.vz.min <= vz <= p.vz.max && p.zdc.min <= zdc <= p.zdc.max)
  {
    !(refMult < 0.0) &&
    !(p.run.max > 0 && (runId < p.run.min || runId > p.run.max)) &&
    !(vz < p.vz.min || vz > p.vz.max) &&
    !(zdc < p.zdc.min || zdc > p.zdc.max)
  }

  /** x to the n-th power; pow(x, 0) is one, also for x = 0. */
  function Pow(x: real, n: nat): real
  {
    if n == 0 then 1.0 else x * Pow(x, n - 1)
  }

  /** The polynomial with coefficients `par` (constant term first) at x. */
  function Poly(par: seq<real>, x: real): real
  {
    if par == [] then 0.0
    else Poly(par[..|par| - 1], x) + par[|par| - 1] * Pow(x, |par| - 1)
  }

  /** The k-th edge counted from the top, as a real. */
  function Edge(bins: seq<nat>, k: nat): real
    requires k < |bins|
  {
    bins[|bins| - 1 - k] as real
  }

  /**
   * The scan of the bin edges from the top, starting at scan position i:
   * the first position whose edge the corrected multiplicity reaches, or -1.
   */
  function BinFrom(bins: seq<nat>, rc: real, i: nat): (b: int)
    requires i <= |bins|
    ensures b == -1 <==> forall k :: i <= k < |bins| ==> rc < Edge(bins, k)
    ensures b != -1 ==> i <= b < |bins| && rc >= Edge(bins, b) &&
                        forall k :: i <= k < b ==> rc < Edge(bins, k)
    decreases |bins| - i
  {
    if i == |bins| then -1
    else if rc >= Edge(bins, i) then i
    else BinFrom(bins, rc, i + 1)
  }

  /** The centrality class of a corrected multiplicity: 0 for the top edge, -1 below the lowest one. */
  function BinOf(bins: seq<nat>, rc: real): (b: int)
    ensures -1 <= b < |bins|
    ensures b == -1 <==> forall k :: 0 <= k < |bins| ==> rc < Edge(bins, k)
    ensures b != -1 ==> rc >= Edge(bins, b) && forall k :: 0 <= k < b ==> rc < Edge(bins, k)
  {
    BinFrom(bins, rc, 0)
  }

  /** The weight formula at the shifted multiplicity x. */
  function Weight(par: seq<real>, x: real): real
    requires |par| >= 7 && x != 0.0
  {
    par[0] + par[1] / x + par[4] * x + par[5] / (x * x) + par[6] * (x * x)
  }

  function ZdcScaling(p: Calibration, zdc: real): real
    requires |p.zdcPar| >= 2
  {
    p.zdcPar[0] + p.zdcPar[1] * zdc / 1000.0
  }

  /** The luminosity correction: the linear ZDC fit at the normalisation point over its value at the event's rate. */
  function ZdcCorrection(p: Calibration, zdc: real): real
    requires |p.zdcPar| >= 2 && ZdcScaling(p, zdc) != 0.0
  {
    ZdcScaling(p, p.zdcNorm) / ZdcScaling(p, zdc)
  }

  /** The vertex correction: the vertex polynomial at the normalisation point over its value at the event's vertex, or one when that value is not positive. */
  function VzCorrection(p: Calibration, vz: real): real
  {
    var scaling := Poly(p.vzPar, vz);
    if scaling > 0.0 then Poly(p.vzPar, p.vzNorm) / scaling else 1.0
  }

  function Corrected(p: Calibration, refMult: real, zdc: real, vz: real): real
    requires |p.zdcPar| >= 2 && ZdcScaling(p, zdc) != 0.0
  {
    refMult * VzCorrection(p, vz) * ZdcCorrection(p, zdc)
  }

  /** The event weight: the formula when weights are set, both classes valid and rc below the bound; one otherwise. */
  function WeightOf(p: Calibration, rc: real, c9: int, c16: int): (w: Result<real>)
    ensures !(|p.weightPar| > 0 && c9 >= 0 && c16 >= 0 && rc < p.weightBound) ==> w == Ok(1.0)
    ensures w.Fatal? <==>
      (0 < |p.weightPar| && c9 >= 0 && c16 >= 0 && rc < p.weightBound &&
       (|p.weightPar| < 7 || rc * p.weightPar[2] + p.weightPar[3] == 0.0))
  {
    if |p.weightPar| > 0 && c9 >= 0 && c16 >= 0 && rc < p.weightBound then
      if |p.weightPar| < 7 then Fatal(WeightParametersOutOfRange)
      else
        var x := rc * p.weightPar[2] + p.weightPar[3];
        if x == 0.0 then Fatal(WeightDividesByZero)
        else Ok(Weight(p.weightPar, x))
    else Ok(1.0)
  }

  /**
   * calculateCentrality on the parameters. Reading an unset ZDC fit is
   * undefined behaviour in the source, and a zero divisor gives an IEEE
   * infinity or NaN there; all three are Fatal here.
   */
  function Calculate(p: Calibration, refMult: real, zdc: real, vz: real): (r: Result<Outcome>)
    ensures r.Ok? ==>
      (|p.zdcPar| >= 2 && ZdcScaling(p, zdc) != 0.0 &&
       r.value.refMultCorr == Corrected(p, refMult, zdc, vz) &&
       r.value.centrality16 == BinOf(p.bins16, r.value.refMultCorr) &&
       r.value.centrality9 == BinOf(p.bins9, r.value.refMultCorr))
    ensures r.Fatal? <==>
      (|p.zdcPar| < 2 || ZdcScaling(p, zdc) == 0.0 ||
       WeightOf(p, Corrected(p, refMult, zdc, vz), BinOf(p.bins9, Corrected(p, refMult, zdc, vz)),
                BinOf(p.bins16, Corrected(p, refMult, zdc, vz))).Fatal?)
  {
    if |p.zdcPar| < 2 then Fatal(ZdcUnset)
    else if ZdcScaling(p, zdc) == 0.0 then Fatal(ZdcScalingZero)
    else
      var rc := Corrected(p, refMult, zdc, vz);
      var c9, c16 := BinOf(p.bins9, rc), BinOf(p.bins16, rc);
      var w := WeightOf(p, rc, c9, c16);
      if w.Fatal? then Fatal(w.reason) else Ok(Outcome(rc, c16, c9, w.value))
  }

  /** setEvent on the parameters: the corrected outcome for an event that passes the gate, the raw multiplicity with invalid classes otherwise. */
  function Evaluate(p: Calibration, runId: int, refMult: real, zdc: real, vz: real): (r: Result<Outcome>)
    ensures r.Fatal? ==> CheckEvent(p, runId, refMult, zdc, vz)
    ensures r.Ok? ==> -1 <= r.value.centrality16 < |p.bins16| && -1 <= r.value.centrality9 < |p.bins9|
    ensures r.Ok? && !CheckEvent(p, runId, refMult, zdc, vz) ==> r.value.refMultCorr == refMult && r.value.weight == 0.0
  {
    if CheckEvent(p, runId, refMult, zdc, vz) then Calculate(p, refMult, zdc, vz)
    else Ok(Outcome(refMult, -1, -1, 0.0))
  }

  /** An event that fails the gate keeps its raw multiplicity and gets the invalid marker in both classes and a zero weight. */
  lemma GateFailureMarksInvalid(p: Calibration, runId: int, refMult: real, zdc: real, vz: real)
    requires !CheckEvent(p, runId, refMult, zdc, vz)
    ensures Evaluate(p, runId, refMult, zdc, vz) == Ok(Outcome(refMult, -1, -1, 0.0))
  {
  }

  /** At the normalisation points both corrections are one, so the multiplicity is left as it is. */
  lemma NormalisationPointIsIdentity(p: Calibration, refMult: real)
    requires |p.zdcPar| >= 2 && ZdcScaling(p, p.zdcNorm) != 0.0
    ensures ZdcCorrection(p, p.zdcNorm) == 1.0 && VzCorrection(p, p.vzNorm) == 1.0
    ensures Corrected(p, refMult, p.zdcNorm, p.vzNorm) == refMult
  {
    var z := ZdcScaling(p, p.zdcNorm);
    DivSelf(z);
    assert ZdcCorrection(p, p.zdcNorm) == z / z;
    var s := Poly(p.vzPar, p.vzNorm);
    if s > 0.0 {
      DivSelf(s);
      assert VzCorrection(p, p.vzNorm) == s / s;
    } else {
      assert VzCorrection(p, p.vzNorm) == 1.0;
    }
    assert Corrected(p, refMult, p.zdcNorm, p.vzNorm) == refMult * 1.0 * 1.0;
  }

  lemma DivSelf(x: real)
    requires x != 0.0
    ensures x / x == 1.0
  {
  }

  /** Without a vertex fit, or where the fit is not positive, the vertex correction is one. */
  lemma VzCorrectionOne(p: Calibration, vz: real)
    requires p.vzPar == [] || Poly(p.vzPar, vz) <= 0.0
    ensures VzCorrection(p, vz) == 1.0
  {
  }

  /**
   * A larger corrected multiplicity never lands in a more peripheral
   * (higher-numbered) class, and never falls out of the table once a
   * smaller one is inside it.
   */
  lemma BinAntitone(bins: seq<nat>, a: real, b: real)
    requires a <= b && BinOf(bins, a) != -1
    ensures BinOf(bins, b) != -1 && BinOf(bins, b) <= BinOf(bins, a)
  {
    var k := BinOf(bins, a);
    assert b >= Edge(bins, k);
  }

  /** With ascending edges the scan finds no class exactly when the multiplicity is below the lowest edge. */
  lemma BinBelowLowestEdge(bins: seq<nat>, rc: real)
    requires Ascending(bins)
    ensures BinOf(bins, rc) == -1 <==> bins == [] || rc < bins[0] as real
  {
    if bins != [] {
      if BinOf(bins, rc) == -1 {
        assert rc < Edge(bins, |bins| - 1);
      } else if rc < bins[0] as real {
        forall k | 0 <= k < |bins|
          ensures rc < Edge(bins, k)
        {
          assert bins[0] <= bins[|bins| - 1 - k];
        }
        assert false;
      }
    }
  }

  /** With ascending edges class k holds exactly the multiplicities from edge k (from the top) up to, not including, edge k - 1. */
  lemma BinLocatesEdge(bins: seq<nat>, rc: real, k: nat)
    requires Ascending(bins) && k < |bins|
    ensures BinOf(bins, rc) == k <==> Edge(bins, k) <= rc && (k == 0 || rc < Edge(bins, k - 1))
  {
    if Edge(bins, k) <= rc && (k == 0 || rc < Edge(bins, k - 1)) {
      forall j | 0 <= j < k
        ensures rc < Edge(bins, j)
      {
        assert bins[|bins| - 1 - (k - 1)] <= bins[|bins| - 1 - j];
      }
      var b := BinOf(bins, rc);
      assert b != -1 && b <= k;
    }
  }

  /** Every 9-bin edge is one of the 16-bin edges. */
  lemma {:induction false} NineBinsWithin(s: seq<nat>)
    ensures |NineBins(s)| <= |s|
    ensures forall x :: x in NineBins(s) ==> x in s
  {
    if s != [] {
      var init := s[..|s| - 1];
      NineBinsWithin(init);
      assert forall x :: x in init ==> x in s;
    }
  }

  /** The 9-bin edges of ascending 16-bin edges are ascending. */
  lemma {:induction false} NineBinsAscending(s: seq<nat>)
    requires Ascending(s)
    ensures Ascending(NineBins(s))
  {
    if s != [] {
      var init, last := s[..|s| - 1], s[|s| - 1];
      assert Ascending(init);
      NineBinsAscending(init);
      NineBinsWithin(init);
      var n := NineBins(init);
      forall x | x in n
        ensures x <= last
      {
        var i :| 0 <= i < |init| && init[i] == x;
        assert s[i] == x;
      }
      if KeptForNine(|s| - 1) {
        AscendingAppend(n, last);
      }
    }
  }

  lemma AscendingAppend(s: seq<nat>, x: nat)
    requires Ascending(s) && forall y :: y in s ==> y <= x
    ensures Ascending(s + [x])
  {
    forall i, j | 0 <= i < j < |s + [x]|
      ensures (s + [x])[i] <= (s + [x])[j]
    {
      if j == |s| {
        assert s[i] in s;
      }
    }
  }

  /** Where the j-th 9-bin edge sits among the sixteen: the even positions, then the last. */
  function NinePos(j: nat): nat
  {
    if j < 8 then 2 * j else 15
  }

  /** Of up to sixteen edges, the j-th 9-bin edge is the edge at position NinePos(j). */
  lemma {:induction false} NineBinsPositions(s: seq<nat>)
    requires |s| <= 16
    ensures |NineBins(s)| == (|s| + 1) / 2 + (if |s| == 16 then 1 else 0)
    ensures forall j :: 0 <= j < |NineBins(s)| ==> NinePos(j) < |s| && NineBins(s)[j] == s[NinePos(j)]
  {
    if s != [] {
      var init := s[..|s| - 1];
      NineBinsPositions(init);
      forall j | 0 <= j < |NineBins(init)|
        ensures NineBins(s)[j] == s[NinePos(j)]
      {
        assert NineBins(init)[j] == init[NinePos(j)];
      }
    }
  }

  /** The reference's default 9-bin edges are the ones the hand-written cent9 helper lists. */
  lemma DefaultNineBins()
    ensures NineBins(DefaultBins16) == [7, 15, 31, 58, 100, 163, 249, 366, 441]
  {
    NineBinsPositions(DefaultBins16);
  }

  /**
   * The class with the lowest class for multiplicities below every edge:
   * |bins| (16 for the 16-bin table, 9 for the 9-bin one), the value the
   * reader documents for the 80-100% bin, instead of -1.
   */
  function ClassOf(bins: seq<nat>, rc: real): (c: nat)
    ensures c <= |bins|
    ensures c < |bins| ==> c == BinOf(bins, rc)
    ensures c == |bins| <==> BinOf(bins, rc) == -1
  {
    var b := BinOf(bins, rc);
    if b == -1 then |bins| else b
  }

  /** With the lowest class in place the class is antitone in the multiplicity for every pair of inputs. */
  lemma ClassOfAntitone(bins: seq<nat>, a: real, b: real)
    requires a <= b
    ensures ClassOf(bins, b) <= ClassOf(bins, a)
  {
    if BinOf(bins, a) != -1 {
      BinAntitone(bins, a, b);
    }
  }

  /** With ascending edges, the lowest class is exactly the multiplicities below the lowest edge. */
  lemma ClassOfLowest(bins: seq<nat>, rc: real)
    requires Ascending(bins)
    ensures ClassOf(bins, rc) == |bins| <==> bins == [] || rc < bins[0] as real
  {
    BinBelowLowestEdge(bins, rc);
  }

  /** A multiplicity below every edge has no class. */
  lemma BinNoneBelowAll(bins: seq<nat>, rc: real, m: nat)
    requires forall k :: 0 <= k < |bins| ==> m <= bins[k]
    requires rc < m as real
    ensures BinOf(bins, rc) == -1
  {
    forall k | 0 <= k < |bins|
      ensures rc < Edge(bins, k)
    {
      assert m <= bins[|bins| - 1 - k];
    }
  }

  /** Below 7, the lowest default edge, neither default table has a class. */
  lemma DefaultsBelowLowestEdge(rc: real)
    requires rc < 7.0
    ensures BinOf(DefaultBins16, rc) == -1 && BinOf(Defaults.bins9, rc) == -1
  {
    var nine := [7, 15, 31, 58, 100, 163, 249, 366, 441];
    assert forall k :: 0 <= k < |DefaultBins16| ==> 7 <= DefaultBins16[k];
    assert forall k :: 0 <= k < |nine| ==> 7 <= nine[k];
    BinNoneBelowAll(DefaultBins16, rc, 7);
    DefaultNineBins();
    BinNoneBelowAll(nine, rc, 7);
  }

  /**
   * As written, a peripheral event that passes the gate (a multiplicity of
   * 5 at the normalisation points) gets -1 in both classes, the marker of
   * an event the gate rejected; and the 16-bin class is not antitone, since
   * 5 gets -1 while 441 gets 0.
   */
  lemma PeripheralEventMarkedInvalid()
    ensures CheckEvent(Defaults, 15076125, 5.0, 30000.0, 0.0)
    ensures Evaluate(Defaults, 15076125, 5.0, 30000.0, 0.0) == Ok(Outcome(5.0, -1, -1, 1.0))
    ensures BinOf(DefaultBins16, 5.0) == -1 && BinOf(DefaultBins16, 441.0) == 0
  {
    NormalisationPointIsIdentity(Defaults, 5.0);
    DefaultsBelowLowestEdge(5.0);
  }

  /**
   * The reference's defaults agree with the table's Run 14 low/mid record on
   * the ranges, normalisation points and weight bound, and differ from it in
   * every fit and in the bin edges.
   */
  lemma ReferenceDefaultsVersusTable()
    ensures var d := Def(Run14LowMid);
      Defaults.run == RunRange(d.runIdMin, d.runIdMax) && Defaults.zdc == Range(d.zdcMin, d.zdcMax) &&
      Defaults.vz == Range(d.vzMin, d.vzMax) && Defaults.zdcNorm == d.zdcNorm && Defaults.vzNorm == d.vzNorm &&
      Defaults.weightBound == d.weightBound
    ensures var d := Def(Run14LowMid);
      Defaults.zdcPar != d.zdcPar && Defaults.vzPar != d.vzPar && Defaults.weightPar != d.weightPar &&
      Defaults.bins16 != d.bounds
  {
    var d := Def(Run14LowMid);
    assert Defaults.zdcPar[0] != d.zdcPar[0];
    assert Defaults.vzPar[0] != d.vzPar[0];
    assert Defaults.weightPar[0] != d.weightPar[0];
    assert Defaults.bins16[0] != d.bounds[0];
  }

  /** zdcCorr of the unit test: the default linear fit at the default normalisation point over its value at zdc. */
  function HelperZdcCorr(zdc: real): (c: real)
    requires 175.758 - 0.307738 * zdc / 1000.0 != 0.0
    ensures c == ZdcCorrection(Defaults, zdc)
  {
    (175.758 - 0.307738 * 30.0) / (175.758 - 0.307738 * zdc / 1000.0)
  }

  /**
   * The calculator. Its four outputs are fields of their own; its
   * parameters (ranges, normalisation points, fits and bin edges) are kept
   * together in one Calibration record that the setters update.
   */
  class CentralityRun14 {
    var refMultCorr: real
    var centrality16: int
    var centrality9: int
    var weight: real
    var params: Calibration

    function Out(): Outcome
      reads this
    {
      Outcome(refMultCorr, centrality16, centrality9, weight)
    }

    constructor()
      ensures params == Defaults && Valid(params)
      ensures Out() == Unset
    {
      refMultCorr, centrality16, centrality9, weight := -1.0, -1, -1, 0.0;
      params := Calibration(
        Range(-30.0, 30.0), Range(0.0, 60000.0), RunRange(15076101, 15167014), 400.0,
        0.0, 30000.0, DefaultZdcPar, DefaultVzPar, DefaultWeightPar, [], []);
      new;
      SetCentralityBounds16Bin(DefaultBins16);
    }

    /** Applies the gate and either computes the outcome or marks the event invalid; the parameters are untouched. */
    method SetEvent(runId: int, refMult: real, zdc: real, vz: real) returns (r: Result<()>)
      modifies this`refMultCorr, this`centrality16, this`centrality9, this`weight
      ensures r.Ok? <==> Evaluate(params, runId, refMult, zdc, vz).Ok?
      ensures r.Ok? ==> Out() == Evaluate(params, runId, refMult, zdc, vz).value
    {
      if CheckEvent(params, runId, refMult, zdc, vz) {
        r := CalculateCentrality(refMult, zdc, vz);
      } else {
        refMultCorr := refMult;
        centrality9 := -1;
        centrality16 := -1;
        weight := 0.0;
        r := Ok(());
      }
    }

    method CalculateCentrality(refMult: real, zdc: real, vz: real) returns (r: Result<()>)
      modifies this`refMultCorr, this`centrality16, this`centrality9, this`weight
      ensures r.Ok? <==> Calculate(params, refMult, zdc, vz).Ok?
      ensures r.Ok? ==> Out() == Calculate(params, refMult, zdc, vz).value
    {
      if params.zdcPar == [] || params.vzPar == [] {
        refMultCorr, centrality9, centrality16, weight := 0.0, -1, -1, 0.0;
      }
      var outcome := Compute(params, refMult, zdc, vz);
      if outcome.Fatal? {
        return Fatal(outcome.reason);
      }
      refMultCorr, centrality16, centrality9, weight :=
        outcome.value.refMultCorr, outcome.value.centrality16, outcome.value.centrality9, outcome.value.weight;
      r := Ok(());
    }

    /** The arithmetic of calculateCentrality: both corrections, the two bin scans and the weight. */
    static method Compute(p: Calibration, refMult: real, zdc: real, vz: real) returns (r: Result<Outcome>)
      ensures r == Calculate(p, refMult, zdc, vz)
    {
      if |p.zdcPar| < 2 {
        return Fatal(ZdcUnset);
      }
      if ZdcScaling(p, zdc) == 0.0 {
        return Fatal(ZdcScalingZero);
      }
      var zdcCorrection := ZdcCorrection(p, zdc);
      var vzScaling, vzNormValue := PolyPair(p.vzPar, vz, p.vzNorm);
      var vzCorrection := 1.0;
      if vzScaling > 0.0 {
        vzCorrection := vzNormValue / vzScaling;
      }
      var rc := refMult * vzCorrection * zdcCorrection;
      assert rc == Corrected(p, refMult, zdc, vz);
      var c9 := ScanBins(p.bins9, rc);
      var c16 := ScanBins(p.bins16, rc);
      var w := WeightOf(p, rc, c9, c16);
      if w.Fatal? {
        return Fatal(w.reason);
      }
      r := Ok(Outcome(rc, c16, c9, w.value));
    }

    /** The loop accumulating the vertex polynomial at the event's vertex and at the normalisation point. */
    static method PolyPair(par: seq<real>, x: real, y: real) returns (atX: real, atY: real)
      ensures atX == Poly(par, x) && atY == Poly(par, y)
    {
      atX, atY := 0.0, 0.0;
      var i := 0;
      while i < |par|
        invariant 0 <= i <= |par|
        invariant atX == Poly(par[..i], x) && atY == Poly(par[..i], y)
      {
        assert par[..i + 1][..i] == par[..i];
        atX := atX + par[i] * Pow(x, i);
        atY := atY + par[i] * Pow(y, i);
        i := i + 1;
      }
      assert par[..|par|] == par;
    }

    /** One bin scan of calculateCentrality: from the top edge down, stop at the first edge reached. */
    static method ScanBins(bins: seq<nat>, rc: real) returns (bin: int)
      ensures bin == BinOf(bins, rc)
    {
      bin := -1;
      var i := 0;
      while i < |bins|
        invariant 0 <= i <= |bins|
        invariant BinFrom(bins, rc, i) == BinOf(bins, rc)
      {
        if rc >= bins[|bins| - i - 1] as real {
          bin := i;
          break;
        }
        i := i + 1;
      }
    }

    /** vzCorr of the unit test: the default vertex fit at zero over its value at vz, or one when that is not positive. */
    static method HelperVzCorr(vz: real) returns (c: real)
      ensures c == VzCorrection(Defaults, vz)
    {
      var val, norm := PolyPair(DefaultVzPar, vz, 0.0);
      c := 1.0;
      if val > 0.0 {
        c := norm / val;
      }
    }

    /** refmultCorr of the unit test: the calculator's correction under its defaults. */
    static method HelperRefMultCorr(refMult: real, vz: real, zdc: real) returns (c: real)
      requires 175.758 - 0.307738 * zdc / 1000.0 != 0.0
      ensures |Defaults.zdcPar| >= 2 && ZdcScaling(Defaults, zdc) != 0.0
      ensures c == Corrected(Defaults, refMult, zdc, vz)
    {
      var vzCorrection := HelperVzCorr(vz);
      c := refMult * vzCorrection * HelperZdcCorr(zdc);
    }

    /**
     * cent16 and cent9 of the unit test: the same scan from the top edge,
     * but 16 rather than -1 below the lowest edge, for either table.
     */
    static method HelperCent(bounds: seq<nat>, rc: real) returns (c: nat)
      ensures BinOf(bounds, rc) == -1 ==> c == 16
      ensures BinOf(bounds, rc) != -1 ==> c == BinOf(bounds, rc)
      ensures |bounds| == 16 ==> c == ClassOf(bounds, rc)
    {
      var i := 0;
      while i < |bounds|
        invariant 0 <= i <= |bounds|
        invariant BinFrom(bounds, rc, i) == BinOf(bounds, rc)
      {
        if rc >= bounds[|bounds| - 1 - i] as real {
          return i;
        }
        i := i + 1;
      }
      return 16;
    }

    method SetZdcParameterValues(par0: real, par1: real)
      modifies this`params
      ensures params == old(params).(zdcPar := [par0, par1])
      ensures Valid(old(params)) ==> Valid(params)
    {
      params := params.(zdcPar := [par0, par1]);
    }

    /** A linear fit takes exactly two parameters; any other count leaves the fit unset. */
    method SetZdcParameters(pars: seq<real>)
      modifies this`params
      ensures params == old(params).(zdcPar := if |pars| == 2 then pars else [])
      ensures Valid(old(params)) ==> Valid(params)
    {
      params := params.(zdcPar := []);
      if |pars| != 2 {
        return;
      }
      params := params.(zdcPar := pars);
    }

    method SetVzParameterValues(par0: real, par1: real, par2: real, par3: real, par4: real, par5: real, par6: real)
      modifies this`params
      ensures params == old(params).(vzPar := [par0, par1, par2, par3, par4, par5, par6])
      ensures Valid(old(params)) ==> Valid(params)
    {
      params := params.(vzPar := [par0, par1, par2, par3, par4, par5, par6]);
    }

    /** A sixth-order fit takes exactly seven parameters; any other count leaves the fit unset. */
    method SetVzParameters(pars: seq<real>)
      modifies this`params
      ensures params == old(params).(vzPar := if |pars| == 7 then pars else [])
      ensures Valid(old(params)) ==> Valid(params)
    {
      params := params.(vzPar := []);
      if |pars| != 7 {
        return;
      }
      params := params.(vzPar := pars);
    }

    method SetZdcRange(min: real, max: real)
      modifies this`params
      ensures params == old(params).(zdc := Range(min, max))
      ensures Valid(old(params)) ==> Valid(params)
    {
      params := params.(zdc := Range(min, max));
    }

    method SetZdcNormalizationPoint(norm: real)
      modifies this`params
      ensures params == old(params).(zdcNorm := norm)
      ensures Valid(old(params)) ==> Valid(params)
    {
      params := params.(zdcNorm := norm);
    }

    method SetVzRange(min: real, max: real)
      modifies this`params
      ensures params == old(params).(vz := Range(min, max))
      ensures Valid(old(params)) ==> Valid(params)
    {
      params := params.(vz := Range(min, max));
    }

    method SetVzNormalizationPoint(norm: real)
      modifies this`params
      ensures params == old(params).(vzNorm := norm)
      ensures Valid(old(params)) ==> Valid(params)
    {
      params := params.(vzNorm := norm);
    }

    method SetRunRange(min: int, max: int)
      modifies this`params
      ensures params == old(params).(run := RunRange(min, max))
      ensures Valid(old(params)) ==> Valid(params)
    {
      params := params.(run := RunRange(min, max));
    }

    /** Sixteen edges set both tables, the 9-bin one from the even positions and the last; any other count empties both. */
    method SetCentralityBounds16Bin(bounds: seq<nat>)
      modifies this`params
      ensures params == old(params).(bins16 := if |bounds| == 16 then bounds else [],
                                     bins9 := if |bounds| == 16 then NineBins(bounds) else [])
      ensures Valid(old(params)) ==> Valid(params)
    {
      params := params.(bins16 := [], bins9 := []);
      if |bounds| != 16 {
        return;
      }
      var i := 0;
      while i < |bounds|
        invariant 0 <= i <= |bounds|
        invariant params == old(params).(bins16 := bounds[..i], bins9 := NineBins(bounds[..i]))
      {
        assert bounds[..i + 1][..i] == bounds[..i];
        params := params.(bins16 := params.bins16 + [bounds[i]]);
        if i % 2 == 0 || i == 15 {
          params := params.(bins9 := params.bins9 + [bounds[i]]);
        }
        i := i + 1;
      }
      assert bounds[..i] == bounds;
    }

    /** Seven parameters set the weight and its bound; any other count leaves no weight and a zero bound. */
    method SetWeightParameters(pars: seq<real>, bound: real)
      modifies this`params
      ensures params == old(params).(weightPar := if |pars| == 7 then pars else [],
                                     weightBound := if |pars| == 7 then bound else 0.0)
      ensures Valid(old(params)) ==> Valid(params)
    {
      params := params.(weightPar := [], weightBound := 0.0);
      if |pars| != 7 {
        return;
      }
      params := params.(weightPar := pars, weightBound := bound);
    }
  }
}
