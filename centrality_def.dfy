/**
 * CentralityDef (reader/centrality_def.cc): the calibration table, one
 * record of centrality-definition parameters per dataset id. The table is
 * filled once and only read afterwards, so it is a constant function here.
 */
module CentralityDefinitions {
  datatype CentDefId = Run14LowMid | Run14 | Run18Ru | Run18Zr

  /** The parameters of one centrality definition. */
  datatype CentDef = CentDef(
    runIdMin: nat, runIdMax: nat,
    zdcMin: real, zdcMax: real,
    vzMin: real, vzMax: real,
    zdcNorm: real, vzNorm: real,
    weightBound: real,
    zdcPar: seq<real>, vzPar: seq<real>, weightPar: seq<real>,
    bounds: seq<nat>)

  /** Each edge is above the one before it. */
  predicate StrictlyAscending(s: seq<nat>)
  {
    forall i :: 0 < i < |s| ==> s[i - 1] < s[i]
  }

  /** Ascending neighbour by neighbour is ascending pair by pair. */
  lemma {:induction false} AscendingPairwise(s: seq<nat>, i: nat, j: nat)
    requires StrictlyAscending(s) && i < j < |s|
    ensures s[i] < s[j]
    decreases j - i
  {
    if i + 1 < j {
      AscendingPairwise(s, i + 1, j);
    }
  }

  /**
   * What every definition provides: a linear ZDC fit, a sixth-order vertex
   * fit, seven weight parameters and sixteen ascending bin edges; non-empty
   * run, ZDC and vertex ranges with the normalisation points inside them.
   */
  predicate WellFormed(d: CentDef)
  {
    |d.zdcPar| == 2 && |d.vzPar| == 7 && |d.weightPar| == 7 && |d.bounds| == 16 &&
    StrictlyAscending(d.bounds) &&
    d.runIdMin < d.runIdMax && d.zdcMin < d.zdcMax && d.vzMin < d.vzMax &&
    d.zdcMin < d.zdcNorm < d.zdcMax && d.vzMin < d.vzNorm < d.vzMax &&
    d.weightBound == 400.0
  }

  /** The weight parameters the Run 14 low/mid definition lists (and the Run 18 ones repeat). */
  const Run14LowMidWeights: seq<real> :=
    [1.34842, -12.8629, 0.767038, 4.2547, -0.00264771, 357.779, 0.00000510897]

  const Run14LowMidDef := CentDef(
    15076101, 15167014, 0.0, 60000.0, -30.0, 30.0, 30000.0, 0.0, 400.0,
    [188.392, -0.32269],
    [529.123, 0.19706, 0.00433184, -0.000183687, -0.0000129087, 0.000000382464, -0.00000000170998],
    Run14LowMidWeights,
    [10, 15, 22, 30, 42, 56, 74, 94, 120, 149, 184, 224, 269, 321, 381, 450])

  /** Run 14 including the high-luminosity part. */
  const Run14Def := CentDef(
    15076101, 15167014, 0.0, 100000.0, -30.0, 30.0, 50000.0, 0.0, 400.0,
    [189.769, -0.369343],
    [511.121, 0.169589, 0.0108078, -0.00019305, -0.0000364105, 0.000000426428, 0.0000000171926],
    [0.879356, 18.3535, 1.55655, 0.643791, 0.0000853184, 136.567, 0.0000000975071],
    [10, 14, 21, 29, 40, 54, 71, 91, 115, 143, 176, 214, 257, 307, 364, 430])

  const Run18RuDef := CentDef(
    19074002, 19129014, 0.0, 20000.0, -30.0, 30.0, 10300.0, 0.0, 400.0,
    [98.113, -0.00001162],
    [302.0, 0.02703, -0.00178, 0.0002438, 0.00001185, -0.0000003312, -0.00000001227],
    Run14LowMidWeights,
    [9, 12, 16, 21, 27, 35, 45, 56, 70, 86, 104, 126, 152, 181, 217, 259])

  const Run18ZrDef := CentDef(
    19074002, 19129014, 0.0, 20000.0, -30.0, 30.0, 10300.0, 0.0, 400.0,
    [98.412, -0.00013917],
    [300.3, 0.03587, -0.0005492, 0.0002321, 0.000005868, -0.0000002919, -0.000000006337],
    Run14LowMidWeights,
    [8, 11, 15, 20, 26, 33, 42, 53, 66, 82, 101, 123, 148, 178, 214, 257])

  /** The table: every definition is well formed. */
  function Def(id: CentDefId): (d: CentDef)
    ensures WellFormed(d)
  {
    match id
    case Run14LowMid => Run14LowMidWellFormed(); Run14LowMidDef
    case Run14 => Run14WellFormed(); Run14Def
    case Run18Ru => Run18RuWellFormed(); Run18RuDef
    case Run18Zr => Run18ZrWellFormed(); Run18ZrDef
  }

  lemma Run14LowMidWellFormed() ensures WellFormed(Run14LowMidDef) {}
  lemma Run14WellFormed() ensures WellFormed(Run14Def) {}
  lemma Run18RuWellFormed() ensures WellFormed(Run18RuDef) {}
  lemma Run18ZrWellFormed() ensures WellFormed(Run18ZrDef) {}

  /**
   * The Run 14 low/mid record agrees with the values its unit test expects
   * for the run, ZDC and vertex ranges, the normalisation points and the
   * weight bound, but not for the fit parameters or the bin edges.
   */
  lemma Run14LowMidDiffersFromTestValues()
    ensures var d := Def(Run14LowMid);
      d.runIdMin == 15076101 && d.runIdMax == 15167014 && d.zdcMin == 0.0 && d.zdcMax == 60000.0 &&
      d.vzMin == -30.0 && d.vzMax == 30.0 && d.weightBound == 400.0 && d.zdcNorm == 30000.0 && d.vzNorm == 0.0
    ensures Def(Run14LowMid).zdcPar[0] != 175.758
    ensures Def(Run14LowMid).vzPar[0] != 529.051
    ensures Def(Run14LowMid).weightPar[0] != 1.22692
    ensures Def(Run14LowMid).bounds[0] != 7
  {
  }

  /** The two Run 18 isobar definitions share their run range and reuse the Run 14 low/mid weights. */
  lemma Run18SharesRangesAndWeights()
    ensures Def(Run18Ru).runIdMin == Def(Run18Zr).runIdMin && Def(Run18Ru).runIdMax == Def(Run18Zr).runIdMax
    ensures Def(Run18Ru).weightPar == Def(Run18Zr).weightPar == Def(Run14LowMid).weightPar
    ensures Def(Run18Ru).zdcPar != Def(Run18Zr).zdcPar
  {
  }
}
