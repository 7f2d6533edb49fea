/**
 * The per-collision records the reader consumes. The pico event store is
 * not modelled: an event is the handful of quantities the selectors and
 * the reader read from it. Doubles are reals; values the store or the
 * calorimeter geometry computes with transcendental functions (the DCA
 * magnitude, cosh of a tower's pseudorapidity, sin of its polar angle)
 * are carried as given numbers.
 */
module Records {
  /** Event-level quantities of one collision. */
  datatype EventRecord = EventRecord(
    runId: nat,
    vx: real, vy: real, vz: real,
    vzVpd: real,
    refMult: nat, refMult2: nat, refMult3: nat, refMult4: nat, gRefMult: nat,
    zdcX: real,
    triggerIds: set<nat>)

  /**
   * One reconstructed charged track. `dca` is the magnitude of the global
   * distance of closest approach to the event's primary vertex;
   * `bemcTowerIndex` is the calorimeter tower the track points to, or a
   * negative value when it points to none.
   */
  datatype TrackRecord = TrackRecord(
    id: nat,
    isPrimary: bool,
    dca: real,
    nHitsFit: nat,
    nHitsPoss: nat,
    chi2: real,
    pPt: real, gPt: real,
    pPtot: real, gPtot: real,
    bemcTowerIndex: int,
    charge: int)

  /** One calorimeter tower hit; the tower id is its position in the event plus one. */
  datatype TowerHit = TowerHit(energy: real, adc: nat)

  /** One simulated particle. */
  datatype McTrack = McTrack(geantId: nat, charge: int, idVtxStart: nat, idVtxStop: nat)

  /** One entry of the store: the event header with its tracks and towers. */
  datatype Event = Event(header: EventRecord, tracks: seq<TrackRecord>, towers: seq<TowerHit>)

  /** A value of cosh, which is never below one. */
  type CoshValue = r: real | r >= 1.0 witness 1.0

  /** A value of sin on the open interval (0, pi), which is positive. */
  type SinValue = r: real | r > 0.0 witness 1.0

  /**
   * The calorimeter geometry the reader consults: the raw pseudorapidity of
   * a tower, its pseudorapidity corrected for the vertex position, and the
   * transcendental functions the energy corrections need.
   */
  datatype Geometry = Geometry(
    towerEta: nat -> real,
    correctedEta: (nat, real) -> real,
    cosh: real -> CoshValue,
    sinTheta: real -> SinValue)
}
