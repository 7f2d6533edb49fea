/**
 * What the Reader of reader/reader.cc does with the store, stated on
 * values: which tracks and towers one event yields, what the
 * tower-to-track association slots hold afterwards, the status makeEvent
 * reports, and where next() stops.
 */
module ReaderSpec {
  import opened Wrappers
  import opened Records
  import opened EventSelection
  import TrackSelection
  import TowerSelection
  import CentralityCalc
  import ReaderWalk

  /** The number of tower-to-track association slots the reader allocates. */
  const Slots: nat := 4800

  /** The failure of a read that would index the tower-to-track table past its slots. */
  const SlotOverflow: string := "tower index beyond the tower-to-track association table"

  const EventBranch := "Event"
  const TrackBranch := "Track"
  const TowerBranch := "BTowHit"

  /** The failures of useHadronicCorrection's assertions. */
  const FractionBelowZero: string := "hadronic correction fraction less than zero"
  const FractionAboveOne: string := "hadronic correction fraction greater than one"

  /** The reader's own settings: the track mode and the tower energy correction. */
  datatype Settings = Settings(usePrimary: bool, useHadCorr: bool, hadCorrFraction: real, useMipCorr: bool)

  /** What the constructor sets: primary tracks, full hadronic correction, no MIP correction. */
  const Defaults := Settings(true, true, 1.0, false)

  /** At most one tower energy correction is on. */
  predicate OneCorrection(s: Settings)
  {
    !(s.useHadCorr && s.useMipCorr)
  }

  /** useMIPCorrection: switching the MIP correction on switches the hadronic one off. */
  function WithMipCorrection(s: Settings, flag: bool): (r: Settings)
    ensures r.useMipCorr == flag && OneCorrection(r)
    ensures r.useHadCorr == (s.useHadCorr && !flag)
    ensures Sane(s) ==> Sane(r)
    ensures r.usePrimary == s.usePrimary && r.hadCorrFraction == s.hadCorrFraction
  {
    s.(useMipCorr := flag, useHadCorr := if flag then false else s.useHadCorr)
  }

  /**
   * useHadronicCorrection: the flag and the fraction are stored either way;
   * switching the correction on switches MIP off.
   */
  function WithHadronicCorrection(s: Settings, flag: bool, fraction: real): (r: Settings)
    ensures r.useHadCorr == flag && r.hadCorrFraction == fraction && OneCorrection(r)
    ensures FractionCheck(flag, fraction).Ok? ==> Sane(r)
    ensures r.useMipCorr == (s.useMipCorr && !flag)
    ensures r.usePrimary == s.usePrimary
  {
    s.(useHadCorr := flag, hadCorrFraction := fraction, useMipCorr := if flag then false else s.useMipCorr)
  }

  /** What useHadronicCorrection asserts once the correction is on: a fraction in [0, 1]. */
  function FractionCheck(flag: bool, fraction: real): (r: Result<()>)
    ensures r.Ok? <==> !flag || 0.0 <= fraction <= 1.0
  {
    if flag && fraction < 0.0 then Fatal(FractionBelowZero)
    else if flag && fraction > 1.0 then Fatal(FractionAboveOne)
    else Ok(())
  }

  /** Settings the reader can be left in by setters that did not fail: one correction, and a fraction in [0, 1] while the hadronic one is on. */
  predicate Sane(s: Settings)
  {
    OneCorrection(s) && (s.useHadCorr ==> 0.0 <= s.hadCorrFraction <= 1.0)
  }

  /** Everything besides the event itself that decides what one event yields. */
  datatype Setup = Setup(
    events: EventCuts, tracks: TrackSelection.TrackCuts, towers: TowerSelection.TowerCuts,
    settings: Settings, geometry: Geometry)

  /** Whether the track and tower branches of the store are read. */
  datatype Loading = Loading(tracks: bool, towers: bool)

  /**
   * A four-vector the reader emits. Building the vector itself is left to a
   * foreign library; what is kept is where it came from: a track's position
   * in the event and the mode it was read in, or a tower's id, corrected
   * energy and the tracks matched to it.
   */
  datatype Emitted = FromTrack(trackIndex: nat, primary: bool) | FromTower(towerId: nat, energy: real, matchedTracks: seq<nat>)

  // Tracks.

  function TrackVerdict(u: Setup, t: TrackRecord): TrackSelection.TrackStatus
  {
    TrackSelection.Select(u.tracks, t, u.settings.usePrimary)
  }

  /** Every accepted track that points to a tower points to a slot that exists. */
  predicate TrackSlotsFit(u: Setup, tracks: seq<TrackRecord>)
  {
    forall i :: 0 <= i < |tracks| && TrackVerdict(u, tracks[i]) == TrackSelection.AcceptTrack ==>
      tracks[i].bemcTowerIndex < Slots
  }

  /** The vectors of the first n tracks: one per accepted track, in track order. */
  function TrackVectors(u: Setup, tracks: seq<TrackRecord>, n: nat): (vs: seq<Emitted>)
    requires n <= |tracks|
    ensures |vs| <= n
    ensures forall j :: 0 <= j < |vs| ==>
      vs[j].FromTrack? && vs[j].trackIndex < n && vs[j].primary == u.settings.usePrimary &&
      TrackVerdict(u, tracks[vs[j].trackIndex]) == TrackSelection.AcceptTrack
  {
    if n == 0 then []
    else
      TrackVectors(u, tracks, n - 1) +
      (if TrackVerdict(u, tracks[n - 1]) == TrackSelection.AcceptTrack then [FromTrack(n - 1, u.settings.usePrimary)] else [])
  }

  /** Slot k after the first n tracks: the accepted tracks that point to tower k, in track order. */
  function Matched(u: Setup, tracks: seq<TrackRecord>, k: nat, n: nat): (slot: seq<nat>)
    requires n <= |tracks|
    ensures forall j :: 0 <= j < |slot| ==> slot[j] < n
  {
    if n == 0 then []
    else
      Matched(u, tracks, k, n - 1) +
      (if TrackVerdict(u, tracks[n - 1]) == TrackSelection.AcceptTrack && tracks[n - 1].bemcTowerIndex == k then [n - 1] else [])
  }

  /** The event flag selectTracks keeps over the first n tracks: it drops once a track asks for the event to be rejected. */
  predicate TracksKeep(u: Setup, tracks: seq<TrackRecord>, n: nat)
    requires n <= |tracks|
  {
    n == 0 || (TracksKeep(u, tracks, n - 1) && TrackVerdict(u, tracks[n - 1]) != TrackSelection.RejectEvent)
  }

  // Towers.

  function Ptot(t: TrackRecord, primary: bool): real
  {
    if primary then t.pPtot else t.gPtot
  }

  /** Every index a slot holds names a track of the event. */
  predicate InTracks(slot: seq<nat>, tracks: seq<TrackRecord>)
  {
    forall j :: 0 <= j < |slot| ==> slot[j] < |tracks|
  }

  /** Every slot of a table holds indexes of tracks of the event. */
  predicate IndexesTracks(slots: seq<seq<nat>>, tracks: seq<TrackRecord>)
  {
    forall k :: 0 <= k < |slots| ==> InTracks(slots[k], tracks)
  }

  /** A table whose every slot is that of `ev` indexes tracks of `ev`. */
  lemma SlotsIndexTracks(slots: seq<seq<nat>>, u: Setup, l: Loading, ev: Event)
    requires forall k :: 0 <= k < |slots| ==> slots[k] == Slot(u, l, ev, k)
    ensures IndexesTracks(slots, ev.tracks)
  {
    forall k | 0 <= k < |slots| ensures InTracks(slots[k], ev.tracks) {
      assert slots[k] == Slot(u, l, ev, k);
    }
  }

  /** towerHadronicCorrection: the fraction of each matched track's momentum taken off in turn. */
  function HadCorrected(raw: real, tracks: seq<TrackRecord>, slot: seq<nat>, primary: bool, fraction: real): (e: real)
    requires InTracks(slot, tracks)
    ensures e == raw - PtotSum(tracks, slot, primary) * fraction
  {
    if slot == [] then raw
    else
      HadCorrected(raw, tracks, slot[..|slot| - 1], primary, fraction) -
      Ptot(tracks[slot[|slot| - 1]], primary) * fraction
  }

  /** The total momentum of the tracks in a slot. */
  function PtotSum(tracks: seq<TrackRecord>, slot: seq<nat>, primary: bool): real
    requires InTracks(slot, tracks)
  {
    if slot == [] then 0.0
    else PtotSum(tracks, slot[..|slot| - 1], primary) + Ptot(tracks[slot[|slot| - 1]], primary)
  }

  /** The energy a minimum-ionising particle leaves in a tower at pseudorapidity eta, sinTheta being sin of its polar angle. */
  function MipEnergy(eta: real, sinTheta: SinValue): real
  {
    0.261 * (1.0 + 0.056 * (eta * eta)) / sinTheta
  }

  lemma MipPositive(eta: real, sinTheta: SinValue)
    ensures MipEnergy(eta, sinTheta) > 0.0
  {
    var top := 0.261 * (1.0 + 0.056 * (eta * eta));
    assert eta * eta >= 0.0;
    assert top > 0.0;
  }

  /** towerMIPCorrection: one MIP energy taken off per matched track. */
  function MipCorrected(raw: real, matched: nat, eta: real, sinTheta: SinValue): (e: real)
    ensures e <= raw
    ensures e == raw <==> matched == 0
  {
    MipPositive(eta, sinTheta);
    raw - (matched as real) * MipEnergy(eta, sinTheta)
  }

  /** The energy of tower idx after the correction that is on. */
  function CorrectedEnergy(u: Setup, ev: Event, slot: seq<nat>, idx: nat): real
    requires idx < |ev.towers|
    requires InTracks(slot, ev.tracks)
  {
    var raw := ev.towers[idx].energy;
    if u.settings.useHadCorr then HadCorrected(raw, ev.tracks, slot, u.settings.usePrimary, u.settings.hadCorrFraction)
    else if u.settings.useMipCorr then
      var eta := u.geometry.towerEta(idx + 1);
      MipCorrected(raw, |slot|, eta, u.geometry.sinTheta(eta))
    else raw
  }

  /** cosh of the vertex-corrected pseudorapidity of tower idx, whose id is idx + 1. */
  function TowerCosh(u: Setup, ev: Event, idx: nat): CoshValue
  {
    u.geometry.cosh(u.geometry.correctedEta(idx + 1, ev.header.vz))
  }

  /** The selector's verdict on tower idx at its raw energy, under id idx + 1. */
  function TowerVerdict(u: Setup, ev: Event, idx: nat): (s: TowerSelection.TowerStatus)
    requires idx < |ev.towers|
    ensures u.towers.badTowers.active && idx + 1 in u.towers.badTowers.ids ==> s == TowerSelection.RejectTower
    ensures s == TowerSelection.RejectEvent ==> u.towers.rejectEventOnEtFailure && u.towers.etMax.active
  {
    TowerSelection.Select(u.towers, idx + 1, ev.towers[idx].energy, TowerCosh(u, ev, idx))
  }

  /** Tower idx is emitted: it passes, and so does its corrected energy, which is positive. */
  predicate TowerEmits(u: Setup, ev: Event, slot: seq<nat>, idx: nat)
    requires idx < |ev.towers|
    requires InTracks(slot, ev.tracks)
  {
    TowerVerdict(u, ev, idx) == TowerSelection.AcceptTower &&
    CorrectedEnergy(u, ev, slot, idx) > 0.0 &&
    TowerSelection.Select(u.towers, idx + 1, CorrectedEnergy(u, ev, slot, idx), TowerCosh(u, ev, idx)) == TowerSelection.AcceptTower
  }

  /** What tower idx yields: one vector when it is emitted, with its corrected energy and its slot. */
  function TowerVector(u: Setup, ev: Event, slot: seq<nat>, idx: nat): seq<Emitted>
    requires idx < |ev.towers|
    requires InTracks(slot, ev.tracks)
  {
    if TowerEmits(u, ev, slot, idx) then [FromTower(idx + 1, CorrectedEnergy(u, ev, slot, idx), slot)] else []
  }

  /** The vectors of the first n towers, in tower order. */
  function TowerVectors(u: Setup, ev: Event, slots: seq<seq<nat>>, n: nat): seq<Emitted>
    requires n <= |ev.towers| && n <= |slots| && IndexesTracks(slots, ev.tracks)
  {
    if n == 0 then [] else TowerVectors(u, ev, slots, n - 1) + TowerVector(u, ev, slots[n - 1], n - 1)
  }

  /** The event flag selectTowers keeps over the first n towers: it drops once a tower asks for the event to be rejected. */
  predicate TowersKeep(u: Setup, ev: Event, n: nat)
    requires n <= |ev.towers|
  {
    n == 0 || (TowersKeep(u, ev, n - 1) && TowerVerdict(u, ev, n - 1) != TowerSelection.RejectEvent)
  }

  // One event.

  function Decision(u: Setup, ev: Event): EventStatus
  {
    Decide(u.events, ev.header)
  }

  /** The tracks are processed when the event passes and the track branch is read. */
  predicate TracksRead(u: Setup, l: Loading, ev: Event)
  {
    Decision(u, ev) == AcceptEvent && l.tracks
  }

  /** The towers are processed when the event passes, no processed track rejected it, and the tower branch is read. */
  predicate TowersRead(u: Setup, l: Loading, ev: Event)
  {
    Decision(u, ev) == AcceptEvent && (l.tracks ==> TracksKeep(u, ev.tracks, |ev.tracks|)) && l.towers
  }

  /** Slot k once the event is made. */
  function Slot(u: Setup, l: Loading, ev: Event, k: nat): (slot: seq<nat>)
    ensures InTracks(slot, ev.tracks)
  {
    if TracksRead(u, l, ev) then Matched(u, ev.tracks, k, |ev.tracks|) else []
  }

  /** makeEvent's status: the selector's, else a rejection asked for by a track or a tower. */
  function Status(u: Setup, l: Loading, ev: Event): (s: EventStatus)
    ensures s == RejectRun <==> Decision(u, ev) == RejectRun
    ensures s == AcceptEvent <==>
      (Decision(u, ev) == AcceptEvent && (l.tracks ==> TracksKeep(u, ev.tracks, |ev.tracks|)) &&
       (l.towers ==> TowersKeep(u, ev, |ev.towers|)))
  {
    if Decision(u, ev) != AcceptEvent then Decision(u, ev)
    else if l.tracks && !TracksKeep(u, ev.tracks, |ev.tracks|) then RejectEvent
    else if l.towers && !TowersKeep(u, ev, |ev.towers|) then RejectEvent
    else AcceptEvent
  }

  /**
   * The vectors the event yields: its processed tracks, then its processed
   * towers, each corrected with its slot from the table the tracks left
   * (slot k being Slot(u, l, ev, k)).
   */
  function Vectors(u: Setup, l: Loading, ev: Event, slots: seq<seq<nat>>): seq<Emitted>
    requires (TowersRead(u, l, ev) ==> |ev.towers| <= |slots|) && IndexesTracks(slots, ev.tracks)
  {
    (if TracksRead(u, l, ev) then TrackVectors(u, ev.tracks, |ev.tracks|) else []) +
    (if TowersRead(u, l, ev) then TowerVectors(u, ev, slots, |ev.towers|) else [])
  }

  /** The centrality calculation readEvent runs first, when a definition is loaded. */
  function CentralityOf(cal: CentralityCalc.Calibration, ev: Event): Result<CentralityCalc.Outcome>
  {
    CentralityCalc.Evaluate(cal, ev.header.runId, ev.header.refMult as real, ev.header.zdcX, ev.header.vz)
  }

  /**
   * makeEvent would index the tower-to-track table out of range: an
   * accepted track of a read track branch points to a tower with index 4800
   * or more, or the towers are processed and there are more than 4800.
   */
  predicate Overflows(u: Setup, l: Loading, ev: Event)
  {
    (TracksRead(u, l, ev) && !TrackSlotsFit(u, ev.tracks)) || (TowersRead(u, l, ev) && |ev.towers| > Slots)
  }

  /**
   * readEvent on an entry: a centrality calculation that fails is fatal, so
   * is a makeEvent that would write past the slots (undefined behaviour in
   * the source), else makeEvent's status.
   */
  function ReadResult(u: Setup, l: Loading, centralityOn: bool, cal: CentralityCalc.Calibration, ev: Event): (r: Result<EventStatus>)
    ensures r.Ok? <==> !(centralityOn && CentralityOf(cal, ev).Fatal?) && !Overflows(u, l, ev)
    ensures r.Ok? ==> r.value == Status(u, l, ev)
  {
    if centralityOn && CentralityOf(cal, ev).Fatal? then Fatal(CentralityOf(cal, ev).reason)
    else if Overflows(u, l, ev) then Fatal(SlotOverflow)
    else Ok(Status(u, l, ev))
  }

  /** readEvent's result for every entry of the store. */
  function ReadResults(u: Setup, l: Loading, centralityOn: bool, cal: CentralityCalc.Calibration, store: seq<Event>): (res: seq<Result<EventStatus>>)
    ensures |res| == |store|
    ensures forall k :: 0 <= k < |store| ==> res[k] == ReadResult(u, l, centralityOn, cal, store[k])
  {
    seq(|store|, k requires 0 <= k < |store| => ReadResult(u, l, centralityOn, cal, store[k]))
  }

  /** The selector's decision on every entry of the store. */
  function Decisions(u: Setup, store: seq<Event>): (dec: seq<EventStatus>)
    ensures |dec| == |store|
    ensures forall k :: 0 <= k < |store| ==> dec[k] == Decision(u, store[k])
  {
    seq(|store|, k requires 0 <= k < |store| => Decision(u, store[k]))
  }

  /** A read reports the run rejected exactly when the selector rejects the run. */
  lemma RunRejectionIsTheSelectors(u: Setup, l: Loading, on: bool, cal: CentralityCalc.Calibration, ev: Event)
    ensures ReadResult(u, l, on, cal, ev) == Ok(RejectRun) ==> Decision(u, ev) == RejectRun
    ensures Decision(u, ev) == RejectRun ==> ReadResult(u, l, on, cal, ev) != Ok(AcceptEvent)
    ensures ReadResult(u, l, on, cal, ev) == Ok(AcceptEvent) ==> Decision(u, ev) == AcceptEvent
  {
  }

  /** Every read that reports the run rejected is the selector's, and a rejected run is never accepted. */
  lemma StoreCoherent(u: Setup, l: Loading, on: bool, cal: CentralityCalc.Calibration, store: seq<Event>)
    ensures ReaderWalk.Coherent(ReadResults(u, l, on, cal, store), Decisions(u, store))
  {
    var res, dec := ReadResults(u, l, on, cal, store), Decisions(u, store);
    forall k | 0 <= k < |store|
      ensures (res[k] == Ok(RejectRun) ==> dec[k] == RejectRun) && (dec[k] == RejectRun ==> res[k] != Ok(AcceptEvent))
    {
      RunRejectionIsTheSelectors(u, l, on, cal, store[k]);
    }
  }

  /**
   * With the walk corrected, next() over the store stops at the next
   * entry readEvent accepts, provided every read succeeds.
   */
  lemma CorrectedNextOverStore(u: Setup, l: Loading, on: bool, cal: CentralityCalc.Calibration, store: seq<Event>, index: int)
    requires ReaderWalk.AllRead(ReadResults(u, l, on, cal, store)) && -1 <= index < |store|
    ensures ReaderWalk.NextCorrected(ReadResults(u, l, on, cal, store), Decisions(u, store), index)
      == Ok(ReaderWalk.NextAccepted(ReadResults(u, l, on, cal, store), index))
  {
    StoreCoherent(u, l, on, cal, store);
    ReaderWalk.CorrectedFindsNextAccepted(ReadResults(u, l, on, cal, store), Decisions(u, store), index);
  }

  /** Slot k holds exactly the accepted tracks that point to tower k, in increasing order. */
  lemma {:induction false} MatchedExactly(u: Setup, tracks: seq<TrackRecord>, k: nat, n: nat)
    requires n <= |tracks|
    ensures forall i: nat :: i in Matched(u, tracks, k, n) <==>
      i < n && TrackVerdict(u, tracks[i]) == TrackSelection.AcceptTrack && tracks[i].bemcTowerIndex == k
    ensures forall a, b :: 0 <= a < b < |Matched(u, tracks, k, n)| ==> Matched(u, tracks, k, n)[a] < Matched(u, tracks, k, n)[b]
  {
    if n > 0 {
      MatchedExactly(u, tracks, k, n - 1);
    }
  }

  /** A track yields a vector exactly when it is accepted, and the vectors follow track order. */
  lemma {:induction false} TrackVectorsExactly(u: Setup, tracks: seq<TrackRecord>, n: nat)
    requires n <= |tracks|
    ensures forall i :: 0 <= i < n ==>
      (FromTrack(i, u.settings.usePrimary) in TrackVectors(u, tracks, n) <==> TrackVerdict(u, tracks[i]) == TrackSelection.AcceptTrack)
    ensures forall a, b :: 0 <= a < b < |TrackVectors(u, tracks, n)| ==>
      TrackVectors(u, tracks, n)[a].trackIndex < TrackVectors(u, tracks, n)[b].trackIndex
  {
    if n > 0 {
      TrackVectorsExactly(u, tracks, n - 1);
    }
  }

  /** Every tower vector is an emitted tower among the first n, with its corrected energy and its slot. */
  lemma {:induction false} TowerVectorsSound(u: Setup, ev: Event, slots: seq<seq<nat>>, n: nat)
    requires n <= |ev.towers| && n <= |slots| && IndexesTracks(slots, ev.tracks)
    ensures forall v :: v in TowerVectors(u, ev, slots, n) ==>
      v.FromTower? && 1 <= v.towerId <= n && v.matchedTracks == slots[v.towerId - 1] &&
      TowerEmits(u, ev, slots[v.towerId - 1], v.towerId - 1) &&
      v.energy == CorrectedEnergy(u, ev, slots[v.towerId - 1], v.towerId - 1)
  {
    if n > 0 {
      TowerVectorsSound(u, ev, slots, n - 1);
      var init, last := TowerVectors(u, ev, slots, n - 1), TowerVector(u, ev, slots[n - 1], n - 1);
      assert TowerVectors(u, ev, slots, n) == init + last;
      forall v: Emitted | v in init + last
        ensures v.FromTower? && 1 <= v.towerId <= n && v.matchedTracks == slots[v.towerId - 1] &&
          TowerEmits(u, ev, slots[v.towerId - 1], v.towerId - 1) &&
          v.energy == CorrectedEnergy(u, ev, slots[v.towerId - 1], v.towerId - 1)
      {
        if v !in init {
          assert v in last && v.towerId == n;
        }
      }
    }
  }

  /** Every emitted tower among the first n yields its vector. */
  lemma {:induction false} TowerVectorsComplete(u: Setup, ev: Event, slots: seq<seq<nat>>, n: nat)
    requires n <= |ev.towers| && n <= |slots| && IndexesTracks(slots, ev.tracks)
    ensures forall idx :: 0 <= idx < n && TowerEmits(u, ev, slots[idx], idx) ==>
      FromTower(idx + 1, CorrectedEnergy(u, ev, slots[idx], idx), slots[idx]) in TowerVectors(u, ev, slots, n)
  {
    if n > 0 {
      TowerVectorsComplete(u, ev, slots, n - 1);
      assert TowerVectors(u, ev, slots, n) == TowerVectors(u, ev, slots, n - 1) + TowerVector(u, ev, slots[n - 1], n - 1);
    }
  }

  /** The tower vectors depend on the slots of those towers alone. */
  lemma {:induction false} TowerVectorsSameSlots(u: Setup, ev: Event, s1: seq<seq<nat>>, s2: seq<seq<nat>>, n: nat)
    requires n <= |ev.towers| && n <= |s1| && n <= |s2| && IndexesTracks(s1, ev.tracks) && IndexesTracks(s2, ev.tracks)
    requires forall k :: 0 <= k < n ==> s1[k] == s2[k]
    ensures TowerVectors(u, ev, s1, n) == TowerVectors(u, ev, s2, n)
  {
    if n > 0 {
      TowerVectorsSameSlots(u, ev, s1, s2, n - 1);
    }
  }

  /** The track flag stays up exactly when no track asks for the event to be rejected. */
  lemma {:induction false} TracksKeepExactly(u: Setup, tracks: seq<TrackRecord>, n: nat)
    requires n <= |tracks|
    ensures TracksKeep(u, tracks, n) <==> forall i :: 0 <= i < n ==> TrackVerdict(u, tracks[i]) != TrackSelection.RejectEvent
  {
    if n > 0 {
      TracksKeepExactly(u, tracks, n - 1);
    }
  }

  /** The tower flag stays up exactly when no tower asks for the event to be rejected. */
  lemma {:induction false} TowersKeepExactly(u: Setup, ev: Event, n: nat)
    requires n <= |ev.towers|
    ensures TowersKeep(u, ev, n) <==> forall i :: 0 <= i < n ==> TowerVerdict(u, ev, i) != TowerSelection.RejectEvent
  {
    if n > 0 {
      TowersKeepExactly(u, ev, n - 1);
    }
  }

  /** The hadronic correction takes the fraction of the slot's total momentum off the raw energy. */
  lemma {:induction false} HadCorrectedSubtractsFraction(raw: real, tracks: seq<TrackRecord>, slot: seq<nat>, primary: bool, fraction: real)
    requires InTracks(slot, tracks)
    ensures HadCorrected(raw, tracks, slot, primary, fraction) == raw - fraction * PtotSum(tracks, slot, primary)
  {
    if slot != [] {
      var init := slot[..|slot| - 1];
      HadCorrectedSubtractsFraction(raw, tracks, init, primary, fraction);
      var p := Ptot(tracks[slot[|slot| - 1]], primary);
      assert fraction * (PtotSum(tracks, init, primary) + p) == fraction * PtotSum(tracks, init, primary) + fraction * p;
    }
  }

  /** The MIP energy is positive, so each matched track lowers the tower energy. */
  lemma MipCorrectionLowers(raw: real, matched: nat, eta: real, sinTheta: SinValue)
    ensures matched == 0 ==> MipCorrected(raw, matched, eta, sinTheta) == raw
    ensures matched > 0 ==> MipCorrected(raw, matched, eta, sinTheta) < raw
    ensures MipCorrected(raw, matched + 1, eta, sinTheta) < MipCorrected(raw, matched, eta, sinTheta)
  {
    assert eta * eta >= 0.0;
    var m := MipEnergy(eta, sinTheta);
    assert 0.261 * (1.0 + 0.056 * (eta * eta)) > 0.0;
    assert m > 0.0;
    assert (matched as real) * m >= 0.0;
    assert ((matched + 1) as real) * m == (matched as real) * m + m;
  }
}
