/**
 * The Reader of reader/reader.cc. It walks the store entry by entry, runs
 * the event, track and tower selectors over each entry, and keeps the
 * vectors of what passes, with the tracks matched to each tower in the
 * tower-to-track association slots.
 */
module ReaderPipeline {
  import opened Wrappers
  import opened Records
  import opened EventSelection
  import TrackSelection
  import TowerSelection
  import CentralityCalc
  import opened ReaderSpec
  import ReaderWalk

  /** The failure of a read past the last entry. */
  const IndexOutOfRange: string := "requested index out of bounds of the chain"

  /** No name occurs twice. */
  predicate Distinct(names: seq<string>)
  {
    forall i, j :: 0 <= i < j < |names| ==> names[i] != names[j]
  }

  predicate BranchOn(branches: map<string, bool>, name: string)
  {
    name in branches && branches[name]
  }

  class Reader {
    /** The entries of the chain. */
    const store: seq<Event>
    /** Tower positions and the functions of pseudorapidity the calorimeter helper provides. */
    const geometry: Geometry
    /** The names of every branch of the store, the event branch first. */
    const arrays: seq<string>
    /** Slot k lists the accepted tracks of the current event that point to the tower with index k. */
    const hadCorrMap: array<seq<nat>>
    const centrality: CentralityCalc.CentralityRun14

    /** Which branches of the chain are read; a name that is absent is not read. */
    var branches: map<string, bool>
    /** The entry the reader last read, -1 before the first. */
    var index: int
    /** The entry the chain last loaded, -1 before the first. */
    var loaded: int
    var usePrimary: bool
    var useHadCorr: bool
    var hadCorrFraction: real
    var useMipCorr: bool
    /** Whether a centrality definition is loaded, so that each read runs the calculation. */
    var centralityOn: bool
    var pseudojets: seq<Emitted>
    var eventSelector: EventSelector?
    var trackSelector: TrackSelection.TrackSelector?
    var towerSelector: TowerSelection.TowerSelector?

    predicate Valid()
      reads this`index, this`loaded
    {
      hadCorrMap.Length == Slots &&
      -1 <= index < |store| && -1 <= loaded < |store|
    }

    /** The branch names: the event branch first, no name twice. */
    predicate BranchNames()
    {
      |arrays| > 0 && arrays[0] == EventBranch && Distinct(arrays)
    }

    /** Every selector is present; the source dereferences them without a check. */
    predicate Ready()
      reads this`eventSelector, this`trackSelector, this`towerSelector
    {
      eventSelector != null && trackSelector != null && towerSelector != null
    }

    function Settings(): Settings
      reads this`usePrimary, this`useHadCorr, this`hadCorrFraction, this`useMipCorr
    {
      ReaderSpec.Settings(usePrimary, useHadCorr, hadCorrFraction, useMipCorr)
    }

    function Loading(): Loading
      reads this`branches
    {
      ReaderSpec.Loading(BranchOn(branches, TrackBranch), BranchOn(branches, TowerBranch))
    }

    function Setup(): Setup
      requires Ready()
      reads this`eventSelector, this`trackSelector, this`towerSelector, eventSelector, trackSelector, towerSelector
      reads this`usePrimary, this`useHadCorr, this`hadCorrFraction, this`useMipCorr
    {
      ReaderSpec.Setup(eventSelector.Cuts(), trackSelector.Cuts(), towerSelector.Cuts(), Settings(), geometry)
    }

    /** What readEvent reports for each entry of the store. */
    function StoreResults(): seq<Result<EventStatus>>
      requires Ready()
      reads this`eventSelector, this`trackSelector, this`towerSelector, eventSelector, trackSelector, towerSelector
      reads this`usePrimary, this`useHadCorr, this`hadCorrFraction, this`useMipCorr
      reads this`branches, this`centralityOn, centrality`params
    {
      ReadResults(Setup(), Loading(), centralityOn, centrality.params, store)
    }

    /** The event selector's decision on each entry of the store. */
    function StoreDecisions(): seq<EventStatus>
      requires Ready()
      reads this`eventSelector, this`trackSelector, this`towerSelector, eventSelector, trackSelector, towerSelector
      reads this`usePrimary, this`useHadCorr, this`hadCorrFraction, this`useMipCorr
    {
      Decisions(Setup(), store)
    }

    predicate SlotsEmpty()
      reads hadCorrMap
    {
      forall k :: 0 <= k < hadCorrMap.Length ==> hadCorrMap[k] == []
    }

    /** A new reader: primary tracks, full hadronic correction, cleared selectors, nothing read yet. */
    constructor(store: seq<Event>, geometry: Geometry, arrays: seq<string>, branches: map<string, bool>)
      requires |arrays| > 0 && arrays[0] == EventBranch && Distinct(arrays)
      ensures Valid() && Ready() && BranchNames() && index == -1 && loaded == -1
      ensures this.store == store && this.geometry == geometry && this.arrays == arrays && this.branches == branches
      ensures Settings() == Defaults && !centralityOn
      ensures pseudojets == [] && SlotsEmpty()
      ensures eventSelector.Cuts() == Cleared({}) && trackSelector.Cuts() == TrackSelection.Cleared
      ensures towerSelector.Cuts() == TowerSelection.Cleared
      ensures fresh(eventSelector) && fresh(trackSelector) && fresh(towerSelector) && fresh(hadCorrMap)
    {
      this.store := store;
      this.geometry := geometry;
      this.arrays := arrays;
      this.branches := branches;
      index, loaded := -1, -1;
      usePrimary, useHadCorr, hadCorrFraction, useMipCorr := true, true, 1.0, false;
      centralityOn := false;
      pseudojets := [];
      hadCorrMap := new seq<nat>[Slots](_ => []);
      centrality := new CentralityCalc.CentralityRun14();
      eventSelector := new EventSelector();
      trackSelector := new TrackSelection.TrackSelector();
      towerSelector := new TowerSelection.TowerSelector();
    }

    method UsePrimaryTracks()
      modifies this`usePrimary
      ensures Settings() == old(Settings()).(usePrimary := true)
    {
      usePrimary := true;
    }

    method UseGlobalTracks()
      modifies this`usePrimary
      ensures Settings() == old(Settings()).(usePrimary := false)
    {
      usePrimary := false;
    }

    /** useMIPCorrection: switching it on switches the hadronic correction off. */
    method UseMIPCorrection(flag: bool)
      modifies this`useMipCorr, this`useHadCorr
      ensures Settings() == WithMipCorrection(old(Settings()), flag)
    {
      useMipCorr := flag;
      if useMipCorr {
        useHadCorr := false;
      }
    }

    /**
     * useHadronicCorrection: stores the flag and the fraction, switches MIP
     * off when the correction is on, and then asserts that the fraction
     * lies in [0, 1]; a failed assertion leaves the new settings in place.
     */
    method UseHadronicCorrection(flag: bool, fraction: real) returns (r: Result<()>)
      modifies this`useHadCorr, this`hadCorrFraction, this`useMipCorr
      ensures Settings() == WithHadronicCorrection(old(Settings()), flag, fraction)
      ensures r == FractionCheck(flag, fraction)
    {
      useHadCorr := flag;
      hadCorrFraction := fraction;
      if useHadCorr {
        useMipCorr := false;
        if hadCorrFraction < 0.0 {
          return Fatal(FractionBelowZero);
        }
        if hadCorrFraction > 1.0 {
          return Fatal(FractionAboveOne);
        }
      }
      return Ok(());
    }

    method SetEventSelector(selector: EventSelector?)
      modifies this`eventSelector
      ensures eventSelector == selector
    {
      eventSelector := selector;
    }

    method SetTrackSelector(selector: TrackSelection.TrackSelector?)
      modifies this`trackSelector
      ensures trackSelector == selector
    {
      trackSelector := selector;
    }

    method SetTowerSelector(selector: TowerSelection.TowerSelector?)
      modifies this`towerSelector
      ensures towerSelector == selector
    {
      towerSelector := selector;
    }

    /** Forgets the vectors and empties every slot. */
    method Clear()
      modifies this`pseudojets, hadCorrMap
      ensures pseudojets == [] && SlotsEmpty()
    {
      pseudojets := [];
      var k := 0;
      while k < hadCorrMap.Length
        invariant 0 <= k <= hadCorrMap.Length
        invariant pseudojets == []
        invariant forall j :: 0 <= j < k ==> hadCorrMap[j] == []
      {
        hadCorrMap[k] := [];
        k := k + 1;
      }
    }

    /**
     * selectTracks: a vector per accepted track, each accepted track that
     * points to a tower added to that tower's slot, and false when some
     * track asks for the event to be rejected.
     */
    method SelectTracks() returns (keep: bool)
      requires Valid() && Ready() && 0 <= loaded < |store| && TrackSlotsFit(Setup(), store[loaded].tracks)
      modifies this`pseudojets, hadCorrMap
      ensures keep == TracksKeep(Setup(), store[loaded].tracks, |store[loaded].tracks|)
      ensures pseudojets == old(pseudojets) + TrackVectors(Setup(), store[loaded].tracks, |store[loaded].tracks|)
      ensures forall k :: 0 <= k < Slots ==>
        hadCorrMap[k] == old(hadCorrMap[k]) + Matched(Setup(), store[loaded].tracks, k, |store[loaded].tracks|)
    {
      var u := Setup();
      var tracks := store[loaded].tracks;
      keep := true;
      var i := 0;
      while i < |tracks|
        invariant 0 <= i <= |tracks|
        invariant keep == TracksKeep(u, tracks, i)
        invariant pseudojets == old(pseudojets) + TrackVectors(u, tracks, i)
        invariant forall k :: 0 <= k < Slots ==> hadCorrMap[k] == old(hadCorrMap[k]) + Matched(u, tracks, k, i)
      {
        var t := tracks[i];
        var status := TrackSelection.Select(trackSelector.Cuts(), t, usePrimary);
        if status == TrackSelection.AcceptTrack {
          pseudojets := pseudojets + [FromTrack(i, usePrimary)];
          if t.bemcTowerIndex >= 0 {
            hadCorrMap[t.bemcTowerIndex] := hadCorrMap[t.bemcTowerIndex] + [i];
          }
        } else if status == TrackSelection.RejectEvent {
          keep := false;
        }
        i := i + 1;
      }
    }

    /** towerHadronicCorrection: the fraction of each matched track's momentum taken off the tower energy. */
    method TowerHadronicCorrection(towIdx: nat) returns (e: real)
      requires 0 <= loaded < |store| && towIdx < |store[loaded].towers| && towIdx < hadCorrMap.Length
      requires InTracks(hadCorrMap[towIdx], store[loaded].tracks)
      ensures e == HadCorrected(store[loaded].towers[towIdx].energy, store[loaded].tracks, hadCorrMap[towIdx], usePrimary, hadCorrFraction)
    {
      var ev := store[loaded];
      var slot := hadCorrMap[towIdx];
      e := ev.towers[towIdx].energy;
      var j := 0;
      while j < |slot|
        invariant 0 <= j <= |slot|
        invariant e == HadCorrected(ev.towers[towIdx].energy, ev.tracks, slot[..j], usePrimary, hadCorrFraction)
      {
        var t := ev.tracks[slot[j]];
        if usePrimary {
          e := e - t.pPtot * hadCorrFraction;
        } else {
          e := e - t.gPtot * hadCorrFraction;
        }
        assert slot[..j + 1][..j] == slot[..j];
        j := j + 1;
      }
      assert slot[..j] == slot;
    }

    /** towerMIPCorrection: one MIP energy at the tower's pseudorapidity taken off per matched track. */
    method TowerMIPCorrection(towIdx: nat, eta: real) returns (e: real)
      requires 0 <= loaded < |store| && towIdx < |store[loaded].towers| && towIdx < hadCorrMap.Length
      ensures e == MipCorrected(store[loaded].towers[towIdx].energy, |hadCorrMap[towIdx]|, eta, geometry.sinTheta(eta))
    {
      var towEnergy := store[loaded].towers[towIdx].energy;
      var mipE := 0.261 * (1.0 + 0.056 * (eta * eta)) / geometry.sinTheta(eta);
      var nTracks := |hadCorrMap[towIdx]|;
      e := towEnergy - (nTracks as real) * mipE;
    }

    /**
     * The body of selectTowers' loop for tower towIdx, whose id is towIdx + 1:
     * its verdict, and its vector when the corrected energy is positive and
     * passes again.
     */
    method SelectTower(towIdx: nat) returns (status: TowerSelection.TowerStatus, emitted: seq<Emitted>)
      requires Ready() && 0 <= loaded < |store| && towIdx < |store[loaded].towers| && towIdx < hadCorrMap.Length
      requires InTracks(hadCorrMap[towIdx], store[loaded].tracks)
      ensures status == TowerVerdict(Setup(), store[loaded], towIdx)
      ensures emitted == TowerVector(Setup(), store[loaded], hadCorrMap[towIdx], towIdx)
    {
      ghost var u := Setup();
      var ev := store[loaded];
      var id := towIdx + 1;
      var cosh := geometry.cosh(geometry.correctedEta(id, ev.header.vz));
      status := TowerSelection.Select(towerSelector.Cuts(), id, ev.towers[towIdx].energy, cosh);
      emitted := [];
      if status == TowerSelection.AcceptTower {
        var e := ev.towers[towIdx].energy;
        if useHadCorr {
          e := TowerHadronicCorrection(towIdx);
        } else if useMipCorr {
          e := TowerMIPCorrection(towIdx, geometry.towerEta(id));
        }
        assert e == CorrectedEnergy(u, ev, hadCorrMap[towIdx], towIdx);
        if e > 0.0 && TowerSelection.Select(towerSelector.Cuts(), id, e, cosh) == TowerSelection.AcceptTower {
          emitted := [FromTower(id, e, hadCorrMap[towIdx])];
        }
      }
    }

    /**
     * selectTowers: every tower that passes is corrected, and yields a
     * vector when the corrected energy is positive and passes again; false
     * when some tower asks for the event to be rejected.
     */
    method SelectTowers() returns (keep: bool)
      requires Ready() && 0 <= loaded < |store| && |store[loaded].towers| <= hadCorrMap.Length
      requires IndexesTracks(hadCorrMap[..], store[loaded].tracks)
      modifies this`pseudojets
      ensures keep == TowersKeep(Setup(), store[loaded], |store[loaded].towers|)
      ensures pseudojets == old(pseudojets) + TowerVectors(Setup(), store[loaded], hadCorrMap[..], |store[loaded].towers|)
    {
      ghost var u := Setup();
      var ev := store[loaded];
      ghost var slots := hadCorrMap[..];
      keep := true;
      var i := 0;
      while i < |ev.towers|
        invariant 0 <= i <= |ev.towers| <= |slots| && IndexesTracks(slots, ev.tracks)
        invariant keep == TowersKeep(u, ev, i)
        invariant pseudojets == old(pseudojets) + TowerVectors(u, ev, slots, i)
      {
        assert InTracks(slots[i], ev.tracks);
        var status, emitted := SelectTower(i);
        pseudojets := pseudojets + emitted;
        if status == TowerSelection.RejectEvent {
          keep := false;
        }
        i := i + 1;
      }
    }

    /** The track half of makeEvent, once the event selector has accepted the event. */
    method MakeTracks() returns (kept: bool)
      requires Valid() && Ready() && 0 <= loaded < |store| && !Overflows(Setup(), Loading(), store[loaded])
      requires Decision(Setup(), store[loaded]) == AcceptEvent
      requires pseudojets == [] && SlotsEmpty()
      modifies this`pseudojets, hadCorrMap
      ensures kept <==> !(Loading().tracks && !TracksKeep(Setup(), store[loaded].tracks, |store[loaded].tracks|))
      ensures forall k :: 0 <= k < Slots ==> hadCorrMap[k] == Slot(Setup(), Loading(), store[loaded], k)
      ensures pseudojets == if Loading().tracks then TrackVectors(Setup(), store[loaded].tracks, |store[loaded].tracks|) else []
    {
      kept := true;
      if BranchOn(branches, TrackBranch) {
        kept := SelectTracks();
      }
    }

    /**
     * makeEvent: the event selector decides first; an accepted event then
     * has its tracks and its towers processed, when their branches are read.
     */
    method MakeEvent() returns (status: EventStatus)
      requires Valid() && Ready() && 0 <= loaded < |store| && !Overflows(Setup(), Loading(), store[loaded])
      requires pseudojets == [] && SlotsEmpty()
      modifies this`pseudojets, hadCorrMap
      ensures status == Status(Setup(), Loading(), store[loaded])
      ensures forall k :: 0 <= k < Slots ==> hadCorrMap[k] == Slot(Setup(), Loading(), store[loaded], k)
      ensures IndexesTracks(hadCorrMap[..], store[loaded].tracks)
      ensures pseudojets == Vectors(Setup(), Loading(), store[loaded], hadCorrMap[..])
    {
      ghost var u, l := Setup(), Loading();
      var ev := store[loaded];
      status := eventSelector.Select(ev.header);
      if status != AcceptEvent {
        return;
      }
      var tracksKept := MakeTracks();
      SlotsIndexTracks(hadCorrMap[..], u, l, ev);
      if !tracksKept {
        return RejectEvent;
      }
      if BranchOn(branches, TowerBranch) {
        var towersKept := SelectTowers();
        if !towersKept {
          return RejectEvent;
        }
      }
      return AcceptEvent;
    }

    /**
     * readEvent: clears the last event, fails on an entry past the end,
     * runs the centrality calculation when a definition is loaded, fails
     * where making the event would index past the slots, and makes the event.
     */
    method ReadEvent(idx: nat) returns (r: Result<EventStatus>)
      requires Valid() && Ready()
      modifies this`pseudojets, this`index, this`loaded, hadCorrMap
      modifies centrality`refMultCorr, centrality`centrality16, centrality`centrality9, centrality`weight
      ensures Valid()
      ensures idx >= |store| ==> r.Fatal? && index == old(index) && loaded == old(loaded) && pseudojets == [] && SlotsEmpty()
      ensures idx < |store| ==> index == idx && loaded == idx
      ensures idx < |store| ==> r == ReadResult(Setup(), Loading(), centralityOn, centrality.params, store[idx])
      ensures idx < |store| && r.Ok? ==>
        (forall k :: 0 <= k < Slots ==> hadCorrMap[k] == Slot(Setup(), Loading(), store[idx], k)) &&
        IndexesTracks(hadCorrMap[..], store[idx].tracks) &&
        pseudojets == Vectors(Setup(), Loading(), store[idx], hadCorrMap[..])
      ensures idx < |store| && r.Ok? && centralityOn ==> centrality.Out() == CentralityOf(centrality.params, store[idx]).value
    {
      Clear();
      if idx >= |store| {
        return Fatal(IndexOutOfRange);
      }
      index := idx;
      loaded := idx;
      var ev := store[idx];
      if centralityOn {
        var c := centrality.SetEvent(ev.header.runId, ev.header.refMult as real, ev.header.zdcX, ev.header.vz);
        if c.Fatal? {
          return Fatal(CentralityOf(centrality.params, ev).reason);
        }
      }
      if Overflows(Setup(), Loading(), ev) {
        return Fatal(SlotOverflow);
      }
      var status := MakeEvent();
      r := Ok(status);
    }

    /** The first half of findNextGoodRun: records every branch's status, then reads the event branch alone. */
    method SwitchToEventBranch() returns (snapshot: seq<(string, bool)>)
      requires BranchNames()
      modifies this`branches
      ensures |snapshot| == |arrays|
      ensures forall j :: 0 <= j < |arrays| ==> snapshot[j] == (arrays[j], BranchOn(old(branches), arrays[j]))
      ensures forall j :: 0 <= j < |arrays| ==> BranchOn(branches, arrays[j]) == (j == 0)
      ensures forall name :: name !in arrays ==> BranchOn(branches, name) == BranchOn(old(branches), name)
    {
      snapshot := [];
      var i := 0;
      while i < |arrays|
        invariant 0 <= i <= |arrays| && |snapshot| == i
        invariant forall j :: 0 <= j < i ==> snapshot[j] == (arrays[j], BranchOn(old(branches), arrays[j]))
        invariant forall j :: 0 <= j < i ==> BranchOn(branches, arrays[j]) == (j == 0)
        invariant forall name :: name !in arrays[..i] ==> BranchOn(branches, name) == BranchOn(old(branches), name)
      {
        var name := arrays[i];
        assert name !in arrays[..i];
        snapshot := snapshot + [(name, BranchOn(branches, name))];
        branches := branches[name := i == 0];
        assert arrays[..i + 1] == arrays[..i] + [name];
        i := i + 1;
      }
      assert arrays[..i] == arrays;
    }

    /** The last half of findNextGoodRun: puts every recorded branch status back. */
    method RestoreBranches(snapshot: seq<(string, bool)>)
      requires BranchNames() && |snapshot| == |arrays|
      requires forall j :: 0 <= j < |arrays| ==> snapshot[j].0 == arrays[j]
      modifies this`branches
      ensures forall j :: 0 <= j < |arrays| ==> BranchOn(branches, arrays[j]) == snapshot[j].1
      ensures forall name :: name !in arrays ==> BranchOn(branches, name) == BranchOn(old(branches), name)
    {
      var j := 0;
      while j < |snapshot|
        invariant 0 <= j <= |snapshot|
        invariant forall m :: 0 <= m < j ==> BranchOn(branches, arrays[m]) == snapshot[m].1
        invariant forall name :: name !in arrays ==> BranchOn(branches, name) == BranchOn(old(branches), name)
      {
        branches := branches[snapshot[j].0 := snapshot[j].1];
        j := j + 1;
      }
    }

    /**
     * The scan of findNextGoodRun: from the loaded entry, loads entries
     * until the selector no longer rejects the run or the chain ends.
     */
    method ScanForGoodRun() returns (r: Result<(nat, bool)>)
      requires Valid() && Ready() && 0 <= loaded < |store|
      modifies this`loaded
      ensures Valid()
      ensures r == ReaderWalk.GoodRunSearch(StoreDecisions(), old(loaded))
      ensures r.Ok? ==> loaded == r.value.0
    {
      ghost var dec := StoreDecisions();
      ghost var start: nat := loaded;
      var found := false;
      var current: nat := loaded;
      var status := eventSelector.Select(store[current].header);
      var scanning := status == RejectRun;
      while scanning
        invariant start <= current < |store| && loaded == current
        invariant scanning ==> dec[current] == RejectRun && !found
        invariant ReaderWalk.GoodRunSearch(dec, start) == if scanning then ReaderWalk.FastForward(dec, current) else Ok((current, found))
        decreases |store| - current, scanning
      {
        current := current + 1;
        if current >= |store| {
          return Fatal(ReaderWalk.PastEndOfChain);
        }
        loaded := current;
        status := eventSelector.Select(store[current].header);
        assert status == dec[current];
        if status != RejectRun {
          found := true;
          scanning := false;
        } else if current >= |store| - 1 {
          scanning := false;
        }
      }
      r := Ok((current, found));
    }

    /**
     * The search of findNextGoodRun: switches every branch but the event
     * branch off, scans for a good run and puts the branches back. A load
     * past the end is fatal and leaves the branches switched off.
     */
    method SearchEventBranch() returns (r: Result<(nat, bool)>)
      requires Valid() && Ready() && BranchNames() && 0 <= loaded < |store|
      modifies this`loaded, this`branches
      ensures Valid()
      ensures r == ReaderWalk.GoodRunSearch(StoreDecisions(), old(loaded))
      ensures r.Ok? ==> loaded == r.value.0 && forall name :: BranchOn(branches, name) == BranchOn(old(branches), name)
    {
      ghost var b0 := branches;
      var snapshot := SwitchToEventBranch();
      r := ScanForGoodRun();
      if r.Fatal? {
        return;
      }
      RestoreBranches(snapshot);
      forall name | true
        ensures BranchOn(branches, name) == BranchOn(b0, name)
      {
        if name in arrays {
          var j :| 0 <= j < |arrays| && arrays[j] == name;
        }
      }
    }

    /**
     * findNextGoodRun: searches for a good run with the event branch alone
     * and reads the entry the search stopped at, dropping that read's status.
     */
    method FindNextGoodRun(ghost res: seq<Result<EventStatus>>, ghost dec: seq<EventStatus>) returns (r: Result<bool>)
      requires Valid() && Ready() && BranchNames() && 0 <= index < |store| && loaded == index
      requires res == StoreResults() && dec == StoreDecisions()
      modifies this`pseudojets, this`index, this`loaded, this`branches, hadCorrMap
      modifies centrality`refMultCorr, centrality`centrality16, centrality`centrality9, centrality`weight
      ensures Valid()
      ensures r.Ok? <==> ReaderWalk.FindNextGoodRun(res, dec, old(index)).Ok?
      ensures r.Ok? ==> ReaderWalk.FindNextGoodRun(res, dec, old(index)).value.0 == index
      ensures r.Ok? ==> ReaderWalk.FindNextGoodRun(res, dec, old(index)).value.1 == r.value
      ensures r.Ok? ==> loaded == index && forall name :: BranchOn(branches, name) == BranchOn(old(branches), name)
      ensures r.Ok? ==>
        0 <= index < |store| && !Overflows(Setup(), Loading(), store[index]) && IndexesTracks(hadCorrMap[..], store[index].tracks) &&
        pseudojets == Vectors(Setup(), Loading(), store[index], hadCorrMap[..])
    {
      var scan := SearchEventBranch();
      if scan.Fatal? {
        return Fatal(scan.reason);
      }
      assert Loading() == old(Loading());
      var read := ReadEvent(scan.value.0);
      assert read == res[scan.value.0];
      if read.Fatal? {
        return Fatal(read.reason);
      }
      r := Ok(scan.value.1);
    }

    /**
     * One pass of next()'s loop: reads the entry after the current one and,
     * on a rejected run, hands over to findNextGoodRun. `done` says whether
     * next() returns r here; otherwise it goes on from the new position.
     */
    method NextStep(ghost res: seq<Result<EventStatus>>, ghost dec: seq<EventStatus>) returns (r: Result<bool>, done: bool)
      requires Valid() && Ready() && BranchNames() && loaded == index && index < |store| - 1
      requires res == StoreResults() && dec == StoreDecisions()
      modifies this`pseudojets, this`index, this`loaded, this`branches, hadCorrMap
      modifies centrality`refMultCorr, centrality`centrality16, centrality`centrality9, centrality`weight
      ensures Valid()
      ensures !done || r.Ok? ==> loaded == index && Loading() == old(Loading())
      ensures done ==> (r.Ok? <==> ReaderWalk.NextAsWritten(res, dec, old(index)).Ok?)
      ensures done && r.Ok? ==> ReaderWalk.NextAsWritten(res, dec, old(index)) == Ok((index, r.value))
      ensures !done ==> old(index) < index && ReaderWalk.NextAsWritten(res, dec, old(index)) == ReaderWalk.NextAsWritten(res, dec, index)
      ensures done && r.Ok? && r.value ==>
        0 <= index < |store| && !Overflows(Setup(), Loading(), store[index]) && IndexesTracks(hadCorrMap[..], store[index].tracks) &&
        pseudojets == Vectors(Setup(), Loading(), store[index], hadCorrMap[..])
    {
      index := index + 1;
      var read := ReadEvent(index);
      assert res[index] == read;
      if read.Fatal? {
        return Fatal(read.reason), true;
      }
      if read.value == AcceptEvent {
        return Ok(true), true;
      }
      if read.value == RejectEvent {
        return Ok(false), false;
      }
      r, done := StepPastBadRun(res, dec);
    }

    /**
     * The rest of next()'s pass when the entry just read rejects its run:
     * findNextGoodRun, whose success with a good run counts as an event.
     */
    method StepPastBadRun(ghost res: seq<Result<EventStatus>>, ghost dec: seq<EventStatus>) returns (r: Result<bool>, done: bool)
      requires Valid() && Ready() && BranchNames() && 0 <= index < |store| && loaded == index
      requires res == StoreResults() && dec == StoreDecisions() && res[index] == Ok(RejectRun)
      modifies this`pseudojets, this`index, this`loaded, this`branches, hadCorrMap
      modifies centrality`refMultCorr, centrality`centrality16, centrality`centrality9, centrality`weight
      ensures Valid()
      ensures !done || r.Ok? ==> loaded == index && Loading() == old(Loading())
      ensures done ==> (r.Ok? <==> ReaderWalk.NextAsWritten(res, dec, old(index) - 1).Ok?)
      ensures done && r.Ok? ==> ReaderWalk.NextAsWritten(res, dec, old(index) - 1) == Ok((index, r.value))
      ensures !done ==> old(index) <= index && ReaderWalk.NextAsWritten(res, dec, old(index) - 1) == ReaderWalk.NextAsWritten(res, dec, index)
      ensures done && r.Ok? && r.value ==>
        0 <= index < |store| && !Overflows(Setup(), Loading(), store[index]) && IndexesTracks(hadCorrMap[..], store[index].tracks) &&
        pseudojets == Vectors(Setup(), Loading(), store[index], hadCorrMap[..])
    {
      var good := FindNextGoodRun(res, dec);
      if good.Fatal? {
        return Fatal(good.reason), true;
      }
      if good.value {
        return Ok(true), true;
      }
      return Ok(false), false;
    }

    /**
     * next: reads entries after the current one until one is accepted or
     * the chain ends; a rejected run hands over to findNextGoodRun, whose
     * success counts as an event.
     */
    method Next() returns (r: Result<bool>)
      requires Valid() && Ready() && BranchNames() && loaded == index
      modifies this`pseudojets, this`index, this`loaded, this`branches, hadCorrMap
      modifies centrality`refMultCorr, centrality`centrality16, centrality`centrality9, centrality`weight
      ensures Valid()
      ensures var w := ReaderWalk.NextAsWritten(old(StoreResults()), old(StoreDecisions()), old(index));
        (r.Ok? <==> w.Ok?) &&
        (r.Ok? ==> r.value == w.value.1 && index == w.value.0 && loaded == index && Loading() == old(Loading()))
      ensures r.Ok? && r.value ==>
        0 <= index < |store| && !Overflows(Setup(), Loading(), store[index]) && IndexesTracks(hadCorrMap[..], store[index].tracks) &&
        pseudojets == Vectors(Setup(), Loading(), store[index], hadCorrMap[..])
    {
      ghost var res := StoreResults();
      ghost var dec := StoreDecisions();
      ghost var w := ReaderWalk.NextAsWritten(res, dec, index);
      while loaded < |store| - 1
        invariant Valid() && loaded == index
        invariant Loading() == old(Loading()) && StoreResults() == res && StoreDecisions() == dec
        invariant w == ReaderWalk.NextAsWritten(res, dec, index)
        decreases |store| - index
      {
        var done;
        r, done := NextStep(res, dec);
        if done {
          return;
        }
      }
      return Ok(false);
    }
  }
}
