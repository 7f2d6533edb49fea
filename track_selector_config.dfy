/**
 * TrackSelectorConfigHelper of reader/config/track_selector_config_helper.cc:
 * loading a track selector's cuts from a configuration section, and
 * writing a selector's cuts out as one.
 */
module TrackSelectorConfig {
  import opened Wrappers
  import opened CutTypes
  import opened ConfigDocument
  import opened TrackSelection

  const NHitsFracOutOfRange: string := "NHitsFrac must be in (0, 1]"

  const MaxDcaKey := "maxDCA"
  const NHitsMinKey := "nHitsMin"
  const NHitsFracMinKey := "nhitsFracMin"
  const PtMaxKey := "PtMax"
  const PtMinKey := "PtMin"
  const Chi2MaxKey := "chi2Max"
  const RejectEventKey := "rejectEventOnMaxPtFailure"

  predicate Known(key: string)
  {
    key in {MaxDcaKey, NHitsMinKey, NHitsFracMinKey, PtMaxKey, PtMinKey, Chi2MaxKey, RejectEventKey}
  }

  /** A hit fraction; the setter demands 0 < min <= 1. */
  function FractionOf(n: Node): (r: Result<real>)
    ensures r.Ok? <==> NodeReal(n).Ok? && 0.0 < NodeReal(n).value <= 1.0
    ensures r.Ok? ==> r == NodeReal(n)
  {
    var x := NodeReal(n);
    if x.Fatal? then x
    else if !(x.value > 0.0 && x.value <= 1.0) then Fatal(NHitsFracOutOfRange)
    else x
  }

  /**
   * The effect of one entry on the cuts: the setter its key names, with
   * the value converted as that setter's argument. A conversion that does
   * not fit, or a value the setter's assertion refuses, is fatal; any other
   * key is only reported.
   */
  function TrackEntry(c: TrackCuts, e: Entry): (r: Result<TrackCuts>)
    ensures !Known(e.key) ==> r == Ok(c)
    ensures r.Ok? && Valid(c) ==> Valid(r.value)
  {
    var n := e.node;
    if e.key == MaxDcaKey then
      var x := PositiveOf(n);
      if x.Fatal? then Fatal(x.reason) else Ok(WithDcaMax(c, x.value))
    else if e.key == NHitsMinKey then
      var k := NodeCount(n);
      if k.Fatal? then Fatal(k.reason) else Ok(WithNHitsMin(c, k.value))
    else if e.key == NHitsFracMinKey then
      var x := FractionOf(n);
      if x.Fatal? then Fatal(x.reason) else Ok(WithNHitsFracMin(c, x.value))
    else if e.key == PtMinKey then
      var x := PositiveOf(n);
      if x.Fatal? then Fatal(x.reason) else Ok(WithPtMin(c, x.value))
    else if e.key == PtMaxKey then
      var x := PositiveOf(n);
      if x.Fatal? then Fatal(x.reason) else Ok(WithPtMax(c, x.value))
    else if e.key == Chi2MaxKey then
      var x := PositiveOf(n);
      if x.Fatal? then Fatal(x.reason) else Ok(WithChi2Max(c, x.value))
    else if e.key == RejectEventKey then
      var b := NodeFlag(n);
      if b.Fatal? then Fatal(b.reason) else Ok(WithRejectEventOnPtFailure(c, b.value))
    else Ok(c)
  }

  /** loadConfig: the entries applied in document order; the first fatal one ends the load. */
  function Load(c: TrackCuts, doc: Section): Result<TrackCuts>
  {
    Fold(c, doc, TrackEntry)
  }

  /** One entry: the setter its key selects. */
  method LoadEntry(sel: TrackSelector, e: Entry) returns (r: Result<()>)
    modifies sel
    ensures r.Ok? <==> TrackEntry(old(sel.Cuts()), e).Ok?
    ensures r.Ok? ==> sel.Cuts() == TrackEntry(old(sel.Cuts()), e).value
  {
    var n := e.node;
    if e.key == MaxDcaKey || e.key == PtMinKey || e.key == PtMaxKey || e.key == Chi2MaxKey {
      var x := PositiveOf(n);
      if x.Fatal? {
        return Fatal(x.reason);
      }
      if e.key == MaxDcaKey {
        sel.SetDcaMax(x.value);
      } else if e.key == PtMinKey {
        sel.SetPtMin(x.value);
      } else if e.key == PtMaxKey {
        sel.SetPtMax(x.value);
      } else {
        sel.SetChi2Max(x.value);
      }
    } else if e.key == NHitsMinKey {
      var k := NodeCount(n);
      if k.Fatal? {
        return Fatal(k.reason);
      }
      sel.SetNHitsMin(k.value);
    } else if e.key == NHitsFracMinKey {
      var x := FractionOf(n);
      if x.Fatal? {
        return Fatal(x.reason);
      }
      sel.SetNHitsFracMin(x.value);
    } else if e.key == RejectEventKey {
      var b := NodeFlag(n);
      if b.Fatal? {
        return Fatal(b.reason);
      }
      sel.RejectEventOnPtFailure(b.value);
    }
    // Any other key is only reported.
    r := Ok(());
  }

  /** loadConfig: proved against `Load`. */
  method LoadConfig(sel: TrackSelector, doc: Section) returns (r: Result<()>)
    modifies sel
    ensures r.Ok? <==> Load(old(sel.Cuts()), doc).Ok?
    ensures r.Ok? ==> sel.Cuts() == Load(old(sel.Cuts()), doc).value
  {
    var i := 0;
    while i < |doc|
      invariant 0 <= i <= |doc|
      invariant Fold(old(sel.Cuts()), doc[..i], TrackEntry) == Ok(sel.Cuts())
    {
      FoldStep(old(sel.Cuts()), doc, i, TrackEntry);
      r := LoadEntry(sel, doc[i]);
      if r.Fatal? {
        FoldFatalStays(old(sel.Cuts()), doc, i + 1, TrackEntry);
        return r;
      }
      i := i + 1;
    }
    assert doc[..i] == doc;
    return Ok(());
  }

  /** The minimum hit count as one whole number. */
  function CountPart(key: string, f: CountFloor): (sec: Section)
    ensures |sec| == (if f.active then 1 else 0)
  {
    if f.active then [Entry(key, Value(Count(f.min)))] else []
  }

  /**
   * The section readConfig writes: each active threshold in a fixed order,
   * then the maximum-pT escalation flag, which is always written.
   */
  function TrackDocument(c: TrackCuts): Section
  {
    LimitPart(MaxDcaKey, c.dca) + CountPart(NHitsMinKey, c.nHits) + FloorPart(NHitsFracMinKey, c.nHitsFrac) +
    FloorPart(PtMinKey, c.ptMin) + LimitPart(PtMaxKey, c.ptMax) + LimitPart(Chi2MaxKey, c.chi2) +
    FlagPart(RejectEventKey, c.rejectEventOnPtFailure)
  }

  /** readConfig: each active cut assigned its key in turn, then the flag. */
  method ReadConfig(sel: TrackSelector) returns (doc: Section)
    ensures doc == TrackDocument(sel.Cuts())
  {
    doc := [];
    if sel.dca.active {
      doc := doc + [Entry(MaxDcaKey, Value(Real(sel.dca.max)))];
    }
    assert doc == LimitPart(MaxDcaKey, sel.dca);
    var before := doc;
    if sel.nHits.active {
      doc := doc + [Entry(NHitsMinKey, Value(Count(sel.nHits.min)))];
    }
    assert doc == before + CountPart(NHitsMinKey, sel.nHits);
    before := doc;
    if sel.nHitsFrac.active {
      doc := doc + [Entry(NHitsFracMinKey, Value(Real(sel.nHitsFrac.min)))];
    }
    assert doc == before + FloorPart(NHitsFracMinKey, sel.nHitsFrac);
    before := doc;
    if sel.ptMin.active {
      doc := doc + [Entry(PtMinKey, Value(Real(sel.ptMin.min)))];
    }
    assert doc == before + FloorPart(PtMinKey, sel.ptMin);
    before := doc;
    if sel.ptMax.active {
      doc := doc + [Entry(PtMaxKey, Value(Real(sel.ptMax.max)))];
    }
    assert doc == before + LimitPart(PtMaxKey, sel.ptMax);
    before := doc;
    if sel.chi2.active {
      doc := doc + [Entry(Chi2MaxKey, Value(Real(sel.chi2.max)))];
    }
    assert doc == before + LimitPart(Chi2MaxKey, sel.chi2);
    doc := doc + [Entry(RejectEventKey, Value(Flag(sel.rejectEventOnPtFailure)))];
  }

  /** Looking a key up in the written section: the first part that names it. */
  lemma LookupInDocument(c: TrackCuts, key: string)
    ensures Lookup(TrackDocument(c), key) ==
      var p1, p2, p3 := LimitPart(MaxDcaKey, c.dca), CountPart(NHitsMinKey, c.nHits), FloorPart(NHitsFracMinKey, c.nHitsFrac);
      var p4, p5, p6 := FloorPart(PtMinKey, c.ptMin), LimitPart(PtMaxKey, c.ptMax), LimitPart(Chi2MaxKey, c.chi2);
      var p7 := FlagPart(RejectEventKey, c.rejectEventOnPtFailure);
      if Lookup(p1, key).Some? then Lookup(p1, key)
      else if Lookup(p2, key).Some? then Lookup(p2, key)
      else if Lookup(p3, key).Some? then Lookup(p3, key)
      else if Lookup(p4, key).Some? then Lookup(p4, key)
      else if Lookup(p5, key).Some? then Lookup(p5, key)
      else if Lookup(p6, key).Some? then Lookup(p6, key)
      else Lookup(p7, key)
  {
    var p1, p2, p3 := LimitPart(MaxDcaKey, c.dca), CountPart(NHitsMinKey, c.nHits), FloorPart(NHitsFracMinKey, c.nHitsFrac);
    var p4, p5, p6 := FloorPart(PtMinKey, c.ptMin), LimitPart(PtMaxKey, c.ptMax), LimitPart(Chi2MaxKey, c.chi2);
    var p7 := FlagPart(RejectEventKey, c.rejectEventOnPtFailure);
    LookupAppend(p1, p2, key);
    LookupAppend(p1 + p2, p3, key);
    LookupAppend(p1 + p2 + p3, p4, key);
    LookupAppend(p1 + p2 + p3 + p4, p5, key);
    LookupAppend(p1 + p2 + p3 + p4 + p5, p6, key);
    LookupAppend(p1 + p2 + p3 + p4 + p5 + p6, p7, key);
  }

  /** Whether the cut a known key sets is on; the flag always counts as set. */
  function IsSet(c: TrackCuts, key: string): bool
  {
    if key == MaxDcaKey then c.dca.active
    else if key == NHitsMinKey then c.nHits.active
    else if key == NHitsFracMinKey then c.nHitsFrac.active
    else if key == PtMinKey then c.ptMin.active
    else if key == PtMaxKey then c.ptMax.active
    else if key == Chi2MaxKey then c.chi2.active
    else key == RejectEventKey
  }

  /** The written section names a key exactly when the cut it sets is on, and always names the flag. */
  lemma WrittenKeys(c: TrackCuts, key: string)
    ensures Lookup(TrackDocument(c), key).Some? <==> IsSet(c, key)
  {
    LookupInDocument(c, key);
  }

  // Loading what was written.

  /** Each part of a written section, loaded into a state where that cut is still off. */
  lemma LoadThresholds(x: TrackCuts, c: TrackCuts)
    requires Valid(c)
    requires x.dca == x.chi2 == x.ptMax == NoLimit && x.nHits == NoCount && x.nHitsFrac == x.ptMin == NoFloor
    ensures Fold(x, LimitPart(MaxDcaKey, c.dca) + CountPart(NHitsMinKey, c.nHits) + FloorPart(NHitsFracMinKey, c.nHitsFrac), TrackEntry) ==
      Ok(x.(dca := c.dca, nHits := c.nHits, nHitsFrac := c.nHitsFrac))
  {
    var p1, p2, p3 := LimitPart(MaxDcaKey, c.dca), CountPart(NHitsMinKey, c.nHits), FloorPart(NHitsFracMinKey, c.nHitsFrac);
    var x1 := x.(dca := c.dca);
    var x2 := x1.(nHits := c.nHits);
    if c.dca.active {
      FoldSingle(x, p1[0], TrackEntry);
      assert TrackEntry(x, p1[0]) == Ok(WithDcaMax(x, c.dca.max));
    }
    if c.nHits.active {
      FoldSingle(x1, p2[0], TrackEntry);
      assert TrackEntry(x1, p2[0]) == Ok(WithNHitsMin(x1, c.nHits.min));
    }
    FoldAppend(x, p1, p2, TrackEntry);
    if c.nHitsFrac.active {
      FoldSingle(x2, p3[0], TrackEntry);
      assert TrackEntry(x2, p3[0]) == Ok(WithNHitsFracMin(x2, c.nHitsFrac.min));
    }
    FoldAppend(x, p1 + p2, p3, TrackEntry);
  }

  lemma LoadMomentum(x: TrackCuts, c: TrackCuts)
    requires Valid(c)
    requires x.ptMax == NoLimit && x.ptMin == NoFloor
    ensures Fold(x, FloorPart(PtMinKey, c.ptMin) + LimitPart(PtMaxKey, c.ptMax), TrackEntry) ==
      Ok(x.(ptMin := c.ptMin, ptMax := c.ptMax))
  {
    var p1, p2 := FloorPart(PtMinKey, c.ptMin), LimitPart(PtMaxKey, c.ptMax);
    if c.ptMin.active {
      FoldSingle(x, p1[0], TrackEntry);
      assert TrackEntry(x, p1[0]) == Ok(WithPtMin(x, c.ptMin.min));
    }
    var x1 := x.(ptMin := c.ptMin);
    if c.ptMax.active {
      FoldSingle(x1, p2[0], TrackEntry);
      assert TrackEntry(x1, p2[0]) == Ok(WithPtMax(x1, c.ptMax.max));
    }
    FoldAppend(x, p1, p2, TrackEntry);
  }

  lemma LoadFitAndFlag(x: TrackCuts, c: TrackCuts)
    requires Valid(c)
    requires x.chi2 == NoLimit
    ensures Fold(x, LimitPart(Chi2MaxKey, c.chi2) + FlagPart(RejectEventKey, c.rejectEventOnPtFailure), TrackEntry) ==
      Ok(x.(chi2 := c.chi2, rejectEventOnPtFailure := c.rejectEventOnPtFailure))
  {
    var p1, p2 := LimitPart(Chi2MaxKey, c.chi2), FlagPart(RejectEventKey, c.rejectEventOnPtFailure);
    if c.chi2.active {
      FoldSingle(x, p1[0], TrackEntry);
      assert TrackEntry(x, p1[0]) == Ok(WithChi2Max(x, c.chi2.max));
    }
    var x1 := x.(chi2 := c.chi2);
    FoldSingle(x1, p2[0], TrackEntry);
    assert TrackEntry(x1, p2[0]) == Ok(WithRejectEventOnPtFailure(x1, c.rejectEventOnPtFailure));
    FoldAppend(x, p1, p2, TrackEntry);
  }

  /** Loading the section written for valid cuts into a cleared selector gives those cuts back. */
  lemma WrittenSectionReloads(c: TrackCuts)
    requires Valid(c)
    ensures Load(Cleared, TrackDocument(c)) == Ok(c)
  {
    var a := LimitPart(MaxDcaKey, c.dca) + CountPart(NHitsMinKey, c.nHits) + FloorPart(NHitsFracMinKey, c.nHitsFrac);
    var b := FloorPart(PtMinKey, c.ptMin) + LimitPart(PtMaxKey, c.ptMax);
    var d := LimitPart(Chi2MaxKey, c.chi2) + FlagPart(RejectEventKey, c.rejectEventOnPtFailure);
    assert TrackDocument(c) == a + b + d;
    var x1 := Cleared.(dca := c.dca, nHits := c.nHits, nHitsFrac := c.nHitsFrac);
    var x2 := x1.(ptMin := c.ptMin, ptMax := c.ptMax);
    LoadThresholds(Cleared, c);
    LoadMomentum(x1, c);
    FoldAppend(Cleared, a, b, TrackEntry);
    LoadFitAndFlag(x2, c);
    FoldAppend(Cleared, a + b, d, TrackEntry);
  }

  /** Loading keeps the cuts valid. */
  lemma LoadKeepsValid(c: TrackCuts, doc: Section)
    requires Valid(c) && Load(c, doc).Ok?
    ensures Valid(Load(c, doc).value)
  {
    FoldKeeps(c, doc, TrackEntry, Valid);
  }

  /** What a fresh selector loads, readConfig writes out so that it loads back as the same cuts. */
  lemma LoadedSelectorReloads(c: TrackCuts, doc: Section)
    requires Load(Cleared, doc) == Ok(c)
    ensures Load(Cleared, TrackDocument(c)) == Ok(c)
  {
    assert Valid(Cleared);
    LoadKeepsValid(Cleared, doc);
    WrittenSectionReloads(c);
  }
}
