/**
 * TrackSelector (reader/track_selector.cc): per-track quality cuts. A track
 * failing the quality cuts is dropped; one failing only the maximum-pT cut
 * either drops the whole event or only the track, as a flag says.
 */
module TrackSelection {
  import opened Records
  import opened CutTypes

  datatype TrackStatus = AcceptTrack | RejectTrack | RejectEvent

  /** A lower bound on a hit count (count > min). */
  datatype CountFloor = CountFloor(active: bool, min: nat)

  const NoCount := CountFloor(false, 0)

  /** The selector's fields as one value. */
  datatype TrackCuts = TrackCuts(
    dca: Limit, nHits: CountFloor, nHitsFrac: Floor, chi2: Limit,
    ptMax: Limit, ptMin: Floor, rejectEventOnPtFailure: bool)

  /** The state `clear` leaves: every cut off and zeroed, a maximum-pT failure rejecting the event. */
  const Cleared := TrackCuts(NoLimit, NoCount, NoFloor, NoLimit, NoLimit, NoFloor, true)

  /** The state the setters keep: active bounds positive (the hit fraction at most one), inactive cuts zeroed. */
  predicate Valid(c: TrackCuts)
  {
    LimitValid(c.dca) && (c.nHits.active || c.nHits == NoCount) &&
    (if c.nHitsFrac.active then 0.0 < c.nHitsFrac.min <= 1.0 else c.nHitsFrac == NoFloor) &&
    LimitValid(c.chi2) && LimitValid(c.ptMax) && FloorValid(c.ptMin)
  }

  /** Transverse momentum of the primary or of the global track, as the reader asks. */
  function Pt(t: TrackRecord, primary: bool): real
  {
    if primary then t.pPt else t.gPt
  }

  predicate CheckDca(c: TrackCuts, t: TrackRecord) { t.dca < c.dca.max }

  predicate CheckNHits(c: TrackCuts, t: TrackRecord) { t.nHitsFit > c.nHits.min }

  /**
   * Fit points over possible points, in floating point: with no possible
   * points the quotient is +infinity (passes) when some points were fit and
   * NaN (fails) when none were.
   */
  predicate CheckNHitsFrac(c: TrackCuts, t: TrackRecord)
  {
    if t.nHitsPoss == 0 then t.nHitsFit > 0
    else (t.nHitsFit as real) / (t.nHitsPoss as real) > c.nHitsFrac.min
  }

  predicate CheckChi2(c: TrackCuts, t: TrackRecord) { t.chi2 < c.chi2.max }

  predicate CheckPtMax(c: TrackCuts, t: TrackRecord, primary: bool) { Pt(t, primary) < c.ptMax.max }

  predicate CheckPtMin(c: TrackCuts, t: TrackRecord, primary: bool) { Pt(t, primary) > c.ptMin.min }

  /** Every active quality cut other than the maximum-pT cut. */
  predicate PassesQualityCuts(c: TrackCuts, t: TrackRecord, primary: bool)
  {
    (c.dca.active ==> CheckDca(c, t)) &&
    (c.nHits.active ==> CheckNHits(c, t)) &&
    (c.nHitsFrac.active ==> CheckNHitsFrac(c, t)) &&
    (c.chi2.active ==> CheckChi2(c, t)) &&
    (c.ptMin.active ==> CheckPtMin(c, t, primary))
  }

  /** The selector's verdict on one track, read as primary or as global. */
  function Select(c: TrackCuts, t: TrackRecord, primary: bool): (s: TrackStatus)
    ensures s == AcceptTrack <==>
      (!primary || t.isPrimary) && PassesQualityCuts(c, t, primary) && (c.ptMax.active ==> CheckPtMax(c, t, primary))
    ensures s == RejectEvent ==> c.rejectEventOnPtFailure && c.ptMax.active && !CheckPtMax(c, t, primary)
  {
    if primary && !t.isPrimary then RejectTrack
    else if !PassesQualityCuts(c, t, primary) then RejectTrack
    else if c.ptMax.active && !CheckPtMax(c, t, primary) then
      (if c.rejectEventOnPtFailure then RejectEvent else RejectTrack)
    else AcceptTrack
  }

  function WithDcaMax(c: TrackCuts, max: real): (r: TrackCuts)
    requires max > 0.0
    ensures Valid(c) ==> Valid(r)
  {
    c.(dca := Limit(true, max))
  }

  function WithNHitsMin(c: TrackCuts, min: nat): (r: TrackCuts)
    ensures Valid(c) ==> Valid(r)
  {
    c.(nHits := CountFloor(true, min))
  }

  function WithNHitsFracMin(c: TrackCuts, min: real): (r: TrackCuts)
    requires 0.0 < min <= 1.0
    ensures Valid(c) ==> Valid(r)
  {
    c.(nHitsFrac := Floor(true, min))
  }

  function WithChi2Max(c: TrackCuts, max: real): (r: TrackCuts)
    requires max > 0.0
    ensures Valid(c) ==> Valid(r)
  {
    c.(chi2 := Limit(true, max))
  }

  function WithPtMax(c: TrackCuts, max: real): (r: TrackCuts)
    requires max > 0.0
    ensures Valid(c) ==> Valid(r)
  {
    c.(ptMax := Limit(true, max))
  }

  function WithPtMin(c: TrackCuts, min: real): (r: TrackCuts)
    requires min > 0.0
    ensures Valid(c) ==> Valid(r)
  {
    c.(ptMin := Floor(true, min))
  }

  function WithRejectEventOnPtFailure(c: TrackCuts, flag: bool): (r: TrackCuts)
    ensures Valid(c) ==> Valid(r)
  {
    c.(rejectEventOnPtFailure := flag)
  }

  /** The track selector, its cuts held as fields the setters overwrite. */
  class TrackSelector {
    var dca: Limit
    var nHits: CountFloor
    var nHitsFrac: Floor
    var chi2: Limit
    var ptMax: Limit
    var ptMin: Floor
    var rejectEventOnPtFailure: bool

    function Cuts(): TrackCuts
      reads this
    {
      TrackCuts(dca, nHits, nHitsFrac, chi2, ptMax, ptMin, rejectEventOnPtFailure)
    }

    constructor()
      ensures Cuts() == Cleared
    {
      new;
      Clear();
    }

    method SetDcaMax(max: real)
      requires max > 0.0
      modifies this
      ensures Cuts() == WithDcaMax(old(Cuts()), max)
    {
      dca := Limit(true, max);
    }

    method SetNHitsMin(min: nat)
      modifies this
      ensures Cuts() == WithNHitsMin(old(Cuts()), min)
    {
      nHits := CountFloor(true, min);
    }

    method SetNHitsFracMin(min: real)
      requires 0.0 < min <= 1.0
      modifies this
      ensures Cuts() == WithNHitsFracMin(old(Cuts()), min)
    {
      nHitsFrac := Floor(true, min);
    }

    method SetChi2Max(max: real)
      requires max > 0.0
      modifies this
      ensures Cuts() == WithChi2Max(old(Cuts()), max)
    {
      chi2 := Limit(true, max);
    }

    method SetPtMax(max: real)
      requires max > 0.0
      modifies this
      ensures Cuts() == WithPtMax(old(Cuts()), max)
    {
      ptMax := Limit(true, max);
    }

    method SetPtMin(min: real)
      requires min > 0.0
      modifies this
      ensures Cuts() == WithPtMin(old(Cuts()), min)
    {
      ptMin := Floor(true, min);
    }

    method RejectEventOnPtFailure(flag: bool)
      modifies this
      ensures Cuts() == WithRejectEventOnPtFailure(old(Cuts()), flag)
    {
      rejectEventOnPtFailure := flag;
    }

    method Clear()
      modifies this
      ensures Cuts() == Cleared
    {
      dca, nHits, nHitsFrac, chi2, ptMax, ptMin := NoLimit, NoCount, NoFloor, NoLimit, NoLimit, NoFloor;
      rejectEventOnPtFailure := true;
    }
  }

  /** A cleared selector keeps every track, except a global-only track when primaries are asked for. */
  lemma ClearedKeepsEveryTrack(t: TrackRecord, primary: bool)
    ensures Valid(Cleared)
    ensures Select(Cleared, t, primary) == if primary && !t.isPrimary then RejectTrack else AcceptTrack
  {
  }

  /** The verdict spelled out on the track's own quantities: every active cut, with strict bounds. */
  lemma SelectOnQuantities(c: TrackCuts, t: TrackRecord, primary: bool)
    ensures Select(c, t, primary) == AcceptTrack <==>
      (primary ==> t.isPrimary) &&
      (c.dca.active ==> t.dca < c.dca.max) &&
      (c.nHits.active ==> t.nHitsFit > c.nHits.min) &&
      (c.nHitsFrac.active ==> (t.nHitsPoss == 0 && t.nHitsFit > 0) ||
                              (t.nHitsPoss > 0 && t.nHitsFit as real > c.nHitsFrac.min * t.nHitsPoss as real)) &&
      (c.chi2.active ==> t.chi2 < c.chi2.max) &&
      (c.ptMin.active ==> c.ptMin.min < Pt(t, primary)) &&
      (c.ptMax.active ==> Pt(t, primary) < c.ptMax.max)
  {
    if c.nHitsFrac.active && t.nHitsPoss > 0 {
      FractionAbove(t.nHitsFit as real, t.nHitsPoss as real, c.nHitsFrac.min);
    }
  }

  /** a / b > m exactly when a > m * b, for a positive b. */
  lemma FractionAbove(a: real, b: real, m: real)
    requires b > 0.0
    ensures a / b > m <==> a > m * b
  {
    assert a == (a / b) * b;
    if a / b > m {
      assert (a / b) * b > m * b;
    } else {
      assert (a / b) * b <= m * b;
    }
  }

  /** Only the maximum-pT cut can reject the event, and only while the flag is set. */
  lemma OnlyPtMaxRejectsEvent(c: TrackCuts, t: TrackRecord, primary: bool)
    ensures Select(c, t, primary) == RejectEvent <==>
      c.rejectEventOnPtFailure && c.ptMax.active && Pt(t, primary) >= c.ptMax.max &&
      Select(c.(ptMax := NoLimit), t, primary) == AcceptTrack
  {
  }

  /** The flag decides between dropping the track and dropping the event, never whether the track is kept. */
  lemma FlagKeepsAcceptance(c: TrackCuts, t: TrackRecord, primary: bool, flag: bool)
    ensures (Select(WithRejectEventOnPtFailure(c, flag), t, primary) == AcceptTrack) ==
            (Select(c, t, primary) == AcceptTrack)
    ensures !flag ==> Select(WithRejectEventOnPtFailure(c, flag), t, primary) != RejectEvent
  {
  }

  /** In primary mode a track without a primary fit is rejected whatever the cuts. */
  lemma GlobalOnlyTrackRejectedInPrimaryMode(c: TrackCuts, t: TrackRecord)
    requires !t.isPrimary
    ensures Select(c, t, true) == RejectTrack
  {
  }

  /** Raising the minimum pT keeps no track the lower minimum dropped. */
  lemma HigherPtMinKeepsFewer(c: TrackCuts, t: TrackRecord, primary: bool, lo: real, hi: real)
    requires 0.0 < lo <= hi
    ensures Select(WithPtMin(c, hi), t, primary) == AcceptTrack ==>
            Select(WithPtMin(c, lo), t, primary) == AcceptTrack
  {
  }
}
