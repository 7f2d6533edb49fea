/**
 * VectorInfo (reader/vector_info.cc, vector_info.h): the provenance tag the
 * reader attaches to each four-vector, saying whether it came from a TPC
 * track (primary or global), a calorimeter tower or a simulated particle,
 * with the detector quantities of that origin. The fields are grouped as
 * the header groups them: the global flags, the track part, the tower part
 * and the particle part.
 */
module VectorInformation {
  import opened Records

  /** The origin flags. */
  datatype Tag = Tag(tpcTrack: bool, bemcTower: bool, primary: bool, particle: bool)

  datatype TrackPart = TrackPart(trackId: nat, dca: real, nHits: nat, nHitsPoss: nat, matchedTower: int)

  datatype TowerPart = TowerPart(towerId: nat, adc: nat, rawEta: real, rawEnergy: real, matchedTracks: seq<nat>)

  datatype ParticlePart = ParticlePart(geantId: nat, startVtx: nat, stopVtx: nat)

  /** Every field of a VectorInfo. */
  datatype Info = Info(tag: Tag, charge: int, track: TrackPart, tower: TowerPart, particle: ParticlePart)

  const NoTag := Tag(false, false, false, false)
  const NoTrack := TrackPart(0, 0.0, 0, 0, 0)
  const NoTower := TowerPart(0, 0, 0.0, 0.0, [])
  const NoParticle := ParticlePart(0, 0, 0)

  /** What `clear` leaves: every flag false, every number zero, no matched tracks. */
  const Blank := Info(NoTag, 0, NoTrack, NoTower, NoParticle)

  predicate IsPrimary(i: Info) { i.tag.tpcTrack && i.tag.primary }

  predicate IsGlobal(i: Info) { i.tag.tpcTrack && !i.tag.primary }

  predicate IsBemcTower(i: Info) { i.tag.bemcTower }

  /** At most one origin is claimed. */
  predicate AtMostOneKind(i: Info)
  {
    !(i.tag.tpcTrack && i.tag.bemcTower) && !(i.tag.tpcTrack && i.tag.particle) &&
    !(i.tag.bemcTower && i.tag.particle)
  }

  /** The tag of a simulated particle; its vertex ids come from the particle record. */
  function ForParticle(mc: McTrack): (r: Info)
    ensures AtMostOneKind(r) && r.tag.particle && !IsPrimary(r) && !IsGlobal(r) && !IsBemcTower(r)
    ensures r.track == NoTrack && r.tower == NoTower
  {
    Blank.(tag := NoTag.(particle := true), charge := mc.charge,
           particle := ParticlePart(mc.geantId, mc.idVtxStart, mc.idVtxStop))
  }

  /** The tag of a TPC track read as primary or as global. */
  function ForTrack(t: TrackRecord, primary: bool := true): (r: Info)
    ensures AtMostOneKind(r) && IsPrimary(r) == primary && IsGlobal(r) == !primary && !IsBemcTower(r)
    ensures r.tower == NoTower && r.particle == NoParticle
  {
    Blank.(tag := NoTag.(tpcTrack := true, primary := primary), charge := t.charge,
           track := TrackPart(t.id, t.dca, t.nHitsFit, t.nHitsPoss, t.bemcTowerIndex))
  }

  /** The tag of a calorimeter tower, with the tracks matched to it; a tower carries no charge. */
  function ForTower(hit: TowerHit, id: nat, rawEta: real, matchedTracks: seq<nat>): (r: Info)
    ensures AtMostOneKind(r) && IsBemcTower(r) && !IsPrimary(r) && !IsGlobal(r) && r.charge == 0
    ensures r.track == NoTrack && r.particle == NoParticle
  {
    Blank.(tag := NoTag.(bemcTower := true),
           tower := TowerPart(id, hit.adc, rawEta, hit.energy, matchedTracks))
  }

  class VectorInfo {
    var tag: Tag
    var charge: int
    var track: TrackPart
    var tower: TowerPart
    var particle: ParticlePart

    function State(): Info
      reads this
    {
      Info(tag, charge, track, tower, particle)
    }

    /** The particle constructor; its vertex arguments are not used. */
    constructor Particle(mc: McTrack, startVtx: int, stopVtx: int)
      ensures State() == ForParticle(mc)
    {
      new;
      SetParticle(mc, startVtx, stopVtx);
    }

    constructor Track(t: TrackRecord, primary: bool := true)
      ensures State() == ForTrack(t, primary)
    {
      new;
      SetTrack(t, primary);
    }

    constructor Tower(hit: TowerHit, id: nat, rawEta: real, matchedTracks: seq<nat>)
      ensures State() == ForTower(hit, id, rawEta, matchedTracks)
    {
      new;
      SetTower(hit, id, rawEta, matchedTracks);
    }

    /** Clears, then records a simulated particle; the vertex ids are the particle's own, not the arguments. */
    method SetParticle(mc: McTrack, startVtx: int, stopVtx: int)
      modifies this
      ensures State() == ForParticle(mc)
    {
      Clear();
      tag := tag.(particle := true);
      particle := particle.(geantId := mc.geantId);
      charge := mc.charge;
      particle := particle.(startVtx := mc.idVtxStart);
      particle := particle.(stopVtx := mc.idVtxStop);
    }

    /** Clears, then records a TPC track and whether it is read as primary. */
    method SetTrack(t: TrackRecord, primary: bool := true)
      modifies this
      ensures State() == ForTrack(t, primary)
    {
      Clear();
      tag := tag.(tpcTrack := true);
      tag := tag.(primary := primary);
      track := track.(trackId := t.id);
      track := track.(dca := t.dca);
      track := track.(nHits := t.nHitsFit);
      track := track.(nHitsPoss := t.nHitsPoss);
      track := track.(matchedTower := t.bemcTowerIndex);
      charge := t.charge;
    }

    /** Clears, then records a calorimeter tower and a copy of its matched-track list. */
    method SetTower(hit: TowerHit, id: nat, rawEta: real, matchedTracks: seq<nat>)
      modifies this
      ensures State() == ForTower(hit, id, rawEta, matchedTracks)
    {
      Clear();
      tag := tag.(bemcTower := true);
      tower := tower.(towerId := id);
      tower := tower.(adc := hit.adc);
      tower := tower.(rawEta := rawEta);
      tower := tower.(rawEnergy := hit.energy);
      charge := 0;
      tower := tower.(matchedTracks := matchedTracks);
    }

    method Clear()
      modifies this
      ensures State() == Blank
    {
      tag := NoTag;
      charge := 0;
      track := NoTrack;
      tower := NoTower;
      particle := NoParticle;
    }
  }

  /** A track-tagged info is primary or global, never both, and never a tower. */
  lemma PrimaryAndGlobalExclusive(i: Info)
    ensures !(IsPrimary(i) && IsGlobal(i))
    ensures i.tag.tpcTrack <==> IsPrimary(i) || IsGlobal(i)
  {
  }

  /** Each setter records the quantities of its own origin, read back through the accessors. */
  lemma SettersRecordTheirOrigin(t: TrackRecord, primary: bool, hit: TowerHit, id: nat, rawEta: real,
                                 matched: seq<nat>, mc: McTrack)
    ensures var i := ForTrack(t, primary);
      i.track.trackId == t.id && i.track.nHits == t.nHitsFit && i.track.nHitsPoss == t.nHitsPoss &&
      i.track.matchedTower == t.bemcTowerIndex && i.charge == t.charge
    ensures var i := ForTower(hit, id, rawEta, matched);
      i.tower.towerId == id && i.tower.adc == hit.adc && i.tower.rawEta == rawEta &&
      i.tower.rawEnergy == hit.energy && i.tower.matchedTracks == matched
    ensures var i := ForParticle(mc);
      i.particle.startVtx == mc.idVtxStart && i.particle.stopVtx == mc.idVtxStop && i.charge == mc.charge
  {
  }

  /** The three origins never produce the same tag, whatever their arguments. */
  lemma OriginsAreDistinct(t: TrackRecord, primary: bool, hit: TowerHit, id: nat, rawEta: real,
                           matched: seq<nat>, mc: McTrack)
    ensures ForTrack(t, primary) != ForTower(hit, id, rawEta, matched)
    ensures ForTrack(t, primary) != ForParticle(mc)
    ensures ForTower(hit, id, rawEta, matched) != ForParticle(mc)
  {
  }
}
