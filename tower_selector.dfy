/**
 * TowerSelector (reader/tower_selector.cc): per-tower cuts. A masked tower
 * or one below the minimum transverse energy is dropped; one above the
 * maximum drops the whole event or only the tower, as a flag says.
 */
module TowerSelection {
  import opened Wrappers
  import opened Records
  import opened CutTypes
  import Csv

  datatype TowerStatus = AcceptTower | RejectTower | RejectEvent

  /** The selector's fields as one value. */
  datatype TowerCuts = TowerCuts(
    badTowers: IdCut, badTowerFiles: set<string>,
    etMax: Limit, etMin: Floor, rejectEventOnEtFailure: bool)

  /** The state `clear` leaves: no masked towers or files, both energy cuts off, an E_T failure rejecting the event. */
  const Cleared := TowerCuts(NoIds, {}, NoLimit, NoFloor, true)

  predicate Valid(c: TowerCuts)
  {
    IdCutValid(c.badTowers) && LimitValid(c.etMax) && FloorValid(c.etMin)
  }

  /** Transverse energy of a tower: its energy over cosh of its pseudorapidity. */
  function Et(energy: real, coshEta: CoshValue): real
  {
    energy / coshEta
  }

  predicate CheckBadTowers(c: TowerCuts, id: nat) { id !in c.badTowers.ids }

  predicate CheckEtMax(c: TowerCuts, energy: real, coshEta: CoshValue) { Et(energy, coshEta) < c.etMax.max }

  predicate CheckEtMin(c: TowerCuts, energy: real, coshEta: CoshValue) { Et(energy, coshEta) > c.etMin.min }

  /** The selector's verdict on one tower of the given id, energy and cosh of pseudorapidity. */
  function Select(c: TowerCuts, id: nat, energy: real, coshEta: CoshValue): (s: TowerStatus)
    ensures s == AcceptTower <==>
      (c.badTowers.active ==> CheckBadTowers(c, id)) && (c.etMin.active ==> CheckEtMin(c, energy, coshEta)) &&
      (c.etMax.active ==> CheckEtMax(c, energy, coshEta))
    ensures s == RejectEvent ==> c.rejectEventOnEtFailure && c.etMax.active && !CheckEtMax(c, energy, coshEta)
  {
    if (c.badTowers.active && !CheckBadTowers(c, id)) ||
       (c.etMin.active && !CheckEtMin(c, energy, coshEta)) then RejectTower
    else if c.etMax.active && !CheckEtMax(c, energy, coshEta) then
      (if c.rejectEventOnEtFailure then RejectEvent else RejectTower)
    else AcceptTower
  }

  function WithBadTower(c: TowerCuts, id: nat): (r: TowerCuts)
    ensures Valid(c) ==> Valid(r)
  {
    c.(badTowers := IdCut(true, c.badTowers.ids + {id}))
  }

  function WithBadTowers(c: TowerCuts, ids: set<nat>): (r: TowerCuts)
    ensures Valid(c) ==> Valid(r)
  {
    var all := c.badTowers.ids + ids;
    c.(badTowers := IdCut(c.badTowers.active || all != {}, all))
  }

  function WithBadTowerFile(c: TowerCuts, file: string, rows: seq<seq<nat>>): (r: TowerCuts)
    ensures Valid(c) ==> Valid(r)
  {
    WithBadTowers(c, Csv.Values(rows)).(badTowerFiles := c.badTowerFiles + {file})
  }

  function WithEtMax(c: TowerCuts, max: real): (r: TowerCuts)
    requires max > 0.0
    ensures Valid(c) ==> Valid(r)
  {
    c.(etMax := Limit(true, max))
  }

  function WithEtMin(c: TowerCuts, min: real): (r: TowerCuts)
    requires min > 0.0
    ensures Valid(c) ==> Valid(r)
  {
    c.(etMin := Floor(true, min))
  }

  function WithRejectEventOnEtFailure(c: TowerCuts, flag: bool): (r: TowerCuts)
    ensures Valid(c) ==> Valid(r)
  {
    c.(rejectEventOnEtFailure := flag)
  }

  /** The tower selector, its cuts held as fields the setters overwrite. */
  class TowerSelector {
    var badTowers: IdCut
    var badTowerFiles: set<string>
    var etMax: Limit
    var etMin: Floor
    var rejectEventOnEtFailure: bool

    function Cuts(): TowerCuts
      reads this
    {
      TowerCuts(badTowers, badTowerFiles, etMax, etMin, rejectEventOnEtFailure)
    }

    constructor()
      ensures Cuts() == Cleared
    {
      new;
      Clear();
    }

    method AddBadTower(id: nat)
      modifies this
      ensures Cuts() == WithBadTower(old(Cuts()), id)
    {
      badTowers := IdCut(true, badTowers.ids + {id});
    }

    method AddBadTowers(ids: seq<nat>)
      modifies this
      ensures Cuts() == WithBadTowers(old(Cuts()), set id | id in ids)
    {
      var i := 0;
      while i < |ids|
        invariant 0 <= i <= |ids|
        invariant Cuts() == old(Cuts()).(badTowers := badTowers)
        invariant badTowers.active == old(badTowers.active)
        invariant badTowers.ids == old(badTowers.ids) + set id | id in ids[..i]
      {
        assert ids[..i + 1] == ids[..i] + [ids[i]];
        badTowers := badTowers.(ids := badTowers.ids + {ids[i]});
        i := i + 1;
      }
      assert ids[..|ids|] == ids;
      if badTowers.ids != {} {
        badTowers := badTowers.(active := true);
      }
    }

    /** Masks the towers of one row of a bad-tower file. */
    method InsertTowerRow(line: seq<nat>)
      modifies this
      ensures Cuts() == old(Cuts()).(badTowers := old(badTowers).(ids := old(badTowers.ids) + set x | x in line))
    {
      var j := 0;
      while j < |line|
        invariant 0 <= j <= |line|
        invariant Cuts() == old(Cuts()).(badTowers := badTowers)
        invariant badTowers == old(badTowers).(ids := old(badTowers.ids) + set x | x in line[..j])
      {
        assert line[..j + 1] == line[..j] + [line[j]];
        badTowers := badTowers.(ids := badTowers.ids + {line[j]});
        j := j + 1;
      }
      assert line[..j] == line;
    }

    /** Reads a bad-tower file from `fs` (path to lines) and masks every number in it. */
    method AddBadTowerFile(file: string, fs: map<string, seq<string>>) returns (r: Result<()>)
      requires file in fs ==> Csv.Parsable(fs[file])
      modifies this
      ensures file !in fs ==> r.Fatal? && Cuts() == old(Cuts())
      ensures file in fs ==> r.Ok? && Cuts() == WithBadTowerFile(old(Cuts()), file, Csv.Rows(fs[file]))
    {
      var parsed := Csv.ParseCsv(if file in fs then Some(fs[file]) else None);
      if parsed.Fatal? {
        return Fatal(parsed.reason);
      }
      var rows := parsed.value;
      var i := 0;
      while i < |rows|
        invariant 0 <= i <= |rows|
        invariant Cuts() == old(Cuts()).(badTowers := badTowers)
        invariant badTowers.active == old(badTowers.active)
        invariant badTowers.ids == old(badTowers.ids) + Csv.Values(rows[..i])
      {
        InsertTowerRow(rows[i]);
        assert rows[..i + 1][..i] == rows[..i];
        i := i + 1;
      }
      assert rows[..|rows|] == rows;
      if badTowers.ids != {} {
        badTowers := badTowers.(active := true);
      }
      badTowerFiles := badTowerFiles + {file};
      return Ok(());
    }

    method SetEtMax(max: real)
      requires max > 0.0
      modifies this
      ensures Cuts() == WithEtMax(old(Cuts()), max)
    {
      etMax := Limit(true, max);
    }

    method RejectEventOnEtFailure(flag: bool)
      modifies this
      ensures Cuts() == WithRejectEventOnEtFailure(old(Cuts()), flag)
    {
      rejectEventOnEtFailure := flag;
    }

    method SetEtMin(min: real)
      requires min > 0.0
      modifies this
      ensures Cuts() == WithEtMin(old(Cuts()), min)
    {
      etMin := Floor(true, min);
    }

    method Clear()
      modifies this
      ensures Cuts() == Cleared
    {
      badTowers, badTowerFiles := NoIds, {};
      etMax, etMin := NoLimit, NoFloor;
      rejectEventOnEtFailure := true;
    }
  }

  /** A cleared selector keeps every tower. */
  lemma ClearedKeepsEveryTower(id: nat, energy: real, coshEta: CoshValue)
    ensures Valid(Cleared)
    ensures Select(Cleared, id, energy, coshEta) == AcceptTower
  {
  }

  /** A masked tower is dropped whatever its energy; masking never drops the event. */
  lemma MaskedTowerRejected(c: TowerCuts, id: nat, energy: real, coshEta: CoshValue)
    requires Valid(c) && id in c.badTowers.ids
    ensures Select(c, id, energy, coshEta) == RejectTower
  {
  }

  /**
   * The verdict spelled out on the tower's quantities; the E_T bounds compare
   * against the energy scaled by cosh, with no division.
   */
  lemma SelectOnQuantities(c: TowerCuts, id: nat, energy: real, coshEta: CoshValue)
    ensures Select(c, id, energy, coshEta) == AcceptTower <==>
      (c.badTowers.active ==> id !in c.badTowers.ids) &&
      (c.etMin.active ==> energy > c.etMin.min * coshEta) &&
      (c.etMax.active ==> energy < c.etMax.max * coshEta)
    ensures Select(c, id, energy, coshEta) == RejectEvent <==>
      c.rejectEventOnEtFailure && c.etMax.active && energy >= c.etMax.max * coshEta &&
      (c.badTowers.active ==> id !in c.badTowers.ids) &&
      (c.etMin.active ==> energy > c.etMin.min * coshEta)
  {
    ScaledBound(energy, coshEta, c.etMin.min);
    ScaledBound(energy, coshEta, c.etMax.max);
  }

  /** e / k compared with m is e compared with m * k, for a positive k. */
  lemma ScaledBound(e: real, k: real, m: real)
    requires k > 0.0
    ensures e / k > m <==> e > m * k
    ensures e / k < m <==> e < m * k
  {
    assert e == (e / k) * k;
    if e / k > m {
      assert (e / k) * k > m * k;
    } else {
      assert (e / k) * k <= m * k;
    }
    if e / k < m {
      assert (e / k) * k < m * k;
    } else {
      assert (e / k) * k >= m * k;
    }
  }

  /** E_T never exceeds the energy of a tower with non-negative energy, since cosh is at least one. */
  lemma EtAtMostEnergy(energy: real, coshEta: CoshValue)
    requires energy >= 0.0
    ensures 0.0 <= Et(energy, coshEta) <= energy
  {
    ScaledBound(energy, coshEta, energy);
    assert energy * coshEta >= energy;
  }

  /** Masking more towers keeps no tower the smaller mask dropped. */
  lemma MoreBadTowersKeepFewer(c: TowerCuts, ids: set<nat>, id: nat, energy: real, coshEta: CoshValue)
    requires Valid(c)
    ensures Select(WithBadTowers(c, ids), id, energy, coshEta) == AcceptTower ==>
            Select(c, id, energy, coshEta) == AcceptTower
  {
  }
}
