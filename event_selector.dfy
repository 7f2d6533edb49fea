/**
 * EventSelector of reader/event_selector.cc: independently activatable
 * event-level cuts (vertex position, vertex agreement, transverse vertex
 * radius, reference multiplicity, trigger ids, bad runs) and the
 * three-valued decision the reader acts on.
 */
module EventSelection {
  import opened Wrappers
  import opened Records
  import opened CutTypes
  import TriggerLookup
  import Csv

  /** What the reader does with an event: keep it, skip it, or skip its whole run. */
  datatype EventStatus = AcceptEvent | RejectEvent | RejectRun

  /** Codes of the multiplicity variants, in the order of the source's enumeration. */
  const RefMultCode: nat := 0
  const RefMult2Code: nat := 1
  const RefMult3Code: nat := 2
  const RefMult4Code: nat := 3
  const GRefMultCode: nat := 4

  /** The multiplicity variant a code selects; a code naming no variant reads as zero. */
  function Multiplicity(e: EventRecord, kind: nat): nat
  {
    if kind == RefMultCode then e.refMult
    else if kind == RefMult2Code then e.refMult2
    else if kind == RefMult3Code then e.refMult3
    else if kind == RefMult4Code then e.refMult4
    else if kind == GRefMultCode then e.gRefMult
    else 0
  }

  /** The multiplicity cut: which variant, and its open interval. */
  datatype MultWindow = MultWindow(active: bool, kind: nat, min: nat, max: nat)

  /**
   * The selector's fields as one value: each cut's activation flag and
   * bounds travel together, the trigger tokens and bad-run files beside
   * the id sets they were expanded into.
   */
  datatype EventCuts = EventCuts(
    vx: Window, vy: Window, vz: Window,
    dvz: Limit, vr: Limit,
    refMult: MultWindow,
    triggers: IdCut, triggerIdStrings: set<string>,
    badRuns: IdCut, badRunIdFiles: set<string>)

  /** The state `clear` leaves: every cut off and zeroed; the recorded trigger tokens are kept. */
  function Cleared(triggerIdStrings: set<string>): EventCuts
  {
    EventCuts(Off, Off, Off, NoLimit, NoLimit, MultWindow(false, RefMultCode, 0, 0),
              NoIds, triggerIdStrings, NoIds, {})
  }

  /** The state the setters keep: ranges are non-empty, maxima positive, inactive cuts zeroed, id cuts active exactly when they hold ids. */
  predicate Valid(c: EventCuts)
  {
    WindowValid(c.vx) && WindowValid(c.vy) && WindowValid(c.vz) &&
    LimitValid(c.dvz) && LimitValid(c.vr) &&
    (if c.refMult.active then c.refMult.max > c.refMult.min
     else c.refMult == MultWindow(false, RefMultCode, 0, 0)) &&
    IdCutValid(c.triggers) && IdCutValid(c.badRuns)
  }

  function Abs(x: real): real
  {
    if x < 0.0 then -x else x
  }

  predicate CheckDVz(c: EventCuts, e: EventRecord) { Abs(e.vzVpd - e.vz) < c.dvz.max }

  /** sqrt(vx^2 + vy^2) < max, stated without the square root (see VrCutMatchesRadius). */
  predicate CheckVr(c: EventCuts, e: EventRecord)
  {
    0.0 < c.vr.max && e.vx * e.vx + e.vy * e.vy < c.vr.max * c.vr.max
  }

  predicate CheckRefMult(c: EventCuts, e: EventRecord)
  {
    c.refMult.min < Multiplicity(e, c.refMult.kind) < c.refMult.max
  }

  /** At least one registered trigger id fired in the event. */
  predicate TriggerFired(c: EventCuts, e: EventRecord)
  {
    exists id :: id in c.triggers.ids && id in e.triggerIds
  }

  predicate CheckRunId(c: EventCuts, e: EventRecord) { e.runId !in c.badRuns.ids }

  /** Every active cut other than the bad-run cut passes. */
  predicate PassesEventCuts(c: EventCuts, e: EventRecord)
  {
    (c.vx.active ==> InWindow(c.vx, e.vx)) && (c.vy.active ==> InWindow(c.vy, e.vy)) &&
    (c.vz.active ==> InWindow(c.vz, e.vz)) && (c.dvz.active ==> CheckDVz(c, e)) &&
    (c.vr.active ==> CheckVr(c, e)) && (c.refMult.active ==> CheckRefMult(c, e)) &&
    (c.triggers.active ==> TriggerFired(c, e))
  }

  /** The selector's verdict: a run on the bad-run list rejects the run, any other failed cut rejects the event. */
  function Decide(c: EventCuts, e: EventRecord): (s: EventStatus)
    ensures s == AcceptEvent <==> (c.badRuns.active ==> CheckRunId(c, e)) && PassesEventCuts(c, e)
    ensures s == RejectRun <==> c.badRuns.active && !CheckRunId(c, e)
  {
    if c.badRuns.active && !CheckRunId(c, e) then RejectRun
    else if PassesEventCuts(c, e) then AcceptEvent
    else RejectEvent
  }

  // The state after each setter.

  function WithVxRange(c: EventCuts, min: real, max: real): (r: EventCuts)
    requires max > min
    ensures Valid(c) ==> Valid(r)
  {
    c.(vx := Window(true, min, max))
  }

  function WithVyRange(c: EventCuts, min: real, max: real): (r: EventCuts)
    requires max > min
    ensures Valid(c) ==> Valid(r)
  {
    c.(vy := Window(true, min, max))
  }

  function WithVzRange(c: EventCuts, min: real, max: real): (r: EventCuts)
    requires max > min
    ensures Valid(c) ==> Valid(r)
  {
    c.(vz := Window(true, min, max))
  }

  function WithDVzMax(c: EventCuts, max: real): (r: EventCuts)
    requires max > 0.0
    ensures Valid(c) ==> Valid(r)
  {
    c.(dvz := Limit(true, max))
  }

  function WithVrMax(c: EventCuts, max: real): (r: EventCuts)
    requires max > 0.0
    ensures Valid(c) ==> Valid(r)
  {
    c.(vr := Limit(true, max))
  }

  function WithRefMultRange(c: EventCuts, min: nat, max: nat, kind: nat): (r: EventCuts)
    requires max > min
    ensures Valid(c) ==> Valid(r)
  {
    c.(refMult := MultWindow(true, kind, min, max))
  }

  function WithTriggerId(c: EventCuts, id: nat): (r: EventCuts)
    ensures Valid(c) ==> Valid(r)
  {
    c.(triggers := IdCut(true, c.triggers.ids + {id}))
  }

  /**
   * The ids `named` that the trigger lookup gives for `token` are added;
   * the token is recorded even when it names none.
   */
  function WithTriggerIds(c: EventCuts, token: string, named: set<nat>): (r: EventCuts)
    ensures Valid(c) ==> Valid(r)
  {
    var ids := c.triggers.ids + named;
    c.(triggers := IdCut(c.triggers.active || ids != {}, ids),
       triggerIdStrings := c.triggerIdStrings + {token})
  }

  function WithBadRuns(c: EventCuts, runs: set<nat>): (r: EventCuts)
    ensures Valid(c) ==> Valid(r)
  {
    var ids := c.badRuns.ids + runs;
    c.(badRuns := IdCut(c.badRuns.active || ids != {}, ids))
  }

  function WithBadRunFile(c: EventCuts, file: string, rows: seq<seq<nat>>): (r: EventCuts)
    ensures Valid(c) ==> Valid(r)
  {
    WithBadRuns(c, Csv.Values(rows)).(badRunIdFiles := c.badRunIdFiles + {file})
  }

  /**
   * The event selector. Its fields are the source's, with each cut's
   * activation flag and bounds held together in one field.
   */
  class EventSelector {
    var vx: Window
    var vy: Window
    var vz: Window
    var dvz: Limit
    var vr: Limit
    var refMult: MultWindow
    var triggers: IdCut
    var triggerIdStrings: set<string>
    var badRuns: IdCut
    var badRunIdFiles: set<string>

    function Cuts(): EventCuts
      reads this
    {
      EventCuts(vx, vy, vz, dvz, vr, refMult, triggers, triggerIdStrings, badRuns, badRunIdFiles)
    }

    /** A new selector is cleared and has recorded no trigger tokens. */
    constructor()
      ensures Cuts() == Cleared({})
    {
      triggerIdStrings := {};
      new;
      Clear();
    }

    method SetVxRange(min: real, max: real)
      requires max > min
      modifies this
      ensures Cuts() == WithVxRange(old(Cuts()), min, max)
    {
      vx := Window(true, min, max);
    }

    method SetVyRange(min: real, max: real)
      requires max > min
      modifies this
      ensures Cuts() == WithVyRange(old(Cuts()), min, max)
    {
      vy := Window(true, min, max);
    }

    method SetVzRange(min: real, max: real)
      requires max > min
      modifies this
      ensures Cuts() == WithVzRange(old(Cuts()), min, max)
    {
      vz := Window(true, min, max);
    }

    method SetDVzMax(max: real)
      requires max > 0.0
      modifies this
      ensures Cuts() == WithDVzMax(old(Cuts()), max)
    {
      dvz := Limit(true, max);
    }

    method SetVrMax(max: real)
      requires max > 0.0
      modifies this
      ensures Cuts() == WithVrMax(old(Cuts()), max)
    {
      vr := Limit(true, max);
    }

    method SetRefMultRange(min: nat, max: nat, kind: nat)
      requires max > min
      modifies this
      ensures Cuts() == WithRefMultRange(old(Cuts()), min, max, kind)
    {
      refMult := MultWindow(true, kind, min, max);
    }

    method AddTriggerId(id: nat)
      modifies this
      ensures Cuts() == WithTriggerId(old(Cuts()), id)
    {
      triggers := IdCut(true, triggers.ids + {id});
    }

    method AddTriggerIds(token: string)
      modifies this
      ensures Cuts() == WithTriggerIds(old(Cuts()), token, TriggerLookup.GetTriggerIDs(token))
    {
      var result := TriggerLookup.GetTriggerIDs(token);
      var rest := result;
      while rest != {}
        invariant rest <= result
        invariant Cuts() == old(Cuts()).(triggers := triggers)
        invariant triggers.ids == old(triggers.ids) + (result - rest)
        invariant triggers.active == (old(triggers.active) || result - rest != {})
        decreases rest
      {
        var id :| id in rest;
        AddTriggerId(id);
        assert result - (rest - {id}) == (result - rest) + {id};
        rest := rest - {id};
      }
      if triggers.ids != {} {
        triggers := triggers.(active := true);
      }
      triggerIdStrings := triggerIdStrings + {token};
    }

    method AddBadRuns(runs: seq<nat>)
      modifies this
      ensures Cuts() == WithBadRuns(old(Cuts()), set r | r in runs)
    {
      var i := 0;
      while i < |runs|
        invariant 0 <= i <= |runs|
        invariant Cuts() == old(Cuts()).(badRuns := badRuns)
        invariant badRuns.active == old(badRuns.active)
        invariant badRuns.ids == old(badRuns.ids) + set r | r in runs[..i]
      {
        assert runs[..i + 1] == runs[..i] + [runs[i]];
        badRuns := badRuns.(ids := badRuns.ids + {runs[i]});
        i := i + 1;
      }
      assert runs[..|runs|] == runs;
      if badRuns.ids != {} {
        badRuns := badRuns.(active := true);
      }
    }

    /** Inserts the numbers of one row of a bad-run file into the bad-run set. */
    method InsertRunRow(line: seq<nat>)
      modifies this
      ensures Cuts() == old(Cuts()).(badRuns := old(badRuns).(ids := old(badRuns.ids) + set x | x in line))
    {
      var j := 0;
      while j < |line|
        invariant 0 <= j <= |line|
        invariant Cuts() == old(Cuts()).(badRuns := badRuns)
        invariant badRuns == old(badRuns).(ids := old(badRuns.ids) + set x | x in line[..j])
      {
        assert line[..j + 1] == line[..j] + [line[j]];
        badRuns := badRuns.(ids := badRuns.ids + {line[j]});
        j := j + 1;
      }
      assert line[..j] == line;
    }

    /** Reads a bad-run file from `fs` (path to lines) and inserts every number in it. */
    method AddBadRunFile(file: string, fs: map<string, seq<string>>) returns (r: Result<()>)
      requires file in fs ==> Csv.Parsable(fs[file])
      modifies this
      ensures file !in fs ==> r.Fatal? && Cuts() == old(Cuts())
      ensures file in fs ==> r.Ok? && Cuts() == WithBadRunFile(old(Cuts()), file, Csv.Rows(fs[file]))
    {
      var parsed := Csv.ParseCsv(if file in fs then Some(fs[file]) else None);
      if parsed.Fatal? {
        return Fatal(parsed.reason);
      }
      var rows := parsed.value;
      var i := 0;
      while i < |rows|
        invariant 0 <= i <= |rows|
        invariant Cuts() == old(Cuts()).(badRuns := badRuns)
        invariant badRuns.active == old(badRuns.active)
        invariant badRuns.ids == old(badRuns.ids) + Csv.Values(rows[..i])
      {
        InsertRunRow(rows[i]);
        assert rows[..i + 1][..i] == rows[..i];
        i := i + 1;
      }
      assert rows[..|rows|] == rows;
      if badRuns.ids != {} {
        badRuns := badRuns.(active := true);
      }
      badRunIdFiles := badRunIdFiles + {file};
      return Ok(());
    }

    /** Turns every cut off and empties the id sets and the file list; the trigger tokens stay. */
    method Clear()
      modifies this
      ensures Cuts() == Cleared(old(triggerIdStrings))
    {
      triggers, badRuns := NoIds, NoIds;
      vx, vy, vz, dvz, vr := Off, Off, Off, NoLimit, NoLimit;
      badRunIdFiles := {};
      refMult := MultWindow(false, RefMultCode, 0, 0);
    }

    /** clear as evidently intended: every cut off and the trigger tokens forgotten as well. */
    method ClearAll()
      modifies this
      ensures Cuts() == Cleared({})
    {
      Clear();
      triggerIdStrings := {};
    }

    /** Scans the registered trigger ids for one that fired. */
    method CheckTriggerId(e: EventRecord) returns (triggered: bool)
      ensures triggered == TriggerFired(Cuts(), e)
    {
      triggered := false;
      var rest := triggers.ids;
      while rest != {}
        invariant rest <= triggers.ids
        invariant triggered == exists id :: id in triggers.ids - rest && id in e.triggerIds
        decreases rest
      {
        var id :| id in rest;
        if id in e.triggerIds {
          triggered := true;
        }
        rest := rest - {id};
      }
    }

    method Select(e: EventRecord) returns (status: EventStatus)
      ensures status == Decide(Cuts(), e)
    {
      var c := Cuts();
      if badRuns.active && !CheckRunId(c, e) {
        return RejectRun;
      }
      var triggered := true;
      if triggers.active {
        triggered := CheckTriggerId(e);
      }
      if (vx.active && !InWindow(vx, e.vx)) || (vy.active && !InWindow(vy, e.vy)) ||
         (vz.active && !InWindow(vz, e.vz)) || (dvz.active && !CheckDVz(c, e)) ||
         (vr.active && !CheckVr(c, e)) || (refMult.active && !CheckRefMult(c, e)) ||
         !triggered
      {
        return RejectEvent;
      }
      return AcceptEvent;
    }
  }

  /** A cleared selector accepts every event. */
  lemma ClearedAcceptsEveryEvent(strings: set<string>, e: EventRecord)
    ensures Valid(Cleared(strings))
    ensures Decide(Cleared(strings), e) == AcceptEvent
  {
  }

  /** The verdict spelled out on the event's own quantities: every active cut, with strict bounds. */
  lemma DecideOnQuantities(c: EventCuts, e: EventRecord)
    ensures Decide(c, e) == RejectRun <==> c.badRuns.active && e.runId in c.badRuns.ids
    ensures Decide(c, e) == AcceptEvent <==>
      !(c.badRuns.active && e.runId in c.badRuns.ids) &&
      (c.vx.active ==> c.vx.min < e.vx < c.vx.max) &&
      (c.vy.active ==> c.vy.min < e.vy < c.vy.max) &&
      (c.vz.active ==> c.vz.min < e.vz < c.vz.max) &&
      (c.dvz.active ==> -c.dvz.max < e.vzVpd - e.vz < c.dvz.max) &&
      (c.vr.active ==> 0.0 < c.vr.max && e.vx * e.vx + e.vy * e.vy < c.vr.max * c.vr.max) &&
      (c.refMult.active ==> c.refMult.min < Multiplicity(e, c.refMult.kind) < c.refMult.max) &&
      (c.triggers.active ==> c.triggers.ids * e.triggerIds != {})
  {
    if c.triggers.ids * e.triggerIds != {} {
      var id :| id in c.triggers.ids * e.triggerIds;
      assert id in c.triggers.ids && id in e.triggerIds;
    }
    if TriggerFired(c, e) {
      var id :| id in c.triggers.ids && id in e.triggerIds;
      assert id in c.triggers.ids * e.triggerIds;
    }
  }

  /**
   * The squared form of the transverse radius cut agrees with the source's
   * sqrt(vx^2 + vy^2) < max for any non-negative root r of vx^2 + vy^2.
   */
  lemma VrCutMatchesRadius(vx: real, vy: real, r: real, max: real)
    requires r >= 0.0 && r * r == vx * vx + vy * vy
    ensures (r < max) == (0.0 < max && vx * vx + vy * vy < max * max)
  {
    if r < max {
      MulLeft(r, r, max);
      MulLeft(max, r, max);
      calc {
        r * r;
      <= r * max;
      == max * r;
      < max * max;
      }
    } else if 0.0 < max {
      MulLeft(max, max, r);
      MulLeft(r, max, r);
      calc {
        max * max;
      <= max * r;
      == r * max;
      <= r * r;
      }
    }
  }

  /** a < b or a <= b is kept when both sides are multiplied by a non-negative c. */
  lemma MulLeft(c: real, a: real, b: real)
    requires c >= 0.0 && a <= b
    ensures c * a <= c * b
    ensures c > 0.0 && a < b ==> c * a < c * b
  {
  }

  /** A range setter replaces only its own cut: the new verdict is the old one without that cut, plus the new range. */
  lemma VxRangeReplacesOnlyVx(c: EventCuts, min: real, max: real, e: EventRecord)
    requires max > min
    ensures Decide(WithVxRange(c, min, max), e) == AcceptEvent <==>
      Decide(c.(vx := Off), e) == AcceptEvent && min < e.vx < max
  {
  }

  lemma RefMultRangeReplacesOnlyRefMult(c: EventCuts, min: nat, max: nat, kind: nat, e: EventRecord)
    requires max > min
    ensures Decide(WithRefMultRange(c, min, max, kind), e) == AcceptEvent <==>
      Decide(c.(refMult := c.refMult.(active := false)), e) == AcceptEvent && min < Multiplicity(e, kind) < max
  {
  }

  /** Trigger ids are alternatives: registering more ids never rejects an event an active trigger cut accepted. */
  lemma MoreTriggerIdsAcceptMore(c: EventCuts, token: string, e: EventRecord)
    requires c.triggers.active && Decide(c, e) == AcceptEvent
    ensures Decide(WithTriggerIds(c, token, TriggerLookup.GetTriggerIDs(token)), e) == AcceptEvent
  {
    var id :| id in c.triggers.ids && id in e.triggerIds;
    assert id in WithTriggerIds(c, token, TriggerLookup.GetTriggerIDs(token)).triggers.ids;
  }

  /** A token the lookup does not know adds no ids but is still recorded. */
  lemma UnknownTokenOnlyRecorded(c: EventCuts, token: string)
    requires TriggerLookup.GetTriggerIDs(token) == {}
    requires Valid(c)
    ensures WithTriggerIds(c, token, TriggerLookup.GetTriggerIDs(token)) == c.(triggerIdStrings := c.triggerIdStrings + {token})
  {
  }

  /** Bad runs only narrow: a rejected event stays rejected, and an event of a listed run is a rejected run. */
  lemma BadRunsOnlyNarrow(c: EventCuts, runs: set<nat>, e: EventRecord)
    ensures Decide(c, e) != AcceptEvent ==> Decide(WithBadRuns(c, runs), e) != AcceptEvent
    ensures e.runId in runs ==> Decide(WithBadRuns(c, runs), e) == RejectRun
  {
  }
}
