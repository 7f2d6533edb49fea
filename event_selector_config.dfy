/**
 * EventSelectorConfigHelper of reader/config/event_selector_config_helper.cc:
 * loading an event selector's cuts from a configuration section, and
 * writing a selector's cuts out as one.
 */
module EventSelectorConfig {
  import opened Wrappers
  import opened CutTypes
  import opened ConfigDocument
  import opened EventSelection
  import TriggerLookup
  import Csv

  const RangeNeedsTwo: string := "range needs two values"
  const MaxNotAboveMin: string := "max must be greater than min"
  const RefMultMaxNotAboveMin: string := "max refmult must be greater than min refmult"

  const TriggerIdKey := "triggerIds"
  const TriggerIdStringKey := "triggerIdStrings"
  const BadRunIdKey := "badRunIds"
  const BadRunIdFileKey := "badRunIdFile"
  const VxKey := "vxRange"
  const VyKey := "vyRange"
  const VzKey := "vzRange"
  const VrKey := "vrRange"
  const DVzKey := "dvzMax"
  const RefMultTypeKey := "refMultType"
  const RefMultRangeKey := "refMultRange"

  /** The keys an entry can act on; `refMultType` is only consulted by `refMultRange`. */
  predicate ActsOn(key: string)
  {
    key in {TriggerIdKey, TriggerIdStringKey, BadRunIdKey, BadRunIdFileKey,
            VxKey, VyKey, VzKey, VrKey, DVzKey, RefMultRangeKey}
  }

  // Reading one entry's value. Every failure is fatal: a size assertion, a
  // conversion the scalar does not fit, or the setter's own assertion.

  /** A two-number range; the setter demands max > min. */
  function RangeOf(n: Node): (r: Result<(real, real)>)
    ensures r.Ok? <==> n.List? && |n.items| == 2 && AsReal(n.items[0]).Ok? && AsReal(n.items[1]).Ok? &&
                       AsReal(n.items[0]).value < AsReal(n.items[1]).value
    ensures r.Ok? ==> r.value == (AsReal(n.items[0]).value, AsReal(n.items[1]).value)
  {
    if Size(n) != 2 then Fatal(RangeNeedsTwo)
    else
      var min, max := AsReal(Items(n)[0]), AsReal(Items(n)[1]);
      if min.Fatal? then Fatal(min.reason)
      else if max.Fatal? then Fatal(max.reason)
      else if !(max.value > min.value) then Fatal(MaxNotAboveMin)
      else Ok((min.value, max.value))
  }

  /** A two-count range for the multiplicity cut; the setter demands max > min. */
  function CountRangeOf(n: Node): (r: Result<(nat, nat)>)
    ensures r.Ok? <==> n.List? && |n.items| == 2 && n.items[0].Count? && n.items[1].Count? &&
                       n.items[0].n < n.items[1].n
    ensures r.Ok? ==> r.value == (n.items[0].n, n.items[1].n)
  {
    if Size(n) != 2 then Fatal(RangeNeedsTwo)
    else
      var min, max := AsCount(Items(n)[0]), AsCount(Items(n)[1]);
      if min.Fatal? then Fatal(min.reason)
      else if max.Fatal? then Fatal(max.reason)
      else if !(max.value > min.value) then Fatal(RefMultMaxNotAboveMin)
      else Ok((min.value, max.value))
  }

  /** The multiplicity variant: the document's `refMultType` wherever it stands, else refMult. */
  function RefMultKind(doc: Section): (r: Result<nat>)
    ensures Lookup(doc, RefMultTypeKey).None? ==> r == Ok(RefMultCode)
    ensures Lookup(doc, RefMultTypeKey).Some? ==> r == NodeCount(Lookup(doc, RefMultTypeKey).value)
  {
    match Lookup(doc, RefMultTypeKey)
    case None => Ok(RefMultCode)
    case Some(n) => NodeCount(n)
  }

  // One item of a list entry.

  function AddIdStep(c: EventCuts, s: Scalar): Result<EventCuts>
  {
    var id := AsCount(s);
    if id.Fatal? then Fatal(id.reason) else Ok(WithTriggerId(c, id.value))
  }

  function AddTokenStep(lookup: string -> set<nat>, c: EventCuts, s: Scalar): Result<EventCuts>
  {
    var token := AsText(s);
    if token.Fatal? then Fatal(token.reason) else Ok(WithTriggerIds(c, token.value, lookup(token.value)))
  }

  function TokenStep(lookup: string -> set<nat>): (EventCuts, Scalar) -> Result<EventCuts>
  {
    (c: EventCuts, s: Scalar) => AddTokenStep(lookup, c, s)
  }

  function CollectRunStep(runs: seq<nat>, s: Scalar): Result<seq<nat>>
  {
    var run := AsCount(s);
    if run.Fatal? then Fatal(run.reason) else Ok(runs + [run.value])
  }

  /** A bad-run file is read through the file system; a file it cannot open is fatal. */
  function AddFileStep(fs: Csv.FileSystem, c: EventCuts, s: Scalar): Result<EventCuts>
  {
    var file := AsText(s);
    if file.Fatal? then Fatal(file.reason)
    else if file.value !in fs then Fatal(Csv.CouldNotOpen)
    else Ok(WithBadRunFile(c, file.value, Csv.Rows(fs[file.value])))
  }

  function FileStep(fs: Csv.FileSystem): (EventCuts, Scalar) -> Result<EventCuts>
  {
    (c: EventCuts, s: Scalar) => AddFileStep(fs, c, s)
  }

  /**
   * The effect of one entry of the section `doc` on the cuts; `fs` holds the
   * bad-run files and `lookup` is the trigger-token table.
   */
  function EventEntry(c: EventCuts, e: Entry, doc: Section, fs: Csv.FileSystem, lookup: string -> set<nat>): (r: Result<EventCuts>)
  {
    var n := e.node;
    if e.key == TriggerIdKey then Fold(c, Items(n), AddIdStep)
    else if e.key == TriggerIdStringKey then Fold(c, Items(n), TokenStep(lookup))
    else if e.key == BadRunIdKey then
      var runs := Fold([], Items(n), CollectRunStep);
      if runs.Fatal? then Fatal(runs.reason) else Ok(WithBadRuns(c, Elements(runs.value)))
    else if e.key == BadRunIdFileKey then Fold(c, Items(n), FileStep(fs))
    else if e.key == VxKey then
      var w := RangeOf(n);
      if w.Fatal? then Fatal(w.reason) else Ok(WithVxRange(c, w.value.0, w.value.1))
    else if e.key == VyKey then
      var w := RangeOf(n);
      if w.Fatal? then Fatal(w.reason) else Ok(WithVyRange(c, w.value.0, w.value.1))
    else if e.key == VzKey then
      var w := RangeOf(n);
      if w.Fatal? then Fatal(w.reason) else Ok(WithVzRange(c, w.value.0, w.value.1))
    else if e.key == VrKey then
      var m := PositiveOf(n);
      if m.Fatal? then Fatal(m.reason) else Ok(WithVrMax(c, m.value))
    else if e.key == DVzKey then
      var m := PositiveOf(n);
      if m.Fatal? then Fatal(m.reason) else Ok(WithDVzMax(c, m.value))
    else if e.key == RefMultRangeKey then
      var m, kind := CountRangeOf(n), RefMultKind(doc);
      if m.Fatal? then Fatal(m.reason)
      else if kind.Fatal? then Fatal(kind.reason)
      else Ok(WithRefMultRange(c, m.value.0, m.value.1, kind.value))
    else Ok(c)
  }

  function EventStep(doc: Section, fs: Csv.FileSystem, lookup: string -> set<nat>): (EventCuts, Entry) -> Result<EventCuts>
  {
    (c: EventCuts, e: Entry) => EventEntry(c, e, doc, fs, lookup)
  }

  /**
   * loadConfig: the entries applied in document order; the first fatal one
   * ends the load. The selector's own lookup is TriggerLookup.GetTriggerIDs.
   */
  function Load(c: EventCuts, doc: Section, fs: Csv.FileSystem, lookup: string -> set<nat>): Result<EventCuts>
  {
    Fold(c, doc, EventStep(doc, fs, lookup))
  }

  // Loading, as the helper does it: a loop over the entries calling the setters.

  method AddTriggerIdItems(sel: EventSelector, items: seq<Scalar>) returns (r: Result<()>)
    modifies sel
    ensures r.Ok? <==> Fold(old(sel.Cuts()), items, AddIdStep).Ok?
    ensures r.Ok? ==> sel.Cuts() == Fold(old(sel.Cuts()), items, AddIdStep).value
  {
    var i := 0;
    while i < |items|
      invariant 0 <= i <= |items|
      invariant Fold(old(sel.Cuts()), items[..i], AddIdStep) == Ok(sel.Cuts())
    {
      FoldStep(old(sel.Cuts()), items, i, AddIdStep);
      var id := AsCount(items[i]);
      if id.Fatal? {
        FoldFatalStays(old(sel.Cuts()), items, i + 1, AddIdStep);
        return Fatal(id.reason);
      }
      sel.AddTriggerId(id.value);
      i := i + 1;
    }
    assert items[..i] == items;
    return Ok(());
  }

  method AddTokenItems(sel: EventSelector, items: seq<Scalar>) returns (r: Result<()>)
    modifies sel
    ensures r.Ok? <==> Fold(old(sel.Cuts()), items, TokenStep(TriggerLookup.GetTriggerIDs)).Ok?
    ensures r.Ok? ==> sel.Cuts() == Fold(old(sel.Cuts()), items, TokenStep(TriggerLookup.GetTriggerIDs)).value
  {
    var i := 0;
    while i < |items|
      invariant 0 <= i <= |items|
      invariant Fold(old(sel.Cuts()), items[..i], TokenStep(TriggerLookup.GetTriggerIDs)) == Ok(sel.Cuts())
    {
      FoldStep(old(sel.Cuts()), items, i, TokenStep(TriggerLookup.GetTriggerIDs));
      var token := AsText(items[i]);
      if token.Fatal? {
        FoldFatalStays(old(sel.Cuts()), items, i + 1, TokenStep(TriggerLookup.GetTriggerIDs));
        return Fatal(token.reason);
      }
      sel.AddTriggerIds(token.value);
      i := i + 1;
    }
    assert items[..i] == items;
    return Ok(());
  }

  /** The run ids of a `badRunIds` entry, collected before they are added at once. */
  method CollectRuns(items: seq<Scalar>) returns (r: Result<seq<nat>>)
    ensures r == Fold([], items, CollectRunStep)
  {
    var runs: seq<nat> := [];
    var i := 0;
    while i < |items|
      invariant 0 <= i <= |items|
      invariant Fold([], items[..i], CollectRunStep) == Ok(runs)
    {
      FoldStep([], items, i, CollectRunStep);
      var run := AsCount(items[i]);
      if run.Fatal? {
        FoldFatalStays([], items, i + 1, CollectRunStep);
        return Fatal(run.reason);
      }
      runs := runs + [run.value];
      i := i + 1;
    }
    assert items[..i] == items;
    return Ok(runs);
  }

  method AddFileItems(sel: EventSelector, items: seq<Scalar>, fs: Csv.FileSystem) returns (r: Result<()>)
    modifies sel
    ensures r.Ok? <==> Fold(old(sel.Cuts()), items, FileStep(fs)).Ok?
    ensures r.Ok? ==> sel.Cuts() == Fold(old(sel.Cuts()), items, FileStep(fs)).value
  {
    var i := 0;
    while i < |items|
      invariant 0 <= i <= |items|
      invariant Fold(old(sel.Cuts()), items[..i], FileStep(fs)) == Ok(sel.Cuts())
    {
      FoldStep(old(sel.Cuts()), items, i, FileStep(fs));
      var file := AsText(items[i]);
      if file.Fatal? {
        FoldFatalStays(old(sel.Cuts()), items, i + 1, FileStep(fs));
        return Fatal(file.reason);
      }
      var added := sel.AddBadRunFile(file.value, fs);
      if added.Fatal? {
        FoldFatalStays(old(sel.Cuts()), items, i + 1, FileStep(fs));
        return added;
      }
      i := i + 1;
    }
    assert items[..i] == items;
    return Ok(());
  }

  /** One entry of `doc`: the branch of loadConfig its key selects. */
  method LoadEntry(sel: EventSelector, e: Entry, doc: Section, fs: Csv.FileSystem) returns (r: Result<()>)
    modifies sel
    ensures r.Ok? <==> EventEntry(old(sel.Cuts()), e, doc, fs, TriggerLookup.GetTriggerIDs).Ok?
    ensures r.Ok? ==> sel.Cuts() == EventEntry(old(sel.Cuts()), e, doc, fs, TriggerLookup.GetTriggerIDs).value
  {
    var n := e.node;
    if e.key == TriggerIdKey {
      r := AddTriggerIdItems(sel, Items(n));
    } else if e.key == TriggerIdStringKey {
      r := AddTokenItems(sel, Items(n));
    } else if e.key == BadRunIdKey {
      var runs := CollectRuns(Items(n));
      if runs.Fatal? {
        return Fatal(runs.reason);
      }
      sel.AddBadRuns(runs.value);
      ElementsMembers(runs.value);
      assert (set r | r in runs.value) == Elements(runs.value);
      r := Ok(());
    } else if e.key == BadRunIdFileKey {
      r := AddFileItems(sel, Items(n), fs);
    } else if e.key == VxKey || e.key == VyKey || e.key == VzKey {
      var w := RangeOf(n);
      if w.Fatal? {
        return Fatal(w.reason);
      }
      if e.key == VxKey {
        sel.SetVxRange(w.value.0, w.value.1);
      } else if e.key == VyKey {
        sel.SetVyRange(w.value.0, w.value.1);
      } else {
        sel.SetVzRange(w.value.0, w.value.1);
      }
      r := Ok(());
    } else if e.key == VrKey || e.key == DVzKey {
      var m := PositiveOf(n);
      if m.Fatal? {
        return Fatal(m.reason);
      }
      if e.key == VrKey {
        sel.SetVrMax(m.value);
      } else {
        sel.SetDVzMax(m.value);
      }
      r := Ok(());
    } else if e.key == RefMultRangeKey {
      var m := CountRangeOf(n);
      if m.Fatal? {
        return Fatal(m.reason);
      }
      var kind := RefMultKind(doc);
      if kind.Fatal? {
        return Fatal(kind.reason);
      }
      sel.SetRefMultRange(m.value.0, m.value.1, kind.value);
      r := Ok(());
    } else {
      // An unknown key is only reported.
      r := Ok(());
    }
  }

  /** loadConfig: proved against `Load`. */
  method LoadConfig(sel: EventSelector, doc: Section, fs: Csv.FileSystem) returns (r: Result<()>)
    modifies sel
    ensures r.Ok? <==> Load(old(sel.Cuts()), doc, fs, TriggerLookup.GetTriggerIDs).Ok?
    ensures r.Ok? ==> sel.Cuts() == Load(old(sel.Cuts()), doc, fs, TriggerLookup.GetTriggerIDs).value
  {
    var i := 0;
    while i < |doc|
      invariant 0 <= i <= |doc|
      invariant Fold(old(sel.Cuts()), doc[..i], EventStep(doc, fs, TriggerLookup.GetTriggerIDs)) == Ok(sel.Cuts())
    {
      FoldStep(old(sel.Cuts()), doc, i, EventStep(doc, fs, TriggerLookup.GetTriggerIDs));
      r := LoadEntry(sel, doc[i], doc, fs);
      if r.Fatal? {
        FoldFatalStays(old(sel.Cuts()), doc, i + 1, EventStep(doc, fs, TriggerLookup.GetTriggerIDs));
        return r;
      }
      i := i + 1;
    }
    assert doc[..i] == doc;
    return Ok(());
  }

  // Writing: readConfig puts out one entry per active cut, in a fixed order.

  /**
   * The section readConfig writes for the cuts `c`, given how each id or
   * name set is listed: the vertex windows, the radius and vertex-agreement
   * limits, the multiplicity cut, then the id lists and name lists; a cut
   * that is off, or a name set that is empty, writes nothing.
   */
  function EventDocument(c: EventCuts, ids: seq<nat>, tokens: seq<string>, runs: seq<nat>, files: seq<string>): Section
  {
    VertexPart(c) + MultPart(c.refMult) + ListsPart(c, ids, tokens, runs, files)
  }

  /** The vertex windows, then the radius and vertex-agreement limits. */
  function VertexPart(c: EventCuts): Section
  {
    WindowPart(VxKey, c.vx) + WindowPart(VyKey, c.vy) + WindowPart(VzKey, c.vz) +
    LimitPart(VrKey, c.vr) + LimitPart(DVzKey, c.dvz)
  }

  /** The trigger ids, trigger names, bad runs and bad-run files. */
  function ListsPart(c: EventCuts, ids: seq<nat>, tokens: seq<string>, runs: seq<nat>, files: seq<string>): Section
  {
    ListPart(TriggerIdKey, c.triggers.active, Counts(ids)) +
    ListPart(TriggerIdStringKey, c.triggerIdStrings != {}, Texts(tokens)) +
    ListPart(BadRunIdKey, c.badRuns.active, Counts(runs)) +
    ListPart(BadRunIdFileKey, c.badRunIdFiles != {}, Texts(files))
  }

  /** The multiplicity cut: its variant code, then its range. */
  function MultPart(m: MultWindow): Section
  {
    if m.active then [Entry(RefMultTypeKey, Value(Count(m.kind))), Entry(RefMultRangeKey, List([Count(m.min), Count(m.max)]))]
    else []
  }

  /** `doc` is what readConfig writes for `c`, with each set listed in some order. */
  ghost predicate Describes(c: EventCuts, doc: Section)
  {
    exists ids, tokens, runs, files ::
      Enumerates(ids, c.triggers.ids) && Enumerates(tokens, c.triggerIdStrings) &&
      Enumerates(runs, c.badRuns.ids) && Enumerates(files, c.badRunIdFiles) &&
      doc == EventDocument(c, ids, tokens, runs, files)
  }

  /** readConfig: each active cut written in turn; the id and name sets listed element by element. */
  method ReadConfig(sel: EventSelector) returns (doc: Section)
    ensures Describes(sel.Cuts(), doc)
  {
    var c := sel.Cuts();
    var vertex := WindowPart(VxKey, c.vx) + WindowPart(VyKey, c.vy) + WindowPart(VzKey, c.vz);
    vertex := vertex + LimitPart(VrKey, c.vr) + LimitPart(DVzKey, c.dvz);
    var ids := ListSet(c.triggers.ids);
    var lists := ListPart(TriggerIdKey, c.triggers.active, Counts(ids));
    var tokens := ListSet(c.triggerIdStrings);
    lists := lists + ListPart(TriggerIdStringKey, c.triggerIdStrings != {}, Texts(tokens));
    var runs := ListSet(c.badRuns.ids);
    lists := lists + ListPart(BadRunIdKey, c.badRuns.active, Counts(runs));
    var files := ListSet(c.badRunIdFiles);
    lists := lists + ListPart(BadRunIdFileKey, c.badRunIdFiles != {}, Texts(files));
    doc := vertex + MultPart(c.refMult) + lists;
    assert doc == EventDocument(c, ids, tokens, runs, files);
  }

  // Reading back what was written.

  /** Every recorded trigger token names only ids the trigger cut holds. */
  predicate TokensCovered(c: EventCuts, lookup: string -> set<nat>)
  {
    forall t :: t in c.triggerIdStrings ==> lookup(t) <= c.triggers.ids
  }

  /** Every recorded bad-run file can be opened and names only runs the bad-run cut holds. */
  predicate FilesCovered(c: EventCuts, fs: Csv.FileSystem)
  {
    forall f :: f in c.badRunIdFiles ==> f in fs && Csv.Values(Csv.Rows(fs[f])) <= c.badRuns.ids
  }

  /** What the setters and loading keep: a valid state whose recorded tokens and files are reflected in its id sets. */
  predicate Consistent(c: EventCuts, fs: Csv.FileSystem, lookup: string -> set<nat>)
  {
    Valid(c) && TokensCovered(c, lookup) && FilesCovered(c, fs)
  }

  lemma {:induction false} LoadIds(x: EventCuts, ids: seq<nat>)
    ensures Fold(x, Counts(ids), AddIdStep) ==
      Ok(x.(triggers := IdCut(x.triggers.active || ids != [], x.triggers.ids + Elements(ids))))
    decreases |ids|
  {
    if ids == [] {
      assert x.triggers == IdCut(x.triggers.active, x.triggers.ids + {});
    } else {
      var init, last := ids[..|ids| - 1], ids[|ids| - 1];
      assert Counts(ids)[..|ids| - 1] == Counts(init);
      LoadIds(x, init);
      assert x.triggers.ids + Elements(init) + {last} == x.triggers.ids + Elements(ids);
    }
  }

  lemma {:induction false} LoadTokens(x: EventCuts, tokens: seq<string>, lookup: string -> set<nat>)
    requires IdCutValid(x.triggers)
    requires forall i :: 0 <= i < |tokens| ==> lookup(tokens[i]) <= x.triggers.ids
    ensures Fold(x, Texts(tokens), TokenStep(lookup)) == Ok(x.(triggerIdStrings := x.triggerIdStrings + Elements(tokens)))
    decreases |tokens|
  {
    if tokens == [] {
      assert x.triggerIdStrings + {} == x.triggerIdStrings;
    } else {
      var init, last := tokens[..|tokens| - 1], tokens[|tokens| - 1];
      assert Texts(tokens)[..|tokens| - 1] == Texts(init);
      LoadTokens(x, init, lookup);
      var y := x.(triggerIdStrings := x.triggerIdStrings + Elements(init));
      assert Fold(x, Texts(tokens), TokenStep(lookup)) == AddTokenStep(lookup, y, Text(last));
      TokenAlreadyCovered(y, last, lookup(last));
      assert y.triggerIdStrings + {last} == x.triggerIdStrings + Elements(tokens);
    }
  }

  /** A token whose ids the cut already holds is only recorded. */
  lemma TokenAlreadyCovered(c: EventCuts, token: string, named: set<nat>)
    requires IdCutValid(c.triggers) && named <= c.triggers.ids
    ensures WithTriggerIds(c, token, named) == c.(triggerIdStrings := c.triggerIdStrings + {token})
  {
    assert c.triggers.ids + named == c.triggers.ids;
  }

  lemma {:induction false} CollectAllRuns(runs: seq<nat>)
    ensures Fold([], Counts(runs), CollectRunStep) == Ok(runs)
    decreases |runs|
  {
    if runs != [] {
      var init, last := runs[..|runs| - 1], runs[|runs| - 1];
      assert Counts(runs)[..|runs| - 1] == Counts(init);
      CollectAllRuns(init);
      assert runs == init + [last];
    }
  }

  lemma {:induction false} LoadFiles(x: EventCuts, files: seq<string>, fs: Csv.FileSystem)
    requires IdCutValid(x.badRuns)
    requires forall i :: 0 <= i < |files| ==> files[i] in fs && Csv.Values(Csv.Rows(fs[files[i]])) <= x.badRuns.ids
    ensures Fold(x, Texts(files), FileStep(fs)) == Ok(x.(badRunIdFiles := x.badRunIdFiles + Elements(files)))
    decreases |files|
  {
    if files == [] {
      assert x.badRunIdFiles + {} == x.badRunIdFiles;
    } else {
      var init, last := files[..|files| - 1], files[|files| - 1];
      assert Texts(files)[..|files| - 1] == Texts(init);
      LoadFiles(x, init, fs);
      var y := x.(badRunIdFiles := x.badRunIdFiles + Elements(init));
      assert Fold(x, Texts(files), FileStep(fs)) == AddFileStep(fs, y, Text(last));
      FileAlreadyCovered(y, last, fs);
      assert y.badRunIdFiles + {last} == x.badRunIdFiles + Elements(files);
    }
  }

  /** A file whose runs the cut already holds is only recorded. */
  lemma FileAlreadyCovered(c: EventCuts, file: string, fs: Csv.FileSystem)
    requires IdCutValid(c.badRuns) && file in fs && Csv.Values(Csv.Rows(fs[file])) <= c.badRuns.ids
    ensures WithBadRunFile(c, file, Csv.Rows(fs[file])) == c.(badRunIdFiles := c.badRunIdFiles + {file})
  {
    var v := Csv.Values(Csv.Rows(fs[file]));
    assert c.badRuns.ids + v == c.badRuns.ids;
  }

  // Each part of a written section, loaded into a state where that cut is still off.

  lemma LoadVxPart(x: EventCuts, w: Window, doc: Section, fs: Csv.FileSystem, lookup: string -> set<nat>)
    requires WindowValid(w) && x.vx == Off
    ensures Fold(x, WindowPart(VxKey, w), EventStep(doc, fs, lookup)) == Ok(x.(vx := w))
  {
    if w.active {
      FoldSingle(x, Entry(VxKey, List([Real(w.min), Real(w.max)])), EventStep(doc, fs, lookup));
    }
  }

  lemma LoadVyPart(x: EventCuts, w: Window, doc: Section, fs: Csv.FileSystem, lookup: string -> set<nat>)
    requires WindowValid(w) && x.vy == Off
    ensures Fold(x, WindowPart(VyKey, w), EventStep(doc, fs, lookup)) == Ok(x.(vy := w))
  {
    if w.active {
      FoldSingle(x, Entry(VyKey, List([Real(w.min), Real(w.max)])), EventStep(doc, fs, lookup));
    }
  }

  lemma LoadVzPart(x: EventCuts, w: Window, doc: Section, fs: Csv.FileSystem, lookup: string -> set<nat>)
    requires WindowValid(w) && x.vz == Off
    ensures Fold(x, WindowPart(VzKey, w), EventStep(doc, fs, lookup)) == Ok(x.(vz := w))
  {
    if w.active {
      FoldSingle(x, Entry(VzKey, List([Real(w.min), Real(w.max)])), EventStep(doc, fs, lookup));
    }
  }

  lemma LoadVrPart(x: EventCuts, l: Limit, doc: Section, fs: Csv.FileSystem, lookup: string -> set<nat>)
    requires LimitValid(l) && x.vr == NoLimit
    ensures Fold(x, LimitPart(VrKey, l), EventStep(doc, fs, lookup)) == Ok(x.(vr := l))
  {
    if l.active {
      FoldSingle(x, Entry(VrKey, Value(Real(l.max))), EventStep(doc, fs, lookup));
    }
  }

  lemma LoadDVzPart(x: EventCuts, l: Limit, doc: Section, fs: Csv.FileSystem, lookup: string -> set<nat>)
    requires LimitValid(l) && x.dvz == NoLimit
    ensures Fold(x, LimitPart(DVzKey, l), EventStep(doc, fs, lookup)) == Ok(x.(dvz := l))
  {
    if l.active {
      FoldSingle(x, Entry(DVzKey, Value(Real(l.max))), EventStep(doc, fs, lookup));
    }
  }

  /** The variant entry is skipped; the range entry finds it in the whole section. */
  lemma LoadMultPart(x: EventCuts, m: MultWindow, doc: Section, fs: Csv.FileSystem, lookup: string -> set<nat>)
    requires m.active ==> m.max > m.min && Lookup(doc, RefMultTypeKey) == Some(Value(Count(m.kind)))
    requires !m.active ==> m == MultWindow(false, RefMultCode, 0, 0)
    requires x.refMult == MultWindow(false, RefMultCode, 0, 0)
    ensures Fold(x, MultPart(m), EventStep(doc, fs, lookup)) == Ok(x.(refMult := m))
  {
    if m.active {
      var kindEntry := Entry(RefMultTypeKey, Value(Count(m.kind)));
      var rangeEntry := Entry(RefMultRangeKey, List([Count(m.min), Count(m.max)]));
      FoldSingle(x, kindEntry, EventStep(doc, fs, lookup));
      assert EventEntry(x, kindEntry, doc, fs, lookup) == Ok(x);
      FoldAppend(x, [kindEntry], [rangeEntry], EventStep(doc, fs, lookup));
      FoldSingle(x, rangeEntry, EventStep(doc, fs, lookup));
      assert [kindEntry] + [rangeEntry] == MultPart(m);
    }
  }

  lemma LoadIdsPart(x: EventCuts, t: IdCut, ids: seq<nat>, doc: Section, fs: Csv.FileSystem, lookup: string -> set<nat>)
    requires IdCutValid(t) && Enumerates(ids, t.ids) && x.triggers == NoIds
    ensures Fold(x, ListPart(TriggerIdKey, t.active, Counts(ids)), EventStep(doc, fs, lookup)) == Ok(x.(triggers := t))
  {
    if t.active {
      FoldSingle(x, Entry(TriggerIdKey, List(Counts(ids))), EventStep(doc, fs, lookup));
      IdsEntryLoads(x, ids, doc, fs, lookup);
      EnumeratedSet(ids, t.ids);
      assert x.triggers.ids + t.ids == t.ids;
    }
  }

  /** A `triggerIds` entry listing `ids` adds them all and switches the trigger cut on when there is one. */
  lemma IdsEntryLoads(c: EventCuts, ids: seq<nat>, doc: Section, fs: Csv.FileSystem, lookup: string -> set<nat>)
    ensures EventEntry(c, Entry(TriggerIdKey, List(Counts(ids))), doc, fs, lookup) ==
      Ok(c.(triggers := IdCut(c.triggers.active || ids != [], c.triggers.ids + Elements(ids))))
  {
    LoadIds(c, ids);
  }

  /** A `triggerIdStrings` entry listing tokens whose ids the cut already holds only records them. */
  lemma TokensEntryLoads(c: EventCuts, tokens: seq<string>, doc: Section, fs: Csv.FileSystem, lookup: string -> set<nat>)
    requires IdCutValid(c.triggers)
    requires forall i :: 0 <= i < |tokens| ==> lookup(tokens[i]) <= c.triggers.ids
    ensures EventEntry(c, Entry(TriggerIdStringKey, List(Texts(tokens))), doc, fs, lookup) ==
      Ok(c.(triggerIdStrings := c.triggerIdStrings + Elements(tokens)))
  {
    LoadTokens(c, tokens, lookup);
  }

  lemma LoadTokensPart(x: EventCuts, strings: set<string>, tokens: seq<string>, doc: Section, fs: Csv.FileSystem, lookup: string -> set<nat>)
    requires Enumerates(tokens, strings) && IdCutValid(x.triggers)
    requires forall t :: t in strings ==> lookup(t) <= x.triggers.ids
    ensures Fold(x, ListPart(TriggerIdStringKey, strings != {}, Texts(tokens)), EventStep(doc, fs, lookup)) ==
      Ok(x.(triggerIdStrings := x.triggerIdStrings + strings))
  {
    EnumeratedSet(tokens, strings);
    if strings != {} {
      FoldSingle(x, Entry(TriggerIdStringKey, List(Texts(tokens))), EventStep(doc, fs, lookup));
      TokensEntryLoads(x, tokens, doc, fs, lookup);
    } else {
      assert x.triggerIdStrings + strings == x.triggerIdStrings;
    }
  }

  lemma LoadRunsPart(x: EventCuts, t: IdCut, runs: seq<nat>, doc: Section, fs: Csv.FileSystem, lookup: string -> set<nat>)
    requires IdCutValid(t) && Enumerates(runs, t.ids) && x.badRuns == NoIds
    ensures Fold(x, ListPart(BadRunIdKey, t.active, Counts(runs)), EventStep(doc, fs, lookup)) == Ok(x.(badRuns := t))
  {
    if t.active {
      FoldSingle(x, Entry(BadRunIdKey, List(Counts(runs))), EventStep(doc, fs, lookup));
      RunsEntryLoads(x, runs, doc, fs, lookup);
      EnumeratedSet(runs, t.ids);
      assert x.badRuns.ids + t.ids == t.ids;
    }
  }

  /** A `badRunIds` entry listing `runs` adds them all. */
  lemma RunsEntryLoads(c: EventCuts, runs: seq<nat>, doc: Section, fs: Csv.FileSystem, lookup: string -> set<nat>)
    ensures EventEntry(c, Entry(BadRunIdKey, List(Counts(runs))), doc, fs, lookup) == Ok(WithBadRuns(c, Elements(runs)))
  {
    CollectAllRuns(runs);
  }

  lemma LoadFilesPart(x: EventCuts, names: set<string>, files: seq<string>, doc: Section, fs: Csv.FileSystem, lookup: string -> set<nat>)
    requires Enumerates(files, names) && IdCutValid(x.badRuns) && x.badRunIdFiles == {}
    requires forall f :: f in names ==> f in fs && Csv.Values(Csv.Rows(fs[f])) <= x.badRuns.ids
    ensures Fold(x, ListPart(BadRunIdFileKey, names != {}, Texts(files)), EventStep(doc, fs, lookup)) ==
      Ok(x.(badRunIdFiles := names))
  {
    EnumeratedSet(files, names);
    if names != {} {
      FoldSingle(x, Entry(BadRunIdFileKey, List(Texts(files))), EventStep(doc, fs, lookup));
      FilesEntryLoads(x, files, doc, fs, lookup);
      assert {} + names == names;
    }
  }

  /** A `badRunIdFile` entry naming files whose runs the cut already holds only records them. */
  lemma FilesEntryLoads(c: EventCuts, files: seq<string>, doc: Section, fs: Csv.FileSystem, lookup: string -> set<nat>)
    requires IdCutValid(c.badRuns)
    requires forall i :: 0 <= i < |files| ==> files[i] in fs && Csv.Values(Csv.Rows(fs[files[i]])) <= c.badRuns.ids
    ensures EventEntry(c, Entry(BadRunIdFileKey, List(Texts(files))), doc, fs, lookup) ==
      Ok(c.(badRunIdFiles := c.badRunIdFiles + Elements(files)))
  {
    LoadFiles(c, files, fs);
  }

  // The whole section.

  /** The variant entry a written section carries is the first `refMultType` in it. */
  lemma WrittenMultKind(c: EventCuts, ids: seq<nat>, tokens: seq<string>, runs: seq<nat>, files: seq<string>)
    requires c.refMult.active
    ensures Lookup(EventDocument(c, ids, tokens, runs, files), RefMultTypeKey) == Some(Value(Count(c.refMult.kind)))
  {
    var vertex, lists := VertexPart(c), ListsPart(c, ids, tokens, runs, files);
    LookupAppend(vertex + MultPart(c.refMult), lists, RefMultTypeKey);
    LookupAppend(vertex, MultPart(c.refMult), RefMultTypeKey);
    VertexOmitsMultKind(c);
  }

  lemma VertexOmitsMultKind(c: EventCuts)
    ensures Lookup(VertexPart(c), RefMultTypeKey).None?
  {
    var p1, p2, p3 := WindowPart(VxKey, c.vx), WindowPart(VyKey, c.vy), WindowPart(VzKey, c.vz);
    var p4, p5 := LimitPart(VrKey, c.vr), LimitPart(DVzKey, c.dvz);
    LookupAppend(p1, p2, RefMultTypeKey);
    LookupAppend(p1 + p2, p3, RefMultTypeKey);
    LookupAppend(p1 + p2 + p3, p4, RefMultTypeKey);
    LookupAppend(p1 + p2 + p3 + p4, p5, RefMultTypeKey);
  }

  /** The vertex entries, loaded into a state where those cuts are still off. */
  lemma LoadVertexPart(x: EventCuts, c: EventCuts, doc: Section, fs: Csv.FileSystem, lookup: string -> set<nat>)
    requires Valid(c) && x.vx == x.vy == x.vz == Off && x.vr == x.dvz == NoLimit
    ensures Fold(x, VertexPart(c), EventStep(doc, fs, lookup)) ==
      Ok(x.(vx := c.vx, vy := c.vy, vz := c.vz, vr := c.vr, dvz := c.dvz))
  {
    var step := EventStep(doc, fs, lookup);
    var p1, p2, p3 := WindowPart(VxKey, c.vx), WindowPart(VyKey, c.vy), WindowPart(VzKey, c.vz);
    var p4, p5 := LimitPart(VrKey, c.vr), LimitPart(DVzKey, c.dvz);
    var x1 := x.(vx := c.vx);
    var x2 := x1.(vy := c.vy);
    var x3 := x2.(vz := c.vz);
    var x4 := x3.(vr := c.vr);
    LoadVxPart(x, c.vx, doc, fs, lookup);
    LoadVyPart(x1, c.vy, doc, fs, lookup);
    FoldAppend(x, p1, p2, step);
    LoadVzPart(x2, c.vz, doc, fs, lookup);
    FoldAppend(x, p1 + p2, p3, step);
    LoadVrPart(x3, c.vr, doc, fs, lookup);
    FoldAppend(x, p1 + p2 + p3, p4, step);
    LoadDVzPart(x4, c.dvz, doc, fs, lookup);
    FoldAppend(x, p1 + p2 + p3 + p4, p5, step);
  }

  /** The list entries, loaded into a state where those cuts are still off. */
  lemma LoadListsPart(x: EventCuts, c: EventCuts, ids: seq<nat>, tokens: seq<string>, runs: seq<nat>, files: seq<string>,
                      doc: Section, fs: Csv.FileSystem, lookup: string -> set<nat>)
    requires Consistent(c, fs, lookup)
    requires Enumerates(ids, c.triggers.ids) && Enumerates(tokens, c.triggerIdStrings)
    requires Enumerates(runs, c.badRuns.ids) && Enumerates(files, c.badRunIdFiles)
    requires x.triggers == x.badRuns == NoIds && x.badRunIdFiles == {}
    ensures Fold(x, ListsPart(c, ids, tokens, runs, files), EventStep(doc, fs, lookup)) ==
      Ok(x.(triggers := c.triggers, triggerIdStrings := x.triggerIdStrings + c.triggerIdStrings,
            badRuns := c.badRuns, badRunIdFiles := c.badRunIdFiles))
  {
    var step := EventStep(doc, fs, lookup);
    var p1 := ListPart(TriggerIdKey, c.triggers.active, Counts(ids));
    var p2 := ListPart(TriggerIdStringKey, c.triggerIdStrings != {}, Texts(tokens));
    var p3 := ListPart(BadRunIdKey, c.badRuns.active, Counts(runs));
    var p4 := ListPart(BadRunIdFileKey, c.badRunIdFiles != {}, Texts(files));
    var x1 := x.(triggers := c.triggers);
    var x2 := x1.(triggerIdStrings := x.triggerIdStrings + c.triggerIdStrings);
    var x3 := x2.(badRuns := c.badRuns);
    LoadIdsPart(x, c.triggers, ids, doc, fs, lookup);
    LoadTokensPart(x1, c.triggerIdStrings, tokens, doc, fs, lookup);
    FoldAppend(x, p1, p2, step);
    LoadRunsPart(x2, c.badRuns, runs, doc, fs, lookup);
    FoldAppend(x, p1 + p2, p3, step);
    LoadFilesPart(x3, c.badRunIdFiles, files, doc, fs, lookup);
    FoldAppend(x, p1 + p2 + p3, p4, step);
  }

  /**
   * Loading a written section into a cleared selector rebuilds the cuts it
   * was written from; the trigger names the cleared selector still held are
   * kept beside the ones read.
   */
  lemma LoadDescription(c: EventCuts, ids: seq<nat>, tokens: seq<string>, runs: seq<nat>, files: seq<string>,
                        s0: set<string>, fs: Csv.FileSystem, lookup: string -> set<nat>)
    requires Consistent(c, fs, lookup)
    requires Enumerates(ids, c.triggers.ids) && Enumerates(tokens, c.triggerIdStrings)
    requires Enumerates(runs, c.badRuns.ids) && Enumerates(files, c.badRunIdFiles)
    ensures Load(Cleared(s0), EventDocument(c, ids, tokens, runs, files), fs, lookup) ==
      Ok(c.(triggerIdStrings := s0 + c.triggerIdStrings))
  {
    var doc := EventDocument(c, ids, tokens, runs, files);
    var step := EventStep(doc, fs, lookup);
    var vertex, mult, lists := VertexPart(c), MultPart(c.refMult), ListsPart(c, ids, tokens, runs, files);
    var x0 := Cleared(s0);
    var x1 := x0.(vx := c.vx, vy := c.vy, vz := c.vz, vr := c.vr, dvz := c.dvz);
    var x2 := x1.(refMult := c.refMult);
    LoadVertexPart(x0, c, doc, fs, lookup);
    if c.refMult.active {
      WrittenMultKind(c, ids, tokens, runs, files);
    }
    LoadMultPart(x1, c.refMult, doc, fs, lookup);
    FoldAppend(x0, vertex, mult, step);
    LoadListsPart(x2, c, ids, tokens, runs, files, doc, fs, lookup);
    FoldAppend(x0, vertex + mult, lists, step);
  }

  /** A section written for consistent cuts, in any listing order, loads back into a fresh selector as those cuts. */
  lemma WrittenSectionReloads(c: EventCuts, doc: Section, fs: Csv.FileSystem, lookup: string -> set<nat>)
    requires Consistent(c, fs, lookup) && Describes(c, doc)
    ensures Load(Cleared({}), doc, fs, lookup) == Ok(c)
  {
    var ids, tokens, runs, files :|
      Enumerates(ids, c.triggers.ids) && Enumerates(tokens, c.triggerIdStrings) &&
      Enumerates(runs, c.badRuns.ids) && Enumerates(files, c.badRunIdFiles) &&
      doc == EventDocument(c, ids, tokens, runs, files);
    LoadDescription(c, ids, tokens, runs, files, {}, fs, lookup);
    assert {} + c.triggerIdStrings == c.triggerIdStrings;
  }

  // Loading keeps the cuts consistent.

  lemma IdStepKeepsConsistent(y: EventCuts, u: Scalar, fs: Csv.FileSystem, lookup: string -> set<nat>)
    requires Consistent(y, fs, lookup) && AddIdStep(y, u).Ok?
    ensures Consistent(AddIdStep(y, u).value, fs, lookup)
  {
  }

  lemma TokenStepKeepsConsistent(y: EventCuts, u: Scalar, fs: Csv.FileSystem, lookup: string -> set<nat>)
    requires Consistent(y, fs, lookup) && AddTokenStep(lookup, y, u).Ok?
    ensures Consistent(AddTokenStep(lookup, y, u).value, fs, lookup)
  {
  }

  lemma FileStepKeepsConsistent(y: EventCuts, u: Scalar, fs: Csv.FileSystem, lookup: string -> set<nat>)
    requires Consistent(y, fs, lookup) && AddFileStep(fs, y, u).Ok?
    ensures Consistent(AddFileStep(fs, y, u).value, fs, lookup)
  {
  }

  lemma IdItemsKeepConsistent(c: EventCuts, items: seq<Scalar>, fs: Csv.FileSystem, lookup: string -> set<nat>)
    requires Consistent(c, fs, lookup) && Fold(c, items, AddIdStep).Ok?
    ensures Consistent(Fold(c, items, AddIdStep).value, fs, lookup)
  {
    var inv := (y: EventCuts) => Consistent(y, fs, lookup);
    forall y, u | inv(y) && AddIdStep(y, u).Ok? ensures inv(AddIdStep(y, u).value) {
      IdStepKeepsConsistent(y, u, fs, lookup);
    }
    FoldKeeps(c, items, AddIdStep, inv);
  }

  lemma TokenItemsKeepConsistent(c: EventCuts, items: seq<Scalar>, fs: Csv.FileSystem, lookup: string -> set<nat>)
    requires Consistent(c, fs, lookup) && Fold(c, items, TokenStep(lookup)).Ok?
    ensures Consistent(Fold(c, items, TokenStep(lookup)).value, fs, lookup)
  {
    var inv := (y: EventCuts) => Consistent(y, fs, lookup);
    forall y, u | inv(y) && TokenStep(lookup)(y, u).Ok? ensures inv(TokenStep(lookup)(y, u).value) {
      TokenStepKeepsConsistent(y, u, fs, lookup);
    }
    FoldKeeps(c, items, TokenStep(lookup), inv);
  }

  lemma FileItemsKeepConsistent(c: EventCuts, items: seq<Scalar>, fs: Csv.FileSystem, lookup: string -> set<nat>)
    requires Consistent(c, fs, lookup) && Fold(c, items, FileStep(fs)).Ok?
    ensures Consistent(Fold(c, items, FileStep(fs)).value, fs, lookup)
  {
    var inv := (y: EventCuts) => Consistent(y, fs, lookup);
    forall y, u | inv(y) && FileStep(fs)(y, u).Ok? ensures inv(FileStep(fs)(y, u).value) {
      FileStepKeepsConsistent(y, u, fs, lookup);
    }
    FoldKeeps(c, items, FileStep(fs), inv);
  }

  /** Every entry that loads keeps the cuts consistent. */
  lemma EntryKeepsConsistent(c: EventCuts, e: Entry, doc: Section, fs: Csv.FileSystem, lookup: string -> set<nat>)
    requires Consistent(c, fs, lookup) && EventEntry(c, e, doc, fs, lookup).Ok?
    ensures Consistent(EventEntry(c, e, doc, fs, lookup).value, fs, lookup)
  {
    if e.key == TriggerIdKey {
      IdItemsKeepConsistent(c, Items(e.node), fs, lookup);
    } else if e.key == TriggerIdStringKey {
      TokenItemsKeepConsistent(c, Items(e.node), fs, lookup);
    } else if e.key == BadRunIdFileKey {
      FileItemsKeepConsistent(c, Items(e.node), fs, lookup);
    } else if e.key == BadRunIdKey || e.key == RefMultRangeKey {
      // Adding runs or setting the multiplicity cut keeps the cuts valid and covers more.
    } else if e.key == VxKey || e.key == VyKey || e.key == VzKey {
      // So does setting a vertex window.
    }
  }

  /** Loading a section into consistent cuts gives consistent cuts. */
  lemma LoadKeepsConsistent(c: EventCuts, doc: Section, fs: Csv.FileSystem, lookup: string -> set<nat>)
    requires Consistent(c, fs, lookup) && Load(c, doc, fs, lookup).Ok?
    ensures Consistent(Load(c, doc, fs, lookup).value, fs, lookup)
  {
    var inv := (y: EventCuts) => Consistent(y, fs, lookup);
    var step := EventStep(doc, fs, lookup);
    forall y, e | inv(y) && step(y, e).Ok? ensures inv(step(y, e).value) {
      EntryKeepsConsistent(y, e, doc, fs, lookup);
    }
    FoldKeeps(c, doc, step, inv);
  }

  /**
   * What a fresh selector loads, readConfig writes out so that it loads back
   * as the same cuts: loading then writing then loading is loading.
   */
  lemma LoadedSelectorReloads(c: EventCuts, doc: Section, written: Section, fs: Csv.FileSystem, lookup: string -> set<nat>)
    requires Load(Cleared({}), doc, fs, lookup) == Ok(c)
    requires Describes(c, written)
    ensures Load(Cleared({}), written, fs, lookup) == Ok(c)
  {
    LoadKeepsConsistent(Cleared({}), doc, fs, lookup);
    WrittenSectionReloads(c, written, fs, lookup);
  }

  // clear keeps the trigger tokens.

  /**
   * A selector cleared after a token that names some trigger ids was added
   * accepts every event, yet the section readConfig writes for it lists the
   * token, and loading that section switches the trigger cut back on.
   */
  lemma ClearedTokenRevivesTriggers(token: string, fs: Csv.FileSystem, lookup: string -> set<nat>)
    requires lookup(token) != {}
    ensures Valid(Cleared({token})) && !Cleared({token}).triggers.active
    ensures Describes(Cleared({token}), [Entry(TriggerIdStringKey, List([Text(token)]))])
    ensures Load(Cleared({}), [Entry(TriggerIdStringKey, List([Text(token)]))], fs, lookup) ==
      Ok(Cleared({token}).(triggers := IdCut(true, lookup(token))))
  {
    var c := Cleared({token});
    var doc := [Entry(TriggerIdStringKey, List([Text(token)]))];
    WrittenClearedSelector(token);
    var x := Cleared({});
    FoldSingle(x, doc[0], EventStep(doc, fs, lookup));
    assert Items(doc[0].node) == [Text(token)];
    FoldSingle(x, Text(token), TokenStep(lookup));
    assert WithTriggerIds(x, token, lookup(token)) == c.(triggers := IdCut(true, lookup(token)));
  }

  lemma WrittenClearedSelector(token: string)
    ensures Describes(Cleared({token}), [Entry(TriggerIdStringKey, List([Text(token)]))])
  {
    var c := Cleared({token});
    assert Enumerates([], c.triggers.ids) && Enumerates([token], c.triggerIdStrings);
    assert Enumerates([], c.badRuns.ids) && Enumerates([], c.badRunIdFiles);
    assert VertexPart(c) == [] && MultPart(c.refMult) == [];
    assert Texts([token]) == [Text(token)];
    assert ListsPart(c, [], [token], [], []) == [Entry(TriggerIdStringKey, List([Text(token)]))];
    assert EventDocument(c, [], [token], [], []) == [Entry(TriggerIdStringKey, List([Text(token)]))];
  }

  /** With the tokens forgotten too, the cleared selector's section loads back as a cleared selector. */
  lemma FullyClearedReloads(doc: Section, fs: Csv.FileSystem, lookup: string -> set<nat>)
    requires Describes(Cleared({}), doc)
    ensures Load(Cleared({}), doc, fs, lookup) == Ok(Cleared({}))
  {
    WrittenSectionReloads(Cleared({}), doc, fs, lookup);
  }
}
