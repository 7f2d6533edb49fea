/**
 * TowerSelectorConfigHelper of reader/config/tower_selector_config_helper.cc:
 * loading a tower selector's cuts from a configuration section, and
 * writing a selector's cuts out as one.
 */
module TowerSelectorConfig {
  import opened Wrappers
  import opened CutTypes
  import opened ConfigDocument
  import opened TowerSelection
  import Csv

  const BadTowersKey := "badTowers"
  const BadTowerFilesKey := "badTowerFiles"
  const EtMaxKey := "EtMax"
  const EtMinKey := "EtMin"
  const RejectEventKey := "rejectEventOnMaxEtFailure"

  predicate Known(key: string)
  {
    key in {BadTowersKey, BadTowerFilesKey, EtMaxKey, EtMinKey, RejectEventKey}
  }

  // One item of a list entry.

  /** Each tower id is masked on its own, switching the mask on. */
  function AddTowerStep(c: TowerCuts, s: Scalar): Result<TowerCuts>
  {
    var id := AsCount(s);
    if id.Fatal? then Fatal(id.reason) else Ok(WithBadTower(c, id.value))
  }

  /** A bad-tower file is read through the file system; a file it cannot open is fatal. */
  function AddTowerFileStep(fs: Csv.FileSystem, c: TowerCuts, s: Scalar): Result<TowerCuts>
  {
    var file := AsText(s);
    if file.Fatal? then Fatal(file.reason)
    else if file.value !in fs then Fatal(Csv.CouldNotOpen)
    else Ok(WithBadTowerFile(c, file.value, Csv.Rows(fs[file.value])))
  }

  function TowerFileStep(fs: Csv.FileSystem): (TowerCuts, Scalar) -> Result<TowerCuts>
  {
    (c: TowerCuts, s: Scalar) => AddTowerFileStep(fs, c, s)
  }

  /**
   * The effect of one entry on the cuts: the setter its key names, with the
   * value converted as that setter's argument; a list entry applies its
   * setter item by item. A conversion that does not fit, a value the
   * setter's assertion refuses or a file that cannot be opened is fatal;
   * any other key is only reported.
   */
  function TowerEntry(c: TowerCuts, e: Entry, fs: Csv.FileSystem): (r: Result<TowerCuts>)
    ensures !Known(e.key) ==> r == Ok(c)
  {
    var n := e.node;
    if e.key == EtMinKey then
      var x := PositiveOf(n);
      if x.Fatal? then Fatal(x.reason) else Ok(WithEtMin(c, x.value))
    else if e.key == EtMaxKey then
      var x := PositiveOf(n);
      if x.Fatal? then Fatal(x.reason) else Ok(WithEtMax(c, x.value))
    else if e.key == RejectEventKey then
      var b := NodeFlag(n);
      if b.Fatal? then Fatal(b.reason) else Ok(WithRejectEventOnEtFailure(c, b.value))
    else if e.key == BadTowersKey then Fold(c, Items(n), AddTowerStep)
    else if e.key == BadTowerFilesKey then Fold(c, Items(n), TowerFileStep(fs))
    else Ok(c)
  }

  function TowerStep(fs: Csv.FileSystem): (TowerCuts, Entry) -> Result<TowerCuts>
  {
    (c: TowerCuts, e: Entry) => TowerEntry(c, e, fs)
  }

  /** loadConfig: the entries applied in document order; the first fatal one ends the load. */
  function Load(c: TowerCuts, doc: Section, fs: Csv.FileSystem): Result<TowerCuts>
  {
    Fold(c, doc, TowerStep(fs))
  }

  method AddTowerItems(sel: TowerSelector, items: seq<Scalar>) returns (r: Result<()>)
    modifies sel
    ensures r.Ok? <==> Fold(old(sel.Cuts()), items, AddTowerStep).Ok?
    ensures r.Ok? ==> sel.Cuts() == Fold(old(sel.Cuts()), items, AddTowerStep).value
  {
    var i := 0;
    while i < |items|
      invariant 0 <= i <= |items|
      invariant Fold(old(sel.Cuts()), items[..i], AddTowerStep) == Ok(sel.Cuts())
    {
      FoldStep(old(sel.Cuts()), items, i, AddTowerStep);
      var id := AsCount(items[i]);
      if id.Fatal? {
        FoldFatalStays(old(sel.Cuts()), items, i + 1, AddTowerStep);
        return Fatal(id.reason);
      }
      sel.AddBadTower(id.value);
      i := i + 1;
    }
    assert items[..i] == items;
    return Ok(());
  }

  method AddTowerFileItems(sel: TowerSelector, items: seq<Scalar>, fs: Csv.FileSystem) returns (r: Result<()>)
    modifies sel
    ensures r.Ok? <==> Fold(old(sel.Cuts()), items, TowerFileStep(fs)).Ok?
    ensures r.Ok? ==> sel.Cuts() == Fold(old(sel.Cuts()), items, TowerFileStep(fs)).value
  {
    var i := 0;
    while i < |items|
      invariant 0 <= i <= |items|
      invariant Fold(old(sel.Cuts()), items[..i], TowerFileStep(fs)) == Ok(sel.Cuts())
    {
      FoldStep(old(sel.Cuts()), items, i, TowerFileStep(fs));
      var file := AsText(items[i]);
      if file.Fatal? {
        FoldFatalStays(old(sel.Cuts()), items, i + 1, TowerFileStep(fs));
        return Fatal(file.reason);
      }
      var added := sel.AddBadTowerFile(file.value, fs);
      if added.Fatal? {
        FoldFatalStays(old(sel.Cuts()), items, i + 1, TowerFileStep(fs));
        return added;
      }
      i := i + 1;
    }
    assert items[..i] == items;
    return Ok(());
  }

  /** One entry: the setter its key selects. */
  method LoadEntry(sel: TowerSelector, e: Entry, fs: Csv.FileSystem) returns (r: Result<()>)
    modifies sel
    ensures r.Ok? <==> TowerEntry(old(sel.Cuts()), e, fs).Ok?
    ensures r.Ok? ==> sel.Cuts() == TowerEntry(old(sel.Cuts()), e, fs).value
  {
    var n := e.node;
    if e.key == EtMinKey || e.key == EtMaxKey {
      var x := PositiveOf(n);
      if x.Fatal? {
        return Fatal(x.reason);
      }
      if e.key == EtMinKey {
        sel.SetEtMin(x.value);
      } else {
        sel.SetEtMax(x.value);
      }
    } else if e.key == RejectEventKey {
      var b := NodeFlag(n);
      if b.Fatal? {
        return Fatal(b.reason);
      }
      sel.RejectEventOnEtFailure(b.value);
    } else if e.key == BadTowersKey {
      r := AddTowerItems(sel, Items(n));
      return;
    } else if e.key == BadTowerFilesKey {
      r := AddTowerFileItems(sel, Items(n), fs);
      return;
    }
    // Any other key is only reported.
    r := Ok(());
  }

  /** loadConfig: proved against `Load`. */
  method LoadConfig(sel: TowerSelector, doc: Section, fs: Csv.FileSystem) returns (r: Result<()>)
    modifies sel
    ensures r.Ok? <==> Load(old(sel.Cuts()), doc, fs).Ok?
    ensures r.Ok? ==> sel.Cuts() == Load(old(sel.Cuts()), doc, fs).value
  {
    var i := 0;
    while i < |doc|
      invariant 0 <= i <= |doc|
      invariant Fold(old(sel.Cuts()), doc[..i], TowerStep(fs)) == Ok(sel.Cuts())
    {
      FoldStep(old(sel.Cuts()), doc, i, TowerStep(fs));
      r := LoadEntry(sel, doc[i], fs);
      if r.Fatal? {
        FoldFatalStays(old(sel.Cuts()), doc, i + 1, TowerStep(fs));
        return r;
      }
      i := i + 1;
    }
    assert doc[..i] == doc;
    return Ok(());
  }

  // Writing.

  /** The energy cuts and the escalation flag, which is always written. */
  function EnergyPart(c: TowerCuts): Section
  {
    FloorPart(EtMinKey, c.etMin) + LimitPart(EtMaxKey, c.etMax) + FlagPart(RejectEventKey, c.rejectEventOnEtFailure)
  }

  /** The masked towers while the mask is on, and the bad-tower files when there are any. */
  function ListsPart(c: TowerCuts, towers: seq<nat>, files: seq<string>): Section
  {
    ListPart(BadTowersKey, c.badTowers.active, Counts(towers)) +
    ListPart(BadTowerFilesKey, c.badTowerFiles != {}, Texts(files))
  }

  /** The section readConfig writes, with the towers and files listed as `towers` and `files`. */
  function TowerDocument(c: TowerCuts, towers: seq<nat>, files: seq<string>): Section
  {
    EnergyPart(c) + ListsPart(c, towers, files)
  }

  /** `doc` is what readConfig writes for `c`, with each set listed in some order. */
  ghost predicate Describes(c: TowerCuts, doc: Section)
  {
    exists towers, files :: Enumerates(towers, c.badTowers.ids) && Enumerates(files, c.badTowerFiles) &&
      doc == TowerDocument(c, towers, files)
  }

  /** readConfig: each active cut written in turn; the tower and file sets listed element by element. */
  method ReadConfig(sel: TowerSelector) returns (doc: Section)
    ensures Describes(sel.Cuts(), doc)
  {
    var c := sel.Cuts();
    var energy := FloorPart(EtMinKey, c.etMin) + LimitPart(EtMaxKey, c.etMax);
    energy := energy + FlagPart(RejectEventKey, c.rejectEventOnEtFailure);
    var towers := ListSet(c.badTowers.ids);
    var lists := ListPart(BadTowersKey, c.badTowers.active, Counts(towers));
    var files := ListSet(c.badTowerFiles);
    lists := lists + ListPart(BadTowerFilesKey, c.badTowerFiles != {}, Texts(files));
    doc := energy + lists;
    assert doc == TowerDocument(c, towers, files);
  }

  // Reading back what was written.

  /** Every recorded bad-tower file can be opened and names only towers the mask holds. */
  predicate FilesCovered(c: TowerCuts, fs: Csv.FileSystem)
  {
    forall f :: f in c.badTowerFiles ==> f in fs && Csv.Values(Csv.Rows(fs[f])) <= c.badTowers.ids
  }

  /** What the setters and loading keep: a valid state whose recorded files are reflected in its mask. */
  predicate Consistent(c: TowerCuts, fs: Csv.FileSystem)
  {
    Valid(c) && FilesCovered(c, fs)
  }

  lemma {:induction false} LoadTowers(x: TowerCuts, towers: seq<nat>)
    ensures Fold(x, Counts(towers), AddTowerStep) ==
      Ok(x.(badTowers := IdCut(x.badTowers.active || towers != [], x.badTowers.ids + Elements(towers))))
    decreases |towers|
  {
    if towers == [] {
      assert x.badTowers == IdCut(x.badTowers.active, x.badTowers.ids + {});
    } else {
      var init, last := towers[..|towers| - 1], towers[|towers| - 1];
      assert Counts(towers)[..|towers| - 1] == Counts(init);
      LoadTowers(x, init);
      assert x.badTowers.ids + Elements(init) + {last} == x.badTowers.ids + Elements(towers);
    }
  }

  lemma {:induction false} LoadTowerFiles(x: TowerCuts, files: seq<string>, fs: Csv.FileSystem)
    requires IdCutValid(x.badTowers)
    requires forall i :: 0 <= i < |files| ==> files[i] in fs && Csv.Values(Csv.Rows(fs[files[i]])) <= x.badTowers.ids
    ensures Fold(x, Texts(files), TowerFileStep(fs)) == Ok(x.(badTowerFiles := x.badTowerFiles + Elements(files)))
    decreases |files|
  {
    if files == [] {
      assert x.badTowerFiles + {} == x.badTowerFiles;
    } else {
      var init, last := files[..|files| - 1], files[|files| - 1];
      assert Texts(files)[..|files| - 1] == Texts(init);
      LoadTowerFiles(x, init, fs);
      var y := x.(badTowerFiles := x.badTowerFiles + Elements(init));
      assert Fold(x, Texts(files), TowerFileStep(fs)) == AddTowerFileStep(fs, y, Text(last));
      FileAlreadyCovered(y, last, fs);
      assert y.badTowerFiles + {last} == x.badTowerFiles + Elements(files);
    }
  }

  /** A file whose towers the mask already holds is only recorded. */
  lemma FileAlreadyCovered(c: TowerCuts, file: string, fs: Csv.FileSystem)
    requires IdCutValid(c.badTowers) && file in fs && Csv.Values(Csv.Rows(fs[file])) <= c.badTowers.ids
    ensures WithBadTowerFile(c, file, Csv.Rows(fs[file])) == c.(badTowerFiles := c.badTowerFiles + {file})
  {
    var v := Csv.Values(Csv.Rows(fs[file]));
    assert c.badTowers.ids + v == c.badTowers.ids;
  }

  /** The energy entries, loaded into a state where those cuts are still off. */
  lemma LoadEnergyPart(x: TowerCuts, c: TowerCuts, fs: Csv.FileSystem)
    requires Valid(c) && x.etMin == NoFloor && x.etMax == NoLimit
    ensures Fold(x, EnergyPart(c), TowerStep(fs)) ==
      Ok(x.(etMin := c.etMin, etMax := c.etMax, rejectEventOnEtFailure := c.rejectEventOnEtFailure))
  {
    var step := TowerStep(fs);
    var p1, p2, p3 := FloorPart(EtMinKey, c.etMin), LimitPart(EtMaxKey, c.etMax), FlagPart(RejectEventKey, c.rejectEventOnEtFailure);
    var x1 := x.(etMin := c.etMin);
    var x2 := x1.(etMax := c.etMax);
    if c.etMin.active {
      FoldSingle(x, p1[0], step);
      assert TowerEntry(x, p1[0], fs) == Ok(WithEtMin(x, c.etMin.min));
    }
    if c.etMax.active {
      FoldSingle(x1, p2[0], step);
      assert TowerEntry(x1, p2[0], fs) == Ok(WithEtMax(x1, c.etMax.max));
    }
    FoldAppend(x, p1, p2, step);
    FoldSingle(x2, p3[0], step);
    assert TowerEntry(x2, p3[0], fs) == Ok(WithRejectEventOnEtFailure(x2, c.rejectEventOnEtFailure));
    FoldAppend(x, p1 + p2, p3, step);
  }

  lemma LoadTowersPart(x: TowerCuts, t: IdCut, towers: seq<nat>, fs: Csv.FileSystem)
    requires IdCutValid(t) && Enumerates(towers, t.ids) && x.badTowers == NoIds
    ensures Fold(x, ListPart(BadTowersKey, t.active, Counts(towers)), TowerStep(fs)) == Ok(x.(badTowers := t))
  {
    if t.active {
      FoldSingle(x, Entry(BadTowersKey, List(Counts(towers))), TowerStep(fs));
      TowersEntryLoads(x, towers, fs);
      EnumeratedSet(towers, t.ids);
      assert x.badTowers.ids + t.ids == t.ids;
    }
  }

  /** A `badTowers` entry listing `towers` masks them all and switches the mask on when there is one. */
  lemma TowersEntryLoads(c: TowerCuts, towers: seq<nat>, fs: Csv.FileSystem)
    ensures TowerEntry(c, Entry(BadTowersKey, List(Counts(towers))), fs) ==
      Ok(c.(badTowers := IdCut(c.badTowers.active || towers != [], c.badTowers.ids + Elements(towers))))
  {
    LoadTowers(c, towers);
  }

  lemma LoadFilesPart(x: TowerCuts, names: set<string>, files: seq<string>, fs: Csv.FileSystem)
    requires Enumerates(files, names) && IdCutValid(x.badTowers) && x.badTowerFiles == {}
    requires forall f :: f in names ==> f in fs && Csv.Values(Csv.Rows(fs[f])) <= x.badTowers.ids
    ensures Fold(x, ListPart(BadTowerFilesKey, names != {}, Texts(files)), TowerStep(fs)) ==
      Ok(x.(badTowerFiles := names))
  {
    EnumeratedSet(files, names);
    if names != {} {
      FoldSingle(x, Entry(BadTowerFilesKey, List(Texts(files))), TowerStep(fs));
      FilesEntryLoads(x, files, fs);
      assert {} + names == names;
    }
  }

  /** A `badTowerFiles` entry naming files whose towers the mask already holds only records them. */
  lemma FilesEntryLoads(c: TowerCuts, files: seq<string>, fs: Csv.FileSystem)
    requires IdCutValid(c.badTowers)
    requires forall i :: 0 <= i < |files| ==> files[i] in fs && Csv.Values(Csv.Rows(fs[files[i]])) <= c.badTowers.ids
    ensures TowerEntry(c, Entry(BadTowerFilesKey, List(Texts(files))), fs) ==
      Ok(c.(badTowerFiles := c.badTowerFiles + Elements(files)))
  {
    LoadTowerFiles(c, files, fs);
  }

  /** The energy cuts and the tower mask of a written section load into a cleared selector as those of `c`. */
  lemma LoadEnergyAndTowers(c: TowerCuts, towers: seq<nat>, fs: Csv.FileSystem)
    requires Consistent(c, fs) && Enumerates(towers, c.badTowers.ids)
    ensures Fold(Cleared, EnergyPart(c) + ListPart(BadTowersKey, c.badTowers.active, Counts(towers)), TowerStep(fs)) ==
      Ok(Cleared.(etMin := c.etMin, etMax := c.etMax, rejectEventOnEtFailure := c.rejectEventOnEtFailure,
                  badTowers := c.badTowers))
  {
    var x1 := Cleared.(etMin := c.etMin, etMax := c.etMax, rejectEventOnEtFailure := c.rejectEventOnEtFailure);
    LoadEnergyPart(Cleared, c, fs);
    LoadTowersPart(x1, c.badTowers, towers, fs);
    FoldAppend(Cleared, EnergyPart(c), ListPart(BadTowersKey, c.badTowers.active, Counts(towers)), TowerStep(fs));
  }

  /** Loading a written section into a cleared selector rebuilds the cuts it was written from. */
  lemma LoadDescription(c: TowerCuts, towers: seq<nat>, files: seq<string>, fs: Csv.FileSystem)
    requires Consistent(c, fs)
    requires Enumerates(towers, c.badTowers.ids) && Enumerates(files, c.badTowerFiles)
    ensures Load(Cleared, TowerDocument(c, towers, files), fs) == Ok(c)
  {
    var front := EnergyPart(c) + ListPart(BadTowersKey, c.badTowers.active, Counts(towers));
    var p2 := ListPart(BadTowerFilesKey, c.badTowerFiles != {}, Texts(files));
    var x2 := Cleared.(etMin := c.etMin, etMax := c.etMax, rejectEventOnEtFailure := c.rejectEventOnEtFailure,
                       badTowers := c.badTowers);
    LoadEnergyAndTowers(c, towers, fs);
    LoadFilesPart(x2, c.badTowerFiles, files, fs);
    FoldAppend(Cleared, front, p2, TowerStep(fs));
    assert TowerDocument(c, towers, files) == front + p2;
  }

  /** A section written for consistent cuts, in any listing order, loads back into a fresh selector as those cuts. */
  lemma WrittenSectionReloads(c: TowerCuts, doc: Section, fs: Csv.FileSystem)
    requires Consistent(c, fs) && Describes(c, doc)
    ensures Load(Cleared, doc, fs) == Ok(c)
  {
    var towers, files :| Enumerates(towers, c.badTowers.ids) && Enumerates(files, c.badTowerFiles) &&
      doc == TowerDocument(c, towers, files);
    LoadDescription(c, towers, files, fs);
  }

  // Loading keeps the cuts consistent.

  lemma TowerItemsKeepConsistent(c: TowerCuts, items: seq<Scalar>, fs: Csv.FileSystem)
    requires Consistent(c, fs) && Fold(c, items, AddTowerStep).Ok?
    ensures Consistent(Fold(c, items, AddTowerStep).value, fs)
  {
    var inv := (y: TowerCuts) => Consistent(y, fs);
    forall y, u | inv(y) && AddTowerStep(y, u).Ok? ensures inv(AddTowerStep(y, u).value) {
    }
    FoldKeeps(c, items, AddTowerStep, inv);
  }

  lemma FileStepKeepsConsistent(y: TowerCuts, u: Scalar, fs: Csv.FileSystem)
    requires Consistent(y, fs) && AddTowerFileStep(fs, y, u).Ok?
    ensures Consistent(AddTowerFileStep(fs, y, u).value, fs)
  {
  }

  lemma FileItemsKeepConsistent(c: TowerCuts, items: seq<Scalar>, fs: Csv.FileSystem)
    requires Consistent(c, fs) && Fold(c, items, TowerFileStep(fs)).Ok?
    ensures Consistent(Fold(c, items, TowerFileStep(fs)).value, fs)
  {
    var inv := (y: TowerCuts) => Consistent(y, fs);
    forall y, u | inv(y) && TowerFileStep(fs)(y, u).Ok? ensures inv(TowerFileStep(fs)(y, u).value) {
      FileStepKeepsConsistent(y, u, fs);
    }
    FoldKeeps(c, items, TowerFileStep(fs), inv);
  }

  /** Every entry that loads keeps the cuts consistent. */
  lemma EntryKeepsConsistent(c: TowerCuts, e: Entry, fs: Csv.FileSystem)
    requires Consistent(c, fs) && TowerEntry(c, e, fs).Ok?
    ensures Consistent(TowerEntry(c, e, fs).value, fs)
  {
    if e.key == BadTowersKey {
      TowerItemsKeepConsistent(c, Items(e.node), fs);
    } else if e.key == BadTowerFilesKey {
      FileItemsKeepConsistent(c, Items(e.node), fs);
    }
  }

  /** Loading a section into consistent cuts gives consistent cuts. */
  lemma LoadKeepsConsistent(c: TowerCuts, doc: Section, fs: Csv.FileSystem)
    requires Consistent(c, fs) && Load(c, doc, fs).Ok?
    ensures Consistent(Load(c, doc, fs).value, fs)
  {
    var inv := (y: TowerCuts) => Consistent(y, fs);
    var step := TowerStep(fs);
    forall y, e | inv(y) && step(y, e).Ok? ensures inv(step(y, e).value) {
      EntryKeepsConsistent(y, e, fs);
    }
    FoldKeeps(c, doc, step, inv);
  }

  /**
   * What a fresh selector loads, readConfig writes out so that it loads back
   * as the same cuts: loading then writing then loading is loading.
   */
  lemma LoadedSelectorReloads(c: TowerCuts, doc: Section, written: Section, fs: Csv.FileSystem)
    requires Load(Cleared, doc, fs) == Ok(c)
    requires Describes(c, written)
    ensures Load(Cleared, written, fs) == Ok(c)
  {
    LoadKeepsConsistent(Cleared, doc, fs);
    WrittenSectionReloads(c, written, fs);
  }
}
