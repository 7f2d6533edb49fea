/**
 * ConfigManager of reader/config/config_manager.cc: routes each top-level
 * section of a configuration document to the helper for the reader or for
 * one of its selectors, and writes all four sections out.
 */
module ConfigManagement {
  import opened Wrappers
  import opened ConfigDocument
  import opened ReaderSpec
  import ReaderPipeline
  import ReaderConfig
  import EventSelection
  import TrackSelection
  import TowerSelection
  import EventSelectorConfig
  import TrackSelectorConfig
  import TowerSelectorConfig
  import Csv
  import TriggerLookup

  const ReaderKey := "reader"
  const TowerSelectorKey := "towerSelector"
  const TrackSelectorKey := "trackSelector"
  const EventSelectorKey := "eventSelector"

  /** The failures of a manager without a reader. */
  const NoReaderToLoad: string := "attempted to load a config, but reader is unspecified"
  const NoReaderToWrite: string := "attempted to write a config, but reader is unspecified"

  /** A top-level entry of a configuration document: a key and its section. */
  datatype Part = Part(key: string, section: Section)

  /** A configuration document: its top-level entries in document order. */
  type Document = seq<Part>

  /** What a configuration acts on: the reader's settings and each selector's cuts, None for a selector the reader lacks. */
  datatype Configured = Configured(
    settings: Settings,
    events: Option<EventSelection.EventCuts>,
    tracks: Option<TrackSelection.TrackCuts>,
    towers: Option<TowerSelection.TowerCuts>)

  /** What a newly constructed reader holds: settings `s` and three cleared selectors. */
  function Fresh(s: Settings): Configured
  {
    Configured(s, Some(EventSelection.Cleared({})), Some(TrackSelection.Cleared), Some(TowerSelection.Cleared))
  }

  /** The cuts a selector section is loaded into: the present selector's, or a fresh selector's. */
  function EventsOrFresh(st: Configured): EventSelection.EventCuts
  {
    if st.events.Some? then st.events.value else EventSelection.Cleared({})
  }

  function TracksOrFresh(st: Configured): TrackSelection.TrackCuts
  {
    if st.tracks.Some? then st.tracks.value else TrackSelection.Cleared
  }

  function TowersOrFresh(st: Configured): TowerSelection.TowerCuts
  {
    if st.towers.Some? then st.towers.value else TowerSelection.Cleared
  }

  /**
   * The effect of one top-level entry: an empty section or a key the
   * manager does not know changes nothing; the reader section goes to the
   * reader's helper; a selector section goes to that selector's helper,
   * a missing selector being replaced by a fresh one first.
   */
  function PartEntry(fs: Csv.FileSystem, st: Configured, p: Part): (r: Result<Configured>)
    ensures |p.section| == 0 ==> r == Ok(st)
    ensures p.key !in {ReaderKey, TowerSelectorKey, TrackSelectorKey, EventSelectorKey} ==> r == Ok(st)
    ensures r.Ok? && p.key != ReaderKey ==> r.value.settings == st.settings
    ensures r.Ok? && p.key != EventSelectorKey ==> r.value.events == st.events
    ensures r.Ok? && p.key != TrackSelectorKey ==> r.value.tracks == st.tracks
    ensures r.Ok? && p.key != TowerSelectorKey ==> r.value.towers == st.towers
    ensures |p.section| > 0 && p.key == TowerSelectorKey ==>
      (r.Ok? <==> TowerSelectorConfig.Load(TowersOrFresh(st), p.section, fs).Ok?) &&
      (r.Ok? ==> r.value.towers == Some(TowerSelectorConfig.Load(TowersOrFresh(st), p.section, fs).value))
    ensures |p.section| > 0 && p.key == TrackSelectorKey ==>
      (r.Ok? <==> TrackSelectorConfig.Load(TracksOrFresh(st), p.section).Ok?) &&
      (r.Ok? ==> r.value.tracks == Some(TrackSelectorConfig.Load(TracksOrFresh(st), p.section).value))
  {
    if |p.section| == 0 then Ok(st)
    else if p.key == ReaderKey then
      var l := ReaderConfig.Load(st.settings, p.section);
      if l.Fatal? then Fatal(l.reason) else Ok(st.(settings := l.value))
    else if p.key == TowerSelectorKey then
      var l := TowerSelectorConfig.Load(TowersOrFresh(st), p.section, fs);
      if l.Fatal? then Fatal(l.reason) else Ok(st.(towers := Some(l.value)))
    else if p.key == TrackSelectorKey then
      var l := TrackSelectorConfig.Load(TracksOrFresh(st), p.section);
      if l.Fatal? then Fatal(l.reason) else Ok(st.(tracks := Some(l.value)))
    else if p.key == EventSelectorKey then
      var l := EventSelectorConfig.Load(EventsOrFresh(st), p.section, fs, TriggerLookup.GetTriggerIDs);
      if l.Fatal? then Fatal(l.reason) else Ok(st.(events := Some(l.value)))
    else Ok(st)
  }

  function PartStep(fs: Csv.FileSystem): (Configured, Part) -> Result<Configured>
  {
    (st: Configured, p: Part) => PartEntry(fs, st, p)
  }

  /** The reader and track sections read no files. */
  lemma FilesUnused(fs: Csv.FileSystem, st: Configured, p: Part)
    requires p.key == ReaderKey || p.key == TrackSelectorKey
    ensures PartEntry(fs, st, p) == PartEntry(map[], st, p)
  {
  }

  /** loadConfig: the top-level entries applied in document order; the first fatal one ends the load. */
  function LoadAll(st: Configured, doc: Document, fs: Csv.FileSystem): Result<Configured>
  {
    Fold(st, doc, PartStep(fs))
  }

  /** `doc` is what writeConfig writes for `st`: the four sections in order, each selector's sets listed in some order. */
  ghost predicate Writes(st: Configured, doc: Document)
  {
    st.events.Some? && st.tracks.Some? && st.towers.Some? &&
    |doc| == 4 &&
    doc[0] == Part(ReaderKey, ReaderConfig.ReaderDocument(st.settings)) &&
    doc[1].key == TowerSelectorKey && TowerSelectorConfig.Describes(st.towers.value, doc[1].section) &&
    doc[2] == Part(TrackSelectorKey, TrackSelectorConfig.TrackDocument(st.tracks.value)) &&
    doc[3].key == EventSelectorKey && EventSelectorConfig.Describes(st.events.value, doc[3].section)
  }

  class ConfigManager {
    const reader: ReaderPipeline.Reader?

    constructor(rdr: ReaderPipeline.Reader?)
      ensures reader == rdr
    {
      reader := rdr;
    }

    /** The reader's settings and the cuts of the selectors it has. */
    function State(): Configured
      requires reader != null
      reads reader, reader.eventSelector, reader.trackSelector, reader.towerSelector
    {
      Configured(
        reader.Settings(),
        if reader.eventSelector == null then None else Some(reader.eventSelector.Cuts()),
        if reader.trackSelector == null then None else Some(reader.trackSelector.Cuts()),
        if reader.towerSelector == null then None else Some(reader.towerSelector.Cuts()))
    }

    /** loadReaderConfig: nothing for an empty section, otherwise the reader's helper. */
    method LoadReaderConfig(section: Section) returns (r: Result<()>)
      requires reader != null
      modifies reader`usePrimary, reader`useHadCorr, reader`hadCorrFraction, reader`useMipCorr
      ensures r.Ok? <==> PartEntry(map[], old(State()), Part(ReaderKey, section)).Ok?
      ensures r.Ok? ==> State() == PartEntry(map[], old(State()), Part(ReaderKey, section)).value
    {
      if |section| == 0 {
        return Ok(());
      }
      r := ReaderConfig.LoadConfig(reader, section);
    }

    /** loadTowerSelectorConfig: nothing for an empty section; a missing selector is replaced by a fresh one before loading. */
    method LoadTowerSelectorConfig(section: Section, fs: Csv.FileSystem) returns (r: Result<()>)
      requires reader != null
      modifies reader`towerSelector, reader.towerSelector
      ensures r.Ok? <==> PartEntry(fs, old(State()), Part(TowerSelectorKey, section)).Ok?
      ensures r.Ok? ==> State() == PartEntry(fs, old(State()), Part(TowerSelectorKey, section)).value
      ensures reader.towerSelector == old(reader.towerSelector) || fresh(reader.towerSelector)
    {
      if |section| == 0 {
        return Ok(());
      }
      if reader.towerSelector == null {
        var sel := new TowerSelection.TowerSelector();
        reader.SetTowerSelector(sel);
      }
      r := TowerSelectorConfig.LoadConfig(reader.towerSelector, section, fs);
    }

    /** loadTrackSelectorConfig: nothing for an empty section; a missing selector is replaced by a fresh one before loading. */
    method LoadTrackSelectorConfig(section: Section) returns (r: Result<()>)
      requires reader != null
      modifies reader`trackSelector, reader.trackSelector
      ensures r.Ok? <==> PartEntry(map[], old(State()), Part(TrackSelectorKey, section)).Ok?
      ensures r.Ok? ==> State() == PartEntry(map[], old(State()), Part(TrackSelectorKey, section)).value
      ensures reader.trackSelector == old(reader.trackSelector) || fresh(reader.trackSelector)
    {
      if |section| == 0 {
        return Ok(());
      }
      if reader.trackSelector == null {
        var sel := new TrackSelection.TrackSelector();
        reader.SetTrackSelector(sel);
      }
      r := TrackSelectorConfig.LoadConfig(reader.trackSelector, section);
    }

    /** loadEventSelectorConfig: nothing for an empty section; a missing selector is replaced by a fresh one before loading. */
    method LoadEventSelectorConfig(section: Section, fs: Csv.FileSystem) returns (r: Result<()>)
      requires reader != null
      modifies reader`eventSelector, reader.eventSelector
      ensures r.Ok? <==> PartEntry(fs, old(State()), Part(EventSelectorKey, section)).Ok?
      ensures r.Ok? ==> State() == PartEntry(fs, old(State()), Part(EventSelectorKey, section)).value
      ensures reader.eventSelector == old(reader.eventSelector) || fresh(reader.eventSelector)
    {
      if |section| == 0 {
        return Ok(());
      }
      if reader.eventSelector == null {
        var sel := new EventSelection.EventSelector();
        reader.SetEventSelector(sel);
      }
      r := EventSelectorConfig.LoadConfig(reader.eventSelector, section, fs);
    }

    /** One top-level entry: the helper its key selects; any other key is skipped. */
    method LoadPart(p: Part, fs: Csv.FileSystem) returns (r: Result<()>)
      requires reader != null
      modifies reader`usePrimary, reader`useHadCorr, reader`hadCorrFraction, reader`useMipCorr
      modifies reader`eventSelector, reader`trackSelector, reader`towerSelector
      modifies reader.eventSelector, reader.trackSelector, reader.towerSelector
      ensures r.Ok? <==> PartStep(fs)(old(State()), p).Ok?
      ensures r.Ok? ==> State() == PartStep(fs)(old(State()), p).value
      ensures reader.eventSelector == old(reader.eventSelector) || fresh(reader.eventSelector)
      ensures reader.trackSelector == old(reader.trackSelector) || fresh(reader.trackSelector)
      ensures reader.towerSelector == old(reader.towerSelector) || fresh(reader.towerSelector)
    {
      ghost var st0 := State();
      assert PartStep(fs)(st0, p) == PartEntry(fs, st0, p);
      if p.key == ReaderKey {
        FilesUnused(fs, st0, p);
        r := LoadReaderConfig(p.section);
      } else if p.key == TowerSelectorKey {
        r := LoadTowerSelectorConfig(p.section, fs);
      } else if p.key == TrackSelectorKey {
        FilesUnused(fs, st0, p);
        r := LoadTrackSelectorConfig(p.section);
      } else if p.key == EventSelectorKey {
        r := LoadEventSelectorConfig(p.section, fs);
      } else {
        r := Ok(());
      }
    }

    /** The entry at `i` of a load that has applied the entries before it. */
    method LoadAt(ghost st0: Configured, doc: Document, i: nat, fs: Csv.FileSystem) returns (r: Result<()>)
      requires reader != null && i < |doc| && Fold(st0, doc[..i], PartStep(fs)) == Ok(State())
      modifies reader`usePrimary, reader`useHadCorr, reader`hadCorrFraction, reader`useMipCorr
      modifies reader`eventSelector, reader`trackSelector, reader`towerSelector
      modifies reader.eventSelector, reader.trackSelector, reader.towerSelector
      ensures r.Ok? ==> Fold(st0, doc[..i + 1], PartStep(fs)) == Ok(State())
      ensures r.Fatal? ==> Fold(st0, doc, PartStep(fs)).Fatal?
      ensures reader.eventSelector == old(reader.eventSelector) || fresh(reader.eventSelector)
      ensures reader.trackSelector == old(reader.trackSelector) || fresh(reader.trackSelector)
      ensures reader.towerSelector == old(reader.towerSelector) || fresh(reader.towerSelector)
    {
      FoldStep(st0, doc, i, PartStep(fs));
      r := LoadPart(doc[i], fs);
      if r.Fatal? {
        FoldFatalStays(st0, doc, i + 1, PartStep(fs));
      }
    }

    /** loadConfig: fatal without a reader; otherwise proved against `LoadAll`. */
    method LoadConfig(doc: Document, fs: Csv.FileSystem) returns (r: Result<()>)
      modifies reader, if reader == null then {} else {reader.eventSelector, reader.trackSelector, reader.towerSelector}
      ensures reader == null ==> r == Fatal(NoReaderToLoad)
      ensures reader != null ==> (r.Ok? <==> LoadAll(old(State()), doc, fs).Ok?)
      ensures reader != null && r.Ok? ==> State() == LoadAll(old(State()), doc, fs).value
    {
      if reader == null {
        return Fatal(NoReaderToLoad);
      }
      ghost var st0 := State();
      var i := 0;
      while i < |doc|
        invariant 0 <= i <= |doc|
        invariant Fold(st0, doc[..i], PartStep(fs)) == Ok(State())
        invariant reader.eventSelector == old(reader.eventSelector) || fresh(reader.eventSelector)
        invariant reader.trackSelector == old(reader.trackSelector) || fresh(reader.trackSelector)
        invariant reader.towerSelector == old(reader.towerSelector) || fresh(reader.towerSelector)
      {
        r := LoadAt(st0, doc, i, fs);
        if r.Fatal? {
          return r;
        }
        i := i + 1;
      }
      assert doc[..i] == doc;
      return Ok(());
    }

    /**
     * writeConfig: fatal without a reader; otherwise the four sections, each
     * from its helper. The selectors are dereferenced without a check.
     */
    method WriteConfig() returns (r: Result<Document>)
      requires reader != null ==> reader.Ready()
      ensures reader == null ==> r == Fatal(NoReaderToWrite)
      ensures reader != null ==> r.Ok? && Writes(State(), r.value)
    {
      if reader == null {
        return Fatal(NoReaderToWrite);
      }
      var readerPart := ReaderConfig.ReadConfig(reader);
      var towerPart := TowerSelectorConfig.ReadConfig(reader.towerSelector);
      var trackPart := TrackSelectorConfig.ReadConfig(reader.trackSelector);
      var eventPart := EventSelectorConfig.ReadConfig(reader.eventSelector);
      r := Ok([Part(ReaderKey, readerPart), Part(TowerSelectorKey, towerPart), Part(TrackSelectorKey, trackPart),
               Part(EventSelectorKey, eventPart)]);
    }
  }

  // Reading back what was written.

  /** What a write and a load preserve: the reader's settings up to an unused fraction, and every selector's cuts. */
  predicate Reloadable(st: Configured, fs: Csv.FileSystem)
  {
    st.events.Some? && st.tracks.Some? && st.towers.Some? &&
    Sane(st.settings) &&
    EventSelectorConfig.Consistent(st.events.value, fs, TriggerLookup.GetTriggerIDs) &&
    TrackSelection.Valid(st.tracks.value) &&
    TowerSelectorConfig.Consistent(st.towers.value, fs)
  }

  /**
   * A document writeConfig wrote loads into a newly constructed reader,
   * whatever its settings, as the configuration it was written from.
   */
  lemma WrittenConfigReloads(st: Configured, doc: Document, fs: Csv.FileSystem, s0: Settings)
    requires Reloadable(st, fs) && Writes(st, doc)
    ensures LoadAll(Fresh(s0), doc, fs) == Ok(st.(settings := ReaderConfig.Reloaded(st.settings)))
  {
    var step := PartStep(fs);
    var st0 := Fresh(s0);
    var st1 := st0.(settings := ReaderConfig.Reloaded(st.settings));
    var st2 := st1.(towers := st.towers);
    var st3 := st2.(tracks := st.tracks);
    var st4 := st3.(events := st.events);
    ReaderSectionReloads(st0, st.settings, doc[0], fs);
    WrittenTowersReload(st, doc, fs, st1);
    WrittenTracksReload(st, doc, fs, st2);
    WrittenEventsReload(st, doc, fs, st3);
    FourSteps(st0, st1, st2, st3, st4, doc, step);
    assert st4 == st.(settings := ReaderConfig.Reloaded(st.settings));
  }

  /** The written tower section, loaded over a cleared tower selector. */
  lemma WrittenTowersReload(st: Configured, doc: Document, fs: Csv.FileSystem, st1: Configured)
    requires Reloadable(st, fs) && Writes(st, doc) && st1.towers == Some(TowerSelection.Cleared)
    ensures PartStep(fs)(st1, doc[1]) == Ok(st1.(towers := st.towers))
  {
    TowerSectionReloads(st1, st.towers.value, doc[1], fs);
  }

  /** The written track section, loaded over a cleared track selector. */
  lemma WrittenTracksReload(st: Configured, doc: Document, fs: Csv.FileSystem, st2: Configured)
    requires Reloadable(st, fs) && Writes(st, doc) && st2.tracks == Some(TrackSelection.Cleared)
    ensures PartStep(fs)(st2, doc[2]) == Ok(st2.(tracks := st.tracks))
  {
    TrackSectionReloads(st2, st.tracks.value, doc[2], fs);
  }

  /** The written event section, loaded over a cleared event selector. */
  lemma WrittenEventsReload(st: Configured, doc: Document, fs: Csv.FileSystem, st3: Configured)
    requires Reloadable(st, fs) && Writes(st, doc) && st3.events == Some(EventSelection.Cleared({}))
    ensures PartStep(fs)(st3, doc[3]) == Ok(st3.(events := st.events))
  {
    EventSectionReloads(st3, st.events.value, doc[3], fs);
  }

  /** Four entries in a row, each taking its state to the next. */
  lemma FourSteps(st0: Configured, st1: Configured, st2: Configured, st3: Configured, st4: Configured,
                  doc: Document, step: (Configured, Part) -> Result<Configured>)
    requires |doc| == 4
    requires step(st0, doc[0]) == Ok(st1) && step(st1, doc[1]) == Ok(st2)
    requires step(st2, doc[2]) == Ok(st3) && step(st3, doc[3]) == Ok(st4)
    ensures Fold(st0, doc, step) == Ok(st4)
  {
    FoldThrough(doc, step, [st0, st1, st2, st3, st4]);
  }

  /** A written reader section loads over any settings as the settings it was written from, up to an unused fraction. */
  lemma ReaderSectionReloads(st: Configured, s: Settings, p: Part, fs: Csv.FileSystem)
    requires Sane(s) && p == Part(ReaderKey, ReaderConfig.ReaderDocument(s))
    ensures PartStep(fs)(st, p) == Ok(st.(settings := ReaderConfig.Reloaded(s)))
  {
    ReaderConfig.WrittenSettingsReload(st.settings, s);
  }

  /** A written tower section loads into a cleared tower selector as the cuts it was written from, empty or not. */
  lemma TowerSectionReloads(st: Configured, c: TowerSelection.TowerCuts, p: Part, fs: Csv.FileSystem)
    requires st.towers == Some(TowerSelection.Cleared)
    requires p.key == TowerSelectorKey
    requires TowerSelectorConfig.Consistent(c, fs) && TowerSelectorConfig.Describes(c, p.section)
    ensures PartStep(fs)(st, p) == Ok(st.(towers := Some(c)))
  {
    TowerSelectorConfig.WrittenSectionReloads(c, p.section, fs);
  }

  /** A written track section loads into a cleared track selector as the cuts it was written from, empty or not. */
  lemma TrackSectionReloads(st: Configured, c: TrackSelection.TrackCuts, p: Part, fs: Csv.FileSystem)
    requires st.tracks == Some(TrackSelection.Cleared) && TrackSelection.Valid(c)
    requires p == Part(TrackSelectorKey, TrackSelectorConfig.TrackDocument(c))
    ensures PartStep(fs)(st, p) == Ok(st.(tracks := Some(c)))
  {
    TrackSelectorConfig.WrittenSectionReloads(c);
  }

  /** A written event section loads into a cleared event selector as the cuts it was written from, empty or not. */
  lemma EventSectionReloads(st: Configured, c: EventSelection.EventCuts, p: Part, fs: Csv.FileSystem)
    requires st.events == Some(EventSelection.Cleared({}))
    requires p.key == EventSelectorKey
    requires EventSelectorConfig.Consistent(c, fs, TriggerLookup.GetTriggerIDs) && EventSelectorConfig.Describes(c, p.section)
    ensures PartStep(fs)(st, p) == Ok(st.(events := Some(c)))
  {
    EventSelectorConfig.WrittenSectionReloads(c, p.section, fs, TriggerLookup.GetTriggerIDs);
  }
}
