/**
 * ReaderConfigHelper of reader/config/reader_config_helper.cc: loading the
 * reader's track mode and tower energy correction from a configuration
 * section, and writing them out as one.
 */
module ReaderConfig {
  import opened Wrappers
  import opened ConfigDocument
  import opened ReaderSpec
  import ReaderPipeline

  const PrimaryTrackKey := "usePrimary"
  const HadCorrKey := "useHadronicCorrection"
  const HadCorrFractionKey := "hadronicCorrectionFraction"
  const MipCorrKey := "useMIPCorrection"

  /** The keys loadConfig acts on; the fraction key is read only through the hadronic correction key. */
  predicate Known(key: string)
  {
    key == PrimaryTrackKey || key == HadCorrKey || key == MipCorrKey
  }

  /** The fraction the hadronic correction key passes on: the section's fraction entry as a number, 1.0 without one. */
  function Fraction(doc: Section): (r: Result<real>)
    ensures Lookup(doc, HadCorrFractionKey).None? ==> r == Ok(1.0)
    ensures Lookup(doc, HadCorrFractionKey).Some? ==> r == NodeReal(Lookup(doc, HadCorrFractionKey).value)
  {
    var f := Lookup(doc, HadCorrFractionKey);
    if f.None? then Ok(1.0) else NodeReal(f.value)
  }

  /**
   * The effect of one entry of section `doc` on the settings: the setter
   * its key names, with the value converted to a flag; the hadronic
   * correction reads the fraction first and fails, after storing it, when
   * the correction is on and the fraction leaves [0, 1]. Any other key is
   * only reported.
   */
  function ReaderEntry(doc: Section, s: Settings, e: Entry): (r: Result<Settings>)
    ensures !Known(e.key) ==> r == Ok(s)
    ensures r.Ok? && Sane(s) ==> Sane(r.value)
    ensures e.key == PrimaryTrackKey ==> (r.Ok? <==> NodeFlag(e.node).Ok?)
    ensures e.key == PrimaryTrackKey && r.Ok? ==> r.value == s.(usePrimary := NodeFlag(e.node).value)
    ensures e.key == HadCorrKey ==>
      (r.Ok? <==> Fraction(doc).Ok? && NodeFlag(e.node).Ok? && FractionCheck(NodeFlag(e.node).value, Fraction(doc).value).Ok?)
    ensures e.key == HadCorrKey && r.Ok? ==>
      r.value == WithHadronicCorrection(s, NodeFlag(e.node).value, Fraction(doc).value)
    ensures e.key == MipCorrKey ==> (r.Ok? <==> NodeFlag(e.node).Ok?)
    ensures e.key == MipCorrKey && r.Ok? ==> r.value == WithMipCorrection(s, NodeFlag(e.node).value)
  {
    if e.key == PrimaryTrackKey then
      var b := NodeFlag(e.node);
      if b.Fatal? then Fatal(b.reason) else Ok(s.(usePrimary := b.value))
    else if e.key == HadCorrKey then
      var f := Fraction(doc);
      if f.Fatal? then Fatal(f.reason)
      else
        var b := NodeFlag(e.node);
        if b.Fatal? then Fatal(b.reason)
        else
          var c := FractionCheck(b.value, f.value);
          if c.Fatal? then Fatal(c.reason) else Ok(WithHadronicCorrection(s, b.value, f.value))
    else if e.key == MipCorrKey then
      var b := NodeFlag(e.node);
      if b.Fatal? then Fatal(b.reason) else Ok(WithMipCorrection(s, b.value))
    else Ok(s)
  }

  function ReaderStep(doc: Section): (Settings, Entry) -> Result<Settings>
  {
    (s: Settings, e: Entry) => ReaderEntry(doc, s, e)
  }

  /** loadConfig: the entries applied in document order; the first fatal one ends the load. */
  function Load(s: Settings, doc: Section): Result<Settings>
  {
    Fold(s, doc, ReaderStep(doc))
  }

  /** One entry: the reader's setter its key selects. */
  method LoadEntry(reader: ReaderPipeline.Reader, doc: Section, e: Entry) returns (r: Result<()>)
    modifies reader`usePrimary, reader`useHadCorr, reader`hadCorrFraction, reader`useMipCorr
    ensures r.Ok? <==> ReaderEntry(doc, old(reader.Settings()), e).Ok?
    ensures r.Ok? ==> reader.Settings() == ReaderEntry(doc, old(reader.Settings()), e).value
  {
    if e.key == PrimaryTrackKey {
      var b := NodeFlag(e.node);
      if b.Fatal? {
        return Fatal(b.reason);
      }
      if b.value {
        reader.UsePrimaryTracks();
      } else {
        reader.UseGlobalTracks();
      }
    } else if e.key == HadCorrKey {
      var fraction := 1.0;
      var f := Lookup(doc, HadCorrFractionKey);
      if f.Some? {
        var x := NodeReal(f.value);
        if x.Fatal? {
          return Fatal(x.reason);
        }
        fraction := x.value;
      }
      var b := NodeFlag(e.node);
      if b.Fatal? {
        return Fatal(b.reason);
      }
      r := reader.UseHadronicCorrection(b.value, fraction);
      return;
    } else if e.key == MipCorrKey {
      var b := NodeFlag(e.node);
      if b.Fatal? {
        return Fatal(b.reason);
      }
      reader.UseMIPCorrection(b.value);
    }
    // Any other key is only reported.
    r := Ok(());
  }

  /** loadConfig: proved against `Load`. */
  method LoadConfig(reader: ReaderPipeline.Reader, doc: Section) returns (r: Result<()>)
    modifies reader`usePrimary, reader`useHadCorr, reader`hadCorrFraction, reader`useMipCorr
    ensures r.Ok? <==> Load(old(reader.Settings()), doc).Ok?
    ensures r.Ok? ==> reader.Settings() == Load(old(reader.Settings()), doc).value
  {
    var i := 0;
    while i < |doc|
      invariant 0 <= i <= |doc|
      invariant Fold(old(reader.Settings()), doc[..i], ReaderStep(doc)) == Ok(reader.Settings())
    {
      FoldStep(old(reader.Settings()), doc, i, ReaderStep(doc));
      r := LoadEntry(reader, doc, doc[i]);
      if r.Fatal? {
        FoldFatalStays(old(reader.Settings()), doc, i + 1, ReaderStep(doc));
        return r;
      }
      i := i + 1;
    }
    assert doc[..i] == doc;
    return Ok(());
  }

  // Writing.

  /** The section readConfig writes: the three flags, with the fraction after the hadronic flag while it is on. */
  function ReaderDocument(s: Settings): (doc: Section)
    ensures |doc| == if s.useHadCorr then 4 else 3
    ensures Keys(doc) == [PrimaryTrackKey, HadCorrKey] + (if s.useHadCorr then [HadCorrFractionKey] else []) + [MipCorrKey]
  {
    [Entry(PrimaryTrackKey, Value(Flag(s.usePrimary))), Entry(HadCorrKey, Value(Flag(s.useHadCorr)))] +
    (if s.useHadCorr then [Entry(HadCorrFractionKey, Value(Real(s.hadCorrFraction)))] else []) +
    [Entry(MipCorrKey, Value(Flag(s.useMipCorr)))]
  }

  /** readConfig: each setting written in turn. */
  method ReadConfig(reader: ReaderPipeline.Reader) returns (doc: Section)
    ensures doc == ReaderDocument(reader.Settings())
  {
    doc := [Entry(PrimaryTrackKey, Value(Flag(reader.usePrimary)))];
    doc := doc + [Entry(HadCorrKey, Value(Flag(reader.useHadCorr)))];
    if reader.useHadCorr {
      doc := doc + [Entry(HadCorrFractionKey, Value(Real(reader.hadCorrFraction)))];
    }
    doc := doc + [Entry(MipCorrKey, Value(Flag(reader.useMipCorr)))];
  }

  // Reading back what was written.

  /** What survives a write and a load: the fraction is written only while the hadronic correction is on, and loads back as 1.0 otherwise. */
  function Reloaded(s: Settings): (r: Settings)
    ensures r.usePrimary == s.usePrimary && r.useHadCorr == s.useHadCorr && r.useMipCorr == s.useMipCorr
    ensures s.useHadCorr ==> r == s
    ensures Sane(s) ==> Sane(r)
  {
    if s.useHadCorr then s else s.(hadCorrFraction := 1.0)
  }

  /** Settings the reader holds after setters that did not fail load back from what readConfig writes, whatever the reader held before. */
  lemma WrittenSettingsReload(s0: Settings, s: Settings)
    requires Sane(s)
    ensures Load(s0, ReaderDocument(s)) == Ok(Reloaded(s))
  {
    var doc := ReaderDocument(s);
    var step := ReaderStep(doc);
    var e1 := Entry(PrimaryTrackKey, Value(Flag(s.usePrimary)));
    var e2 := Entry(HadCorrKey, Value(Flag(s.useHadCorr)));
    var mid := if s.useHadCorr then [Entry(HadCorrFractionKey, Value(Real(s.hadCorrFraction)))] else [];
    var e4 := Entry(MipCorrKey, Value(Flag(s.useMipCorr)));
    assert doc == [e1, e2] + mid + [e4];
    var s1 := s0.(usePrimary := s.usePrimary);
    var fraction := if s.useHadCorr then s.hadCorrFraction else 1.0;
    if s.useHadCorr {
      assert doc[2] == Entry(HadCorrFractionKey, Value(Real(s.hadCorrFraction)));
      assert Lookup(doc, HadCorrFractionKey) == Some(Value(Real(s.hadCorrFraction)));
    } else {
      assert Keys(doc) == [PrimaryTrackKey, HadCorrKey, MipCorrKey];
      assert Lookup(doc, HadCorrFractionKey).None?;
    }
    assert Fraction(doc) == Ok(fraction);
    var s2 := WithHadronicCorrection(s1, s.useHadCorr, fraction);
    var s4 := WithMipCorrection(s2, s.useMipCorr);
    assert ReaderEntry(doc, s0, e1) == Ok(s1);
    assert ReaderEntry(doc, s1, e2) == Ok(s2);
    FoldThroughPair(s0, s1, s2, e1, e2, step);
    if s.useHadCorr {
      var e3 := mid[0];
      assert ReaderEntry(doc, s2, e3) == Ok(s2);
      FoldSingle(s2, e3, step);
      FoldAppend(s0, [e1, e2], mid, step);
    } else {
      assert [e1, e2] + mid == [e1, e2];
    }
    assert ReaderEntry(doc, s2, e4) == Ok(s4);
    FoldSingle(s2, e4, step);
    FoldAppend(s0, [e1, e2] + mid, [e4], step);
    assert s4 == Reloaded(s);
  }

  /** Two entries in a row, each taking its state to the next. */
  lemma FoldThroughPair(s0: Settings, s1: Settings, s2: Settings, e1: Entry, e2: Entry, step: (Settings, Entry) -> Result<Settings>)
    requires step(s0, e1) == Ok(s1) && step(s1, e2) == Ok(s2)
    ensures Fold(s0, [e1, e2], step) == Ok(s2)
  {
    FoldThrough([e1, e2], step, [s0, s1, s2]);
  }

  /** Loading from sane settings leaves sane settings. */
  lemma LoadKeepsSane(s: Settings, doc: Section)
    requires Sane(s) && Load(s, doc).Ok?
    ensures Sane(Load(s, doc).value)
  {
    var step := ReaderStep(doc);
    var inv := (y: Settings) => Sane(y);
    forall y, e | inv(y) && step(y, e).Ok? ensures inv(step(y, e).value) {
    }
    FoldKeeps(s, doc, step, inv);
  }

  /**
   * What a load leaves in a reader whose setters never failed, readConfig
   * writes out so that it loads back, the fraction aside when the hadronic
   * correction is off.
   */
  lemma LoadedSettingsReload(s0: Settings, doc: Section, s1: Settings)
    requires Sane(s0) && Load(s0, doc).Ok?
    ensures Load(s1, ReaderDocument(Load(s0, doc).value)) == Ok(Reloaded(Load(s0, doc).value))
  {
    LoadKeepsSane(s0, doc);
    WrittenSettingsReload(s1, Load(s0, doc).value);
  }

  /**
   * With both corrections switched on, the one whose key comes last wins:
   * the load depends on the order of the keys.
   */
  lemma LastCorrectionWins(s0: Settings)
    ensures Load(s0, [Entry(HadCorrKey, Value(Flag(true))), Entry(MipCorrKey, Value(Flag(true)))]) ==
      Ok(s0.(useHadCorr := false, hadCorrFraction := 1.0, useMipCorr := true))
    ensures Load(s0, [Entry(MipCorrKey, Value(Flag(true))), Entry(HadCorrKey, Value(Flag(true)))]) ==
      Ok(s0.(useHadCorr := true, hadCorrFraction := 1.0, useMipCorr := false))
  {
    var had, mip := Entry(HadCorrKey, Value(Flag(true))), Entry(MipCorrKey, Value(Flag(true)));
    var a, b := [had, mip], [mip, had];
    assert Lookup(a, HadCorrFractionKey).None? && Lookup(b, HadCorrFractionKey).None?;
    var a1 := WithHadronicCorrection(s0, true, 1.0);
    FoldThroughPair(s0, a1, WithMipCorrection(a1, true), had, mip, ReaderStep(a));
    var b1 := WithMipCorrection(s0, true);
    FoldThroughPair(s0, b1, WithHadronicCorrection(b1, true, 1.0), mip, had, ReaderStep(b));
  }
}
