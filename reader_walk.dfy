/**
 * Where Reader::next() stops, abstracted over the store: for each entry,
 * res holds what readEvent reports (or its failure) and dec the event
 * selector's decision alone, which is all findNextGoodRun looks at while
 * it runs through a rejected run with the other branches switched off.
 */
module ReaderWalk {
  import opened Wrappers
  import opened EventSelection

  /** The failure of a load past the last entry. */
  const PastEndOfChain: string := "failure attempting to load an event past the end of the chain"

  /** res and dec describe the same entries, and a run rejection is the selector's: a rejected run is never accepted. */
  predicate Coherent(res: seq<Result<EventStatus>>, dec: seq<EventStatus>)
  {
    |res| == |dec| &&
    forall k :: 0 <= k < |res| ==>
      (res[k] == Ok(RejectRun) ==> dec[k] == RejectRun) && (dec[k] == RejectRun ==> res[k] != Ok(AcceptEvent))
  }

  /** Every read succeeds. */
  predicate AllRead(res: seq<Result<EventStatus>>)
  {
    forall k :: 0 <= k < |res| ==> res[k].Ok?
  }

  /**
   * The scan of findNextGoodRun past entry `current`, whose run is
   * rejected: the entry it stops at and whether it found a good run. Each
   * step loads the next entry before looking at the end of the chain, so
   * a rejected run at the last entry loads one past the end.
   */
  function FastForward(dec: seq<EventStatus>, current: nat): (r: Result<(nat, bool)>)
    requires current < |dec|
    ensures r.Ok? ==> current < r.value.0 < |dec|
    ensures r.Ok? ==> (r.value.1 <==> dec[r.value.0] != RejectRun)
    ensures r.Ok? ==> forall j :: current < j < r.value.0 ==> dec[j] == RejectRun
    decreases |dec| - current
  {
    if current + 1 >= |dec| then Result<(nat, bool)>.Fatal(PastEndOfChain)
    else if dec[current + 1] != RejectRun then Ok((current + 1, true))
    else if current + 1 >= |dec| - 1 then Ok((current + 1, false))
    else FastForward(dec, current + 1)
  }

  /** findNextGoodRun's search from entry `current`: no scan when its run is not rejected. */
  function GoodRunSearch(dec: seq<EventStatus>, current: nat): (r: Result<(nat, bool)>)
    requires current < |dec|
    ensures r.Ok? ==> current <= r.value.0 < |dec|
    ensures r.Ok? ==> (r.value.1 ==> dec[r.value.0] != RejectRun)
    ensures r.Ok? ==> forall j :: current <= j < r.value.0 ==> dec[j] == RejectRun
  {
    if dec[current] != RejectRun then Ok((current, false)) else FastForward(dec, current)
  }

  /** findNextGoodRun: the search, then a reload of the entry it stopped at, whose status is dropped. */
  function FindNextGoodRun(res: seq<Result<EventStatus>>, dec: seq<EventStatus>, current: nat): (r: Result<(nat, bool)>)
    requires |res| == |dec| && current < |dec|
    ensures r.Ok? ==> r == GoodRunSearch(dec, current) && res[r.value.0].Ok?
  {
    var f := GoodRunSearch(dec, current);
    if f.Fatal? then f
    else if res[f.value.0].Fatal? then Fatal(res[f.value.0].reason)
    else f
  }

  /**
   * next() as written, from position `index` (-1 before the first entry):
   * the position it stops at and whether it reports an event.
   */
  function NextAsWritten(res: seq<Result<EventStatus>>, dec: seq<EventStatus>, index: int): (r: Result<(int, bool)>)
    requires |res| == |dec| && -1 <= index < |res|
    ensures r.Ok? ==> index <= r.value.0 < |res| || r.value.0 == index
    decreases |res| - index
  {
    if index >= |res| - 1 then Ok((index, false))
    else
      var k := index + 1;
      match res[k]
      case Fatal(m) => Fatal(m)
      case Ok(s) =>
        if s == AcceptEvent then Ok((k, true))
        else if s == RejectEvent then NextAsWritten(res, dec, k)
        else
          var f := FindNextGoodRun(res, dec, k);
          if f.Fatal? then Fatal(f.reason)
          else if f.value.1 then Ok((f.value.0, true))
          else NextAsWritten(res, dec, f.value.0)
  }

  /** The reference: a plain scan for the next accepted entry, or the last entry when there is none. */
  function NextAccepted(res: seq<Result<EventStatus>>, index: int): (r: (int, bool))
    requires -1 <= index < |res|
    ensures index <= r.0 < |res| || r.0 == index
    ensures r.1 ==> index < r.0 && res[r.0] == Ok(AcceptEvent)
    ensures forall j :: index < j < r.0 ==> res[j] != Ok(AcceptEvent)
    ensures !r.1 ==> r.0 == if |res| == 0 then index else |res| - 1
    decreases |res| - index
  {
    if index >= |res| - 1 then (index, false)
    else if res[index + 1] == Ok(AcceptEvent) then (index + 1, true)
    else NextAccepted(res, index + 1)
  }

  /** The scan of findNextGoodRun that looks at the end before loading: the next entry whose run is not rejected, or the last entry. */
  function FastForwardChecked(dec: seq<EventStatus>, current: nat): (r: nat)
    requires current < |dec|
    ensures current <= r < |dec|
    ensures forall j :: current < j < r ==> dec[j] == RejectRun
    decreases |dec| - current
  {
    if current + 1 >= |dec| then current
    else if dec[current + 1] != RejectRun then current + 1
    else FastForwardChecked(dec, current + 1)
  }

  /**
   * next() as evidently intended: a rejected run at the last entry ends the
   * walk, and the entry a good run starts at counts only when it is accepted.
   */
  function NextCorrected(res: seq<Result<EventStatus>>, dec: seq<EventStatus>, index: int): (r: Result<(int, bool)>)
    requires |res| == |dec| && -1 <= index < |res|
    decreases |res| - index
  {
    if index >= |res| - 1 then Ok((index, false))
    else
      var k := index + 1;
      match res[k]
      case Fatal(m) => Fatal(m)
      case Ok(s) =>
        if s == AcceptEvent then Ok((k, true))
        else if s == RejectEvent then NextCorrected(res, dec, k)
        else
          var g := FastForwardChecked(dec, k);
          if res[g].Fatal? then Fatal(res[g].reason)
          else if res[g] == Ok(AcceptEvent) then Ok((g, true))
          else NextCorrected(res, dec, g)
  }

  /** Entries that are not accepted can be passed over by the reference scan. */
  lemma {:induction false} SkipUnaccepted(res: seq<Result<EventStatus>>, a: int, b: int)
    requires -1 <= a <= b < |res|
    requires forall j :: a < j <= b ==> res[j] != Ok(AcceptEvent)
    ensures NextAccepted(res, a) == NextAccepted(res, b)
    decreases b - a
  {
    if a < b {
      SkipUnaccepted(res, a + 1, b);
    }
  }

  /** When every read succeeds, the corrected next() stops exactly where the reference scan does. */
  lemma {:induction false} CorrectedFindsNextAccepted(res: seq<Result<EventStatus>>, dec: seq<EventStatus>, index: int)
    requires Coherent(res, dec) && AllRead(res) && -1 <= index < |res|
    ensures NextCorrected(res, dec, index) == Ok(NextAccepted(res, index))
    decreases |res| - index
  {
    if index < |res| - 1 {
      var k := index + 1;
      if res[k] == Ok(RejectEvent) {
        CorrectedFindsNextAccepted(res, dec, k);
      } else if res[k] == Ok(RejectRun) {
        var g := FastForwardChecked(dec, k);
        SkipUnaccepted(res, index, g as int - 1);
        if res[g] != Ok(AcceptEvent) {
          CorrectedFindsNextAccepted(res, dec, g);
        }
      }
    }
  }

  /** next() as written never passes over an accepted entry, and what it reports is an entry that was read and whose run is good. */
  lemma {:induction false} AsWrittenSkipsNoAccepted(res: seq<Result<EventStatus>>, dec: seq<EventStatus>, index: int)
    requires Coherent(res, dec) && -1 <= index < |res|
    ensures var r := NextAsWritten(res, dec, index);
      r.Ok? ==> forall j :: index < j < r.value.0 ==> res[j] != Ok(AcceptEvent)
    ensures var r := NextAsWritten(res, dec, index);
      r.Ok? && r.value.1 ==> index < r.value.0 && (res[r.value.0] == Ok(AcceptEvent) || res[r.value.0] == Ok(RejectEvent))
    decreases |res| - index
  {
    if index < |res| - 1 {
      var k := index + 1;
      if res[k] == Ok(RejectEvent) {
        AsWrittenSkipsNoAccepted(res, dec, k);
      } else if res[k] == Ok(RejectRun) {
        var f := FindNextGoodRun(res, dec, k);
        if f.Ok? {
          var g := f.value.0;
          if f.value.1 {
            assert res[g].Ok? && dec[g] != RejectRun;
            assert res[g] != Ok(RejectRun);
            assert res[g] == Ok(res[g].value);
            assert res[g].value == AcceptEvent || res[g].value == RejectEvent;
            assert NextAsWritten(res, dec, index) == Ok((g as int, true));
          } else {
            AsWrittenSkipsNoAccepted(res, dec, g);
          }
        }
      }
    }
  }

  /** As written, a rejected run at the last entry makes next() fail, where the corrected walk simply ends. */
  lemma BadRunAtEndIsFatal()
    ensures NextAsWritten([Ok(RejectRun)], [RejectRun], -1).Fatal?
    ensures NextCorrected([Ok(RejectRun)], [RejectRun], -1) == Ok((0, false))
  {
    assert FastForward([RejectRun], 0).Fatal?;
  }

  /**
   * As written, the first entry of a good run is reported even when a track
   * rejects it; the corrected walk and the reference scan report nothing.
   */
  lemma LandedRejectedEventReported()
    ensures NextAsWritten([Ok(RejectRun), Ok(RejectEvent)], [RejectRun, AcceptEvent], -1) == Ok((1, true))
    ensures NextCorrected([Ok(RejectRun), Ok(RejectEvent)], [RejectRun, AcceptEvent], -1) == Ok((1, false))
    ensures NextAccepted([Ok(RejectRun), Ok(RejectEvent)], -1) == (1, false)
  {
    var res := [Ok(RejectRun), Ok(RejectEvent)];
    var dec := [RejectRun, AcceptEvent];
    assert FastForward(dec, 0) == Ok((1, true));
    assert FastForwardChecked(dec, 0) == 1;
  }
}
