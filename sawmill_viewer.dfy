/** What the viewer derives from the scan data for its meter: the size of the
    selected scans, the size of the whole image and the graduation marks at
    the scan boundaries. */
module SawmillViewer {
  import opened Wrappers
  import JpegInspector
  import SawmillUi

  type Scan = SawmillUi.Scan

  /** The bytes the first `selected` scans cover: the end offset of the last
      of them, 0 when none is selected. Any other selection makes the
      component read past the scan data. */
  function GetScanSize(scanData: seq<Scan>, selected: int): (size: nat)
    requires 0 <= selected <= |scanData|
  {
    if selected == 0 then 0 else scanData[selected - 1].endOffset
  }

  /** `scanData.map((scan) => scan.endOffset)` */
  function EndOffsets(scanData: seq<Scan>): (endOffsets: seq<nat>)
    ensures |endOffsets| == |scanData|
  {
    seq(|scanData|, i requires 0 <= i < |scanData| => scanData[i].endOffset)
  }

  /** `scanData.map((scan) => scan.duration)` */
  function ScanDurations(scanData: seq<Scan>): (durations: seq<int>)
    ensures |durations| == |scanData|
  {
    seq(|scanData|, i requires 0 <= i < |scanData| => scanData[i].duration)
  }

  /** `.slice(0, -1)`: all but the last element, nothing from nothing */
  function AllButLast(s: seq<nat>): (r: seq<nat>)
    ensures |s| > 0 ==> r + [s[|s| - 1]] == s
    ensures |s| == 0 ==> r == []
  {
    if |s| == 0 then [] else s[..|s| - 1]
  }

  /** `.filter((e, i) => playback || (i + 1) !== selected)` on the elements
      from index `index` on */
  function FilterGraduations(offsets: seq<nat>, index: nat, playback: bool, selected: int): (r: seq<nat>)
    ensures playback ==> r == offsets
    ensures |r| == |offsets| - (if !playback && 0 <= selected - 1 - index < |offsets| then 1 else 0)
    ensures forall x | x in r :: x in offsets
    decreases |offsets|
  {
    if offsets == [] then []
    else
      var keep := playback || index + 1 != selected;
      (if keep then [offsets[0]] else []) + FilterGraduations(offsets[1..], index + 1, playback, selected)
  }

  /** The graduation marks: the end offsets of every scan but the last, less
      the selected scan's outside playback */
  function GraduationOffsets(scanData: seq<Scan>, selected: int, playback: bool): (graduations: seq<nat>)
    ensures forall g | g in graduations ::
      exists i | 0 <= i < |scanData| - 1 :: scanData[i].endOffset == g
  {
    var marks := AllButLast(EndOffsets(scanData));
    assert forall g | g in marks :: exists i | 0 <= i < |scanData| - 1 :: scanData[i].endOffset == g by {
      forall g | g in marks ensures exists i | 0 <= i < |scanData| - 1 :: scanData[i].endOffset == g {
        var i :| 0 <= i < |marks| && marks[i] == g;
        assert scanData[i].endOffset == g;
      }
    }
    FilterGraduations(marks, 0, playback, selected)
  }

  /** The props of the meter */
  datatype MeterProps = MeterProps(value: nat, max: nat, graduations: seq<nat>, playback: bool)

  /** The meter never overflows: with non-decreasing end offsets, the selected
      size is at most the whole image's */
  function GetMeterProps(scanData: seq<Scan>, selected: int, playback: bool): (meter: MeterProps)
    requires 0 <= selected <= |scanData|
    ensures (forall i, j | 0 <= i < j < |scanData| :: scanData[i].endOffset <= scanData[j].endOffset) ==>
      meter.value <= meter.max
    ensures meter.playback == playback
  {
    MeterProps(
      GetScanSize(scanData, selected),
      GetScanSize(scanData, |scanData|),
      GraduationOffsets(scanData, selected, playback),
      playback)
  }

  // ---------------------------------------------------------------------------
  // Properties

  /** The derived scan data round-trips: its end offsets are the offsets it
      was derived from, and its durations are their differences */
  lemma ScanDataColumns(data: seq<bv8>, scanEndOffsets: seq<nat>)
    ensures EndOffsets(SawmillUi.ScanData(Some(data), scanEndOffsets)) == scanEndOffsets
    ensures ScanDurations(SawmillUi.ScanData(Some(data), scanEndOffsets)) ==
      SawmillUi.Durations(scanEndOffsets, 0)
  {
  }

  /** The scan size of a selection is the sum of the durations of the
      selected scans: the meter fills by each scan's bytes in turn */
  lemma ScanSizeIsElapsedDuration(data: seq<bv8>, scanEndOffsets: seq<nat>, selected: nat)
    requires selected <= |scanEndOffsets|
    ensures var scanData := SawmillUi.ScanData(Some(data), scanEndOffsets);
      GetScanSize(scanData, selected) == SawmillUi.Sum(ScanDurations(scanData)[..selected])
  {
    ScanDataColumns(data, scanEndOffsets);
    SawmillUi.DurationsTelescope(scanEndOffsets, 0, selected);
  }

  /** The filter drops exactly the element at `selected - 1 - index` outside
      playback, and nothing in playback or when that index is out of range */
  lemma {:induction false} FilterRemovesSelected(offsets: seq<nat>, index: nat, playback: bool, selected: int)
    ensures var dropped := selected - 1 - index;
      FilterGraduations(offsets, index, playback, selected) ==
        if playback || !(0 <= dropped < |offsets|) then offsets
        else offsets[..dropped] + offsets[dropped + 1..]
    decreases |offsets|
  {
    if offsets != [] {
      var dropped := selected - 1 - index;
      var rest := offsets[1..];
      FilterRemovesSelected(rest, index + 1, playback, selected);
      if !playback && 0 < dropped < |offsets| {
        assert offsets[..dropped] == [offsets[0]] + rest[..dropped - 1];
        assert offsets[dropped + 1..] == rest[dropped..];
      } else if !playback && dropped == 0 {
        assert offsets[dropped + 1..] == rest;
      } else {
        assert offsets == [offsets[0]] + rest;
      }
    }
  }

  /** The graduations are every end offset but the last; outside playback,
      the selected scan's end offset is left out as well */
  lemma Graduations(scanData: seq<Scan>, selected: int, playback: bool)
    ensures var endOffsets := EndOffsets(scanData);
      var graduations := GraduationOffsets(scanData, selected, playback);
      if playback || !(1 <= selected < |scanData|)
      then graduations == AllButLast(endOffsets)
      else graduations == endOffsets[..selected - 1] + endOffsets[selected..|scanData| - 1]
    ensures |scanData| > 0 ==> |GraduationOffsets(scanData, selected, playback)| <= |scanData| - 1
  {
    var endOffsets := EndOffsets(scanData);
    FilterRemovesSelected(AllButLast(endOffsets), 0, playback, selected);
    if !playback && 1 <= selected < |scanData| {
      assert AllButLast(endOffsets)[selected..] == endOffsets[selected..|scanData| - 1];
    }
  }

  ghost predicate Increasing(s: seq<nat>)
  {
    forall i, j | 0 <= i < j < |s| :: s[i] < s[j]
  }

  /** Leaving one element out of a strictly increasing sequence keeps it
      strictly increasing and keeps every element below a common bound */
  lemma RemoveKeepsOrder(s: seq<nat>, k: nat, bound: int)
    requires k < |s| && Increasing(s)
    requires forall i | 0 <= i < |s| :: s[i] < bound
    ensures var r := s[..k] + s[k + 1..];
      Increasing(r) && forall i | 0 <= i < |r| :: r[i] < bound
  {
    var r := s[..k] + s[k + 1..];
    forall i | 0 <= i < |r| ensures r[i] == s[if i < k then i else i + 1] {
    }
    forall i, j | 0 <= i < j < |r| ensures r[i] < r[j] {
      var si := if i < k then i else i + 1;
      var sj := if j < k then j else j + 1;
      assert r[i] == s[si] && r[j] == s[sj] && si < sj;
    }
  }

  /** With strictly increasing end offsets, the end offsets of every scan but
      the last are strictly increasing and below the last one */
  lemma MarksBelowLast(scanData: seq<Scan>)
    requires |scanData| > 0
    requires forall i, j | 0 <= i < j < |scanData| :: scanData[i].endOffset < scanData[j].endOffset
    ensures var marks := AllButLast(EndOffsets(scanData));
      marks == EndOffsets(scanData)[..|scanData| - 1] && Increasing(marks) &&
      forall i | 0 <= i < |marks| :: marks[i] < scanData[|scanData| - 1].endOffset
  {
    var marks := AllButLast(EndOffsets(scanData));
    assert marks == EndOffsets(scanData)[..|scanData| - 1];
    forall i | 0 <= i < |marks| ensures marks[i] == scanData[i].endOffset {
    }
  }

  /** With strictly increasing end offsets the graduations are strictly
      increasing and lie below the last end offset, which is never one of them */
  lemma GraduationsBelowLast(scanData: seq<Scan>, selected: int, playback: bool)
    requires |scanData| > 0
    requires forall i, j | 0 <= i < j < |scanData| :: scanData[i].endOffset < scanData[j].endOffset
    ensures var graduations := GraduationOffsets(scanData, selected, playback);
      (forall i | 0 <= i < |graduations| :: graduations[i] < scanData[|scanData| - 1].endOffset) &&
      Increasing(graduations)
  {
    Graduations(scanData, selected, playback);
    var endOffsets := EndOffsets(scanData);
    var last := |scanData| - 1;
    var bound := scanData[last].endOffset;
    var marks := AllButLast(endOffsets);
    MarksBelowLast(scanData);
    if !playback && 1 <= selected < |scanData| {
      assert endOffsets[..selected - 1] == marks[..selected - 1];
      assert endOffsets[selected..last] == marks[selected..];
      RemoveKeepsOrder(marks, selected - 1, bound);
    }
  }

  /** The meter's maximum for a derived scan data is the last end offset,
      which is also the sum of all the scan durations */
  lemma MeterMaxIsTotal(data: seq<bv8>, scanEndOffsets: seq<nat>, selected: nat, playback: bool)
    requires selected <= |scanEndOffsets|
    ensures var scanData := SawmillUi.ScanData(Some(data), scanEndOffsets);
      var meter := GetMeterProps(scanData, selected, playback);
      var n := |scanEndOffsets|;
      meter.max == (if n == 0 then 0 else scanEndOffsets[n - 1]) &&
      meter.max == SawmillUi.Sum(ScanDurations(scanData))
  {
    var scanData := SawmillUi.ScanData(Some(data), scanEndOffsets);
    var n := |scanEndOffsets|;
    ScanDataColumns(data, scanEndOffsets);
    SawmillUi.DurationsTelescope(scanEndOffsets, 0, n);
    assert ScanDurations(scanData)[..n] == ScanDurations(scanData);
    if n > 0 {
      assert scanData[n - 1].endOffset == scanEndOffsets[n - 1];
    }
  }

  /** The scan size of derived scan data after k scans is the k-th offset,
      0 for none */
  lemma ScanSizeOfScanData(data: seq<bv8>, scanEndOffsets: seq<nat>, k: nat)
    requires k <= |scanEndOffsets|
    ensures GetScanSize(SawmillUi.ScanData(Some(data), scanEndOffsets), k) ==
      if k == 0 then 0 else scanEndOffsets[k - 1]
  {
    ScanDataColumns(data, scanEndOffsets);
    if k > 0 {
      assert EndOffsets(SawmillUi.ScanData(Some(data), scanEndOffsets))[k - 1] == scanEndOffsets[k - 1];
    }
  }

  /** The meter's value for a derived scan data is the selected scan's end
      offset; with strictly increasing offsets it never exceeds the maximum,
      and when the first offset is positive it reaches the maximum exactly
      when the last scan is selected */
  lemma MeterValueIsSelectedEnd(data: seq<bv8>, scanEndOffsets: seq<nat>, selected: nat, playback: bool)
    requires selected <= |scanEndOffsets|
    requires forall i, j | 0 <= i < j < |scanEndOffsets| :: scanEndOffsets[i] < scanEndOffsets[j]
    ensures var scanData := SawmillUi.ScanData(Some(data), scanEndOffsets);
      var meter := GetMeterProps(scanData, selected, playback);
      var n := |scanEndOffsets|;
      meter.value == (if selected == 0 then 0 else scanEndOffsets[selected - 1]) &&
      meter.value <= meter.max &&
      (n > 0 && scanEndOffsets[0] > 0 ==> (meter.value == meter.max <==> selected == n))
  {
    var n := |scanEndOffsets|;
    ScanSizeOfScanData(data, scanEndOffsets, selected);
    ScanSizeOfScanData(data, scanEndOffsets, n);
    if 0 < selected < n {
      assert scanEndOffsets[selected - 1] < scanEndOffsets[n - 1];
    }
  }

  /** A freshly loaded file, end to end: the walker's offsets become scan data
      with positive durations, the last scan is selected, the meter is full,
      and the graduations mark every scan boundary but the last, in order */
  lemma LoadedFileMeter(buffer: seq<bv8>, playback: bool)
    ensures var offsets := JpegInspector.ScanEnds(buffer, JpegInspector.StartOfFrameOffset(buffer));
      var scanData := SawmillUi.ScanData(Some(buffer), offsets);
      var selected := |scanData|;
      var meter := GetMeterProps(scanData, selected, playback);
      (forall i | 0 <= i < |scanData| :: scanData[i].duration > 0) &&
      meter.value == meter.max &&
      meter.graduations == AllButLast(offsets)
  {
    var sof := JpegInspector.StartOfFrameOffset(buffer);
    var offsets := JpegInspector.ScanEnds(buffer, sof);
    var scanData := SawmillUi.ScanData(Some(buffer), offsets);
    JpegInspector.ScanEndsBounded(buffer, sof);
    JpegInspector.ScanEndsIncrease(buffer, sof);
    SawmillUi.DurationsPositive(offsets, 0);
    forall i | 0 <= i < |scanData| ensures scanData[i].duration > 0 {
      assert scanData[i].duration == SawmillUi.Durations(offsets, 0)[i];
    }
    MeterValueIsSelectedEnd(buffer, offsets, |offsets|, playback);
    Graduations(scanData, |scanData|, playback);
    ScanDataColumns(buffer, offsets);
    assert GraduationOffsets(scanData, |scanData|, playback) == AllButLast(offsets);
  }
}
