/** The viewer component's logic: the scan data derived from the file and its
    scan end offsets (a partial image, an end offset and a duration per scan),
    the selection events, the ctrl-wheel zoom step and the state the
    component keeps. Durations are in bytes: the animation shows each scan
    for a time proportional to the bytes it adds. */
module SawmillUi {
  import opened Wrappers
  import PartialImages
  import opened MinMax

  /** The zoom levels offered, smallest first */
  const ZOOM_LEVELS: seq<real> := [0.125, 0.25, 0.5, 1.0, 2.0, 4.0, 8.0, 16.0, 32.0]

  /** The zoom level shown after loading a file */
  const DEFAULT_ZOOM_LEVEL: real := 1.0

  /** One entry of the scan data: the partial image (its bytes stand for the
      object URL made from them), the offset where the scan ends, and the
      bytes the scan adds to the previous one */
  datatype Scan = Scan(image: seq<bv8>, endOffset: nat, duration: int)

  function Sum(xs: seq<int>): (s: int)
  {
    if xs == [] then 0 else xs[0] + Sum(xs[1..])
  }

  // ---------------------------------------------------------------------------
  // Scan data

  /** The durations the second loop of deriveScanData assigns: each end
      offset minus the one before it, `prevScanOffset` before the first */
  function Durations(endOffsets: seq<nat>, prevScanOffset: int): (durations: seq<int>)
    ensures |durations| == |endOffsets|
  {
    if endOffsets == [] then []
    else [endOffsets[0] - prevScanOffset] + Durations(endOffsets[1..], endOffsets[0])
  }

  /** Each duration is the difference of consecutive end offsets */
  lemma {:induction false} DurationsAreDeltas(endOffsets: seq<nat>, prevScanOffset: int)
    ensures forall i | 0 <= i < |endOffsets| ::
      Durations(endOffsets, prevScanOffset)[i] ==
        endOffsets[i] - (if i == 0 then prevScanOffset else endOffsets[i - 1])
  {
    if endOffsets != [] {
      var rest := endOffsets[1..];
      DurationsAreDeltas(rest, endOffsets[0]);
      var durations := Durations(endOffsets, prevScanOffset);
      assert durations == [endOffsets[0] - prevScanOffset] + Durations(rest, endOffsets[0]);
      forall i | 0 < i < |endOffsets|
        ensures durations[i] == endOffsets[i] as int - endOffsets[i - 1]
      {
        assert durations[i] == Durations(rest, endOffsets[0])[i - 1];
        assert rest[i - 1] == endOffsets[i];
        if i > 1 {
          assert rest[i - 2] == endOffsets[i - 1];
        }
      }
    }
  }

  /** The durations telescope: the first k of them add up to the k-th end
      offset (minus the starting offset), so all of them add up to the last */
  lemma {:induction false} DurationsTelescope(endOffsets: seq<nat>, prevScanOffset: int, k: nat)
    requires k <= |endOffsets|
    ensures Sum(Durations(endOffsets, prevScanOffset)[..k]) ==
      if k == 0 then 0 else endOffsets[k - 1] - prevScanOffset
  {
    if k > 0 {
      var durations := Durations(endOffsets, prevScanOffset);
      var rest := endOffsets[1..];
      DurationsTelescope(rest, endOffsets[0], k - 1);
      assert durations[..k] == [durations[0]] + Durations(rest, endOffsets[0])[..k - 1];
      if k > 1 {
        assert rest[k - 2] == endOffsets[k - 1];
      }
    }
  }

  /** Strictly increasing end offsets above the starting offset give positive
      durations */
  lemma DurationsPositive(endOffsets: seq<nat>, prevScanOffset: int)
    requires forall i, j | 0 <= i < j < |endOffsets| :: endOffsets[i] < endOffsets[j]
    requires |endOffsets| > 0 ==> prevScanOffset < endOffsets[0]
    ensures forall i | 0 <= i < |endOffsets| :: Durations(endOffsets, prevScanOffset)[i] > 0
  {
    DurationsAreDeltas(endOffsets, prevScanOffset);
  }

  /** The scan data deriveScanData returns: nothing without a file, otherwise
      one entry per offset, in order, durations counted from offset 0 */
  function ScanData(uint8Array: Option<seq<bv8>>, scanEndOffsets: seq<nat>): (scanData: seq<Scan>)
    ensures uint8Array.None? ==> scanData == []
    ensures uint8Array.Some? ==> |scanData| == |scanEndOffsets|
  {
    match uint8Array
    case None => []
    case Some(data) =>
      var durations := Durations(scanEndOffsets, 0);
      seq(|scanEndOffsets|, i requires 0 <= i < |scanEndOffsets| =>
        Scan(PartialImages.PartialImage(data, scanEndOffsets[i]), scanEndOffsets[i], durations[i]))
  }

  /** Entry i of the scan data ends at offset i, shows the file up to it
      closed with EOI, and lasts the bytes between the previous offset and it */
  lemma ScanDataEntries(data: seq<bv8>, scanEndOffsets: seq<nat>)
    ensures var scanData := ScanData(Some(data), scanEndOffsets);
      forall i | 0 <= i < |scanData| ::
        scanData[i].endOffset == scanEndOffsets[i] &&
        scanData[i].image == PartialImages.Subarray(data, scanEndOffsets[i]) + PartialImages.END_OF_IMAGE_MARKER &&
        scanData[i].duration == scanEndOffsets[i] as int - (if i == 0 then 0 else scanEndOffsets[i - 1])
  {
    DurationsAreDeltas(scanEndOffsets, 0);
  }

  method DeriveScanData(uint8Array: Option<seq<bv8>>, scanEndOffsets: seq<nat>) returns (scanData: seq<Scan>)
    ensures scanData == ScanData(uint8Array, scanEndOffsets)
  {
    scanData := [];

    if uint8Array.Some? {
      var data := uint8Array.value;
      for i := 0 to |scanEndOffsets|
        invariant |scanData| == i
        invariant forall k | 0 <= k < i ::
          scanData[k] == Scan(PartialImages.PartialImage(data, scanEndOffsets[k]), scanEndOffsets[k], 0)
      {
        var scanEndOffset := scanEndOffsets[i];
        var partialImage := PartialImages.PartialImage(data, scanEndOffset);
        scanData := scanData + [Scan(partialImage, scanEndOffset, 0)];
      }

      ghost var durations := Durations(scanEndOffsets, 0);
      DurationsAreDeltas(scanEndOffsets, 0);
      var prevScanOffset := 0;
      for i := 0 to |scanData|
        invariant |scanData| == |scanEndOffsets|
        invariant forall k | 0 <= k < |scanData| ::
          scanData[k].image == PartialImages.PartialImage(data, scanEndOffsets[k]) &&
          scanData[k].endOffset == scanEndOffsets[k]
        invariant forall k | 0 <= k < i :: scanData[k].duration == durations[k]
        invariant prevScanOffset == if i == 0 then 0 else scanEndOffsets[i - 1]
      {
        var scan := scanData[i];
        scanData := scanData[i := scan.(duration := scan.endOffset - prevScanOffset)];
        prevScanOffset := scan.endOffset;
      }
      assert forall k | 0 <= k < |scanData| :: scanData[k] == ScanData(uint8Array, scanEndOffsets)[k];
    }
  }

  // ---------------------------------------------------------------------------
  // Selection

  /** The selection events of the toolbar buttons and arrow keys */
  datatype SelectionEvent = SelectFirst | SelectPrev | SelectNext | SelectLast

  /** The selection after `event` from `current`. `lastIndex` is the number of
      scans; selecting it shows the whole file, selecting 0 shows none. */
  function Select(event: SelectionEvent, current: int, lastIndex: nat): (selected: int)
    ensures 0 <= current <= lastIndex ==> 0 <= selected <= lastIndex
    ensures event.SelectFirst? ==> selected == 0
    ensures event.SelectLast? ==> selected == lastIndex
    ensures event.SelectPrev? ==>
      0 <= selected && (0 < current ==> selected == current - 1) && (current <= 0 ==> selected == 0)
    ensures event.SelectNext? ==>
      selected <= lastIndex && (current < lastIndex ==> selected == current + 1) &&
      (lastIndex <= current ==> selected == lastIndex)
  {
    match event
    case SelectFirst => 0
    case SelectPrev => Max(0, current - 1)
    case SelectNext => Min(current + 1, lastIndex)
    case SelectLast => lastIndex
  }

  /** The selection after a series of events */
  function SelectAll(events: seq<SelectionEvent>, current: int, lastIndex: nat): (selected: int)
    ensures 0 <= current <= lastIndex ==> 0 <= selected <= lastIndex
    ensures events == [] ==> selected == current
  {
    if events == [] then current
    else SelectAll(events[1..], Select(events[0], current, lastIndex), lastIndex)
  }

  /** No series of selection events leaves [0, lastIndex], and a series of
      SelectPrev or SelectNext events moves one scan at a time */
  lemma {:induction false} SelectionStaysInRange(events: seq<SelectionEvent>, current: int, lastIndex: nat)
    requires 0 <= current <= lastIndex
    ensures 0 <= SelectAll(events, current, lastIndex) <= lastIndex
    ensures (forall i | 0 <= i < |events| :: events[i].SelectNext?) ==>
      SelectAll(events, current, lastIndex) == Min(current + |events|, lastIndex)
    ensures (forall i | 0 <= i < |events| :: events[i].SelectPrev?) ==>
      SelectAll(events, current, lastIndex) == Max(0, current - |events|)
  {
    if events != [] {
      SelectionStaysInRange(events[1..], Select(events[0], current, lastIndex), lastIndex);
    }
  }

  // ---------------------------------------------------------------------------
  // Zoom

  /** `zoomLevels.indexOf(level)`: the first index holding `level`, or -1 */
  function IndexOf(levels: seq<real>, level: real): (index: int)
    ensures -1 <= index < |levels|
    ensures 0 <= index ==> levels[index] == level && forall k | 0 <= k < index :: levels[k] != level
    ensures index == -1 ==> level !in levels
    decreases |levels|
  {
    if |levels| == 0 then -1
    else if levels[0] == level then 0
    else
      var rest := IndexOf(levels[1..], level);
      if rest == -1 then -1 else rest + 1
  }

  /** `Math.sign` */
  function Sign(x: real): (s: int)
    ensures -1 <= s <= 1
    ensures s as real * x >= 0.0
    ensures s == 0 <==> x == 0.0
  {
    if x > 0.0 then 1 else if x < 0.0 then -1 else 0
  }

  /** A wheel event: whether a handler already took it, the ctrl key, the
      vertical delta and the cursor position */
  datatype WheelEvent = WheelEvent(
    defaultPrevented: bool,
    ctrlKey: bool,
    deltaY: real,
    clientX: real,
    clientY: real)

  /** A zoom: its level and, when the wheel set it, the cursor position */
  datatype Zoom = Zoom(zoomLevel: real, clientPos: Option<(real, real)>)

  /** What the wheel handler does: the zoom it sets, if any, and whether it
      prevents the default scrolling */
  datatype WheelOutcome = WheelOutcome(newZoom: Option<Zoom>, preventDefault: bool)

  /** A ctrl-wheel moves the zoom one level against the wheel direction when
      that level exists; any other wheel event is left to the browser */
  function HandleWheelEvent(e: WheelEvent, zoomLevel: real): (outcome: WheelOutcome)
    ensures outcome.preventDefault <==> !e.defaultPrevented && e.ctrlKey
    ensures outcome.newZoom.Some? <==>
      outcome.preventDefault && 0 <= IndexOf(ZOOM_LEVELS, zoomLevel) - Sign(e.deltaY) < |ZOOM_LEVELS|
    ensures outcome.newZoom.Some? ==>
      outcome.newZoom.value.clientPos == Some((e.clientX, e.clientY))
  {
    if e.defaultPrevented || !e.ctrlKey then WheelOutcome(None, false)
    else
      var newLevelIndex := IndexOf(ZOOM_LEVELS, zoomLevel) - Sign(e.deltaY);
      if 0 <= newLevelIndex < |ZOOM_LEVELS|
      then WheelOutcome(Some(Zoom(ZOOM_LEVELS[newLevelIndex], Some((e.clientX, e.clientY)))), true)
      else WheelOutcome(None, true)
  }

  /** The zoom levels strictly increase */
  lemma ZoomLevelsIncrease(i: int, j: int)
    requires 0 <= i < j < |ZOOM_LEVELS|
    ensures ZOOM_LEVELS[i] < ZOOM_LEVELS[j]
  {
  }

  /** Each zoom level has one index */
  lemma ZoomLevelIndex(k: int)
    requires 0 <= k < |ZOOM_LEVELS|
    ensures IndexOf(ZOOM_LEVELS, ZOOM_LEVELS[k]) == k
  {
    var index := IndexOf(ZOOM_LEVELS, ZOOM_LEVELS[k]);
    if index < k {
      ZoomLevelsIncrease(index, k);
    }
  }

  /** A ctrl-wheel that zooms picks the level one index away from the
      current one, in the direction opposite to the sign of the delta */
  lemma WheelPicksAdjacentLevel(e: WheelEvent, zoomLevel: real)
    requires HandleWheelEvent(e, zoomLevel).newZoom.Some?
    ensures var newIndex := IndexOf(ZOOM_LEVELS, zoomLevel) - Sign(e.deltaY);
      0 <= newIndex < |ZOOM_LEVELS| &&
      HandleWheelEvent(e, zoomLevel).newZoom.value.zoomLevel == ZOOM_LEVELS[newIndex]
  {
    var newIndex := IndexOf(ZOOM_LEVELS, zoomLevel) - Sign(e.deltaY);
    var outcome := HandleWheelEvent(e, zoomLevel);
    assert !e.defaultPrevented && e.ctrlKey && 0 <= newIndex < |ZOOM_LEVELS|;
    var level := ZOOM_LEVELS[newIndex];
    assert outcome == WheelOutcome(Some(Zoom(level, Some((e.clientX, e.clientY)))), true);
  }

  /** From a listed level, a ctrl-wheel moves the zoom index by the sign of
      the delta, so by at most one: a level down for a positive delta, a level
      up for a negative one, the same level for a zero delta */
  lemma WheelStepsOneLevel(e: WheelEvent, zoomLevel: real)
    requires zoomLevel in ZOOM_LEVELS
    requires HandleWheelEvent(e, zoomLevel).newZoom.Some?
    ensures var newLevel := HandleWheelEvent(e, zoomLevel).newZoom.value.zoomLevel;
      IndexOf(ZOOM_LEVELS, newLevel) == IndexOf(ZOOM_LEVELS, zoomLevel) - Sign(e.deltaY)
    ensures var newLevel := HandleWheelEvent(e, zoomLevel).newZoom.value.zoomLevel;
      (e.deltaY > 0.0 ==> newLevel < zoomLevel) &&
      (e.deltaY < 0.0 ==> newLevel > zoomLevel) &&
      (e.deltaY == 0.0 ==> newLevel == zoomLevel)
  {
    var index := IndexOf(ZOOM_LEVELS, zoomLevel);
    var newIndex := index - Sign(e.deltaY);
    assert zoomLevel == ZOOM_LEVELS[index];
    WheelPicksAdjacentLevel(e, zoomLevel);
    ZoomLevelIndex(newIndex);
    if newIndex < index {
      ZoomLevelsIncrease(newIndex, index);
    } else if index < newIndex {
      ZoomLevelsIncrease(index, newIndex);
    }
  }

  // ---------------------------------------------------------------------------
  // Component state

  /** The state the component keeps between renders (the model follows the
      scan data, the selection, the zoom and the two flags a load resets) */
  class SawmillUiState {
    var scanData: seq<Scan>
    var selected: int
    var zoom: Zoom
    var diffView: bool
    var playback: bool

    /** The selection is a scan count and the zoom a listed level */
    ghost predicate Valid()
      reads this
    {
      0 <= selected <= |scanData| && zoom.zoomLevel in ZOOM_LEVELS
    }

    constructor()
      ensures Valid()
      ensures scanData == [] && selected == 0 && zoom == Zoom(DEFAULT_ZOOM_LEVEL, None)
      ensures !diffView && !playback
    {
      scanData := [];
      selected := 0;
      zoom := Zoom(DEFAULT_ZOOM_LEVEL, None);
      diffView := false;
      playback := false;
    }

    /** The effect run for a new file: derive the scan data, select the last
      scan (the whole image) and reset the view */
    method OnFileLoaded(uint8Array: Option<seq<bv8>>, scanEndOffsets: seq<nat>)
      modifies this
      ensures Valid()
      ensures scanData == ScanData(uint8Array, scanEndOffsets)
      ensures selected == |scanData|
      ensures zoom == Zoom(DEFAULT_ZOOM_LEVEL, None) && !diffView && !playback
    {
      var newScanData := DeriveScanData(uint8Array, scanEndOffsets);
      scanData := newScanData;
      selected := |newScanData|;
      diffView := false;
      playback := false;
      zoom := Zoom(DEFAULT_ZOOM_LEVEL, None);
    }

    method OnSelect(event: SelectionEvent)
      requires Valid()
      modifies this
      ensures Valid()
      ensures selected == Select(event, old(selected), |scanData|)
      ensures scanData == old(scanData) && zoom == old(zoom)
      ensures diffView == old(diffView) && playback == old(playback)
    {
      selected := Select(event, selected, |scanData|);
    }

    method OnWheel(e: WheelEvent) returns (preventDefault: bool)
      requires Valid()
      modifies this
      ensures Valid()
      ensures var outcome := HandleWheelEvent(e, old(zoom).zoomLevel);
        preventDefault == outcome.preventDefault &&
        zoom == (if outcome.newZoom.Some? then outcome.newZoom.value else old(zoom))
      ensures scanData == old(scanData) && selected == old(selected)
      ensures diffView == old(diffView) && playback == old(playback)
    {
      var outcome := HandleWheelEvent(e, zoom.zoomLevel);
      if outcome.newZoom.Some? {
        zoom := outcome.newZoom.value;
      }
      preventDefault := outcome.preventDefault;
    }
  }
}
