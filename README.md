# JPEG Sawmill, verified model

JPEG Sawmill shows how a progressive JPEG builds up scan by scan. A small
C++ walker, compiled to WebAssembly, finds the frame header (SOF), reads the
image size there, and finds where each scan's entropy-coded data ends. It
follows the marker syntax of ITU-T T.81 (ISO/IEC 10918-1). Two browser front
ends drive the walker:

- `load_jpeg.js` resumes it from the frame header;
- the older `jpeg_sawmill.js` resumes it from 0.

Both call it repeatedly until it reaches the end of the buffer. From the
offsets they collect, they build one partial image per scan: the file up to
the scan end, closed with an EOI marker. The viewer component turns the
offsets into scan data (a partial image, an end offset and a byte "duration"
per scan). It keeps a clamped selection and a ctrl-wheel zoom level, and it
derives the props of the progress meter.

This project models that core in Dafny:

- `jpeg_inspector.dfy` (module `JpegInspector`) is the walker.
  - The buffer is an immutable `seq<bv8>`. Words are `bv16`, built with the
    source's shift and or. Marker classes use the source's masks.
  - Every read goes through `GetByte` / `GetWord`, whose preconditions are the
    source's `canGetByte` / `canGetWord` guards, so the verifier checks that no
    read is out of bounds.
  - The walker has five loops in three functions: two in `findNextMarker`,
    one in `getStartOfFrameOffset` and two in `getScanEndOffset`. They are
    the methods `FindNextMarker` (both of its loops), `FindFrameHeader`,
    `SkipToScanData` and `FindScanEnd`. Each is proved equal to a recursive
    specification function (`NextMarker`, `SofSearch`, `SeekScanData`,
    `EntropyEnd`), and the walker's properties are proved about those
    functions.
  - `ScanEnds` is the list a driver collects by resuming the walker until it
    returns the buffer length.
- `load_jpeg.dfy` (module `JpegLoader`) is the inspection part of `loadJPEG`,
  with its collection loop.
- `jpeg_sawmill.dfy` (module `JpegSawmill`) is the older page script. A
  `Page` class holds the images shown and the results' hidden flag;
  `LoadJpeg` and `CreateImgTags` update them.
- `partial_images.dfy` (module `PartialImages`) holds the partial image built
  from the offsets, shared by both front ends.
- `sawmill_ui.dfy` (module `SawmillUi`) holds the viewer's scan data,
  selection and zoom logic, and a `SawmillUiState` class for the state the
  component keeps.
- `sawmill_viewer.dfy` (module `SawmillViewer`) holds the scan size and the
  meter props.
- `min_max.dfy` (module `MinMax`) holds the integer clamps both halves use.
- `wrappers.dfy` holds an `Option` type.

The drivers collect the offset of the marker that ends every scan, the EOI
that ends the last one included, so a file that ends in EOI gives one offset
per scan, and each partial image, the last included, ends just before a real
marker. `OneScanImage` shows this on a minimal marker skeleton of a one-scan
file (no tables, so no decoder would accept it): resumed
from its frame header or from 0, the walker collects one offset, its EOI.

## Model

| member | source | states |
|---|---|---|
| JpegInspector.CanGetByte | src/jpeg_inspector.cpp:309-312 | the bounds check of a single read: `0 <= o < length`; every byte read in the model is guarded by it |
| JpegInspector.GetByte | src/jpeg_inspector.cpp:314-317 | a read only callable where CanGetByte holds, so no read leaves the buffer; WordIsTwoBytes relates it to GetWord |
| JpegInspector.CanGetWord | src/jpeg_inspector.cpp:319-322 | a word is readable at `o` exactly when bytes are readable at `o` and `o + 1` |
| JpegInspector.WordIsTwoBytes | src/jpeg_inspector.cpp:314-327 | where a word is readable, both bytes are, and the word is the first byte read times 256 plus the second |
| JpegInspector.Join | src/jpeg_inspector.cpp:324-327 | shifting the first byte left by 8 and or-ing in the second gives the big-endian value `hi * 256 + lo` |
| JpegInspector.GetWord | src/jpeg_inspector.cpp:319-327 | only callable where `canGetWord` holds (`0 <= o && o + 1 < length`); the word is `b[o] * 256 + b[o + 1]` |
| JpegInspector.AreInputsValid | src/jpeg_inspector.cpp:251-264 | valid exactly when the start offset lies in `[0, length)` (a non-positive length has no such offset) |
| JpegInspector.IsStartOfImagePresent | src/jpeg_inspector.cpp:266-285 | present exactly when the buffer has at least two bytes and starts `FF D8` |
| JpegInspector.IsStartOfFramePresent | src/jpeg_inspector.cpp:287-307 | present exactly when two bytes are readable at the offset, the first is `FF` and the second is a frame header code (`C0..CF` except `C4`, `C8`, `CC`) |
| JpegInspector.IsStartOfFrameMarker | src/jpeg_inspector.cpp:357-361 | the mask test holds exactly for `0xFFC0..0xFFCF` minus DHT `0xFFC4`, JPG `0xFFC8` and DAC `0xFFCC` |
| JpegInspector.IsRestartMarker | src/jpeg_inspector.cpp:363-366 | the mask test holds exactly for RST0..RST7, `0xFFD0..0xFFD7` |
| JpegInspector.SkipToLastPrefix | src/jpeg_inspector.cpp:337-341 | the second loop of findNextMarker never moves back, and stops inside the buffer unless it did not move |
| JpegInspector.SkippedBytesAreFill | src/jpeg_inspector.cpp:337-341 | every byte the second loop steps onto is `FF`, and the byte after where it stops is not `FF` (or is past the end) |
| JpegInspector.NextMarker | src/jpeg_inspector.cpp:329-344 | findNextMarker never returns less than its input, nor more than the length when it starts inside the buffer |
| JpegInspector.NextMarkerIsFirstRun | src/jpeg_inspector.cpp:329-344 | below the length the result holds `FF` and the next byte is the end or not `FF` (the last fill byte); every `FF` met from the input on is followed by `FF` up to the result; a result at or past the length means no `FF` from the input on |
| JpegInspector.FindNextMarker | src/jpeg_inspector.cpp:329-344 | the two loops return the offset NextMarker specifies |
| JpegInspector.NextMarkerAtMarker | src/jpeg_inspector.cpp:329-344 | at `FF` followed by a byte other than `FF`, findNextMarker does not move |
| JpegInspector.SkipMarkerSegment | src/jpeg_inspector.cpp:346-355 | with a readable length field the result is the offset plus its big-endian value; otherwise the length; never below an offset at or inside the length; at most `length + 0xFFFD` |
| JpegInspector.SofSearch | src/jpeg_inspector.cpp:102-123 | the frame-header search loop never moves back |
| JpegInspector.SofSearchFindsFrameHeader | src/jpeg_inspector.cpp:102-123 | the search stops on a frame header marker or at/after the end of the buffer |
| JpegInspector.SofSearchStep | src/jpeg_inspector.cpp:104-120 | one loop iteration: no readable word ends the search at the length, a frame header marker ends it there, any other marker continues after that segment |
| JpegInspector.StartOfFrameOffset | src/jpeg_inspector.cpp:90-127 | getStartOfFrameOffset returns at most the length; the length when the buffer has at most 2 bytes or lacks SOI; otherwise at least 2 |
| JpegInspector.StartOfFrameOffsetIsFrameHeader | src/jpeg_inspector.cpp:90-127 | a result below the length is the offset of a frame header marker |
| JpegInspector.FindFrameHeader | src/jpeg_inspector.cpp:101-123 | the loop returns the offset SofSearch specifies |
| JpegInspector.GetStartOfFrameOffset | src/jpeg_inspector.cpp:90-127 | the guard, the loop and the clamp return StartOfFrameOffset |
| JpegInspector.ReadFrameField | src/jpeg_inspector.cpp:129-181 | the shared shape of both readers: the big-endian word `fieldOffset` bytes after Lf when SOI is at 0, a frame header marker is at the offset, Lf is at least `2 + fieldOffset` and the word is readable; 0 otherwise |
| JpegInspector.GetImageWidth | src/jpeg_inspector.cpp:129-154 | the word at `sof + 7` (X) when those guards hold with Lf ≥ 7, else 0 |
| JpegInspector.GetImageHeight | src/jpeg_inspector.cpp:156-181 | the word at `sof + 5` (Y) when those guards hold with Lf ≥ 5, else 0 |
| JpegInspector.SeekScanData | src/jpeg_inspector.cpp:195-217 | the scan-header loop moves strictly forward from any offset inside the buffer |
| JpegInspector.SeekScanDataStep | src/jpeg_inspector.cpp:197-216 | one loop iteration: no readable word ends at the length, SOS ends after its segment, any other marker continues after its segment |
| JpegInspector.EntropyEnd | src/jpeg_inspector.cpp:220-243 | the entropy-data loop never moves back |
| JpegInspector.EntropyEndStep | src/jpeg_inspector.cpp:222-242 | one loop iteration: no readable word ends at the length, stuffing/DNL/RST continue two bytes on, any other marker ends there |
| JpegInspector.NextMarkerPassesNoScanEnd | src/jpeg_inspector.cpp:329-344 | findNextMarker passes over no real marker: every `FF` before its result is followed by `FF` |
| JpegInspector.EntropyEndIsScanEnd | src/jpeg_inspector.cpp:220-243 | the entropy-data loop stops on the first real marker from its start, `FF` followed by a byte that is not `00`, `FF`, `DC` or `D0..D7`, or at the length when there is none: stuffing, DNL and restart markers never end a scan, and no real marker is passed over |
| JpegInspector.ScanEndOffset | src/jpeg_inspector.cpp:183-247 | getScanEndOffset returns at most the length; the length for a start outside `[0, length)` or without SOI; strictly more than the start otherwise; and a result below the length is past the SOI marker |
| JpegInspector.ScanEndIsRealMarker | src/jpeg_inspector.cpp:219-243 | a result below the length is a real marker (`b[r] == FF` and `b[r+1]` is none of `00`, `FF`, `DC`, `D0..D7`), and for valid inputs it is the first one after the scan header: none lies between the end of the SOS segment and the result |
| JpegInspector.SkipToScanData | src/jpeg_inspector.cpp:194-217 | the first loop returns the offset SeekScanData specifies |
| JpegInspector.FindScanEnd | src/jpeg_inspector.cpp:219-243 | the second loop returns the offset EntropyEnd specifies |
| JpegInspector.GetScanEndOffset | src/jpeg_inspector.cpp:183-247 | the guard, the start `max(2, startOffset)`, both loops and the clamp return ScanEndOffset |
| JpegInspector.ScanEnds | _site/load_jpeg.js:59-68 | the offsets a driver collects by resuming the walker from the last result until it returns the length; ScanEndsBounded, ScanEndsIncrease and ScanEndsAreScanEnds state their properties |
| JpegInspector.ScanEndsBounded | _site/load_jpeg.js:59-68 | every collected offset lies strictly between the resume offset and the buffer length, and past SOI |
| JpegInspector.ResumeAtMarkerSteps | src/jpeg_inspector.cpp:183-217 | resumed at a scan end, the walker's next result is at least two bytes further on: it moves past that marker |
| JpegInspector.ScanEndsIncrease | _site/load_jpeg.js:59-68 | each collected offset is at least two bytes after the one before, so they are strictly increasing |
| JpegInspector.ScanEndsAreScanEnds | _site/load_jpeg.js:59-68 | every collected offset is a real marker that ends a scan |
| JpegInspector.SeekScanDataSkipsFrameHeader | src/jpeg_inspector.cpp:195-217 | the scan search from a frame header marker reaches the same scan data as from any offset whose next marker it is |
| JpegInspector.SeekScanDataFromFrameHeader | src/jpeg_inspector.cpp:102-123 | when a frame header precedes the first SOS, the frame-header search stops inside the buffer, and the scan search from there reaches the same scan data as from the chain start |
| JpegInspector.ScanEndFromZero | src/jpeg_inspector.cpp:192 | for every buffer, a start of 0 gives the same result as a start of 2, just after SOI |
| JpegInspector.DriversAgree | _site/jpeg_sawmill.js:64-77 | when a frame header precedes the first scan, resuming from the SOF offset (load_jpeg.js) and from 0 (jpeg_sawmill.js) collect the same offsets |
| JpegInspector.OneScanImageMarkers | src/jpeg_inspector.cpp:266-285 | the one-scan image `FF D8 FF C0 00 0B 08 00 01 00 01 01 01 11 00 FF DA 00 02 11 FF D9` starts with SOI and has SOF0 at 2, SOS at 15 and EOI at 20 |
| JpegInspector.OneScanImageSegments | src/jpeg_inspector.cpp:346-355 | its frame header segment (Lf = 11) ends at 15 and its SOS segment (length 2) at 19 |
| JpegInspector.OneScanImageFrameHeader | src/jpeg_inspector.cpp:90-127 | getStartOfFrameOffset finds its frame header at 2 |
| JpegInspector.OneScanImageScanHeader | src/jpeg_inspector.cpp:195-217 | from its SOS marker the scan-header loop stops at 19, after the 2-byte SOS header |
| JpegInspector.OneScanImageScanData | src/jpeg_inspector.cpp:195-217 | from its frame header the scan-header loop skips the frame header segment and the SOS segment and stops at 19 |
| JpegInspector.OneScanImageEntropyEnd | src/jpeg_inspector.cpp:219-243 | from 19 the entropy-data loop passes the data byte and stops on the EOI at 20 |
| JpegInspector.OneScanImageEnd | src/jpeg_inspector.cpp:183-247 | getScanEndOffset from 2 and from 0 returns 20, the EOI |
| JpegInspector.OneScanImageResume | src/jpeg_inspector.cpp:183-247 | resumed at that EOI, with no length field after it, the walker returns the buffer length |
| JpegInspector.OneScanImage | _site/load_jpeg.js:55-68 | that one-scan image yields exactly one offset, `[20]`, whether the walker is resumed from the frame header offset (load_jpeg.js) or from 0 (jpeg_sawmill.js, lines 64-77): the EOI ending the last scan is collected |
| JpegLoader.CollectScanEnds | _site/load_jpeg.js:59-68 | the `for (;;)` loop terminates and pushes exactly ScanEnds from its start, the first result at or past the length ending it unpushed |
| JpegLoader.LoadJpeg | _site/load_jpeg.js:25-84 | no file or an empty file: the callback is not called; otherwise it gets the buffer, width and height read at the SOF offset, and the offsets collected from that same offset; these are below the length, real scan ends, each at least two bytes past the one before, and empty when no SOF is found |
| PartialImages.Subarray | _site/jpeg_sawmill.js:106 | the prefix of the data of length `min(end, |data|)` |
| PartialImages.PartialImage | _site/components/sawmill_ui.js:26-39 | a prefix of the data followed by `FF D9`, two bytes longer than the clamped offset |
| PartialImages.PartialImages | _site/jpeg_sawmill.js:105-113 | one partial image per offset, in order |
| PartialImages.PartialImageOfScanEnd | _site/jpeg_sawmill.js:105-113 | the image at a collected offset is exactly `data[..offset] + FF D9`, of length `offset + 2`, starting with the file's SOI |
| PartialImages.PartialImagesGrow | _site/components/sawmill_ui.js:35-39 | a later scan end gives an image whose bytes before EOI extend those of an earlier one |
| JpegSawmill.Page.CreateImgTags | _site/jpeg_sawmill.js:97-115 | the old images are all removed and replaced by one partial image per offset, in order; the results flag is untouched |
| JpegSawmill.Page.LoadJpeg | _site/jpeg_sawmill.js:36-95 | no file or an empty file changes nothing; otherwise the loop from 0 terminates, the page shows one partial image per offset of ScanEnds from 0, and the results are shown |
| SawmillUi.Durations | _site/components/sawmill_ui.js:47-51 | one duration per end offset |
| SawmillUi.DurationsAreDeltas | _site/components/sawmill_ui.js:47-51 | `duration[0] = endOffset[0] - prev` and `duration[i] = endOffset[i] - endOffset[i-1]` |
| SawmillUi.DurationsTelescope | _site/components/sawmill_ui.js:47-51 | the first k durations add up to the k-th end offset minus the start, so all of them add up to the last end offset |
| SawmillUi.DurationsPositive | _site/components/sawmill_ui.js:47-51 | strictly increasing offsets above the start give positive durations |
| SawmillUi.ScanData | _site/components/sawmill_ui.js:30-55 | no file gives no scan data; otherwise one entry per offset |
| SawmillUi.ScanDataEntries | _site/components/sawmill_ui.js:35-51 | entry i has end offset `offsets[i]`, image `subarray(0, offsets[i]) + FF D9`, and duration the difference from the previous offset (from 0 for the first) |
| SawmillUi.DeriveScanData | _site/components/sawmill_ui.js:30-55 | the two loops, the second updating each entry's duration in place, return ScanData |
| SawmillUi.Select | _site/components/sawmill_ui.js:171-176 | First gives 0 and Last the scan count; Prev steps down one, not below 0; Next steps up one, not above the count; from inside `[0, count]` the result stays inside |
| SawmillUi.SelectAll | _site/components/sawmill_ui.js:171-176 | a series of selection events applied in turn; from inside `[0, count]` the result stays inside, and no events change nothing |
| SawmillUi.SelectionStaysInRange | _site/components/sawmill_ui.js:171-176 | any series of selection events keeps the selection in `[0, count]`; k Next events give `min(current + k, count)` and k Prev events `max(0, current - k)` |
| SawmillUi.IndexOf | _site/components/sawmill_ui.js:115 | `indexOf`: the first index holding the level, or -1 exactly when it is absent |
| SawmillUi.Sign | _site/components/sawmill_ui.js:115 | `Math.sign`: -1, 0 or 1, of the same sign as its argument, and 0 exactly for 0 |
| SawmillUi.HandleWheelEvent | _site/components/sawmill_ui.js:112-128 | the default is prevented exactly for a ctrl-wheel not already handled; a new zoom is set exactly then and when `indexOf(level) - sign(deltaY)` is a valid index, with the cursor position |
| SawmillUi.ZoomLevelsIncrease | _site/components/sawmill_ui.js:27 | the zoom levels strictly increase |
| SawmillUi.ZoomLevelIndex | _site/components/sawmill_ui.js:27 | each zoom level has a single index |
| SawmillUi.WheelPicksAdjacentLevel | _site/components/sawmill_ui.js:115-121 | the new zoom level is the one at `indexOf(level) - sign(deltaY)` |
| SawmillUi.WheelStepsOneLevel | _site/components/sawmill_ui.js:115-123 | from a listed level the zoom index moves by exactly `-sign(deltaY)`, so by at most one: a smaller level for a positive delta, a larger one for a negative delta, the same for zero |
| SawmillUi.SawmillUiState.constructor | _site/components/sawmill_ui.js:133-139 | initial state: no scan data, selection 0, zoom level 1, diff view and playback off |
| SawmillUi.SawmillUiState.OnFileLoaded | _site/components/sawmill_ui.js:143-150 | a new file sets the scan data to ScanData of it, selects the last scan (`selected = scanData.length`) and resets zoom, diff view and playback |
| SawmillUi.SawmillUiState.OnSelect | _site/components/sawmill_ui.js:171-176 | the selection becomes Select of the event, within `[0, scanData.length]`; nothing else changes |
| SawmillUi.SawmillUiState.OnWheel | _site/components/sawmill_ui.js:112-128 | the zoom takes the handler's new zoom when there is one and is unchanged otherwise, staying a listed level; prevent-default is reported; nothing else changes |
| SawmillViewer.GetScanSize | _site/components/sawmill_viewer.js:27-29 | the bytes the first `selected` scans cover; ScanSizeIsElapsedDuration states its value |
| SawmillViewer.EndOffsets | _site/components/sawmill_viewer.js:59 | one end offset per scan |
| SawmillViewer.ScanDurations | _site/components/sawmill_viewer.js:59 | one duration per scan |
| SawmillViewer.AllButLast | _site/components/sawmill_viewer.js:60 | `.slice(0, -1)`: a non-empty list is the result followed by its last element; the empty list gives the empty list |
| SawmillViewer.FilterGraduations | _site/components/sawmill_viewer.js:61 | the filter keeps everything in playback, drops one element exactly when the selected index falls in the list outside playback, and keeps only elements of its input |
| SawmillViewer.GraduationOffsets | _site/components/sawmill_viewer.js:57-61 | every graduation is the end offset of a scan other than the last |
| SawmillViewer.GetMeterProps | _site/components/sawmill_viewer.js:63-68 | the meter passes playback through, and with non-decreasing end offsets its value never exceeds its max |
| SawmillViewer.ScanDataColumns | _site/components/sawmill_viewer.js:58-59 | the end offsets of derived scan data are the offsets it came from, and its durations are their differences |
| SawmillViewer.ScanSizeIsElapsedDuration | _site/components/sawmill_viewer.js:27-29 | `getScanSize(d, 0) == 0` and `getScanSize(d, k) == d[k-1].endOffset` equal the sum of the first k durations |
| SawmillViewer.FilterRemovesSelected | _site/components/sawmill_viewer.js:61 | the filter drops exactly the element at index `selected - 1` outside playback, and nothing in playback or when that index is out of range |
| SawmillViewer.Graduations | _site/components/sawmill_viewer.js:58-61 | the graduations are every end offset but the last, less the selected scan's outside playback, in the original order; there are at most `scanData.length - 1` |
| SawmillViewer.RemoveKeepsOrder | _site/components/sawmill_viewer.js:61 | removing one element keeps a strictly increasing list strictly increasing and below its bound |
| SawmillViewer.GraduationsBelowLast | _site/components/sawmill_viewer.js:58-61 | with increasing end offsets, the graduations are increasing and all below the last scan's end offset, so it is never one of them |
| SawmillViewer.ScanSizeOfScanData | _site/components/sawmill_viewer.js:27-29 | on derived scan data, the size of the first k scans is the k-th collected offset, 0 for none |
| SawmillViewer.MeterMaxIsTotal | _site/components/sawmill_viewer.js:63-66 | the meter max is the last scan's end offset, which is also the sum of all durations |
| SawmillViewer.MeterValueIsSelectedEnd | _site/components/sawmill_viewer.js:63-66 | the meter value is the selected scan's end offset (0 for none), at most the max, and with a positive first offset equal to it exactly when the last scan is selected |
| MinMax.Min | src/jpeg_inspector.cpp:246 | `std::min` / `Math.min` on integers: at most both arguments and equal to one of them |
| MinMax.Max | src/jpeg_inspector.cpp:192 | `std::max` / `Math.max` on integers: at least both arguments and equal to one of them |
| SawmillViewer.LoadedFileMeter | _site/components/sawmill_viewer.js:58-68 | for a freshly loaded file the durations are positive, the meter is full, and the graduations are every offset but the last |

## Left out

- The WebAssembly plumbing is not modelled: memory sizing, `_malloc`/`_free` and the copy into `HEAPU8`. The buffer is a non-null byte sequence, so the null buffer check in `areInputsValid` never fires, and allocation is taken to succeed.
- `int32_t` wrap-around is not modelled: offsets are unbounded integers. `SkipMarkerSegment` proves every offset stays at or below `length + 0xFFFD`, so no sum overflows while the buffer is at most `0x7FFF0000` bytes long.
- The `DEBUG_LOG` calls, the `EMSCRIPTEN_DEBUG` blocks and every `console.log` are left out; they do not affect results.
- The `EMSCRIPTEN_DEBUG` block of `isStartOfFramePresent` (src/jpeg_inspector.cpp:297-299) guards its `getWord(startOfFrameOffset, …)` with `canGetWord(0, length)` rather than `canGetWord(startOfFrameOffset, length)`. In a debug build, a call with `startOfFrameOffset == length - 1` therefore reads `buffer[length]`, and the in-bounds guarantee above does not cover that path. The drivers never take it: they pass the result of `getStartOfFrameOffset`, and a result below the length always has a readable word (`StartOfFrameOffsetIsFrameHeader`).
- `src/jpeg_inspector.h` is not part of this model; it only declares the exported functions.
- Browser objects are not modelled. `Blob`, `URL.createObjectURL` / `revokeObjectURL` and the `img` elements become the bytes of each partial image. A scan's `objectUrl` is its image bytes, and `releaseScanData` (revoking them) is left out.
- In `loadJPEG` the callback becomes the returned `Inspection`. The file reading (`file.arrayBuffer()`) becomes the `files` parameter.
- The page's `elementImages` children become the `images` field of `Page`; `removeChild` of the first child becomes dropping the head of that sequence.
- In `deriveScanData`, a scan has no `duration` until the second loop sets it. The model stores 0 there; nothing reads it before the second loop.
- The component's other state is left out: brightness, duration setting, scanlines, refs, focus and scroll effects. So are the cleanup effect, the keyboard and animation-end handlers, playback updates and `onZoomLevelSet`. These are Preact hook wiring and DOM behaviour.
- The loaded-file effect sets the zoom to `{ zoomLevel: 1 }` without a cursor position; the model writes that as `Zoom(1.0, None)`.
- SawmillUi.Sign: `Math.sign` on a real; NaN and signed zeros are not modelled, because the model uses exact reals.
- The zoom levels are exact reals, not IEEE doubles. Every listed level is exactly representable, so equality in `indexOf` behaves the same.
- Targeted zoom and scroll geometry, `graduated_meter.js`, `sawmill_meter.js`, `sawmill_viewer_filter.js` and the viewer's class and style strings are left out. They are floating-point and DOM presentation.
- `progressive_jpeg.js` is left out. It is an older component whose clamps and meter logic repeat `sawmill_ui.js` and `sawmill_viewer.js`.
- SawmillViewer.GetScanSize has no contract of its own: it requires `0 <= selected <= scanData.length`, which the component keeps, and ScanSizeIsElapsedDuration and the meter lemmas state what it returns.
