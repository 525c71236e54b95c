/** Model of the JPEG marker walker: a bounds-checked parser over a raw byte
    buffer following the marker syntax of ITU-T T.81 (ISO/IEC 10918-1): marker
    codes of Table B.1, fill bytes before a marker (section B.1.1.2),
    self-counting big-endian segment lengths (section B.1.1.4), stuffing and
    restart markers inside entropy-coded data (section B.1.1.5), the frame
    header layout Lf, P, Y, X (section B.2.2) and the DNL marker (section B.2.5).

    The buffer is immutable and its length is `|buffer|`. Every failure is a
    sentinel (the buffer length for offsets, 0 for dimensions). Every read goes
    through GetByte / GetWord, whose preconditions are the source's
    canGetByte / canGetWord guards, so the verifier checks that no read is out
    of bounds.

    The loops of findNextMarker, getStartOfFrameOffset and getScanEndOffset are
    methods; each is proved equal to a recursive specification function, and the
    properties of the walker are stated on those functions. */
module JpegInspector {
  import opened MinMax

  // Markers start with this byte, which can be repeated as fill
  const MARKER_PREFIX: bv8 := 0xFF

  const MARKER_SOI: bv16 := 0xFFD8
  const MARKER_EOI: bv16 := 0xFFD9

  const MARKER_SOS: bv16 := 0xFFDA

  // Start of Frame markers share this upper nibble pattern
  const MARKER_SOF0: bv16 := 0xFFC0
  const MASK_SOF: bv16 := 0xFFF0

  // Markers in the SOF range that are not frame headers
  const MARKER_DHT: bv16 := 0xFFC4
  const MARKER_JPG: bv16 := 0xFFC8
  const MARKER_DAC: bv16 := 0xFFCC

  // Byte stuffing inside entropy-coded data
  const MARKER_IGNORE: bv16 := 0xFF00

  // Define Number of Lines, which may follow the first scan
  const MARKER_DNL: bv16 := 0xFFDC

  // Restart markers RST0..RST7
  const MARKER_RESTART0: bv16 := 0xFFD0
  const MASK_RESTART_MODULUS: bv16 := 0x0007

  // Offsets of the height (Y) and width (X) fields after the length field Lf
  const HEIGHT_OFFSET: nat := 3
  const WIDTH_OFFSET: nat := 5

  /** The unsigned big-endian value of two bytes */
  function BigEndian(hi: bv8, lo: bv8): nat { hi as nat * 0x100 + lo as nat }

  // ---------------------------------------------------------------------------
  // Bounds-checked access

  predicate CanGetByte(offset: int, length: int)
  {
    0 <= offset < length
  }

  /** A word can be read exactly where both of its bytes can */
  predicate CanGetWord(offset: int, length: int)
    ensures CanGetWord(offset, length) <==> CanGetByte(offset, length) && CanGetByte(offset + 1, length)
  {
    0 <= offset && offset + 1 < length
  }

  function GetByte(offset: int, buffer: seq<bv8>): (b: bv8)
    requires CanGetByte(offset, |buffer|)
  {
    buffer[offset]
  }

  /** Shifting the high byte into place and or-ing in the low byte is the
      same as multiplying and adding in 16 bits */
  lemma ShiftOrIsMultiplyAdd(hi: bv8, lo: bv8)
    ensures (hi as bv16 << 8) | lo as bv16 == hi as bv16 * 0x100 + lo as bv16
  {
  }

  /** Multiplying and adding two bytes in 16 bits does not overflow */
  lemma MultiplyAddValue(hi: bv8, lo: bv8)
    ensures (hi as bv16 * 0x100 + lo as bv16) as int == hi as int * 0x100 + lo as int
  {
  }

  /** A word is its two bytes, read one at a time, the first most significant */
  lemma WordIsTwoBytes(buffer: seq<bv8>, offset: int)
    requires CanGetWord(offset, |buffer|)
    ensures CanGetByte(offset, |buffer|) && CanGetByte(offset + 1, |buffer|)
    ensures GetWord(offset, buffer) as int ==
      GetByte(offset, buffer) as int * 0x100 + GetByte(offset + 1, buffer) as int
  {
  }

  /** Two bytes joined into a word, `hi` most significant */
  function Join(hi: bv8, lo: bv8): (word: bv16)
    ensures word as int == hi as int * 0x100 + lo as int
  {
    ShiftOrIsMultiplyAdd(hi, lo);
    MultiplyAddValue(hi, lo);
    (hi as bv16 << 8) | lo as bv16
  }

  /** The 16-bit word at `offset`, first byte most significant */
  function GetWord(offset: int, buffer: seq<bv8>): (word: bv16)
    requires CanGetWord(offset, |buffer|)
    ensures word as int == BigEndian(buffer[offset], buffer[offset + 1])
  {
    Join(buffer[offset], buffer[offset + 1])
  }

  /** A non-null buffer is assumed; the source also rejects a non-positive length */
  function AreInputsValid(startOffset: int, buffer: seq<bv8>): (valid: bool)
    ensures valid <==> 0 <= startOffset < |buffer|
  {
    !(|buffer| <= 0 || !CanGetByte(startOffset, |buffer|))
  }

  function IsStartOfImagePresent(buffer: seq<bv8>): (present: bool)
    ensures present <==> |buffer| >= 2 && buffer[0] == 0xFF && buffer[1] == 0xD8
  {
    CanGetWord(0, |buffer|) && GetWord(0, buffer) == MARKER_SOI
  }

  /** The second byte of a frame header marker (SOF0..SOF15 of Table B.1) */
  predicate IsFrameCode(code: bv8)
  {
    0xC0 <= code <= 0xCF && code != 0xC4 && code != 0xC8 && code != 0xCC
  }

  function IsStartOfFramePresent(startOfFrameOffset: int, buffer: seq<bv8>): (present: bool)
    ensures present <==>
      0 <= startOfFrameOffset && startOfFrameOffset + 1 < |buffer| &&
      buffer[startOfFrameOffset] == 0xFF && IsFrameCode(buffer[startOfFrameOffset + 1])
  {
    CanGetWord(startOfFrameOffset, |buffer|) &&
    IsStartOfFrameMarker(GetWord(startOfFrameOffset, buffer))
  }

  // ---------------------------------------------------------------------------
  // Marker classification

  function IsStartOfFrameMarker(marker: bv16): (isSof: bool)
    ensures isSof <==>
      0xFFC0 <= marker <= 0xFFCF && marker != 0xFFC4 && marker != 0xFFC8 && marker != 0xFFCC
  {
    var isInSofMarkerRange := (marker & MASK_SOF) == MARKER_SOF0;
    isInSofMarkerRange && !(marker == MARKER_DHT || marker == MARKER_JPG || marker == MARKER_DAC)
  }

  function IsRestartMarker(marker: bv16): (isRestart: bool)
    ensures isRestart <==> 0xFFD0 <= marker <= 0xFFD7
  {
    (marker & !MASK_RESTART_MODULUS) == MARKER_RESTART0
  }

  /** Markers the scan-end loop steps over: stuffing, DNL and RST0..RST7 */
  predicate IsIgnoredInScan(marker: bv16)
  {
    marker == MARKER_IGNORE || marker == MARKER_DNL || IsRestartMarker(marker)
  }

  // ---------------------------------------------------------------------------
  // Marker scanning

  /** Where the second loop of findNextMarker stops: the last byte of the run of
      0xFF bytes that continues after `offset` (see SkippedBytesAreFill). */
  function SkipToLastPrefix(buffer: seq<bv8>, offset: nat): (r: nat)
    ensures offset <= r
    ensures r == offset || r < |buffer|
    decreases |buffer| - offset
  {
    if CanGetByte(offset + 1, |buffer|) && GetByte(offset + 1, buffer) == MARKER_PREFIX
    then SkipToLastPrefix(buffer, offset + 1)
    else offset
  }

  /** The offset findNextMarker returns: its first loop steps over bytes other
      than 0xFF, then its second loop moves to the last fill byte of the run of
      0xFF found, so that the word at the result is a marker code. The end of
      the buffer when no 0xFF follows (see NextMarkerIsFirstRun). It does not
      treat 0xFF00 specially. */
  function NextMarker(buffer: seq<bv8>, offset: nat): (r: nat)
    ensures offset <= r
    ensures offset <= |buffer| ==> r <= |buffer|
    decreases |buffer| - offset
  {
    if CanGetByte(offset, |buffer|) && GetByte(offset, buffer) != MARKER_PREFIX
    then NextMarker(buffer, offset + 1)
    else SkipToLastPrefix(buffer, offset)
  }

  lemma {:induction false} SkippedBytesAreFill(buffer: seq<bv8>, offset: nat)
    ensures forall i | offset < i <= SkipToLastPrefix(buffer, offset) ::
      i < |buffer| && buffer[i] == MARKER_PREFIX
    ensures var r := SkipToLastPrefix(buffer, offset);
      !CanGetByte(r + 1, |buffer|) || buffer[r + 1] != MARKER_PREFIX
    decreases |buffer| - offset
  {
    if CanGetByte(offset + 1, |buffer|) && GetByte(offset + 1, buffer) == MARKER_PREFIX {
      SkippedBytesAreFill(buffer, offset + 1);
      var r := SkipToLastPrefix(buffer, offset);
      assert r == SkipToLastPrefix(buffer, offset + 1);
      forall i | offset < i <= r ensures i < |buffer| && buffer[i] == MARKER_PREFIX {
        if i == offset + 1 {
          assert GetByte(offset + 1, buffer) == MARKER_PREFIX;
        }
      }
    } else {
      assert SkipToLastPrefix(buffer, offset) == offset;
    }
  }

  /** NextMarker stops on the last fill byte of the first run of 0xFF bytes from
      `offset`: the byte there is 0xFF and the next one (if any) is not; every
      0xFF met from `offset` on is followed by 0xFF bytes up to the result; and
      when there is no 0xFF the result is past the buffer. */
  lemma {:induction false} NextMarkerIsFirstRun(buffer: seq<bv8>, offset: nat)
    ensures var r := NextMarker(buffer, offset);
      r < |buffer| ==>
        buffer[r] == MARKER_PREFIX && (r + 1 == |buffer| || buffer[r + 1] != MARKER_PREFIX)
    ensures forall i, j | offset <= i <= j <= NextMarker(buffer, offset) && j < |buffer| ::
      buffer[i] == MARKER_PREFIX ==> buffer[j] == MARKER_PREFIX
    ensures NextMarker(buffer, offset) >= |buffer| ==>
      forall i | offset <= i < |buffer| :: buffer[i] != MARKER_PREFIX
    decreases |buffer| - offset
  {
    var r := NextMarker(buffer, offset);
    if CanGetByte(offset, |buffer|) && GetByte(offset, buffer) != MARKER_PREFIX {
      NextMarkerIsFirstRun(buffer, offset + 1);
      assert r == NextMarker(buffer, offset + 1);
      forall i, j | offset <= i <= j <= r && j < |buffer| && buffer[i] == MARKER_PREFIX
        ensures buffer[j] == MARKER_PREFIX
      {
        assert i != offset;
      }
    } else {
      assert r == SkipToLastPrefix(buffer, offset);
      SkippedBytesAreFill(buffer, offset);
    }
  }

  method FindNextMarker(start: nat, buffer: seq<bv8>) returns (offset: nat)
    ensures offset == NextMarker(buffer, start)
  {
    offset := start;

    // first loop: step over every byte other than 0xFF
    while CanGetByte(offset, |buffer|) && GetByte(offset, buffer) != MARKER_PREFIX
      invariant start <= offset
      invariant NextMarker(buffer, offset) == NextMarker(buffer, start)
      decreases |buffer| - offset
    {
      offset := offset + 1;
    }

    // second loop: move along a run of 0xFF to its last byte
    ghost var prefix := offset;
    while CanGetByte(offset + 1, |buffer|) && GetByte(offset + 1, buffer) == MARKER_PREFIX
      invariant prefix <= offset
      invariant SkipToLastPrefix(buffer, offset) == SkipToLastPrefix(buffer, prefix)
      decreases |buffer| - offset
    {
      offset := offset + 1;
    }
  }

  /** Skips a length-delimited segment whose length field is at `offset`; the
      length counts its own two bytes. The buffer length when the field cannot
      be read. */
  function SkipMarkerSegment(offset: nat, buffer: seq<bv8>): (r: nat)
    ensures CanGetWord(offset, |buffer|) ==>
      r == offset + BigEndian(buffer[offset], buffer[offset + 1])
    ensures !CanGetWord(offset, |buffer|) ==> r == |buffer|
    ensures offset <= |buffer| ==> offset <= r
    // the largest reachable offset, which fits an int32_t when |buffer| <= 0x7FFF0000
    ensures r <= |buffer| + 0xFFFD
  {
    if !CanGetWord(offset, |buffer|) then |buffer|
    else offset + GetWord(offset, buffer) as int
  }

  // ---------------------------------------------------------------------------
  // Start of Frame

  /** Where the frame-header search loop of getStartOfFrameOffset stops when it
      starts at `offset`: it follows the chain of segments (marker, then skip by
      the length field) until a frame header marker. */
  function SofSearch(buffer: seq<bv8>, offset: nat): (r: nat)
    ensures offset <= r
    decreases |buffer| - offset
  {
    if offset >= |buffer| then offset
    else
      var marker := NextMarker(buffer, offset);
      if !CanGetWord(marker, |buffer|) then |buffer|
      else if IsStartOfFrameMarker(GetWord(marker, buffer)) then marker
      else SofSearch(buffer, SkipMarkerSegment(marker + 2, buffer))
  }

  /** The frame-header search stops on a frame header marker or past the buffer */
  lemma {:induction false} SofSearchFindsFrameHeader(buffer: seq<bv8>, offset: nat)
    ensures SofSearch(buffer, offset) < |buffer| ==>
      IsStartOfFramePresent(SofSearch(buffer, offset), buffer)
    decreases |buffer| - offset
  {
    if offset < |buffer| {
      var marker := NextMarker(buffer, offset);
      if CanGetWord(marker, |buffer|) && !IsStartOfFrameMarker(GetWord(marker, buffer)) {
        SofSearchFindsFrameHeader(buffer, SkipMarkerSegment(marker + 2, buffer));
      }
    }
  }

  /** One iteration of the frame-header search, from the marker found at `offset` */
  lemma SofSearchStep(buffer: seq<bv8>, offset: nat, marker: nat)
    requires offset < |buffer| && marker == NextMarker(buffer, offset)
    ensures !CanGetWord(marker, |buffer|) ==> SofSearch(buffer, offset) == |buffer|
    ensures CanGetWord(marker, |buffer|) && IsStartOfFrameMarker(GetWord(marker, buffer)) ==>
      SofSearch(buffer, offset) == marker
    ensures CanGetWord(marker, |buffer|) && !IsStartOfFrameMarker(GetWord(marker, buffer)) ==>
      SofSearch(buffer, offset) == SofSearch(buffer, SkipMarkerSegment(marker + 2, buffer))
  {
  }

  /** The value getStartOfFrameOffset returns */
  function StartOfFrameOffset(buffer: seq<bv8>): (r: nat)
    ensures r <= |buffer|
    ensures |buffer| <= 2 || !IsStartOfImagePresent(buffer) ==> r == |buffer|
    ensures r < |buffer| ==> 2 <= r
  {
    if !AreInputsValid(2, buffer) || !IsStartOfImagePresent(buffer) then |buffer|
    else Min(SofSearch(buffer, 2), |buffer|)
  }

  /** An offset below the buffer length holds a frame header marker */
  lemma StartOfFrameOffsetIsFrameHeader(buffer: seq<bv8>)
    ensures StartOfFrameOffset(buffer) < |buffer| ==>
      IsStartOfFramePresent(StartOfFrameOffset(buffer), buffer)
  {
    SofSearchFindsFrameHeader(buffer, 2);
  }

  /** The loop of getStartOfFrameOffset: follows the segment chain from `start`
      until a frame header marker */
  method FindFrameHeader(start: nat, buffer: seq<bv8>) returns (offset: nat)
    ensures offset == SofSearch(buffer, start)
  {
    offset := start;
    while offset < |buffer|
      invariant SofSearch(buffer, offset) == SofSearch(buffer, start)
      decreases |buffer| - offset
    {
      ghost var searched := offset;
      offset := FindNextMarker(offset, buffer);
      SofSearchStep(buffer, searched, offset);
      if !CanGetWord(offset, |buffer|) {
        offset := |buffer|;
        break;
      }

      var marker := GetWord(offset, buffer);
      if IsStartOfFrameMarker(marker) {
        break;
      }

      offset := offset + 2;
      offset := SkipMarkerSegment(offset, buffer);
    }
  }

  method GetStartOfFrameOffset(buffer: seq<bv8>) returns (r: nat)
    ensures r == StartOfFrameOffset(buffer)
  {
    // the search begins at 2, the first byte past SOI
    var offset: nat := 2;

    if !AreInputsValid(offset, buffer) || !IsStartOfImagePresent(buffer) {
      return |buffer|;
    }

    offset := FindFrameHeader(offset, buffer);
    r := Min(offset, |buffer|);
  }

  // ---------------------------------------------------------------------------
  // Image dimensions

  /** The guards of getImageHeight / getImageWidth, stated on the bytes: SOI at
      0, a frame header marker at `sof` whose length field Lf covers the
      16-bit field `fieldOffset` bytes after Lf, and that field in the buffer. */
  ghost predicate FrameFieldPresent(buffer: seq<bv8>, sof: int, fieldOffset: nat)
  {
    |buffer| >= 2 && buffer[0] == 0xFF && buffer[1] == 0xD8 &&
    0 <= sof && sof + 2 + fieldOffset + 1 < |buffer| &&
    buffer[sof] == 0xFF && IsFrameCode(buffer[sof + 1]) &&
    BigEndian(buffer[sof + 2], buffer[sof + 3]) >= 2 + fieldOffset
  }

  /** Reads the 16-bit frame header field `fieldOffset` bytes after the length
      field, or 0 when a guard fails */
  function ReadFrameField(startOfFrameOffset: int, buffer: seq<bv8>, fieldOffset: nat): (value: bv16)
    ensures FrameFieldPresent(buffer, startOfFrameOffset, fieldOffset) ==>
      value as int == BigEndian(buffer[startOfFrameOffset + 2 + fieldOffset],
                                buffer[startOfFrameOffset + 3 + fieldOffset])
    ensures !FrameFieldPresent(buffer, startOfFrameOffset, fieldOffset) ==> value == 0
  {
    if !AreInputsValid(startOfFrameOffset, buffer) ||
       !IsStartOfImagePresent(buffer) ||
       !IsStartOfFramePresent(startOfFrameOffset, buffer)
    then 0
    else
      var offset := startOfFrameOffset + 2;
      if !CanGetWord(offset, |buffer|) || GetWord(offset, buffer) as int < 2 + fieldOffset then 0
      else
        var fieldAt := offset + fieldOffset;
        if !CanGetWord(fieldAt, |buffer|) then 0
        else GetWord(fieldAt, buffer)
  }

  /** X, the number of samples per line (section B.2.2), at sof + 7 */
  function GetImageWidth(startOfFrameOffset: int, buffer: seq<bv8>): (width: bv16)
    ensures FrameFieldPresent(buffer, startOfFrameOffset, WIDTH_OFFSET) ==>
      width as int == BigEndian(buffer[startOfFrameOffset + 7], buffer[startOfFrameOffset + 8])
    ensures !FrameFieldPresent(buffer, startOfFrameOffset, WIDTH_OFFSET) ==> width == 0
  {
    ReadFrameField(startOfFrameOffset, buffer, WIDTH_OFFSET)
  }

  /** Y, the number of lines (section B.2.2), at sof + 5 */
  function GetImageHeight(startOfFrameOffset: int, buffer: seq<bv8>): (height: bv16)
    ensures FrameFieldPresent(buffer, startOfFrameOffset, HEIGHT_OFFSET) ==>
      height as int == BigEndian(buffer[startOfFrameOffset + 5], buffer[startOfFrameOffset + 6])
    ensures !FrameFieldPresent(buffer, startOfFrameOffset, HEIGHT_OFFSET) ==> height == 0
  {
    ReadFrameField(startOfFrameOffset, buffer, HEIGHT_OFFSET)
  }

  // ---------------------------------------------------------------------------
  // Scan end

  /** A scan end: a real marker that is neither stuffing (0x00), fill (0xFF),
      DNL (0xDC) nor a restart marker (0xD0..0xD7) */
  ghost predicate IsScanEndAt(buffer: seq<bv8>, r: int)
  {
    0 <= r && r + 1 < |buffer| && buffer[r] == 0xFF &&
    buffer[r + 1] != 0x00 && buffer[r + 1] != 0xFF && buffer[r + 1] != 0xDC &&
    !(0xD0 <= buffer[r + 1] <= 0xD7)
  }

  /** Where the first loop of getScanEndOffset stops: it skips segments, the SOS
      segment included, and stops just after the SOS segment header. */
  function SeekScanData(buffer: seq<bv8>, offset: nat): (r: nat)
    ensures offset <= r
    ensures offset < |buffer| ==> offset < r
    decreases |buffer| - offset
  {
    if offset >= |buffer| then offset
    else
      var marker := NextMarker(buffer, offset);
      if !CanGetWord(marker, |buffer|) then |buffer|
      else
        var next := SkipMarkerSegment(marker + 2, buffer);
        if GetWord(marker, buffer) == MARKER_SOS then next
        else SeekScanData(buffer, next)
  }

  /** Where the second loop of getScanEndOffset stops: the first marker after
      `offset` that is not stuffing, DNL or a restart marker. */
  function EntropyEnd(buffer: seq<bv8>, offset: nat): (r: nat)
    ensures offset <= r
    decreases |buffer| - offset
  {
    if offset >= |buffer| then offset
    else
      var marker := NextMarker(buffer, offset);
      if !CanGetWord(marker, |buffer|) then |buffer|
      else if IsIgnoredInScan(GetWord(marker, buffer)) then EntropyEnd(buffer, marker + 2)
      else marker
  }

  /** One iteration of the scan-header search, from the marker found at `offset` */
  lemma SeekScanDataStep(buffer: seq<bv8>, offset: nat, marker: nat)
    requires offset < |buffer| && marker == NextMarker(buffer, offset)
    ensures !CanGetWord(marker, |buffer|) ==> SeekScanData(buffer, offset) == |buffer|
    ensures CanGetWord(marker, |buffer|) && GetWord(marker, buffer) == MARKER_SOS ==>
      SeekScanData(buffer, offset) == SkipMarkerSegment(marker + 2, buffer)
    ensures CanGetWord(marker, |buffer|) && GetWord(marker, buffer) != MARKER_SOS ==>
      SeekScanData(buffer, offset) == SeekScanData(buffer, SkipMarkerSegment(marker + 2, buffer))
  {
  }

  /** One iteration of the entropy-data walk, from the marker found at `offset` */
  lemma EntropyEndStep(buffer: seq<bv8>, offset: nat, marker: nat)
    requires offset < |buffer| && marker == NextMarker(buffer, offset)
    ensures !CanGetWord(marker, |buffer|) ==> EntropyEnd(buffer, offset) == |buffer|
    ensures CanGetWord(marker, |buffer|) && IsIgnoredInScan(GetWord(marker, buffer)) ==>
      EntropyEnd(buffer, offset) == EntropyEnd(buffer, marker + 2)
    ensures CanGetWord(marker, |buffer|) && !IsIgnoredInScan(GetWord(marker, buffer)) ==>
      EntropyEnd(buffer, offset) == marker
  {
  }

  /** findNextMarker passes over no real marker: before its result, every 0xFF
      is followed by another 0xFF */
  lemma NextMarkerPassesNoScanEnd(buffer: seq<bv8>, offset: nat)
    ensures forall q | offset <= q < NextMarker(buffer, offset) :: !IsScanEndAt(buffer, q)
  {
    var r := NextMarker(buffer, offset);
    NextMarkerIsFirstRun(buffer, offset);
    forall q | offset <= q < r ensures !IsScanEndAt(buffer, q) {
      if q + 1 < |buffer| && buffer[q] == MARKER_PREFIX {
        assert buffer[q + 1] == MARKER_PREFIX;
      }
    }
  }

  /** The entropy-data walk stops on the first real marker from `offset`, or
      past the buffer when there is none: stuffing, DNL and restart markers
      never end it, and it passes over no real marker */
  lemma {:induction false} EntropyEndIsScanEnd(buffer: seq<bv8>, offset: nat)
    ensures EntropyEnd(buffer, offset) < |buffer| ==> IsScanEndAt(buffer, EntropyEnd(buffer, offset))
    ensures forall q | offset <= q < EntropyEnd(buffer, offset) :: !IsScanEndAt(buffer, q)
    decreases |buffer| - offset
  {
    if offset < |buffer| {
      var marker := NextMarker(buffer, offset);
      NextMarkerPassesNoScanEnd(buffer, offset);
      if CanGetWord(marker, |buffer|) {
        if IsIgnoredInScan(GetWord(marker, buffer)) {
          EntropyEndIsScanEnd(buffer, marker + 2);
          assert !IsScanEndAt(buffer, marker) && !IsScanEndAt(buffer, marker + 1);
        } else {
          NextMarkerIsFirstRun(buffer, offset);
        }
      } else {
        assert !IsScanEndAt(buffer, marker);
      }
    }
  }

  /** The value getScanEndOffset returns */
  function ScanEndOffset(buffer: seq<bv8>, startOffset: int): (r: nat)
    ensures r <= |buffer|
    ensures !(0 <= startOffset < |buffer|) || !IsStartOfImagePresent(buffer) ==> r == |buffer|
    ensures 0 <= startOffset < |buffer| ==> startOffset < r
    ensures r < |buffer| ==> 2 < r
  {
    if !AreInputsValid(startOffset, buffer) || !IsStartOfImagePresent(buffer) then |buffer|
    else Min(EntropyEnd(buffer, SeekScanData(buffer, Max(2, startOffset))), |buffer|)
  }

  /** A scan end below the buffer length is a real marker: 0xFF followed by a
      byte that is not stuffing, fill, DNL or a restart marker. It is the first
      one after the scan header: no real marker lies between the scan data
      and the result. */
  lemma ScanEndIsRealMarker(buffer: seq<bv8>, startOffset: int)
    ensures ScanEndOffset(buffer, startOffset) < |buffer| ==>
      IsScanEndAt(buffer, ScanEndOffset(buffer, startOffset))
    ensures AreInputsValid(startOffset, buffer) && IsStartOfImagePresent(buffer) ==>
      forall q | SeekScanData(buffer, Max(2, startOffset)) <= q < ScanEndOffset(buffer, startOffset) ::
        !IsScanEndAt(buffer, q)
  {
    if AreInputsValid(startOffset, buffer) && IsStartOfImagePresent(buffer) {
      EntropyEndIsScanEnd(buffer, SeekScanData(buffer, Max(2, startOffset)));
    }
  }

  /** The first loop of getScanEndOffset: skips segments up to and including
      the SOS segment header */
  method SkipToScanData(start: nat, buffer: seq<bv8>) returns (offset: nat)
    ensures offset == SeekScanData(buffer, start)
  {
    offset := start;
    while offset < |buffer|
      invariant SeekScanData(buffer, offset) == SeekScanData(buffer, start)
      decreases |buffer| - offset
    {
      ghost var searched := offset;
      offset := FindNextMarker(offset, buffer);
      SeekScanDataStep(buffer, searched, offset);
      if !CanGetWord(offset, |buffer|) {
        offset := |buffer|;
        break;
      }

      var marker := GetWord(offset, buffer);
      offset := offset + 2;
      offset := SkipMarkerSegment(offset, buffer);

      if marker == MARKER_SOS {
        break;
      }
    }
  }

  /** The second loop of getScanEndOffset: finds the next real marker after the
      entropy-coded data */
  method FindScanEnd(start: nat, buffer: seq<bv8>) returns (offset: nat)
    ensures offset == EntropyEnd(buffer, start)
  {
    offset := start;
    while offset < |buffer|
      invariant EntropyEnd(buffer, offset) == EntropyEnd(buffer, start)
      decreases |buffer| - offset
    {
      ghost var searched := offset;
      offset := FindNextMarker(offset, buffer);
      EntropyEndStep(buffer, searched, offset);
      if !CanGetWord(offset, |buffer|) {
        offset := |buffer|;
        break;
      }

      var marker := GetWord(offset, buffer);

      // stuffing, DNL and restart markers belong to the scan
      if IsIgnoredInScan(marker) {
        offset := offset + 2;
        continue;
      }

      // a real marker: the scan ends here
      break;
    }
  }

  method GetScanEndOffset(startOffset: int, buffer: seq<bv8>) returns (r: nat)
    ensures r == ScanEndOffset(buffer, startOffset)
  {
    if !AreInputsValid(startOffset, buffer) || !IsStartOfImagePresent(buffer) {
      return |buffer|;
    }

    // a start of 0 or 1 is lifted to 2, past SOI
    var offset := SkipToScanData(Max(2, startOffset), buffer);
    offset := FindScanEnd(offset, buffer);
    r := Min(offset, |buffer|);
  }

  // ---------------------------------------------------------------------------
  // Resuming the walker

  /** The offsets a driver collects by calling getScanEndOffset repeatedly,
      each call resuming from the previous result, until a result reaches the
      buffer length; that last result is not collected. Termination is the
      walker's progress: a result below the length is above the start. */
  function ScanEnds(buffer: seq<bv8>, offset: int): (ends: seq<nat>)
    decreases |buffer| - offset
  {
    var next := ScanEndOffset(buffer, offset);
    if next >= |buffer| then [] else [next] + ScanEnds(buffer, next)
  }

  /** The collected offsets lie strictly between the start and the buffer
      length, past the SOI marker */
  lemma {:induction false} ScanEndsBounded(buffer: seq<bv8>, offset: int)
    ensures forall i | 0 <= i < |ScanEnds(buffer, offset)| ::
      offset < ScanEnds(buffer, offset)[i] < |buffer| && 2 < ScanEnds(buffer, offset)[i]
    decreases |buffer| - offset
  {
    var next := ScanEndOffset(buffer, offset);
    if next < |buffer| {
      ScanEndsBounded(buffer, next);
      var ends := ScanEnds(buffer, offset);
      var rest := ScanEnds(buffer, next);
      assert ends == [next] + rest;
      assert offset < next && 2 < next;
      forall i | 0 <= i < |ends| ensures offset < ends[i] < |buffer| && 2 < ends[i] {
        if i > 0 {
          assert ends[i] == rest[i - 1];
        }
      }
    }
  }

  /** Resumed at a scan end, the walker moves at least past that marker: the
      next result is at least two bytes further on */
  lemma ResumeAtMarkerSteps(buffer: seq<bv8>, offset: nat)
    requires IsScanEndAt(buffer, offset) && 2 <= offset
    ensures offset + 2 <= ScanEndOffset(buffer, offset)
  {
    NextMarkerAtMarker(buffer, offset);
    SeekScanDataStep(buffer, offset, offset);
  }

  /** The collected offsets increase by at least the two bytes of the marker
      at each of them, so they are strictly increasing */
  lemma {:induction false} ScanEndsIncrease(buffer: seq<bv8>, offset: int)
    ensures forall i, j | 0 <= i < j < |ScanEnds(buffer, offset)| ::
      ScanEnds(buffer, offset)[i] + 2 <= ScanEnds(buffer, offset)[j]
    decreases |buffer| - offset
  {
    var next := ScanEndOffset(buffer, offset);
    if next < |buffer| {
      ScanEndsBounded(buffer, next);
      ScanEndsIncrease(buffer, next);
      var ends := ScanEnds(buffer, offset);
      var rest := ScanEnds(buffer, next);
      assert ends == [next] + rest;
      if rest != [] {
        ScanEndIsRealMarker(buffer, offset);
        ResumeAtMarkerSteps(buffer, next);
        assert rest[0] == ScanEndOffset(buffer, next);
      }
      forall i, j | 0 <= i < j < |ends| ensures ends[i] + 2 <= ends[j] {
        assert ends[j] == rest[j - 1] && rest[0] <= rest[j - 1];
        if i > 0 {
          assert ends[i] == rest[i - 1];
        }
      }
    }
  }

  /** Every collected offset is a scan end: a real marker */
  lemma {:induction false} ScanEndsAreScanEnds(buffer: seq<bv8>, offset: int)
    ensures forall i | 0 <= i < |ScanEnds(buffer, offset)| ::
      IsScanEndAt(buffer, ScanEnds(buffer, offset)[i])
    decreases |buffer| - offset
  {
    var next := ScanEndOffset(buffer, offset);
    if next < |buffer| {
      ScanEndIsRealMarker(buffer, offset);
      ScanEndsAreScanEnds(buffer, next);
      var ends := ScanEnds(buffer, offset);
      assert ends == [next] + ScanEnds(buffer, next);
      forall i | 0 <= i < |ends| ensures IsScanEndAt(buffer, ends[i]) {
        if i > 0 {
          assert ends[i] == ScanEnds(buffer, next)[i - 1];
        }
      }
    }
  }

  /** The segment chain from `offset` meets a frame header marker before any
      SOS marker */
  ghost predicate FrameHeaderPrecedesScan(buffer: seq<bv8>, offset: nat)
    decreases |buffer| - offset
  {
    offset < |buffer| &&
    var marker := NextMarker(buffer, offset);
    CanGetWord(marker, |buffer|) &&
    var code := GetWord(marker, buffer);
    IsStartOfFrameMarker(code) ||
    (code != MARKER_SOS && FrameHeaderPrecedesScan(buffer, SkipMarkerSegment(marker + 2, buffer)))
  }

  /** At a marker whose code byte is not fill, findNextMarker does not move */
  lemma NextMarkerAtMarker(buffer: seq<bv8>, offset: nat)
    requires offset + 1 < |buffer|
    requires buffer[offset] == MARKER_PREFIX && buffer[offset + 1] != MARKER_PREFIX
    ensures NextMarker(buffer, offset) == offset
  {
    assert SkipToLastPrefix(buffer, offset) == offset;
  }

  /** Searching for the scan from a frame header marker, or from any offset
      whose next marker it is, reaches the same scan data */
  lemma SeekScanDataSkipsFrameHeader(buffer: seq<bv8>, offset: nat, marker: nat)
    requires offset < |buffer| && marker == NextMarker(buffer, offset)
    requires CanGetWord(marker, |buffer|) && IsStartOfFrameMarker(GetWord(marker, buffer))
    ensures SeekScanData(buffer, marker) == SeekScanData(buffer, offset)
  {
    assert IsStartOfFramePresent(marker, buffer);
    NextMarkerAtMarker(buffer, marker);
    SeekScanDataStep(buffer, offset, marker);
    SeekScanDataStep(buffer, marker, marker);
  }

  /** When the frame header comes first, searching for the scan from the chain
      start or from the frame header reaches the same scan data */
  lemma {:induction false} SeekScanDataFromFrameHeader(buffer: seq<bv8>, offset: nat)
    requires FrameHeaderPrecedesScan(buffer, offset)
    ensures SofSearch(buffer, offset) < |buffer|
    ensures SeekScanData(buffer, SofSearch(buffer, offset)) == SeekScanData(buffer, offset)
    decreases |buffer| - offset
  {
    var marker := NextMarker(buffer, offset);
    var code := GetWord(marker, buffer);
    assert CanGetWord(marker, |buffer|);
    SofSearchStep(buffer, offset, marker);
    if IsStartOfFrameMarker(code) {
      SeekScanDataSkipsFrameHeader(buffer, offset, marker);
    } else {
      var next := SkipMarkerSegment(marker + 2, buffer);
      assert code != MARKER_SOS && FrameHeaderPrecedesScan(buffer, next);
      SeekScanDataStep(buffer, offset, marker);
      SeekScanDataFromFrameHeader(buffer, next);
    }
  }

  /** The walker lifts a start offset of 0 to 2, just after SOI */
  lemma ScanEndFromZero(buffer: seq<bv8>)
    ensures ScanEndOffset(buffer, 0) == ScanEndOffset(buffer, 2)
  {
  }

  /** The two drivers agree: when the frame header precedes the first scan,
      resuming from the frame header offset (as load_jpeg.js does) collects
      the same offsets as resuming from 0 (as jpeg_sawmill.js does) */
  lemma DriversAgree(buffer: seq<bv8>)
    requires IsStartOfImagePresent(buffer)
    requires FrameHeaderPrecedesScan(buffer, 2)
    ensures StartOfFrameOffset(buffer) < |buffer|
    ensures ScanEnds(buffer, StartOfFrameOffset(buffer)) == ScanEnds(buffer, 0)
  {
    SeekScanDataFromFrameHeader(buffer, 2);
    var sof := StartOfFrameOffset(buffer);
    assert sof == SofSearch(buffer, 2);
    ScanEndFromZero(buffer);
    assert ScanEndOffset(buffer, sof) == ScanEndOffset(buffer, 0);
  }

  /** A minimal marker skeleton of a one-scan file, with no DQT or DHT
      segment and a bare SOS length field, so no decoder would accept it:
      SOI; a baseline frame header (SOF0) with Lf = 11, P = 8, Y = 1, X = 1
      and one component; SOS with a 2-byte header; one data byte; EOI */
  const ONE_SCAN_IMAGE: seq<bv8> := [
    0xFF, 0xD8,
    0xFF, 0xC0, 0x00, 0x0B, 0x08, 0x00, 0x01, 0x00, 0x01, 0x01, 0x01, 0x11, 0x00,
    0xFF, 0xDA, 0x00, 0x02,
    0x11,
    0xFF, 0xD9]

  /** The markers of the one-scan image: SOI at 0, SOF0 at 2, SOS at 15 and
      EOI at 20 */
  lemma OneScanImageMarkers()
    ensures IsStartOfImagePresent(ONE_SCAN_IMAGE)
    ensures GetWord(2, ONE_SCAN_IMAGE) == MARKER_SOF0
    ensures GetWord(15, ONE_SCAN_IMAGE) == MARKER_SOS
    ensures GetWord(20, ONE_SCAN_IMAGE) == MARKER_EOI
  {
    var buffer := ONE_SCAN_IMAGE;
    assert GetWord(0, buffer) as int == 0xFFD8;
    assert GetWord(2, buffer) as int == 0xFFC0;
    assert GetWord(15, buffer) as int == 0xFFDA;
    assert GetWord(20, buffer) as int == 0xFFD9;
  }

  /** The segment lengths of the one-scan image: 11 for the frame header, 2
      for the SOS header */
  lemma OneScanImageSegments()
    ensures SkipMarkerSegment(4, ONE_SCAN_IMAGE) == 15
    ensures SkipMarkerSegment(17, ONE_SCAN_IMAGE) == 19
  {
  }

  /** In the one-scan image the frame header follows SOI */
  lemma OneScanImageFrameHeader()
    ensures StartOfFrameOffset(ONE_SCAN_IMAGE) == 2
  {
    var buffer := ONE_SCAN_IMAGE;
    OneScanImageMarkers();
    NextMarkerAtMarker(buffer, 2);
    SofSearchStep(buffer, 2, 2);
  }

  /** In the one-scan image the SOS segment at 15 ends the scan-header search,
      just after its two-byte header */
  lemma OneScanImageScanHeader()
    ensures SeekScanData(ONE_SCAN_IMAGE, 15) == 19
  {
    var buffer := ONE_SCAN_IMAGE;
    OneScanImageMarkers();
    OneScanImageSegments();
    NextMarkerAtMarker(buffer, 15);
    SeekScanDataStep(buffer, 15, 15);
  }

  /** In the one-scan image the scan-header search skips the frame header
      segment, whose length field says 11 bytes */
  lemma OneScanImageScanData()
    ensures SeekScanData(ONE_SCAN_IMAGE, 2) == 19
  {
    var buffer := ONE_SCAN_IMAGE;
    OneScanImageMarkers();
    OneScanImageSegments();
    NextMarkerAtMarker(buffer, 2);
    SeekScanDataStep(buffer, 2, 2);
    OneScanImageScanHeader();
  }

  /** In the one-scan image the entropy-data walk passes the data byte and
      stops at the EOI marker */
  lemma OneScanImageEntropyEnd()
    ensures EntropyEnd(ONE_SCAN_IMAGE, 19) == 20
  {
    var buffer := ONE_SCAN_IMAGE;
    OneScanImageMarkers();
    NextMarkerAtMarker(buffer, 20);
    assert NextMarker(buffer, 19) == 20;
    EntropyEndStep(buffer, 19, 20);
  }

  /** In the one-scan image the walker, from 0 or from the frame header, skips
      the frame header segment, the SOS segment and the data byte, and stops
      at the EOI marker */
  lemma OneScanImageEnd()
    ensures ScanEndOffset(ONE_SCAN_IMAGE, 2) == 20
    ensures ScanEndOffset(ONE_SCAN_IMAGE, 0) == 20
  {
    OneScanImageMarkers();
    OneScanImageScanData();
    OneScanImageEntropyEnd();
    ScanEndFromZero(ONE_SCAN_IMAGE);
  }

  /** Resumed at the EOI marker, the walker finds no length field after it
      and returns the buffer length */
  lemma OneScanImageResume()
    ensures ScanEndOffset(ONE_SCAN_IMAGE, 20) == |ONE_SCAN_IMAGE|
  {
    var buffer := ONE_SCAN_IMAGE;
    NextMarkerAtMarker(buffer, 20);
    SeekScanDataStep(buffer, 20, 20);
  }

  /** The one-scan image yields one offset, from the frame header (as
      load_jpeg.js resumes) and from 0 (as jpeg_sawmill.js resumes): the EOI
      that ends the scan. The offset of the last scan's end is collected like
      the others, so a file that ends in EOI gives one offset per scan. */
  lemma OneScanImage()
    ensures ScanEnds(ONE_SCAN_IMAGE, StartOfFrameOffset(ONE_SCAN_IMAGE)) == [20]
    ensures ScanEnds(ONE_SCAN_IMAGE, 0) == [20]
  {
    var buffer := ONE_SCAN_IMAGE;
    OneScanImageFrameHeader();
    OneScanImageEnd();
    OneScanImageResume();
    assert ScanEnds(buffer, 20) == [];
    assert ScanEnds(buffer, 2) == [20] + ScanEnds(buffer, 20);
    assert ScanEnds(buffer, 0) == [20] + ScanEnds(buffer, 20);
  }
}
