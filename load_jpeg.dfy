/** The inspection step of the application's file loader: it finds the frame
    header, reads the image size there, and collects the scan end offsets by
    resuming the walker from the frame header until it reaches the end of the
    buffer. The WebAssembly memory, the copy of the file into it and the
    logging are not part of this model; allocation is taken to succeed. */
module JpegLoader {
  import opened Wrappers
  import opened JpegInspector

  /** What the loader hands to its callback */
  datatype Inspection = Inspection(
    uint8Array: seq<bv8>,
    imageWidth: bv16,
    imageHeight: bv16,
    scanEndOffsets: seq<nat>)

  /** The `for (;;)` loop of loadJPEG: resumes the walker from `start` and
      collects each offset below the buffer length, stopping at the first
      that is not */
  method CollectScanEnds(start: int, uint8Array: seq<bv8>) returns (scanEndOffsets: seq<nat>)
    ensures scanEndOffsets == ScanEnds(uint8Array, start)
  {
    var bufferLength := |uint8Array|;
    var nextOffset := start;
    scanEndOffsets := [];
    while true
      invariant scanEndOffsets + ScanEnds(uint8Array, nextOffset) == ScanEnds(uint8Array, start)
      decreases bufferLength - nextOffset
    {
      ghost var resumed := nextOffset;
      nextOffset := GetScanEndOffset(nextOffset, uint8Array);

      if nextOffset >= bufferLength {
        assert ScanEnds(uint8Array, resumed) == [];
        break;
      }

      assert ScanEnds(uint8Array, resumed) == [nextOffset] + ScanEnds(uint8Array, nextOffset);
      assert (scanEndOffsets + [nextOffset]) + ScanEnds(uint8Array, nextOffset)
          == scanEndOffsets + ([nextOffset] + ScanEnds(uint8Array, nextOffset));
      scanEndOffsets := scanEndOffsets + [nextOffset];
    }
  }

  /** Inspects the first of `files`; None when the callback is not called
      (no file, or an empty one) */
  method LoadJpeg(files: seq<seq<bv8>>) returns (result: Option<Inspection>)
    ensures |files| == 0 || |files[0]| == 0 ==> result == None
    ensures |files| > 0 && |files[0]| > 0 ==>
      var buffer := files[0];
      var sof := StartOfFrameOffset(buffer);
      result == Some(Inspection(buffer, GetImageWidth(sof, buffer), GetImageHeight(sof, buffer),
                                ScanEnds(buffer, sof)))
    // the collected offsets are real scan ends, below the length, each at least
    // two bytes past the one before
    ensures result.Some? ==>
      var offsets := result.value.scanEndOffsets;
      var bufferLength := |result.value.uint8Array|;
      (forall i | 0 <= i < |offsets| :: offsets[i] < bufferLength &&
         IsScanEndAt(result.value.uint8Array, offsets[i])) &&
      (forall i, j | 0 <= i < j < |offsets| :: offsets[i] + 2 <= offsets[j])
    // no frame header, no scans
    ensures result.Some? && StartOfFrameOffset(result.value.uint8Array) == |result.value.uint8Array| ==>
      result.value.scanEndOffsets == []
  {
    if |files| == 0 {
      return None;
    }
    var file := files[0];
    var bufferLength := |file|;
    if bufferLength <= 0 {
      return None;
    }

    var uint8Array := file;
    var nextOffset: int := GetStartOfFrameOffset(uint8Array);
    var imageWidth := GetImageWidth(nextOffset, uint8Array);
    var imageHeight := GetImageHeight(nextOffset, uint8Array);

    var scanEndOffsets := CollectScanEnds(nextOffset, uint8Array);

    ScanEndsBounded(uint8Array, nextOffset);
    ScanEndsIncrease(uint8Array, nextOffset);
    ScanEndsAreScanEnds(uint8Array, nextOffset);
    result := Some(Inspection(uint8Array, imageWidth, imageHeight, scanEndOffsets));
  }
}
