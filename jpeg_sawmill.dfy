/** The original single-page front end: on a file input change it collects
    the scan end offsets by resuming the walker from 0, then replaces the
    page's images with one partial image per offset and shows the results.
    The images are their bytes (the object URLs and img elements that show
    them are not part of this model). */
module JpegSawmill {
  import JpegInspector
  import PartialImages

  /** The page state the script changes: the images under `#images` and the
      hidden flag of `#results` */
  class Page {
    var images: seq<seq<bv8>>
    var resultsHidden: bool

    constructor(resultsHidden: bool)
      ensures this.images == [] && this.resultsHidden == resultsHidden
    {
      this.images := [];
      this.resultsHidden := resultsHidden;
    }

    /** Replaces the images with one partial image per scan end offset */
    method CreateImgTags(uint8Array: seq<bv8>, scanEndOffsets: seq<nat>)
      modifies this
      ensures images == PartialImages.PartialImages(uint8Array, scanEndOffsets)
      ensures resultsHidden == old(resultsHidden)
    {
      // the page first drops every image it shows
      while |images| > 0
        invariant resultsHidden == old(resultsHidden)
        decreases |images|
      {
        images := images[1..];
      }

      // then appends one partial image per offset, in order
      for i := 0 to |scanEndOffsets|
        invariant images == PartialImages.PartialImages(uint8Array, scanEndOffsets[..i])
        invariant resultsHidden == old(resultsHidden)
      {
        var partialImage := PartialImages.PartialImage(uint8Array, scanEndOffsets[i]);
        images := images + [partialImage];
      }
      assert scanEndOffsets[..|scanEndOffsets|] == scanEndOffsets;
    }

    /** Loads the first of `files`: nothing changes without a non-empty file */
    method LoadJpeg(files: seq<seq<bv8>>)
      modifies this
      ensures |files| == 0 || |files[0]| == 0 ==> images == old(images) && resultsHidden == old(resultsHidden)
      ensures |files| > 0 && |files[0]| > 0 ==>
        images == PartialImages.PartialImages(files[0], JpegInspector.ScanEnds(files[0], 0)) &&
        !resultsHidden
    {
      if |files| == 0 {
        return;
      }
      var file := files[0];
      if |file| <= 0 {
        return;
      }

      var uint8Array := file;
      var scanEndOffsets: seq<nat> := [];
      var scanEndOffset: int := 0;
      while true
        invariant scanEndOffsets + JpegInspector.ScanEnds(uint8Array, scanEndOffset) ==
                  JpegInspector.ScanEnds(uint8Array, 0)
        decreases |uint8Array| - scanEndOffset
      {
        ghost var resumed := scanEndOffset;
        scanEndOffset := JpegInspector.GetScanEndOffset(scanEndOffset, uint8Array);

        if scanEndOffset >= |uint8Array| {
          assert JpegInspector.ScanEnds(uint8Array, resumed) == [];
          break;
        }

        assert JpegInspector.ScanEnds(uint8Array, resumed) ==
               [scanEndOffset] + JpegInspector.ScanEnds(uint8Array, scanEndOffset);
        assert (scanEndOffsets + [scanEndOffset]) + JpegInspector.ScanEnds(uint8Array, scanEndOffset) ==
               scanEndOffsets + ([scanEndOffset] + JpegInspector.ScanEnds(uint8Array, scanEndOffset));
        scanEndOffsets := scanEndOffsets + [scanEndOffset];
      }
      assert scanEndOffsets == JpegInspector.ScanEnds(uint8Array, 0);

      CreateImgTags(uint8Array, scanEndOffsets);
      resultsHidden := false;
    }
  }
}
