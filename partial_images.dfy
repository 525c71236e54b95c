/** The partial images both front ends build from the scan end offsets: the
    bytes of the file before a scan end, closed with an EOI marker so that a
    decoder shows every scan up to that point. */
module PartialImages {
  import JpegInspector
  import MinMax

  /** The EOI marker appended to every partial image */
  const END_OF_IMAGE_MARKER: seq<bv8> := [0xFF, 0xD9]

  /** `data.subarray(0, end)`: the first `end` bytes, clamped to the data */
  function Subarray(data: seq<bv8>, end: nat): (prefix: seq<bv8>)
    ensures |prefix| == MinMax.Min(end, |data|)
    ensures prefix <= data
  {
    data[..MinMax.Min(end, |data|)]
  }

  /** The bytes of the Blob built from `[truncatedData, endOfImageMarker]` */
  function PartialImage(data: seq<bv8>, scanEndOffset: nat): (image: seq<bv8>)
    ensures |image| == MinMax.Min(scanEndOffset, |data|) + 2
    ensures image[..|image| - 2] <= data
    ensures image[|image| - 2..] == END_OF_IMAGE_MARKER
  {
    Subarray(data, scanEndOffset) + END_OF_IMAGE_MARKER
  }

  /** One partial image per offset, in order */
  function PartialImages(data: seq<bv8>, scanEndOffsets: seq<nat>): (images: seq<seq<bv8>>)
    ensures |images| == |scanEndOffsets|
    ensures forall i | 0 <= i < |images| :: images[i] == PartialImage(data, scanEndOffsets[i])
  {
    seq(|scanEndOffsets|, i requires 0 <= i < |scanEndOffsets| => PartialImage(data, scanEndOffsets[i]))
  }

  /** The partial image at a collected scan end is the file up to that scan
      end, then EOI: it starts with the file's SOI, holds every byte before
      the marker that ends the scan, and is two bytes longer than the offset. */
  lemma PartialImageOfScanEnd(data: seq<bv8>, start: int, i: nat)
    requires JpegInspector.IsStartOfImagePresent(data)
    requires i < |JpegInspector.ScanEnds(data, start)|
    ensures var offset := JpegInspector.ScanEnds(data, start)[i];
      var image := PartialImage(data, offset);
      2 < offset < |data| &&
      image == data[..offset] + END_OF_IMAGE_MARKER &&
      |image| == offset + 2 &&
      image[0] == 0xFF && image[1] == 0xD8
  {
    JpegInspector.ScanEndsBounded(data, start);
    JpegInspector.ScanEndsIncrease(data, start);
  }

  /** Each partial image extends the previous one: a later scan end gives an
      image whose bytes before the EOI start with those of an earlier one */
  lemma PartialImagesGrow(data: seq<bv8>, earlier: nat, later: nat)
    requires earlier <= later <= |data|
    ensures var first := PartialImage(data, earlier);
      var second := PartialImage(data, later);
      first[..earlier] <= second[..later]
  {
  }
}
