/**
 * OsmHeaderEncoder: the HeaderBlock every file written by the library starts
 * with. Its content is fixed except for the optional bounding box.
 */
module OsmHeaderEncoder {
  import opened JavaInt
  import opened Wrappers
  import opened Entity
  import opened Osmformat

  /** The `writingprogram` every header names. */
  const WRITING_PROGRAM: string := "parallelpbf"

  /** The four coordinates of `b` fit a `long` (as nanodegrees they always do in practice). */
  predicate BoxFitsLong(b: BoundBox)
  {
    && -0x8000_0000_0000_0000 <= b.left < 0x8000_0000_0000_0000
    && -0x8000_0000_0000_0000 <= b.top < 0x8000_0000_0000_0000
    && -0x8000_0000_0000_0000 <= b.right < 0x8000_0000_0000_0000
    && -0x8000_0000_0000_0000 <= b.bottom < 0x8000_0000_0000_0000
  }

  /**
   * `encodeBoundBox`: each side scaled to nanodegrees by `doubleToNanoScaled`;
   * a box that fits is kept exactly, each side in its own field.
   */
  function EncodeBoundBox(b: BoundBox): (r: HeaderBBox)
    ensures BoxFitsLong(b) ==> r.left == b.left && r.top == b.top && r.right == b.right && r.bottom == b.bottom
  {
    HeaderBBox(ClampLong(b.left), ClampLong(b.right), ClampLong(b.top), ClampLong(b.bottom))
  }

  /**
   * `encodeHeader(boundBox)`, before serialization: the bounding box exactly
   * when one is given, the two required features the writer relies on, no
   * optional features, "parallelpbf" as the writing program and no source.
   */
  function EncodeHeader(boundBox: Option<BoundBox>): (h: HeaderBlock)
    ensures h.bbox.Some? <==> boundBox.Some?
    ensures boundBox.Some? ==> h.bbox.value == EncodeBoundBox(boundBox.value)
    ensures h.requiredFeatures == [FEATURE_OSM_SCHEMA, FEATURE_DENSE_NODES]
    ensures h.optionalFeatures == [] && h.source == None
    ensures h.writingProgram == Some(WRITING_PROGRAM)
  {
    var bbox := if boundBox.Some? then Some(EncodeBoundBox(boundBox.value)) else None;
    HeaderBlock(bbox, [FEATURE_OSM_SCHEMA, FEATURE_DENSE_NODES], [], Some(WRITING_PROGRAM), None)
  }
}
