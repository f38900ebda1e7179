/**
 * OSMHeaderReader: decodes one OSMHeader payload, refuses a file whose
 * required features it cannot honour, and hands the header and the bounding
 * box to their callbacks.
 */
module HeaderReader {
  import opened JavaInt
  import opened Wrappers
  import opened Entity
  import opened Osmformat
  import opened Collaborators
  import opened BaseParser
  import OsmHeaderEncoder

  // ---------------------------------------------------------------------
  // `String.equalsIgnoreCase`.
  // ---------------------------------------------------------------------

  /**
   * `Character.toUpperCase` on the characters whose upper case is an ASCII
   * letter: the ASCII lower-case letters, the dotless i and the long s.
   */
  function UpperCase(c: char): char
  {
    if 'a' <= c <= 'z' then (c as int - 32) as char
    else if c == '\U{0131}' then 'I'
    else if c == '\U{017F}' then 'S'
    else c
  }

  /**
   * `Character.toLowerCase` on the characters whose lower case is an ASCII
   * letter: the ASCII upper-case letters, the dotted capital I and the Kelvin
   * sign.
   */
  function LowerCase(c: char): char
  {
    if 'A' <= c <= 'Z' then (c as int + 32) as char
    else if c == '\U{0130}' then 'i'
    else if c == '\U{212A}' then 'k'
    else c
  }

  /** Two characters match ignoring case: equal, equal in upper case, or equal in the lower case of their upper case. */
  predicate CharsMatch(a: char, b: char)
  {
    a == b || UpperCase(a) == UpperCase(b) || LowerCase(UpperCase(a)) == LowerCase(UpperCase(b))
  }

  /** `s.equalsIgnoreCase(t)`: the same length, and matching character by character. */
  predicate EqualsIgnoreCase(s: string, t: string)
  {
    |s| == |t| && forall i :: 0 <= i < |s| ==> CharsMatch(s[i], t[i])
  }

  lemma EqualsIgnoreCaseReflexive(s: string)
    ensures EqualsIgnoreCase(s, s)
  {
  }

  lemma EqualsIgnoreCaseSymmetric(s: string, t: string)
    requires EqualsIgnoreCase(s, t)
    ensures EqualsIgnoreCase(t, s)
  {
  }

  /** On ASCII letters matching ignoring case is having the same upper case. */
  lemma AsciiLettersMatch(a: char, b: char)
    requires ('a' <= a <= 'z' || 'A' <= a <= 'Z') && ('a' <= b <= 'z' || 'A' <= b <= 'Z')
    ensures CharsMatch(a, b) <==> UpperCase(a) == UpperCase(b)
  {
  }

  // ---------------------------------------------------------------------
  // The feature gate.
  // ---------------------------------------------------------------------

  /** A required feature the reader honours. */
  predicate Supported(f: string)
  {
    || EqualsIgnoreCase(f, FEATURE_OSM_SCHEMA)
    || EqualsIgnoreCase(f, FEATURE_DENSE_NODES)
    || EqualsIgnoreCase(f, FEATURE_HISTORICAL_INFORMATION)
  }

  /** The stream's `filter`s and `findAny` from feature `i` on: the first feature none of the three matches. */
  function FindUnsupported(features: seq<string>, i: nat): (r: Option<nat>)
    requires i <= |features|
    ensures r.Some? ==> i <= r.value < |features| && !Supported(features[r.value])
    decreases |features| - i
  {
    if i == |features| then None
    else if !Supported(features[i]) then Some(i)
    else FindUnsupported(features, i + 1)
  }

  lemma {:induction false} FindUnsupportedNone(features: seq<string>, i: nat)
    requires i <= |features|
    ensures FindUnsupported(features, i).None? <==> forall j :: i <= j < |features| ==> Supported(features[j])
    decreases |features| - i
  {
    if i < |features| {
      FindUnsupportedNone(features, i + 1);
    }
  }

  /**
   * `checkRequiredFeatures(features)`: true exactly when every feature
   * equals, ignoring case, one of OsmSchema-V0.6, DenseNodes and
   * HistoricalInformation.
   */
  function CheckRequiredFeatures(features: seq<string>): (ok: bool)
    ensures ok <==> forall i :: 0 <= i < |features| ==> Supported(features[i])
  {
    FindUnsupportedNone(features, 0);
    FindUnsupported(features, 0).None?
  }

  /** The required features every file written by the library names pass the gate. */
  lemma EncodedHeaderPasses(boundBox: Option<BoundBox>)
    ensures CheckRequiredFeatures(OsmHeaderEncoder.EncodeHeader(boundBox).requiredFeatures)
  {
    EqualsIgnoreCaseReflexive(FEATURE_OSM_SCHEMA);
    EqualsIgnoreCaseReflexive(FEATURE_DENSE_NODES);
  }

  /** Any other feature, a prefix of a known one included, is refused, whatever else the list holds. */
  lemma OtherFeaturesRefused()
    ensures !CheckRequiredFeatures(["DenseNodes", "failme"])
    ensures !CheckRequiredFeatures(["DenseNode"])
  {
    var bad := ["DenseNodes", "failme"];
    assert !CharsMatch(bad[1][0], FEATURE_DENSE_NODES[0]);
    assert !CharsMatch(bad[1][0], FEATURE_OSM_SCHEMA[0]);
    assert !Supported(bad[1]);
  }

  /**
   * Java's comparison folds case the way `Character` does, not only on ASCII:
   * a dotless i stands for an i.
   */
  lemma DotlessIMatches()
    ensures CheckRequiredFeatures(["H\U{0131}storicalInformation"])
  {
    assert EqualsIgnoreCase("H\U{0131}storicalInformation", FEATURE_HISTORICAL_INFORMATION);
  }

  // ---------------------------------------------------------------------
  // `read`.
  // ---------------------------------------------------------------------

  /** Which of the two callbacks are set (non-null). */
  datatype Callbacks = Callbacks(header: bool, boundBox: bool)

  /**
   * The Header the header callback receives: both feature lists, and the
   * writing program and the source exactly when the block has them.
   */
  function HeaderOf(h: HeaderBlock): (r: Header)
    ensures r.requiredFeatures == h.requiredFeatures && r.optionalFeatures == h.optionalFeatures
    ensures r.writingProgram.Some? <==> h.writingProgram.Some?
    ensures r.source.Some? <==> h.source.Some?
    ensures h.writingProgram.Some? ==> r.writingProgram == h.writingProgram
    ensures h.source.Some? ==> r.source == h.source
  {
    var header := Header(h.requiredFeatures, h.optionalFeatures, None, None);
    var header := if h.writingProgram.Some? then header.(writingProgram := h.writingProgram) else header;
    if h.source.Some? then header.(source := h.source) else header
  }

  /** The BoundBox the bbox callback receives, side by side, in nanodegrees. */
  function BoxOf(b: HeaderBBox): BoundBox
  {
    BoundBox(b.left, b.top, b.right, b.bottom)
  }

  /**
   * `read(message)` on callbacks that have received `before`: a payload that
   * is not a HeaderBlock, or one with an unsupported required feature, throws
   * before any callback; otherwise the header callback, if set, receives the
   * header, and then the bbox callback, if set, the bounding box if there is
   * one.
   */
  function ReadHeaderResult(pb: Protobuf, cbs: Callbacks, message: seq<Byte>, before: seq<Event>): (seq<Event>, Option<Error>)
  {
    var parsed := pb.parseHeaderBlock(message);
    if parsed.None? then (before, Some(InvalidProtocolBuffer))
    else
      var h := parsed.value;
      if !CheckRequiredFeatures(h.requiredFeatures) then (before, Some(UnsupportedFeatures))
      else
        var withHeader := if cbs.header then before + [HeaderEvent(HeaderOf(h))] else before;
        (if cbs.boundBox && h.bbox.Some? then withHeader + [BoundBoxEvent(BoxOf(h.bbox.value))] else withHeader, None)
  }

  /**
   * The exceptions of `read`: InvalidProtocolBuffer exactly when the payload
   * does not parse, UnsupportedFeatures exactly when a required feature is
   * refused, whichever callbacks are set; in both cases no callback fires.
   */
  lemma ReadFailure(pb: Protobuf, cbs: Callbacks, message: seq<Byte>, before: seq<Event>)
    ensures var r := ReadHeaderResult(pb, cbs, message, before);
      var parsed := pb.parseHeaderBlock(message);
      && (r.1 == Some(InvalidProtocolBuffer) <==> parsed.None?)
      && (r.1 == Some(UnsupportedFeatures) <==> parsed.Some? && !CheckRequiredFeatures(parsed.value.requiredFeatures))
      && (r.1.Some? ==> r.0 == before)
      && (r.1.None? <==> parsed.Some? && CheckRequiredFeatures(parsed.value.requiredFeatures))
  {
  }

  /**
   * When the gate passes, the callbacks receive at most the header and then
   * the box: the header exactly when its callback is set, the box exactly when
   * its callback is set and the block has one.
   */
  lemma ReadDelivers(pb: Protobuf, cbs: Callbacks, message: seq<Byte>, before: seq<Event>)
    requires pb.parseHeaderBlock(message).Some?
    requires CheckRequiredFeatures(pb.parseHeaderBlock(message).value.requiredFeatures)
    ensures var h := pb.parseHeaderBlock(message).value;
      var r := ReadHeaderResult(pb, cbs, message, before).0;
      var added := r[|before|..];
      && before <= r
      && (exists e :: e in added && e.HeaderEvent?) == cbs.header
      && (exists e :: e in added && e.BoundBoxEvent?) == (cbs.boundBox && h.bbox.Some?)
      && (forall e :: e in added && e.HeaderEvent? ==> e.header == HeaderOf(h))
      && (forall e :: e in added && e.BoundBoxEvent? ==> e.bbox == BoxOf(h.bbox.value))
      && (cbs.header ==> added[0] == HeaderEvent(HeaderOf(h)))
  {
    var h := pb.parseHeaderBlock(message).value;
    var withHeader := if cbs.header then before + [HeaderEvent(HeaderOf(h))] else before;
    var r := ReadHeaderResult(pb, cbs, message, before).0;
    var added := r[|before|..];
    var head: seq<Event> := if cbs.header then [HeaderEvent(HeaderOf(h))] else [];
    var box: seq<Event> := if cbs.boundBox && h.bbox.Some? then [BoundBoxEvent(BoxOf(h.bbox.value))] else [];
    assert r == before + head + box;
    assert added == head + box;
    if cbs.header {
      assert added[0] in added;
    }
    if cbs.boundBox && h.bbox.Some? {
      assert added[|added| - 1] in added;
    }
  }

  /**
   * The header the library writes reads back as the two required features,
   * no optional ones, "parallelpbf" as the writing program and no source, and
   * a bounding box that fits a `long` comes back side for side.
   */
  lemma WrittenHeaderReadsBack(pb: Protobuf, message: seq<Byte>, boundBox: Option<BoundBox>)
    requires pb.parseHeaderBlock(message) == Some(OsmHeaderEncoder.EncodeHeader(boundBox))
    requires boundBox.Some? ==> OsmHeaderEncoder.BoxFitsLong(boundBox.value)
    ensures ReadHeaderResult(pb, Callbacks(true, true), message, [])
         == ([HeaderEvent(Header([FEATURE_OSM_SCHEMA, FEATURE_DENSE_NODES], [], Some(OsmHeaderEncoder.WRITING_PROGRAM), None))]
             + (if boundBox.Some? then [BoundBoxEvent(boundBox.value)] else []), None)
  {
    EncodedHeaderPasses(boundBox);
    var h := OsmHeaderEncoder.EncodeHeader(boundBox);
    assert HeaderOf(h) == Header([FEATURE_OSM_SCHEMA, FEATURE_DENSE_NODES], [], Some(OsmHeaderEncoder.WRITING_PROGRAM), None);
    var head := [HeaderEvent(HeaderOf(h))];
    assert [] + head == head;
    var r := ReadHeaderResult(pb, Callbacks(true, true), message, []);
    assert r.1 == None;
    if boundBox.Some? {
      assert BoxOf(h.bbox.value) == boundBox.value;
      assert r.0 == head + [BoundBoxEvent(boundBox.value)];
    } else {
      assert r.0 == head;
      assert head + [] == head;
    }
  }

  class HeaderReader {
    /** The callbacks, as one observer. */
    const sink: Sink
    const pb: Protobuf
    /** Which callbacks are set. */
    const callbacks: Callbacks

    constructor (sink: Sink, pb: Protobuf, callbacks: Callbacks)
      ensures this.sink == sink && this.pb == pb && this.callbacks == callbacks
    {
      this.sink := sink;
      this.pb := pb;
      this.callbacks := callbacks;
    }

    /** `read(message)`. */
    method Read(message: seq<Byte>) returns (r: Outcome)
      modifies sink
      ensures (sink.events, if r.Fail? then Some(r.error) else None)
           == ReadHeaderResult(pb, callbacks, message, old(sink.events))
    {
      var parsed := pb.parseHeaderBlock(message);
      if parsed.None? {
        return Fail(InvalidProtocolBuffer);
      }
      var headerData := parsed.value;
      if !CheckRequiredFeatures(headerData.requiredFeatures) {
        return Fail(UnsupportedFeatures);
      }
      if callbacks.header {
        var header := Header(headerData.requiredFeatures, headerData.optionalFeatures, None, None);
        if headerData.writingProgram.Some? {
          header := header.(writingProgram := headerData.writingProgram);
        }
        if headerData.source.Some? {
          header := header.(source := headerData.source);
        }
        sink.Accept(HeaderEvent(header));
      }
      if callbacks.boundBox && headerData.bbox.Some? {
        var b := headerData.bbox.value;
        sink.Accept(BoundBoxEvent(BoundBox(b.left, b.top, b.right, b.bottom)));
      }
      r := Pass;
    }
  }
}
