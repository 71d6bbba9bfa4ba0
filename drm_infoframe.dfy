// The Dynamic Range and Mastering InfoFrame (CTA-861-G section 6.9): its
// parser `XV_HdmiC_ParseDRMIF` and its generator `XV_HdmiC_DRMIF_GeneratePacket`,
// both over the HDR10 static metadata record `struct v4l2_hdr10_payload`.
module Drm {
  import opened AuxPacket

  /** One CIE 1931 chromaticity coordinate pair, in units of 0.00002. */
  datatype Chromaticity = Chromaticity(x: bv16, y: bv16)

  type Primaries = s: seq<Chromaticity> | |s| == 3
    witness [Chromaticity(0, 0), Chromaticity(0, 0), Chromaticity(0, 0)]

  /** `struct v4l2_hdr10_payload`. */
  datatype Hdr10Payload = Hdr10Payload(
    eotf: bv8,
    metadataType: bv8,
    displayPrimaries: Primaries,
    whitePoint: Chromaticity,
    maxMdl: bv16,
    minMdl: bv16,
    maxCll: bv16,
    maxFall: bv16)

  const DRM_VERSION: bv8 := 0x1
  const DRM_LENGTH: bv8 := 26
  /** The generator's checksum covers PB1..PB(`HB2` + 3). */
  const DRM_LAST: nat := 29

  const HEADER: Header := [DRM_INFOFRAME_TYPE, DRM_VERSION, DRM_LENGTH, 0]

  /** Data byte `i` before the checksum is written: 16-bit values low byte
      first (the high byte `x >> 8` is `Hi(x)`), parity bytes 7, 15, 23 and
      31 and byte 30 zero. */
  function PayloadByte(h: Hdr10Payload, i: int): bv8
  {
    var p := h.displayPrimaries;
    match i
    case 1 => h.eotf & 0x7
    case 2 => h.metadataType & 0x7
    case 3 => Lo(p[0].x)
    case 4 => Hi(p[0].x)
    case 5 => Lo(p[0].y)
    case 6 => Hi(p[0].y)
    case 8 => Lo(p[1].x)
    case 9 => Hi(p[1].x)
    case 10 => Lo(p[1].y)
    case 11 => Hi(p[1].y)
    case 12 => Lo(p[2].x)
    case 13 => Hi(p[2].x)
    case 14 => Lo(p[2].y)
    case 16 => Hi(p[2].y)
    case 17 => Lo(h.whitePoint.x)
    case 18 => Hi(h.whitePoint.x)
    case 19 => Lo(h.whitePoint.y)
    case 20 => Hi(h.whitePoint.y)
    case 21 => Lo(h.maxMdl)
    case 22 => Hi(h.maxMdl)
    case 24 => Lo(h.minMdl)
    case 25 => Hi(h.minMdl)
    case 26 => Lo(h.maxCll)
    case 27 => Hi(h.maxCll)
    case 28 => Lo(h.maxFall)
    case 29 => Hi(h.maxFall)
    case _ => 0
  }

  function Payload(h: Hdr10Payload): Payload
  {
    seq(32, i => PayloadByte(h, i))
  }

  /** The record `XV_HdmiC_DRMIF_GeneratePacket` stores for `h`. */
  function Record(h: Hdr10Payload): Aux
  {
    WithChecksum(HEADER, Payload(h), DRM_LAST)
  }

  /** `XV_HdmiC_ParseDRMIF`: each 16-bit value is `lo | (hi << 8)`; a record
      of another type leaves `dest` as it was. */
  function Parse(aux: Aux, dest: Hdr10Payload): (r: Hdr10Payload)
    ensures aux.header[0] != DRM_INFOFRAME_TYPE ==> r == dest
    ensures aux.header[0] == DRM_INFOFRAME_TYPE ==> r.eotf < 8 && r.metadataType < 8
  {
    if aux.header[0] != DRM_INFOFRAME_TYPE then dest
    else
      var d := aux.data;
      Hdr10Payload(d[1] & 0x7, d[2] & 0x7,
        [Chromaticity(Join(d[4], d[3]), Join(d[6], d[5])),
         Chromaticity(Join(d[9], d[8]), Join(d[11], d[10])),
         Chromaticity(Join(d[13], d[12]), Join(d[16], d[14]))],
        Chromaticity(Join(d[18], d[17]), Join(d[20], d[19])),
        Join(d[22], d[21]), Join(d[25], d[24]), Join(d[27], d[26]), Join(d[29], d[28]))
  }

  /** The generated record is a well-formed DRM InfoFrame: type, version 1,
      length 26, zero HB3, zero parity bytes and byte 30, and a checksum that
      makes HB0..HB2 and PB0..PB29 sum to zero modulo 256. */
  lemma RecordWellFormed(h: Hdr10Payload)
    ensures var aux := Record(h);
      aux.header == [DRM_INFOFRAME_TYPE, DRM_VERSION, DRM_LENGTH, 0] &&
      aux.data[7] == 0 && aux.data[15] == 0 && aux.data[23] == 0 &&
      aux.data[30] == 0 && aux.data[31] == 0 &&
      ChecksumValid(aux, DRM_LAST)
  {
    var aux, pb := Record(h), Payload(h);
    ChecksumMakesSumZero(HEADER, pb, DRM_LAST);
    assert aux.data[1..] == pb[1..];
    assert pb[7] == 0 && pb[15] == 0 && pb[23] == 0 && pb[30] == 0 && pb[31] == 0;
  }

  /** Parsing a generated record gives back the payload, with the EOTF and
      metadata type cut to three bits. */
  lemma ParseRecord(h: Hdr10Payload, dest: Hdr10Payload)
    ensures Parse(Record(h), dest) == h.(eotf := h.eotf & 0x7, metadataType := h.metadataType & 0x7)
  {
    var d, p := Record(h).data, h.displayPrimaries;
    assert d[1..] == Payload(h)[1..];
    JoinSplit(p[0].x);
    JoinSplit(p[0].y);
    JoinSplit(p[1].x);
    JoinSplit(p[1].y);
    JoinSplit(p[2].x);
    JoinSplit(p[2].y);
    JoinSplit(h.whitePoint.x);
    JoinSplit(h.whitePoint.y);
    JoinSplit(h.maxMdl);
    JoinSplit(h.minMdl);
    JoinSplit(h.maxCll);
    JoinSplit(h.maxFall);
    Mask3(h.eotf);
    Mask3(h.metadataType);
    assert Parse(Record(h), dest).displayPrimaries == p;
  }

  lemma Mask3(b: bv8)
    ensures (b & 0x7) & 0x7 == b & 0x7
  {
  }

  /** Round trip: a payload whose EOTF and metadata type fit three bits
      survives generate-then-parse unchanged. */
  lemma RoundTrip(h: Hdr10Payload, dest: Hdr10Payload)
    requires h.eotf < 8 && h.metadataType < 8
    ensures Parse(Record(h), dest) == h
  {
    ParseRecord(h, dest);
    Below8(h.eotf);
    Below8(h.metadataType);
  }

  lemma Below8(b: bv8)
    requires b < 8
    ensures b & 0x7 == b
  {
  }

  /** `XV_HdmiC_DRMIF_GeneratePacket`: the record is zeroed, takes the header
      and the payload bytes, and the checksum loops fill PB0. */
  method GeneratePacket(h: Hdr10Payload) returns (aux: Aux)
    ensures aux == Record(h)
  {
    var header := new bv8[4](i requires 0 <= i < 4 => HEADER[i]);
    var data := new bv8[32](i => PayloadByte(h, i));
    assert header[..] == HEADER;
    assert data[..] == Payload(h);
    var crc := ComputeChecksum(header, data, header[2] as nat + 4);
    data[0] := crc;
    assert data[..] == Payload(h)[0 := crc];
    aux := Aux(header[..], data[..]);
  }
}
