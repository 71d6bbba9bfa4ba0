// The Auxiliary Video Information InfoFrame (CTA-861-G section 6.4): its
// parser `XV_HdmiC_ParseAVIInfoFrame` and its generator
// `XV_HdmiC_AVIIF_GeneratePacket`.
module Avi {
  import opened AuxPacket

  /** `XHdmiC_AVI_InfoFrame`; enumerated fields are held in one byte each. */
  datatype AviInfoFrame = AviInfoFrame(
    version: bv8,
    colorSpace: bv8,
    activeFormatDataPresent: bv8,
    barInfo: bv8,
    scanInfo: bv8,
    colorimetry: bv8,
    picAspectRatio: bv8,
    activeAspectRatio: bv8,
    itc: bv8,
    extendedColorimetry: bv8,
    quantizationRange: bv8,
    nonUniformPictureScaling: bv8,
    vic: bv8,
    yccQuantizationRange: bv8,
    contentType: bv8,
    pixelRepetition: bv8,
    topBar: bv16,
    bottomBar: bv16,
    leftBar: bv16,
    rightBar: bv16)

  /** HB2 of an AVI InfoFrame: 13 payload bytes, PB1..PB13 plus PB14 in the checksum. */
  const AVI_LENGTH: bv8 := 13
  /** The generator's checksum covers PB1..PB(`HB2` + 1). */
  const AVI_LAST: nat := 14

  /** Every field fits the bits its slot in the packet gives it. */
  predicate FieldsFit(f: AviInfoFrame)
  {
    f.colorSpace < 8 && f.activeFormatDataPresent < 2 && f.barInfo < 4 && f.scanInfo < 4 &&
    f.colorimetry < 4 && f.picAspectRatio < 4 && f.activeAspectRatio < 16 &&
    f.itc < 2 && f.extendedColorimetry < 8 && f.quantizationRange < 4 &&
    f.nonUniformPictureScaling < 4 && f.vic < 128 &&
    f.yccQuantizationRange < 4 && f.contentType < 4 && f.pixelRepetition < 16
  }

  // PB1, PB2, PB3 and PB5 as the generator packs them from their fields.

  function Pb1(colorSpace: bv8, afdPresent: bv8, barInfo: bv8, scanInfo: bv8): bv8
  {
    ((colorSpace & 0x7) << 5) | ((afdPresent << 4) & 0x10) | ((barInfo << 2) & 0xc) | (scanInfo & 0x3)
  }

  function Pb2(colorimetry: bv8, picAspectRatio: bv8, activeAspectRatio: bv8): bv8
  {
    ((colorimetry & 0x3) << 6) | ((picAspectRatio << 4) & 0x30) | (activeAspectRatio & 0xf)
  }

  function Pb3(itc: bv8, extendedColorimetry: bv8, quantizationRange: bv8, scaling: bv8): bv8
  {
    ((itc & 0x1) << 7) | ((extendedColorimetry << 4) & 0x70) | ((quantizationRange << 2) & 0xc) | (scaling & 0x3)
  }

  function Pb5(yccQuantizationRange: bv8, contentType: bv8, pixelRepetition: bv8): bv8
  {
    ((yccQuantizationRange & 0x3) << 6) | ((contentType << 4) & 0x30) | (pixelRepetition & 0xf)
  }

  /** Payload byte `i` before the checksum is written: PB4 carries VIC
      unmasked, PB7 and PB15..PB31 are reserved zero. */
  function PayloadByte(f: AviInfoFrame, i: int): bv8
  {
    match i
    case 1 => Pb1(f.colorSpace, f.activeFormatDataPresent, f.barInfo, f.scanInfo)
    case 2 => Pb2(f.colorimetry, f.picAspectRatio, f.activeAspectRatio)
    case 3 => Pb3(f.itc, f.extendedColorimetry, f.quantizationRange, f.nonUniformPictureScaling)
    case 4 => f.vic
    case 5 => Pb5(f.yccQuantizationRange, f.contentType, f.pixelRepetition)
    case 6 => Lo(f.topBar)
    case 8 => Hi(f.topBar)
    case 9 => Lo(f.bottomBar)
    case 10 => Hi(f.bottomBar)
    case 11 => Lo(f.leftBar)
    case 12 => Hi(f.leftBar)
    case 13 => Lo(f.rightBar)
    case 14 => Hi(f.rightBar)
    case _ => 0
  }

  function Payload(f: AviInfoFrame): Payload
  {
    seq(32, i => PayloadByte(f, i))
  }

  /** HB0..HB3: packet type, version, length and a zero HB3. */
  function HeaderOf(f: AviInfoFrame): Header
  {
    [AVI_INFOFRAME_TYPE, f.version, AVI_LENGTH, 0]
  }

  /** The packet `XV_HdmiC_AVIIF_GeneratePacket` returns for `f`. */
  function Record(f: AviInfoFrame): Aux
  {
    WithChecksum(HeaderOf(f), Payload(f), AVI_LAST)
  }

  /** `XV_HdmiC_ParseAVIInfoFrame`: a record of another type leaves `dest` as it was. */
  function Parse(aux: Aux, dest: AviInfoFrame): (r: AviInfoFrame)
    ensures aux.header[0] != AVI_INFOFRAME_TYPE ==> r == dest
    ensures aux.header[0] == AVI_INFOFRAME_TYPE ==> FieldsFit(r)
  {
    if aux.header[0] != AVI_INFOFRAME_TYPE then dest
    else
      var d := aux.data;
      AviInfoFrame(
        aux.header[1],
        (d[1] >> 5) & 0x7, (d[1] >> 4) & 0x1, (d[1] >> 2) & 0x3, d[1] & 0x3,
        (d[2] >> 6) & 0x3, (d[2] >> 4) & 0x3, d[2] & 0xf,
        (d[3] >> 7) & 0x1, (d[3] >> 4) & 0x7, (d[3] >> 2) & 0x3, d[3] & 0x3,
        d[4] & 0x7f,
        (d[5] >> 6) & 0x3, (d[5] >> 4) & 0x3, d[5] & 0xf,
        Join(d[8], d[6]), Join(d[10], d[9]), Join(d[12], d[11]), Join(d[14], d[13]))
  }

  /** What a parse of `Record(f)` yields: every field cut to its slot's width. */
  function Fitted(f: AviInfoFrame): (g: AviInfoFrame)
    ensures FieldsFit(g)
  {
    f.(colorSpace := f.colorSpace & 0x7, activeFormatDataPresent := f.activeFormatDataPresent & 0x1,
       barInfo := f.barInfo & 0x3, scanInfo := f.scanInfo & 0x3,
       colorimetry := f.colorimetry & 0x3, picAspectRatio := f.picAspectRatio & 0x3,
       activeAspectRatio := f.activeAspectRatio & 0xf,
       itc := f.itc & 0x1, extendedColorimetry := f.extendedColorimetry & 0x7,
       quantizationRange := f.quantizationRange & 0x3,
       nonUniformPictureScaling := f.nonUniformPictureScaling & 0x3,
       vic := f.vic & 0x7f,
       yccQuantizationRange := f.yccQuantizationRange & 0x3, contentType := f.contentType & 0x3,
       pixelRepetition := f.pixelRepetition & 0xf)
  }

  lemma FittedFits(f: AviInfoFrame)
    ensures FieldsFit(f) <==> Fitted(f) == f
  {
  }

  /** The generated packet is a well-formed AVI InfoFrame: type, version,
      length, zero HB3, reserved bytes zero and a checksum that makes
      HB0..HB2 and PB0..PB14 sum to zero modulo 256. */
  lemma RecordWellFormed(f: AviInfoFrame)
    ensures var aux := Record(f);
      aux.header == [AVI_INFOFRAME_TYPE, f.version, AVI_LENGTH, 0] &&
      aux.data[7] == 0 && (forall i :: AVI_LAST < i < 32 ==> aux.data[i] == 0) &&
      ChecksumValid(aux, AVI_LAST)
  {
    ChecksumMakesSumZero(HeaderOf(f), Payload(f), AVI_LAST);
  }

  /** Parsing a generated packet gives back every field, cut to its width. */
  lemma ParseRecord(f: AviInfoFrame, dest: AviInfoFrame)
    ensures Parse(Record(f), dest) == Fitted(f)
  {
    var d := Record(f).data;
    assert d[1..] == Payload(f)[1..];
    SplitJoin(Hi(f.topBar), Lo(f.topBar));
    JoinSplit(f.topBar);
    JoinSplit(f.bottomBar);
    JoinSplit(f.leftBar);
    JoinSplit(f.rightBar);
  }

  /** Round trip: a frame whose fields fit survives generate-then-parse. */
  lemma RoundTrip(f: AviInfoFrame, dest: AviInfoFrame)
    requires FieldsFit(f)
    ensures Parse(Record(f), dest) == f
  {
    ParseRecord(f, dest);
    FittedFits(f);
  }

  /** The generator writes all eight bits of the VIC but the parser keeps
      seven: a VIC of 128 or more comes back 128 lower. */
  lemma HighVicTruncated(f: AviInfoFrame, dest: AviInfoFrame)
    requires f.vic >= 128
    ensures Parse(Record(f), dest).vic == f.vic - 128 != f.vic
  {
    ParseRecord(f, dest);
  }

  /** A well-formed AVI InfoFrame is exactly what the generator produces from
      its parse. */
  lemma RecordOfParse(aux: Aux, dest: AviInfoFrame)
    requires aux.header[0] == AVI_INFOFRAME_TYPE && aux.header[2] == AVI_LENGTH && aux.header[3] == 0
    requires aux.data[4] < 128 && aux.data[7] == 0
    requires forall i :: AVI_LAST < i < 32 ==> aux.data[i] == 0
    requires ChecksumValid(aux, AVI_LAST)
    ensures Record(Parse(aux, dest)) == aux
  {
    var f := Parse(aux, dest);
    PayloadOfParse(aux, dest);
    assert HeaderOf(f) == aux.header;
    ValidIsWithChecksum(aux, HeaderOf(f), Payload(f), AVI_LAST);
  }

  lemma PayloadOfParse(aux: Aux, dest: AviInfoFrame)
    requires aux.header[0] == AVI_INFOFRAME_TYPE
    requires aux.data[4] < 128 && aux.data[7] == 0
    requires forall i :: AVI_LAST < i < 32 ==> aux.data[i] == 0
    ensures Payload(Parse(aux, dest))[1..] == aux.data[1..]
  {
    PackedBytesOfParse(aux, dest);
    BarBytesOfParse(aux, dest);
  }

  lemma PackedBytesOfParse(aux: Aux, dest: AviInfoFrame)
    requires aux.header[0] == AVI_INFOFRAME_TYPE && aux.data[4] < 128
    ensures forall i | 1 <= i <= 5 :: PayloadByte(Parse(aux, dest), i) == aux.data[i]
  {
    var d := aux.data;
    var f := Parse(aux, dest);
    assert PayloadByte(f, 1) == d[1] by { Repack1(d[1]); }
    assert PayloadByte(f, 2) == d[2] by { Repack2(d[2]); }
    assert PayloadByte(f, 3) == d[3] by { Repack3(d[3]); }
    assert PayloadByte(f, 4) == d[4] by { Below128(d[4]); }
    assert PayloadByte(f, 5) == d[5] by { Repack5(d[5]); }
  }

  lemma BarBytesOfParse(aux: Aux, dest: AviInfoFrame)
    requires aux.header[0] == AVI_INFOFRAME_TYPE && aux.data[7] == 0
    requires forall i :: AVI_LAST < i < 32 ==> aux.data[i] == 0
    ensures forall i | 6 <= i < 32 :: PayloadByte(Parse(aux, dest), i) == aux.data[i]
  {
    var d := aux.data;
    SplitJoin(d[8], d[6]);
    SplitJoin(d[10], d[9]);
    SplitJoin(d[12], d[11]);
    SplitJoin(d[14], d[13]);
  }

  lemma Repack1(b: bv8)
    ensures Pb1((b >> 5) & 0x7, (b >> 4) & 0x1, (b >> 2) & 0x3, b & 0x3) == b
  {
  }

  lemma Repack2(b: bv8)
    ensures Pb2((b >> 6) & 0x3, (b >> 4) & 0x3, b & 0xf) == b
  {
  }

  lemma Repack3(b: bv8)
    ensures Pb3((b >> 7) & 0x1, (b >> 4) & 0x7, (b >> 2) & 0x3, b & 0x3) == b
  {
  }

  lemma Repack5(b: bv8)
    ensures Pb5((b >> 6) & 0x3, (b >> 4) & 0x3, b & 0xf) == b
  {
  }

  lemma Below128(b: bv8)
    requires b < 128
    ensures b & 0x7f == b
  {
  }

  /** `XV_HdmiC_AVIIF_GeneratePacket`: the zeroed record takes the header and
      the packed payload bytes, the reserved tail from PB(`HB2` + 2) on is
      cleared, and the checksum loops fill PB0. */
  method GeneratePacket(f: AviInfoFrame) returns (aux: Aux)
    ensures aux == Record(f)
  {
    var header := new bv8[4](i requires 0 <= i < 4 => HeaderOf(f)[i]);
    var data := new bv8[32](i => PayloadByte(f, i));
    ZeroFrom(data, header[2] as nat + 2);
    assert header[..] == HeaderOf(f);
    assert data[..] == Payload(f);
    var crc := ComputeChecksum(header, data, header[2] as nat + 2);
    data[0] := crc;
    assert data[..] == Payload(f)[0 := crc];
    aux := Aux(header[..], data[..]);
  }
}
