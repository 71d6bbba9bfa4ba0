// The Audio InfoFrame (CTA-861-G section 6.6): its parser
// `XV_HdmiC_ParseAudioInfoFrame` and its generator
// `XV_HdmiC_AudioIF_GeneratePacket`.
module AudioIf {
  import opened AuxPacket

  /** `XHdmiC_AudioInfoFrame`; enumerated fields are held in one byte each. */
  datatype AudioInfoFrame = AudioInfoFrame(
    version: bv8,
    codingType: bv8,
    channelCount: bv8,
    sampleFrequency: bv8,
    sampleSize: bv8,
    channelAllocation: bv8,
    downmixInhibit: bv8,
    levelShiftVal: bv8,
    lfePlaybackLevel: bv8)

  /** HB1 and HB2 of every generated Audio InfoFrame: version 1, 10 payload bytes. */
  const AUDIO_VERSION: bv8 := 0x01
  const AUDIO_LENGTH: bv8 := 0x0A
  /** The generator's checksum covers PB1..PB(`HB2`). */
  const AUDIO_LAST: nat := 10

  predicate FieldsFit(f: AudioInfoFrame)
  {
    f.codingType < 16 && f.channelCount < 8 && f.sampleFrequency < 8 && f.sampleSize < 4 &&
    f.downmixInhibit < 2 && f.levelShiftVal < 16 && f.lfePlaybackLevel < 4
  }

  function Pb1(codingType: bv8, channelCount: bv8): bv8
  {
    (codingType << 4) | (channelCount & 0x7)
  }

  function Pb2(sampleFrequency: bv8, sampleSize: bv8): bv8
  {
    ((sampleFrequency << 2) & 0x1c) | (sampleSize & 0x3)
  }

  /** PB5 as the generator packs it: level shift in bits 6..3, as CTA-861-G lays it out. */
  function Pb5(downmixInhibit: bv8, levelShiftVal: bv8, lfePlaybackLevel: bv8): bv8
  {
    (downmixInhibit << 7) | ((levelShiftVal << 3) & 0x78) | (lfePlaybackLevel & 0x3)
  }

  function HeaderOf(f: AudioInfoFrame): Header
  {
    [AUDIO_INFOFRAME_TYPE, AUDIO_VERSION, AUDIO_LENGTH, 0]
  }

  /** Payload byte `i` before the checksum is written; PB3 and PB6..PB31 are zero. */
  function PayloadByte(f: AudioInfoFrame, i: int): bv8
  {
    match i
    case 1 => Pb1(f.codingType, f.channelCount)
    case 2 => Pb2(f.sampleFrequency, f.sampleSize)
    case 4 => f.channelAllocation
    case 5 => Pb5(f.downmixInhibit, f.levelShiftVal, f.lfePlaybackLevel)
    case _ => 0
  }

  function Payload(f: AudioInfoFrame): Payload
  {
    seq(32, i => PayloadByte(f, i))
  }

  /** The packet `XV_HdmiC_AudioIF_GeneratePacket` returns for `f`. */
  function Record(f: AudioInfoFrame): Aux
  {
    WithChecksum(HeaderOf(f), Payload(f), AUDIO_LAST)
  }

  /** `XV_HdmiC_ParseAudioInfoFrame` as written: the level shift value is read
      from bits 7..4 of PB5. A record of another type leaves `dest` as it was. */
  function ParseAsWritten(aux: Aux, dest: AudioInfoFrame): (r: AudioInfoFrame)
    ensures aux.header[0] != AUDIO_INFOFRAME_TYPE ==> r == dest
    ensures aux.header[0] == AUDIO_INFOFRAME_TYPE ==> r == Parse(aux, dest).(levelShiftVal := (aux.data[5] >> 4) & 0xf)
  {
    if aux.header[0] != AUDIO_INFOFRAME_TYPE then dest
    else
      var d := aux.data;
      AudioInfoFrame(aux.header[1], (d[1] >> 4) & 0xf, d[1] & 0x7, (d[2] >> 2) & 0x7, d[2] & 0x3,
        d[4], (d[5] >> 7) & 0x1, (d[5] >> 4) & 0xf, d[5] & 0x3)
  }

  /** The parser with the level shift value read from bits 6..3 of PB5, where
      the generator and CTA-861-G put it. */
  function Parse(aux: Aux, dest: AudioInfoFrame): (r: AudioInfoFrame)
    ensures aux.header[0] != AUDIO_INFOFRAME_TYPE ==> r == dest
    ensures aux.header[0] == AUDIO_INFOFRAME_TYPE ==> FieldsFit(r)
  {
    if aux.header[0] != AUDIO_INFOFRAME_TYPE then dest
    else
      var d := aux.data;
      AudioInfoFrame(aux.header[1], (d[1] >> 4) & 0xf, d[1] & 0x7, (d[2] >> 2) & 0x7, d[2] & 0x3,
        d[4], (d[5] >> 7) & 0x1, (d[5] >> 3) & 0xf, d[5] & 0x3)
  }

  /** What a parse of `Record(f)` yields: version 1 and every field cut to its width. */
  function Fitted(f: AudioInfoFrame): (g: AudioInfoFrame)
    ensures FieldsFit(g)
  {
    f.(version := AUDIO_VERSION, codingType := f.codingType & 0xf, channelCount := f.channelCount & 0x7,
       sampleFrequency := f.sampleFrequency & 0x7, sampleSize := f.sampleSize & 0x3,
       downmixInhibit := f.downmixInhibit & 0x1, levelShiftVal := f.levelShiftVal & 0xf,
       lfePlaybackLevel := f.lfePlaybackLevel & 0x3)
  }

  lemma FittedFits(f: AudioInfoFrame)
    ensures FieldsFit(f) && f.version == AUDIO_VERSION <==> Fitted(f) == f
  {
  }

  /** The generated packet is a well-formed Audio InfoFrame: type, version 1,
      length 10, zero HB3, PB3 and PB6..PB31 zero, and a checksum that makes
      HB0..HB2 and PB0..PB10 sum to zero modulo 256. */
  lemma RecordWellFormed(f: AudioInfoFrame)
    ensures var aux := Record(f);
      aux.header == [AUDIO_INFOFRAME_TYPE, AUDIO_VERSION, AUDIO_LENGTH, 0] &&
      aux.data[3] == 0 && (forall i :: 5 < i < 32 ==> aux.data[i] == 0) &&
      ChecksumValid(aux, AUDIO_LAST)
  {
    ChecksumMakesSumZero(HeaderOf(f), Payload(f), AUDIO_LAST);
  }

  /** Parsing a generated packet gives back every field, cut to its width. */
  lemma ParseRecord(f: AudioInfoFrame, dest: AudioInfoFrame)
    ensures Parse(Record(f), dest) == Fitted(f)
  {
    var d := Record(f).data;
    assert d[1..] == Payload(f)[1..];
    Unpack5(f.downmixInhibit, f.levelShiftVal, f.lfePlaybackLevel);
  }

  lemma Unpack5(dm: bv8, lsv: bv8, lfe: bv8)
    ensures var b := Pb5(dm, lsv, lfe);
      (b >> 7) & 0x1 == dm & 0x1 && (b >> 3) & 0xf == lsv & 0xf && b & 0x3 == lfe & 0x3
  {
  }

  /** Round trip: a version-1 frame whose fields fit survives generate-then-parse. */
  lemma RoundTrip(f: AudioInfoFrame, dest: AudioInfoFrame)
    requires FieldsFit(f) && f.version == AUDIO_VERSION
    ensures Parse(Record(f), dest) == f
  {
    ParseRecord(f, dest);
    FittedFits(f);
  }

  /** The parser as written loses the level shift value: a frame with level
      shift 1 and no downmix inhibit comes back with level shift 0. */
  lemma AsWrittenLosesLevelShift(dest: AudioInfoFrame)
    ensures var f := AudioInfoFrame(AUDIO_VERSION, 1, 1, 3, 1, 0, 0, 1, 0);
      FieldsFit(f) && ParseAsWritten(Record(f), dest).levelShiftVal == 0 != f.levelShiftVal
  {
    var f := AudioInfoFrame(AUDIO_VERSION, 1, 1, 3, 1, 0, 0, 1, 0);
    assert Record(f).data[5] == Pb5(0, 1, 0);
  }

  /** A well-formed Audio InfoFrame is exactly what the generator produces
      from its parse. */
  lemma RecordOfParse(aux: Aux, dest: AudioInfoFrame)
    requires aux.header == [AUDIO_INFOFRAME_TYPE, AUDIO_VERSION, AUDIO_LENGTH, 0]
    requires aux.data[1] & 0x8 == 0 && aux.data[2] & 0xe0 == 0 && aux.data[3] == 0 && aux.data[5] & 0x4 == 0
    requires forall i :: 5 < i < 32 ==> aux.data[i] == 0
    requires ChecksumValid(aux, AUDIO_LAST)
    ensures Record(Parse(aux, dest)) == aux
  {
    var f, d := Parse(aux, dest), aux.data;
    forall i | 1 <= i < 32
      ensures Payload(f)[i] == d[i]
    {
      if i == 1 {
        Repack1(d[1]);
      } else if i == 2 {
        Repack2(d[2]);
      } else if i == 5 {
        Repack5(d[5]);
      }
    }
    assert Payload(f)[1..] == d[1..];
    ValidIsWithChecksum(aux, HeaderOf(f), Payload(f), AUDIO_LAST);
  }

  lemma Repack1(b: bv8)
    requires b & 0x8 == 0
    ensures Pb1((b >> 4) & 0xf, b & 0x7) == b
  {
  }

  lemma Repack2(b: bv8)
    requires b & 0xe0 == 0
    ensures Pb2((b >> 2) & 0x7, b & 0x3) == b
  {
  }

  lemma Repack5(b: bv8)
    requires b & 0x4 == 0
    ensures Pb5((b >> 7) & 0x1, (b >> 3) & 0xf, b & 0x3) == b
  {
  }

  /** `XV_HdmiC_AudioIF_GeneratePacket`: the zeroed record takes the header
      and the packed payload bytes, PB6..PB31 are cleared, and the checksum
      loops fill PB0. */
  method GeneratePacket(f: AudioInfoFrame) returns (aux: Aux)
    ensures aux == Record(f)
  {
    var header := new bv8[4](i requires 0 <= i < 4 => HeaderOf(f)[i]);
    var data := new bv8[32](i => PayloadByte(f, i));
    ZeroFrom(data, 6);
    assert header[..] == HeaderOf(f);
    assert data[..] == Payload(f);
    var crc := ComputeChecksum(header, data, header[2] as nat + 1);
    data[0] := crc;
    assert data[..] == Payload(f)[0 := crc];
    aux := Aux(header[..], data[..]);
  }
}
