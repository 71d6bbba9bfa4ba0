// The Audio Metadata packet (HDMI 2.0 section 9.8): its parser
// `XV_HdmiC_ParseAudioMetadata` and its generator
// `XV_HdmiC_AudioMetadata_GeneratePacket`. It carries no checksum.
module AudioMeta {
  import opened AuxPacket

  /** `XHdmiC_AudioMetadata`. */
  datatype AudioMetadata = AudioMetadata(
    audio3D: bv8,
    numAudioStr: bv8,
    numViews: bv8,
    audio3DChannelCount: bv8,
    acat: bv8,
    audio3DChannelAllocation: bv8)

  predicate FieldsFit(m: AudioMetadata)
  {
    m.audio3D < 2 && m.numAudioStr < 4 && m.numViews < 4 && m.audio3DChannelCount < 32 && m.acat < 16
  }

  function HeaderOf(m: AudioMetadata): Header
  {
    [AUDIO_METADATA_PACKET_TYPE, m.audio3D & 0x1, ((m.numAudioStr & 0x3) << 2) | (m.numViews & 0x3), 0]
  }

  /** PB0..PB2 carry the 3D channel count, ACAT and channel allocation; PB3..PB31 are zero. */
  function PayloadByte(m: AudioMetadata, i: int): bv8
  {
    match i
    case 0 => m.audio3DChannelCount & 0x1F
    case 1 => m.acat & 0x0F
    case 2 => m.audio3DChannelAllocation & 0xFF
    case _ => 0
  }

  /** The packet `XV_HdmiC_AudioMetadata_GeneratePacket` returns for `m`. */
  function Record(m: AudioMetadata): Aux
  {
    Aux(HeaderOf(m), seq(32, i => PayloadByte(m, i)))
  }

  /** `XV_HdmiC_ParseAudioMetadata`: a record of another type leaves `dest` as it was. */
  function Parse(aux: Aux, dest: AudioMetadata): (r: AudioMetadata)
    ensures aux.header[0] != AUDIO_METADATA_PACKET_TYPE ==> r == dest
    ensures aux.header[0] == AUDIO_METADATA_PACKET_TYPE ==> FieldsFit(r)
  {
    if aux.header[0] != AUDIO_METADATA_PACKET_TYPE then dest
    else
      AudioMetadata(aux.header[1] & 0x1, (aux.header[2] >> 2) & 0x3, aux.header[2] & 0x3,
        aux.data[0] & 0x1F, aux.data[1] & 0x0F, aux.data[2] & 0xFF)
  }

  /** What a parse of `Record(m)` yields: every field cut to its width. */
  function Fitted(m: AudioMetadata): (g: AudioMetadata)
    ensures FieldsFit(g)
  {
    AudioMetadata(m.audio3D & 0x1, m.numAudioStr & 0x3, m.numViews & 0x3,
      m.audio3DChannelCount & 0x1F, m.acat & 0x0F, m.audio3DChannelAllocation)
  }

  lemma FittedFits(m: AudioMetadata)
    ensures FieldsFit(m) <==> Fitted(m) == m
  {
  }

  /** The generated packet has the metadata type, a zero HB3 and PB3..PB31 zero. */
  lemma RecordWellFormed(m: AudioMetadata)
    ensures var aux := Record(m);
      aux.header[0] == AUDIO_METADATA_PACKET_TYPE && aux.header[3] == 0 &&
      forall i :: 2 < i < 32 ==> aux.data[i] == 0
  {
  }

  /** Parsing a generated packet gives back every field, cut to its width. */
  lemma ParseRecord(m: AudioMetadata, dest: AudioMetadata)
    ensures Parse(Record(m), dest) == Fitted(m)
  {
    UnpackHb2(m.numAudioStr, m.numViews);
  }

  lemma UnpackHb2(streams: bv8, views: bv8)
    ensures var b := ((streams & 0x3) << 2) | (views & 0x3);
      (b >> 2) & 0x3 == streams & 0x3 && b & 0x3 == views & 0x3
  {
  }

  /** Round trip: metadata whose fields fit survive generate-then-parse. */
  lemma RoundTrip(m: AudioMetadata, dest: AudioMetadata)
    requires FieldsFit(m)
    ensures Parse(Record(m), dest) == m
  {
    ParseRecord(m, dest);
    FittedFits(m);
  }

  /** A packet of the metadata type whose unused bits are clear is exactly
      what the generator produces from its parse. */
  lemma RecordOfParse(aux: Aux, dest: AudioMetadata)
    requires aux.header[0] == AUDIO_METADATA_PACKET_TYPE && aux.header[1] < 2 && aux.header[2] < 16
    requires aux.header[3] == 0 && aux.data[0] < 32 && aux.data[1] < 16
    requires forall i :: 2 < i < 32 ==> aux.data[i] == 0
    ensures Record(Parse(aux, dest)) == aux
  {
    var m := Parse(aux, dest);
    RepackHb2(aux.header[2]);
    LowBits(aux.header[1], aux.data[0], aux.data[1]);
    assert HeaderOf(m) == aux.header;
    assert Record(m).data == aux.data;
  }

  lemma RepackHb2(b: bv8)
    requires b < 16
    ensures ((((b >> 2) & 0x3) & 0x3) << 2) | ((b & 0x3) & 0x3) == b
  {
  }

  lemma LowBits(hb1: bv8, pb0: bv8, pb1: bv8)
    requires hb1 < 2 && pb0 < 32 && pb1 < 16
    ensures (hb1 & 0x1) & 0x1 == hb1 && (pb0 & 0x1F) & 0x1F == pb0 && (pb1 & 0x0F) & 0x0F == pb1
  {
  }

  /** `XV_HdmiC_AudioMetadata_GeneratePacket`: the zeroed record takes the
      header and PB0..PB2, and PB3..PB31 are cleared. */
  method GeneratePacket(m: AudioMetadata) returns (aux: Aux)
    ensures aux == Record(m)
  {
    var header := new bv8[4](i requires 0 <= i < 4 => HeaderOf(m)[i]);
    var data := new bv8[32](i => PayloadByte(m, i));
    ZeroFrom(data, 3);
    assert header[..] == HeaderOf(m);
    assert data[..] == Record(m).data;
    aux := Aux(header[..], data[..]);
  }
}
