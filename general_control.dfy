// The General Control Packet (section 5.3.6 of HDMI 1.4b): the parser
// `XV_HdmiC_ParseGCP`. The core has no generator for it, so the packet layout
// of the standard is written out as `Encode` and the parser is checked
// against it.
module Gcp {
  import opened AuxPacket

  /** `XHdmiC_GeneralControlPacket`. */
  datatype GeneralControlPacket = GeneralControlPacket(
    clearAvMute: bv8,
    setAvMute: bv8,
    pixelPackingPhase: bv8,
    colorDepth: bv8,
    defaultPhase: bv8)

  predicate FieldsFit(g: GeneralControlPacket)
  {
    g.clearAvMute < 2 && g.setAvMute < 2 && g.pixelPackingPhase < 16 && g.colorDepth < 16 &&
    g.defaultPhase < 2
  }

  /** `XV_HdmiC_ParseGCP`: SB0..SB2 are decoded; a record of another type
      leaves `dest` as it was. */
  function Parse(aux: Aux, dest: GeneralControlPacket): (r: GeneralControlPacket)
    ensures aux.header[0] != GENERAL_CONTROL_PACKET_TYPE ==> r == dest
    ensures aux.header[0] == GENERAL_CONTROL_PACKET_TYPE ==> FieldsFit(r)
  {
    if aux.header[0] != GENERAL_CONTROL_PACKET_TYPE then dest
    else
      var d := aux.data;
      GeneralControlPacket((d[0] >> 4) & 0x1, d[0] & 0x1, (d[1] >> 4) & 0xf, d[1] & 0xf, d[2] & 0x1)
  }

  /** The packet as the standard lays it out: Set_AVMUTE in bit 0 and
      Clear_AVMUTE in bit 4 of SB0, CD in bits 3..0 and PP in bits 7..4 of
      SB1, Default_Phase in bit 0 of SB2, everything else zero. */
  function Encode(g: GeneralControlPacket): Aux
    requires FieldsFit(g)
  {
    var sb0 := (g.clearAvMute << 4) | g.setAvMute;
    var sb1 := (g.pixelPackingPhase << 4) | g.colorDepth;
    Aux([GENERAL_CONTROL_PACKET_TYPE, 0, 0, 0], [sb0, sb1, g.defaultPhase] + Zeros(29))
  }

  /** The parser recovers every field of a packet laid out by the standard. */
  lemma ParseEncode(g: GeneralControlPacket, dest: GeneralControlPacket)
    requires FieldsFit(g)
    ensures Parse(Encode(g), dest) == g
  {
    UnpackNibbles(g.pixelPackingPhase, g.colorDepth);
    UnpackAvMute(g.clearAvMute, g.setAvMute);
  }

  lemma UnpackNibbles(hi: bv8, lo: bv8)
    requires hi < 16 && lo < 16
    ensures (((hi << 4) | lo) >> 4) & 0xf == hi && ((hi << 4) | lo) & 0xf == lo
  {
  }

  lemma UnpackAvMute(clear: bv8, setMute: bv8)
    requires clear < 2 && setMute < 2
    ensures (((clear << 4) | setMute) >> 4) & 0x1 == clear && ((clear << 4) | setMute) & 0x1 == setMute
  {
  }

  /** Only HB0 and SB0..SB2 matter to the parser. */
  lemma ParseReadsFirstSubpacketBytes(a: Aux, b: Aux, dest: GeneralControlPacket)
    requires a.header[0] == b.header[0] && a.data[..3] == b.data[..3]
    ensures Parse(a, dest) == Parse(b, dest)
  {
    assert a.data[0] == a.data[..3][0] && a.data[1] == a.data[..3][1] && a.data[2] == a.data[..3][2];
  }
}
