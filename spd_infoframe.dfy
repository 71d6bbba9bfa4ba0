// The Source Product Description InfoFrame (CTA-861-G section 6.5): its
// parser `XV_HdmiC_ParseSPDIF` and its generator `XV_HdmiC_SPDIF_GeneratePacket`.
// Its 25 payload bytes fill the first seven bytes of each 8-byte subpacket;
// data bytes 7, 15, 23 and 31 are the subpackets' parity bytes and stay zero.
module Spd {
  import opened AuxPacket

  type VendorName = s: seq<bv8> | |s| == 8 witness Zeros(8)
  type ProductDescription = s: seq<bv8> | |s| == 16 witness Zeros(16)

  /** `XHdmiC_SPDInfoFrame`: VN1..VN8, PD1..PD16 and the source information code. */
  datatype SpdInfoFrame = SpdInfoFrame(
    version: bv8,
    vendorName: VendorName,
    productDescription: ProductDescription,
    sourceInfo: bv8)

  const SPD_LENGTH: bv8 := 25
  /** The generator's checksum covers PB1..PB(`HB2` + 3). */
  const SPD_LAST: nat := 28

  function HeaderOf(s: SpdInfoFrame): Header
  {
    [SPD_INFOFRAME_TYPE, s.version, SPD_LENGTH, 0]
  }

  /** Data byte `i` before the checksum is written. */
  function PayloadByte(s: SpdInfoFrame, i: int): bv8
  {
    if 1 <= i <= 6 then s.vendorName[i - 1]
    else if 8 <= i <= 9 then s.vendorName[i - 2]
    else if 10 <= i <= 14 then s.productDescription[i - 10]
    else if 16 <= i <= 22 then s.productDescription[i - 11]
    else if 24 <= i <= 27 then s.productDescription[i - 12]
    else if i == 28 then s.sourceInfo
    else 0
  }

  /** Data byte holding VN(`j` + 1): VN1..VN6 in bytes 1..6, VN7 and VN8 in bytes 8 and 9. */
  function VendorNamePosition(j: int): int
  {
    if j < 6 then j + 1 else j + 2
  }

  /** Data byte holding PD(`j` + 1): PD1..PD5 in bytes 10..14, PD6..PD12 in
      bytes 16..22, PD13..PD16 in bytes 24..27. */
  function ProductDescriptionPosition(j: int): int
  {
    if j < 5 then j + 10 else if j < 12 then j + 11 else j + 12
  }

  function Payload(s: SpdInfoFrame): Payload
  {
    seq(32, i => PayloadByte(s, i))
  }

  /** The packet `XV_HdmiC_SPDIF_GeneratePacket` returns for `s`. */
  function Record(s: SpdInfoFrame): Aux
  {
    WithChecksum(HeaderOf(s), Payload(s), SPD_LAST)
  }

  /** `XV_HdmiC_ParseSPDIF`: a record of another type leaves `dest` as it was. */
  function Parse(aux: Aux, dest: SpdInfoFrame): (r: SpdInfoFrame)
    ensures aux.header[0] != SPD_INFOFRAME_TYPE ==> r == dest
    ensures aux.header[0] == SPD_INFOFRAME_TYPE ==> r.version == aux.header[1]
  {
    if aux.header[0] != SPD_INFOFRAME_TYPE then dest
    else
      var d := aux.data;
      SpdInfoFrame(aux.header[1],
        seq(8, j requires 0 <= j < 8 => d[VendorNamePosition(j)]),
        seq(16, j requires 0 <= j < 16 => d[ProductDescriptionPosition(j)]),
        d[28])
  }

  /** The generated packet is a well-formed SPD InfoFrame: type, version,
      length 25, zero HB3, zero parity bytes and PB29..PB31, and a checksum that
      makes HB0..HB2 and PB0..PB28 sum to zero modulo 256. */
  lemma RecordWellFormed(s: SpdInfoFrame)
    ensures var aux := Record(s);
      aux.header == [SPD_INFOFRAME_TYPE, s.version, SPD_LENGTH, 0] &&
      aux.data[7] == 0 && aux.data[15] == 0 && aux.data[23] == 0 &&
      (forall i :: SPD_LAST < i < 32 ==> aux.data[i] == 0) &&
      ChecksumValid(aux, SPD_LAST)
  {
    ChecksumMakesSumZero(HeaderOf(s), Payload(s), SPD_LAST);
  }

  /** Round trip: every SPD InfoFrame survives generate-then-parse unchanged. */
  lemma RoundTrip(s: SpdInfoFrame, dest: SpdInfoFrame)
    ensures Parse(Record(s), dest) == s
  {
    var r, d := Parse(Record(s), dest), Record(s).data;
    assert forall i | 1 <= i < 32 :: d[i] == PayloadByte(s, i) by {
      assert d[1..] == Payload(s)[1..];
    }
    assert r.vendorName == s.vendorName;
    assert r.productDescription == s.productDescription;
  }

  /** A well-formed SPD InfoFrame is exactly what the generator produces from
      its parse. */
  lemma RecordOfParse(aux: Aux, dest: SpdInfoFrame)
    requires aux.header[0] == SPD_INFOFRAME_TYPE && aux.header[2] == SPD_LENGTH && aux.header[3] == 0
    requires aux.data[7] == 0 && aux.data[15] == 0 && aux.data[23] == 0
    requires forall i :: SPD_LAST < i < 32 ==> aux.data[i] == 0
    requires ChecksumValid(aux, SPD_LAST)
    ensures Record(Parse(aux, dest)) == aux
  {
    var s := Parse(aux, dest);
    forall i | 1 <= i < 32
      ensures Payload(s)[i] == aux.data[i]
    {
      if 1 <= i <= 6 {
        assert VendorNamePosition(i - 1) == i;
      } else if 8 <= i <= 9 {
        assert VendorNamePosition(i - 2) == i;
      } else if 10 <= i <= 14 {
        assert ProductDescriptionPosition(i - 10) == i;
      } else if 16 <= i <= 22 {
        assert ProductDescriptionPosition(i - 11) == i;
      } else if 24 <= i <= 27 {
        assert ProductDescriptionPosition(i - 12) == i;
      }
    }
    assert Payload(s)[1..] == aux.data[1..];
    assert HeaderOf(s) == aux.header;
    ValidIsWithChecksum(aux, HeaderOf(s), Payload(s), SPD_LAST);
  }

  /** `XV_HdmiC_SPDIF_GeneratePacket`: the zeroed record takes the header and
      the name, description and source bytes, and the checksum loops fill PB0. */
  method GeneratePacket(s: SpdInfoFrame) returns (aux: Aux)
    ensures aux == Record(s)
  {
    var header := new bv8[4](i requires 0 <= i < 4 => HeaderOf(s)[i]);
    var data := new bv8[32](i => PayloadByte(s, i));
    assert header[..] == HeaderOf(s);
    assert data[..] == Payload(s);
    var crc := ComputeChecksum(header, data, header[2] as nat + 4);
    data[0] := crc;
    assert data[..] == Payload(s)[0 := crc];
    aux := Aux(header[..], data[..]);
  }
}
