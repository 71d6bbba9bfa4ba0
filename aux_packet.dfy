// The uniform 36-byte data-island record shared by every HDMI packet kind
// (4 header bytes HB0..HB3 and 32 payload bytes PB0..PB31), the packet
// type tags, and the InfoFrame checksum of section 5.3.5 of HDMI 1.4b.
module AuxPacket {

  type Header = s: seq<bv8> | |s| == 4 witness [0, 0, 0, 0]
  type Payload = s: seq<bv8> | |s| == 32 witness seq(32, _ => 0)

  /** One `XHdmiC_Aux` record: `Header.Byte[0..3]` and `Data.Byte[0..31]`. */
  datatype Aux = Aux(header: Header, data: Payload)

  // Packet type tags written to HB0 (InfoFrame types are 0x80 + the CTA-861-G type code).
  const GENERAL_CONTROL_PACKET_TYPE: bv8 := 0x03
  const AUDIO_METADATA_PACKET_TYPE: bv8 := 0x0D
  const AVI_INFOFRAME_TYPE: bv8 := 0x82
  const SPD_INFOFRAME_TYPE: bv8 := 0x83
  const AUDIO_INFOFRAME_TYPE: bv8 := 0x84
  const DRM_INFOFRAME_TYPE: bv8 := 0x87

  function Zeros(n: nat): (z: seq<bv8>)
    ensures |z| == n && forall i :: 0 <= i < n ==> z[i] == 0
  {
    seq(n, _ => 0)
  }

  /** The sum of a byte string, without truncation; the generators keep it
      modulo 256 in their 8-bit `Crc` accumulator. */
  function Sum(s: seq<bv8>): int
  {
    if s == [] then 0 else Sum(s[..|s| - 1]) + s[|s| - 1] as int
  }

  lemma {:induction false} SumAppend(a: seq<bv8>, b: seq<bv8>)
    ensures Sum(a + b) == Sum(a) + Sum(b)
  {
    if b == [] {
      assert a + b == a;
    } else {
      assert (a + b)[..|a + b| - 1] == a + b[..|b| - 1];
      SumAppend(a, b[..|b| - 1]);
    }
  }

  lemma {:induction false} SumZeros(n: nat)
    ensures Sum(Zeros(n)) == 0
  {
    if n > 0 {
      assert Zeros(n)[..n - 1] == Zeros(n - 1);
      SumZeros(n - 1);
    }
  }

  /** The byte holding the value `y`: C's truncating store into a `u8`
      for a value already in range. */
  function ByteOf(y: int): (b: bv8)
    requires 0 <= y < 256
    ensures b as int == y
  {
    if y == 0 then 0 else Succ(ByteOf(y - 1))
  }

  function Succ(b: bv8): (c: bv8)
    requires b as int < 255
    ensures c as int == b as int + 1
  {
    b + 1
  }

  /** `256 - Crc` truncated to 8 bits, for the running sum `s` whose low
      8 bits are `Crc`. */
  function Negated(s: int): (r: int)
    ensures 0 <= r < 256
  {
    (256 - s % 256) % 256
  }

  /** Checksum byte PB0 of an InfoFrame whose checksum range is HB0..HB2 and
      PB1..PB`last`: `256 - Crc` in 8 bits, where `Crc` is the 8-bit sum. */
  function Checksum(header: Header, data: Payload, last: nat): bv8
    requires 1 <= last < 32
  {
    ByteOf(Negated(Sum(header[..3] + data[1..last + 1])))
  }

  /** The record with its checksum byte written into PB0. */
  function WithChecksum(header: Header, data: Payload, last: nat): (aux: Aux)
    requires 1 <= last < 32
    ensures aux.header == header && aux.data[1..] == data[1..]
  {
    Aux(header, data[0 := Checksum(header, data, last)])
  }

  /** HB0..HB2 together with PB0..PB`last` add up to zero modulo 256. */
  predicate ChecksumValid(aux: Aux, last: nat)
    requires last < 32
  {
    (Sum(aux.header[..3]) + Sum(aux.data[..last + 1])) % 256 == 0
  }

  /** Writing the checksum byte makes the covered bytes sum to zero modulo 256,
      whatever was in PB0 before. */
  lemma ChecksumMakesSumZero(header: Header, data: Payload, last: nat)
    requires 1 <= last < 32
    ensures ChecksumValid(WithChecksum(header, data, last), last)
  {
    var aux := WithChecksum(header, data, last);
    var h, rest := header[..3], data[1..last + 1];
    var c := aux.data[0];
    assert aux.data[..last + 1] == [c] + rest;
    SumCons(c, rest);
    ChecksumOfSums(header, data, last);
    ResidueCancels(Sum(h), Sum(rest), c);
  }

  /** The checksum in terms of the sums of its two ranges. */
  lemma ChecksumOfSums(header: Header, data: Payload, last: nat)
    requires 1 <= last < 32
    ensures Checksum(header, data, last)
         == ByteOf(Negated(Sum(header[..3]) + Sum(data[1..last + 1])))
  {
    SumAppend(header[..3], data[1..last + 1]);
  }

  lemma SumCons(c: bv8, rest: seq<bv8>)
    ensures Sum([c] + rest) == c as int + Sum(rest)
  {
    assert [c][..0] == [];
    SumAppend([c], rest);
  }

  lemma ResidueCancels(a: int, b: int, c: bv8)
    requires c == ByteOf(Negated(a + b))
    ensures (a + (c as int + b)) % 256 == 0
  {
    NegationCancels(a, b);
  }

  lemma ModAdd(s: int, x: int)
    ensures (s % 256 + x) % 256 == (s + x) % 256
  {
  }

  lemma NegationCancels(a: int, b: int)
    ensures (a + (Negated(a + b) + b)) % 256 == 0
  {
  }

  /** `Crc` accumulation over a record under construction: HB0..HB2, then
      PB1..PB(`end` - 1), each addition truncated to 8 bits, and finally
      `Crc = 256 - Crc`, again truncated. */
  method ComputeChecksum(header: array<bv8>, data: array<bv8>, end: nat) returns (crc: bv8)
    requires header.Length == 4 && data.Length == 32 && 2 <= end <= 32
    ensures crc == Checksum(header[..], data[..], end - 1)
  {
    var acc := 0;
    var index := 0;
    while index < 3
      invariant 0 <= index <= 3
      invariant acc == Sum(header[..index]) % 256
    {
      assert header[..index + 1][..index] == header[..index];
      ModAdd(Sum(header[..index]), header[index] as int);
      acc := (acc + header[index] as int) % 256;
      index := index + 1;
    }
    index := 1;
    assert header[..3] + data[1..1] == header[..3];
    while index < end
      invariant 1 <= index <= end
      invariant acc == Sum(header[..3] + data[1..index]) % 256
    {
      assert (header[..3] + data[1..index + 1])[..index + 2] == header[..3] + data[1..index];
      ModAdd(Sum(header[..3] + data[1..index]), data[index] as int);
      acc := (acc + data[index] as int) % 256;
      index := index + 1;
    }
    crc := ByteOf((256 - acc) % 256);
  }

  /** A record whose PB0 makes the sum vanish carries exactly the checksum the
      generators compute: the checksum byte is unique. */
  lemma ChecksumValidIff(aux: Aux, last: nat)
    requires 1 <= last < 32
    ensures ChecksumValid(aux, last) <==> aux.data[0] == Checksum(aux.header, aux.data, last)
  {
    var h, rest, c := aux.header[..3], aux.data[1..last + 1], aux.data[0];
    assert aux.data[..last + 1] == [c] + rest;
    SumCons(c, rest);
    ChecksumOfSums(aux.header, aux.data, last);
    ResidueUnique(Sum(h), Sum(rest), c, Checksum(aux.header, aux.data, last));
  }

  /** A record with a valid checksum is what `WithChecksum` makes of its own
      header and PB1..PB31. */
  lemma ValidIsWithChecksum(aux: Aux, header: Header, data: Payload, last: nat)
    requires 1 <= last < 32
    requires header == aux.header && data[1..] == aux.data[1..]
    requires ChecksumValid(aux, last)
    ensures WithChecksum(header, data, last) == aux
  {
    ChecksumValidIff(aux, last);
    assert data[1..last + 1] == aux.data[1..last + 1];
    FirstByteReplaced(data, aux.data, Checksum(header, data, last));
  }

  lemma FirstByteReplaced(d: Payload, e: Payload, x: bv8)
    requires d[1..] == e[1..] && e[0] == x
    ensures d[0 := x] == e
  {
    forall i | 1 <= i < 32
      ensures d[i] == e[i]
    {
      assert d[i] == d[1..][i - 1];
    }
  }

  lemma ResidueUnique(a: int, b: int, c: bv8, k: bv8)
    requires k == ByteOf(Negated(a + b))
    ensures (a + (c as int + b)) % 256 == 0 <==> c == k
  {
    var x, n := c as int, Negated(a + b);
    assert k as int == n;
    ByteIdentity(c, k);
    ByteRange(c);
    ModComplement(a + b, x);
    assert a + (x + b) == (a + b) + x;
  }

  lemma ByteRange(c: bv8)
    ensures 0 <= c as int < 256
  {
  }

  lemma ModComplement(s: int, x: int)
    requires 0 <= x < 256
    ensures (s + x) % 256 == 0 <==> x == Negated(s)
  {
  }

  lemma ByteIdentity(c: bv8, k: bv8)
    ensures c == k <==> c as int == k as int
  {
  }

  /** Low and high byte of a 16-bit field, as `x & 0xff` and `(x & 0xff00) >> 8`. */
  function Lo(x: bv16): bv8
  {
    (x & 0xff) as bv8
  }

  function Hi(x: bv16): bv8
  {
    ((x & 0xff00) >> 8) as bv8
  }

  /** A 16-bit field read back as `(hi << 8) | lo`. */
  function Join(hi: bv8, lo: bv8): bv16
  {
    (hi as bv16 << 8) | lo as bv16
  }

  lemma JoinSplit(x: bv16)
    ensures Join(Hi(x), Lo(x)) == x
  {
  }

  lemma SplitJoin(hi: bv8, lo: bv8)
    ensures Hi(Join(hi, lo)) == hi && Lo(Join(hi, lo)) == lo
  {
  }

  /** The reserved-byte loop `for (Index = from; Index < 32; Index++) Data.Byte[Index] = 0`. */
  method ZeroFrom(data: array<bv8>, from: nat)
    requires data.Length == 32
    modifies data
    ensures forall i :: 0 <= i < 32 ==> data[i] == if i < from then old(data[i]) else 0
  {
    var index := from;
    while index < 32
      invariant forall i :: 0 <= i < 32 ==> data[i] == if i < from || index <= i then old(data[i]) else 0
    {
      data[index] := 0;
      index := index + 1;
    }
  }
}
