// Helpers of the HDMI transmitter's ALSA audio driver: the N value for
// Audio Clock Regeneration looked up by exact TMDS rate, and the choice of
// a CEA-861 speaker allocation from the sink's ELD speaker byte.
module TxAudio {
  import opened Word
  import opened Converters
  import AcrTmds

  const ROWS: nat := AcrTmds.ROWS

  /** `srate_to_index`: the column of `acr_n_table` for a sampling rate in
      Hz. The driver's `int` rate is read as the `u32` the helper takes, and
      every unlisted rate maps to column 0 (32 kHz). */
  function SrateToIndex(srate: int): (idx: nat)
    ensures idx < 7
    ensures Wrap32(srate) in STANDARD_RATES ==> STANDARD_RATES[idx] == Wrap32(srate)
  {
    match Wrap32(srate)
    case 32000 => 0
    case 44100 => 1
    case 48000 => 2
    case 88200 => 3
    case 96000 => 4
    case 176400 => 5
    case 192000 => 6
    case _ => 0
  }

  /** A standard rate selects its own column; any other selects column 0. */
  lemma SrateToIndexMeaning(srate: int)
    ensures Wrap32(srate) in STANDARD_RATES ==> STANDARD_RATES[SrateToIndex(srate)] == Wrap32(srate)
    ensures Wrap32(srate) !in STANDARD_RATES ==> SrateToIndex(srate) == 0
  {
  }

  /** The column is the InfoFrame sampling-frequency code less one. */
  lemma SrateToIndexIsCode(j: nat)
    requires j < 7
    ensures SrateToIndex(STANDARD_RATES[j]) == j == GetAudIFSampFreq(STANDARD_RATES[j]) - 1
  {
  }

  /** `acr_n_table`: TMDS character rate and N for the seven rates. */
  const ACR_N_TABLE: AcrTmds.TmdsTable := [
    AcrTmds.TmdsRow(0, [4096, 6272, 6144, 12544, 12288, 25088, 24576]),
    AcrTmds.TmdsRow(25200000, [4096, 6272, 6144, 12544, 12288, 25088, 24576]),
    AcrTmds.TmdsRow(27000000, [4096, 6272, 6144, 12544, 12288, 25088, 24576]),
    AcrTmds.TmdsRow(31500000, [4096, 6272, 6144, 12544, 12288, 25088, 24576]),
    AcrTmds.TmdsRow(33750000, [4096, 6272, 6144, 12544, 12288, 25088, 24576]),
    AcrTmds.TmdsRow(37800000, [4096, 6272, 6144, 12544, 12288, 25088, 24576]),
    AcrTmds.TmdsRow(40500000, [4096, 6272, 6144, 12544, 12288, 25088, 24576]),
    AcrTmds.TmdsRow(50400000, [4096, 6272, 6144, 12544, 12288, 25088, 24576]),
    AcrTmds.TmdsRow(54000000, [4096, 6272, 6144, 12544, 12288, 25088, 24576]),
    AcrTmds.TmdsRow(67500000, [4096, 6272, 6144, 12544, 12288, 25088, 24576]),
    AcrTmds.TmdsRow(74250000, [4096, 6272, 6144, 12544, 12288, 25088, 24576]),
    AcrTmds.TmdsRow(81000000, [4096, 6272, 6144, 12544, 12288, 25088, 24576]),
    AcrTmds.TmdsRow(92812500, [8192, 6272, 12288, 12544, 24576, 25088, 49152]),
    AcrTmds.TmdsRow(108000000, [4096, 6272, 6144, 12544, 12288, 25088, 24576]),
    AcrTmds.TmdsRow(111375000, [4096, 6272, 6144, 12544, 12288, 25088, 24576]),
    AcrTmds.TmdsRow(148500000, [4096, 6272, 6144, 12544, 12288, 25088, 24576]),
    AcrTmds.TmdsRow(185625000, [4096, 6272, 6144, 12544, 12288, 25088, 24576]),
    AcrTmds.TmdsRow(222750000, [4096, 6272, 6144, 12544, 12288, 25088, 24576]),
    AcrTmds.TmdsRow(297000000, [3072, 4704, 5120, 9408, 10240, 18816, 20480]),
    AcrTmds.TmdsRow(371250000, [4096, 6272, 6144, 12544, 12288, 25088, 24576]),
    AcrTmds.TmdsRow(445500000, [4096, 6272, 6144, 12544, 12288, 25088, 24576]),
    AcrTmds.TmdsRow(594000000, [3072, 9408, 6144, 18816, 12288, 37632, 24576])]

  /** The driver's table is the packet library's `TMDSChar_N_Table`. */
  lemma SameAsTmdsTable()
    ensures ACR_N_TABLE == AcrTmds.TMDS_CHAR_N_TABLE
  {
  }

  /** The first row at or after `from` whose rate is exactly `rate`, or
      `ROWS` when there is none. */
  function ExactRow(rate: U32, from: nat): (i: nat)
    requires from <= ROWS
    ensures from <= i <= ROWS
    ensures i < ROWS ==> ACR_N_TABLE[i].rate == rate
    ensures forall k :: from <= k < i ==> ACR_N_TABLE[k].rate != rate
    decreases ROWS - from
  {
    if from == ROWS then ROWS
    else if ACR_N_TABLE[from].rate == rate then from
    else ExactRow(rate, from + 1)
  }

  /** What `xhdmi_acr_get_n` returns: the N of the row holding `rate`
      exactly, or of row 0 when no row does, in the column of `srate`. */
  function AcrN(rate: U32, srate: int): U32
  {
    var i := ExactRow(rate, 0);
    ACR_N_TABLE[if i < ROWS then i else 0].n[SrateToIndex(srate)]
  }

  /** `xhdmi_acr_get_n`: scans the table for the exact rate. */
  method AcrGetN(rate: U32, srate: int) returns (n: U32)
    ensures n == AcrN(rate, srate)
  {
    var i := 0;
    while i < |ACR_N_TABLE|
      invariant i <= ROWS
      invariant ExactRow(rate, i) == ExactRow(rate, 0)
    {
      var item := ACR_N_TABLE[i];
      if item.rate == rate {
        var idx := SrateToIndex(srate);
        return item.n[idx];
      }
      i := i + 1;
    }
    var item := ACR_N_TABLE[0];
    var idx := SrateToIndex(srate);
    return item.n[idx];
  }

  /** The row of a listed rate is found: the rates are distinct. */
  lemma ExactRowOfTableRate(rate: U32, i: nat)
    requires i < ROWS && rate == ACR_N_TABLE[i].rate
    ensures ExactRow(rate, 0) == i
  {
    var e := ExactRow(rate, 0);
    if e < i {
      if e == 0 {
        AcrTmds.RateBounds(i);
      } else {
        AcrTmds.RatesApart(e, i);
      }
    }
  }

  /** For a listed rate, N is the table's entry for that row and column. */
  lemma AcrNOfTableRate(rate: U32, i: nat, srate: int)
    requires i < ROWS && rate == ACR_N_TABLE[i].rate
    ensures AcrN(rate, srate) == ACR_N_TABLE[i].n[SrateToIndex(srate)]
  {
    ExactRowOfTableRate(rate, i);
  }

  /** On every listed rate and standard sampling rate the driver's exact
      lookup agrees with the packet library's tolerant one on the
      corresponding sampling-frequency code. */
  lemma AgreesWithTmdsNVal(rate: U32, i: nat, j: nat)
    requires 1 <= i < ROWS && rate == ACR_N_TABLE[i].rate
    requires j < 7
    ensures AcrN(rate, STANDARD_RATES[j]) == AcrTmds.NVal(rate, GetAudIFSampFreq(STANDARD_RATES[j]))
  {
    AcrNOfTableRate(rate, i, STANDARD_RATES[j]);
    SrateToIndexIsCode(j);
    SameAsTmdsTable();
    AcrTmds.NValInRow(rate, i, j + 1);
  }

  /** N at 297 MHz for 48 kHz and at 594 MHz for 44.1 kHz. */
  lemma AcrNExamples()
    ensures AcrN(297000000, 48000) == 5120
    ensures AcrN(594000000, 44100) == 9408
  {
    AcrNOfTableRate(297000000, 18, 48000);
    AcrNOfTableRate(594000000, 21, 44100);
  }

  /** An unlisted rate falls back to row 0. */
  lemma AcrNFallback()
    ensures AcrN(1000, 48000) == 6144
  {
    var e := ExactRow(1000, 0);
    if e < ROWS && e != 0 {
      AcrTmds.RateBounds(e);
    }
  }

  /** One hertz off a listed rate the exact lookup falls back to row 0,
      while the packet library's lookup, with its 10 kHz tolerance, still
      finds the 297 MHz row. */
  lemma ExactUnlikeTolerant()
    ensures AcrN(297000001, 48000) == 6144
    ensures AcrTmds.NVal(297000001, 3) == 5120
  {
    AcrTmds.NValInRow(297000001, 18, 3);
    NoExactRow297();
  }

  lemma NoExactRow297()
    ensures ExactRow(297000001, 0) == ROWS
  {
    var e := ExactRow(297000001, 0);
    if e < ROWS {
      if e == 0 {
      } else if e < 18 {
        AcrTmds.RatesApart(e, 18);
      } else if e > 18 {
        AcrTmds.RatesApart(18, e);
      }
    }
  }

  // `hdmi_codec_cea_spk_placement`: one bit per CEA-861 speaker position.
  const FL: bv16 := 0x001
  const FC: bv16 := 0x002
  const FR: bv16 := 0x004
  const FLC: bv16 := 0x008
  const FRC: bv16 := 0x010
  const RL: bv16 := 0x020
  const RC: bv16 := 0x040
  const RR: bv16 := 0x080
  const RLC: bv16 := 0x100
  const RRC: bv16 := 0x200
  const LFE: bv16 := 0x400

  /** Every speaker position. */
  const ALL_SPEAKERS: bv16 := 0x7ff

  /** `hdmi_codec_eld_spk_alloc_bits`: the speakers each bit of the ELD
      speaker-allocation byte stands for. */
  const ELD_SPK_ALLOC_BITS: seq<bv16> := [FL | FR, LFE, FC, RL | RR, RC, FLC | FRC, RLC | RRC]

  /** The speakers named by bits `0 .. count - 1` of `spkAlloc`. */
  function MaskOfBits(spkAlloc: bv8, count: nat): bv16
    requires count <= 7
  {
    if count == 0 then 0
    else
      MaskOfBits(spkAlloc, count - 1) |
      (if spkAlloc & (1 << (count - 1)) != 0 then ELD_SPK_ALLOC_BITS[count - 1] else 0)
  }

  /** `hdmi_codec_spk_mask_from_alloc`. */
  method SpkMaskFromAlloc(spkAlloc: bv8) returns (spkMask: bv16)
    ensures spkMask == MaskOfBits(spkAlloc, 7)
  {
    spkMask := 0;
    var i := 0;
    while i < |ELD_SPK_ALLOC_BITS|
      invariant i <= 7
      invariant spkMask == MaskOfBits(spkAlloc, i)
    {
      assert MaskOfBits(spkAlloc, i + 1) ==
        MaskOfBits(spkAlloc, i) | (if spkAlloc & (1 << i) != 0 then ELD_SPK_ALLOC_BITS[i] else 0);
      if spkAlloc & (1 << i) != 0 {
        spkMask := spkMask | ELD_SPK_ALLOC_BITS[i];
      }
      i := i + 1;
    }
  }

  /** The speaker groups are disjoint, non-empty and cover every position. */
  lemma GroupsPartition(i: nat, k: nat)
    requires i < 7 && k < 7
    ensures ELD_SPK_ALLOC_BITS[i] != 0 && ELD_SPK_ALLOC_BITS[i] & ALL_SPEAKERS == ELD_SPK_ALLOC_BITS[i]
    ensures i != k ==> ELD_SPK_ALLOC_BITS[i] & ELD_SPK_ALLOC_BITS[k] == 0
  {
  }

  /** Group `i` is in the mask exactly when bit `i` of the allocation is
      set, and the mask names nothing but speaker positions. */
  lemma MaskByGroup(spkAlloc: bv8, i: nat)
    requires i < 7
    ensures MaskOfBits(spkAlloc, 7) & ELD_SPK_ALLOC_BITS[i] ==
      if spkAlloc & (1 << i) != 0 then ELD_SPK_ALLOC_BITS[i] else 0
    ensures MaskOfBits(spkAlloc, 7) & ALL_SPEAKERS == MaskOfBits(spkAlloc, 7)
  {
    MaskClosedForm(spkAlloc);
  }

  /** The seven steps of `MaskOfBits` written out. */
  lemma MaskClosedForm(a: bv8)
    ensures MaskOfBits(a, 7) ==
      (if a & 0x01 != 0 then FL | FR else 0) | (if a & 0x02 != 0 then LFE else 0) |
      (if a & 0x04 != 0 then FC else 0) | (if a & 0x08 != 0 then RL | RR else 0) |
      (if a & 0x10 != 0 then RC else 0) | (if a & 0x20 != 0 then FLC | FRC else 0) |
      (if a & 0x40 != 0 then RLC | RRC else 0)
  {
    assert MaskOfBits(a, 1) == (if a & 0x01 != 0 then FL | FR else 0);
    assert MaskOfBits(a, 2) == MaskOfBits(a, 1) | (if a & 0x02 != 0 then LFE else 0);
    assert MaskOfBits(a, 3) == MaskOfBits(a, 2) | (if a & 0x04 != 0 then FC else 0);
    assert MaskOfBits(a, 4) == MaskOfBits(a, 3) | (if a & 0x08 != 0 then RL | RR else 0);
    assert MaskOfBits(a, 5) == MaskOfBits(a, 4) | (if a & 0x10 != 0 then RC else 0);
    assert MaskOfBits(a, 6) == MaskOfBits(a, 5) | (if a & 0x20 != 0 then FLC | FRC else 0);
  }

  /** The mask is empty exactly when bits 0..6 are clear; bit 7 is ignored. */
  lemma MaskEmpty(spkAlloc: bv8)
    ensures MaskOfBits(spkAlloc, 7) == 0 <==> spkAlloc & 0x7f == 0
    ensures MaskOfBits(spkAlloc, 7) == MaskOfBits(spkAlloc & 0x7f, 7)
  {
    MaskClosedForm(spkAlloc);
    MaskClosedForm(spkAlloc & 0x7f);
  }

  /** `hdmi_codec_cea_spk_alloc`: a CEA-861 channel allocation code, its
      channel count and the speakers it needs. */
  datatype SpkAlloc = SpkAlloc(caId: bv8, nCh: nat, mask: bv16)

  const ALLOCS: nat := 32

  type AllocTable = s: seq<SpkAlloc> | |s| == 32 witness seq(32, _ => SpkAlloc(0, 2, FL | FR))

  /** `hdmi_codec_channel_alloc`, in order of preference, in four runs of
      eight entries; each mask is the OR of the speakers named beside it. */
  const CHANNEL_ALLOC: AllocTable := ALLOC_0 + ALLOC_1 + ALLOC_2 + ALLOC_3

  // Stereo, 2.1, Dolby Surround, 5.1, 4.0, 4.1, 5.0 and 6.1.
  const ALLOC_0: seq<SpkAlloc> := [
    SpkAlloc(0x00, 2, 0x005),  // FL | FR
    SpkAlloc(0x01, 4, 0x405),  // FL | FR | LFE
    SpkAlloc(0x02, 4, 0x007),  // FL | FR | FC
    SpkAlloc(0x0b, 6, 0x4a7),  // FL | FR | LFE | FC | RL | RR
    SpkAlloc(0x08, 6, 0x0a5),  // FL | FR | RL | RR
    SpkAlloc(0x09, 6, 0x4a5),  // FL | FR | LFE | RL | RR
    SpkAlloc(0x0a, 6, 0x0a7),  // FL | FR | FC | RL | RR
    SpkAlloc(0x0f, 8, 0x4e7)]  // FL | FR | LFE | FC | RL | RR | RC

  // 7.1 and the other eight-channel layouts.
  const ALLOC_1: seq<SpkAlloc> := [
    SpkAlloc(0x13, 8, 0x7a7),  // FL | FR | LFE | FC | RL | RR | RLC | RRC
    SpkAlloc(0x03, 8, 0x407),  // FL | FR | LFE | FC
    SpkAlloc(0x04, 8, 0x045),  // FL | FR | RC
    SpkAlloc(0x05, 8, 0x445),  // FL | FR | LFE | RC
    SpkAlloc(0x06, 8, 0x047),  // FL | FR | FC | RC
    SpkAlloc(0x07, 8, 0x447),  // FL | FR | LFE | FC | RC
    SpkAlloc(0x0c, 8, 0x0e5),  // FL | FR | RC | RL | RR
    SpkAlloc(0x0d, 8, 0x4e5)]  // FL | FR | LFE | RL | RR | RC

  const ALLOC_2: seq<SpkAlloc> := [
    SpkAlloc(0x0e, 8, 0x0e7),  // FL | FR | FC | RL | RR | RC
    SpkAlloc(0x10, 8, 0x3a5),  // FL | FR | RL | RR | RLC | RRC
    SpkAlloc(0x11, 8, 0x7a5),  // FL | FR | LFE | RL | RR | RLC | RRC
    SpkAlloc(0x12, 8, 0x3a7),  // FL | FR | FC | RL | RR | RLC | RRC
    SpkAlloc(0x14, 8, 0x01d),  // FL | FR | FLC | FRC
    SpkAlloc(0x15, 8, 0x41d),  // FL | FR | LFE | FLC | FRC
    SpkAlloc(0x16, 8, 0x01f),  // FL | FR | FC | FLC | FRC
    SpkAlloc(0x17, 8, 0x41f)]  // FL | FR | LFE | FC | FLC | FRC

  const ALLOC_3: seq<SpkAlloc> := [
    SpkAlloc(0x18, 8, 0x05d),  // FL | FR | RC | FLC | FRC
    SpkAlloc(0x19, 8, 0x45d),  // FL | FR | LFE | RC | FLC | FRC
    SpkAlloc(0x1a, 8, 0x05f),  // FL | FR | RC | FC | FLC | FRC
    SpkAlloc(0x1b, 8, 0x45f),  // FL | FR | LFE | RC | FC | FLC | FRC
    SpkAlloc(0x1c, 8, 0x0bd),  // FL | FR | RL | RR | FLC | FRC
    SpkAlloc(0x1d, 8, 0x4bd),  // FL | FR | LFE | RL | RR | FLC | FRC
    SpkAlloc(0x1e, 8, 0x0bf),  // FL | FR | FC | RL | RR | FLC | FRC
    SpkAlloc(0x1f, 8, 0x4bf)]  // FL | FR | LFE | FC | RL | RR | FLC | FRC

  const EINVAL: int := 22

  /** Every allocation drives the front pair and has 2, 4, 6 or 8 channels. */
  lemma ChannelAllocShape(i: nat)
    requires i < ALLOCS
    ensures CHANNEL_ALLOC[i].mask & (FL | FR) == FL | FR
    ensures CHANNEL_ALLOC[i].nCh in {2, 4, 6, 8}
  {
  }

  /** Whether the search takes entry `e`: with no speakers reported (an
      unplugged sink) the stereo entry, code 0; otherwise an entry with the
      requested channel count whose speakers the sink all has. */
  predicate Accepts(e: SpkAlloc, spkAlloc: bv8, spkMask: bv16, channels: bv8)
  {
    (spkAlloc == 0 && e.caId == 0) || (e.nCh == channels as nat && Covers(spkMask, e.mask))
  }

  /** Every speaker in `mask` is in `spkMask`. */
  predicate Covers(spkMask: bv16, mask: bv16)
  {
    mask == spkMask & mask
  }

  /** The first entry of `table` at or after `from` that the search takes,
      or the table's length when there is none. */
  function FirstFit(table: seq<SpkAlloc>, spkAlloc: bv8, spkMask: bv16, channels: bv8, from: nat): (i: nat)
    requires from <= |table|
    ensures from <= i <= |table|
    ensures i < |table| ==> Accepts(table[i], spkAlloc, spkMask, channels)
    ensures forall k :: from <= k < i ==> !Accepts(table[k], spkAlloc, spkMask, channels)
    decreases |table| - from
  {
    if from == |table| then from
    else if Accepts(table[from], spkAlloc, spkMask, channels) then from
    else FirstFit(table, spkAlloc, spkMask, channels, from + 1)
  }

  /** The index of the first entry of `table` the search takes, or -EINVAL. */
  function Search(table: seq<SpkAlloc>, spkAlloc: bv8, spkMask: bv16, channels: bv8): int
  {
    var i := FirstFit(table, spkAlloc, spkMask, channels, 0);
    if i < |table| then i else -EINVAL
  }

  /** What `hdmi_codec_get_ch_alloc_table_idx` returns for the sink's
      speaker-allocation byte: the first acceptable entry of
      `hdmi_codec_channel_alloc`, or -EINVAL when none is. */
  function ChAllocTableIdx(spkAlloc: bv8, channels: bv8): (r: int)
    ensures r == -EINVAL || 0 <= r < ALLOCS
    ensures 0 <= r ==> Accepts(CHANNEL_ALLOC[r], spkAlloc, MaskOfBits(spkAlloc, 7), channels)
    ensures 0 <= r ==> forall k :: 0 <= k < r ==>
      !Accepts(CHANNEL_ALLOC[k], spkAlloc, MaskOfBits(spkAlloc, 7), channels)
    ensures r == -EINVAL <==> forall k :: 0 <= k < ALLOCS ==>
      !Accepts(CHANNEL_ALLOC[k], spkAlloc, MaskOfBits(spkAlloc, 7), channels)
  {
    Search(CHANNEL_ALLOC, spkAlloc, MaskOfBits(spkAlloc, 7), channels)
  }

  /** `hdmi_codec_get_ch_alloc_table_idx`, given the speaker-allocation
      byte the ELD holds. */
  method GetChAllocTableIdx(spkAlloc: bv8, channels: bv8) returns (idx: int)
    ensures idx == ChAllocTableIdx(spkAlloc, channels)
  {
    var spkMask := SpkMaskFromAlloc(spkAlloc);
    idx := SearchTable(CHANNEL_ALLOC, spkAlloc, spkMask, channels);
  }

  /** The loop of `hdmi_codec_get_ch_alloc_table_idx` over `table`. */
  method SearchTable(table: seq<SpkAlloc>, spkAlloc: bv8, spkMask: bv16, channels: bv8) returns (idx: int)
    ensures idx == Search(table, spkAlloc, spkMask, channels)
  {
    var i := 0;
    while i < |table|
      invariant i <= |table|
      invariant FirstFit(table, spkAlloc, spkMask, channels, i) == FirstFit(table, spkAlloc, spkMask, channels, 0)
    {
      var cap := table[i];
      if spkAlloc == 0 && cap.caId == 0 {
        return i;
      }
      if cap.nCh != channels as nat {
        i := i + 1;
        continue;
      }
      if !Covers(spkMask, cap.mask) {
        i := i + 1;
        continue;
      }
      return i;
    }
    return -EINVAL;
  }

  /** An unplugged sink (no speakers reported) gets the stereo entry. */
  lemma UnpluggedIsStereo(channels: bv8)
    ensures ChAllocTableIdx(0, channels) == 0
  {
  }

  /** A plugged sink gets an entry with the requested channel count whose
      speakers it all has. */
  lemma ChosenFitsSink(spkAlloc: bv8, channels: bv8)
    requires spkAlloc != 0 && ChAllocTableIdx(spkAlloc, channels) >= 0
    ensures var e := CHANNEL_ALLOC[ChAllocTableIdx(spkAlloc, channels)];
      e.nCh == channels as nat && e.mask & MaskOfBits(spkAlloc, 7) == e.mask
  {
  }

  /** A 5.1 sink without a centre speaker (front pair, LFE, rear pair) asked
      for six channels gets surround 4.0, the first six-channel entry whose
      speakers it has. */
  lemma ChAllocExample51()
    ensures ChAllocTableIdx(0x0b, 6) == 4
  {
    var m := MaskOfBits(0x0b, 7);
    assert m == FL | FR | LFE | RL | RR;
    assert CHANNEL_ALLOC[3] == SpkAlloc(0x0b, 6, 0x4a7);
    assert CHANNEL_ALLOC[4] == SpkAlloc(0x08, 6, 0x0a5);
    assert forall k :: 0 <= k < 4 ==> !Accepts(CHANNEL_ALLOC[k], 0x0b, m, 6);
    assert Accepts(CHANNEL_ALLOC[4], 0x0b, m, 6);
  }

  /** A stereo-only sink cannot take eight channels. */
  lemma ChAllocExampleStereo()
    ensures ChAllocTableIdx(0x01, 8) == -EINVAL
  {
    assert MaskOfBits(0x01, 7) == FL | FR;
    assert FirstFit(CHANNEL_ALLOC, 0x01, FL | FR, 8, 0) == ALLOCS;
  }
}
