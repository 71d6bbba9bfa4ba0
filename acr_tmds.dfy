// Audio Clock Regeneration for TMDS signalling (section 7.2 of HDMI 1.4b):
// `XHdmiC_TMDS_GetNVal`, which picks the N value for a TMDS character rate
// and a sampling frequency, and `XHdmiC_TMDS_GetAudSampFreq`, which recovers
// the sampling frequency from the rate and the received N and CTS.
module AcrTmds {
  import opened Word
  import opened Converters

  /** One row of `TMDSChar_N_Table`: a TMDS character rate in Hz and the N
      values for 32, 44.1, 48, 88.2, 96, 176.4 and 192 kHz. */
  datatype TmdsRow = TmdsRow(rate: nat, n: NRow)

  /** N values for the seven sampling frequencies, 32 kHz first. */
  type NRow = s: seq<U32> | |s| == 7 witness [0, 0, 0, 0, 0, 0, 0]

  const TMDS_CHAR_N_TABLE: TmdsTable := [
    TmdsRow(        0, [4096, 6272,  6144, 12544, 12288, 25088, 24576]),
    TmdsRow( 25200000, [4096, 6272,  6144, 12544, 12288, 25088, 24576]),
    TmdsRow( 27000000, [4096, 6272,  6144, 12544, 12288, 25088, 24576]),
    TmdsRow( 31500000, [4096, 6272,  6144, 12544, 12288, 25088, 24576]),
    TmdsRow( 33750000, [4096, 6272,  6144, 12544, 12288, 25088, 24576]),
    TmdsRow( 37800000, [4096, 6272,  6144, 12544, 12288, 25088, 24576]),
    TmdsRow( 40500000, [4096, 6272,  6144, 12544, 12288, 25088, 24576]),
    TmdsRow( 50400000, [4096, 6272,  6144, 12544, 12288, 25088, 24576]),
    TmdsRow( 54000000, [4096, 6272,  6144, 12544, 12288, 25088, 24576]),
    TmdsRow( 67500000, [4096, 6272,  6144, 12544, 12288, 25088, 24576]),
    TmdsRow( 74250000, [4096, 6272,  6144, 12544, 12288, 25088, 24576]),
    TmdsRow( 81000000, [4096, 6272,  6144, 12544, 12288, 25088, 24576]),
    TmdsRow( 92812500, [8192, 6272, 12288, 12544, 24576, 25088, 49152]),
    TmdsRow(108000000, [4096, 6272,  6144, 12544, 12288, 25088, 24576]),
    TmdsRow(111375000, [4096, 6272,  6144, 12544, 12288, 25088, 24576]),
    TmdsRow(148500000, [4096, 6272,  6144, 12544, 12288, 25088, 24576]),
    TmdsRow(185625000, [4096, 6272,  6144, 12544, 12288, 25088, 24576]),
    TmdsRow(222750000, [4096, 6272,  6144, 12544, 12288, 25088, 24576]),
    TmdsRow(297000000, [3072, 4704,  5120,  9408, 10240, 18816, 20480]),
    TmdsRow(371250000, [4096, 6272,  6144, 12544, 12288, 25088, 24576]),
    TmdsRow(445500000, [4096, 6272,  6144, 12544, 12288, 25088, 24576]),
    TmdsRow(594000000, [3072, 9408,  6144, 18816, 12288, 37632, 24576])]

  const ROWS: nat := 22

  type TmdsTable = s: seq<TmdsRow> | |s| == 22 witness seq(22, _ => TmdsRow(0, [0, 0, 0, 0, 0, 0, 0]))

  /** The lookup's 10 kHz window around a row's rate, with both bounds
      computed in 32-bit unsigned arithmetic as the source does. */
  predicate InTolerance(rate: U32, center: nat)
  {
    rate <= Wrap32(center + 10000) && rate >= Wrap32(center - 10000)
  }

  /** The first row at or after `from` whose window holds `rate`, or `ROWS`
      when there is none. */
  function MatchingRow(rate: U32, from: nat): (i: nat)
    requires from <= ROWS
    ensures from <= i <= ROWS
    ensures i < ROWS ==> InTolerance(rate, TMDS_CHAR_N_TABLE[i].rate)
    ensures forall k :: from <= k < i ==> !InTolerance(rate, TMDS_CHAR_N_TABLE[k].rate)
    decreases ROWS - from
  {
    if from == ROWS then ROWS
    else if InTolerance(rate, TMDS_CHAR_N_TABLE[from].rate) then from
    else MatchingRow(rate, from + 1)
  }

  /** The N value `XHdmiC_TMDS_GetNVal` returns: 0 for an enumerant outside
      32K..192K, otherwise the column of the first row within tolerance,
      with row 0 as the fallback. */
  function NVal(rate: U32, freq: nat): U32
  {
    if freq == SAMPLING_FREQUENCY || freq > SAMPLING_FREQUENCY_192K then 0
    else
      var i := MatchingRow(rate, 0);
      TMDS_CHAR_N_TABLE[if i < ROWS then i else 0].n[freq - 1]
  }

  /** `XHdmiC_TMDS_GetNVal`. */
  method GetNVal(rate: U32, freq: nat) returns (n: U32)
    ensures n == NVal(rate, freq)
  {
    if freq == SAMPLING_FREQUENCY || freq > SAMPLING_FREQUENCY_192K {
      return 0;
    }
    var i := 0;
    while i < ROWS
      invariant i <= ROWS
      invariant MatchingRow(rate, i) == MatchingRow(rate, 0)
    {
      var item := TMDS_CHAR_N_TABLE[i];
      if InTolerance(rate, item.rate) {
        return item.n[freq - 1];
      }
      i := i + 1;
    }
    var item := TMDS_CHAR_N_TABLE[0];
    return item.n[freq - 1];
  }

  /** Row 0 never matches inside the loop: its lower bound 0 - 10000 wraps to
      4294957296, above its upper bound 10000. */
  lemma Row0NeverMatches(rate: U32)
    ensures !InTolerance(rate, TMDS_CHAR_N_TABLE[0].rate)
  {
  }

  /** The table's nonzero rates ascend more than 20 kHz apart, inside the
      range where the window bounds do not wrap. */
  lemma RatesApart(i: nat, j: nat)
    requires 1 <= i < j < ROWS
    ensures 10000 <= TMDS_CHAR_N_TABLE[i].rate && TMDS_CHAR_N_TABLE[j].rate + 10000 < U32_MOD
    ensures TMDS_CHAR_N_TABLE[i].rate + 20000 < TMDS_CHAR_N_TABLE[j].rate
  {
  }

  lemma RateBounds(i: nat)
    requires 1 <= i < ROWS
    ensures 25200000 <= TMDS_CHAR_N_TABLE[i].rate <= 594000000
  {
  }

  /** Away from row 0 the window is the plain interval of +-10 kHz. */
  lemma WindowOfRow(rate: U32, i: nat)
    requires 1 <= i < ROWS
    ensures InTolerance(rate, TMDS_CHAR_N_TABLE[i].rate) <==>
      TMDS_CHAR_N_TABLE[i].rate - 10000 <= rate <= TMDS_CHAR_N_TABLE[i].rate + 10000
  {
    RateBounds(i);
  }

  /** A rate within 10 kHz of the rate of row `i` >= 1 matches row `i` and no
      other. */
  lemma MatchingRowIs(rate: U32, i: nat)
    requires 1 <= i < ROWS
    requires TMDS_CHAR_N_TABLE[i].rate - 10000 <= rate <= TMDS_CHAR_N_TABLE[i].rate + 10000
    ensures MatchingRow(rate, 0) == i
  {
    var m := MatchingRow(rate, 0);
    WindowOfRow(rate, i);
    if m < i {
      if m == 0 {
        Row0NeverMatches(rate);
      } else {
        WindowOfRow(rate, m);
        RatesApart(m, i);
      }
    }
  }

  /** `XHdmiC_TMDS_GetNVal` on a rate within 10 kHz of a table rate returns
      that row's N for the requested frequency. */
  lemma NValInRow(rate: U32, i: nat, freq: nat)
    requires 1 <= i < ROWS
    requires TMDS_CHAR_N_TABLE[i].rate - 10000 <= rate <= TMDS_CHAR_N_TABLE[i].rate + 10000
    requires 1 <= freq <= 7
    ensures NVal(rate, freq) == TMDS_CHAR_N_TABLE[i].n[freq - 1]
  {
    MatchingRowIs(rate, i);
  }

  /** A rate no row's window holds falls back to row 0; an enumerant outside
      32K..192K gives N = 0. */
  lemma NValFallback(rate: U32, freq: nat)
    requires forall i :: 1 <= i < ROWS ==> !InTolerance(rate, TMDS_CHAR_N_TABLE[i].rate)
    ensures NVal(rate, freq) == if 1 <= freq <= 7 then TMDS_CHAR_N_TABLE[0].n[freq - 1] else 0
  {
    Row0NeverMatches(rate);
  }

  /** N for 148.5 MHz at 48 kHz is 6144 and for 297 MHz at 48 kHz 5120. */
  lemma NValExamples()
    ensures NVal(148500000, 3) == 6144
    ensures NVal(297000000, 3) == 5120
  {
    NValInRow(148500000, 15, 3);
    NValInRow(297000000, 18, 3);
  }

  /** An unlisted 999.999999 MHz falls back to row 0's 6144 at 48 kHz. */
  lemma NValFallbackExample()
    ensures NVal(999999999, 3) == 6144
  {
    forall i | 1 <= i < ROWS
      ensures !InTolerance(999999999, TMDS_CHAR_N_TABLE[i].rate)
    {
      RateBounds(i);
    }
    NValFallback(999999999, 3);
  }

  /** The first column at or after `from` holding `n`, or 7 when there is none. */
  function ColumnOf(ns: NRow, n: int, from: nat): (j: nat)
    requires from <= 7
    ensures from <= j <= 7
    ensures j < 7 ==> ns[j] == n
    ensures forall k :: from <= k < j ==> ns[k] != n
    decreases 7 - from
  {
    if from == 7 then 7
    else if ns[from] == n then from
    else ColumnOf(ns, n, from + 1)
  }

  /** The table search of `XHdmiC_TMDS_GetAudSampFreq` from row `from` on:
      the enumerant of the first column holding `n` in the first row whose
      window holds `rate` and has such a column, or 0 when no row does. */
  function RowFreq(rate: U32, n: int, from: nat): (f: nat)
    requires from <= ROWS
    ensures f <= 7
    decreases ROWS - from
  {
    if from == ROWS then 0
    else
      var c := ColumnOf(TMDS_CHAR_N_TABLE[from].n, n, 0);
      if InTolerance(rate, TMDS_CHAR_N_TABLE[from].rate) && c < 7 then c + 1
      else RowFreq(rate, n, from + 1)
  }

  const FS_TOLERANCE: nat := 1000

  /** The enumerant of the first standard rate whose +-1 kHz window holds
      `fs`, or `SAMPLING_FREQUENCY` when none does. */
  function Classify(fs: int): nat
  {
    if SAMPLING_FREQ_32K - FS_TOLERANCE <= fs <= SAMPLING_FREQ_32K + FS_TOLERANCE then 1
    else if SAMPLING_FREQ_44_1K - FS_TOLERANCE <= fs <= SAMPLING_FREQ_44_1K + FS_TOLERANCE then 2
    else if SAMPLING_FREQ_48K - FS_TOLERANCE <= fs <= SAMPLING_FREQ_48K + FS_TOLERANCE then 3
    else if SAMPLING_FREQ_88_2K - FS_TOLERANCE <= fs <= SAMPLING_FREQ_88_2K + FS_TOLERANCE then 4
    else if SAMPLING_FREQ_96K - FS_TOLERANCE <= fs <= SAMPLING_FREQ_96K + FS_TOLERANCE then 5
    else if SAMPLING_FREQ_176_4K - FS_TOLERANCE <= fs <= SAMPLING_FREQ_176_4K + FS_TOLERANCE then 6
    else if SAMPLING_FREQ_192K - FS_TOLERANCE <= fs <= SAMPLING_FREQ_192K + FS_TOLERANCE then 7
    else SAMPLING_FREQUENCY
  }

  /** The divisor `128 * CTSVal` as the source computes it, in 32-bit
      unsigned arithmetic. */
  function DivisorAsWritten(cts: U32): U32
  {
    Wrap32(128 * cts)
  }

  /** A nonzero CTS that is a multiple of 2^25 passes the source's zero test
      and then makes its divisor wrap to zero. */
  lemma DivisorAsWrittenVanishes()
    ensures var cts: U32 := 0x200_0000; cts != 0 && DivisorAsWritten(cts) == 0
  {
  }

  /** The divisor `128 * CTS` computed wide enough not to wrap: positive for
      every nonzero CTS, and equal to the source's value for every CTS below
      2^25, which includes every 20-bit CTS an ACR packet can carry. */
  function Divisor(cts: U32): (d: nat)
    requires cts != 0
    ensures d > 0
    ensures cts < 0x200_0000 ==> d == DivisorAsWritten(cts)
  {
    128 * cts
  }

  /** The sampling frequency `XHdmiC_TMDS_GetAudSampFreq` recovers (with the
      divisor computed without wrap-around): the table's answer when `n`
      sits in a row within tolerance, else `SAMPLING_FREQUENCY` for a zero
      CTS, else the standard rate within 1 kHz of `rate * n / (128 * cts)`. */
  function AudSampFreq(rate: U32, n: U32, cts: U32): (f: nat)
    ensures f <= 7
  {
    var k := RowFreq(rate, n, 0);
    if k != 0 then k
    else if cts == 0 then SAMPLING_FREQUENCY
    else Classify((rate * n) / Divisor(cts))
  }

  /** `XHdmiC_TMDS_GetAudSampFreq`, with `128 * CTSVal` computed without
      wrap-around. */
  method GetAudSampFreq(rate: U32, n: U32, cts: U32) returns (f: nat)
    ensures f == AudSampFreq(rate, n, cts)
    ensures cts < 0x200_0000 ==> AudSampFreqAsWritten(rate, n, cts) == Freq(f)
  {
    var i := 0;
    while i < ROWS
      invariant i <= ROWS
      invariant RowFreq(rate, n, i) == RowFreq(rate, n, 0)
    {
      var item := TMDS_CHAR_N_TABLE[i];
      if InTolerance(rate, item.rate) {
        var j := FindColumn(item.n, n);
        if j < 7 {
          return j + 1;
        }
      }
      i := i + 1;
    }
    if cts == 0 {
      return SAMPLING_FREQUENCY;
    }
    var fs := (rate * n) / Divisor(cts);
    return Classify(fs);
  }

  /** What the source's recomputation yields: an enumerant, or a division
      by zero (undefined behaviour in C). */
  datatype Recovered = Freq(f: nat) | DivideByZero

  /** `XHdmiC_TMDS_GetAudSampFreq` exactly as written, dividing by the
      32-bit product `128 * CTSVal`. It divides by zero exactly when no row
      answers and the CTS is a nonzero multiple of 2^25, and it agrees with
      `AudSampFreq` for every CTS below 2^25. */
  function AudSampFreqAsWritten(rate: U32, n: U32, cts: U32): (o: Recovered)
    ensures o.DivideByZero? <==> RowFreq(rate, n, 0) == 0 && cts != 0 && cts % 0x200_0000 == 0
    ensures cts < 0x200_0000 ==> o == Freq(AudSampFreq(rate, n, cts))
  {
    DivisorAsWrittenZero(cts);
    var k := RowFreq(rate, n, 0);
    if k != 0 then Freq(k)
    else if cts == 0 then Freq(SAMPLING_FREQUENCY)
    else if DivisorAsWritten(cts) == 0 then DivideByZero
    else Freq(Classify((rate * n) / DivisorAsWritten(cts)))
  }

  /** The 32-bit product `128 * cts` vanishes exactly for multiples of 2^25. */
  lemma DivisorAsWrittenZero(cts: U32)
    ensures DivisorAsWritten(cts) == 0 <==> cts % 0x200_0000 == 0
  {
    var q, m := cts / 0x200_0000, cts % 0x200_0000;
    assert cts == 0x200_0000 * q + m;
    assert 128 * cts == 0x1_0000_0000 * q + 128 * m;
    assert 0 <= 128 * m < 0x1_0000_0000;
    assert DivisorAsWritten(cts) == 128 * m;
  }

  /** Above 2^25 the source's divisor wraps: CTS 0x2000000 makes it divide
      by zero, and CTS 0x2000001 makes it divide by 128, so that rate 1000
      and N 6144 read as 48 kHz where the unwrapped divisor gives no rate. */
  lemma AsWrittenWraps()
    ensures AudSampFreqAsWritten(1000, 6144, 0x200_0000) == DivideByZero
    ensures AudSampFreqAsWritten(1000, 6144, 0x200_0001) == Freq(3)
    ensures AudSampFreq(1000, 6144, 0x200_0001) == SAMPLING_FREQUENCY
  {
    NoRowNear1kHz(6144);
    assert DivisorAsWritten(0x200_0001) == 128;
    assert Classify(1000 * 6144 / 128) == 3;
    assert 1000 * 6144 / Divisor(0x200_0001) == 0;
  }

  /** A 1 kHz rate lies in no row's window. */
  lemma NoRowNear1kHz(n: U32)
    ensures RowFreq(1000, n, 0) == 0
  {
    forall k | 0 <= k < ROWS
      ensures !InTolerance(1000, TMDS_CHAR_N_TABLE[k].rate)
    {
      if k == 0 {
        Row0NeverMatches(1000);
      } else {
        WindowOfRow(1000, k);
      }
    }
    RowFreqSkips(1000, n, 0, ROWS);
  }

  /** The inner loop of `XHdmiC_TMDS_GetAudSampFreq`: the first column of a
      row holding `n`, or 7. */
  method FindColumn(ns: NRow, n: U32) returns (j: nat)
    ensures j == ColumnOf(ns, n, 0)
  {
    j := 0;
    while j < 7
      invariant j <= 7
      invariant ColumnOf(ns, n, j) == ColumnOf(ns, n, 0)
    {
      if n == ns[j] {
        return;
      }
      j := j + 1;
    }
  }

  /** `Classify` picks the standard rate within 1 kHz when there is one (the
      windows do not overlap) and reports `SAMPLING_FREQUENCY` otherwise. */
  lemma ClassifyWindow(fs: int, freq: nat)
    requires 1 <= freq <= 7
    ensures Classify(fs) == freq <==>
      STANDARD_RATES[freq - 1] - FS_TOLERANCE <= fs <= STANDARD_RATES[freq - 1] + FS_TOLERANCE
    ensures Classify(fs) == SAMPLING_FREQUENCY <==>
      forall k :: 0 <= k < 7 ==> !(STANDARD_RATES[k] - FS_TOLERANCE <= fs <= STANDARD_RATES[k] + FS_TOLERANCE)
  {
    if Classify(fs) == SAMPLING_FREQUENCY {
      forall k | 0 <= k < 7
        ensures !(STANDARD_RATES[k] - FS_TOLERANCE <= fs <= STANDARD_RATES[k] + FS_TOLERANCE)
      {
        assert k in {0, 1, 2, 3, 4, 5, 6};
      }
    } else {
      var k := Classify(fs) - 1;
      assert STANDARD_RATES[k] - FS_TOLERANCE <= fs <= STANDARD_RATES[k] + FS_TOLERANCE;
    }
  }

  predicate Distinct(ns: NRow)
  {
    forall a, b :: 0 <= a < b < 7 ==> ns[a] != ns[b]
  }

  /** Every row lists seven distinct N values. */
  lemma RowDistinct(i: nat)
    requires i < ROWS
    ensures Distinct(TMDS_CHAR_N_TABLE[i].n)
  {
    var ns := TMDS_CHAR_N_TABLE[i].n;
    assert ns in {N_COMMON, N_92_8125_MHZ, N_297_MHZ, N_594_MHZ};
  }

  /** The four different rows of N values the table holds. */
  const N_COMMON: NRow := [4096, 6272, 6144, 12544, 12288, 25088, 24576]
  const N_92_8125_MHZ: NRow := [8192, 6272, 12288, 12544, 24576, 25088, 49152]
  const N_297_MHZ: NRow := [3072, 4704, 5120, 9408, 10240, 18816, 20480]
  const N_594_MHZ: NRow := [3072, 9408, 6144, 18816, 12288, 37632, 24576]

  /** In a row of distinct values the search for the value in column `j`
      stops at column `j`. */
  lemma ColumnOfDistinct(ns: NRow, j: nat)
    requires Distinct(ns) && j < 7
    ensures ColumnOf(ns, ns[j], 0) == j
  {
  }

  /** Rows whose windows miss `rate` do not change the search's answer. */
  lemma {:induction false} RowFreqSkips(rate: U32, n: int, from: nat, to: nat)
    requires from <= to <= ROWS
    requires forall k :: from <= k < to ==> !InTolerance(rate, TMDS_CHAR_N_TABLE[k].rate)
    ensures RowFreq(rate, n, from) == RowFreq(rate, n, to)
    decreases ROWS - from
  {
    if from < to {
      RowFreqSkips(rate, n, from + 1, to);
    }
  }

  /** Round trip: for a rate within 10 kHz of a nonzero table rate, the
      frequency recovered from the N that `GetNVal` chose is the one asked
      for, whatever the CTS. */
  lemma AudSampFreqOfNVal(rate: U32, i: nat, freq: nat, cts: U32)
    requires 1 <= i < ROWS
    requires TMDS_CHAR_N_TABLE[i].rate - 10000 <= rate <= TMDS_CHAR_N_TABLE[i].rate + 10000
    requires 1 <= freq <= 7
    ensures AudSampFreq(rate, NVal(rate, freq), cts) == freq
  {
    var row := TMDS_CHAR_N_TABLE[i];
    var n := row.n[freq - 1];
    NValInRow(rate, i, freq);
    MatchingRowIs(rate, i);
    RowFreqSkips(rate, n, 0, i);
    RowDistinct(i);
    ColumnOfDistinct(row.n, freq - 1);
    WindowOfRow(rate, i);
  }

  /** 297 MHz with N = 5120 is 48 kHz by the table. */
  lemma AudSampFreqFromTable()
    ensures AudSampFreq(297000000, 5120, 0) == 3
  {
    AudSampFreqOfNVal(297000000, 18, 3, 0);
    NValInRow(297000000, 18, 3);
  }

  /** 100 MHz lies in no row's window, so N = 6144 with CTS = 100000 is
      recomputed as 100000000 * 6144 / 12800000 = 48000 Hz: 48 kHz. */
  lemma AudSampFreqRecomputed()
    ensures AudSampFreq(100000000, 6144, 100000) == 3
  {
    NoRowNear100MHz(6144);
    assert Divisor(100000) == 12800000;
    assert 100000000 * 6144 / 12800000 == 48000;
  }

  /** 100 MHz lies in no row's window. */
  lemma NoRowNear100MHz(n: U32)
    ensures RowFreq(100000000, n, 0) == 0
  {
    forall k | 0 <= k < ROWS
      ensures !InTolerance(100000000, TMDS_CHAR_N_TABLE[k].rate)
    {
      if k == 0 {
        Row0NeverMatches(100000000);
      } else {
        WindowOfRow(100000000, k);
      }
    }
    RowFreqSkips(100000000, n, 0, ROWS);
  }
}
