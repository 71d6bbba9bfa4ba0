// Audio Clock Regeneration for FRL signalling (HDMI 2.1): `XHdmiC_FRL_GetNVal`,
// which picks N for an FRL character rate and a sampling rate, and
// `XHdmiC_FRL_GetAudSampFreq`, which recovers the sampling rate from the
// received CTS and N.
module AcrFrl {
  import opened Word
  import opened Converters

  /** `XHdmiC_FRLCharRate`: 166.667, 333.333, 444.444, 555.556 and 666.667
      MHz, for 3, 6, 8, 10 and 12 Gbit/s per lane. */
  const R_166_667: nat := 0
  const R_666_667: nat := 4
  const RATES: nat := 5

  type NRow = s: seq<U32> | |s| == 6 witness [0, 0, 0, 0, 0, 0]

  /** `XHdmiC_FRL_CTS_N_Val`: the CTS expected at one FRL rate and the N
      values for the base rate times 1, 2, 4, 8, 16 and 32. */
  datatype CtsN = CtsN(cts: U32, n: NRow)

  /** The five FRL rates of one base family. */
  type FamilyRows = s: seq<CtsN> | |s| == 5 witness seq(5, _ => CtsN(0, [0, 0, 0, 0, 0, 0]))

  type FrlTable = s: seq<FamilyRows> | |s| == 3
    witness seq(3, _ => seq(5, _ => CtsN(0, [0, 0, 0, 0, 0, 0])))

  /** `FRL_CTS_N_Table`: the 32 kHz, 44.1 kHz and 48 kHz families. */
  const FRL_CTS_N_TABLE: FrlTable := [
    [CtsN(171875, [4224, 8448, 16896, 33792, 67584, 135168]),
     CtsN(328125, [4032, 8064, 16128, 32256, 64512, 129024]),
     CtsN(437500, [4032, 8064, 16128, 32256, 64512, 129024]),
     CtsN(468750, [3456, 6912, 13824, 27648, 55296, 110592]),
     CtsN(500000, [3072, 6144, 12288, 24576, 49152, 98304])],
    [CtsN(156250, [5292, 10584, 21168, 42336, 84672, 169344]),
     CtsN(312500, [5292, 10584, 21168, 42336, 84672, 169344]),
     CtsN(312500, [3969, 7938, 15876, 31752, 63504, 127008]),
     CtsN(390625, [3969, 7938, 15876, 31752, 63504, 127008]),
     CtsN(468750, [3969, 7938, 15876, 31752, 63504, 127008])],
    [CtsN(156250, [5760, 11520, 23040, 46080, 92160, 184320]),
     CtsN(328125, [6048, 12096, 24192, 48384, 96768, 193536]),
     CtsN(437500, [6048, 12096, 24192, 48384, 96768, 193536]),
     CtsN(468750, [5184, 10368, 20736, 41472, 82944, 165888]),
     CtsN(515625, [4752, 9504, 19008, 38016, 76032, 152064])]]

  /** The base sampling rate of family `fam`. */
  function Base(fam: nat): nat
  {
    if fam == 0 then SAMPLING_FREQ_32K else if fam == 1 then SAMPLING_FREQ_44_1K else SAMPLING_FREQ_48K
  }

  function Pow2(k: nat): (p: nat)
    ensures p >= 1
  {
    if k == 0 then 1 else 2 * Pow2(k - 1)
  }

  /** The FRL rate `XHdmiC_FRL_GetNVal` uses: the enumerant cut to 8 bits,
      and anything above `R_666_667` read as `R_166_667`. */
  function ClampedRate(rateClass: nat): (r: nat)
    ensures r < RATES
    ensures rateClass < RATES ==> r == rateClass
    ensures rateClass % 256 > R_666_667 ==> r == R_166_667
    ensures rateClass % 256 <= R_666_667 ==> r == rateClass % 256
  {
    var r := rateClass % 256;
    if r > R_666_667 then R_166_667 else r
  }

  /** The family `XHdmiC_FRL_GetNVal` picks for `rate` Hz: 48 kHz if it
      divides the rate, else 44.1 kHz if that does, else 32 kHz. */
  function Family(rate: nat): (fam: nat)
    ensures fam < 3
    ensures fam != 0 ==> rate % Base(fam) == 0
    ensures rate % SAMPLING_FREQ_48K == 0 <==> fam == 2
    ensures fam == 0 ==> rate % SAMPLING_FREQ_44_1K != 0 && rate % SAMPLING_FREQ_48K != 0
  {
    if rate % SAMPLING_FREQ_48K == 0 then 2
    else if rate % SAMPLING_FREQ_44_1K == 0 then 1
    else 0
  }

  /** The multiple of the family's base rate, cut to 8 bits as the source's
      `u8` holds it; 0 when no base rate divides `rate`. */
  function Multiple(rate: nat): nat
  {
    if rate % SAMPLING_FREQ_48K == 0 then (rate / SAMPLING_FREQ_48K) % 256
    else if rate % SAMPLING_FREQ_44_1K == 0 then (rate / SAMPLING_FREQ_44_1K) % 256
    else if rate % SAMPLING_FREQ_32K == 0 then (rate / SAMPLING_FREQ_32K) % 256
    else 0
  }

  /** The column for a multiple: 1, 2, 4, 8, 16 and 32 map to 0..5 and
      anything else to column 0. */
  function Column(mult: nat): (c: nat)
    ensures c < 6
    ensures c != 0 ==> Pow2(c) == mult
  {
    match mult
    case 1 => 0
    case 2 => 1
    case 4 => 2
    case 8 => 3
    case 16 => 4
    case 32 => 5
    case _ => 0
  }

  /** `XHdmiC_FRL_GetNVal`: always one of the N values listed for the
      family and (clamped) FRL rate. */
  function GetNVal(rateClass: nat, rate: nat): (n: U32)
    ensures n in FRL_CTS_N_TABLE[Family(rate)][ClampedRate(rateClass)].n
  {
    FRL_CTS_N_TABLE[Family(rate)][ClampedRate(rateClass)].n[Column(Multiple(rate))]
  }

  /** The first column at or after `from` holding `n`, or 6 when there is none. */
  function ColumnOf(ns: NRow, n: int, from: nat): (j: nat)
    requires from <= 6
    ensures from <= j <= 6
    ensures j < 6 ==> ns[j] == n
    ensures forall k :: from <= k < j ==> ns[k] != n
    decreases 6 - from
  {
    if from == 6 then 6
    else if ns[from] == n then from
    else ColumnOf(ns, n, from + 1)
  }

  /** The CTS window of one table entry: strictly within 10000 of its CTS. */
  predicate InWindow(cts: U32, expected: U32)
  {
    cts < Wrap32(expected + 10000) && cts > Wrap32(expected - 10000)
  }

  /** What family `fam` contributes at FRL rate `r`: `Base(fam) << j` for
      the first column `j` holding `n` when `cts` is in the family's window,
      else 0 (no contribution). */
  function FamilyFreq(fam: nat, r: nat, cts: U32, n: U32): nat
    requires fam < 3 && r < RATES
  {
    var entry := FRL_CTS_N_TABLE[fam][r];
    var j := ColumnOf(entry.n, n, 0);
    if InWindow(cts, entry.cts) && j < 6 then Base(fam) * Pow2(j) else 0
  }

  /** The rate after the first `count` families: the last family that
      contributed wins, 0 (`SAMPLING_FREQ`) when none did. */
  function FreqAfter(count: nat, r: nat, cts: U32, n: U32): nat
    requires count <= 3 && r < RATES
  {
    if count == 0 then SAMPLING_FREQ
    else
      var g := FamilyFreq(count - 1, r, cts, n);
      if g != 0 then g else FreqAfter(count - 1, r, cts, n)
  }

  /** `XHdmiC_FRL_GetAudSampFreq`: the table is indexed by the FRL rate
      unchecked, so the rate must be one of the five. */
  method GetAudSampFreq(r: nat, cts: U32, n: U32) returns (freq: nat)
    requires r < RATES
    ensures freq == FreqAfter(3, r, cts, n)
  {
    freq := SAMPLING_FREQ;
    var fam := 0;
    while fam < 3
      invariant fam <= 3
      invariant freq == FreqAfter(fam, r, cts, n)
    {
      var entry := FRL_CTS_N_TABLE[fam][r];
      if InWindow(cts, entry.cts) {
        var j := 0;
        while j < 6
          invariant j <= 6
          invariant ColumnOf(entry.n, n, j) == ColumnOf(entry.n, n, 0)
        {
          if n == entry.n[j] {
            freq := Base(fam) * Pow2(j);
            break;
          }
          j := j + 1;
        }
      }
      fam := fam + 1;
    }
  }

  /** The rates the table serves: each base rate times 1, 2, 4, 8, 16 and 32. */
  function TableRate(fam: nat, k: nat): (rate: nat)
    requires fam < 3 && k < 6
    ensures rate == Base(fam) * Pow2(k)
  {
    Pow2Small(k);
    [[32000, 64000, 128000, 256000, 512000, 1024000],
     [44100, 88200, 176400, 352800, 705600, 1411200],
     [48000, 96000, 192000, 384000, 768000, 1536000]][fam][k]
  }

  /** `XHdmiC_FRL_GetNVal` sorts a table rate back into its family ... */
  lemma FamilyOfTableRate(fam: nat, k: nat)
    requires fam < 3 && k < 6
    ensures Family(TableRate(fam, k)) == fam
  {
  }

  /** ... and into its column. */
  lemma ColumnOfTableRate(fam: nat, k: nat)
    requires fam < 3 && k < 6
    ensures Column(Multiple(TableRate(fam, k))) == k
  {
    var rate := TableRate(fam, k);
    if k == 0 {
      assert rate == [32000, 44100, 48000][fam];
    } else if k == 1 {
      assert rate == [64000, 88200, 96000][fam];
    } else if k == 2 {
      assert rate == [128000, 176400, 192000][fam];
    } else if k == 3 {
      assert rate == [256000, 352800, 384000][fam];
    } else if k == 4 {
      assert rate == [512000, 705600, 768000][fam];
    } else {
      assert rate == [1024000, 1411200, 1536000][fam];
    }
  }

  lemma Pow2Small(k: nat)
    requires k < 6
    ensures Pow2(k) == [1, 2, 4, 8, 16, 32][k]
  {
    if k > 0 {
      Pow2Small(k - 1);
    }
  }

  /** `XHdmiC_FRL_GetNVal` on a table rate and a valid FRL rate returns the
      table's N for that family, rate and multiple. */
  lemma NValOfTableRate(r: nat, fam: nat, k: nat)
    requires r < RATES && fam < 3 && k < 6
    ensures GetNVal(r, TableRate(fam, k)) == FRL_CTS_N_TABLE[fam][r].n[k]
  {
    FamilyOfTableRate(fam, k);
    ColumnOfTableRate(fam, k);
  }

  /** N at 6 Gbit/s: 6048 for 48 kHz and 24192 for 192 kHz; an FRL rate
      above 12 Gbit/s reads as 3 Gbit/s; 22050 Hz, divisible by no base
      rate, takes column 0 of the 32 kHz family. */
  lemma NValExamples()
    ensures GetNVal(1, 48000) == 6048
    ensures GetNVal(1, 192000) == 24192
    ensures GetNVal(7, 48000) == GetNVal(R_166_667, 48000) == 5760
    ensures GetNVal(2, 22050) == 4032
  {
  }

  /** A family contributes exactly when the CTS is strictly inside its
      window and its entry holds `n`, and then contributes its base rate
      shifted by the first column holding `n`. */
  lemma FamilyFreqMeaning(fam: nat, r: nat, cts: U32, n: U32)
    requires fam < 3 && r < RATES
    ensures var entry := FRL_CTS_N_TABLE[fam][r];
      FamilyFreq(fam, r, cts, n) != 0 <==>
        entry.cts - 10000 < cts < entry.cts + 10000 && n in entry.n
    ensures var entry := FRL_CTS_N_TABLE[fam][r];
      FamilyFreq(fam, r, cts, n) != 0 ==>
        exists j :: 0 <= j < 6 && entry.n[j] == n && FamilyFreq(fam, r, cts, n) == Base(fam) * Pow2(j)
  {
    var entry := FRL_CTS_N_TABLE[fam][r];
    var j := ColumnOf(entry.n, n, 0);
    assert 156250 <= entry.cts <= 515625 by { CtsRange(fam, r); }
    if n in entry.n {
      var i :| 0 <= i < 6 && entry.n[i] == n;
      assert j <= i;
    }
  }

  lemma CtsRange(fam: nat, r: nat)
    requires fam < 3 && r < RATES
    ensures 156250 <= FRL_CTS_N_TABLE[fam][r].cts <= 515625
  {
  }

  /** The later family wins: `GetAudSampFreq` returns the contribution of
      the last family that contributed, and `SAMPLING_FREQ` when none did. */
  lemma {:induction false} LastContributionWins(count: nat, r: nat, cts: U32, n: U32)
    requires count <= 3 && r < RATES
    ensures FreqAfter(count, r, cts, n) == SAMPLING_FREQ <==>
      forall fam :: 0 <= fam < count ==> FamilyFreq(fam, r, cts, n) == 0
    ensures FreqAfter(count, r, cts, n) != SAMPLING_FREQ ==>
      exists fam :: 0 <= fam < count && FreqAfter(count, r, cts, n) == FamilyFreq(fam, r, cts, n) &&
        forall later :: fam < later < count ==> FamilyFreq(later, r, cts, n) == 0
  {
    if count > 0 {
      LastContributionWins(count - 1, r, cts, n);
      if FamilyFreq(count - 1, r, cts, n) != 0 {
        assert FreqAfter(count, r, cts, n) == FamilyFreq(count - 1, r, cts, n);
      }
    }
  }

  /** The round trip at every FRL rate: the N that `XHdmiC_FRL_GetNVal`
      picks for a table rate, received with the CTS the table lists for that
      family and FRL rate, brings back that sampling rate. No other family
      both holds the CTS in its window and lists that N. */
  lemma FrlRoundTrip(r: nat, fam: nat, k: nat)
    requires r < RATES && fam < 3 && k < 6
    ensures FreqAfter(3, r, FRL_CTS_N_TABLE[fam][r].cts, GetNVal(r, TableRate(fam, k))) == TableRate(fam, k)
  {
    NValOfTableRate(r, fam, k);
    var cts, n := FRL_CTS_N_TABLE[fam][r].cts, FRL_CTS_N_TABLE[fam][r].n[k];
    forall f | f < 3 && f != fam
      ensures FamilyFreq(f, r, cts, n) == 0
    {
      OtherFamilySilent(r, f, fam, k);
    }
    OwnFamilyAnswers(r, fam, k);
    OnlyContribution(r, cts, n, fam);
  }

  /** When exactly one family contributes, its contribution is the result. */
  lemma OnlyContribution(r: nat, cts: U32, n: U32, fam: nat)
    requires r < RATES && fam < 3
    requires FamilyFreq(fam, r, cts, n) != 0
    requires forall f :: 0 <= f < 3 && f != fam ==> FamilyFreq(f, r, cts, n) == 0
    ensures FreqAfter(3, r, cts, n) == FamilyFreq(fam, r, cts, n)
  {
    assert FreqAfter(1, r, cts, n) == FamilyFreq(0, r, cts, n);
  }

  /** The entry a table rate's N comes from answers with that rate: its N
      values increase along the row, so the first column holding N is its own. */
  lemma OwnFamilyAnswers(r: nat, fam: nat, k: nat)
    requires r < RATES && fam < 3 && k < 6
    ensures var entry := FRL_CTS_N_TABLE[fam][r];
      FamilyFreq(fam, r, entry.cts, entry.n[k]) == TableRate(fam, k)
  {
    var entry := FRL_CTS_N_TABLE[fam][r];
    RowIncreasing(fam, r);
    var j := ColumnOf(entry.n, entry.n[k], 0);
    assert j == k;
    assert InWindow(entry.cts, entry.cts) by { CtsRange(fam, r); }
  }

  lemma RowIncreasing(fam: nat, r: nat)
    requires fam < 3 && r < RATES
    ensures var ns := FRL_CTS_N_TABLE[fam][r].n;
      forall i, j :: 0 <= i < j < 6 ==> ns[i] < ns[j]
  {
    var ns := FRL_CTS_N_TABLE[fam][r].n;
    assert ns[0] < ns[1] < ns[2] < ns[3] < ns[4] < ns[5];
  }

  /** At one FRL rate, the other families either do not hold a family's CTS
      in their window or list none of its N values. */
  lemma OtherFamilySilent(r: nat, f: nat, fam: nat, k: nat)
    requires r < RATES && f < 3 && fam < 3 && f != fam && k < 6
    ensures var entry := FRL_CTS_N_TABLE[fam][r];
      FamilyFreq(f, r, entry.cts, entry.n[k]) == 0
  {
    var entry := FRL_CTS_N_TABLE[fam][r];
    FamilyFreqMeaning(f, r, entry.cts, entry.n[k]);
    var other := FRL_CTS_N_TABLE[f][r];
    if other.cts - 10000 < entry.cts < other.cts + 10000 {
      SharedWindow(r, f, fam);
      RowsDisjoint(r, f, fam);
      assert entry.n[k] !in other.n;
    }
  }

  /** Two families whose CTS windows overlap at one FRL rate expect the
      same CTS, and happen only at 3 and 6 to 12 Gbit/s. */
  lemma SharedWindow(r: nat, f: nat, g: nat)
    requires r < RATES && f < 3 && g < 3 && f != g
    requires var a, b := FRL_CTS_N_TABLE[f][r].cts, FRL_CTS_N_TABLE[g][r].cts; a - 10000 < b < a + 10000
    ensures FRL_CTS_N_TABLE[f][r].cts == FRL_CTS_N_TABLE[g][r].cts
    ensures (r == 0 && f + g == 3) || (1 <= r <= 3 && f + g == 2)
  {
  }

  /** The N rows of families that share a CTS have no value in common. */
  lemma RowsDisjoint(r: nat, f: nat, g: nat)
    requires (r == 0 && f + g == 3 && f != g && f < 3 && g < 3) || (1 <= r <= 3 && f + g == 2 && f != g)
    ensures forall i, j :: 0 <= i < 6 && 0 <= j < 6 ==> FRL_CTS_N_TABLE[f][r].n[i] != FRL_CTS_N_TABLE[g][r].n[j]
  {
  }

  /** A round trip at 6 Gbit/s: the N chosen for 48 kHz brings back 48 kHz. */
  lemma RoundTrip48k()
    ensures FreqAfter(3, 1, 328125, GetNVal(1, 48000)) == 48000
  {
    assert GetNVal(1, 48000) == 6048;
    assert ColumnOf(FRL_CTS_N_TABLE[0][1].n, 6048, 0) == 6;
    assert ColumnOf(FRL_CTS_N_TABLE[1][1].n, 6048, 0) == 6;
    assert ColumnOf(FRL_CTS_N_TABLE[2][1].n, 6048, 0) == 0;
  }

  /** A round trip at 10 Gbit/s, where the 32 kHz and 48 kHz families both
      expect CTS 468750: 96 kHz is still recovered because only the 48 kHz
      family lists its N. */
  lemma RoundTrip96k()
    ensures FreqAfter(3, 3, 468750, GetNVal(3, 96000)) == 96000
  {
    assert GetNVal(3, 96000) == 10368;
    assert ColumnOf(FRL_CTS_N_TABLE[0][3].n, 10368, 0) == 6;
    assert ColumnOf(FRL_CTS_N_TABLE[2][3].n, 10368, 0) == 1;
    assert !InWindow(468750, FRL_CTS_N_TABLE[1][3].cts);
    assert Base(2) * Pow2(1) == 96000;
  }
}
