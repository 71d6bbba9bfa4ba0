// The enumeration converters of xv_hdmic.c: between the sampling-frequency
// enumeration and sampling rates in Hz, from the video colour format to the
// AVI colour-space field, and from the AVI picture aspect ratio to the video
// aspect ratio.
module Converters {
  /** `XHdmiC_SamplingFrequency`: 0 is "not indicated", 1..7 are 32 kHz ..
      192 kHz in the order of the Audio InfoFrame's SF field. */
  const SAMPLING_FREQUENCY: nat := 0
  const SAMPLING_FREQUENCY_32K: nat := 1
  const SAMPLING_FREQUENCY_192K: nat := 7

  /** `XHdmiC_SamplingFrequencyVal`: a sampling rate in Hz; 0 is "no rate". */
  const SAMPLING_FREQ: nat := 0
  const SAMPLING_FREQ_32K: nat := 32000
  const SAMPLING_FREQ_44_1K: nat := 44100
  const SAMPLING_FREQ_48K: nat := 48000
  const SAMPLING_FREQ_88_2K: nat := 88200
  const SAMPLING_FREQ_96K: nat := 96000
  const SAMPLING_FREQ_176_4K: nat := 176400
  const SAMPLING_FREQ_192K: nat := 192000

  /** The seven standard rates, enumerant `f` at position `f - 1`. */
  const STANDARD_RATES: seq<nat> := [SAMPLING_FREQ_32K, SAMPLING_FREQ_44_1K, SAMPLING_FREQ_48K,
    SAMPLING_FREQ_88_2K, SAMPLING_FREQ_96K, SAMPLING_FREQ_176_4K, SAMPLING_FREQ_192K]

  /** `XHdmiC_GetAudIFSampFreq`: rate in Hz to enumerant; any other rate is
      `SAMPLING_FREQUENCY`. */
  function GetAudIFSampFreq(rate: int): (f: nat)
    ensures f <= 7
    ensures f != SAMPLING_FREQUENCY ==> STANDARD_RATES[f - 1] == rate
    ensures rate in STANDARD_RATES ==> f != SAMPLING_FREQUENCY
  {
    match rate
    case 32000 => 1
    case 44100 => 2
    case 48000 => 3
    case 88200 => 4
    case 96000 => 5
    case 176400 => 6
    case 192000 => 7
    case _ => SAMPLING_FREQUENCY
  }

  /** `XHdmiC_GetAudSampFreqVal`: enumerant to rate in Hz; any other
      enumerant gives 32 kHz. */
  function GetAudSampFreqVal(freq: int): (rate: nat)
    ensures rate in STANDARD_RATES
    ensures 1 <= freq <= 7 ==> rate == STANDARD_RATES[freq - 1]
    ensures !(1 <= freq <= 7) ==> rate == SAMPLING_FREQ_32K
  {
    match freq
    case 1 => SAMPLING_FREQ_32K
    case 2 => SAMPLING_FREQ_44_1K
    case 3 => SAMPLING_FREQ_48K
    case 4 => SAMPLING_FREQ_88_2K
    case 5 => SAMPLING_FREQ_96K
    case 6 => SAMPLING_FREQ_176_4K
    case 7 => SAMPLING_FREQ_192K
    case _ => SAMPLING_FREQ_32K
  }

  /** Enumerant to rate agrees with the standard list, and the rate converts
      back to the same enumerant. */
  lemma RateOfFreq(freq: int)
    requires 1 <= freq <= 7
    ensures GetAudSampFreqVal(freq) == STANDARD_RATES[freq - 1]
    ensures GetAudIFSampFreq(GetAudSampFreqVal(freq)) == freq
  {
  }

  /** A rate converts to a real enumerant exactly when it is standard, and
      then converts back to itself. */
  lemma FreqOfRate(rate: int)
    ensures GetAudIFSampFreq(rate) != SAMPLING_FREQUENCY <==> rate in STANDARD_RATES
    ensures rate in STANDARD_RATES ==>
      1 <= GetAudIFSampFreq(rate) <= 7 && GetAudSampFreqVal(GetAudIFSampFreq(rate)) == rate
  {
  }

  /** Every enumerant outside 1..7 reads as 32 kHz. */
  lemma UnknownFreqIs32k(freq: int)
    requires freq < 1 || freq > 7
    ensures GetAudSampFreqVal(freq) == SAMPLING_FREQ_32K
  {
  }

  /** `XVidC_ColorFormat`: the four formats HDMI carries, and the rest of the
      video library's formats as one value. */
  datatype ColorFormat = CsfRgb | CsfYCrCb444 | CsfYCrCb422 | CsfYCrCb420 | CsfOther

  /** `XHdmiC_Colorspace`, as the AVI InfoFrame's Y field codes it
      (CTA-861-G section 6.4): RGB 0, 4:2:2 1, 4:4:4 2, 4:2:0 3, reserved 4. */
  const COLORSPACE_RGB: bv8 := 0
  const COLORSPACE_YUV422: bv8 := 1
  const COLORSPACE_YUV444: bv8 := 2
  const COLORSPACE_YUV420: bv8 := 3
  const COLORSPACE_RESERVED: bv8 := 4

  /** `XV_HdmiC_XVidC_To_IfColorformat`. */
  function ToIfColorformat(format: ColorFormat): (c: bv8)
    ensures c < 8
    ensures c == COLORSPACE_RESERVED <==> format == CsfOther
  {
    match format
    case CsfRgb => COLORSPACE_RGB
    case CsfYCrCb422 => COLORSPACE_YUV422
    case CsfYCrCb444 => COLORSPACE_YUV444
    case CsfYCrCb420 => COLORSPACE_YUV420
    case CsfOther => COLORSPACE_RESERVED
  }

  /** The colour-space code fits the AVI InfoFrame's 3-bit field, distinct
      HDMI formats get distinct codes, and only formats HDMI cannot carry get
      the reserved code. */
  lemma ToIfColorformatFaithful(a: ColorFormat, b: ColorFormat)
    ensures ToIfColorformat(a) < 8
    ensures ToIfColorformat(a) == COLORSPACE_RESERVED <==> a == CsfOther
    ensures ToIfColorformat(a) == ToIfColorformat(b) ==> a == b
  {
  }

  /** `XVidC_AspectRatio`, the two ratios the converter produces. */
  datatype AspectRatio = Ar4x3 | Ar16x9

  /** `XHdmiC_PicAspectRatio`, the AVI InfoFrame's M field (CTA-861-G
      section 6.4): no data 0, 4:3 1, 16:9 2. */
  const PIC_ASPECT_RATIO_4_3: bv8 := 1
  const PIC_ASPECT_RATIO_16_9: bv8 := 2

  /** `XV_HdmiC_IFAspectRatio_To_XVidC`: anything but 4:3 reads as 16:9. */
  function IfAspectRatioToVidC(ar: bv8): (r: AspectRatio)
    ensures r == Ar4x3 <==> ar == PIC_ASPECT_RATIO_4_3
  {
    if ar == PIC_ASPECT_RATIO_4_3 then Ar4x3 else Ar16x9
  }

  /** Only the 4:3 code gives 4:3; 16:9, "no data" and the reserved code all
      give 16:9. */
  lemma AspectRatioDefault(ar: bv8)
    ensures IfAspectRatioToVidC(ar) == Ar4x3 <==> ar == PIC_ASPECT_RATIO_4_3
    ensures ar != PIC_ASPECT_RATIO_4_3 ==> IfAspectRatioToVidC(ar) == Ar16x9
  {
  }
}
