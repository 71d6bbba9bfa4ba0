// The self-contained helpers of the HDMI TX DRM driver: the HDCP password
// sysfs store, the sub-core address computation, the DRM pixel format to
// video format mapping, and the colour depth and AVI InfoFrame choices
// `xlnx_drm_hdmi_encoder_atomic_mode_set` makes once the timing is known.
module DrmHdmi {
  import opened Converters
  import DrmTiming
  import Avi

  const EINVAL: int := 22

  // ---------------------------------------------------------------------
  // Driver state
  // ---------------------------------------------------------------------

  /** `XVidC_ColorDepth`: bits per component, or not known. */
  datatype ColorDepth = Bpc(bits: nat) | BpcUnknown

  /** The size of `hdcp_password`. */
  const PASSWORD_SIZE: nat := 32

  const LF: bv8 := 0x0a
  const CR: bv8 := 0x0d

  /** The part of `struct xlnx_drm_hdmi` these helpers read and write. */
  class Hdmi {
    const hdcpPassword: array<bv8>
    var colorfmt: ColorFormat
    var colordepth: ColorDepth
    /** `HdmiTxSsPtr->Config.MaxBitsPerPixel`, from the device tree. */
    const maxBitsPerPixel: nat

    predicate Valid()
      reads this
    {
      hdcpPassword.Length == PASSWORD_SIZE
    }

    /** The zero-allocated driver state. */
    constructor (maxBitsPerPixel: nat)
      ensures Valid() && fresh(hdcpPassword)
      ensures hdcpPassword[..] == Zeros(PASSWORD_SIZE)
      ensures colorfmt == CsfRgb && colordepth == BpcUnknown
      ensures this.maxBitsPerPixel == maxBitsPerPixel
    {
      hdcpPassword := new bv8[PASSWORD_SIZE](_ => 0);
      colorfmt := CsfRgb;
      colordepth := BpcUnknown;
      this.maxBitsPerPixel := maxBitsPerPixel;
    }

    /** `hdcp_password_store`: `buf` holds the `count` bytes written to the
        sysfs file. Too long a write is refused and changes nothing; any
        other write stores the bytes before the first line end, zero-filled
        to the full array, and reports all `count` bytes consumed. */
    method PasswordStore(buf: seq<bv8>, count: nat) returns (r: int)
      requires Valid() && count <= |buf|
      modifies hdcpPassword
      ensures count > PASSWORD_SIZE ==> r == -EINVAL && hdcpPassword[..] == old(hdcpPassword[..])
      ensures count <= PASSWORD_SIZE ==> r == count && hdcpPassword[..] == PasswordOf(buf[..count])
    {
      if count > PASSWORD_SIZE {
        return -EINVAL;
      }
      ghost var line := Line(buf[..count]);
      var i := 0;
      while i < count && i < PASSWORD_SIZE
        invariant i <= |line|
        invariant hdcpPassword[..i] == line[..i]
      {
        if buf[i] == LF || buf[i] == CR {
          break;
        }
        assert buf[..count][i] == buf[i];
        hdcpPassword[i] := buf[i];
        i := i + 1;
        assert hdcpPassword[..i] == hdcpPassword[..i - 1] + [buf[i - 1]];
      }
      while i < PASSWORD_SIZE
        invariant |line| <= i <= PASSWORD_SIZE
        invariant hdcpPassword[..|line|] == line
        invariant forall k :: |line| <= k < i ==> hdcpPassword[k] == 0
      {
        hdcpPassword[i] := 0;
        i := i + 1;
      }
      assert forall k :: 0 <= k < PASSWORD_SIZE ==> hdcpPassword[k] == PasswordOf(buf[..count])[k];
      return count;
    }

    /** `hdmitx_find_media_bus`: returns the colour format for `fourcc` and
        records its depth. */
    method FindMediaBus(fourcc: Fourcc) returns (fmt: ColorFormat)
      modifies this
      ensures (fmt, colordepth) == MediaBus(fourcc)
      ensures colorfmt == old(colorfmt)
    {
      match fourcc
      case Xbgr8888 | Xrgb8888 | Bgr888 | Rgb888 | Argb8888 | Abgr8888 =>
        colordepth := Bpc(8);
        return CsfRgb;
      case Xbgr2101010 =>
        colordepth := Bpc(10);
        return CsfRgb;
      case Vuy888 | Xvuy8888 | Y8 =>
        colordepth := Bpc(8);
        return CsfYCrCb444;
      case Xvuy2101010 | Y10 =>
        colordepth := Bpc(10);
        return CsfYCrCb444;
      case Yuyv | Uyvy | Nv16 =>
        colordepth := Bpc(8);
        return CsfYCrCb422;
      case Xv20 =>
        colordepth := Bpc(10);
        return CsfYCrCb422;
      case Nv12 =>
        colordepth := Bpc(8);
        return CsfYCrCb420;
      case Xv15 =>
        colordepth := Bpc(10);
        return CsfYCrCb420;
      case Unlisted =>
        colordepth := BpcUnknown;
        return CsfRgb;
    }

    /** Lines 1330-1347 of the mode set: an unknown depth takes the core's
        maximum, then RGB and 4:4:4 UHD at 50 Hz or more is limited to
        8 bits per component. */
    method ResolveDepth(mode: DrmTiming.ModeLine)
      modifies this
      ensures colordepth == Bpc(ResolvedDepth(colorfmt, old(colordepth), maxBitsPerPixel, mode))
      ensures colorfmt == old(colorfmt)
    {
      if colordepth == BpcUnknown {
        colordepth := Bpc(maxBitsPerPixel);
      }
      match colorfmt
      case CsfRgb | CsfYCrCb444 =>
        if colordepth.bits > 8 && mode.hdisplay >= 3840 && mode.vdisplay >= 2160 && mode.vrefresh >= FR_50HZ {
          colordepth := Bpc(8);
        }
      case _ =>
    }

    /** The mode set's `find_media_bus` call followed by the depth check. */
    method SetColor(fourcc: Fourcc, mode: DrmTiming.ModeLine)
      modifies this
      ensures colorfmt == MediaBus(fourcc).0
      ensures colordepth == Bpc(ResolvedDepth(colorfmt, MediaBus(fourcc).1, maxBitsPerPixel, mode))
    {
      colorfmt := FindMediaBus(fourcc);
      ResolveDepth(mode);
    }
  }

  // ---------------------------------------------------------------------
  // HDCP password
  // ---------------------------------------------------------------------

  function Zeros(n: nat): (z: seq<bv8>)
    ensures |z| == n && forall k :: 0 <= k < n ==> z[k] == 0
  {
    seq(n, _ => 0)
  }

  /** The bytes of `s` before its first line feed or carriage return. */
  function Line(s: seq<bv8>): (p: seq<bv8>)
    ensures |p| <= |s| && p == s[..|p|]
    ensures forall k :: 0 <= k < |p| ==> p[k] != LF && p[k] != CR
    ensures |p| < |s| ==> s[|p|] == LF || s[|p|] == CR
  {
    if s == [] || s[0] == LF || s[0] == CR then [] else [s[0]] + Line(s[1..])
  }

  /** The password array a store of `s` leaves. */
  function PasswordOf(s: seq<bv8>): (pw: seq<bv8>)
    requires |s| <= PASSWORD_SIZE
    ensures |pw| == PASSWORD_SIZE
  {
    Line(s) + Zeros(PASSWORD_SIZE - |Line(s)|)
  }

  /** A password without line ends is the whole line, whatever follows its end. */
  lemma {:induction false} LineOfPlain(pw: seq<bv8>, tail: seq<bv8>)
    requires forall k :: 0 <= k < |pw| ==> pw[k] != LF && pw[k] != CR
    requires tail == [] || tail[0] == LF || tail[0] == CR
    ensures Line(pw + tail) == pw
  {
    if pw != [] {
      assert (pw + tail)[1..] == pw[1..] + tail;
      LineOfPlain(pw[1..], tail);
    } else {
      assert pw + tail == tail;
    }
  }

  /** Round trip: writing a password, with or without the trailing newline
      `echo` adds, stores exactly that password followed by zeros. */
  lemma PasswordRoundTrip(pw: seq<bv8>, tail: seq<bv8>)
    requires |pw| + |tail| <= PASSWORD_SIZE
    requires forall k :: 0 <= k < |pw| ==> pw[k] != LF && pw[k] != CR
    requires tail == [] || tail[0] == LF || tail[0] == CR
    ensures PasswordOf(pw + tail) == pw + Zeros(PASSWORD_SIZE - |pw|)
    ensures PasswordOf(pw + tail)[..|pw|] == pw
  {
    LineOfPlain(pw, tail);
  }

  /** What follows the first line end never reaches the password. */
  lemma PasswordIgnoresRest(a: seq<bv8>, b: seq<bv8>, tail: seq<bv8>)
    requires |a| + 1 + |b| <= PASSWORD_SIZE
    requires forall k :: 0 <= k < |a| ==> a[k] != LF && a[k] != CR
    ensures PasswordOf(a + [LF] + b) == PasswordOf(a)
  {
    LineOfPlain(a, [LF] + b);
    LineOfPlain(a, []);
    assert a + [LF] + b == a + ([LF] + b);
    assert a + [] == a;
  }

  // ---------------------------------------------------------------------
  // Sub-core addresses
  // ---------------------------------------------------------------------

  const XST_SUCCESS: int := 0
  const XST_FAILURE: int := 1

  /** A status and the address written to the output argument. */
  datatype AddrResult = AddrResult(status: int, absAddr: bv64)

  /** `xhdmi_drm_subcore_AbsAddr` on 64-bit `uintptr_t`: the offset is ORed
      into the base and accepted when it stays inside the subsystem. */
  function SubcoreAbsAddr(baseAddr: bv64, highAddr: bv64, offset: bv64): (r: AddrResult)
    ensures r.status == XST_SUCCESS || r.status == XST_FAILURE
    ensures r.absAddr == if r.status == XST_SUCCESS then baseAddr | offset else 0
  {
    var absAddr := baseAddr | offset;
    if absAddr >= baseAddr && absAddr <= highAddr then AddrResult(XST_SUCCESS, absAddr)
    else AddrResult(XST_FAILURE, 0)
  }

  /** The lower bound never fails: ORing only sets bits, so the result is
      never below the base. Success depends on the upper bound alone, and
      when the offset shares no bit with the base the OR is the sum. */
  lemma AbsAddrMeaning(baseAddr: bv64, highAddr: bv64, offset: bv64)
    ensures baseAddr | offset >= baseAddr
    ensures SubcoreAbsAddr(baseAddr, highAddr, offset).status == XST_SUCCESS <==> baseAddr | offset <= highAddr
    ensures baseAddr & offset == 0 ==> baseAddr | offset == baseAddr + offset
  {
  }

  /** A sub-core 64 KiB into a 1 MiB subsystem at 0xA000_0000 is found; one
      at 1 MiB lies outside it and gets address 0. */
  lemma AbsAddrExamples()
    ensures SubcoreAbsAddr(0xA000_0000, 0xA00F_FFFF, 0x1_0000) == AddrResult(XST_SUCCESS, 0xA001_0000)
    ensures SubcoreAbsAddr(0xA000_0000, 0xA00F_FFFF, 0x10_0000) == AddrResult(XST_FAILURE, 0)
  {
  }

  // ---------------------------------------------------------------------
  // Pixel formats
  // ---------------------------------------------------------------------

  /** The DRM fourcc codes the driver lists, and every other code. */
  datatype Fourcc =
    | Xbgr8888 | Xrgb8888 | Bgr888 | Rgb888 | Argb8888 | Abgr8888 | Xbgr2101010
    | Vuy888 | Xvuy8888 | Y8 | Xvuy2101010 | Y10
    | Yuyv | Uyvy | Nv16 | Xv20
    | Nv12 | Xv15
    | Unlisted

  /** The colour format and depth `hdmitx_find_media_bus` gives `fourcc`. */
  function MediaBus(fourcc: Fourcc): (r: (ColorFormat, ColorDepth))
    ensures r.1 == BpcUnknown <==> fourcc == Unlisted
    ensures r.1 != BpcUnknown ==> r.1 == Bpc(8) || r.1 == Bpc(10)
    ensures r.0 != CsfOther
  {
    match fourcc
    case Xbgr8888 | Xrgb8888 | Bgr888 | Rgb888 | Argb8888 | Abgr8888 => (CsfRgb, Bpc(8))
    case Xbgr2101010 => (CsfRgb, Bpc(10))
    case Vuy888 | Xvuy8888 | Y8 => (CsfYCrCb444, Bpc(8))
    case Xvuy2101010 | Y10 => (CsfYCrCb444, Bpc(10))
    case Yuyv | Uyvy | Nv16 => (CsfYCrCb422, Bpc(8))
    case Xv20 => (CsfYCrCb422, Bpc(10))
    case Nv12 => (CsfYCrCb420, Bpc(8))
    case Xv15 => (CsfYCrCb420, Bpc(10))
    case Unlisted => (CsfRgb, BpcUnknown)
  }

  /** The 10-bit formats are exactly the five with 10-bit components, and
      each chroma layout comes from its own formats: subsampled 4:2:2 from
      the packed and semi-planar 4:2:2 formats, 4:2:0 from NV12 and XV15,
      and RGB from the RGB formats or from an unknown code. */
  lemma MediaBusClasses(fourcc: Fourcc)
    ensures MediaBus(fourcc).1 == Bpc(10) <==>
      fourcc in {Xbgr2101010, Xvuy2101010, Y10, Xv20, Xv15}
    ensures MediaBus(fourcc).0 == CsfYCrCb422 <==> fourcc in {Yuyv, Uyvy, Nv16, Xv20}
    ensures MediaBus(fourcc).0 == CsfYCrCb420 <==> fourcc in {Nv12, Xv15}
    ensures MediaBus(fourcc).0 == CsfYCrCb444 <==> fourcc in {Vuy888, Xvuy8888, Y8, Xvuy2101010, Y10}
    ensures MediaBus(fourcc).0 == CsfRgb <==>
      fourcc in {Xbgr8888, Xrgb8888, Bgr888, Rgb888, Argb8888, Abgr8888, Xbgr2101010, Unlisted}
  {
  }

  // ---------------------------------------------------------------------
  // Colour depth and AVI InfoFrame of a mode
  // ---------------------------------------------------------------------

  /** `XVIDC_FR_50HZ`. */
  const FR_50HZ: int := 50

  /** A UHD mode at 50 Hz or more. */
  predicate UhdAt50(mode: DrmTiming.ModeLine)
  {
    mode.hdisplay >= 3840 && mode.vdisplay >= 2160 && mode.vrefresh >= FR_50HZ
  }

  /** The depth the mode set settles on for the format `fmt`. */
  function ResolvedDepth(fmt: ColorFormat, depth: ColorDepth, maxBitsPerPixel: nat,
                         mode: DrmTiming.ModeLine): (d: nat)
  {
    var known := if depth == BpcUnknown then maxBitsPerPixel else depth.bits;
    if (fmt == CsfRgb || fmt == CsfYCrCb444) && known > 8 && UhdAt50(mode) then 8 else known
  }

  /** The depth is never raised; RGB and 4:4:4 UHD at 50 Hz or more carries
      at most 8 bits per component; every other combination keeps the
      format's depth, or the core's maximum when the format gave none. */
  lemma ResolvedDepthMeaning(fmt: ColorFormat, depth: ColorDepth, maxBitsPerPixel: nat,
                             mode: DrmTiming.ModeLine)
    ensures var known := if depth == BpcUnknown then maxBitsPerPixel else depth.bits;
      var d := ResolvedDepth(fmt, depth, maxBitsPerPixel, mode);
      d <= known &&
      ((fmt == CsfRgb || fmt == CsfYCrCb444) && UhdAt50(mode) ==> d <= 8) &&
      (!((fmt == CsfRgb || fmt == CsfYCrCb444) && UhdAt50(mode)) ==> d == known) &&
      (known <= 8 ==> d == known)
  {
  }

  /** 2160p60: 10-bit RGB drops to 8 bits, 10-bit 4:2:0 keeps its 10, and
      at 30 Hz RGB keeps its 10. */
  lemma ResolvedDepthExamples()
    ensures ResolvedDepth(CsfRgb, Bpc(10), 12,
              DrmTiming.ModeLine(594000, 3840, 4016, 4104, 4400, 2160, 2168, 2178, 2250, 60, 0)) == 8
    ensures ResolvedDepth(CsfYCrCb420, Bpc(10), 12,
              DrmTiming.ModeLine(297000, 3840, 4016, 4104, 4400, 2160, 2168, 2178, 2250, 60, 0)) == 10
    ensures ResolvedDepth(CsfRgb, Bpc(10), 12,
              DrmTiming.ModeLine(297000, 3840, 4016, 4104, 4400, 2160, 2168, 2178, 2250, 30, 0)) == 10
    ensures ResolvedDepth(CsfRgb, BpcUnknown, 12,
              DrmTiming.ModeLine(148500, 1920, 2008, 2052, 2200, 1080, 1084, 1089, 1125, 60, 0)) == 12
  {
  }

  /** The video mode the timing matched, as far as the driver tells modes apart. */
  datatype VideoModeId = Vm1440x480i60 | Vm1440x576i50 | VmOther

  /** `XHDMIC_PIXEL_REPETITION_FACTOR_1` and `_2`, the AVI InfoFrame's PR
      codes for no repetition and for each pixel sent twice. */
  const PIXEL_REPETITION_FACTOR_1: bv8 := 0
  const PIXEL_REPETITION_FACTOR_2: bv8 := 1

  /** The pixel repetition the mode set writes for `vm`. */
  function PixelRepetition(vm: VideoModeId): (pr: bv8)
    ensures pr == PIXEL_REPETITION_FACTOR_2 <==> vm == Vm1440x480i60 || vm == Vm1440x576i50
    ensures pr == PIXEL_REPETITION_FACTOR_1 || pr == PIXEL_REPETITION_FACTOR_2
  {
    if vm == Vm1440x480i60 || vm == Vm1440x576i50 then PIXEL_REPETITION_FACTOR_2
    else PIXEL_REPETITION_FACTOR_1
  }

  /** The AVI InfoFrame the mode set leaves (lines 1294-1295 and 1355-1365): all
      fields cleared, then version 2, the colour space of `fmt`, the VIC the
      transmitter chose for the stream, and the pixel repetition of `vm`. */
  function AviForMode(fmt: ColorFormat, vic: bv8, vm: VideoModeId): Avi.AviInfoFrame
  {
    Avi.AviInfoFrame(
      version := 2, colorSpace := ToIfColorformat(fmt),
      activeFormatDataPresent := 0, barInfo := 0, scanInfo := 0, colorimetry := 0,
      picAspectRatio := 0, activeAspectRatio := 0, itc := 0, extendedColorimetry := 0,
      quantizationRange := 0, nonUniformPictureScaling := 0, vic := vic,
      yccQuantizationRange := 0, contentType := 0, pixelRepetition := PixelRepetition(vm),
      topBar := 0, bottomBar := 0, leftBar := 0, rightBar := 0)
  }

  /** The frame the mode set builds survives the packet generator and
      parser whenever its VIC is a 7-bit one, so a sink reads back the
      colour space and repetition the driver chose. */
  lemma AviForModeRoundTrip(fmt: ColorFormat, vic: bv8, vm: VideoModeId, dest: Avi.AviInfoFrame)
    requires vic < 128
    ensures var f := AviForMode(fmt, vic, vm);
      Avi.Parse(Avi.Record(f), dest) == f &&
      Avi.Parse(Avi.Record(f), dest).colorSpace == ToIfColorformat(fmt) &&
      Avi.Parse(Avi.Record(f), dest).pixelRepetition == PixelRepetition(vm)
  {
    ToIfColorformatFaithful(fmt, fmt);
    Avi.RoundTrip(AviForMode(fmt, vic, vm), dest);
  }
}
