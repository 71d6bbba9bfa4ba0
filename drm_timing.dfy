// The DRM encoder's view of a display mode: the adjustment and clock check of
// `xlnx_drm_hdmi_connector_mode_valid`, and the video timing that
// `xlnx_drm_hdmi_encoder_atomic_mode_set` derives from the mode's sync and
// porch positions.
module DrmTiming {
  import opened Word

  /** `DRM_MODE_FLAG_*` bits of `drm_display_mode.flags` (Linux UAPI `drm_mode.h`). */
  const FLAG_PHSYNC: bv32 := 0x1
  const FLAG_PVSYNC: bv32 := 0x4
  const FLAG_INTERLACE: bv32 := 0x10
  const FLAG_DBLCLK: bv32 := 0x1000

  /** The fields of `struct drm_display_mode` the driver reads: C `int`s, and
      the flag word. `clock` is in kHz; the vertical positions of an interlaced
      mode count the lines of the whole frame. */
  datatype ModeLine = ModeLine(
    clock: int,
    hdisplay: int, hsyncStart: int, hsyncEnd: int, htotal: int,
    vdisplay: int, vsyncStart: int, vsyncEnd: int, vtotal: int,
    vrefresh: int,
    flags: bv32)

  predicate Interlaced(m: ModeLine) { m.flags & FLAG_INTERLACE != 0 }

  predicate DoubleClocked(m: ModeLine) { m.flags & FLAG_DBLCLK != 0 }

  /** C's `x / 2` on an `int`: the quotient is truncated toward zero. */
  function Half(x: int): (h: int)
    ensures x >= 0 ==> 0 <= x - 2 * h <= 1
    ensures x < 0 ==> -1 <= x - 2 * h <= 0
  {
    if x >= 0 then x / 2 else -((-x) / 2)
  }

  // ---------------------------------------------------------------------
  // Mode check
  // ---------------------------------------------------------------------

  /** A `drm_display_mode` the driver adjusts in place. */
  class Mode {
    var clock: int
    var hdisplay: int
    var hsyncStart: int
    var hsyncEnd: int
    var htotal: int
    var vdisplay: int
    var vsyncStart: int
    var vsyncEnd: int
    var vtotal: int
    var vrefresh: int
    var flags: bv32

    function Line(): ModeLine
      reads this
    {
      ModeLine(clock, hdisplay, hsyncStart, hsyncEnd, htotal,
               vdisplay, vsyncStart, vsyncEnd, vtotal, vrefresh, flags)
    }

    constructor (m: ModeLine)
      ensures Line() == m
    {
      clock, hdisplay, hsyncStart, hsyncEnd, htotal := m.clock, m.hdisplay, m.hsyncStart, m.hsyncEnd, m.htotal;
      vdisplay, vsyncStart, vsyncEnd, vtotal := m.vdisplay, m.vsyncStart, m.vsyncEnd, m.vtotal;
      vrefresh, flags := m.vrefresh, m.flags;
    }
  }

  /** `enum drm_mode_status`, the two values the check returns. */
  datatype ModeStatus = ModeOk | ModeClockHigh

  /** Highest pixel clock, in kHz, for an HDMI 1.4 sink and for an HDMI 2.0 sink. */
  const MAX_RATE_HDMI14: int := 340 * 1000
  const MAX_RATE_HDMI20: int := 600 * 1000

  /** The mode as `mode_valid` leaves it: an interlaced mode's `vdisplay`
      counts the lines of one field, a double-clocked interlaced mode gets
      twice the pixel clock, and for such a mode with no refresh rate the
      rate of the NTSC (240 lines) or PAL (288 lines) field is filled in. */
  function Validated(m: ModeLine): (a: ModeLine)
  {
    var vdisplay := if Interlaced(m) then Half(m.vdisplay) else m.vdisplay;
    if DoubleClocked(m) && Interlaced(m) then
      var vrefresh :=
        if m.vrefresh == 0 && vdisplay == 240 then 60
        else if m.vrefresh == 0 && vdisplay == 288 then 50
        else m.vrefresh;
      m.(vdisplay := vdisplay, clock := 2 * m.clock, vrefresh := vrefresh)
    else
      m.(vdisplay := vdisplay)
  }

  /** The verdict on a pixel clock: too high exactly when it exceeds what the
      sink takes. */
  function StatusOf(clock: int, isHdmi20Sink: bool): (s: ModeStatus)
    ensures s == ModeClockHigh <==> clock > (if isHdmi20Sink then MAX_RATE_HDMI20 else MAX_RATE_HDMI14)
  {
    if clock > (if isHdmi20Sink then MAX_RATE_HDMI20 else MAX_RATE_HDMI14) then ModeClockHigh else ModeOk
  }

  /** `xlnx_drm_hdmi_connector_mode_valid`: adjusts `mode` in place, then
      judges its (possibly doubled) clock. */
  method ModeValid(mode: Mode, isHdmi20Sink: bool) returns (status: ModeStatus)
    modifies mode
    ensures mode.Line() == Validated(old(mode.Line()))
    ensures status == StatusOf(mode.clock, isHdmi20Sink)
  {
    if mode.flags & FLAG_INTERLACE != 0 {
      mode.vdisplay := Half(mode.vdisplay);
    }
    if mode.flags & FLAG_DBLCLK != 0 && mode.flags & FLAG_INTERLACE != 0 {
      mode.clock := mode.clock * 2;
      if mode.vrefresh == 0 {
        if mode.vdisplay == 240 {
          mode.vrefresh := 60;
        } else if mode.vdisplay == 288 {
          mode.vrefresh := 50;
        }
      }
    }
    var maxRate := MAX_RATE_HDMI14;
    if isHdmi20Sink {
      maxRate := MAX_RATE_HDMI20;
    }
    status := ModeOk;
    if mode.clock > maxRate {
      status := ModeClockHigh;
    }
  }

  /** What `mode_valid` changes and what it keeps. */
  lemma ValidatedFields(m: ModeLine)
    ensures Interlaced(m) ==> Validated(m).vdisplay == Half(m.vdisplay)
    // The bound a caller uses: halving loses at most the odd line.
    ensures Interlaced(m) ==> 0 <= m.vdisplay - 2 * Validated(m).vdisplay <= 1 || -1 <= m.vdisplay - 2 * Validated(m).vdisplay <= 0
    ensures !Interlaced(m) ==> Validated(m) == m
    ensures Validated(m).clock == (if Interlaced(m) && DoubleClocked(m) then 2 * m.clock else m.clock)
    ensures Validated(m).vrefresh != m.vrefresh ==> m.vrefresh == 0 && Interlaced(m) && DoubleClocked(m)
    ensures Validated(m).(vdisplay := m.vdisplay, clock := m.clock, vrefresh := m.vrefresh) == m
  {
  }

  /** The sink's HDMI version only ever admits more modes. */
  lemma Hdmi20AcceptsMore(clock: int)
    ensures StatusOf(clock, false) == ModeOk ==> StatusOf(clock, true) == ModeOk
    ensures clock <= MAX_RATE_HDMI14 ==> StatusOf(clock, false) == ModeOk
  {
  }

  /** 2160p60 at 594 MHz needs an HDMI 2.0 sink. */
  lemma UhdNeedsHdmi20()
    ensures StatusOf(594000, false) == ModeClockHigh
    ensures StatusOf(594000, true) == ModeOk
  {
  }

  // ---------------------------------------------------------------------
  // Timing derivation
  // ---------------------------------------------------------------------

  /** `XVidC_VideoTiming`: every count is a `u16`; each polarity is stored
      as 0 or 1 and held here as a `bool`. Progressive timing lives in the
      field 0 members; the field 1 members matter only for interlaced video. */
  datatype VideoTiming = VideoTiming(
    hActive: U16, hFrontPorch: U16, hSyncWidth: U16, hBackPorch: U16, hTotal: U16,
    hSyncPolarity: bool,
    vActive: U16,
    f0PVFrontPorch: U16, f0PVSyncWidth: U16, f0PVBackPorch: U16, f0PVTotal: U16,
    f1VFrontPorch: U16, f1VSyncWidth: U16, f1VBackPorch: U16, f1VTotal: U16,
    vSyncPolarity: bool)

  /** The NTSC and PAL modes whose horizontal timing the driver doubles. */
  predicate SdDoubled(m: ModeLine)
  {
    ((m.hdisplay == 720 && m.vdisplay == 240 && m.vrefresh == 60) ||
     (m.hdisplay == 720 && m.vdisplay == 288 && m.vrefresh == 50)) &&
    Interlaced(m) && DoubleClocked(m)
  }

  /** A horizontal count as stored: truncated to `u16`, then doubled in
      `u16` for the NTSC and PAL modes. */
  function HCount(doubled: bool, x: int): (c: U16)
    ensures c == (if doubled then Wrap16(2 * x) else Wrap16(x))
  {
    if doubled then
      DoubleWrap(x);
      Wrap16(2 * Wrap16(x))
    else Wrap16(x)
  }

  /** The horizontal members (lines 1240-1258). */
  function Horizontal(m: ModeLine, vt: VideoTiming): VideoTiming
  {
    var doubled := SdDoubled(m);
    vt.(hActive := HCount(doubled, m.hdisplay),
        hFrontPorch := HCount(doubled, m.hsyncStart - m.hdisplay),
        hSyncWidth := HCount(doubled, m.hsyncEnd - m.hsyncStart),
        hBackPorch := HCount(doubled, m.htotal - m.hsyncEnd),
        hTotal := HCount(doubled, m.htotal),
        hSyncPolarity := m.flags & FLAG_PHSYNC != 0)
  }

  /** The horizontal parts add up to the total in `u16` arithmetic, doubled
      or not, and the sync polarity is the PHSYNC flag. */
  lemma HorizontalSum(m: ModeLine, vt: VideoTiming)
    ensures var r := Horizontal(m, vt);
      Wrap16(r.hActive + r.hFrontPorch + r.hSyncWidth + r.hBackPorch) == r.hTotal
    ensures Horizontal(m, vt).hSyncPolarity <==> m.flags & FLAG_PHSYNC != 0
  {
    CountsAddUp(SdDoubled(m), m.hdisplay, m.hsyncStart, m.hsyncEnd, m.htotal);
  }

  /** The counts between the positions `a`, `b`, `c` and `t` add up to the
      count of `t`, doubled or not. */
  lemma CountsAddUp(doubled: bool, a: int, b: int, c: int, t: int)
    ensures Wrap16(HCount(doubled, a) + HCount(doubled, b - a) + HCount(doubled, c - b) + HCount(doubled, t - c)) == HCount(doubled, t)
  {
    if doubled {
      WrapParts(2 * a, 2 * (b - a), 2 * (c - b), 2 * (t - c), 2 * t);
    } else {
      WrapParts(a, b - a, c - b, t - c, t);
    }
  }

  /** Field 0 of a progressive mode (lines 1260-1265): the porches are the
      gaps between the positions, and the parts add up to the total. */
  function Progressive(m: ModeLine, vt: VideoTiming): (r: VideoTiming)
    ensures Wrap16(r.vActive + r.f0PVFrontPorch + r.f0PVSyncWidth + r.f0PVBackPorch) == r.f0PVTotal
  {
    WrapSum(m.vdisplay, m.vsyncStart - m.vdisplay, m.vsyncEnd - m.vsyncStart, m.vtotal - m.vsyncEnd);
    vt.(vActive := Wrap16(m.vdisplay),
        f0PVFrontPorch := Wrap16(m.vsyncStart - m.vdisplay),
        f0PVSyncWidth := Wrap16(m.vsyncEnd - m.vsyncStart),
        f0PVBackPorch := Wrap16(m.vtotal - m.vsyncEnd),
        f0PVTotal := Wrap16(m.vtotal))
  }

  /** The field 1 front porch of an interlaced mode (lines 1279-1282). */
  function F1FrontPorch(m: ModeLine): U16
  {
    if (m.vtotal - m.vsyncEnd) % 2 != 0 then Wrap16(1 + Half(m.vsyncStart - m.vdisplay * 2))
    else Wrap16(Half(m.vsyncStart - m.vdisplay * 2))
  }

  /** Both fields of an interlaced mode (lines 1267-1286): field 0, then
      field 1. */
  function Interlace(m: ModeLine, vt: VideoTiming): VideoTiming
  {
    Field1(m, HalvedField0(m, vt))
  }

  /** Field 0 of an interlaced mode (lines 1267-1275): half of each porch and
      of the sync width, and a total summed from the untruncated `vdisplay`,
      so that the stored parts add up to it. */
  function HalvedField0(m: ModeLine, vt: VideoTiming): (r: VideoTiming)
    ensures Wrap16(r.vActive + r.f0PVFrontPorch + r.f0PVSyncWidth + r.f0PVBackPorch) == r.f0PVTotal
  {
    var frontPorch := Wrap16(Half(m.vsyncStart - m.vdisplay * 2));
    var syncWidth := Wrap16(Half(m.vsyncEnd - m.vsyncStart));
    var backPorch := Wrap16(Half(m.vtotal - m.vsyncEnd));
    WrapShift(m.vdisplay, frontPorch + syncWidth + backPorch);
    vt.(vActive := Wrap16(m.vdisplay),
        f0PVFrontPorch := frontPorch, f0PVSyncWidth := syncWidth, f0PVBackPorch := backPorch,
        f0PVTotal := Wrap16(m.vdisplay + frontPorch + syncWidth + backPorch))
  }

  /** Field 1 of an interlaced mode (lines 1277-1286): field 0's sync width
      and back porch, the front porch of `F1FrontPorch`, and a total whose
      stored parts add up to it with the stored `vdisplay`. */
  function Field1(m: ModeLine, vt: VideoTiming): (r: VideoTiming)
    ensures Wrap16(Wrap16(m.vdisplay) + r.f1VFrontPorch + r.f1VSyncWidth + r.f1VBackPorch) == r.f1VTotal
  {
    var frontPorch := F1FrontPorch(m);
    var syncWidth := Wrap16(Half(m.vsyncEnd - m.vsyncStart));
    var backPorch := Wrap16(Half(m.vtotal - m.vsyncEnd));
    WrapShift(m.vdisplay, frontPorch + syncWidth + backPorch);
    vt.(f1VFrontPorch := frontPorch, f1VSyncWidth := syncWidth, f1VBackPorch := backPorch,
        f1VTotal := Wrap16(m.vdisplay + frontPorch + syncWidth + backPorch))
  }

  /** The two fields share sync width and back porch; field 1 takes the odd
      line of the back porch in its front porch. */
  lemma InterlaceFieldsDiffer(m: ModeLine, vt: VideoTiming)
    ensures var r := Interlace(m, vt);
      r.f1VSyncWidth == r.f0PVSyncWidth && r.f1VBackPorch == r.f0PVBackPorch &&
      r.f1VFrontPorch == Wrap16(r.f0PVFrontPorch + (m.vtotal - m.vsyncEnd) % 2)
  {
    WrapShift(Half(m.vsyncStart - m.vdisplay * 2), 1);
  }

  /** The timing the encoder derives from `m` (lines 1240-1288). `vt0` is
      what the uninitialised local held before: a progressive mode leaves its
      field 1 members as they were. */
  function TimingOf(m: ModeLine, vt0: VideoTiming): VideoTiming
  {
    var h := Horizontal(m, vt0);
    var v := if Interlaced(m) then Interlace(m, Progressive(m, h)) else Progressive(m, h);
    v.(vSyncPolarity := m.flags & FLAG_PVSYNC != 0)
  }

  /** What the derived timing promises for every mode, in the `u16`
      arithmetic it is stored in: the horizontal parts and field 0's parts
      add up to their totals, and the polarities follow the flags. */
  lemma TimingConsistent(m: ModeLine, vt0: VideoTiming)
    ensures var vt := TimingOf(m, vt0);
      Wrap16(vt.hActive + vt.hFrontPorch + vt.hSyncWidth + vt.hBackPorch) == vt.hTotal &&
      (vt.hSyncPolarity <==> m.flags & FLAG_PHSYNC != 0) &&
      (vt.vSyncPolarity <==> m.flags & FLAG_PVSYNC != 0) &&
      Wrap16(vt.vActive + vt.f0PVFrontPorch + vt.f0PVSyncWidth + vt.f0PVBackPorch) == vt.f0PVTotal
  {
    HorizontalSum(m, vt0);
  }

  /** Field 1 of the derived timing: for an interlaced mode its parts add up
      to its total and it differs from field 0 only in the odd line; a
      progressive mode leaves it as it was. */
  lemma Field1Consistent(m: ModeLine, vt0: VideoTiming)
    ensures var vt := TimingOf(m, vt0);
      Interlaced(m) ==>
        Wrap16(vt.vActive + vt.f1VFrontPorch + vt.f1VSyncWidth + vt.f1VBackPorch) == vt.f1VTotal &&
        vt.f1VSyncWidth == vt.f0PVSyncWidth && vt.f1VBackPorch == vt.f0PVBackPorch &&
        vt.f1VFrontPorch == Wrap16(vt.f0PVFrontPorch + (m.vtotal - m.vsyncEnd) % 2)
    ensures var vt := TimingOf(m, vt0);
      !Interlaced(m) ==>
        vt.f1VFrontPorch == vt0.f1VFrontPorch && vt.f1VSyncWidth == vt0.f1VSyncWidth &&
        vt.f1VBackPorch == vt0.f1VBackPorch && vt.f1VTotal == vt0.f1VTotal
  {
    if Interlaced(m) {
      var p := Progressive(m, Horizontal(m, vt0));
      var r := Interlace(m, p);
      assert r.vActive == Wrap16(m.vdisplay);
      InterlaceFieldsDiffer(m, p);
      assert TimingOf(m, vt0) == r.(vSyncPolarity := m.flags & FLAG_PVSYNC != 0);
    }
  }

  /** Wrapping the parts before adding them does not change the wrapped sum. */
  lemma WrapSum(a: int, b: int, c: int, d: int)
    ensures Wrap16(Wrap16(a) + Wrap16(b) + Wrap16(c) + Wrap16(d)) == Wrap16(a + b + c + d)
  {
    WrapShift(a, Wrap16(b) + Wrap16(c) + Wrap16(d));
    WrapShift(b, a + Wrap16(c) + Wrap16(d));
    WrapShift(c, a + b + Wrap16(d));
    WrapShift(d, a + b + c);
  }

  /** Parts that add up to `t` still do after each is wrapped. */
  lemma WrapParts(a: int, b: int, c: int, d: int, t: int)
    requires a + b + c + d == t
    ensures Wrap16(Wrap16(a) + Wrap16(b) + Wrap16(c) + Wrap16(d)) == Wrap16(t)
  {
    WrapSum(a, b, c, d);
  }

  /** Wrapping `a` first does not change the wrapped sum `a + b`. */
  lemma WrapShift(a: int, b: int)
    ensures Wrap16(a + b) == Wrap16(Wrap16(a) + b)
  {
    var q := a / 0x1_0000;
    assert a + b == Wrap16(a) + b + q * 0x1_0000;
  }

  /** Doubling in `u16` after truncating is doubling before. */
  lemma DoubleWrap(x: int)
    ensures Wrap16(2 * Wrap16(x)) == Wrap16(2 * x)
  {
    WrapShift(x, x);
    WrapShift(x, Wrap16(x));
    assert x + x == 2 * x && Wrap16(x) + Wrap16(x) == 2 * Wrap16(x);
  }

  /** A progressive mode whose positions are ordered and fit 16 bits is
      carried over exactly: porches are the gaps between the positions. */
  lemma ProgressiveExact(m: ModeLine, vt0: VideoTiming)
    requires !Interlaced(m)
    requires 0 <= m.hdisplay <= m.hsyncStart <= m.hsyncEnd <= m.htotal < U16_MOD
    requires 0 <= m.vdisplay <= m.vsyncStart <= m.vsyncEnd <= m.vtotal < U16_MOD
    ensures var vt := TimingOf(m, vt0);
      vt.hActive == m.hdisplay && vt.hFrontPorch == m.hsyncStart - m.hdisplay &&
      vt.hSyncWidth == m.hsyncEnd - m.hsyncStart && vt.hBackPorch == m.htotal - m.hsyncEnd &&
      vt.hActive + vt.hFrontPorch + vt.hSyncWidth + vt.hBackPorch == vt.hTotal == m.htotal &&
      vt.vActive == m.vdisplay && vt.f0PVFrontPorch == m.vsyncStart - m.vdisplay &&
      vt.f0PVSyncWidth == m.vsyncEnd - m.vsyncStart && vt.f0PVBackPorch == m.vtotal - m.vsyncEnd &&
      vt.vActive + vt.f0PVFrontPorch + vt.f0PVSyncWidth + vt.f0PVBackPorch == vt.f0PVTotal == m.vtotal
  {
  }

  /** For the NTSC and PAL modes every horizontal count is twice the mode's. */
  lemma SdDoubledExact(m: ModeLine, vt0: VideoTiming)
    requires SdDoubled(m)
    requires m.hdisplay <= m.hsyncStart <= m.hsyncEnd <= m.htotal < U16_MOD / 2
    ensures var vt := TimingOf(m, vt0);
      vt.hActive == 2 * m.hdisplay && vt.hFrontPorch == 2 * (m.hsyncStart - m.hdisplay) &&
      vt.hSyncWidth == 2 * (m.hsyncEnd - m.hsyncStart) && vt.hBackPorch == 2 * (m.htotal - m.hsyncEnd) &&
      vt.hTotal == 2 * m.htotal
  {
  }

  /** An interlaced mode whose frame positions are ordered and fit 16 bits:
      each field gets half of each porch and of the sync width, field 1 takes
      the odd back-porch line in its front porch, and the two fields together
      span the frame's lines less one for each of the front porch and sync
      width that has an odd number of lines. */
  lemma InterlacedExact(m: ModeLine, vt0: VideoTiming)
    requires Interlaced(m)
    requires 0 <= 2 * m.vdisplay <= m.vsyncStart <= m.vsyncEnd <= m.vtotal < U16_MOD
    ensures var vt := TimingOf(m, vt0);
      vt.vActive == m.vdisplay &&
      vt.f0PVFrontPorch == (m.vsyncStart - 2 * m.vdisplay) / 2 &&
      vt.f0PVSyncWidth == vt.f1VSyncWidth == (m.vsyncEnd - m.vsyncStart) / 2 &&
      vt.f0PVBackPorch == vt.f1VBackPorch == (m.vtotal - m.vsyncEnd) / 2 &&
      vt.f1VFrontPorch == vt.f0PVFrontPorch + (m.vtotal - m.vsyncEnd) % 2 &&
      vt.vActive + vt.f0PVFrontPorch + vt.f0PVSyncWidth + vt.f0PVBackPorch == vt.f0PVTotal &&
      vt.vActive + vt.f1VFrontPorch + vt.f1VSyncWidth + vt.f1VBackPorch == vt.f1VTotal &&
      vt.f0PVTotal + vt.f1VTotal ==
        m.vtotal - (m.vsyncStart - 2 * m.vdisplay) % 2 - (m.vsyncEnd - m.vsyncStart) % 2
  {
  }

  /** 1080i as `mode_valid` leaves it (540 lines a field): 562 and 563
      lines, field 1 taking the odd line of the 31-line back porch. */
  lemma Interlaced1080(vt0: VideoTiming)
    ensures var m := ModeLine(74250, 1920, 2008, 2052, 2200, 540, 1084, 1094, 1125, 60,
                              FLAG_INTERLACE | FLAG_PHSYNC | FLAG_PVSYNC);
      var vt := TimingOf(m, vt0);
      vt.f0PVFrontPorch == 2 && vt.f1VFrontPorch == 3 && vt.f0PVSyncWidth == 5 &&
      vt.f0PVBackPorch == 15 && vt.f0PVTotal == 562 && vt.f1VTotal == 563 &&
      vt.hTotal == 2200 && vt.hSyncPolarity && vt.vSyncPolarity
  {
    var m := ModeLine(74250, 1920, 2008, 2052, 2200, 540, 1084, 1094, 1125, 60,
                      FLAG_INTERLACE | FLAG_PHSYNC | FLAG_PVSYNC);
    InterlacedExact(m, vt0);
  }

  /** 480i as the EDID lists it (no refresh rate, double-clocked): after
      `mode_valid` it is a 240-line field at 60 Hz and 27 MHz, and the
      encoder then sends each pixel twice, 1440 wide. */
  lemma Ntsc480iChain(vt0: VideoTiming)
    ensures var m := ModeLine(13500, 720, 739, 801, 858, 480, 488, 494, 525, 0,
                              FLAG_INTERLACE | FLAG_DBLCLK);
      var a := Validated(m);
      a.vdisplay == 240 && a.vrefresh == 60 && a.clock == 27000 && SdDoubled(a) &&
      StatusOf(a.clock, false) == ModeOk &&
      TimingOf(a, vt0).hActive == 1440 && TimingOf(a, vt0).hTotal == 1716
  {
    var m := ModeLine(13500, 720, 739, 801, 858, 480, 488, 494, 525, 0,
                      FLAG_INTERLACE | FLAG_DBLCLK);
    var a := Validated(m);
    assert Interlaced(m) && DoubleClocked(m);
    assert a.vdisplay == 240;
    SdDoubledExact(a, vt0);
  }
}
