// The timing code of `xlnx_drm_hdmi_encoder_atomic_mode_set` as the driver
// runs it: the members of the local `XVidC_VideoTiming` are assigned one
// group at a time from the DRM mode, each step proved to compute the
// corresponding part of `DrmTiming.TimingOf`.
module DrmModeSet {
  import opened Word
  import opened DrmTiming

  /** The encoder's timing derivation: the horizontal members, then the
      vertical ones, each assigned to the local `vt` as the driver does. */
  method DeriveTiming(mode: Mode, vt0: VideoTiming) returns (vt: VideoTiming)
    ensures vt == TimingOf(mode.Line(), vt0)
  {
    var m := mode.Line();
    vt := DeriveHorizontal(m, vt0);
    vt := DeriveVertical(m, vt);
    vt := vt.(vSyncPolarity := m.flags & FLAG_PVSYNC != 0);
  }

  /** Lines 1240-1258: one store per member, then the in-place doubling of
      the NTSC and PAL modes. */
  method DeriveHorizontal(m: ModeLine, vt0: VideoTiming) returns (vt: VideoTiming)
    ensures vt == Horizontal(m, vt0)
  {
    vt := vt0;
    vt := vt.(hActive := Wrap16(m.hdisplay));
    vt := vt.(hFrontPorch := Wrap16(m.hsyncStart - m.hdisplay));
    vt := vt.(hSyncWidth := Wrap16(m.hsyncEnd - m.hsyncStart));
    vt := vt.(hBackPorch := Wrap16(m.htotal - m.hsyncEnd));
    vt := vt.(hTotal := Wrap16(m.htotal));
    vt := vt.(hSyncPolarity := m.flags & FLAG_PHSYNC != 0);
    if ((m.hdisplay == 720 && m.vdisplay == 240 && m.vrefresh == 60) ||
        (m.hdisplay == 720 && m.vdisplay == 288 && m.vrefresh == 50)) &&
       m.flags & FLAG_INTERLACE != 0 && m.flags & FLAG_DBLCLK != 0
    {
      vt := vt.(hActive := Wrap16(2 * vt.hActive));
      vt := vt.(hFrontPorch := Wrap16(2 * vt.hFrontPorch));
      vt := vt.(hSyncWidth := Wrap16(2 * vt.hSyncWidth));
      vt := vt.(hBackPorch := Wrap16(2 * vt.hBackPorch));
      vt := vt.(hTotal := Wrap16(2 * vt.hTotal));
    }
  }

  /** Lines 1260-1286: field 0 as for a progressive mode, then both fields
      again when the mode is interlaced. */
  method DeriveVertical(m: ModeLine, vt0: VideoTiming) returns (vt: VideoTiming)
    ensures vt == (if Interlaced(m) then Interlace(m, Progressive(m, vt0))
                   else Progressive(m, vt0))
  {
    vt := DeriveField0(m, vt0);
    if m.flags & FLAG_INTERLACE != 0 {
      vt := DeriveFields(m, vt);
    }
  }

  /** Lines 1260-1265. */
  method DeriveField0(m: ModeLine, vt0: VideoTiming) returns (vt: VideoTiming)
    ensures vt == Progressive(m, vt0)
  {
    vt := vt0;
    vt := vt.(vActive := Wrap16(m.vdisplay));
    vt := vt.(f0PVFrontPorch := Wrap16(m.vsyncStart - m.vdisplay));
    vt := vt.(f0PVSyncWidth := Wrap16(m.vsyncEnd - m.vsyncStart));
    vt := vt.(f0PVBackPorch := Wrap16(m.vtotal - m.vsyncEnd));
    vt := vt.(f0PVTotal := Wrap16(m.vtotal));
  }

  /** Lines 1267-1286: field 0 of an interlaced mode, then field 1. */
  method DeriveFields(m: ModeLine, vt0: VideoTiming) returns (vt: VideoTiming)
    ensures vt == Interlace(m, vt0)
  {
    vt := DeriveHalvedField0(m, vt0);
    vt := DeriveField1(m, vt);
  }

  /** Lines 1270-1276: the total is summed from the members just stored. */
  method DeriveHalvedField0(m: ModeLine, vt0: VideoTiming) returns (vt: VideoTiming)
    ensures vt == HalvedField0(m, vt0)
  {
    vt := vt0;
    vt := vt.(vActive := Wrap16(m.vdisplay));
    vt := vt.(f0PVFrontPorch := Wrap16(Half(m.vsyncStart - m.vdisplay * 2)));
    vt := vt.(f0PVSyncWidth := Wrap16(Half(m.vsyncEnd - m.vsyncStart)));
    vt := vt.(f0PVBackPorch := Wrap16(Half(m.vtotal - m.vsyncEnd)));
    vt := vt.(f0PVTotal := Wrap16(m.vdisplay + vt.f0PVFrontPorch + vt.f0PVSyncWidth + vt.f0PVBackPorch));
  }

  /** Lines 1278-1285: the front porch takes the odd line when
      `vtotal - vsync_end` is odd, and the total is summed from the members
      just stored. */
  method DeriveField1(m: ModeLine, vt0: VideoTiming) returns (vt: VideoTiming)
    ensures vt == Field1(m, vt0)
  {
    var frontPorch: U16;
    if (m.vtotal - m.vsyncEnd) % 2 != 0 {
      frontPorch := Wrap16(1 + Half(m.vsyncStart - m.vdisplay * 2));
    } else {
      frontPorch := Wrap16(Half(m.vsyncStart - m.vdisplay * 2));
    }
    assert frontPorch == F1FrontPorch(m);
    vt := vt0.(f1VFrontPorch := frontPorch);
    vt := vt.(f1VSyncWidth := Wrap16(Half(m.vsyncEnd - m.vsyncStart)));
    vt := vt.(f1VBackPorch := Wrap16(Half(m.vtotal - m.vsyncEnd)));
    vt := vt.(f1VTotal := Wrap16(m.vdisplay + vt.f1VFrontPorch + vt.f1VSyncWidth + vt.f1VBackPorch));
  }
}
