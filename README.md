# HDMI signalling metadata: a verified Dafny model

This project models the table- and bit-level core of the Xilinx HDMI transmitter stack. It proves properties of that model in Dafny. It covers five parts.

- **The packet codec of `xv_hdmic.c`.** Each HDMI data-island packet is a 36-byte aux record: header bytes HB0..HB3 and payload bytes PB0..PB31. The codec parses and generates these records for six packet kinds:
  - the AVI InfoFrame (CTA-861-G section 6.4);
  - the SPD InfoFrame (CTA-861-G section 6.5);
  - the Audio InfoFrame (CTA-861-G section 6.6);
  - the DRM InfoFrame (CTA-861-G section 6.9);
  - the General Control Packet (section 5.3.6 of HDMI 1.4b), parsed only;
  - the Audio Metadata packet.

  InfoFrames carry the 8-bit checksum of section 5.3.5 of HDMI 1.4b.
- **Audio Clock Regeneration in `xv_hdmic.c`.** For TMDS signalling (section 7.2 of HDMI 1.4b) it finds the N value for a character rate, and recovers the sampling frequency from rate, N and CTS. For HDMI 2.1 FRL signalling it does the same two lookups. The module also holds the sampling-frequency, colour-space and aspect-ratio converters.
- **The ALSA audio helpers of `xlnx_hdmitx_audio.c`.** These are:
  - a second N lookup, by exact TMDS rate;
  - the mapping from sampling rate to table column;
  - the CEA-861 speaker mask built from an ELD speaker-allocation byte;
  - the first-fit search for a channel allocation.
- **The PHY event log of `xhdmiphy1_log.c`.** This is a circular queue of 16-bit event words and 64-bit timestamps with `u8` head and tail indices. A write that finds the queue full drops the oldest entry. `XHdmiphy1_LogShow` has a drain loop that prints entries until a read gives 0 or the text buffer has 30 bytes or fewer left.
- **The self-contained helpers of the DRM driver `xilinx_drm_hdmi.c`.** These are:
  - the HDCP password sysfs store;
  - the sub-core address check;
  - the fourcc-to-colour-format mapping;
  - the pixel-clock check of `mode_valid`;
  - the `XVidC_VideoTiming` that `atomic_mode_set` derives from a DRM mode, progressive and interlaced;
  - the UHD colour-depth clamp and the AVI InfoFrame fields the mode set writes.

C fixed-width integers are `bv8`/`bv16`/`bv64` where the code does bit manipulation. Elsewhere they are bounded `int` subset types, with 16- and 32-bit wrap-around written out (`Word.Wrap16`, `Word.Wrap32`). A function on values specifies each operation. Wherever the C code loops over a table or an array, or updates a structure in place, a method proves that it computes that function:
- `GeneratePacket`, `ComputeChecksum`, `GetNVal`, `AcrGetN`, `SearchTable`;
- the `PhyLog.Log` and `DrmHdmi.Hdmi` classes;
- `DrmTiming.ModeValid`;
- the `DrmModeSet` derivation.

Lemmas then state what the source promises about those functions:
- round trips between generators and parsers;
- header, reserved-byte and checksum shape;
- lookup/inverse-lookup round trips;
- FIFO order of the log;
- timing sums in `u16` arithmetic;
- concrete vectors from the tables.

Source paths below are relative to the repository's driver tree.

## Model

| member | source | states |
|---|---|---|
| AuxPacket.ComputeChecksum | hdmi/phy-xilinx-vphy/xv_hdmic.c:985-998 | the `Crc` loops over HB0..HB2 and PB1..PB(end-1) followed by `256 - Crc` yield exactly the checksum byte `Checksum` |
| AuxPacket.ChecksumMakesSumZero | hdmi/phy-xilinx-vphy/xv_hdmic.c:985-1001 | writing the checksum into PB0 makes HB0..HB2 plus PB0..PBlast sum to 0 mod 256, whatever PB0 held |
| AuxPacket.ChecksumValidIff | hdmi/phy-xilinx-vphy/xv_hdmic.c:985-1001 | a record's covered bytes sum to 0 mod 256 if and only if PB0 equals the computed checksum (the checksum byte is unique) |
| AuxPacket.ValidIsWithChecksum | hdmi/phy-xilinx-vphy/xv_hdmic.c:985-1001 | a record with a valid checksum is exactly what writing the checksum into its own PB1..PB31 gives |
| AuxPacket.ZeroFrom | hdmi/phy-xilinx-vphy/xv_hdmic.c:981-983 | the reserved-byte loop zeroes bytes from..31 and leaves bytes below `from` as they were |
| AuxPacket.JoinSplit | hdmi/phy-xilinx-vphy/xv_hdmic.c:955-978 | splitting a 16-bit field into `x & 0xff` and `(x & 0xff00) >> 8` and joining them back as `(hi << 8) \| lo` gives the field |
| AuxPacket.SplitJoin | hdmi/phy-xilinx-vphy/xv_hdmic.c:660-664 | joining two bytes into a 16-bit field and splitting it again gives both bytes back |
| Avi.Parse | hdmi/phy-xilinx-vphy/xv_hdmic.c:622-667 | a record whose HB0 is not the AVI type leaves the destination unchanged; otherwise every parsed field fits its bit slot |
| Avi.GeneratePacket | hdmi/phy-xilinx-vphy/xv_hdmic.c:907-1004 | the zeroed record, header, packed PB1..PB14, zero fill and checksum the generator builds are exactly `Avi.Record(f)` |
| Avi.RecordWellFormed | hdmi/phy-xilinx-vphy/xv_hdmic.c:915-1001 | the generated record has type 0x82, the frame's version, length 13, HB3 = 0, PB7 and PB15..PB31 zero, and a valid checksum over PB0..PB14 |
| Avi.ParseRecord | hdmi/phy-xilinx-vphy/xv_hdmic.c:622-667 | parsing a generated record gives every field back cut to its slot width (VIC to 7 bits) |
| Avi.RoundTrip | hdmi/phy-xilinx-vphy/xv_hdmic.c:622-1004 | a frame whose fields fit their slots survives generate-then-parse unchanged |
| Avi.HighVicTruncated | hdmi/phy-xilinx-vphy/xv_hdmic.c:647 | a VIC of 128 or more is written in full but parsed back 128 lower |
| Avi.RecordOfParse | hdmi/phy-xilinx-vphy/xv_hdmic.c:622-1004 | a well-formed AVI record (type, length, zero reserved bytes, 7-bit VIC, valid checksum) is exactly what the generator makes of its parse |
| Avi.FittedFits | hdmi/phy-xilinx-vphy/xv_hdmic.c:622-667 | cutting fields to their widths changes a frame exactly when some field does not fit |
| AudioIf.ParseAsWritten | hdmi/phy-xilinx-vphy/xv_hdmic.c:710-733 | the parser as written: no-op on another type, and otherwise the corrected parse with the level shift read from bits 4..7 of PB5 |
| AudioIf.Parse | hdmi/phy-xilinx-vphy/xv_hdmic.c:710-733 | the parser with the level shift read from bits 3..6, where the generator writes it: no-op on another type, fitted fields otherwise |
| AudioIf.GeneratePacket | hdmi/phy-xilinx-vphy/xv_hdmic.c:1018-1082 | the generator's record is exactly `AudioIf.Record(f)` |
| AudioIf.RecordWellFormed | hdmi/phy-xilinx-vphy/xv_hdmic.c:1026-1080 | the generated record has type 0x84, version 1, length 10, HB3 = 0, PB3 and PB6..PB31 zero, and a valid checksum over PB0..PB10 |
| AudioIf.ParseRecord | hdmi/phy-xilinx-vphy/xv_hdmic.c:710-733 | parsing a generated record gives version 1 and every field cut to its width |
| AudioIf.RoundTrip | hdmi/phy-xilinx-vphy/xv_hdmic.c:710-733 | a version-1 frame whose fields fit survives generate-then-parse unchanged, level shift included |
| AudioIf.AsWrittenLosesLevelShift | hdmi/phy-xilinx-vphy/xv_hdmic.c:730 | a frame with level shift 1 comes back from the as-written parser with level shift 0 |
| AudioIf.RecordOfParse | hdmi/phy-xilinx-vphy/xv_hdmic.c:710-1082 | a well-formed Audio InfoFrame record is exactly what the generator makes of its parse |
| AudioIf.FittedFits | hdmi/phy-xilinx-vphy/xv_hdmic.c:710-733 | fitting changes a frame exactly when a field does not fit or the version is not 1 |
| AudioMeta.Parse | hdmi/phy-xilinx-vphy/xv_hdmic.c:747-770 | a record of another type leaves the destination unchanged; otherwise the fields fit their widths |
| AudioMeta.GeneratePacket | hdmi/phy-xilinx-vphy/xv_hdmic.c:1096-1130 | the generator's record is exactly `AudioMeta.Record(m)` |
| AudioMeta.RecordWellFormed | hdmi/phy-xilinx-vphy/xv_hdmic.c:1102-1128 | the generated packet has type 0x0D, HB3 = 0 and PB3..PB31 zero (no checksum) |
| AudioMeta.ParseRecord | hdmi/phy-xilinx-vphy/xv_hdmic.c:747-770 | parsing a generated packet gives every field back cut to its width |
| AudioMeta.RoundTrip | hdmi/phy-xilinx-vphy/xv_hdmic.c:747-1130 | metadata whose fields fit survive generate-then-parse unchanged |
| AudioMeta.RecordOfParse | hdmi/phy-xilinx-vphy/xv_hdmic.c:747-1130 | a metadata packet with its unused bits clear is exactly what the generator makes of its parse |
| AudioMeta.FittedFits | hdmi/phy-xilinx-vphy/xv_hdmic.c:747-770 | fitting changes metadata exactly when a field does not fit |
| Gcp.Parse | hdmi/phy-xilinx-vphy/xv_hdmic.c:681-696 | a record of another type leaves the destination unchanged; otherwise the decoded fields fit their widths |
| Gcp.ParseEncode | hdmi/phy-xilinx-vphy/xv_hdmic.c:681-696 | the parser recovers every field of a General Control Packet laid out as HDMI 1.4b section 5.3.6 prescribes |
| Gcp.ParseReadsFirstSubpacketBytes | hdmi/phy-xilinx-vphy/xv_hdmic.c:681-696 | the parse depends only on HB0 and SB0..SB2 |
| Spd.Parse | hdmi/phy-xilinx-vphy/xv_hdmic.c:784-821 | a record of another type leaves the destination unchanged; otherwise the version is HB1 |
| Spd.GeneratePacket | hdmi/phy-xilinx-vphy/xv_hdmic.c:1144-1218 | the generator's record is exactly `Spd.Record(s)` |
| Spd.RecordWellFormed | hdmi/phy-xilinx-vphy/xv_hdmic.c:1150-1215 | the generated record has type 0x83, the frame's version, length 25, HB3 = 0, the parity bytes 7, 15, 23 and bytes 29..31 zero, and a valid checksum over PB0..PB28 |
| Spd.RoundTrip | hdmi/phy-xilinx-vphy/xv_hdmic.c:784-1218 | every SPD InfoFrame survives generate-then-parse unchanged |
| Spd.RecordOfParse | hdmi/phy-xilinx-vphy/xv_hdmic.c:784-1218 | a well-formed SPD record is exactly what the generator makes of its parse |
| Drm.Parse | hdmi/phy-xilinx-vphy/xv_hdmic.c:835-893 | a record of another type leaves the destination unchanged; otherwise EOTF and metadata type are 3-bit values |
| Drm.GeneratePacket | hdmi/phy-xilinx-vphy/xv_hdmic.c:1232-1313 | the record written to the output argument is exactly `Drm.Record(h)` |
| Drm.RecordWellFormed | hdmi/phy-xilinx-vphy/xv_hdmic.c:1237-1312 | the generated record has type 0x87, version 1, length 26, HB3 = 0, bytes 7, 15, 23, 30, 31 zero and a valid checksum over PB0..PB29 |
| Drm.ParseRecord | hdmi/phy-xilinx-vphy/xv_hdmic.c:835-893 | parsing a generated record gives the payload back with EOTF and metadata type cut to 3 bits |
| Drm.RoundTrip | hdmi/phy-xilinx-vphy/xv_hdmic.c:835-1313 | a payload whose EOTF and metadata type fit 3 bits survives generate-then-parse unchanged |
| AcrTmds.MatchingRow | hdmi/phy-xilinx-vphy/xv_hdmic.c:265-272 | the row found is the first whose 10 kHz window (with `u32` bounds) holds the rate, or none |
| AcrTmds.GetNVal | hdmi/phy-xilinx-vphy/xv_hdmic.c:252-278 | the table loop with early return computes `AcrTmds.NVal` |
| AcrTmds.Row0NeverMatches | hdmi/phy-xilinx-vphy/xv_hdmic.c:268-269 | row 0's window never holds a rate, because its lower bound `0 - 10000` wraps to a huge `u32` |
| AcrTmds.WindowOfRow | hdmi/phy-xilinx-vphy/xv_hdmic.c:268-269 | away from row 0 the tolerance test is the plain interval rate ± 10000 |
| AcrTmds.NValInRow | hdmi/phy-xilinx-vphy/xv_hdmic.c:252-278 | a rate within 10 kHz of table row i ≥ 1 gets column freq-1 of row i |
| AcrTmds.NValFallback | hdmi/phy-xilinx-vphy/xv_hdmic.c:259-277 | a rate no window holds gets row 0's entry; an enumerant outside 1..7 gets 0 |
| AcrTmds.NValExamples | hdmi/phy-xilinx-vphy/xv_hdmic.c:221-278 | N for (148.5 MHz, 48 kHz) is 6144 and for (297 MHz, 48 kHz) 5120 |
| AcrTmds.NValFallbackExample | hdmi/phy-xilinx-vphy/xv_hdmic.c:274-277 | an unlisted 999.999999 MHz gets row 0's 6144 at 48 kHz |
| AcrTmds.FindColumn | hdmi/phy-xilinx-vphy/xv_hdmic.c:300-309 | the inner loop finds the first column holding N, or none |
| AcrTmds.ClassifyWindow | hdmi/phy-xilinx-vphy/xv_hdmic.c:320-342 | a rate is classified as enumerant f exactly when it lies within 1 kHz of rate f and of no earlier one, and as invalid exactly when it lies near none |
| AcrTmds.DivisorAsWrittenVanishes | hdmi/phy-xilinx-vphy/xv_hdmic.c:313-318 | CTS = 0x2000000 passes the zero test yet its 32-bit divisor is 0 |
| AcrTmds.Divisor | hdmi/phy-xilinx-vphy/xv_hdmic.c:318 | the divisor computed without wrap: positive for every nonzero CTS and equal to the source's value for CTS < 2^25 |
| AcrTmds.AudSampFreq | hdmi/phy-xilinx-vphy/xv_hdmic.c:286-343 | the recovered enumerant is always 0..7 |
| AcrTmds.GetAudSampFreq | hdmi/phy-xilinx-vphy/xv_hdmic.c:286-343 | the nested table loops, the CTS = 0 test and the recomputation compute `AcrTmds.AudSampFreq`, which for every CTS below 2^25 is exactly what the source's 32-bit computation returns |
| AcrTmds.AudSampFreqAsWritten | hdmi/phy-xilinx-vphy/xv_hdmic.c:286-343 | the source as written, with the 32-bit divisor: it divides by zero exactly when no row answers and the CTS is a nonzero multiple of 2^25, and it agrees with `AcrTmds.AudSampFreq` for every CTS below 2^25 |
| AcrTmds.DivisorAsWrittenZero | hdmi/phy-xilinx-vphy/xv_hdmic.c:318 | the 32-bit product `128 * CTSVal` is 0 exactly for multiples of 2^25 |
| AcrTmds.AsWrittenWraps | hdmi/phy-xilinx-vphy/xv_hdmic.c:313-342 | at rate 1000 and N 6144 the source divides by zero for CTS 0x2000000, and for CTS 0x2000001 divides by 128 and returns 48 kHz where the unwrapped divisor gives the invalid enumerant |
| AcrTmds.RowDistinct | hdmi/phy-xilinx-vphy/xv_hdmic.c:221-246 | every table row lists seven distinct N values |
| AcrTmds.RowFreqSkips | hdmi/phy-xilinx-vphy/xv_hdmic.c:296-311 | rows whose windows miss the rate do not change the search's answer |
| AcrTmds.AudSampFreqOfNVal | hdmi/phy-xilinx-vphy/xv_hdmic.c:252-343 | round trip: for a rate within 10 kHz of a nonzero table rate, the frequency recovered from the N chosen for f is f, whatever the CTS |
| AcrTmds.AudSampFreqFromTable | hdmi/phy-xilinx-vphy/xv_hdmic.c:296-311 | (297 MHz, N = 5120) is 48 kHz by the table |
| AcrTmds.AudSampFreqRecomputed | hdmi/phy-xilinx-vphy/xv_hdmic.c:313-342 | (100 MHz, N = 6144, CTS = 100000) matches no row and is recomputed as 48 kHz |
| AcrFrl.GetNVal | hdmi/phy-xilinx-vphy/xv_hdmic.c:397-461 | the N returned is one of those listed for the rate's family at the clamped FRL rate (its value on table rates in `AcrFrl.NValOfTableRate`, the round trip in `AcrFrl.FrlRoundTrip`) |
| AcrFrl.ClampedRate | hdmi/phy-xilinx-vphy/xv_hdmic.c:403-409 | the rate class is cut to 8 bits; a cut value above R_666_667 becomes R_166_667 and any other is kept, so a valid class is unchanged |
| AcrFrl.Family | hdmi/phy-xilinx-vphy/xv_hdmic.c:411-424 | the 48 kHz family exactly when 48000 divides the rate; otherwise 44.1 kHz only when 44100 divides it; otherwise 32 kHz, the fall-through |
| AcrFrl.Column | hdmi/phy-xilinx-vphy/xv_hdmic.c:431-456 | the column is 0..5, and a nonzero column c means the multiple was 2^c |
| AcrFrl.FamilyOfTableRate | hdmi/phy-xilinx-vphy/xv_hdmic.c:411-424 | each table rate (base × 1, 2, 4, 8, 16 or 32) is sorted back into its own family |
| AcrFrl.ColumnOfTableRate | hdmi/phy-xilinx-vphy/xv_hdmic.c:411-456 | each table rate is sorted back into its own column |
| AcrFrl.NValOfTableRate | hdmi/phy-xilinx-vphy/xv_hdmic.c:397-461 | on a table rate and a valid FRL rate class the lookup returns that family's, class's and column's N |
| AcrFrl.NValExamples | hdmi/phy-xilinx-vphy/xv_hdmic.c:359-461 | N at 6 Gbit/s is 6048 for 48 kHz and 24192 for 192 kHz; an invalid class reads as R_166_667; 22.05 kHz, which no base rate divides, falls to column 0 of the 32 kHz family |
| AcrFrl.GetAudSampFreq | hdmi/phy-xilinx-vphy/xv_hdmic.c:466-500 | the loop over the three families, with `break` leaving only the inner loop, computes `AcrFrl.FreqAfter(3, ...)` |
| AcrFrl.FamilyFreqMeaning | hdmi/phy-xilinx-vphy/xv_hdmic.c:479-495 | a family contributes exactly when the CTS is strictly within 10000 of its CTS and N is in its row, and then contributes base << first matching column |
| AcrFrl.LastContributionWins | hdmi/phy-xilinx-vphy/xv_hdmic.c:476-499 | the result is the invalid 0 exactly when no family contributes, and otherwise the contribution of the last family that does |
| AcrFrl.FrlRoundTrip | hdmi/phy-xilinx-vphy/xv_hdmic.c:397-500 | round trip at every FRL rate class: the N chosen for any table rate, received with the CTS the table lists for its family, brings back that rate |
| AcrFrl.OtherFamilySilent | hdmi/phy-xilinx-vphy/xv_hdmic.c:359-392 | at one FRL rate class no other family both holds a family's CTS in its window and lists one of its N values |
| AcrFrl.RoundTrip48k | hdmi/phy-xilinx-vphy/xv_hdmic.c:397-500 | at 6 Gbit/s the N chosen for 48 kHz, with the table CTS, brings back 48 kHz |
| AcrFrl.RoundTrip96k | hdmi/phy-xilinx-vphy/xv_hdmic.c:397-500 | at 10 Gbit/s the N chosen for 96 kHz brings back 96 kHz although two families' windows hold the CTS |
| Converters.GetAudIFSampFreq | hdmi/phy-xilinx-vphy/xv_hdmic.c:506-554 | the enumerant is at most 7; a nonzero enumerant names the standard rate given, and every standard rate gets one (round trip in `Converters.FreqOfRate`) |
| Converters.GetAudSampFreqVal | hdmi/phy-xilinx-vphy/xv_hdmic.c:560-608 | the result is always a standard rate: the k-th for enumerant k in 1..7, 32 kHz otherwise (round trip in `Converters.RateOfFreq`) |
| Converters.ToIfColorformat | hdmi/phy-xilinx-vphy/xv_hdmic.c:1327-1353 | the code fits 3 bits and is RESERVED exactly for a format HDMI does not carry (injectivity in `Converters.ToIfColorformatFaithful`) |
| Converters.IfAspectRatioToVidC | hdmi/phy-xilinx-vphy/xv_hdmic.c:1367-1385 | the result is 4:3 exactly when the code is the 4:3 code (`Converters.AspectRatioDefault`) |
| Converters.RateOfFreq | hdmi/phy-xilinx-vphy/xv_hdmic.c:506-608 | enumerants 1..7 map to the seven standard rates, and each rate maps back to its enumerant |
| Converters.FreqOfRate | hdmi/phy-xilinx-vphy/xv_hdmic.c:506-608 | a rate gets a real enumerant exactly when it is standard, and that enumerant maps back to the rate |
| Converters.UnknownFreqIs32k | hdmi/phy-xilinx-vphy/xv_hdmic.c:560-608 | every enumerant outside 1..7 reads as 32 kHz |
| Converters.ToIfColorformatFaithful | hdmi/phy-xilinx-vphy/xv_hdmic.c:1327-1353 | the colour-space code is 3-bit, RESERVED exactly for formats HDMI does not carry, and distinct formats get distinct codes |
| Converters.AspectRatioDefault | hdmi/phy-xilinx-vphy/xv_hdmic.c:1367-1385 | only the 4:3 code gives 4:3; every other code gives 16:9 |
| TxAudio.SrateToIndex | hdmi/xlnx_hdmitx_audio.c:198-230 | the index is below 7 and, for a standard rate (after the 32-bit cut), is that rate's position in the table (`TxAudio.SrateToIndexMeaning`) |
| TxAudio.SrateToIndexMeaning | hdmi/xlnx_hdmitx_audio.c:198-230 | a standard rate selects its own column; any other rate selects column 0 |
| TxAudio.SrateToIndexIsCode | hdmi/xlnx_hdmitx_audio.c:198-230 | the column of a standard rate is its InfoFrame sampling-frequency code less one |
| TxAudio.SameAsTmdsTable | hdmi/xlnx_hdmitx_audio.c:172-196 | `acr_n_table` is entry for entry the packet library's `TMDSChar_N_Table` |
| TxAudio.ExactRow | hdmi/xlnx_hdmitx_audio.c:246-252 | the row found is the first whose rate equals the input exactly, or none |
| TxAudio.AcrGetN | hdmi/xlnx_hdmitx_audio.c:241-258 | the table loop with early return computes `TxAudio.AcrN` |
| TxAudio.AcrNOfTableRate | hdmi/xlnx_hdmitx_audio.c:241-258 | for a listed rate N is that row's entry in the sampling rate's column |
| TxAudio.AgreesWithTmdsNVal | hdmi/xlnx_hdmitx_audio.c:172-258 | on every listed nonzero rate and standard sampling rate the exact lookup agrees with `XHdmiC_TMDS_GetNVal` |
| TxAudio.AcrNExamples | hdmi/xlnx_hdmitx_audio.c:172-258 | (297 MHz, 48 kHz) gives 5120 and (594 MHz, 44.1 kHz) gives 9408 |
| TxAudio.AcrNFallback | hdmi/xlnx_hdmitx_audio.c:254-257 | an unlisted rate gets row 0's 6144 at 48 kHz |
| TxAudio.ExactUnlikeTolerant | hdmi/xlnx_hdmitx_audio.c:246-257 | one hertz off 297 MHz the exact lookup falls back to 6144 where the tolerant one still gives 5120 |
| TxAudio.NoExactRow297 | hdmi/xlnx_hdmitx_audio.c:246-252 | no row's rate equals 297000001 |
| TxAudio.SpkMaskFromAlloc | hdmi/xlnx_hdmitx_audio.c:294-309 | the loop ORing the speaker group of each set bit computes `TxAudio.MaskOfBits(spkAlloc, 7)` |
| TxAudio.GroupsPartition | hdmi/xlnx_hdmitx_audio.c:297-300 | the seven speaker groups are non-empty, pairwise disjoint speaker sets |
| TxAudio.MaskByGroup | hdmi/xlnx_hdmitx_audio.c:294-309 | a speaker group is in the mask exactly when its allocation bit is set |
| TxAudio.MaskEmpty | hdmi/xlnx_hdmitx_audio.c:294-309 | the mask is empty exactly when bits 0..6 are clear, and bit 7 is ignored |
| TxAudio.ChannelAllocShape | hdmi/xlnx_hdmitx_audio.c:95-169 | every allocation drives FL and FR and has 2, 4, 6 or 8 channels |
| TxAudio.ChAllocTableIdx | hdmi/xlnx_hdmitx_audio.c:311-333 | the result is -EINVAL or an index; an index is the first entry the search accepts, and -EINVAL means no entry is accepted |
| TxAudio.GetChAllocTableIdx | hdmi/xlnx_hdmitx_audio.c:311-333 | the mask computation and the first-fit loop compute `TxAudio.ChAllocTableIdx` |
| TxAudio.SearchTable | hdmi/xlnx_hdmitx_audio.c:321-332 | the loop with `continue` and early return computes the first-fit search over the table |
| TxAudio.UnpluggedIsStereo | hdmi/xlnx_hdmitx_audio.c:321-324 | with no speakers reported the stereo entry 0 is chosen, whatever the channel count |
| TxAudio.ChosenFitsSink | hdmi/xlnx_hdmitx_audio.c:321-332 | for a plugged sink the chosen entry has the requested channel count and only speakers the sink has |
| TxAudio.ChAllocExample51 | hdmi/xlnx_hdmitx_audio.c:95-332 | a 5.1 sink without a centre speaker asked for six channels gets entry 4 |
| TxAudio.ChAllocExampleStereo | hdmi/xlnx_hdmitx_audio.c:95-332 | a stereo-only sink asked for eight channels gets -EINVAL |
| PhyLog.Count | hdmi/phy-xilinx-vphy/xhdmiphy1_log.c:109-176 | the number of queued entries is below the buffer length and leads from tail to head |
| PhyLog.EntryFields | hdmi/phy-xilinx-vphy/xhdmiphy1_log.c:109-110 | the stored word `(Data << 8) \| Evt` gives back the event in its low byte and the data in its high byte |
| PhyLog.EntryZero | hdmi/phy-xilinx-vphy/xhdmiphy1_log.c:109-110 | a stored word is 0 exactly for event NONE with data 0, the word a read of an empty log also gives |
| PhyLog.RingWrite | hdmi/phy-xilinx-vphy/xhdmiphy1_log.c:109-137 | storing at head and advancing head (and tail when they meet) appends the word, dropping the oldest entry when the queue was full |
| PhyLog.RingRead | hdmi/phy-xilinx-vphy/xhdmiphy1_log.c:164-176 | advancing tail past a non-empty queue's first entry removes exactly that entry |
| PhyLog.Log.constructor | hdmi/phy-xilinx-vphy/xhdmiphy1_log.c:70-79 | a fresh log with zeroed storage is valid and empty |
| PhyLog.Log.Reset | hdmi/phy-xilinx-vphy/xhdmiphy1_log.c:70-79 | head and tail become 0 and the log is empty |
| PhyLog.Log.Write | hdmi/phy-xilinx-vphy/xhdmiphy1_log.c:95-138 | the queue becomes the old queue plus the new word, oldest entry dropped when full, and the timestamps likewise |
| PhyLog.Log.Read | hdmi/phy-xilinx-vphy/xhdmiphy1_log.c:152-180 | an empty log gives 0 and stays as it was; otherwise the oldest word is returned and removed; head never moves |
| PhyLog.Log.ShowStep | hdmi/phy-xilinx-vphy/xhdmiphy1_log.c:224-601 | one turn prints the word's line and then reads the next word only if more than 30 bytes are left; the timestamp queue drops exactly the entries the word queue drops |
| PhyLog.Log.ShowTurn | hdmi/phy-xilinx-vphy/xhdmiphy1_log.c:217-602 | a turn keeps the drain state and consumes an entry unless the loop is about to stop, and drops the same number of timestamps |
| PhyLog.Log.ShowFrom | hdmi/phy-xilinx-vphy/xhdmiphy1_log.c:217-602 | the drain loop from a word just read leaves the text length and the queue that `PhyLog.ShowLoop` describes; the timestamps stay paired with the words left |
| PhyLog.Log.Show | hdmi/phy-xilinx-vphy/xhdmiphy1_log.c:195-608 | `LogShow` prints the banner, reads, and drains; the text length and the queue left are those of `PhyLog.Shown`; the timestamps stay paired with the words left |
| PhyLog.DrainingStep | hdmi/phy-xilinx-vphy/xhdmiphy1_log.c:217-602 | a loop turn from queue c to c' keeps the drain invariant and shrinks the queue unless the loop stops |
| PhyLog.ShowLoopStep | hdmi/phy-xilinx-vphy/xhdmiphy1_log.c:217-602 | one turn of the drain: print, then stop or continue with the next queued word |
| PhyLog.ShowLoopStop | hdmi/phy-xilinx-vphy/xhdmiphy1_log.c:217 | the loop ends at a 0 word or with 30 bytes or fewer left |
| PhyLog.ShowLoopBounds | hdmi/phy-xilinx-vphy/xhdmiphy1_log.c:217-602 | the drain never writes past the buffer, reads at most the queue, and reads only non-zero words before its last read |
| PhyLog.ShownBounds | hdmi/phy-xilinx-vphy/xhdmiphy1_log.c:195-608 | `LogShow`'s text stays inside the buffer, it reads at most the queue, and a stored 0 ends it |
| PhyLog.ShowLoopReadsAll | hdmi/phy-xilinx-vphy/xhdmiphy1_log.c:217-602 | with room for every line, a queue without 0 words is read completely |
| PhyLog.WritesKeepNewest | hdmi/phy-xilinx-vphy/xhdmiphy1_log.c:109-176 | FIFO: after any sequence of writes the log holds the most recent LOG_SIZE - 1 words, oldest first |
| DrmHdmi.Hdmi.constructor | hdmi/xilinx_drm_hdmi.c:2143-2163 | the zero-allocated driver state has an all-zero 32-byte password, RGB and an unknown depth |
| DrmHdmi.Hdmi.PasswordStore | hdmi/xilinx_drm_hdmi.c:2143-2163 | more than 32 bytes give -EINVAL and leave the password alone; otherwise the password becomes the bytes before the first line end, zero-filled, and `count` is returned |
| DrmHdmi.Line | hdmi/xilinx_drm_hdmi.c:2150-2156 | the copied prefix is the longest one without LF or CR |
| DrmHdmi.PasswordRoundTrip | hdmi/xilinx_drm_hdmi.c:2143-2163 | writing a password, with or without a trailing line end, stores exactly that password followed by zeros |
| DrmHdmi.PasswordIgnoresRest | hdmi/xilinx_drm_hdmi.c:2150-2156 | what follows the first line feed never reaches the password |
| DrmHdmi.SubcoreAbsAddr | hdmi/xilinx_drm_hdmi.c:1641-1659 | success or failure only; the address written is base \| offset on success and 0 on failure |
| DrmHdmi.AbsAddrMeaning | hdmi/xilinx_drm_hdmi.c:1641-1659 | base \| offset never lies below base, so the call succeeds exactly when it does not exceed the high address; for disjoint bits it is base + offset |
| DrmHdmi.AbsAddrExamples | hdmi/xilinx_drm_hdmi.c:1641-1659 | a sub-core at 64 KiB inside a 1 MiB subsystem is found; one at 1 MiB is refused with address 0 |
| DrmHdmi.MediaBus | hdmi/xilinx_drm_hdmi.c:1126-1173 | the depth is unknown exactly for an unlisted fourcc and otherwise 8 or 10 bits; the format is always one HDMI carries |
| DrmHdmi.MediaBusClasses | hdmi/xilinx_drm_hdmi.c:1126-1173 | which fourccs are 10-bit and which are 4:2:2, 4:2:0, 4:4:4 and RGB, each as an if-and-only-if |
| DrmHdmi.Hdmi.FindMediaBus | hdmi/xilinx_drm_hdmi.c:1126-1173 | returns the format and sets the depth field as `DrmHdmi.MediaBus` says, leaving the stored format alone |
| DrmHdmi.Hdmi.ResolveDepth | hdmi/xilinx_drm_hdmi.c:1330-1350 | the depth field becomes `DrmHdmi.ResolvedDepth` of the stored format and depth |
| DrmHdmi.Hdmi.SetColor | hdmi/xilinx_drm_hdmi.c:1217 | the mode set's format lookup then depth check leave the format of the fourcc and its resolved depth |
| DrmHdmi.ResolvedDepthMeaning | hdmi/xilinx_drm_hdmi.c:1330-1350 | the depth is never raised; RGB and 4:4:4 UHD at 50 Hz or more carry at most 8 bits; every other case keeps the known depth (or the core maximum when unknown) |
| DrmHdmi.ResolvedDepthExamples | hdmi/xilinx_drm_hdmi.c:1330-1350 | 2160p60 10-bit RGB drops to 8 bits, 4:2:0 keeps 10, 2160p30 RGB keeps 10, and an unknown depth takes the maximum 12 |
| DrmHdmi.PixelRepetition | hdmi/xilinx_drm_hdmi.c:1360-1365 | repetition factor 2 exactly for 1440x480i60 and 1440x576i50, factor 1 otherwise |
| DrmHdmi.AviForModeRoundTrip | hdmi/xilinx_drm_hdmi.c:1294-1365 | the AVI InfoFrame the mode set builds survives the packet generator and parser for a 7-bit VIC, colour space and repetition included |
| DrmTiming.Half | hdmi/xilinx_drm_hdmi.c:1272-1283 | C `int` division by 2 truncates toward zero |
| DrmTiming.StatusOf | hdmi/xilinx_drm_hdmi.c:972-977 | MODE_CLOCK_HIGH exactly when the clock exceeds 340000 kHz, or 600000 kHz for an HDMI 2.0 sink |
| DrmTiming.Mode.constructor | hdmi/xilinx_drm_hdmi.c:935-936 | a mode object holds the given mode line |
| DrmTiming.ModeValid | hdmi/xilinx_drm_hdmi.c:935-980 | the mode is adjusted in place to `DrmTiming.Validated` of the old one, and the status judges the adjusted clock |
| DrmTiming.ValidatedFields | hdmi/xilinx_drm_hdmi.c:948-968 | an interlaced mode's `vdisplay` is `Half` of the old one (C division, truncating toward zero); a progressive mode is untouched; the clock doubles exactly for interlaced double-clocked modes; the refresh only changes from 0; nothing else changes |
| DrmTiming.Hdmi20AcceptsMore | hdmi/xilinx_drm_hdmi.c:972-977 | an HDMI 2.0 sink accepts every mode an HDMI 1.4 sink does, and every clock up to 340 MHz is fine |
| DrmTiming.UhdNeedsHdmi20 | hdmi/xilinx_drm_hdmi.c:972-977 | 2160p60 at 594 MHz is refused for an HDMI 1.4 sink and accepted for an HDMI 2.0 sink |
| DrmTiming.HCount | hdmi/xilinx_drm_hdmi.c:1240-1258 | a horizontal count as stored in `u16`, doubled in `u16` for the NTSC/PAL modes |
| DrmTiming.HorizontalSum | hdmi/xilinx_drm_hdmi.c:1240-1258 | the horizontal parts add up to the total in `u16` arithmetic, doubled or not, and the polarity follows PHSYNC |
| DrmTiming.CountsAddUp | hdmi/xilinx_drm_hdmi.c:1240-1258 | counts taken between four positions add up to the last position's count in `u16` arithmetic |
| DrmTiming.Progressive | hdmi/xilinx_drm_hdmi.c:1260-1265 | field 0's parts add up to its total in `u16` arithmetic |
| DrmTiming.HalvedField0 | hdmi/xilinx_drm_hdmi.c:1267-1276 | field 0 of an interlaced mode: its halved parts add up to its total |
| DrmTiming.Field1 | hdmi/xilinx_drm_hdmi.c:1278-1285 | field 1 of an interlaced mode: its parts plus `vdisplay` add up to its total |
| DrmTiming.InterlaceFieldsDiffer | hdmi/xilinx_drm_hdmi.c:1267-1286 | the two fields share sync width and back porch, and field 1's front porch is one more exactly when vtotal - vsync_end is odd |
| DrmTiming.TimingConsistent | hdmi/xilinx_drm_hdmi.c:1240-1288 | for every mode the derived horizontal and field-0 parts add up to their totals in `u16` and the polarities follow the flags |
| DrmTiming.Field1Consistent | hdmi/xilinx_drm_hdmi.c:1267-1286 | an interlaced mode's field 1 adds up and differs from field 0 only in the odd line; a progressive mode leaves field 1 untouched |
| DrmTiming.ProgressiveExact | hdmi/xilinx_drm_hdmi.c:1240-1265 | for an ordered progressive mode that fits 16 bits the parts are the exact differences of the positions |
| DrmTiming.SdDoubledExact | hdmi/xilinx_drm_hdmi.c:1248-1258 | for the NTSC/PAL modes every horizontal count is exactly twice the mode's |
| DrmTiming.InterlacedExact | hdmi/xilinx_drm_hdmi.c:1267-1286 | for an ordered interlaced mode that fits 16 bits each field's parts are exact halves, and each field's total is exact |
| DrmTiming.Interlaced1080 | hdmi/xilinx_drm_hdmi.c:1267-1286 | 1080i as `mode_valid` leaves it gets field totals 562 and 563 |
| DrmTiming.Ntsc480iChain | hdmi/xilinx_drm_hdmi.c:948-1288 | 480i from the EDID, after `mode_valid`, is recognised as NTSC and gets a 1716-pixel doubled line |
| DrmModeSet.DeriveTiming | hdmi/xilinx_drm_hdmi.c:1240-1288 | the member-by-member assignments of `vt` compute `DrmTiming.TimingOf` of the mode |
| DrmModeSet.DeriveHorizontal | hdmi/xilinx_drm_hdmi.c:1240-1258 | the horizontal assignments and the in-place doubling compute `DrmTiming.Horizontal` |
| DrmModeSet.DeriveVertical | hdmi/xilinx_drm_hdmi.c:1260-1286 | field 0, then both fields when interlaced, compute the vertical part of the timing |
| DrmModeSet.DeriveField0 | hdmi/xilinx_drm_hdmi.c:1260-1265 | the progressive field-0 assignments compute `DrmTiming.Progressive` |
| DrmModeSet.DeriveFields | hdmi/xilinx_drm_hdmi.c:1267-1286 | the interlaced assignments compute `DrmTiming.Interlace` |
| DrmModeSet.DeriveHalvedField0 | hdmi/xilinx_drm_hdmi.c:1270-1276 | the halved field-0 assignments, total from the fields just written, compute `DrmTiming.HalvedField0` |
| DrmModeSet.DeriveField1 | hdmi/xilinx_drm_hdmi.c:1278-1285 | the field-1 stores, with the front porch chosen by the parity of `vtotal - vsync_end` and the total summed from the members just stored, compute `DrmTiming.Field1` |

## Left out

- Header constants. The packet-type tags, enumerations and log sizes come from headers outside this model (`xv_hdmic.h`, `xhdmiphy1.h`, the XVidC headers). The model takes them from the standards and the code's evident use:
  - InfoFrame tags 0x82, 0x83, 0x84 and 0x87; GCP 0x03; metadata 0x0D;
  - FRL rate classes 0..4; colour-space codes 0..4;
  - a 256-entry log; `XHDMIPHY1_LOG_EVT_DUMMY` = 55;
  - EINVAL = 22;
  - the DRM flag bits of the Linux UAPI.
- `VicTable` and `FrlRateTable`: the lookups that read them live in XVidC code outside this model, and no modelled operation uses them.
- The parsers write fields into a caller-owned struct. They are modelled as functions from the record and the old struct to the new struct. Aliasing between record and struct is not modelled.
- Gcp: the core has no General Control Packet generator. `Gcp.Encode` is the layout of section 5.3.6 of HDMI 1.4b, written for the round trip.
- The `scnprintf` text of `XHdmiphy1_LogShow` is not modelled. Each word's line length is a parameter `lineLength`, and only the space accounting of `scnprintf` is kept (`Printed`).
- The write callback's timestamp is a parameter of `PhyLog.Log.Write`.
- `XV_HDMIPHY1_LOG_ENABLE` is taken as defined.
- PhyLog.Log.Show: requires a non-negative buffer size, which the kernel's sysfs callers always pass.
- I/O and register access are not modelled:
  - `writel` to the ACR registers;
  - `drm_eld_get_spk_alloc`, the ELD parse: the speaker-allocation byte is an input of `TxAudio.GetChAllocTableIdx`.
- `XVidC_GetVideoModeIdExtensive` and `XV_HdmiTxSs_SetStream` are outside this model. The matched video mode and the VIC are inputs (`DrmHdmi.VideoModeId`, `vic`).
- The PHY clock calls, mutexes and `dev_dbg` of the mode set and `mode_valid` are not modelled.
- The DRM fourcc codes are a datatype; their numeric values are not modelled.
- The timing is computed into a local `XVidC_VideoTiming` the source leaves partly uninitialised for progressive modes. The members the code does not assign come from the parameter `vt0`.
- DrmTiming.ModeValid: C `int` overflow of `clock * 2` and `vdisplay * 2` is not modelled. Those values are kHz and line counts far below 2^31.
- DrmHdmi.SubcoreAbsAddr: `uintptr_t` is taken as 64 bits.
- AcrTmds.AudSampFreq: divides by `128 * CTS` without 32-bit wrap-around, the corrected divisor of the second finding below. For a CTS of 2^25 or more the source's wrapped divisor gives other answers. `AcrTmds.AudSampFreqAsWritten` models those answers, and they agree below 2^25, which covers every 20-bit CTS an ACR packet carries.
- AcrTmds.GetAudSampFreq: computes the corrected `AcrTmds.AudSampFreq`, so it departs from the source for a CTS of 2^25 or more, as the line above says. Its contract states the agreement with the as-written function below 2^25.
- DrmHdmi.Hdmi.PasswordStore: requires `count` to be at most the length of `buf`, as the sysfs layer guarantees.

## Findings

| source | as written | input that shows it | evidently intended | confidence | as-written member | corrected member |
|---|---|---|---|---|---|---|
| hdmi/phy-xilinx-vphy/xv_hdmic.c:730 | `XV_HdmiC_ParseAudioInfoFrame` reads LevelShiftVal from bits 4..7 of PB5 while the generator (line 1056) writes it to bits 3..6 | a frame with LevelShiftVal = 1 generates PB5 = 0x08 and parses back with LevelShiftVal = 0 | read `(PB5 >> 3) & 0xf`, so the level shift survives a round trip | high, not executed | AudioIf.AsWrittenLosesLevelShift | AudioIf.RoundTrip |
| hdmi/phy-xilinx-vphy/xv_hdmic.c:318 | `fs / (128 * CTSVal)` multiplies in 32-bit arithmetic after the `!CTSVal` test | CTSVal = 0x2000000 is nonzero but `128 * CTSVal` wraps to 0, a division by zero; CTSVal = 0x2000001 wraps the divisor to 128, so rate 1000 with N 6144 reads as 48 kHz | compute the divisor in 64 bits, as `fs` is | medium, not executed | AcrTmds.AsWrittenWraps | AcrTmds.Divisor |
