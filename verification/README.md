# Screen driver of genxtos (EmuTOS for Atari and Foenix machines)

This project is a Dafny model of the screen layer of the BIOS/XBIOS in the genxtos
fork of EmuTOS. The generic front end (`bios/screen.c`) forwards every screen call
through a fixed table of fourteen function pointers (`SCREEN_DRIVER` in
`bios/screen.h`). One table is compiled in per machine:

- `bios/screen_atari.c` for the Atari ST, STe, TT and Falcon (Videl);
- `bios/screen_vicky2.c` for the Foenix A2560U/K/X and GenX (VICKY II);
- `bios/screen_vicky3.c` for the Foenix A2560M (VICKY III).

The model has one module per source file, plus a few supporting modules:

- `common.dfy` (`Common`, `Services`): machine words as bounded integers with explicit
  wrap-around, the process-wide variables (`v_bas_ad`, `video_ram_addr`,
  `rez_was_hacked`, `colorptr`, `vblsem`, `sshiftmod`, …), the collaborators the core
  calls but does not define, and the console re-initialisation `screen_init_services`.
- `atari.dfy` (`Atari`):
  - the shadow of the shifter and Videl registers;
  - the implemented-bits mask of the palette;
  - Setcolor, and the physical base split over byte registers;
  - the mode table and the frame-buffer size;
  - the `0xFFnn` resolution codes, `check_moderez` and the resolution-change capability;
  - Setrez/Getrez, the colour count, the pixel size and the monitor type;
  - start-up and palette initialisation, and the Setscreen protocol.
- `atari_palette.dfy` (`AtariPalette`): the deferred palette load `atari_set_palette`.
  It covers the tag bit in `colorptr` and the `do … while (--n >= 0)` copy with its
  `WORD` counter. It also holds the corrected copy (see Findings).
- `monitor.dfy` (`Monitor`): `screen_detect_monitor_change`. It covers the GPIP and
  DMA-sound stabilisation loop, the monochrome/colour decision, the shifter update and
  the `swv_vec` hook.
- `vicky2.dfy` (`Vicky2`): the VICKY II driver. It covers the frame buffer sized from
  the video mode, Setscreen, and the palette loaded into look-up table 0.
- `vicky3.dfy` (`Vicky3`): the VICKY III driver, with one fixed 1024 x 768
  monochrome mode. Register stores are kept as a log so that their order can be stated.
- `driver_table.dfy` (`DriverTable`): the positional filling of `SCREEN_DRIVER` by
  the three tables, as written and corrected.
- `screen.dfy` (`Screen`): the front end, dispatching to the driver of the machine.
  It covers `screen_init`, `setup_video_ram`, the hacked flag, the capability gates,
  Physbase/Logbase/Getrez/Setscreen/Setpalette/Setcolor and the VBL palette load.

Integers are unbounded in the model. Every `WORD`, `UWORD`, `ULONG` and `UBYTE`
value has a range subtype. Truncating stores, 32-bit address arithmetic and `SBYTE`
negation are written out as modular arithmetic. The hardware registers are shadow
fields in immutable records, and every operation is a pure function from the old
state to the new one.

Where the code and its surrounding descriptions disagree, the model follows the code:

- `rez_was_hacked` is described as set once and never reset. `screen_init` clears it
  (`bios/screen.c:68`), so a new start-up ends the hacked state
  (`Screen.HackedFreezesResolution`).
- A rejected Setscreen is described as changing nothing. The code stores the logical
  and physical addresses before any check (`bios/screen_atari.c:703-720`,
  `bios/screen_vicky2.c:119-135`), as the comment at `bios/screen.c:267-269` says.
- A resolution code inside `MIN_REZ..MAX_REZ` that the chip does not take is not an
  error on a shifter. An example is code 3 on an ST. `atari_setrez` ignores it and
  Setscreen returns 0 after re-initialising the console.
- Setscreen is described as returning the previous mode. It returns the previous Videl
  mode only for a Falcon mode request on a Videl, and 0 otherwise.
- The comment of `atari_set_palette` says that a tagged null pointer loads the 256
  Falcon registers from the shadow palette. The code loads `falcon_shadow_count` long
  registers from the cleared address, which is 0 for a tagged null. The model follows
  the code.

## Model

| member | source | states |
|---|---|---|
| Services.InitServices | bios/screen.c:284-297 | the console is re-initialised exactly once with the given geometry, with VBL processing held off one level while it runs, and `vblsem` ends where it started |
| Services.StdPixelSize | bios/screen.c:196-200 | a pixel is 556 µm wide exactly when the screen is narrower than 640, else 278; the same holds for the height against 400 |
| Services.StdPixelSizeMonotone | bios/screen.c:196-200 | a screen at least as wide and as tall never gets larger pixels |
| Common.RawFrameBytes | bios/screen_atari.c:385-386 | without 32-bit wrap, the packed-plane frame buffer of a mode is `w / 8 * planes * h` bytes |
| Atari.ImplementedBits | bios/screen_atari.c:267-272 | with 4 bits per channel the register keeps its low 12 bits; on a plain ST each of the three colour digits keeps only its low three bits |
| Atari.ImplementedBitsIdempotent | bios/screen_atari.c:267-272 | masking a colour twice is masking it once |
| Atari.ImplementedBitsKeepsColours | bios/screen_atari.c:267-272 | a colour already inside the implemented bits passes the mask unchanged |
| Atari.MaskOfWhiteAndBlack | bios/screen_atari.c:267-272 | black stays black through the mask, and white becomes 0x0fff with 4 bits per channel and 0x0777 on a plain ST |
| Atari.ColorIndex | bios/screen_atari.c:265 | the register index is in 0..15 and agrees with the colour number in its low four bits, negative numbers included |
| Atari.AtariSetcolor | bios/screen_atari.c:256-277 | returns the old register value through the mask; a negative colour is a pure query, and otherwise only register `colorNum & 15` takes the new colour |
| Atari.SetcolorTouchesOneRegister | bios/screen_atari.c:265-274 | no register other than `colorNum & 15` changes |
| Atari.QueryRepeatedlyIsIdempotent | bios/screen_atari.c:272-276 | any number of queries in a row all return the same masked value and leave every register as it was |
| Atari.SetcolorThenQuery | bios/screen_atari.c:265-276 | a stored colour reads back through the mask at every colour number with the same low four bits |
| Atari.AtariSetphys | bios/screen_atari.c:331-338 | the address is split into high, middle and (except on a plain ST) low byte registers, and no other register changes |
| Atari.AtariPhysbase | bios/screen_atari.c:341-361 | an active Nova adapter's screen takes precedence; otherwise the reassembled address is below 16 MiB and on a plain ST 256-byte aligned |
| Atari.PhysbaseAfterSetphys | bios/screen_atari.c:331-361 | on an STe, TT or Falcon, Setphys then Physbase yields the address modulo 2^24 |
| Atari.PlainStPhysbaseAfterSetphys | bios/screen_atari.c:331-361 | on a plain ST, Setphys then Physbase yields the address modulo 2^24 with its low byte cleared |
| Atari.PlainStIgnoresLowByte | bios/screen_atari.c:352-358 | on a plain ST the low byte register has no influence on Physbase |
| Atari.ShifterModeInfo | bios/screen_atari.c:403-413 | the mode is the table row `sshiftmod & 7`; rows 3 and 5 are the only ones with no planes, and no mode needs more than 153600 bytes |
| Atari.StModesNeed32000Bytes | bios/screen_atari.c:229-232 | ST low, medium and high all need 32000 bytes |
| Atari.AtariModeInfo | bios/screen_atari.c:416-426 | the Videl reports its collaborator's geometry for the current Videl mode; a shifter reports the table row `sshiftmod & 7` |
| Atari.StVramSize | bios/screen_atari.c:392-400 | the ST size is a multiple of 256 with at least 768 and less than 1024 bytes of slack |
| Atari.StVramSizeMonotone | bios/screen_atari.c:400 | a larger requirement never gets a smaller ST allocation |
| Atari.AtariCalcVramSize | bios/screen_atari.c:364-401 | the Videl gets the larger of the mode's size and the legacy Falcon size, plus slack; the TT gets the raw size plus slack; the ST gets the rounded size |
| Atari.ShifterFrameFits | bios/screen_atari.c:364-413 | on a shifter the frame buffer asked for is never smaller than the packed frame of the current mode |
| Atari.AtariGetrez | bios/screen_atari.c:306-328 | a shifter reports its two (ST) or three (TT) mode bits; the Videl reports its own mode's code |
| Atari.RezCode | bios/screen_atari.c:627 | the `0xff00 \| rez` encoding is a negative WORD |
| Atari.RezCodeRoundTrip | bios/screen_atari.c:617-627 | encoding a resolution as `0xFFnn` and taking its low byte are inverse to each other |
| Atari.DemoteMono | bios/screen_atari.c:619-625 | a request for the monochrome mode becomes the colour mode of the same chip; every other code is kept |
| Atari.ShifterCheckModerez | bios/screen_atari.c:606-628 | Falcon mode values yield 0; a `0xFFnn` request yields the encoded demoted code exactly when that differs from the current resolution |
| Atari.AtariCheckModerez | bios/screen_atari.c:666-673 | on a shifter, a proposed code is always an `0xFFnn` code of a colour mode; the Videl asks its own check |
| Atari.CheckModerezSettles | bios/screen_atari.c:627 | once the proposed mode is current, the same request proposes nothing |
| Atari.AtariCanChangeResolution | bios/screen_atari.c:640-651 | never once hacked; on a Videl exactly when the monitor is not an ST monochrome one; on a shifter exactly when the current mode is not monochrome |
| Atari.AtariSetrez | bios/screen_atari.c:280-303 | a code the chip does not take changes nothing; otherwise only the mode register and `sshiftmod` change, and on the Videl the Falcon palette initialiser for the requested mode also rewrites the ST(e) and Falcon palettes |
| Atari.GetrezAfterSetrez | bios/screen_atari.c:294-327 | on a shifter, setting an accepted code of the chip and reading it back gives the code |
| Atari.AtariColourCount | bios/screen_atari.c:428-462 | 2 in monochrome, 512 in ST colour modes of a plain ST, 4096 otherwise on a shifter; 4096 or 0 on the Videl by its mode bits |
| Atari.ShifterColourCounts | bios/screen_atari.c:444-461 | ST low has 512 colours on a plain ST and 4096 on an STe; ST high has 2 |
| Atari.ColourCountMatchesPlanes | bios/screen_atari.c:403-461 | on a shifter, a mode has two colour choices exactly when it has one plane |
| Atari.AtariPixelSize | bios/screen_atari.c:685-698 | Videl and TT use the standard rule; the ST uses 372 µm height and picks 169, 372 or 338 µm width by aspect and width |
| Atari.StPixelSizes | bios/screen_atari.c:690-696 | ST low, medium and high give (338, 372), (169, 372) and (372, 372) |
| Atari.AtariMonitorType | bios/screen_atari.c:655-683 | on a shifter, GPIP bit 7 set means a colour monitor, clear a monochrome one |
| Atari.InitialPalette | bios/screen_atari.c:246-253 | the 16 registers hold the default colours through the mask, except the highest pen of ST medium and ST high |
| Atari.FixupPalette | bios/screen_atari.c:469-477 | the highest pen of ST medium (3) or ST high (1) becomes pen 15, and nothing else changes |
| Atari.HighestPenIsBlack | bios/screen_atari.c:465-477 | after initialisation the highest pen of each ST resolution is black and pen 0 is white |
| Atari.DefaultPalMode | bios/screen_atari.c:590-603 | PAL follows bit 0 of the OS header configuration, or the build's country when the header says multilanguage |
| Atari.BootRez | bios/screen_atari.c:133-152 | a shifter starts in its monochrome mode without a colour monitor, else in TT medium or ST low |
| Atari.InitialisePaletteRegistersAtari | bios/screen_atari.c:196-220 | every ST(e) pen is the masked default colour passed through the Falcon initialiser for `mode` or the TT initialiser for `rez` (none on an ST or STe), then the highest pen of ST medium and ST high equals pen 15; only a Videl's Falcon palette changes, by the Falcon initialiser |
| Atari.AtariInitVidel | bios/screen_atari.c:79-125 | on the Videl, the screen is first parked at the configured or a safe address, then the boot mode is set, its PAL bit goes into the sync register, and the palettes are initialised for the boot mode |
| Atari.AtariInitShifter | bios/screen_atari.c:133-191 | on a shifter, Getrez reports the boot resolution, the STe scroll registers are cleared, the sync mode follows the TT rule or the PAL setting, the palette is initialised for the boot resolution with the Falcon default mode, and the base registers stay unchanged |
| Atari.AtariInit | bios/screen_atari.c:58-193 | VBL processing starts disabled, the palettes are initialised for `sshiftmod` (on an ST or STe: the default palette), and on a shifter Getrez agrees with `sshiftmod` |
| Atari.InitCanChangeIffColourMonitor | bios/screen_atari.c:75-152 | after start-up the resolution can change exactly when the monitor type is not monochrome |
| Atari.InitSyncFollowsHeader | bios/screen_atari.c:163-182 | on an ST or STe, the sync register leaves start-up with the PAL bit exactly when the default PAL mode is PAL |
| Atari.BootMode | bios/screen_atari.c:60 | a machine without a Videl hands the palette initialiser the Falcon default mode |
| Atari.StoreAddresses | bios/screen_atari.c:703-709 | only positive addresses are stored, the logical one in `v_bas_ad` and the physical one through Setphys |
| Atari.VidelRealloc | bios/screen_atari.c:732-741 | a failed `Srealloc` changes nothing; a successful one moves both screens to the new block |
| Atari.ChangeRez | bios/screen_atari.c:748-753 | the console is re-initialised once with the new mode's geometry, and the screen addresses stay where they are |
| Atari.SetscreenChange | bios/screen_atari.c:722-755 | a failed reallocation is -1 with no change; otherwise the old Videl mode (Falcon request) or 0 is returned and the console is re-initialised once |
| Atari.AtariSetscreen | bios/screen_atari.c:700-756 | addresses are stored first; hacked or `rez == -1` gives 0 and out of range gives -1, neither re-initialising the console; otherwise the mode changes and the console follows it |
| Atari.SetscreenReallocates | bios/screen_atari.c:728-744 | a Falcon mode change with null addresses fails with no change when `Srealloc` fails, else displays the new block and returns the old mode |
| Atari.HackedSetscreenOnlyStoresAddresses | bios/screen_atari.c:711-714 | once hacked, Setscreen returns 0 and changes no mode and no console, only the addresses |
| AtariPalette.DecodeColorptr | bios/screen_atari.c:772-773 | bit 0 of `colorptr` selects the Falcon registers, and the source is the address with bit 0 cleared |
| AtariPalette.EncodeColorptr | bios/screen_atari.c:760-768 | tagging an aligned address adds exactly the Falcon bit |
| AtariPalette.ColorptrRoundTrip | bios/screen_atari.c:760-773 | tagging and untagging are inverse to each other |
| AtariPalette.DbraIterations | bios/screen_atari.c:784-786 | a `WORD` countdown loop runs between 1 and 32769 times |
| AtariPalette.WriteLong | bios/screen_atari.c:785 | one `ULONG` store sets two adjacent word registers and no others |
| AtariPalette.CopyLongs | bios/screen_atari.c:784-786 | after `n` iterations of a given stride, exactly the words up to the last store's second word are loaded |
| AtariPalette.CopyLoop | bios/screen_atari.c:784-786 | the loop with its wrapping `WORD` counter runs `DbraIterations(count)` times and loads what `CopyLongs` describes |
| AtariPalette.SetPaletteWithStride | bios/screen_atari.c:758-787 | the tag selects which register file is loaded, and the other is untouched |
| AtariPalette.SetPaletteAsWritten | bios/screen_atari.c:758-787 | as written, an ST(e) load sets words 0 to 8 and leaves 9 to 15; a Falcon load sets only `count + 1` words |
| AtariPalette.AtariSetPalette | bios/screen_atari.c:758-787 | corrected, an ST(e) load sets all sixteen registers from the source, and a Falcon load sets `2 * count` words |
| AtariPalette.AsWrittenMissesUpperRegisters | bios/screen_atari.c:781-786 | a grey palette loaded over black leaves register 15 black as written and grey when corrected |
| AtariPalette.SetpaletteThenLoad | bios/screen_atari.c:779-786 | the corrected load of an untagged address puts the sixteen words found there into the registers |
| Monitor.FirstStable | bios/screen_atari.c:518-527 | the loop stops at the first pass where both GPIP reads agree in bit 7 and the DMA byte held still, and never stops when no pass does |
| Monitor.Stable | bios/screen_atari.c:520-526 | a pass is stable exactly when the two GPIP reads, as `SBYTE`s, have the same sign and the DMA control byte read the same twice |
| Monitor.NegateAsWritten | bios/screen_atari.c:530-531 | negating an `SBYTE` flips its sign except for 0 and -128 |
| Monitor.NegationKeepsTwoSigns | bios/screen_atari.c:530-531 | negation leaves the sign of 0 and of -128 as it was |
| Monitor.FlipMonoBit | bios/screen_atari.c:508-512 | inverting GPIP bit 7 changes that bit and nothing else |
| Monitor.FlipMonoBitFlipsSign | bios/screen_atari.c:508-512 | inverting bit 7 always flips the sign of the reading, and is its own inverse |
| Monitor.MonoflagAsWritten | bios/screen_atari.c:500-532 | without DMA sound the flag is the GPIP byte; with it the flag exists exactly when a stable pass exists |
| Monitor.Monoflag | bios/screen_atari.c:500-532 | corrected, the flag is negative exactly when GPIP bit 7 differs from the DMA-sound bit |
| Monitor.DmaNegationMisreadsMonitor | bios/screen_atari.c:530-531 | a stable GPIP 0x80 with sound playing reads as colour as written and as monochrome when corrected |
| Monitor.CurrentRez | bios/screen_atari.c:535-549 | the current resolution has three bits on a TT and two on an ST(e) |
| Monitor.SwitchTarget | bios/screen_atari.c:551-579 | a switch happens exactly when the monitor and the resolution disagree; the target is the monochrome mode, or the default mode when that is a colour mode, or ST low when the default is monochrome |
| Monitor.MergeRez | bios/screen_atari.c:582 | a resolution below 8 replaces the low three bits of the shifter register and keeps its upper five |
| Monitor.DetectMonitorChange | bios/screen_atari.c:487-584 | on a switch, only `sshiftmod`, the low three shifter bits and one `swv_vec` call change; otherwise nothing changes |
| Monitor.SecondTickIsQuiet | bios/screen_atari.c:551-583 | after a switch the resolution matches the monitor, so the next tick with the same reading does nothing |
| Monitor.MonitorTick | bios/screen_atari.c:487-584 | the Videl is never switched and a shifter waits for a stable reading; the tick changes something (and calls the hook once) exactly when "GPIP bit 7, exclusive-or'ed with DMA sound active, is clear" disagrees with the current resolution being monochrome |
| Monitor.MonitorTickAsWritten | bios/screen_atari.c:487-584 | with `monoflag` computed as written, the tick changes something, and then calls the hook once, exactly when a non-negative flag disagrees with the current resolution being monochrome |
| Monitor.TickAsWrittenRestartsOnMono | bios/screen_atari.c:528-583 | an ST(e) in ST high on a monochrome monitor with DMA sound playing and GPIP 0x80: as written the tick switches away from ST high and calls the hook; corrected it does nothing |
| Vicky2.Vicky2Init | bios/screen_vicky2.c:20-35 | `vicky2_init` runs first under the old `vblsem`, then VBL processing is disabled, then the shadow frame buffer is set up (when configured) with it disabled; the mode, bitmap and palette registers are left as they were |
| Vicky2.Vicky2ModeInfo | bios/screen_vicky2.c:47-56 | the depth, width and height are those of the current mode id |
| Vicky2.Vicky2CalcVramSize | bios/screen_vicky2.c:38-44 | one byte per pixel plus the slack, whatever the depth |
| Vicky2.CalcVramSizeIgnoresDepth | bios/screen_vicky2.c:38-44 | two modes of the same geometry get the same frame buffer |
| Vicky2.FrameFitsMode | bios/screen_vicky2.c:38-56 | with at most 8 bits per pixel and no 32-bit wrap, the frame buffer holds the packed frame of the current mode |
| Vicky2.Vicky2Physbase | bios/screen_vicky2.c:58-62 | the physical screen is bitmap 0 inside VRAM bank 0 |
| Vicky2.Vicky2Setphys | bios/screen_vicky2.c:146-148 | Setphys changes nothing |
| Vicky2.PhysbaseIgnoresSetphys | bios/screen_vicky2.c:146-148 | Physbase does not depend on any earlier Setphys |
| Vicky2.Vicky2CheckModerez | bios/screen_vicky2.c:72-75 | never proposes a mode change |
| Vicky2.Vicky2CanChangeResolution | bios/screen_vicky2.c:82-85 | the resolution can never change |
| Vicky2.Vicky2MonitorType | bios/screen_vicky2.c:65-69 | the monitor is reported as VGA |
| Vicky2.Vicky2ColourCount | bios/screen_vicky2.c:87-93 | 0, meaning more colours than a WORD can say |
| Vicky2.Vicky2InitialisePaletteRegisters | bios/screen_vicky2.c:77-80 | palette initialisation changes nothing |
| Vicky2.Vicky2Setrez | bios/screen_vicky2.c:95-103 | only a Falcon mode request changes the video mode, to the mode given |
| Vicky2.LutAfter | bios/screen_vicky2.c:108-112 | after the iterations from 14 down to `from`, entries `from..14` hold converted palette entries and all others are unchanged |
| Vicky2.Vicky2PaletteLoop | bios/screen_vicky2.c:108-112 | the countdown loop converts entries 0 to 14 and leaves entries 15 to 255 |
| Vicky2.Vicky2SetPalette | bios/screen_vicky2.c:105-113 | the background takes entry 0 and LUT 0 takes entries 0 to 14; the mode and bitmap are untouched |
| Vicky2.Vicky2Setscreen | bios/screen_vicky2.c:115-144 | returns -1 exactly when not hacked, `rez != -1` and out of range, else 0; only a real change re-initialises the console with the new mode |
| Vicky2.SetscreenSwitchesMode | bios/screen_vicky2.c:136-141 | a Falcon mode request switches to that mode and the console follows its geometry |
| Vicky3.Vicky3Init | bios/screen_vicky3.c:16-26 | VICKY II is switched off (0x80) before the VICKY III screen is (0), in that order |
| Vicky3.Vicky3ModeInfo | bios/screen_vicky3.c:72-78 | one plane of 1024 x 768 |
| Vicky3.Vicky3CalcVramSize | bios/screen_vicky3.c:28-32 | 98304 bytes |
| Vicky3.CalcVramSizeFitsMode | bios/screen_vicky3.c:28-32 | the size is exactly the packed frame buffer of the reported mode |
| Vicky3.Vicky3CheckModerez | bios/screen_vicky3.c:34-38 | always names the fixed mode 4 |
| Vicky3.Vicky3CanChangeResolution | bios/screen_vicky3.c:66-70 | the resolution can never change |
| Vicky3.Vicky3MonitorType | bios/screen_vicky3.c:93-97 | the monitor is reported as monochrome |
| Vicky3.Vicky3ColourCount | bios/screen_vicky3.c:99-103 | two colours |
| Vicky3.Vicky3InitialisePaletteRegisters | bios/screen_vicky3.c:40-50 | in the monochrome mode, the only store sets the pixel colour to white |
| Vicky3.Vicky3Setphys | bios/screen_vicky3.c:80-91 | screen off, address in 32-bit words, screen on in mode 4: three stores in that order |
| Vicky3.Vicky3Physbase | bios/screen_vicky3.c:105-109 | the address register times four, known only once written |
| Vicky3.PhysbaseAfterSetphys | bios/screen_vicky3.c:80-109 | Setphys then Physbase gives the address rounded down to a multiple of four |
| Vicky3.SecondSetphysWins | bios/screen_vicky3.c:80-91 | of two Setphys calls the later one decides Physbase |
| Vicky3.SetphysEnablesReportedMode | bios/screen_vicky3.c:89-90 | the enable store switches the screen on in the mode `check_moderez` reports |
| Vicky3.Vicky3Setscreen | bios/screen_vicky3.c:111-115 | returns the fixed mode and changes nothing, not even the addresses |
| Vicky3.Vicky3SetPalette | bios/screen_vicky3.c:117-121 | the palette load changes nothing |
| DriverTable.Fill | bios/screen.h:38-54 | an initialiser list fills the fields in order and leaves the rest null |
| DriverTable.Lookup | bios/screen.h:38-54 | a call goes through the entry in the field's position |
| DriverTable.SlotIndex | bios/screen.h:38-54 | each field has its position in the declaration order |
| DriverTable.AsWrittenTablesAreMisfilled | bios/screen_vicky2.c:151-165 | as written, the VICKY tables put their palette routine in the Setcolor field and leave the palette field null; the Atari table's palette field names the VICKY II routine |
| DriverTable.WithSetcolor | bios/screen_vicky3.c:123-137 | the corrected VICKY table keeps the first twelve entries and puts a Setcolor stub before the palette routine |
| DriverTable.AtariTableIsWellFormed | bios/screen_atari.c:789-804 | with `atari_set_palette` in the last field, every field holds an Atari routine written for it |
| DriverTable.Vicky2TableIsWellFormed | bios/screen_vicky2.c:151-165 | the corrected VICKY II table fills every field with a routine written for it |
| DriverTable.Vicky3TableIsWellFormed | bios/screen_vicky3.c:123-137 | the corrected VICKY III table fills every field with a routine written for it |
| Screen.DriverInit | bios/screen.c:64-66 | the driver's start-up keeps the machine kind, the logical screen and the hacked flag |
| Screen.CalcVramSize | bios/screen.c:178-181 | the driver's frame buffer holds its current mode: exactly on a VICKY III, at least on a shifter and (up to 8 bits per pixel) a VICKY II, at least the collaborator's mode size on a Videl |
| Screen.ModeInfo | bios/screen.c:306 | the shifter table row of `sshiftmod & 7`, the Videl or VICKY II collaborator's mode, or one plane of 1024 x 768 on a VICKY III |
| Screen.Setphys | bios/screen.c:240-243 | only the hardware changes, never the screen variables |
| Screen.Physbase | bios/screen.c:227-235 | with video hardware, the driver's answer: always known except on a VICKY III, and on an Atari the reassembled base registers |
| Screen.Logbase | bios/screen.c:246-249 | the logical screen is `v_bas_ad`, whatever the hardware displays |
| Screen.SetupVideoRam | bios/screen.c:114-135 | the logical screen starts on the frame buffer, which is the configured address or a block of the driver's size from `balloc_stram` |
| Screen.ScreenInit | bios/screen.c:64-76 | after start-up the hacked flag is clear and Logbase is the frame buffer |
| Screen.ScreenInitShowsVideoRam | bios/screen.c:64-76 | after start-up Logbase is the frame buffer and the hardware displays it, up to the address bits each chip keeps |
| Screen.ScreenInitAllocatesDriverSize | bios/screen.c:119-123 | without a configured address, the frame buffer has the size the driver asks for in its boot mode |
| Screen.SetRezHacked | bios/screen.c:143-148 | the flag is set and the console is re-initialised once with the line-A geometry found |
| Screen.CanChangeResolution | bios/screen.c:155-161 | never once hacked, and never on a VICKY machine |
| Screen.CheckModerez | bios/screen.c:93-99 | 0 whenever the resolution cannot change, otherwise the driver's answer |
| Screen.DriverCheckModerez | bios/screen.c:98 | the Atari driver's answer, always 0 on a VICKY II, and the fixed mode 4 on a VICKY III |
| Screen.VickyNeverChangesMode | bios/screen.c:93-99 | on a VICKY machine no change is ever proposed, although the VICKY III driver itself names its fixed mode |
| Screen.HackedFreezesResolution | bios/screen.c:143-161 | once hacked, no change is allowed or proposed until the next start-up clears the flag |
| Screen.InitialisePaletteRegisters | bios/screen.c:105-108 | on an Atari the palettes are initialised as `initialise_palette_registers_atari` promises (the default palette on an ST or STe); VICKY II is untouched |
| Screen.MonitorType | bios/screen.c:165-168 | VICKY II reports VGA and VICKY III monochrome |
| Screen.GetPalette | bios/screen.c:189-192 | the colour count is one of 0, 2, 512 and 4096 |
| Screen.PixelSize | bios/screen.c:219-222 | the VICKY machines use the standard pixel size rule |
| Screen.Getrez | bios/screen.c:252-260 | without Atari video, the software copy `sshiftmod` is reported |
| Screen.Setscreen | bios/screen.c:263-281 | the machine kind is kept; the VICKY III answers its fixed mode and changes nothing |
| Screen.SetscreenThenGetrez | bios/screen.c:263-281 | on an ST(e) or TT, an accepted in-range code returns 0 and is then what Getrez reports, with the logical screen moved if asked |
| Screen.HackedSetscreenKeepsMode | bios/screen.c:263-281 | once hacked, no driver's Setscreen changes the resolution or the console |
| Screen.InitServicesFromModeInfo | bios/screen.c:300-308 | the console is re-initialised once with the driver's current mode |
| Screen.Setpalette | bios/screen.c:313-328 | only the pending palette pointer changes, and no register is written |
| Screen.SecondSetpaletteWins | bios/screen.c:326-327 | of two Setpalette calls before a VBL, only the second counts |
| Screen.DoSetPalette | bios/screen.c:340-342 | the VBL load changes only the hardware: on VICKY II the background and LUT 0 take the converted words at the pointer, and on VICKY III nothing changes |
| Screen.SetpaletteThenVblLoad | bios/screen.c:313-342 | on an Atari, Setpalette of an aligned, non-null address followed by the VBL load puts that palette in the sixteen registers |
| Screen.Setcolor | bios/screen.c:352-360 | on a VICKY machine, 0 with no change; on an Atari the old masked value, with the new colour stored |

## Left out

- Interrupts and timing are not modelled. This covers the VBL/HBL handlers and their installation (`setexc`, `a2560_irq_set_handler`), `vsync`, `set_sr`, and the interrupt mask around the DMA-sound loop. The VBL handler itself is not part of this model: `Screen.DoSetPalette` and `Monitor.MonitorTick` are the parts of it that the core defines.
- Collaborators defined outside these files are fields of an environment record (`Env`), as values or functions. They include:
  - `vgetsize`, `vfixmode`, `vsetmode`, `videl_setrez`, `videl_getrez`, `videl_check_moderez` and `videl_get_current_mode_info`;
  - `vmontype`, `nvmaccess` together with `lookup_videl_mode` and `VALID_VDI_BPP` (folded into the Videl boot mode), `Srealloc`, `balloc_stram` and `get_novamembase`;
  - `vicky2_read_video_mode`, `vicky2_get_bitmap_address` and `convert_atari2vicky_color`.
- The bodies of `initialise_falcon_palette` and `initialise_tt_palette` are not part of this model. Their effect is an environment function per register (`ttPaletteReg`, `falconStPaletteReg`, `falconPaletteReg`), from the register's value before the call; their calls are also recorded.
- The bodies of `vicky2_init`, `a2560_sfb_init`, `linea_init` and `vt52_init` are not part of this model. Their calls are recorded in the state, with their arguments and the `vblsem` they ran under.
- Vicky2.Vicky2Init: the register set-up done by `vicky2_init` and `a2560_sfb_init` is not modelled, so the contract promises the mode, bitmap address, background and LUT 0 unchanged only in the model; the real routines may set them.
- Atari.AtariInit: on a TT or Falcon the contract states the palettes through the initialisers' environment functions, not as the default palette; only an ST or STe is promised the default palette.
- The TT's own 256-entry palette is not shadowed; `initialise_tt_palette` is modelled only through its effect on the sixteen ST(e) registers.
- The VICKY III gradient palette loop is not modelled. The mode constant is 4, so the early return always happens.
- The VICKY II register file is reduced to the mode id, the bitmap address, the background colour and LUT 0.
- Stores of `atari_set_palette` past the end of the Falcon palette block are not modelled. These happen with `falcon_shadow_count` above 256 or a negative count. The register sequence has a fixed length.
- AtariPalette.SetPaletteAsWritten: the Falcon case is stated only for a positive `falcon_shadow_count`. With 0 or a negative count the `WORD` countdown covers up to 32769 stores, most of them outside the register block.
- AtariPalette.AtariSetPalette: the Falcon case is stated only for a positive `falcon_shadow_count`, for the same reason.
- Atari.AtariCalcVramSize: the TT size is stated only when `EXTRA_VRAM_SIZE` is at most 64 KiB, and the Videl sizes only when they fit in 32 bits. The other cases wrap, and the function computes the wrap, but the contract does not spell it out.
- Vicky3.PhysbaseAfterSetphys: requires the address register (`VICKY3 + 4`) to differ from the enable register at 0xFC000000. If they coincided, the enable store would overwrite the address.
- Monitor.SecondTickIsQuiet: requires the default shifter mode to be a mode of the chip. A larger `defshiftmod` would be written into the shifter's mode bits truncated.
- Screen.Physbase: on the VICKY III the answer is `None` until the address register has been written. Its power-on contents are unknown.
- The DMA-sound stabilisation loop runs over a finite list of hardware samples. A list with no stable pass stands for a loop that is still spinning (`None`).
- Build options are fixed:
  - the Atari model is a build with Videl, TT, STe, DMA sound and Nova support compiled in, and the platform record says which of them the machine has;
  - the three-row mode table of builds without TT support is not modelled;
  - the other machines' drivers selected in `bios/screen.c` are not part of this model.
- `KDEBUG` output, including the debug-only palette dump in `setpalette`, is not modelled.
- Screen.DoSetPalette: dispatches with the corrected tables and, on an Atari, uses the corrected copy `AtariPalette.AtariSetPalette` (see Findings); the code as written is `AtariPalette.SetPaletteAsWritten`, which misses registers 9 to 15.
- Screen.SetpaletteThenVblLoad: holds for the corrected copy only; as written the load leaves registers 9 to 15. It requires a non-null address because a null `colorptr` asks the VBL for no load at all.
- Screen.Setcolor: on a VICKY machine it is the corrected stub that returns 0.
- Monitor.MonitorTick: uses the corrected `Monitor.Monoflag`; the tick as written is `Monitor.MonitorTickAsWritten` (see Findings).
- The builds without video hardware (the Lisa and others) are not part of this model: all three modelled machines have video hardware, so the `physbase` fall-back to `logbase` and the fake `setcolor` result of `bios/screen.c:229-234` and `bios/screen.c:354-359` are left out.
- The VICKY II palette loop starts at 16-1-1 and never writes LUT entry 15. The model states this as it is (`Vicky2.Vicky2PaletteLoop`). It is not listed as a finding because the code gives no clear sign of what was intended.

## Findings

| source | as written | input that shows it | evidently intended | confidence | as-written member | corrected member |
|---|---|---|---|---|---|---|
| bios/screen_atari.c:784-786 | `*((ULONG*)p++)` on `UWORD*` pointers advances each pointer by one word after copying two, so the eight iterations of an ST(e) load write words 0..8 and never reach registers 9..15 | `colorptr` = 0x1000 with memory holding 0x777 everywhere and registers all 0: register 15 stays 0 | both pointers advance by a whole `ULONG`, loading all sixteen registers (and `2 * falcon_shadow_count` Falcon words) | high; not executed | AtariPalette.SetPaletteAsWritten, AtariPalette.AsWrittenMissesUpperRegisters | AtariPalette.AtariSetPalette, AtariPalette.SetpaletteThenLoad, Screen.DoSetPalette, Screen.SetpaletteThenVblLoad |
| bios/screen_atari.c:530-531 | with DMA sound playing, `monoflag = -monoflag` is meant to undo the hardware XOR of the DMA bit into GPIP bit 7, but negation keeps the sign of 0 and of -128 | DMA sound active and a stable GPIP byte of 0x80 (monochrome line after the XOR): `monoflag` stays -128 and a colour monitor is assumed | invert bit 7 (`monoflag ^= 0x80`), so the sign always flips | medium; not executed | Monitor.MonoflagAsWritten, Monitor.DmaNegationMisreadsMonitor, Monitor.MonitorTickAsWritten, Monitor.TickAsWrittenRestartsOnMono | Monitor.Monoflag, Monitor.FlipMonoBitFlipsSign, Monitor.MonitorTick |
| bios/screen_vicky2.c:151-165 | the VICKY II and VICKY III tables (also bios/screen_vicky3.c:123-137) have 13 initialisers for 14 fields: the palette routine lands in the Setcolor field and the palette field is null | `Setcolor(3, 0x777)` on an A2560 runs the palette routine with 3 as the palette pointer, and the next VBL palette load calls a null pointer | a Setcolor entry (a stub returning 0, as the front end does for builds without video hardware) before the palette routine | high; not executed | DriverTable.AsWrittenTablesAreMisfilled | DriverTable.Vicky2TableIsWellFormed, DriverTable.Vicky3TableIsWellFormed, Screen.Setcolor |
| bios/screen_atari.c:803 | the Atari table's palette field names `screen_vicky2_set_palette` | any Atari build: `screen_vicky2_set_palette` is `static` in bios/screen_vicky2.c:105, a file compiled only for the A2560 and GenX machines (bios/screen_vicky2.c:8), so the Atari table names a routine that does not exist in its build and the build cannot link it | `atari_set_palette`, defined at bios/screen_atari.c:758 and otherwise unused | high; not executed | DriverTable.AsWrittenTablesAreMisfilled | DriverTable.AtariTableIsWellFormed, Screen.DoSetPalette |
