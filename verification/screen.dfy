/**
  The generic screen layer: the start-up sequence, the hacked-resolution
  flag, and the XBIOS screen calls, each dispatched to the driver of the
  machine the system was built for (Atari shifter or Videl, VICKY II, or
  VICKY III). The drivers are dispatched with the corrected driver tables:
  every field holds the routine written for it.
 */
module Screen {
  import opened Common
  import Services
  import Atari
  import AtariPalette
  import Vicky2
  import Vicky3

  /** The video hardware of the machine, with its driver's shadow state. */
  datatype Hardware =
    | AtariHw(p: Atari.Platform, r: Atari.AtariRegs)
    | Vicky2Hw(v: Vicky2.Vicky2Regs)
    | Vicky3Hw(s: Vicky3.Vicky3Regs)

  /** The screen layer's variables together with the hardware. */
  datatype Screen = Screen(g: Globals, hw: Hardware)
  {
    predicate Valid()
    {
      match hw
      case AtariHw(_, r) => r.Valid()
      case Vicky2Hw(v) => v.Valid()
      case Vicky3Hw(_) => true
    }
  }

  // ---------------------------------------------------------------------
  // Dispatch of the driver routines

  /** `screen_driver.init()`. */
  function DriverInit(env: Env, st: Screen, gpip: Byte): (st': Screen)
    requires st.Valid()
    ensures st'.Valid()
    ensures st'.hw.AtariHw? <==> st.hw.AtariHw?
    ensures st'.hw.Vicky3Hw? <==> st.hw.Vicky3Hw?
    ensures st'.g.vBasAd == st.g.vBasAd && st'.g.rezWasHacked == st.g.rezWasHacked
    ensures st.hw.AtariHw? ==> st'.hw.p == st.hw.p
  {
    match st.hw
    case AtariHw(p, r) =>
      var (g', r') := Atari.AtariInit(env, p, st.g, r, gpip);
      Screen(g', AtariHw(p, r'))
    case Vicky2Hw(v) =>
      var (g', v') := Vicky2.Vicky2Init(env, st.g, v);
      Screen(g', Vicky2Hw(v'))
    case Vicky3Hw(s) => st.(hw := Vicky3Hw(Vicky3.Vicky3Init(env, s)))
  }

  /** `calc_vram_size()`: the frame buffer the driver asks for holds its
      current mode: exactly on a VICKY III, with room to spare on a shifter
      and (for up to 8 bits per pixel) on a VICKY II; at least the mode size
      the Videl collaborator gives on a Falcon. */
  function CalcVramSize(env: Env, st: Screen): (n: ULong)
    ensures st.hw.Vicky3Hw? ==> n == RawFrameBytes(ModeInfo(env, st))
    ensures st.hw.AtariHw? && st.hw.p.variant != Atari.Videl && env.extraVramSize <= 0x1_0000 ==>
              n >= RawFrameBytes(ModeInfo(env, st))
    ensures st.hw.Vicky2Hw? && ModeInfo(env, st).planes <= 8
            && ModeInfo(env, st).width * ModeInfo(env, st).height + env.extraVramSize < 0x1_0000_0000 ==>
              n >= RawFrameBytes(ModeInfo(env, st))
    ensures st.hw.AtariHw? && st.hw.p.variant == Atari.Videl
            && env.vgetsize(st.hw.r.videlMode) + env.extraVramSize < 0x1_0000_0000
            && env.falconVramSize + env.extraVramSize < 0x1_0000_0000 ==>
              n >= env.vgetsize(st.hw.r.videlMode) + env.extraVramSize
  {
    match st.hw
    case AtariHw(p, r) => Atari.AtariCalcVramSize(env, p, st.g, r)
    case Vicky2Hw(v) =>
      Vicky2.FrameFitsMode(env, v);
      Vicky2.Vicky2CalcVramSize(env, v)
    case Vicky3Hw(_) =>
      Vicky3.CalcVramSizeFitsMode();
      Vicky3.Vicky3CalcVramSize()
  }

  /** `screen_driver.get_current_mode_info()`: a row of the shifter mode
      table, the Videl or VICKY II collaborator's mode, or the fixed
      1024x768 monochrome mode of the VICKY III. */
  function ModeInfo(env: Env, st: Screen): (m: Common.ModeInfo)
    ensures st.hw.AtariHw? && st.hw.p.variant != Atari.Videl ==> m == Atari.VmodeTable[st.g.sshiftmod % 8]
    ensures st.hw.AtariHw? && st.hw.p.variant == Atari.Videl ==> m == env.videlModeInfo(st.hw.r.videlMode)
    ensures st.hw.Vicky2Hw? ==> m == env.vicky2ModeInfo(st.hw.v.modeId)
    ensures st.hw.Vicky3Hw? ==> m == Common.ModeInfo(1, 1024, 768)
  {
    match st.hw
    case AtariHw(p, r) => Atari.AtariModeInfo(env, p, st.g, r)
    case Vicky2Hw(v) => Vicky2.Vicky2ModeInfo(env, v)
    case Vicky3Hw(_) => Vicky3.Vicky3ModeInfo()
  }

  /** `screen_setphys()`: point the hardware at a frame buffer. */
  function Setphys(env: Env, st: Screen, addr: ULong): (st': Screen)
    requires st.Valid()
    ensures st'.Valid() && st'.g == st.g
  {
    match st.hw
    case AtariHw(p, r) => st.(hw := AtariHw(p, Atari.AtariSetphys(p, r, addr)))
    case Vicky2Hw(v) => st.(hw := Vicky2Hw(Vicky2.Vicky2Setphys(v, addr)))
    case Vicky3Hw(s) => st.(hw := Vicky3Hw(Vicky3.Vicky3Setphys(env, s, addr)))
  }

  /** `logbase()`: the logical screen is `v_bas_ad`, whatever the hardware
      displays. */
  function Logbase(st: Screen): (a: ULong)
    ensures a == st.g.vBasAd
  {
    st.g.vBasAd
  }

  /** `physbase()`: the address the hardware displays. `None` when the
      VICKY III address register has not been written since reset and its
      contents are not known. */
  function Physbase(env: Env, st: Screen): (a: Option<ULong>)
    ensures !st.hw.Vicky3Hw? ==> a.Some?
    ensures st.hw.AtariHw? ==> a.value == Atari.AtariPhysbase(env, st.hw.p, st.g.rezWasHacked, st.hw.r)
  {
    match st.hw
    case AtariHw(p, r) => Some(Atari.AtariPhysbase(env, p, st.g.rezWasHacked, r))
    case Vicky2Hw(v) => Some(Vicky2.Vicky2Physbase(env, v))
    case Vicky3Hw(s) => Vicky3.Vicky3Physbase(env, s)
  }

  // ---------------------------------------------------------------------
  // Start-up

  /** `setup_video_ram`: a configured frame buffer address is taken as it
      is (with an unspecified size); otherwise the driver's size is
      allocated at the top of ST RAM. The logical screen starts on it. */
  function SetupVideoRam(env: Env, st: Screen): (st': Screen)
    ensures st'.hw == st.hw
    ensures st'.g == st.g.(videoRamAddr := st'.g.videoRamAddr, videoRamSize := st'.g.videoRamSize,
                           vBasAd := st'.g.vBasAd)
    ensures st'.g.vBasAd == st'.g.videoRamAddr
    ensures env.confVramAddress.Some? ==>
              st'.g.videoRamAddr == env.confVramAddress.value
              && st'.g.videoRamSize == env.videoRamSizeUnspecified
    ensures env.confVramAddress.None? ==>
              st'.g.videoRamSize == CalcVramSize(env, st)
              && st'.g.videoRamAddr == env.ballocStram(CalcVramSize(env, st))
  {
    var (size, addr) :=
      if env.confVramAddress.Some? then (env.videoRamSizeUnspecified, env.confVramAddress.value)
      else var n := CalcVramSize(env, st); (n as int, env.ballocStram(n));
    st.(g := st.g.(videoRamSize := size, videoRamAddr := addr, vBasAd := addr))
  }

  /** `screen_init`: the driver's start-up, the hacked flag cleared, the
      frame buffer set up, and the hardware pointed at it. */
  function ScreenInit(env: Env, st: Screen, gpip: Byte): (st': Screen)
    requires st.Valid()
    ensures st'.Valid()
    ensures !st'.g.rezWasHacked
    ensures Logbase(st') == st'.g.videoRamAddr
  {
    var booted := DriverInit(env, st, gpip);
    var ready := SetupVideoRam(env, booted.(g := booted.g.(rezWasHacked := false)));
    Setphys(env, ready, ready.g.videoRamAddr)
  }

  /** After start-up the logical screen is the frame buffer, and the
      hardware displays it: all 24 address bits an enhanced Atari chip
      keeps, all but the low byte on a plain ST, the word-aligned address on
      a VICKY III. */
  lemma ScreenInitShowsVideoRam(env: Env, st: Screen, gpip: Byte)
    requires st.Valid()
    ensures var st' := ScreenInit(env, st, gpip);
            var addr := st'.g.videoRamAddr;
            && Logbase(st') == addr
            && (st.hw.AtariHw? && st.hw.p.Enhanced() ==>
                  Physbase(env, st') == Some(addr % 0x100_0000))
            && (st.hw.AtariHw? && !st.hw.p.Enhanced() ==>
                  Physbase(env, st') == Some(addr % 0x100_0000 - addr % 0x100))
            && (st.hw.Vicky3Hw? && Vicky3.AddrReg(env) != Vicky3.ENABLE_REG ==>
                  Physbase(env, st') == Some(addr - addr % 4))
  {
    var booted := DriverInit(env, st, gpip);
    var ready := SetupVideoRam(env, booted.(g := booted.g.(rezWasHacked := false)));
    var addr := ready.g.videoRamAddr;
    match ready.hw {
      case AtariHw(p, r) =>
        if p.Enhanced() {
          Atari.PhysbaseAfterSetphys(env, p, false, r, addr);
        } else {
          Atari.PlainStPhysbaseAfterSetphys(env, p, false, r, addr);
        }
      case Vicky2Hw(_) =>
      case Vicky3Hw(s) =>
        if Vicky3.AddrReg(env) != Vicky3.ENABLE_REG {
          Vicky3.PhysbaseAfterSetphys(env, s, addr);
        }
    }
  }

  /** Without a configured address, the frame buffer is exactly the size
      the driver asks for in the boot mode. */
  lemma ScreenInitAllocatesDriverSize(env: Env, st: Screen, gpip: Byte)
    requires st.Valid() && env.confVramAddress.None?
    ensures var booted := DriverInit(env, st, gpip).(g := DriverInit(env, st, gpip).g.(rezWasHacked := false));
            var st' := ScreenInit(env, st, gpip);
            && st'.g.videoRamSize == CalcVramSize(env, booted)
            && st'.g.videoRamAddr == env.ballocStram(CalcVramSize(env, booted))
  {
  }

  // ---------------------------------------------------------------------
  // The hacked-resolution flag and the capability queries

  /** `screen_set_rez_hacked`: another party (the Nova adapter, an extended
      VDI) owns the screen; the console is re-initialised with the line-A
      geometry found. */
  function SetRezHacked(st: Screen): (st': Screen)
    ensures st'.g.rezWasHacked
    ensures st'.hw == st.hw
    ensures |st'.g.consoleInits| == |st.g.consoleInits| + 1
    ensures st'.g.consoleInits[|st.g.consoleInits|].mode == st.g.lineA
  {
    var g := st.g.(rezWasHacked := true);
    st.(g := Services.InitServices(g, g.lineA))
  }

  /** `screen_can_change_resolution`: never once hacked, else the driver's answer. */
  function CanChangeResolution(env: Env, st: Screen): (ok: bool)
    ensures st.g.rezWasHacked ==> !ok
    ensures ok ==> st.hw.AtariHw?
  {
    if st.g.rezWasHacked then false
    else
      match st.hw
      case AtariHw(p, r) => Atari.AtariCanChangeResolution(env, p, st.g.rezWasHacked, r)
      case Vicky2Hw(_) => Vicky2.Vicky2CanChangeResolution()
      case Vicky3Hw(_) => Vicky3.Vicky3CanChangeResolution()
  }

  /** The driver's own `check_moderez`: the Atari driver's answer, 0 on a
      VICKY II, and the fixed mode on a VICKY III. */
  function DriverCheckModerez(env: Env, st: Screen, moderez: Word): (res: Word)
    ensures st.hw.AtariHw? ==> res == Atari.AtariCheckModerez(env, st.hw.p, st.hw.r, moderez)
    ensures st.hw.Vicky2Hw? ==> res == 0
    ensures st.hw.Vicky3Hw? ==> res == Vicky3.MODEREZ
  {
    match st.hw
    case AtariHw(p, r) => Atari.AtariCheckModerez(env, p, r, moderez)
    case Vicky2Hw(_) => Vicky2.Vicky2CheckModerez(moderez)
    case Vicky3Hw(_) => Vicky3.Vicky3CheckModerez(moderez)
  }

  /** `check_moderez`: 0 ("no change") unless the resolution can change. */
  function CheckModerez(env: Env, st: Screen, moderez: Word): (res: Word)
    ensures !CanChangeResolution(env, st) ==> res == 0
    ensures CanChangeResolution(env, st) ==> res == DriverCheckModerez(env, st, moderez)
  {
    if !CanChangeResolution(env, st) then 0 else DriverCheckModerez(env, st, moderez)
  }

  /** The VICKY drivers never ask for a change of mode, although the VICKY III
      driver's own `check_moderez` names its fixed mode: the capability gate
      turns that into 0. */
  lemma VickyNeverChangesMode(env: Env, st: Screen, moderez: Word)
    requires !st.hw.AtariHw?
    ensures CheckModerez(env, st, moderez) == 0
    ensures st.hw.Vicky3Hw? ==> DriverCheckModerez(env, st, moderez) == Vicky3.MODEREZ
  {
  }

  /** Once hacked, the resolution cannot change and no mode change is
      proposed, until the next start-up clears the flag. */
  lemma HackedFreezesResolution(env: Env, st: Screen, moderez: Word, gpip: Byte)
    requires st.Valid()
    ensures !CanChangeResolution(env, SetRezHacked(st))
    ensures CheckModerez(env, SetRezHacked(st), moderez) == 0
    ensures !ScreenInit(env, SetRezHacked(st), gpip).g.rezWasHacked
  {
  }

  /** `initialise_palette_registers`. */
  function InitialisePaletteRegisters(env: Env, st: Screen, rez: Word, mode: Word): (st': Screen)
    requires st.Valid()
    ensures st'.Valid() && st'.g == st.g
    ensures st.hw.AtariHw? ==>
              && st'.hw.AtariHw? && st'.hw.p == st.hw.p
              && Atari.PaletteInitialised(env, st.hw.p, st.hw.r, st'.hw.r, rez, mode)
              && (st.hw.p.variant == Atari.PlainSt || st.hw.p.variant == Atari.Ste ==>
                    st'.hw.r.palette == Atari.InitialPalette(st.hw.p, rez))
    ensures st.hw.Vicky2Hw? ==> st' == st
  {
    match st.hw
    case AtariHw(p, r) => st.(hw := AtariHw(p, Atari.InitialisePaletteRegistersAtari(env, p, r, rez, mode)))
    case Vicky2Hw(v) => st.(hw := Vicky2Hw(Vicky2.Vicky2InitialisePaletteRegisters(v, rez, mode)))
    case Vicky3Hw(s) => st.(hw := Vicky3Hw(Vicky3.Vicky3InitialisePaletteRegisters(env, s, rez, mode)))
  }

  /** `get_monitor_type`, with the MFP GPIP register value as read. */
  function MonitorType(env: Env, st: Screen, gpip: Byte): (m: Word)
    ensures st.hw.Vicky2Hw? ==> m == env.monVga
    ensures st.hw.Vicky3Hw? ==> m == env.monMono
  {
    match st.hw
    case AtariHw(p, _) => Atari.AtariMonitorType(env, p, gpip)
    case Vicky2Hw(_) => Vicky2.Vicky2MonitorType(env)
    case Vicky3Hw(_) => Vicky3.Vicky3MonitorType(env)
  }

  /** `get_palette`: the number of colour choices, 0 meaning more than a
      WORD can say. */
  function GetPalette(env: Env, st: Screen): (n: Word)
    ensures n == 0 || n == 2 || n == 512 || n == 4096
  {
    match st.hw
    case AtariHw(p, r) => Atari.AtariColourCount(env, p, st.g, r)
    case Vicky2Hw(_) => Vicky2.Vicky2ColourCount()
    case Vicky3Hw(_) => Vicky3.Vicky3ColourCount()
  }

  /** `get_pixel_size`: the VICKY drivers use the standard rule. */
  function PixelSize(st: Screen): (size: (int, int))
    ensures !st.hw.AtariHw? ==> size == Services.StdPixelSize(st.g.lineA)
  {
    match st.hw
    case AtariHw(p, _) => Atari.AtariPixelSize(p, st.g.lineA)
    case _ => Services.StdPixelSize(st.g.lineA)
  }

  // ---------------------------------------------------------------------
  // XBIOS calls

  /** `getrez()`: the Atari hardware's resolution; without Atari video, the
      software copy `sshiftmod`. */
  function Getrez(env: Env, st: Screen): (rez: Word)
    ensures !st.hw.AtariHw? ==> rez == st.g.sshiftmod
  {
    match st.hw
    case AtariHw(p, r) => Atari.AtariGetrez(env, p, r)
    case _ => st.g.sshiftmod
  }

  /** `setscreen()`: the driver's Setscreen. */
  function Setscreen(env: Env, st: Screen, logLoc: ULong, physLoc: ULong, rez: Word, videlmode: Word)
    : (res: (Word, Screen))
    ensures res.1.hw.AtariHw? <==> st.hw.AtariHw?
    ensures res.1.hw.Vicky3Hw? <==> st.hw.Vicky3Hw?
    ensures st.hw.AtariHw? ==> res.1.hw.p == st.hw.p
    ensures st.hw.Vicky3Hw? ==> res == (Vicky3.MODEREZ, st)
  {
    match st.hw
    case AtariHw(p, r) =>
      var o := Atari.AtariSetscreen(env, p, st.g, r, logLoc, physLoc, rez, videlmode);
      (o.ret, Screen(o.g, AtariHw(p, o.r)))
    case Vicky2Hw(v) =>
      var o := Vicky2.Vicky2Setscreen(env, st.g, v, logLoc, physLoc, rez, videlmode);
      (o.ret, Screen(o.g, Vicky2Hw(o.v)))
    case Vicky3Hw(s) =>
      var (ret, g', s') := Vicky3.Vicky3Setscreen(st.g, s, logLoc, physLoc, rez, videlmode);
      (ret, Screen(g', Vicky3Hw(s')))
  }

  /** On an ST(e) or TT, a Setscreen with a resolution code the chip takes
      and the range allows changes the resolution `Getrez` reports to that
      code, and the logical screen to the address given, if any. */
  lemma SetscreenThenGetrez(env: Env, st: Screen, logLoc: ULong, physLoc: ULong, rez: Word, videlmode: Word)
    requires st.hw.AtariHw? && st.hw.p.variant != Atari.Videl && !st.g.rezWasHacked
    requires rez != -1 && env.minRez <= rez <= env.maxRez && Atari.SetrezAccepts(env, st.hw.p, rez)
    requires 0 <= rez < (if st.hw.p.variant == Atari.Tt then 8 else 4)
    ensures var (ret, st') := Setscreen(env, st, logLoc, physLoc, rez, videlmode);
            && ret == 0 && Getrez(env, st') == rez
            && (PositiveLong(logLoc) ==> Logbase(st') == logLoc)
  {
    var p := st.hw.p;
    var (g1, r1) := Atari.StoreAddresses(p, st.g, st.hw.r, logLoc, physLoc);
    Atari.GetrezAfterSetrez(env, p, g1, r1, rez, videlmode);
  }

  /** Once hacked, Setscreen on any driver changes neither the resolution
      nor the console, and answers 0 (the fixed mode on a VICKY III). */
  lemma HackedSetscreenKeepsMode(env: Env, st: Screen, logLoc: ULong, physLoc: ULong, rez: Word, videlmode: Word)
    requires st.g.rezWasHacked
    ensures var (ret, st') := Setscreen(env, st, logLoc, physLoc, rez, videlmode);
            && ret == (if st.hw.Vicky3Hw? then Vicky3.MODEREZ else 0)
            && st'.g.consoleInits == st.g.consoleInits
            && st'.g.sshiftmod == st.g.sshiftmod
            && st'.g.rezWasHacked
  {
    if st.hw.AtariHw? {
      Atari.HackedSetscreenOnlyStoresAddresses(env, st.hw.p, st.g, st.hw.r, logLoc, physLoc, rez, videlmode);
    }
  }

  /** `screen_init_services_from_mode_info`: the console re-initialised with
      the driver's current mode. */
  function InitServicesFromModeInfo(env: Env, st: Screen): (st': Screen)
    ensures st'.hw == st.hw
    ensures |st'.g.consoleInits| == |st.g.consoleInits| + 1
    ensures st'.g.consoleInits[|st.g.consoleInits|].mode == ModeInfo(env, st)
    ensures st'.g.vblsem == st.g.vblsem
  {
    st.(g := Services.InitServices(st.g, ModeInfo(env, st)))
  }

  /** `setpalette()`: the palette is only recorded for the next VBL; no
      register changes now. */
  function Setpalette(st: Screen, palettePtr: ULong): (st': Screen)
    ensures st'.hw == st.hw
    ensures st'.g == st.g.(colorptr := palettePtr)
  {
    st.(g := st.g.(colorptr := palettePtr))
  }

  /** Of two Setpalette calls before a VBL, only the second is loaded. */
  lemma SecondSetpaletteWins(st: Screen, a: ULong, b: ULong)
    ensures Setpalette(Setpalette(st, a), b) == Setpalette(st, b)
  {
  }

  /** `screen_do_set_palette`: the palette load the VBL handler performs. */
  function DoSetPalette(env: Env, st: Screen, newPalette: ULong, mem: int -> UWord): (st': Screen)
    requires st.Valid()
    ensures st'.Valid() && st'.g == st.g
    ensures st.hw.Vicky3Hw? ==> st' == st
    ensures st.hw.Vicky2Hw? ==>
              && st'.hw.Vicky2Hw?
              && st'.hw.v.background == env.vicky2Color(mem(newPalette))
              && forall k :: 0 <= k < 15 ==> st'.hw.v.lut0[k] == env.vicky2Color(mem(U32(newPalette + 2 * k)))
  {
    match st.hw
    case AtariHw(p, r) => st.(hw := AtariHw(p, AtariPalette.AtariSetPalette(env, r, newPalette, mem)))
    case Vicky2Hw(v) =>
      var words := AtariPalette.SourceWords(mem, newPalette);
      assert words(0) == mem(newPalette);
      st.(hw := Vicky2Hw(Vicky2.Vicky2SetPalette(env, v, words)))
    case Vicky3Hw(s) => st.(hw := Vicky3Hw(Vicky3.Vicky3SetPalette(s, newPalette)))
  }

  /** On an Atari, Setpalette of a word-aligned, non-null ST(e) palette
      followed by the VBL load puts that palette in the sixteen registers.
      (A null `colorptr` asks the VBL for nothing, so no load follows it.) */
  lemma SetpaletteThenVblLoad(env: Env, st: Screen, addr: ULong, mem: int -> UWord)
    requires st.Valid() && st.hw.AtariHw? && addr % 2 == 0 && addr != 0
    ensures var queued := Setpalette(st, addr);
            var loaded := DoSetPalette(env, queued, queued.g.colorptr, mem);
            forall k :: 0 <= k < 16 ==> loaded.hw.r.palette[k] == mem(U32(addr + 2 * k))
  {
    AtariPalette.SetpaletteThenLoad(env, st.hw.r, addr, mem);
    AtariPalette.ColorptrRoundTrip(AtariPalette.PaletteSource(addr, false), 0);
  }

  /** `setcolor()`: the Atari driver's Setcolor; on the VICKY machines
      (whose Setcolor entry is a stub), 0 with no change. */
  function Setcolor(st: Screen, colorNum: Word, color: Word): (res: (Word, Screen))
    requires st.Valid()
    ensures res.1.Valid()
    ensures !st.hw.AtariHw? ==> res == (0, st)
    ensures st.hw.AtariHw? ==>
              && res.1.g == st.g && res.1.hw.AtariHw? && res.1.hw.p == st.hw.p
              && res.0 == Atari.ImplementedBits(st.hw.p, st.hw.r.palette[colorNum % 16])
              && (color >= 0 ==> res.1.hw.r.palette[colorNum % 16] == color)
  {
    match st.hw
    case AtariHw(p, r) =>
      var (previous, r') := Atari.AtariSetcolor(p, r, colorNum, color);
      (previous, st.(hw := AtariHw(p, r')))
    case _ => (0, st)
  }
}
