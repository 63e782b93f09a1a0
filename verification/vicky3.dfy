/**
  The screen driver of the Foenix A2560M (VICKY III): one fixed mode,
  1024 x 768 in one plane (mode number 4), and a frame-buffer address the
  chip holds in units of 32-bit words. Register stores are kept as a log of
  32-bit writes, so that their order can be stated, and as the current value
  of each register written.
 */
module Vicky3 {
  import opened Common

  /** The fixed video mode: 1024 x 768, 1 bit per pixel. */
  const MODEREZ: Word := 4

  /** The enable register the driver writes after a new address. */
  const ENABLE_REG: ULong := 0xFC00_0000

  /** One `R32(address) = value` store. */
  datatype RegWrite = RegWrite(addr: ULong, value: ULong)

  /** The registers the driver wrote, with their current values, and the
      stores in the order they were made. */
  datatype Vicky3Regs = Vicky3Regs(regs: map<ULong, ULong>, log: seq<RegWrite>)

  /** One 32-bit register store. */
  function Write(s: Vicky3Regs, addr: ULong, value: ULong): (s': Vicky3Regs)
    ensures s'.regs == s.regs[addr := value]
    ensures s'.log == s.log + [RegWrite(addr, value)]
  {
    Vicky3Regs(s.regs[addr := value], s.log + [RegWrite(addr, value)])
  }

  /** The frame-buffer address register, `VICKY3 + 4`. */
  function AddrReg(env: Env): ULong
  {
    U32(env.vicky3Base + 4)
  }

  /** `init`: switch VICKY II off (0x80) and the VICKY III screen off. */
  function Vicky3Init(env: Env, s: Vicky3Regs): (s': Vicky3Regs)
    ensures s'.log == s.log + [RegWrite(env.vicky2Ctrl, 0x80), RegWrite(env.vicky3Ctrl, 0)]
  {
    Write(Write(s, env.vicky2Ctrl, 0x80), env.vicky3Ctrl, 0)
  }

  /** `get_current_mode_info`: the fixed mode. */
  function Vicky3ModeInfo(): (m: ModeInfo)
    ensures m == ModeInfo(1, 1024, 768)
  {
    ModeInfo(1, 1024, 768)
  }

  /** `calc_vram_size`: `1024/8*768` bytes, with no slack. */
  function Vicky3CalcVramSize(): (n: ULong)
    ensures n == 98304
  {
    1024 / 8 * 768
  }

  /** The size is exactly the packed frame buffer of the mode reported. */
  lemma CalcVramSizeFitsMode()
    ensures Vicky3CalcVramSize() == RawFrameBytes(Vicky3ModeInfo())
  {
  }

  /** `check_moderez`: always the fixed mode. */
  function Vicky3CheckModerez(moderez: Word): (res: Word)
    ensures res == MODEREZ
  {
    MODEREZ
  }

  /** `can_change_resolution`: never. */
  function Vicky3CanChangeResolution(): (ok: bool)
    ensures !ok
  {
    false
  }

  /** `get_monitor_type`: monochrome. */
  function Vicky3MonitorType(env: Env): (m: Word)
    ensures m == env.monMono
  {
    env.monMono
  }

  /** `get_number_of_colors_nuances`: two. */
  function Vicky3ColourCount(): (n: Word)
    ensures n == 2
  {
    2
  }

  /** `initialise_palette_registers`: in the monochrome mode 4 the pixel
      colour register `VICKY3 + 8` is set to white and nothing else is
      written (the gradient loop after the early return is never reached). */
  function Vicky3InitialisePaletteRegisters(env: Env, s: Vicky3Regs, rez: Word, mode: Word): (s': Vicky3Regs)
    ensures s'.log == s.log + [RegWrite(U32(env.vicky3Base + 8), 0xff_ffff)]
  {
    Write(s, U32(env.vicky3Base + 8), 0xff_ffff)
  }

  /** `setphys`: screen off, the address in 32-bit words, then the screen on
      in mode 4 (`1 + (4 << 1)`), in that order. */
  function Vicky3Setphys(env: Env, s: Vicky3Regs, addr: ULong): (s': Vicky3Regs)
    ensures s'.log == s.log + [RegWrite(env.vicky3Base, 0),
                               RegWrite(AddrReg(env), addr / 4),
                               RegWrite(ENABLE_REG, 9)]
  {
    var off := Write(s, env.vicky3Base, 0);
    var placed := Write(off, AddrReg(env), addr / 4);
    Write(placed, ENABLE_REG, 1 + MODEREZ * 2)
  }

  /** `vicky3_physbase`: the address register times four, in 32-bit
      arithmetic; `None` when the driver never wrote the register. */
  function Vicky3Physbase(env: Env, s: Vicky3Regs): (a: Option<ULong>)
    ensures a.Some? <==> AddrReg(env) in s.regs
    ensures a.Some? && s.regs[AddrReg(env)] < 0x4000_0000 ==> a.value == s.regs[AddrReg(env)] * 4
  {
    if AddrReg(env) in s.regs then
      var words: int := s.regs[AddrReg(env)];
      Some(U32(words * 4))
    else None
  }

  /** Setphys then Physbase gives the address rounded down to a multiple of
      four, unless the enable register and the address register coincide. */
  lemma PhysbaseAfterSetphys(env: Env, s: Vicky3Regs, addr: ULong)
    requires AddrReg(env) != ENABLE_REG
    ensures Vicky3Physbase(env, Vicky3Setphys(env, s, addr)) == Some(addr - addr % 4)
  {
  }

  /** The address register is the last word-address store Setphys makes, so
      of two Setphys calls the second one wins. */
  lemma SecondSetphysWins(env: Env, s: Vicky3Regs, a: ULong, b: ULong)
    requires AddrReg(env) != ENABLE_REG
    ensures Vicky3Physbase(env, Vicky3Setphys(env, Vicky3Setphys(env, s, a), b)) == Some(b - b % 4)
  {
  }

  /** The last store of Setphys switches the screen on (bit 0) in the mode
      (the bits above it) that `check_moderez` and Setscreen report. */
  lemma SetphysEnablesReportedMode(env: Env, s: Vicky3Regs, addr: ULong, moderez: Word)
    ensures var s' := Vicky3Setphys(env, s, addr);
            var last := s'.log[|s'.log| - 1];
            && last.addr == ENABLE_REG && last.value % 2 == 1
            && last.value / 2 == Vicky3CheckModerez(moderez)
  {
  }

  /** `vicky3_setscreen`: returns the fixed mode and changes nothing, not
      even the screen addresses. */
  function Vicky3Setscreen(g: Globals, s: Vicky3Regs, logical: ULong, physical: ULong, rez: Word, videlmode: Word)
    : (res: (Word, Globals, Vicky3Regs))
    ensures res == (MODEREZ, g, s)
  {
    (MODEREZ, g, s)
  }

  /** `set_palette`: not implemented, changes nothing. */
  function Vicky3SetPalette(s: Vicky3Regs, colorptr: ULong): (s': Vicky3Regs)
    ensures s' == s
  {
    s
  }
}
