/**
  The screen driver of the Foenix A2560U/K/X and GenX (VICKY II): a fixed
  set of capabilities, a frame buffer sized from the current video mode, the
  Setscreen guard sequence, and the palette loaded into look-up table 0.
  The VICKY II register helpers (`vicky2_*`) are collaborators: the mode
  table and the colour conversion come from the environment.
 */
module Vicky2 {
  import opened Common
  import Services

  /** A set-up routine whose body is outside this model. */
  datatype SetupRoutine = VickyInit | ShadowFramebufferInit

  /** One call of a set-up routine, with the `vblsem` it ran under. */
  datatype SetupCall = SetupCall(routine: SetupRoutine, vblsemDuring: Word)

  /** Shadow of the VICKY II state the driver touches. */
  datatype Vicky2Regs = Vicky2Regs(
    modeId: Word,          // the current video mode (vicky2_set_video_mode)
    bitmapAddr: ULong,     // bitmap 0 address, relative to VRAM bank 0
    background: ULong,     // VICKY_B_BG_COLOR
    lut0: seq<ULong>,      // colour look-up table 0
    setupCalls: seq<SetupCall>)  // calls of vicky2_init and a2560_sfb_init
  {
    predicate Valid()
    {
      |lut0| == 256
    }
  }

  /** `screen_vicky2_screen_init`: `vicky2_init` runs first, with VBL
      processing as it was; then VBL processing is disabled, and the shadow
      frame buffer, when configured, is set up with it disabled. */
  function Vicky2Init(env: Env, g: Globals, v: Vicky2Regs): (res: (Globals, Vicky2Regs))
    ensures res.0 == g.(vblsem := 0)
    ensures res.1 == v.(setupCalls := res.1.setupCalls)
    ensures |res.1.setupCalls| == |v.setupCalls| + (if env.a2560ShadowFb then 2 else 1)
    ensures res.1.setupCalls[..|v.setupCalls|] == v.setupCalls
    ensures res.1.setupCalls[|v.setupCalls|] == SetupCall(VickyInit, g.vblsem)
    ensures forall i :: |v.setupCalls| < i < |res.1.setupCalls| ==>
              res.1.setupCalls[i] == SetupCall(ShadowFramebufferInit, res.0.vblsem)
  {
    var first := [SetupCall(VickyInit, g.vblsem)];
    var g' := g.(vblsem := 0);
    var later := if env.a2560ShadowFb then [SetupCall(ShadowFramebufferInit, g'.vblsem)] else [];
    (g', v.(setupCalls := v.setupCalls + first + later))
  }

  /** `screen_vicky2_get_current_mode_info`: bits per pixel, width, height
      of the current mode, as the mode table gives them. */
  function Vicky2ModeInfo(env: Env, v: Vicky2Regs): (m: ModeInfo)
    ensures m == env.vicky2ModeInfo(v.modeId)
  {
    env.vicky2ModeInfo(v.modeId)
  }

  /** `screen_vicky2_calc_vram_size`: one byte per pixel plus the slack, in
      32-bit arithmetic, whatever the bits per pixel of the mode. */
  function Vicky2CalcVramSize(env: Env, v: Vicky2Regs): (n: ULong)
    ensures var m := Vicky2ModeInfo(env, v);
            m.width * m.height + env.extraVramSize < 0x1_0000_0000 ==>
              n == m.width * m.height + env.extraVramSize
  {
    var m := Vicky2ModeInfo(env, v);
    U32(m.width * m.height + env.extraVramSize)
  }

  /** Two modes of the same geometry need the same frame buffer, whatever
      their depth. */
  lemma CalcVramSizeIgnoresDepth(env: Env, v: Vicky2Regs, w: Vicky2Regs)
    requires Vicky2ModeInfo(env, v).width == Vicky2ModeInfo(env, w).width
    requires Vicky2ModeInfo(env, v).height == Vicky2ModeInfo(env, w).height
    ensures Vicky2CalcVramSize(env, v) == Vicky2CalcVramSize(env, w)
  {
  }

  /** With at most 8 bits per pixel, one byte per pixel holds the packed
      planes of the mode, so the frame buffer fits the current mode. */
  lemma FrameFitsMode(env: Env, v: Vicky2Regs)
    ensures var m := Vicky2ModeInfo(env, v);
            m.planes <= 8 && m.width * m.height + env.extraVramSize < 0x1_0000_0000 ==>
              Vicky2CalcVramSize(env, v) >= RawFrameBytes(m)
  {
    var m := Vicky2ModeInfo(env, v);
    if m.planes <= 8 && m.width * m.height + env.extraVramSize < 0x1_0000_0000 {
      var row := m.width / 8 * m.planes;
      assert row <= m.width by {
        MulMonotone(m.planes, 8, m.width / 8);
      }
      MulMonotone(row, m.width, m.height);
    }
  }

  /** Multiplying by the same natural number keeps the order. */
  lemma MulMonotone(a: nat, b: nat, c: nat)
    requires a <= b
    ensures a * c <= b * c
  {
  }

  /** `screen_vicky2_physbase`: bitmap 0 inside VRAM bank 0. */
  function Vicky2Physbase(env: Env, v: Vicky2Regs): (a: ULong)
    ensures v.bitmapAddr + env.vramBank0 < 0x1_0000_0000 ==> a == v.bitmapAddr + env.vramBank0
  {
    U32(v.bitmapAddr + env.vramBank0)
  }

  /** `screen_vicky2_setphys`: does nothing. */
  function Vicky2Setphys(v: Vicky2Regs, addr: ULong): (v': Vicky2Regs)
    ensures v' == v
  {
    v
  }

  /** The physical base does not depend on any earlier Setphys call. */
  lemma PhysbaseIgnoresSetphys(env: Env, v: Vicky2Regs, addr: ULong)
    ensures Vicky2Physbase(env, Vicky2Setphys(v, addr)) == Vicky2Physbase(env, v)
  {
  }

  /** The constant capabilities: `check_moderez` 0, no resolution change,
      a VGA monitor, and 0 ("more than a WORD can say") colours. */
  function Vicky2CheckModerez(moderez: Word): (res: Word)
    ensures res == 0
  {
    0
  }

  function Vicky2CanChangeResolution(): (ok: bool)
    ensures !ok
  {
    false
  }

  function Vicky2MonitorType(env: Env): (m: Word)
    ensures m == env.monVga
  {
    env.monVga
  }

  function Vicky2ColourCount(): (n: Word)
    ensures n == 0
  {
    0
  }

  /** `screen_vicky2_initialise_palette_registers`: does nothing. */
  function Vicky2InitialisePaletteRegisters(v: Vicky2Regs, rez: Word, mode: Word): (v': Vicky2Regs)
    ensures v' == v
  {
    v
  }

  /** `screen_vicky2_setrez`: only a Falcon mode request changes the video
      mode; every other resolution is ignored. */
  function Vicky2Setrez(env: Env, v: Vicky2Regs, rez: Word, mode: Word): (v': Vicky2Regs)
    ensures rez != env.falconRez ==> v' == v
    ensures rez == env.falconRez ==> v' == v.(modeId := mode)
  {
    if rez != env.falconRez then v else v.(modeId := mode)
  }

  /** The look-up table entries the palette loop has written after the
      iterations for `i` down to `from`: `new_palette[i]` converted. */
  function LutAfter(env: Env, lut: seq<ULong>, pal: nat -> UWord, from: nat): (r: seq<ULong>)
    requires |lut| == 256
    ensures |r| == 256
    ensures forall k :: 0 <= k < 256 ==>
              r[k] == (if from <= k <= 14 then env.vicky2Color(pal(k)) else lut[k])
  {
    seq(256, k requires 0 <= k < 256 => LutEntry(env, lut, pal, from, k))
  }

  function LutEntry(env: Env, lut: seq<ULong>, pal: nat -> UWord, from: nat, k: nat): ULong
    requires k < |lut|
  {
    if from <= k <= 14 then env.vicky2Color(pal(k)) else lut[k]
  }

  /** The loop of `screen_vicky2_set_palette`, run as the C code runs it:
      `i` starts at 16-1-1 and the body runs while `--i >= 0`. */
  method Vicky2PaletteLoop(env: Env, lut: seq<ULong>, pal: nat -> UWord) returns (r: seq<ULong>)
    requires |lut| == 256
    ensures |r| == 256
    ensures forall k :: 0 <= k < 15 ==> r[k] == env.vicky2Color(pal(k))
    ensures forall k :: 15 <= k < 256 ==> r[k] == lut[k]
  {
    var i: Word := 16 - 1 - 1;
    r := lut[i := env.vicky2Color(pal(i))];
    i := i - 1;
    while i >= 0
      invariant -1 <= i <= 13
      invariant r == LutAfter(env, lut, pal, i + 1)
      decreases i
    {
      r := r[i := env.vicky2Color(pal(i))];
      i := i - 1;
    }
  }

  /** `screen_vicky2_set_palette`: entry 0 also becomes the background
      colour; LUT 0 entries 0 to 14 take the converted palette entries, and
      entry 15 is never written. */
  function Vicky2SetPalette(env: Env, v: Vicky2Regs, pal: nat -> UWord): (v': Vicky2Regs)
    requires v.Valid()
    ensures v'.Valid()
    ensures v'.modeId == v.modeId && v'.bitmapAddr == v.bitmapAddr
    ensures v'.background == env.vicky2Color(pal(0))
    ensures forall k :: 0 <= k < 15 ==> v'.lut0[k] == env.vicky2Color(pal(k))
    ensures forall k :: 15 <= k < 256 ==> v'.lut0[k] == v.lut0[k]
  {
    v.(background := env.vicky2Color(pal(0)), lut0 := LutAfter(env, v.lut0, pal, 0))
  }

  /** Result of a Setscreen call: the returned WORD and the new state. */
  datatype Outcome = Outcome(ret: Word, g: Globals, v: Vicky2Regs)

  /** `screen_vicky2_setscreen`: the same address-then-guard sequence as the
      Atari driver (Setphys being a no-op, only the logical address is
      stored); -1 for a resolution out of range, 0 in every other case. */
  function Vicky2Setscreen(env: Env, g: Globals, v: Vicky2Regs,
                           logical: ULong, physical: ULong, rez: Word, videlmode: Word): (o: Outcome)
    ensures o.ret == -1 <==> !g.rezWasHacked && rez != -1 && !(env.minRez <= rez <= env.maxRez)
    ensures o.ret == 0 || o.ret == -1
    ensures o.g.vBasAd == (if PositiveLong(logical) then logical else g.vBasAd)
    ensures g.rezWasHacked || rez == -1 || !(env.minRez <= rez <= env.maxRez) ==>
              o.v == v && o.g.consoleInits == g.consoleInits
    ensures !g.rezWasHacked && rez != -1 && env.minRez <= rez <= env.maxRez ==>
              && o.v == Vicky2Setrez(env, v, rez, videlmode)
              && |o.g.consoleInits| == |g.consoleInits| + 1
              && o.g.consoleInits[|g.consoleInits|].mode == Vicky2ModeInfo(env, o.v)
              && o.g.vblsem == g.vblsem
  {
    var g1 := if PositiveLong(logical) then g.(vBasAd := logical) else g;
    var v1 := if PositiveLong(physical) then Vicky2Setphys(v, physical) else v;
    if g1.rezWasHacked || rez == -1 then Outcome(0, g1, v1)
    else if rez < env.minRez || rez > env.maxRez then Outcome(-1, g1, v1)
    else
      var v2 := Vicky2Setrez(env, v1, rez, videlmode);
      Outcome(0, Services.InitServices(g1, Vicky2ModeInfo(env, v2)), v2)
  }

  /** A Falcon mode request through Setscreen switches the VICKY II to that
      mode and re-initialises the console with the new mode's geometry. */
  lemma SetscreenSwitchesMode(env: Env, g: Globals, v: Vicky2Regs,
                              logical: ULong, physical: ULong, videlmode: Word)
    requires !g.rezWasHacked && env.falconRez != -1 && env.minRez <= env.falconRez <= env.maxRez
    ensures var o := Vicky2Setscreen(env, g, v, logical, physical, env.falconRez, videlmode);
            && o.ret == 0 && o.v.modeId == videlmode
            && o.g.consoleInits[|g.consoleInits|].mode == env.vicky2ModeInfo(videlmode)
  {
  }
}
