/**
  The Atari ST / STe / TT / Falcon (Videl) screen driver: shadow registers,
  resolution codes, frame-buffer sizing, the physical base address split over
  byte registers, the ST(e) palette, and the Setscreen protocol.
 */
module Atari {
  import opened Common
  import Services

  /** The video chip the machine carries; one build may run on any of them. */
  datatype Variant = PlainSt | Ste | Tt | Videl

  /** What boot-time detection found. */
  datatype Platform = Platform(
    variant: Variant,
    steShifter: bool,   // has_ste_shifter
    dmaSound: bool,     // HAS_DMASOUND
    nova: bool)         // HAS_NOVA
  {
    /** A plain ST never reports STe shifter registers; an STe always does. */
    predicate Valid()
    {
      && (variant == PlainSt ==> !steShifter)
      && (variant == Ste ==> steShifter)
    }

    /** `HAS_VIDEL || HAS_TT_SHIFTER || HAS_STE_SHIFTER`: 4 bits per colour
        channel and a low byte in the video base address. */
    predicate Enhanced()
    {
      variant == Videl || variant == Tt || steShifter
    }
  }

  /** A call of a palette initialiser whose body is outside this model. */
  datatype PaletteInit = TtPaletteInit(rez: Word) | FalconPaletteInit(mode: Word)

  /** Shadow of the Atari video registers. */
  datatype AtariRegs = AtariRegs(
    shifter: Byte,                   // ST_SHIFTER, or TT_SHIFTER on a TT
    palette: seq<UWord>,             // the 16 ST(e) palette registers
    falconPalette: seq<UWord>,       // the 256 long Falcon palette registers, as 512 words
    baseHi: Byte,                    // VIDEOBASE_ADDR_HI
    baseMid: Byte,                   // VIDEOBASE_ADDR_MID
    baseLow: Byte,                   // VIDEOBASE_ADDR_LOW (not on a plain ST)
    syncMode: Byte,                  // SYNCMODE
    lineOffset: Byte,                // STE_LINE_OFFSET
    hScroll: Byte,                   // STE_HORZ_SCROLL
    videlMode: Word,                 // the Videl mode that vsetmode(-1) reports
    paletteInits: seq<PaletteInit>)  // calls of the TT / Falcon palette initialisers
  {
    predicate Valid()
    {
      |palette| == 16 && |falconPalette| == 512
    }
  }

  /** `v & mask` with the mask of the palette register bits the hardware
      implements: `0x0fff` with 4 bits per channel, else `0x0777`, which
      keeps the low three bits of each of the red, green and blue digits. */
  function ImplementedBits(p: Platform, v: UWord): (c: UWord)
    ensures c < 0x1000
    ensures p.Enhanced() ==> c == v % 0x1000
    ensures !p.Enhanced() ==>
              && c / 0x100 == v / 0x100 % 0x10 % 8
              && c / 0x10 % 0x10 == v / 0x10 % 0x10 % 8
              && c % 0x10 == v % 0x10 % 8
  {
    if p.Enhanced() then v % 0x1000
    else Pack3(v / 0x100 % 0x10 % 8, v / 0x10 % 0x10 % 8, v % 0x10 % 8)
  }

  /** Masking twice is masking once. */
  lemma ImplementedBitsIdempotent(p: Platform, v: UWord)
    ensures ImplementedBits(p, ImplementedBits(p, v)) == ImplementedBits(p, v)
  {
    if !p.Enhanced() {
      ImplementedBitsKeepsColours(p, ImplementedBits(p, v));
    }
  }

  /** Colours already within the implemented bits pass the mask unchanged. */
  lemma ImplementedBitsKeepsColours(p: Platform, v: UWord)
    requires v < 0x1000
    requires !p.Enhanced() ==> v % 0x10 < 8 && v / 0x10 % 0x10 < 8 && v / 0x100 < 8
    ensures ImplementedBits(p, v) == v
  {
    if !p.Enhanced() {
      assert v / 0x100 % 0x10 % 8 == v / 0x100;
      assert v / 0x10 % 0x10 % 8 == v / 0x10 % 0x10;
      assert v % 0x10 % 8 == v % 0x10;
      Unpack3(v);
    }
  }

  // ---------------------------------------------------------------------
  // Setcolor

  /** The palette register `colorNum & 0x000f` addresses (Euclidean `%` is
      the two's complement `& 0x000f` for negative numbers too). */
  function ColorIndex(colorNum: Word): (i: int)
    ensures 0 <= i < 16
    ensures (colorNum - i) % 16 == 0
  {
    colorNum % 16
  }

  /** `atari_setcolor`: returns the previous value of one ST(e) palette
      register, restricted to the bits the hardware implements, and stores
      `color` there unless `color` is negative (a query). */
  function AtariSetcolor(p: Platform, r: AtariRegs, colorNum: Word, color: Word): (res: (Word, AtariRegs))
    requires r.Valid()
    ensures res.1.Valid()
    ensures res.0 == ImplementedBits(p, r.palette[ColorIndex(colorNum)])
    ensures color < 0 ==> res.1 == r
    ensures color >= 0 ==> res.1 == r.(palette := r.palette[ColorIndex(colorNum) := color])
  {
    var i := ColorIndex(colorNum);
    var oldcolor := ImplementedBits(p, r.palette[i]);
    if color >= 0 then (oldcolor, r.(palette := r.palette[i := color])) else (oldcolor, r)
  }

  /** Only the register at `colorNum & 0xf` can change; colour numbers that
      agree in their low four bits address the same register. */
  lemma SetcolorTouchesOneRegister(p: Platform, r: AtariRegs, colorNum: Word, color: Word, k: int)
    requires r.Valid() && 0 <= k < 16 && k != colorNum % 16
    ensures AtariSetcolor(p, r, colorNum, color).1.palette[k] == r.palette[k]
  {
  }

  /** `n` queries of the same register in a row: the answers and the final registers. */
  function QueryRepeatedly(p: Platform, r: AtariRegs, colorNum: Word, n: nat): (res: (seq<Word>, AtariRegs))
    requires r.Valid()
    ensures |res.0| == n && res.1.Valid()
  {
    if n == 0 then ([], r)
    else
      var first := AtariSetcolor(p, r, colorNum, -1);
      var rest := QueryRepeatedly(p, first.1, colorNum, n - 1);
      ([first.0] + rest.0, rest.1)
  }

  /** Querying N times returns the same value N times and changes no register. */
  lemma {:induction false} QueryRepeatedlyIsIdempotent(p: Platform, r: AtariRegs, colorNum: Word, n: nat)
    requires r.Valid()
    ensures QueryRepeatedly(p, r, colorNum, n).1 == r
    ensures forall k :: 0 <= k < n ==>
              QueryRepeatedly(p, r, colorNum, n).0[k] == ImplementedBits(p, r.palette[ColorIndex(colorNum)])
  {
    if n > 0 {
      QueryRepeatedlyIsIdempotent(p, r, colorNum, n - 1);
    }
  }

  /** A stored colour reads back through the implemented-bits mask, at any
      colour number with the same low four bits. */
  lemma SetcolorThenQuery(p: Platform, r: AtariRegs, colorNum: Word, color: Word, alias: Word, query: Word)
    requires r.Valid() && color >= 0 && query < 0
    requires alias % 16 == colorNum % 16
    ensures AtariSetcolor(p, AtariSetcolor(p, r, colorNum, color).1, alias, query).0
            == ImplementedBits(p, color)
  {
  }

  // ---------------------------------------------------------------------
  // Physical base address

  /** `atari_setphys`: the address is split over byte registers (each store
      truncates to a byte); a plain ST has no low byte register. */
  function AtariSetphys(p: Platform, r: AtariRegs, addr: ULong): (r': AtariRegs)
    ensures r'.baseHi == addr / 0x1_0000 % 0x100 && r'.baseMid == addr / 0x100 % 0x100
    ensures p.Enhanced() ==> r'.baseLow == addr % 0x100
    ensures !p.Enhanced() ==> r'.baseLow == r.baseLow
    ensures r' == r.(baseHi := r'.baseHi, baseMid := r'.baseMid, baseLow := r'.baseLow)
  {
    var r1 := r.(baseHi := addr / 0x1_0000 % 0x100, baseMid := addr / 0x100 % 0x100);
    if p.Enhanced() then r1.(baseLow := addr % 0x100) else r1
  }

  /** `atari_physbase`: the address reassembled from the byte registers, or
      the Nova adapter's screen when the adapter is in use. */
  function AtariPhysbase(env: Env, p: Platform, hacked: bool, r: AtariRegs): (a: ULong)
    ensures p.nova && hacked ==> a == env.novaBase
    ensures !(p.nova && hacked) ==> a < 0x100_0000
    ensures !(p.nova && hacked) && !p.Enhanced() ==> a % 0x100 == 0
  {
    if p.nova && hacked then env.novaBase
    else
      var hiMid := (r.baseHi * 0x100 + r.baseMid) * 0x100;
      if p.Enhanced() then hiMid + r.baseLow else hiMid
  }

  /** Writing an address and reading it back keeps the 24 address bits the
      chip has (`a & 0x00ffffff`). */
  lemma PhysbaseAfterSetphys(env: Env, p: Platform, hacked: bool, r: AtariRegs, addr: ULong)
    requires !(p.nova && hacked) && p.Enhanced()
    ensures AtariPhysbase(env, p, hacked, AtariSetphys(p, r, addr)) == addr % 0x100_0000
  {
    Split24(addr);
  }

  /** On a plain ST the read-back address also loses its low byte
      (`a & 0x00ffff00`). */
  lemma PlainStPhysbaseAfterSetphys(env: Env, p: Platform, hacked: bool, r: AtariRegs, addr: ULong)
    requires !(p.nova && hacked) && !p.Enhanced()
    ensures AtariPhysbase(env, p, hacked, AtariSetphys(p, r, addr)) == addr % 0x100_0000 - addr % 0x100
  {
    Split24(addr);
  }

  /** On a plain ST the low byte register is neither written nor read. */
  lemma PlainStIgnoresLowByte(env: Env, p: Platform, hacked: bool, r: AtariRegs, low: Byte)
    requires !p.Enhanced()
    ensures AtariPhysbase(env, p, hacked, r.(baseLow := low)) == AtariPhysbase(env, p, hacked, r)
  {
  }

  // ---------------------------------------------------------------------
  // Mode table and frame-buffer size

  /** `vmode_table`: planes, width and height of each legacy resolution code;
      codes 3 and 5 are invalid and read as an empty mode. */
  const VmodeTable: seq<ModeInfo> := [
    ModeInfo(4, 320, 200),    // 0: ST low
    ModeInfo(2, 640, 200),    // 1: ST medium
    ModeInfo(1, 640, 400),    // 2: ST high
    ModeInfo(0, 0, 0),        // 3: invalid
    ModeInfo(4, 640, 480),    // 4: TT medium
    ModeInfo(0, 0, 0),        // 5: invalid
    ModeInfo(1, 1280, 960),   // 6: TT high
    ModeInfo(8, 320, 480)     // 7: TT low
  ]

  /** `shifter_get_current_mode_info`: the table row `sshiftmod & 7`. */
  function ShifterModeInfo(sshiftmod: Byte): (m: ModeInfo)
    ensures m == VmodeTable[sshiftmod % 8]
    ensures m.planes == 0 <==> sshiftmod % 8 == 3 || sshiftmod % 8 == 5
    ensures RawFrameBytes(m) <= 153600
  {
    VmodeTable[sshiftmod % 8]
  }

  /** The three ST resolutions all need 32000 bytes of frame buffer. */
  lemma StModesNeed32000Bytes(sshiftmod: Byte)
    requires sshiftmod % 8 < 3
    ensures RawFrameBytes(ShifterModeInfo(sshiftmod)) == 32000
  {
  }

  /** `atari_get_current_mode_info`: the Videl collaborator's answer for
      the current Videl mode, else the table row of `sshiftmod`. */
  function AtariModeInfo(env: Env, p: Platform, g: Globals, r: AtariRegs): (m: ModeInfo)
    ensures p.variant == Videl ==> m == env.videlModeInfo(r.videlMode)
    ensures p.variant != Videl ==> m == VmodeTable[g.sshiftmod % 8]
  {
    if p.variant == Videl then env.videlModeInfo(r.videlMode) else ShifterModeInfo(g.sshiftmod)
  }

  /** The ST frame-buffer size: 768 bytes of slack, then rounded up to a
      multiple of 256, `(raw + 768 + 255) & ~255` in 32-bit arithmetic. */
  function StVramSize(raw: ULong): (n: ULong)
    ensures raw + 1023 < 0x1_0000_0000 ==> n % 256 == 0 && raw + 768 <= n < raw + 1024
  {
    var x := U32(raw + 768 + 255);
    x - x % 256
  }

  /** The ST size never shrinks when the raw requirement grows. */
  lemma StVramSizeMonotone(a: ULong, b: ULong)
    requires a <= b && b + 1023 < 0x1_0000_0000
    ensures StVramSize(a) <= StVramSize(b)
  {
  }

  /** `atari_calc_vram_size`: the Videl asks the collaborator for the mode's
      size and never goes below the legacy Falcon size; the TT adds its slack;
      the ST rounds as above. The mode must already be set. */
  function AtariCalcVramSize(env: Env, p: Platform, g: Globals, r: AtariRegs): (n: ULong)
    ensures p.variant == Videl && env.vgetsize(r.videlMode) + env.extraVramSize < 0x1_0000_0000
                              && env.falconVramSize + env.extraVramSize < 0x1_0000_0000 ==>
              && n >= env.vgetsize(r.videlMode) + env.extraVramSize
              && n >= env.falconVramSize + env.extraVramSize
              && (n == env.vgetsize(r.videlMode) + env.extraVramSize
                  || n == env.falconVramSize + env.extraVramSize)
    ensures p.variant == Tt && env.extraVramSize <= 0x1_0000 ==>
              n == RawFrameBytes(ShifterModeInfo(g.sshiftmod)) + env.extraVramSize
    ensures p.variant != Videl && p.variant != Tt ==>
              var raw := RawFrameBytes(ShifterModeInfo(g.sshiftmod));
              n % 256 == 0 && raw + 768 <= n < raw + 1024
  {
    if p.variant == Videl then
      var size := env.vgetsize(r.videlMode);
      var atLeast := if size < env.falconVramSize then env.falconVramSize else size;
      U32(atLeast + env.extraVramSize)
    else
      var raw := RawFrameBytes(ShifterModeInfo(g.sshiftmod));
      if p.variant == Tt then U32(raw + env.extraVramSize)
      else StVramSize(raw)
  }

  // ---------------------------------------------------------------------
  // Resolution codes

  /** The resolution code of the monochrome mode of the shifter. */
  function MonoRez(p: Platform): Word
  {
    if p.variant == Tt then TT_HIGH else ST_HIGH
  }

  /** `atari_getrez`: the shifter mode bits (two on an ST(e), three on a TT),
      or what the Videl collaborator reports. */
  function AtariGetrez(env: Env, p: Platform, r: AtariRegs): (rez: Word)
    ensures p.variant == Videl ==> rez == env.videlGetrez(r.videlMode)
    ensures p.variant == Tt ==> 0 <= rez < 8 && rez == r.shifter % 8
    ensures p.variant == PlainSt || p.variant == Ste ==> 0 <= rez < 4 && rez == r.shifter % 4
  {
    if p.variant == Videl then env.videlGetrez(r.videlMode)
    else if p.variant == Tt then r.shifter % 8
    else r.shifter % 4
  }

  /** The legacy `0xFFnn` encoding of resolution `nn` (`0xff00 | nn` as a
      `WORD`), as opposed to a Falcon mode value. */
  function RezCode(rez: Byte): (w: Word)
    ensures w < 0
  {
    rez - 0x100
  }

  /** `w & 0xff00 == 0xff00`: the high byte of the `WORD` is all ones. */
  predicate IsRezCode(w: Word)
  {
    -0x100 <= w < 0
  }

  /** Decoding and encoding a `0xFFnn` value are inverse to each other. */
  lemma RezCodeRoundTrip(rez: Byte, w: Word)
    ensures IsRezCode(RezCode(rez)) && LowByte(RezCode(rez)) == rez
    ensures IsRezCode(w) ==> RezCode(LowByte(w)) == w
  {
  }

  /** A request for the monochrome mode is turned into the matching colour mode. */
  function DemoteMono(p: Platform, rez: Byte): (d: Byte)
    ensures d != MonoRez(p)
    ensures rez != MonoRez(p) ==> d == rez
  {
    if p.variant == Tt then (if rez == TT_HIGH then TT_MEDIUM else rez)
    else (if rez == ST_HIGH then ST_LOW else rez)
  }

  /** `shifter_check_moderez`: Falcon mode values are ignored; a `0xFFnn`
      request yields the (demoted) code when it differs from the current
      resolution, and 0 otherwise. */
  function ShifterCheckModerez(p: Platform, current: Word, moderez: Word): (res: Word)
    ensures moderez > 0 ==> res == 0
    ensures res != 0 ==> IsRezCode(res) && LowByte(res) == DemoteMono(p, LowByte(moderez))
                         && LowByte(res) != current
    ensures moderez <= 0 && DemoteMono(p, LowByte(moderez)) != current ==> res != 0
  {
    if moderez > 0 then 0
    else
      var rez := DemoteMono(p, LowByte(moderez));
      if rez == current then 0 else RezCode(rez)
  }

  /** `atari_check_moderez`. */
  function AtariCheckModerez(env: Env, p: Platform, r: AtariRegs, moderez: Word): (res: Word)
    ensures p.variant == Videl ==> res == env.videlCheckModerez(moderez, r.videlMode)
    ensures p.variant != Videl ==> (res != 0 ==> IsRezCode(res) && LowByte(res) != MonoRez(p))
  {
    if p.variant == Videl then env.videlCheckModerez(moderez, r.videlMode)
    else ShifterCheckModerez(p, AtariGetrez(env, p, r), moderez)
  }

  /** A code the shifter check proposes never asks for the current mode
      again: applying it and checking the same request again yields 0. */
  lemma CheckModerezSettles(env: Env, p: Platform, r: AtariRegs, moderez: Word)
    requires p.variant != Videl
    requires AtariGetrez(env, p, r) == DemoteMono(p, LowByte(moderez))
    ensures AtariCheckModerez(env, p, r, moderez) == 0
  {
  }

  /** `screen_can_change_resolution_atari`: never once hacked; on a Videl
      unless an ST monochrome monitor is attached; on a shifter unless the
      current mode is the monochrome one. */
  function AtariCanChangeResolution(env: Env, p: Platform, hacked: bool, r: AtariRegs): (ok: bool)
    ensures hacked ==> !ok
    ensures !hacked && p.variant == Videl ==> (ok <==> env.videlMonitor != env.monMono)
    ensures !hacked && p.variant != Videl ==> (ok <==> AtariGetrez(env, p, r) != MonoRez(p))
  {
    if hacked then false
    else if p.variant == Videl then env.videlMonitor != env.monMono
    else AtariGetrez(env, p, r) != MonoRez(p)
  }

  /** The resolution codes `atari_setrez` accepts on each chip. */
  predicate SetrezAccepts(env: Env, p: Platform, rez: Word)
  {
    match p.variant
    case Videl => ST_LOW <= rez <= env.falconRez
    case Tt => rez != env.falconRez && rez != env.rezUnsupported
    case _ => rez <= ST_HIGH
  }

  /** `atari_setrez`: the Videl accepts ST_LOW..FALCON_REZ (and re-runs the
      Falcon palette initialiser); the TT any code but FALCON_REZ and
      REZ_UNSUPPORTED; the ST(e) any code up to ST_HIGH (signed, so negative
      codes pass and are truncated to a byte). */
  function AtariSetrez(env: Env, p: Platform, g: Globals, r: AtariRegs, rez: Word, videlmode: Word): (res: (Globals, AtariRegs))
    ensures res.0 == g.(sshiftmod := res.0.sshiftmod)
    ensures res.1 == r.(shifter := res.1.shifter, videlMode := res.1.videlMode, palette := res.1.palette,
                        falconPalette := res.1.falconPalette, paletteInits := res.1.paletteInits)
    ensures !SetrezAccepts(env, p, rez) ==> res == (g, r)
    ensures SetrezAccepts(env, p, rez) && p.variant == Videl ==>
              var v := env.videlSetrez(rez, videlmode, r.videlMode);
              && res.0.sshiftmod == v.shiftmod && res.1.videlMode == v.mode && res.1.shifter == r.shifter
              && res.1.paletteInits == r.paletteInits + [FalconPaletteInit(videlmode)]
              && res.1.palette == ApplyInitialiser(env.falconStPaletteReg, videlmode, r.palette)
              && res.1.falconPalette == ApplyInitialiser(env.falconPaletteReg, videlmode, r.falconPalette)
    ensures SetrezAccepts(env, p, rez) && p.variant != Videl ==>
              && res.1.shifter == LowByte(rez) && res.0.sshiftmod == LowByte(rez)
              && res.1.videlMode == r.videlMode && res.1.paletteInits == r.paletteInits
              && res.1.palette == r.palette && res.1.falconPalette == r.falconPalette
  {
    if !SetrezAccepts(env, p, rez) then (g, r)
    else if p.variant == Videl then
      var v := env.videlSetrez(rez, videlmode, r.videlMode);
      (g.(sshiftmod := v.shiftmod),
       r.(videlMode := v.mode,
          palette := ApplyInitialiser(env.falconStPaletteReg, videlmode, r.palette),
          falconPalette := ApplyInitialiser(env.falconPaletteReg, videlmode, r.falconPalette),
          paletteInits := r.paletteInits + [FalconPaletteInit(videlmode)]))
    else
      (g.(sshiftmod := LowByte(rez)), r.(shifter := LowByte(rez)))
  }

  /** On a shifter, setting an accepted code in 0..3 (0..7 on a TT) and
      reading it back gives the code again. */
  lemma GetrezAfterSetrez(env: Env, p: Platform, g: Globals, r: AtariRegs, rez: Word, videlmode: Word)
    requires p.variant != Videl && SetrezAccepts(env, p, rez)
    requires 0 <= rez < (if p.variant == Tt then 8 else 4)
    ensures AtariGetrez(env, p, AtariSetrez(env, p, g, r, rez, videlmode).1) == rez
  {
  }

  // ---------------------------------------------------------------------
  // Colour count, pixel size, monitor

  /** `atari_get_palette`: the number of colour choices, 0 meaning "more than
      a WORD can say". */
  function AtariColourCount(env: Env, p: Platform, g: Globals, r: AtariRegs): (n: Word)
    ensures n == 0 || n == 2 || n == 512 || n == 4096
    ensures p.variant == Videl ==>
              (n == 4096 <==> BitAnd(U16(r.videlMode), env.videlCompat) != 0
                              || BitAnd(U16(r.videlMode), env.videlBppMask) == env.videl4Bpp)
              && n != 2 && n != 512
    ensures p.variant != Videl ==>
              && (n == 2 <==> g.sshiftmod == ST_HIGH || g.sshiftmod == TT_HIGH)
              && (n == 512 <==> (g.sshiftmod == ST_LOW || g.sshiftmod == ST_MEDIUM) && !p.steShifter)
              && n != 0
  {
    if p.variant == Videl then
      var mode := U16(r.videlMode);
      if BitAnd(mode, env.videlCompat) != 0 || BitAnd(mode, env.videlBppMask) == env.videl4Bpp then 4096
      else 0
    else if g.sshiftmod == ST_HIGH || g.sshiftmod == TT_HIGH then 2
    else if (g.sshiftmod == ST_LOW || g.sshiftmod == ST_MEDIUM) && !p.steShifter then 512
    else 4096
  }

  /** On a plain ST the two colour modes have 512 colours and monochrome 2;
      an STe has 4096 in its colour modes. */
  lemma ShifterColourCounts(env: Env, p: Platform, g: Globals, r: AtariRegs)
    requires p.Valid() && (p.variant == PlainSt || p.variant == Ste)
    ensures g.sshiftmod == ST_LOW ==> AtariColourCount(env, p, g, r) == (if p.variant == Ste then 4096 else 512)
    ensures g.sshiftmod == ST_HIGH ==> AtariColourCount(env, p, g, r) == 2
  {
  }

  /** `atari_get_pixel_size`: the Videl and TT use the standard rule; the
      ST(e) uses the ST TOS values (the 5:12 test catches ST medium). */
  function AtariPixelSize(p: Platform, lineA: ModeInfo): (size: (int, int))
    ensures p.variant == Videl || p.variant == Tt ==> size == Services.StdPixelSize(lineA)
    ensures p.variant != Videl && p.variant != Tt ==>
              && size.1 == 372
              && (size.0 == 169 <==> 5 * lineA.width >= 12 * lineA.height)
              && (size.0 == 372 <==> 5 * lineA.width < 12 * lineA.height && lineA.width >= 480)
              && (size.0 == 338 <==> 5 * lineA.width < 12 * lineA.height && lineA.width < 480)
  {
    if p.variant == Videl || p.variant == Tt then Services.StdPixelSize(lineA)
    else
      var w := if 5 * lineA.width >= 12 * lineA.height then 169
               else if lineA.width >= 480 then 372
               else 338;
      (w, 372)
  }

  /** The ST TOS pixel sizes of the three ST modes. */
  lemma StPixelSizes(p: Platform)
    requires p.variant != Videl && p.variant != Tt
    ensures AtariPixelSize(p, VmodeTable[0]) == (338, 372)
    ensures AtariPixelSize(p, VmodeTable[1]) == (169, 372)
    ensures AtariPixelSize(p, VmodeTable[2]) == (372, 372)
  {
  }

  /** `shifter_get_monitor_type` / `atari_get_monitor_type`: on a shifter,
      MFP GPIP bit 7 set means a colour monitor. */
  function AtariMonitorType(env: Env, p: Platform, gpip: Byte): (m: Word)
    ensures p.variant == Videl ==> m == env.videlMonitor
    ensures p.variant != Videl && gpip >= 0x80 ==> m == env.monColor
    ensures p.variant != Videl && gpip < 0x80 ==> m == env.monMono
  {
    if p.variant == Videl then env.videlMonitor
    else if gpip >= 0x80 then env.monColor
    else env.monMono
  }

  // ---------------------------------------------------------------------
  // Palette initialisation

  /** `default_palette`: 0x0RGB, white first and black last. */
  const DefaultPalette: seq<UWord> := [
    0x0fff, 0x0f00, 0x00f0, 0x0ff0, 0x000f, 0x0f0f, 0x00ff, 0x0555,
    0x0333, 0x0f33, 0x03f3, 0x0ff3, 0x033f, 0x0f3f, 0x03ff, 0x0000
  ]

  /** `initialise_ste_palette` followed by `fixup_ste_palette`: the default
      colours restricted to the implemented bits, with the highest pen of
      ST medium (3) and ST high (1) made the same as pen 15. */
  function InitialPalette(p: Platform, rez: Word): (pal: seq<UWord>)
    ensures |pal| == 16
    ensures forall k :: 0 <= k < 16 && !(k == 3 && rez == ST_MEDIUM) && !(k == 1 && rez == ST_HIGH) ==>
              pal[k] == ImplementedBits(p, DefaultPalette[k])
  {
    var masked := seq(16, k requires 0 <= k < 16 => ImplementedBits(p, DefaultPalette[k]));
    FixupPalette(masked, rez)
  }

  /** `fixup_ste_palette`. */
  function FixupPalette(pal: seq<UWord>, rez: Word): (pal': seq<UWord>)
    requires |pal| == 16
    ensures |pal'| == 16
    ensures rez == ST_MEDIUM ==> pal'[3] == pal[15]
    ensures rez == ST_HIGH ==> pal'[1] == pal[15]
    ensures forall k :: 0 <= k < 16 && !(k == 3 && rez == ST_MEDIUM) && !(k == 1 && rez == ST_HIGH) ==>
              pal'[k] == pal[k]
  {
    if rez == ST_MEDIUM then pal[3 := pal[15]]
    else if rez == ST_HIGH then pal[1 := pal[15]]
    else pal
  }

  /** After palette initialisation the highest pen of each ST resolution is
      black, and pen 0 is white in the implemented bits. */
  lemma HighestPenIsBlack(p: Platform, rez: Word)
    ensures rez == ST_LOW ==> InitialPalette(p, rez)[15] == 0
    ensures rez == ST_MEDIUM ==> InitialPalette(p, rez)[3] == 0
    ensures rez == ST_HIGH ==> InitialPalette(p, rez)[1] == 0
    ensures InitialPalette(p, rez)[0] == (if p.Enhanced() then 0x0fff else 0x0777)
  {
    var pal := InitialPalette(p, rez);
    MaskOfWhiteAndBlack(p);
    assert pal[0] == ImplementedBits(p, DefaultPalette[0]);
    if rez == ST_LOW {
      assert pal[15] == ImplementedBits(p, DefaultPalette[15]);
    } else if rez == ST_MEDIUM {
      assert pal[3] == pal[15];
    } else if rez == ST_HIGH {
      assert pal[1] == pal[15];
    }
  }

  /** Black passes the mask as black; white keeps the bits the chip has. */
  lemma MaskOfWhiteAndBlack(p: Platform)
    ensures ImplementedBits(p, 0) == 0
    ensures ImplementedBits(p, 0x0fff) == (if p.Enhanced() then 0x0fff else 0x0777)
  {
    if !p.Enhanced() {
      var w: UWord := 0x0fff;
      var b: UWord := 0;
      assert ImplementedBits(p, w) == Pack3(w / 0x100 % 0x10 % 8, w / 0x10 % 0x10 % 8, w % 0x10 % 8);
      assert w / 0x100 % 0x10 % 8 == 7;
      assert w / 0x10 % 0x10 % 8 == 7;
      assert w % 0x10 % 8 == 7;
      assert Pack3(7, 7, 7) == 0x777;
      assert ImplementedBits(p, b) == Pack3(0, 0, 0);
    } else {
      assert ImplementedBits(p, 0x0fff) == 0x0fff % 0x1000;
    }
  }

  /** `get_default_palmode`: PAL unless the OS header says otherwise. */
  function DefaultPalMode(env: Env): (pal: bool)
    ensures env.osConf != env.osConfMultilang ==> (pal <==> env.osConf % 2 == 1)
    ensures env.osConf == env.osConfMultilang ==> pal == env.osPal
  {
    if env.osConf == env.osConfMultilang then env.osPal else env.osConf % 2 == 1
  }

  /** The resolution `screen_atari_init` starts a shifter in: the colour
      mode of the machine when the monitor type is non-zero, else its
      monochrome mode. */
  function BootRez(env: Env, p: Platform, gpip: Byte): (rez: Word)
    ensures rez == (if AtariMonitorType(env, p, gpip) == 0 then MonoRez(p)
                    else if p.variant == Tt then TT_MEDIUM else ST_LOW)
  {
    var colour := AtariMonitorType(env, p, gpip) != 0;
    if p.variant == Tt then (if colour then TT_MEDIUM else TT_HIGH)
    else (if colour then ST_LOW else ST_HIGH)
  }

  /** The boot resolution is a mode the chip's mode bits can hold. */
  lemma BootRezIsShifterCode(env: Env, p: Platform, gpip: Byte)
    ensures var rez := BootRez(env, p, gpip);
            && rez % 8 == rez && (p.variant != Tt ==> rez % 4 == rez)
  {
    var rez := BootRez(env, p, gpip);
    if p.variant == Tt {
      assert rez == TT_MEDIUM || rez == TT_HIGH;
    } else {
      assert rez == ST_LOW || rez == ST_HIGH;
    }
  }

  /** A palette initialiser whose body is outside this model, applied to a
      run of registers: register `k` gets `reg(arg, k, before)`. */
  function ApplyInitialiser(reg: (Word, int, UWord) -> UWord, arg: Word, pal: seq<UWord>): (pal': seq<UWord>)
    ensures |pal'| == |pal|
    ensures forall k :: 0 <= k < |pal| ==> pal'[k] == reg(arg, k, pal[k])
  {
    seq(|pal|, k requires 0 <= k < |pal| => reg(arg, k, pal[k]))
  }

  /** What ST(e) pen `k` holds once the default colours have been restricted
      to the implemented bits and the chip's own initialiser has run: the
      Falcon initialiser for `mode`, the TT initialiser for `rez`, or none. */
  function InitialPen(env: Env, p: Platform, rez: Word, mode: Word, k: int): UWord
    requires 0 <= k < 16
  {
    var d := ImplementedBits(p, DefaultPalette[k]);
    match p.variant
    case Videl => env.falconStPaletteReg(mode, k, d)
    case Tt => env.ttPaletteReg(rez, k, d)
    case _ => d
  }

  /** The palette registers after `initialise_palette_registers_atari(rez,
      mode)` started from `r`: every pen but the fixed-up one as
      `InitialPen` says, the highest pen of ST medium (3) and ST high (1)
      equal to pen 15, and the Falcon palette rewritten by the Falcon
      initialiser only on a Videl. */
  predicate PaletteInitialised(env: Env, p: Platform, r: AtariRegs, r': AtariRegs, rez: Word, mode: Word)
    requires r.Valid() && r'.Valid()
  {
    && (forall k :: 0 <= k < 16 && !(k == 3 && rez == ST_MEDIUM) && !(k == 1 && rez == ST_HIGH) ==>
          r'.palette[k] == InitialPen(env, p, rez, mode, k))
    && (rez == ST_MEDIUM ==> r'.palette[3] == r'.palette[15])
    && (rez == ST_HIGH ==> r'.palette[1] == r'.palette[15])
    && (forall k :: 0 <= k < 512 ==>
          r'.falconPalette[k] == (if p.variant == Videl then env.falconPaletteReg(mode, k, r.falconPalette[k])
                                  else r.falconPalette[k]))
  }

  /** `initialise_palette_registers_atari`: the ST(e) registers get the
      default colours restricted to the implemented bits, the Falcon or TT
      initialiser runs over them, and then the highest pen of ST medium and
      ST high is made the same as pen 15. With neither a Videl nor a TT this
      is the default palette. */
  function InitialisePaletteRegistersAtari(env: Env, p: Platform, r: AtariRegs, rez: Word, mode: Word): (r': AtariRegs)
    requires r.Valid()
    ensures r'.Valid()
    ensures PaletteInitialised(env, p, r, r', rez, mode)
    ensures p.variant == PlainSt || p.variant == Ste ==> r'.palette == InitialPalette(p, rez)
    ensures r'.paletteInits == r.paletteInits + (if p.variant == Videl then [FalconPaletteInit(mode)]
                                                 else if p.variant == Tt then [TtPaletteInit(rez)] else [])
    ensures r' == r.(palette := r'.palette, falconPalette := r'.falconPalette, paletteInits := r'.paletteInits)
  {
    var masked := seq(16, k requires 0 <= k < 16 => ImplementedBits(p, DefaultPalette[k]));
    var st := if p.variant == Videl then ApplyInitialiser(env.falconStPaletteReg, mode, masked)
              else if p.variant == Tt then ApplyInitialiser(env.ttPaletteReg, rez, masked)
              else masked;
    var falcon := if p.variant == Videl then ApplyInitialiser(env.falconPaletteReg, mode, r.falconPalette)
                  else r.falconPalette;
    var inits := if p.variant == Videl then [FalconPaletteInit(mode)]
                 else if p.variant == Tt then [TtPaletteInit(rez)] else [];
    r.(palette := FixupPalette(st, rez), falconPalette := falcon, paletteInits := r.paletteInits + inits)
  }

  /** The Falcon default mode is what a non-Videl boot hands the palette
      initialiser as its mode; only a Videl boot uses the mode it chose. */
  function BootMode(env: Env, p: Platform): (mode: Word)
    ensures p.variant != Videl ==> mode == env.falconDefaultBoot
  {
    if p.variant == Videl then env.videlBootMode else env.falconDefaultBoot
  }

  /** The screen address the Videl is parked on before its boot mode is
      set: the configured video RAM, or 0x10000. */
  function VidelSafeBase(env: Env): ULong
  {
    if env.confVramAddress.Some? then env.confVramAddress.value else 0x1_0000
  }

  /** The Videl half of `screen_atari_init`: the screen parked at a safe
      address, the boot mode set through `vsetmode` (which leaves
      `sshiftmod`), the PAL bit of the boot mode in the sync register, and
      the palette initialised for that mode. */
  function AtariInitVidel(env: Env, p: Platform, g: Globals, r: AtariRegs): (res: (Globals, AtariRegs))
    requires r.Valid() && p.variant == Videl
    ensures res.1.Valid()
    ensures res.0 == g.(vblsem := 0, sshiftmod := res.0.sshiftmod)
    ensures var v := env.vsetmode(env.videlBootMode);
            && res.0.sshiftmod == v.shiftmod && res.1.videlMode == v.mode
            && res.1.shifter == r.shifter
            && PaletteInitialised(env, p, r, res.1, v.shiftmod, env.videlBootMode)
            && res.1.paletteInits == r.paletteInits + [FalconPaletteInit(env.videlBootMode)]
            && res.1.syncMode == (if BitAnd(U16(env.videlBootMode), env.videlPal) != 0 then 2 else 0)
            && AtariPhysbase(env, p, false, res.1) == VidelSafeBase(env) % 0x100_0000
  {
    var boot := env.videlBootMode;
    var parked := AtariSetphys(p, r, VidelSafeBase(env));
    assert AtariPhysbase(env, p, false, parked) == VidelSafeBase(env) % 0x100_0000 by {
      PhysbaseAfterSetphys(env, p, false, r, VidelSafeBase(env));
    }
    var v := env.vsetmode(boot);
    var sync := if BitAnd(U16(boot), env.videlPal) != 0 then 0x02 else 0x00;
    (g.(vblsem := 0, sshiftmod := v.shiftmod),
     InitialisePaletteRegistersAtari(env, p, parked.(videlMode := v.mode, syncMode := sync), v.shiftmod, boot))
  }

  /** The shifter half of `screen_atari_init`: the resolution chosen from the
      monitor type, the STe scroll registers cleared, the sync mode set, and
      the palette initialised for that resolution. */
  function AtariInitShifter(env: Env, p: Platform, g: Globals, r: AtariRegs, gpip: Byte): (res: (Globals, AtariRegs))
    requires r.Valid() && p.variant != Videl
    ensures res.1.Valid()
    ensures res.0 == g.(vblsem := 0, sshiftmod := res.0.sshiftmod)
    ensures res.0.sshiftmod == BootRez(env, p, gpip)
    ensures AtariGetrez(env, p, res.1) == BootRez(env, p, gpip)
    ensures PaletteInitialised(env, p, r, res.1, BootRez(env, p, gpip), env.falconDefaultBoot)
    ensures p.variant != Tt ==> res.1.palette == InitialPalette(p, BootRez(env, p, gpip))
    ensures res.1.paletteInits == r.paletteInits + (if p.variant == Tt then [TtPaletteInit(BootRez(env, p, gpip))] else [])
    ensures res.1.syncMode == (if p.variant == Tt then 1 else if DefaultPalMode(env) then 2 else 0)
    ensures p.steShifter && p.variant != Tt ==> res.1.lineOffset == 0 && res.1.hScroll == 0
    ensures res.1.baseHi == r.baseHi && res.1.baseMid == r.baseMid && res.1.baseLow == r.baseLow
    ensures res.1.videlMode == r.videlMode
  {
    var rez := BootRez(env, p, gpip);
    var r0 := r.(shifter := rez);
    var r1 := if p.variant != Tt && p.steShifter then r0.(lineOffset := 0, hScroll := 0) else r0;
    var sync := if p.variant == Tt then 0x01 else if DefaultPalMode(env) then 0x02 else 0x00;
    var r2 := InitialisePaletteRegistersAtari(env, p, r1.(syncMode := sync), rez, env.falconDefaultBoot);
    assert r2.shifter == rez;
    BootRezIsShifterCode(env, p, gpip);
    (g.(vblsem := 0, sshiftmod := rez), r2)
  }

  /** `screen_atari_init`: VBL processing reset, then the Videl or the
      shifter start-up; the palette is initialised for the resolution chosen
      and the resolution `Getrez` reports is the one `sshiftmod` holds on a
      shifter. A non-Videl boot hands the palette initialiser the Falcon
      default mode. */
  function AtariInit(env: Env, p: Platform, g: Globals, r: AtariRegs, gpip: Byte): (res: (Globals, AtariRegs))
    requires r.Valid()
    ensures res.1.Valid()
    ensures res.0.vblsem == 0 && res.0.vBasAd == g.vBasAd && res.0.rezWasHacked == g.rezWasHacked
    ensures PaletteInitialised(env, p, r, res.1, res.0.sshiftmod, BootMode(env, p))
    ensures p.variant == PlainSt || p.variant == Ste ==> res.1.palette == InitialPalette(p, res.0.sshiftmod)
    ensures p.variant != Videl ==> AtariGetrez(env, p, res.1) == res.0.sshiftmod
  {
    if p.variant == Videl then AtariInitVidel(env, p, g, r) else AtariInitShifter(env, p, g, r, gpip)
  }

  /** After start-up the resolution can change exactly when the monitor is
      not a monochrome one: a shifter booted on a monitor type of 0 sits in
      its monochrome mode; a Videl asks the monitor directly. */
  lemma InitCanChangeIffColourMonitor(env: Env, p: Platform, g: Globals, r: AtariRegs, gpip: Byte)
    requires r.Valid()
    ensures var ok := AtariCanChangeResolution(env, p, false, AtariInit(env, p, g, r, gpip).1);
            && (p.variant != Videl ==> (ok <==> AtariMonitorType(env, p, gpip) != 0))
            && (p.variant == Videl ==> (ok <==> AtariMonitorType(env, p, gpip) != env.monMono))
  {
    if p.variant != Videl {
      var r' := AtariInit(env, p, g, r, gpip).1;
      assert AtariGetrez(env, p, r') == BootRez(env, p, gpip);
    }
  }

  /** On an ST(e) the sync register leaves start-up with the PAL bit
      exactly when the OS header asks for PAL (or, for a multilingual
      image, the build does). */
  lemma InitSyncFollowsHeader(env: Env, p: Platform, g: Globals, r: AtariRegs, gpip: Byte)
    requires r.Valid() && (p.variant == PlainSt || p.variant == Ste)
    ensures var sync := AtariInit(env, p, g, r, gpip).1.syncMode;
            && (sync == 2 <==> DefaultPalMode(env))
            && (sync == 0 <==> !DefaultPalMode(env))
  {
  }

  /** On a shifter exactly the monochrome modes, with one plane, have two
      colour choices. */
  lemma ColourCountMatchesPlanes(env: Env, p: Platform, g: Globals, r: AtariRegs)
    requires p.variant != Videl && g.sshiftmod < 8
    ensures AtariColourCount(env, p, g, r) == 2 <==> AtariModeInfo(env, p, g, r).planes == 1
  {
  }

  /** On a shifter the frame buffer asked for holds the current mode. */
  lemma ShifterFrameFits(env: Env, p: Platform, g: Globals, r: AtariRegs)
    requires p.variant != Videl && env.extraVramSize <= 0x1_0000
    ensures AtariCalcVramSize(env, p, g, r) >= RawFrameBytes(AtariModeInfo(env, p, g, r))
  {
  }

  // ---------------------------------------------------------------------
  // Setscreen
  // ---------------------------------------------------------------------
  // Setscreen

  /** Result of a Setscreen call: the returned WORD and the new state. */
  datatype Outcome = Outcome(ret: Word, g: Globals, r: AtariRegs)

  /** A Videl mode change with both addresses null: the frame buffer is
      reallocated for the new mode. */
  predicate ReallocRequested(env: Env, p: Platform, logLoc: ULong, physLoc: ULong, rez: Word, videlmode: Word)
  {
    p.variant == Videl && rez == env.falconRez && videlmode != -1 && logLoc == 0 && physLoc == 0
  }

  /** `Srealloc` was asked for a new Videl frame buffer and failed. */
  predicate ReallocFails(env: Env, p: Platform, logLoc: ULong, physLoc: ULong, rez: Word, videlmode: Word)
  {
    && ReallocRequested(env, p, logLoc, physLoc, rez, videlmode)
    && env.srealloc(env.vgetsize(env.vfixmode(videlmode))) == 0
  }

  /** The legacy range check on the requested resolution. */
  predicate RezInRange(env: Env, rez: Word)
  {
    env.minRez <= rez <= env.maxRez
  }

  /** The logical and physical addresses a Setscreen call stores before any check. */
  function StoreAddresses(p: Platform, g: Globals, r: AtariRegs, logLoc: ULong, physLoc: ULong): (res: (Globals, AtariRegs))
    ensures res.0 == (if PositiveLong(logLoc) then g.(vBasAd := logLoc) else g)
    ensures res.1 == (if PositiveLong(physLoc) then AtariSetphys(p, r, physLoc) else r)
  {
    (if PositiveLong(logLoc) then g.(vBasAd := logLoc) else g,
     if PositiveLong(physLoc) then AtariSetphys(p, r, physLoc) else r)
  }

  /** A Videl frame buffer reallocated for the (fixed-up) mode: `Srealloc`
      may fail, in which case nothing changes; otherwise both the logical and
      the physical screen move to the new block. */
  function VidelRealloc(env: Env, p: Platform, g: Globals, r: AtariRegs, videlmode: Word)
    : (res: Option<(Globals, AtariRegs)>)
    ensures var addr := env.srealloc(env.vgetsize(env.vfixmode(videlmode)));
            && (res.None? <==> addr == 0)
            && (res.Some? ==> res.value.0 == g.(vBasAd := addr) && res.value.1 == AtariSetphys(p, r, addr))
  {
    var addr := env.srealloc(env.vgetsize(env.vfixmode(videlmode)));
    if addr == 0 then None else Some((g.(vBasAd := addr), AtariSetphys(p, r, addr)))
  }

  /** `atari_setrez` followed by `screen_init_services_from_mode_info`: the
      new mode is set and the console re-initialised once, with the geometry
      of the new mode; the screen addresses are left where they are. */
  function ChangeRez(env: Env, p: Platform, g: Globals, r: AtariRegs, rez: Word, mode: Word)
    : (res: (Globals, AtariRegs))
    ensures res.0.vBasAd == g.vBasAd && res.0.vblsem == g.vblsem
    ensures res.1.baseHi == r.baseHi && res.1.baseMid == r.baseMid && res.1.baseLow == r.baseLow
    ensures |res.0.consoleInits| == |g.consoleInits| + 1
    ensures res.0.consoleInits[|g.consoleInits|].mode == AtariModeInfo(env, p, res.0, res.1)
  {
    var (g1, r1) := AtariSetrez(env, p, g, r, rez, mode);
    (Services.InitServices(g1, AtariModeInfo(env, p, g1, r1)), r1)
  }

  /** The part of `atari_setscreen` after the checks: the optional Videl
      reallocation, the mode change and the console re-initialisation. The
      result is the previous Videl mode for a Falcon mode request, else 0. */
  function SetscreenChange(env: Env, p: Platform, g: Globals, r: AtariRegs,
                           logLoc: ULong, physLoc: ULong, rez: Word, videlmode: Word): (o: Outcome)
    ensures ReallocFails(env, p, logLoc, physLoc, rez, videlmode) ==> o == Outcome(-1, g, r)
    ensures !ReallocFails(env, p, logLoc, physLoc, rez, videlmode) ==>
              && o.ret == (if p.variant == Videl && rez == env.falconRez then r.videlMode else 0)
              && |o.g.consoleInits| == |g.consoleInits| + 1
              && o.g.consoleInits[|g.consoleInits|].mode == AtariModeInfo(env, p, o.g, o.r)
              && o.g.vblsem == g.vblsem
    ensures !ReallocRequested(env, p, logLoc, physLoc, rez, videlmode) ==>
              && o.g.vBasAd == g.vBasAd
              && o.r.baseHi == r.baseHi && o.r.baseMid == r.baseMid && o.r.baseLow == r.baseLow
  {
    var falconChange := p.variant == Videl && rez == env.falconRez;
    var mode := if falconChange && videlmode != -1 then env.vfixmode(videlmode) else videlmode;
    var moved := if ReallocRequested(env, p, logLoc, physLoc, rez, videlmode)
                 then VidelRealloc(env, p, g, r, videlmode) else Some((g, r));
    if moved.None? then Outcome(-1, g, r)
    else
      var (g1, r1) := moved.value;
      var oldmode := if falconChange then r1.videlMode else 0;
      var (g2, r2) := ChangeRez(env, p, g1, r1, rez, mode);
      Outcome(oldmode, g2, r2)
  }

  /** `atari_setscreen`: store the addresses given, then refuse (0) a
      change when the line-A variables were hacked or `rez` is -1, reject
      (-1) a code out of range, and otherwise change the mode. */
  function AtariSetscreen(env: Env, p: Platform, g: Globals, r: AtariRegs,
                          logLoc: ULong, physLoc: ULong, rez: Word, videlmode: Word): (o: Outcome)
    // the addresses are stored first, whatever happens next
    ensures PositiveLong(logLoc) ==> o.g.vBasAd == logLoc
    ensures PositiveLong(physLoc) ==>
              && o.r.baseHi == AtariSetphys(p, r, physLoc).baseHi
              && o.r.baseMid == AtariSetphys(p, r, physLoc).baseMid
              && o.r.baseLow == AtariSetphys(p, r, physLoc).baseLow
    // hacked, or rez == -1: no resolution change, result 0
    ensures g.rezWasHacked || rez == -1 ==>
              o.ret == 0 && (o.g, o.r) == StoreAddresses(p, g, r, logLoc, physLoc)
    // out of range: error, no resolution change
    ensures !g.rezWasHacked && rez != -1 && !RezInRange(env, rez) ==>
              o.ret == -1 && (o.g, o.r) == StoreAddresses(p, g, r, logLoc, physLoc)
    // the change itself: the console is re-initialised with the new geometry
    ensures !g.rezWasHacked && rez != -1 && RezInRange(env, rez)
            && !ReallocFails(env, p, logLoc, physLoc, rez, videlmode) ==>
              && o.ret == (if p.variant == Videl && rez == env.falconRez then r.videlMode else 0)
              && |o.g.consoleInits| == |g.consoleInits| + 1
              && o.g.consoleInits[|g.consoleInits|].mode == AtariModeInfo(env, p, o.g, o.r)
              && o.g.vblsem == g.vblsem
    ensures g.rezWasHacked || rez == -1 || !RezInRange(env, rez)
            || ReallocFails(env, p, logLoc, physLoc, rez, videlmode) ==>
              o.g.consoleInits == g.consoleInits
  {
    var (g1, r1) := StoreAddresses(p, g, r, logLoc, physLoc);
    if g.rezWasHacked || rez == -1 then Outcome(0, g1, r1)
    else if !RezInRange(env, rez) then Outcome(-1, g1, r1)
    else SetscreenChange(env, p, g1, r1, logLoc, physLoc, rez, videlmode)
  }

  /** A Videl mode change with null addresses moves both screens to the
      reallocated block, or fails with -1 and changes nothing when
      `Srealloc` fails; the old Videl mode is returned on success. */
  lemma SetscreenReallocates(env: Env, p: Platform, g: Globals, r: AtariRegs,
                             logLoc: ULong, physLoc: ULong, rez: Word, videlmode: Word)
    requires !g.rezWasHacked && rez != -1 && RezInRange(env, rez)
    requires ReallocRequested(env, p, logLoc, physLoc, rez, videlmode)
    ensures var o := AtariSetscreen(env, p, g, r, logLoc, physLoc, rez, videlmode);
            var addr := env.srealloc(env.vgetsize(env.vfixmode(videlmode)));
            && (addr == 0 ==> o.ret == -1 && o.g == g && o.r == r)
            && (addr != 0 ==> o.g.vBasAd == addr && o.ret == r.videlMode
                              && AtariPhysbase(env, p, false, o.r) == addr % 0x100_0000)
  {
    var o := AtariSetscreen(env, p, g, r, logLoc, physLoc, rez, videlmode);
    var addr := env.srealloc(env.vgetsize(env.vfixmode(videlmode)));
    if addr != 0 {
      var moved := AtariSetphys(p, r, addr);
      assert o.r.baseHi == moved.baseHi && o.r.baseMid == moved.baseMid && o.r.baseLow == moved.baseLow;
      PhysbaseAfterSetphys(env, p, false, r, addr);
    }
  }

  /** Once hacked, Setscreen only ever stores the addresses it is given: the
      resolution, the console and the mode are untouched and the result is 0. */
  lemma HackedSetscreenOnlyStoresAddresses(env: Env, p: Platform, g: Globals, r: AtariRegs,
                                           logLoc: ULong, physLoc: ULong, rez: Word, videlmode: Word)
    requires g.rezWasHacked
    ensures var o := AtariSetscreen(env, p, g, r, logLoc, physLoc, rez, videlmode);
            && o.ret == 0
            && o.g.sshiftmod == g.sshiftmod && o.r.shifter == r.shifter && o.r.videlMode == r.videlMode
            && o.g.consoleInits == g.consoleInits
            && (PositiveLong(logLoc) ==> o.g.vBasAd == logLoc)
            && (!PositiveLong(logLoc) ==> o.g.vBasAd == g.vBasAd)
  {
  }
}
