/**
  Shared vocabulary of the screen driver layer: the C integer widths it works
  with, the legacy resolution codes, the mode triple every driver reports, the
  process-wide globals that the generic front end and the drivers share, and
  the environment record that stands for constants and collaborators whose
  definitions live outside the modelled files.

  C integers are kept as mathematical integers restricted to their range;
  every place where the C code wraps, truncates or reinterprets a value says
  so explicitly.
 */
module Common {

  /** A signed 16-bit C `WORD`. */
  type Word = x: int | -0x8000 <= x < 0x8000

  /** An unsigned 16-bit C `UWORD`. */
  type UWord = x: int | 0 <= x < 0x1_0000

  /** An unsigned 32-bit C `ULONG`; also every address. */
  type ULong = x: int | 0 <= x < 0x1_0000_0000

  /** An unsigned 8-bit C `UBYTE`; also every byte-wide hardware register. */
  type Byte = x: int | 0 <= x < 0x100

  /** Unsigned 32-bit wrap-around of an intermediate C result. */
  function U32(x: int): (r: ULong)
    ensures 0 <= x < 0x1_0000_0000 ==> r == x
  {
    x % 0x1_0000_0000
  }

  /** The conversion of an integer to `WORD` (two's complement wrap-around). */
  function ToWord(x: int): (w: Word)
    ensures -0x8000 <= x < 0x8000 ==> w == x
  {
    (x + 0x8000) % 0x1_0000 - 0x8000
  }

  /** The bit pattern of a `WORD` read as a `UWORD`. */
  function U16(w: Word): (u: UWord)
    ensures w >= 0 ==> u == w
    ensures w < 0 ==> u == w + 0x1_0000
  {
    w % 0x1_0000
  }

  /** `w & 0x00ff`: the low byte of a `WORD`. Dafny's `%` is Euclidean, so
      this is the two's complement low byte for negative values too. */
  function LowByte(w: Word): (b: Byte)
    ensures 0 <= w < 0x100 ==> b == w
    ensures -0x100 <= w < 0 ==> b == w + 0x100
  {
    w % 0x100
  }

  /** A `UBYTE` read through a signed `SBYTE` pointer. */
  function Signed8(b: Byte): (s: int)
    ensures -0x80 <= s < 0x80
    ensures s < 0 <==> b >= 0x80
  {
    if b >= 0x80 then b - 0x100 else b
  }

  /** Bitwise `a & b` of two non-negative integers. */
  function BitAnd(a: nat, b: nat): (r: nat)
    ensures r <= a && r <= b
  {
    if a == 0 || b == 0 then 0
    else 2 * BitAnd(a / 2, b / 2) + (if a % 2 == 1 && b % 2 == 1 then 1 else 0)
  }

  /** Bitwise `a | b` of two non-negative integers. */
  function BitOr(a: nat, b: nat): (r: nat)
    ensures r >= a && r >= b
  {
    if a == 0 then b
    else if b == 0 then a
    else 2 * BitOr(a / 2, b / 2) + (if a % 2 == 1 || b % 2 == 1 then 1 else 0)
  }

  /** Or with an even number, one bit at a time. */
  lemma BitOrEven(a: nat, n: nat)
    requires a % 2 == 0
    ensures BitOr(a, n) == 2 * BitOr(a / 2, n / 2) + n % 2
  {
  }

  /** Or-ing a value below 8 into a multiple of 8 is adding it. */
  lemma BitOrLowBits(a: nat, n: nat)
    requires a % 8 == 0 && n < 8
    ensures BitOr(a, n) == a + n
  {
    var q := a / 8;
    assert a / 2 == 4 * q && a / 2 / 2 == 2 * q && a / 2 / 2 / 2 == q;
    BitOrEven(a, n);
    BitOrEven(a / 2, n / 2);
    BitOrEven(a / 2 / 2, n / 2 / 2);
    assert n / 2 / 2 / 2 == 0;
  }

  /** Dividing by the base removes exactly the low digit (bases 16 and 256). */
  lemma DigitUnique(q: int, d: int, b: int)
    requires q >= 0 && (b == 8 || b == 0x10 || b == 0x100) && 0 <= d < b
    ensures (q * b + d) / b == q && (q * b + d) % b == d
  {
  }

  /** Two divisions by the base are one division by its square. */
  lemma {:induction false} DivDiv(x: nat, b: int)
    requires b == 0x10 || b == 0x100
    ensures x / b / b == x / (b * b)
  {
    var q := x / (b * b);
    var r := x % (b * b);
    var r1 := r / b;
    var r0 := r % b;
    assert x == (q * b + r1) * b + r0;
    DigitUnique(q * b + r1, r0, b);
    DigitUnique(q, r1, b);
  }

  /** Three hexadecimal digits packed into `0x0HMD`; the digits read back. */
  function Pack3(hi: int, mid: int, lo: int): (x: nat)
    requires 0 <= hi < 0x10 && 0 <= mid < 0x10 && 0 <= lo < 0x10
    ensures x < 0x1000
    ensures x % 0x10 == lo && x / 0x10 % 0x10 == mid && x / 0x100 == hi
  {
    var x := (hi * 0x10 + mid) * 0x10 + lo;
    DigitUnique(hi * 0x10 + mid, lo, 0x10);
    DigitUnique(hi, mid, 0x10);
    DivDiv(x, 0x10);
    x
  }

  /** Every value below 0x1000 is the packing of its three hexadecimal digits. */
  lemma {:induction false} Unpack3(x: nat)
    requires x < 0x1000
    ensures x == Pack3(x / 0x100, x / 0x10 % 0x10, x % 0x10)
  {
    DivDiv(x, 0x10);
    assert x == (x / 0x10 / 0x10 * 0x10 + x / 0x10 % 0x10) * 0x10 + x % 0x10;
  }

  /** The low 24 bits of `x` are its three low bytes, recombined. */
  lemma {:induction false} Split24(x: nat)
    ensures x % 0x100_0000 == (x / 0x1_0000 % 0x100 * 0x100 + x / 0x100 % 0x100) * 0x100 + x % 0x100
  {
    var q := x / 0x100_0000;
    var r := x % 0x100_0000;
    var hi := r / 0x1_0000;
    var rr := r % 0x1_0000;
    var mid := rr / 0x100;
    var lo := rr % 0x100;
    assert x == ((q * 0x100 + hi) * 0x100 + mid) * 0x100 + lo;
    DigitUnique((q * 0x100 + hi) * 0x100 + mid, lo, 0x100);
    DigitUnique(q * 0x100 + hi, mid, 0x100);
    DigitUnique(q, hi, 0x100);
    DivDiv(x, 0x100);
  }

  /** A pointer cast to a signed `LONG` is greater than zero. */
  predicate PositiveLong(a: ULong)
  {
    0 < a < 0x8000_0000
  }

  // Legacy resolution codes (rows of the shifter mode table)
  const ST_LOW: Word := 0
  const ST_MEDIUM: Word := 1
  const ST_HIGH: Word := 2
  const TT_MEDIUM: Word := 4
  const TT_HIGH: Word := 6
  const TT_LOW: Word := 7

  /** Option, for the cases where the hardware or the caller may provide nothing. */
  datatype Option<T> = None | Some(value: T)

  /** The (planes, width, height) triple a driver reports for its current mode. */
  datatype ModeInfo = ModeInfo(planes: UWord, width: UWord, height: UWord)

  /** Bytes of a packed-plane frame buffer of mode `m`: `(ULONG)(w / 8 * planes) * h`.
      The product `w / 8 * planes` stays below 2^31, so only the final
      multiplication by the height can wrap. */
  function RawFrameBytes(m: ModeInfo): (n: ULong)
    ensures m.width / 8 * m.planes * m.height < 0x1_0000_0000 ==>
              n == m.width / 8 * m.planes * m.height
  {
    U32((m.width / 8 * m.planes) * m.height)
  }

  /** One re-initialisation of line-A and the VT52 console: the geometry handed
      over and the value `vblsem` held while it ran. */
  datatype ConsoleInit = ConsoleInit(mode: ModeInfo, vblsemDuring: Word)

  /** Process-wide variables of the screen layer. */
  datatype Globals = Globals(
    vBasAd: ULong,                    // v_bas_ad: logical screen base
    videoRamAddr: ULong,              // video_ram_addr
    videoRamSize: int,                // video_ram_size
    rezWasHacked: bool,               // rez_was_hacked
    colorptr: ULong,                  // pending palette for the next VBL, 0 = none
    vblsem: Word,                     // VBL processing enabled while positive
    sshiftmod: Byte,                  // software copy of the shifter mode
    defshiftmod: Byte,                // default shifter mode
    lineA: ModeInfo,                  // v_planes, V_REZ_HZ, V_REZ_VT as found
    swvCalls: nat,                    // number of calls of the swv_vec hook
    consoleInits: seq<ConsoleInit>)   // every linea_init/vt52_init, oldest first

  /** Result of a video mode as the Videl collaborator `videl_setrez` leaves it. */
  datatype VidelRez = VidelRez(mode: Word, shiftmod: Byte)

  /** Constants and collaborators defined outside the modelled files. */
  datatype Env = Env(
    minRez: Word,                       // MIN_REZ
    maxRez: Word,                       // MAX_REZ
    falconRez: Word,                    // FALCON_REZ
    rezUnsupported: Word,               // REZ_UNSUPPORTED
    extraVramSize: ULong,               // EXTRA_VRAM_SIZE
    falconVramSize: ULong,              // FALCON_VRAM_SIZE
    videoRamSizeUnspecified: int,       // VIDEO_RAM_SIZE_UNSPECIFIED
    monMono: Word,                      // MON_MONO
    monColor: Word,                     // MON_COLOR
    monVga: Word,                       // MON_VGA
    videlCompat: nat,                   // VIDEL_COMPAT
    videlBppMask: nat,                  // VIDEL_BPPMASK
    videl4Bpp: nat,                     // VIDEL_4BPP
    osConf: UWord,                      // os_header.os_conf
    osConfMultilang: UWord,             // OS_CONF_MULTILANG
    osPal: bool,                        // OS_PAL
    confVramAddress: Option<ULong>,     // CONF_VRAM_ADDRESS, when configured
    ballocStram: ULong -> ULong,        // balloc_stram(size, TRUE)
    srealloc: ULong -> ULong,           // Srealloc(size), 0 on failure
    vgetsize: Word -> ULong,            // vgetsize(mode)
    vfixmode: Word -> Word,             // vfixmode(mode)
    videlSetrez: (Word, Word, Word) -> VidelRez,  // videl_setrez(rez, mode) from a current mode
    videlGetrez: Word -> Word,          // videl_getrez() in a current mode
    videlModeInfo: Word -> ModeInfo,    // videl_get_current_mode_info() in a current mode
    videlCheckModerez: (Word, Word) -> Word,  // videl_check_moderez(moderez) in a current mode
    videlMonitor: Word,                 // vmontype() / VgetMonitor()
    videlBootMode: Word,                // boot_resolution after the NVRAM read and the vfixmode,
                                        // lookup_videl_mode and VALID_VDI_BPP fall-backs
    videlPal: nat,                      // VIDEL_PAL
    vsetmode: Word -> VidelRez,         // vsetmode(mode): the mode set and the sshiftmod it leaves
    falconDefaultBoot: Word,            // FALCON_DEFAULT_BOOT
    ttPaletteReg: (Word, int, UWord) -> UWord,   // ST palette register k after
                                        // initialise_tt_palette(rez), from its value before
    falconStPaletteReg: (Word, int, UWord) -> UWord,  // ST palette register k after
                                        // initialise_falcon_palette(mode), from its value before
    falconPaletteReg: (Word, int, UWord) -> UWord,    // Falcon palette word k after
                                        // initialise_falcon_palette(mode), from its value before
    a2560ShadowFb: bool,                // CONF_WITH_A2560_SHADOW_FRAMEBUFFER
    falconShadowCount: Word,            // falcon_shadow_count
    novaBase: ULong,                    // get_novamembase()
    vicky2ModeInfo: Word -> ModeInfo,   // vicky2_read_video_mode(): bpp, w, h of a mode id
    vicky2Color: UWord -> ULong,        // convert_atari2vicky_color()
    vramBank0: ULong,                   // VRAM_Bank0
    vicky2Ctrl: ULong,                  // address VICKY2
    vicky3Base: ULong,                  // address VICKY3
    vicky3Ctrl: ULong)                  // address VICKY3_CTRL
}

/**
  `screen_init_services`: the re-initialisation of line-A and the VT52
  console that follows every mode change, with VBL processing held off while
  it runs.
 */
module Services {
  import opened Common

  /** `vblsem` is decremented around `linea_init` / `vt52_init` and then
      incremented again (both in `WORD` arithmetic), so it ends where it
      started; a console initialisation entered with VBL processing enabled
      once (`vblsem == 1`) runs with it disabled. */
  function InitServices(g: Globals, m: ModeInfo): (g': Globals)
    ensures g' == g.(consoleInits := g'.consoleInits)
    ensures |g'.consoleInits| == |g.consoleInits| + 1
    ensures forall i :: 0 <= i < |g.consoleInits| ==> g'.consoleInits[i] == g.consoleInits[i]
    ensures g'.consoleInits[|g.consoleInits|].mode == m
    ensures g.vblsem > -0x8000 ==> g'.consoleInits[|g.consoleInits|].vblsemDuring == g.vblsem - 1
  {
    var during := ToWord(g.vblsem - 1);
    var restored := ToWord(during + 1);
    g.(consoleInits := g.consoleInits + [ConsoleInit(m, during)], vblsem := restored)
  }

  /** `get_std_pixel_size`: pixel width and height in micrometres, by the
      TOS 3/4 rule of "narrower than 640 / shorter than 400 means double". */
  function StdPixelSize(lineA: ModeInfo): (size: (int, int))
    ensures size.0 == 556 <==> lineA.width < 640
    ensures size.0 == 278 <==> lineA.width >= 640
    ensures size.1 == 556 <==> lineA.height < 400
    ensures size.1 == 278 <==> lineA.height >= 400
  {
    (if lineA.width < 640 then 556 else 278, if lineA.height < 400 then 556 else 278)
  }

  /** A screen at least as wide and as tall never gets larger pixels. */
  lemma StdPixelSizeMonotone(a: ModeInfo, b: ModeInfo)
    requires a.width <= b.width && a.height <= b.height
    ensures StdPixelSize(b).0 <= StdPixelSize(a).0 && StdPixelSize(b).1 <= StdPixelSize(a).1
  {
  }
}
