/**
  The deferred palette load of the Atari driver (`atari_set_palette`), run by
  the VBL handler with the value Setpalette and its Falcon relatives left in
  `colorptr`.

  Memory is a function from byte address to the word stored there. The copy
  loop moves one `ULONG` per iteration through `UWORD` pointers; the model
  keeps the register file as words and writes two words per iteration.
 */
module AtariPalette {
  import opened Common
  import opened Atari

  /** What a `colorptr` value asks for: bit 0 is a tag (source addresses are
      word aligned), set to select the Falcon palette registers. */
  datatype PaletteSource = PaletteSource(addr: ULong, falcon: bool)

  /** Splits a `colorptr` value into its aligned address and its tag. */
  function DecodeColorptr(v: ULong): (s: PaletteSource)
    ensures s.addr % 2 == 0 && s.addr <= v
    ensures s.falcon <==> v != s.addr
    ensures v - s.addr <= 1
  {
    PaletteSource(v - v % 2, v % 2 == 1)
  }

  /** Tags an aligned address for the Falcon registers, or leaves it as is. */
  function EncodeColorptr(s: PaletteSource): (v: ULong)
    requires s.addr % 2 == 0
    ensures v - s.addr == (if s.falcon then 1 else 0)
  {
    s.addr + (if s.falcon then 1 else 0)
  }

  /** Tagging and untagging are inverse to each other. */
  lemma ColorptrRoundTrip(s: PaletteSource, v: ULong)
    ensures s.addr % 2 == 0 ==> DecodeColorptr(EncodeColorptr(s)) == s
    ensures EncodeColorptr(DecodeColorptr(v)) == v
  {
  }

  /** The number of times `do { … } while (--n >= 0)` runs its body with a
      `WORD` counter starting at `n`: `n + 1` for a non-negative start, once
      for a negative one, except that -32768 wraps round to 32767 on the
      first decrement. */
  function DbraIterations(n: Word): (k: nat)
    ensures 1 <= k <= 0x8001
  {
    if n >= 0 then n + 1 else if n == -0x8000 then 0x8001 else 1
  }

  /** One `ULONG` store at word offset `at`: words `at` and `at + 1` take the
      source words at the same offsets; stores past the end of the register
      block fall outside the model. */
  function WriteLong(regs: seq<UWord>, at: nat, src: nat -> UWord): (r: seq<UWord>)
    ensures |r| == |regs|
    ensures forall k :: 0 <= k < |regs| ==> r[k] == (if at <= k <= at + 1 then src(k) else regs[k])
  {
    seq(|regs|, k requires 0 <= k < |regs| => if at <= k <= at + 1 then src(k) else regs[k])
  }

  /** `n` iterations of the copy, the destination and source pointers both
      advancing by `stride` words per iteration: the words from 0 up to the
      second word of the last store are loaded, the others are untouched. */
  function CopyLongs(regs: seq<UWord>, src: nat -> UWord, stride: nat, n: nat): (r: seq<UWord>)
    requires stride == 1 || stride == 2
    ensures |r| == |regs|
    ensures forall k :: 0 <= k < |regs| ==>
              r[k] == (if n > 0 && k <= stride * (n - 1) + 1 then src(k) else regs[k])
    decreases n
  {
    if n == 0 then regs
    else WriteLong(CopyLongs(regs, src, stride, n - 1), stride * (n - 1), src)
  }

  /** The copy loop as the C code runs it, with its `WORD` counter: it runs
      `DbraIterations(count)` times and leaves the registers `CopyLongs`
      describes. */
  method CopyLoop(regs: seq<UWord>, src: nat -> UWord, stride: nat, count: Word)
    returns (r: seq<UWord>, iterations: nat)
    requires stride == 1 || stride == 2
    ensures iterations == DbraIterations(count)
    ensures r == CopyLongs(regs, src, stride, iterations)
  {
    ghost var total := DbraIterations(count);
    r := WriteLong(regs, 0, src);
    iterations := 1;
    var n := ToWord(count - 1);
    while n >= 0
      invariant 1 <= iterations <= total
      invariant n == ToWord(count - iterations)
      invariant n >= 0 <==> iterations < total
      invariant r == CopyLongs(regs, src, stride, iterations)
      decreases total - iterations
    {
      r := WriteLong(r, stride * iterations, src);
      iterations := iterations + 1;
      n := ToWord(n - 1);
    }
  }

  /** The source words: word `k` lives at byte address `addr + 2k` (in
      32-bit address arithmetic). */
  function SourceWords(mem: int -> UWord, addr: ULong): nat -> UWord
  {
    k => mem(U32(addr + 2 * k))
  }

  /** The counter the loop starts from: `16/2 - 1` for the ST(e) registers,
      `falcon_shadow_count - 1` (as a `WORD`) for the Falcon ones. */
  function LoopCount(env: Env, falcon: bool): Word
  {
    if falcon then ToWord(env.falconShadowCount - 1) else 7
  }

  /** `atari_set_palette` with a pointer stride of `stride` words per
      iteration; a build with Videl support is assumed, so the tag alone
      selects the Falcon registers. */
  function SetPaletteWithStride(env: Env, r: AtariRegs, colorptr: ULong, mem: int -> UWord, stride: nat)
    : (r': AtariRegs)
    requires r.Valid() && (stride == 1 || stride == 2)
    ensures r'.Valid()
    ensures var s := DecodeColorptr(colorptr);
            var n := DbraIterations(LoopCount(env, s.falcon));
            if s.falcon
            then r' == r.(falconPalette := CopyLongs(r.falconPalette, SourceWords(mem, s.addr), stride, n))
            else r' == r.(palette := CopyLongs(r.palette, SourceWords(mem, s.addr), stride, n))
  {
    var s := DecodeColorptr(colorptr);
    var n := DbraIterations(LoopCount(env, s.falcon));
    var src := SourceWords(mem, s.addr);
    if s.falcon then r.(falconPalette := CopyLongs(r.falconPalette, src, stride, n))
    else r.(palette := CopyLongs(r.palette, src, stride, n))
  }

  /** `atari_set_palette` as written: `*((ULONG*)p++)` on `UWORD*` pointers
      advances by one word, not by the two words just copied. */
  function SetPaletteAsWritten(env: Env, r: AtariRegs, colorptr: ULong, mem: int -> UWord): (r': AtariRegs)
    requires r.Valid()
    ensures r'.Valid()
    ensures !DecodeColorptr(colorptr).falcon ==>
              && r'.falconPalette == r.falconPalette
              && (forall k :: 0 <= k <= 8 ==>
                    r'.palette[k] == SourceWords(mem, DecodeColorptr(colorptr).addr)(k))
              && (forall k :: 9 <= k < 16 ==> r'.palette[k] == r.palette[k])
    ensures var s := DecodeColorptr(colorptr);
            s.falcon && 0 < env.falconShadowCount ==>
              && r'.palette == r.palette
              && (forall k :: 0 <= k < 512 ==>
                    r'.falconPalette[k] == (if k <= env.falconShadowCount
                                            then SourceWords(mem, s.addr)(k) else r.falconPalette[k]))
  {
    SetPaletteWithStride(env, r, colorptr, mem, 1)
  }

  /** `atari_set_palette` as evidently intended: both pointers advance by a
      whole `ULONG`. An untagged value loads all sixteen ST(e) registers; a
      tagged one loads `falcon_shadow_count` long registers of the Falcon
      palette (as many as fit). */
  function AtariSetPalette(env: Env, r: AtariRegs, colorptr: ULong, mem: int -> UWord): (r': AtariRegs)
    requires r.Valid()
    ensures r'.Valid()
    ensures var s := DecodeColorptr(colorptr);
            !s.falcon ==>
              && r'.falconPalette == r.falconPalette
              && r'.palette == seq(16, k requires 0 <= k < 16 => SourceWords(mem, s.addr)(k))
    ensures var s := DecodeColorptr(colorptr);
            s.falcon && 0 < env.falconShadowCount ==>
              && r'.palette == r.palette
              && (forall k :: 0 <= k < 512 ==>
                    r'.falconPalette[k] == (if k < 2 * env.falconShadowCount
                                            then SourceWords(mem, s.addr)(k) else r.falconPalette[k]))
  {
    SetPaletteWithStride(env, r, colorptr, mem, 2)
  }

  /** With the word stride, the upper seven ST(e) registers keep their old
      values: loading an all-grey palette over an all-black one leaves
      register 15 black. */
  lemma AsWrittenMissesUpperRegisters(env: Env, r: AtariRegs, mem: int -> UWord)
    requires r.Valid() && r.palette == seq(16, k => 0)
    requires forall a :: mem(a) == 0x0777
    ensures SetPaletteAsWritten(env, r, 0x1000, mem).palette[15] == 0
    ensures AtariSetPalette(env, r, 0x1000, mem).palette[15] == 0x0777
  {
  }

  /** The corrected copy loads exactly what the caller set up: Setpalette of
      an address followed by the VBL load puts that palette in the registers. */
  lemma SetpaletteThenLoad(env: Env, r: AtariRegs, addr: ULong, mem: int -> UWord)
    requires r.Valid() && addr % 2 == 0
    ensures var r' := AtariSetPalette(env, r, EncodeColorptr(PaletteSource(addr, false)), mem);
            forall k :: 0 <= k < 16 ==> r'.palette[k] == mem(U32(addr + 2 * k))
  {
    ColorptrRoundTrip(PaletteSource(addr, false), 0);
  }
}
