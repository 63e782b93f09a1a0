/**
  `screen_detect_monitor_change`, called from the VBL handler on shifter
  machines: when the monitor type read from MFP GPIP bit 7 does not match
  the current resolution (monochrome or colour), switch resolution and call
  the `swv_vec` hook (by default a system restart).
 */
module Monitor {
  import opened Common
  import opened Atari

  /** One pass of the stabilisation loop on machines with DMA sound: the DMA
      sound control byte, GPIP read twice, and the control byte read again. */
  datatype Sample = Sample(dmaBefore: Byte, gpip1: Byte, gpip2: Byte, dmaAfter: Byte)

  /** The loop stops at a pass where both GPIP reads agree in bit 7 and the
      control byte did not change: read as `SBYTE`s, the exclusive or of the
      two GPIP reads is not negative exactly when their signs agree. */
  function Stable(s: Sample): (b: bool)
    ensures b <==> (Signed8(s.gpip1) < 0) == (Signed8(s.gpip2) < 0) && Signed8(s.dmaAfter) == Signed8(s.dmaBefore)
  {
    (s.gpip1 >= 0x80) == (s.gpip2 >= 0x80) && s.dmaAfter == s.dmaBefore
  }

  /** The pass the loop stops at; `None` when no pass among `samples` is
      stable, in which case the hardware loop is still spinning. */
  function FirstStable(samples: seq<Sample>): (i: Option<nat>)
    ensures i.Some? ==> i.value < |samples| && Stable(samples[i.value])
                        && forall j :: 0 <= j < i.value ==> !Stable(samples[j])
    ensures i.None? <==> forall j :: 0 <= j < |samples| ==> !Stable(samples[j])
  {
    if |samples| == 0 then None
    else if Stable(samples[0]) then Some(0)
    else
      match FirstStable(samples[1..])
      case None => None
      case Some(k) => Some(k + 1)
  }

  /** Conversion to `SBYTE` (two's complement wrap-around). */
  function ToSbyte(x: int): (s: int)
    ensures -0x80 <= s < 0x80
    ensures -0x80 <= x < 0x80 ==> s == x
  {
    (x + 0x80) % 0x100 - 0x80
  }

  /** `monoflag = -monoflag` on an `SBYTE`, as written. */
  function NegateAsWritten(m: int): (n: int)
    requires -0x80 <= m < 0x80
    ensures -0x80 <= n < 0x80
    ensures m != 0 && m != -0x80 ==> (n < 0 <==> m > 0)
  {
    ToSbyte(-m)
  }

  /** Negation does not flip the sign of 0 or of -128, so with DMA sound
      playing a GPIP byte of 0x00 or 0x80 reads as the wrong monitor. */
  lemma NegationKeepsTwoSigns()
    ensures NegateAsWritten(0) >= 0
    ensures NegateAsWritten(Signed8(0x80)) < 0
  {
  }

  /** GPIP with bit 7 inverted (`^ 0x80`): what the DMA-sound correction is
      evidently meant to undo. */
  function FlipMonoBit(b: Byte): (f: Byte)
    ensures (f >= 0x80) <==> (b < 0x80)
    ensures f % 0x80 == b % 0x80
  {
    (b + 0x80) % 0x100
  }

  /** Inverting bit 7 always flips the sign of the `SBYTE` reading. */
  lemma FlipMonoBitFlipsSign(b: Byte)
    ensures Signed8(FlipMonoBit(b)) < 0 <==> Signed8(b) >= 0
    ensures FlipMonoBit(FlipMonoBit(b)) == b
  {
  }

  /** The `monoflag` the code computes from the first GPIP read (no DMA
      sound) or from the stable pass; `None` while the loop spins. */
  function MonoflagAsWritten(p: Platform, gpip: Byte, samples: seq<Sample>): (m: Option<int>)
    ensures !p.dmaSound ==> m == Some(Signed8(gpip))
    ensures p.dmaSound ==> (m.None? <==> FirstStable(samples).None?)
    ensures m.Some? ==> -0x80 <= m.value < 0x80
  {
    if !p.dmaSound then Some(Signed8(gpip))
    else
      match FirstStable(samples)
      case None => None
      case Some(i) =>
        var s := samples[i];
        var flag := Signed8(s.gpip1);
        Some(if s.dmaBefore % 2 == 1 then NegateAsWritten(flag) else flag)
  }

  /** The `monoflag` with the DMA correction as evidently intended: GPIP bit 7
      is the monochrome detect line exclusive-or'ed with "DMA sound active". */
  function Monoflag(p: Platform, gpip: Byte, samples: seq<Sample>): (m: Option<int>)
    ensures !p.dmaSound ==> m == Some(Signed8(gpip))
    ensures p.dmaSound ==> (m.None? <==> FirstStable(samples).None?)
    ensures p.dmaSound && m.Some? ==>
              var s := samples[FirstStable(samples).value];
              (m.value < 0 <==> (s.gpip1 >= 0x80) != (s.dmaBefore % 2 == 1))
  {
    if !p.dmaSound then Some(Signed8(gpip))
    else
      match FirstStable(samples)
      case None => None
      case Some(i) =>
        var s := samples[i];
        Some(Signed8(if s.dmaBefore % 2 == 1 then FlipMonoBit(s.gpip1) else s.gpip1))
  }

  /** A stable pass with GPIP 0x80 while DMA sound plays: the monitor line
      says monochrome, yet the code as written sees a colour monitor. */
  lemma DmaNegationMisreadsMonitor(p: Platform)
    requires p.dmaSound
    ensures var samples := [Sample(1, 0x80, 0x80, 1)];
            && MonoflagAsWritten(p, 0, samples) == Some(-0x80)
            && Monoflag(p, 0, samples) == Some(0)
  {
    var samples := [Sample(1, 0x80, 0x80, 1)];
    assert FirstStable(samples) == Some(0);
  }

  /** The resolution the shifter shows: three mode bits on a TT, two on an ST(e). */
  function CurrentRez(p: Platform, shifter: Byte): (rez: Byte)
    ensures rez < (if p.variant == Tt then 8 else 4)
  {
    if p.variant == Tt then shifter % 8 else shifter % 4
  }

  /** The resolution to switch to, or `None` when monitor and resolution
      agree (a negative `monoflag` means a colour monitor). */
  function SwitchTarget(p: Platform, defshiftmod: Byte, shifter: Byte, monoflag: int): (t: Option<Byte>)
    ensures t.None? <==> ((CurrentRez(p, shifter) == MonoRez(p)) <==> monoflag >= 0)
    ensures t.Some? && monoflag >= 0 ==> t.value == MonoRez(p)
    ensures t.Some? && monoflag < 0 ==>
              && t.value != MonoRez(p)
              && (defshiftmod != MonoRez(p) ==> t.value == defshiftmod)
              && (defshiftmod == MonoRez(p) ==> t.value == ST_LOW)
  {
    var mono := MonoRez(p);
    if CurrentRez(p, shifter) == mono then
      if monoflag >= 0 then None
      else Some(if defshiftmod == mono then ST_LOW else defshiftmod)
    else
      if monoflag < 0 then None
      else Some(mono)
  }

  /** The decision and the switch, once `monoflag` is known: nothing on a
      Videl or when monitor and resolution agree; otherwise the new
      resolution goes into `sshiftmod` and the low three bits of the shifter
      register (`(*shifter & 0xf8) | newres`), and `swv_vec` is called once. */
  function DetectMonitorChange(p: Platform, g: Globals, r: AtariRegs, monoflag: int): (res: (Globals, AtariRegs))
    ensures p.variant == Videl ==> res == (g, r)
    ensures p.variant != Videl && SwitchTarget(p, g.defshiftmod, r.shifter, monoflag).None? ==> res == (g, r)
    ensures p.variant != Videl && SwitchTarget(p, g.defshiftmod, r.shifter, monoflag).Some? ==>
              var t := SwitchTarget(p, g.defshiftmod, r.shifter, monoflag).value;
              && res.0 == g.(sshiftmod := t, swvCalls := g.swvCalls + 1)
              && res.1 == r.(shifter := res.1.shifter)
              && (t < 8 ==> res.1.shifter / 8 == r.shifter / 8 && res.1.shifter % 8 == t)
  {
    if p.variant == Videl then (g, r)
    else
      match SwitchTarget(p, g.defshiftmod, r.shifter, monoflag)
      case None => (g, r)
      case Some(t) =>
        (g.(sshiftmod := t, swvCalls := g.swvCalls + 1), r.(shifter := MergeRez(r.shifter, t)))
  }

  /** `(*shifter & 0xf8) | newres`, stored back into the byte register: a
      resolution below 8 replaces the low three bits and keeps the rest. */
  function MergeRez(shifter: Byte, t: Byte): (s: Byte)
    ensures t < 8 ==> s / 8 == shifter / 8 && s % 8 == t
  {
    var merged := BitOr(shifter / 8 * 8, t);
    if t < 8 then
      MergeLowBits(shifter, t);
      merged
    else merged % 0x100
  }

  /** Or-ing a resolution below 8 into the upper five bits of a byte stays
      a byte, with those upper bits and the resolution below them. */
  lemma MergeLowBits(shifter: Byte, t: nat)
    requires t < 8
    ensures var merged := BitOr(shifter / 8 * 8, t);
            merged < 0x100 && merged / 8 == shifter / 8 && merged % 8 == t
  {
    BitOrLowBits(shifter / 8 * 8, t);
    DigitUnique(shifter / 8, t, 8);
  }

  /** After a switch the resolution matches the monitor, so the next tick
      with the same reading does nothing: `swv_vec` is called once, not on
      every VBL. Holds when the default mode is a mode of the shifter. */
  lemma {:induction false} SecondTickIsQuiet(p: Platform, g: Globals, r: AtariRegs, monoflag: int)
    requires p.variant != Videl
    requires g.defshiftmod < (if p.variant == Tt then 8 else 4)
    ensures var (g1, r1) := DetectMonitorChange(p, g, r, monoflag);
            && (CurrentRez(p, r1.shifter) == MonoRez(p) <==> monoflag >= 0)
            && DetectMonitorChange(p, g1, r1, monoflag) == (g1, r1)
  {
    var t := SwitchTarget(p, g.defshiftmod, r.shifter, monoflag);
    if t.Some? {
      var (g1, r1) := DetectMonitorChange(p, g, r, monoflag);
      assert r1.shifter % 8 == t.value;
      assert CurrentRez(p, r1.shifter) == t.value;
    }
  }

  /** One VBL tick on a shifter machine, from the raw hardware readings;
      `None` while the DMA-sound loop has not found a stable pass. The
      monitor is monochrome when GPIP bit 7, exclusive-or'ed with "DMA sound
      active" on machines with DMA sound, is clear; the tick switches
      resolution and calls `swv_vec` exactly when that disagrees with the
      current resolution being the monochrome one. */
  function MonitorTick(p: Platform, g: Globals, r: AtariRegs, gpip: Byte, samples: seq<Sample>)
    : (res: Option<(Globals, AtariRegs)>)
    ensures p.variant == Videl ==> res == Some((g, r))
    ensures p.variant != Videl ==> (res.None? <==> Monoflag(p, gpip, samples).None?)
    ensures res.Some? ==> res.value.0.swvCalls <= g.swvCalls + 1
    ensures p.variant != Videl && !p.dmaSound ==>
              res.Some? && (res.value == (g, r) <==> (CurrentRez(p, r.shifter) == MonoRez(p)) == (gpip < 0x80))
    ensures p.variant != Videl && p.dmaSound && res.Some? ==>
              var s := samples[FirstStable(samples).value];
              var mono := (s.gpip1 >= 0x80) == (s.dmaBefore % 2 == 1);
              (res.value == (g, r) <==> (CurrentRez(p, r.shifter) == MonoRez(p)) == mono)
  {
    if p.variant == Videl then Some((g, r))
    else
      match Monoflag(p, gpip, samples)
      case None => None
      case Some(m) => Some(DetectMonitorChange(p, g, r, m))
  }

  /** The same tick with `monoflag` computed as written: it switches
      exactly when the current resolution being the monochrome one
      disagrees with a non-negative `monoflag`. */
  function MonitorTickAsWritten(p: Platform, g: Globals, r: AtariRegs, gpip: Byte, samples: seq<Sample>)
    : (res: Option<(Globals, AtariRegs)>)
    ensures p.variant == Videl ==> res == Some((g, r))
    ensures p.variant != Videl ==> (res.None? <==> MonoflagAsWritten(p, gpip, samples).None?)
    ensures p.variant != Videl && res.Some? ==>
              var flag := MonoflagAsWritten(p, gpip, samples).value;
              (res.value == (g, r) <==> (CurrentRez(p, r.shifter) == MonoRez(p)) == (flag >= 0))
              && (res.value != (g, r) ==> res.value.0.swvCalls == g.swvCalls + 1)
  {
    if p.variant == Videl then Some((g, r))
    else
      match MonoflagAsWritten(p, gpip, samples)
      case None => None
      case Some(m) => Some(DetectMonitorChange(p, g, r, m))
  }

  /** An ST(e) in ST high on a monochrome monitor while DMA sound plays:
      GPIP reads 0x80 on a stable pass. The tick as written sees a colour
      monitor, switches away from ST high and calls `swv_vec`; the corrected
      tick leaves everything as it is. */
  lemma TickAsWrittenRestartsOnMono(p: Platform, g: Globals, r: AtariRegs)
    requires p.dmaSound && p.variant != Videl && p.variant != Tt && r.shifter % 4 == ST_HIGH
    ensures var samples := [Sample(1, 0x80, 0x80, 1)];
            && MonitorTick(p, g, r, 0, samples) == Some((g, r))
            && var w := MonitorTickAsWritten(p, g, r, 0, samples);
               w.Some? && w.value.0.swvCalls == g.swvCalls + 1 && w.value.0.sshiftmod != ST_HIGH
  {
    var samples := [Sample(1, 0x80, 0x80, 1)];
    DmaNegationMisreadsMonitor(p);
    assert CurrentRez(p, r.shifter) == MonoRez(p);
  }
}
