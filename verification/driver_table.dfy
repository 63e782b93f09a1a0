/**
  The driver record the generic front end dispatches through (`SCREEN_DRIVER`,
  fourteen function pointers) and the three tables that fill it. A C
  aggregate initialiser fills the fields in declaration order and leaves the
  fields it does not reach null, so a table is only as good as the order and
  the number of its entries.
 */
module DriverTable {

  /** The fourteen fields of `SCREEN_DRIVER`, in declaration order. */
  datatype Slot =
    | InitSlot | CalcVramSizeSlot | CheckModerezSlot | InitialisePaletteRegistersSlot
    | CanChangeResolutionSlot | GetCurrentModeInfoSlot | SetphysSlot | GetMonitorTypeSlot
    | GetNumberOfColorsNuancesSlot | GetPixelSizeSlot | PhysbaseSlot | SetscreenSlot
    | SetcolorSlot | SetPaletteSlot

  const Slots: seq<Slot> := [
    InitSlot, CalcVramSizeSlot, CheckModerezSlot, InitialisePaletteRegistersSlot,
    CanChangeResolutionSlot, GetCurrentModeInfoSlot, SetphysSlot, GetMonitorTypeSlot,
    GetNumberOfColorsNuancesSlot, GetPixelSizeSlot, PhysbaseSlot, SetscreenSlot,
    SetcolorSlot, SetPaletteSlot
  ]

  /** The source file a function is defined in. */
  datatype Origin = Generic | AtariDriver | Vicky2Driver | Vicky3Driver

  /** A table entry: null, or a named function with the field it was written
      for (the one whose signature and purpose it has). */
  datatype Entry = Null | Fn(name: string, origin: Origin, role: Slot)

  /** The fields an initialiser list fills: entry `i` goes to field `i`, and
      the fields past the end of the list are null. */
  function Fill(inits: seq<Entry>): (table: seq<Entry>)
    requires |inits| <= |Slots|
    ensures |table| == |Slots|
    ensures forall i :: 0 <= i < |inits| ==> table[i] == inits[i]
    ensures forall i :: |inits| <= i < |Slots| ==> table[i] == Null
  {
    inits + seq(|Slots| - |inits|, _ => Null)
  }

  /** The entry the front end calls for a field. */
  function Lookup(table: seq<Entry>, s: Slot): (e: Entry)
    requires |table| == |Slots|
    ensures exists i :: 0 <= i < |Slots| && Slots[i] == s && e == table[i]
  {
    var i := SlotIndex(s);
    table[i]
  }

  /** The position of a field in the record. */
  function SlotIndex(s: Slot): (i: nat)
    ensures i < |Slots| && Slots[i] == s
  {
    match s
    case InitSlot => 0
    case CalcVramSizeSlot => 1
    case CheckModerezSlot => 2
    case InitialisePaletteRegistersSlot => 3
    case CanChangeResolutionSlot => 4
    case GetCurrentModeInfoSlot => 5
    case SetphysSlot => 6
    case GetMonitorTypeSlot => 7
    case GetNumberOfColorsNuancesSlot => 8
    case GetPixelSizeSlot => 9
    case PhysbaseSlot => 10
    case SetscreenSlot => 11
    case SetcolorSlot => 12
    case SetPaletteSlot => 13
  }

  /** A table for a driver is well formed when every field holds a function
      written for that field, from the driver's own file or the generic one. */
  predicate WellFormed(table: seq<Entry>, d: Origin)
  {
    && |table| == |Slots|
    && forall i :: 0 <= i < |Slots| ==>
         table[i].Fn? && table[i].role == Slots[i] && (table[i].origin == d || table[i].origin == Generic)
  }

  /** The generic pixel size rule the VICKY tables use. */
  const StdPixelSizeFn := Fn("get_std_pixel_size", Generic, GetPixelSizeSlot)

  /** `screen_driver_atari` as written: the last entry names the VICKY II
      palette routine. */
  const AtariTableAsWritten: seq<Entry> := Fill([
    Fn("screen_atari_init", AtariDriver, InitSlot),
    Fn("atari_calc_vram_size", AtariDriver, CalcVramSizeSlot),
    Fn("atari_check_moderez", AtariDriver, CheckModerezSlot),
    Fn("initialise_palette_registers_atari", AtariDriver, InitialisePaletteRegistersSlot),
    Fn("screen_can_change_resolution_atari", AtariDriver, CanChangeResolutionSlot),
    Fn("atari_get_current_mode_info", AtariDriver, GetCurrentModeInfoSlot),
    Fn("atari_setphys", AtariDriver, SetphysSlot),
    Fn("atari_get_monitor_type", AtariDriver, GetMonitorTypeSlot),
    Fn("atari_get_palette", AtariDriver, GetNumberOfColorsNuancesSlot),
    Fn("atari_get_pixel_size", AtariDriver, GetPixelSizeSlot),
    Fn("atari_physbase", AtariDriver, PhysbaseSlot),
    Fn("atari_setscreen", AtariDriver, SetscreenSlot),
    Fn("atari_setcolor", AtariDriver, SetcolorSlot),
    Fn("screen_vicky2_set_palette", Vicky2Driver, SetPaletteSlot)
  ])

  /** `a2560_screen_driver_vicky2` as written: thirteen initialisers. */
  const Vicky2TableAsWritten: seq<Entry> := Fill([
    Fn("screen_vicky2_screen_init", Vicky2Driver, InitSlot),
    Fn("screen_vicky2_calc_vram_size", Vicky2Driver, CalcVramSizeSlot),
    Fn("screen_vicky2_check_moderez", Vicky2Driver, CheckModerezSlot),
    Fn("screen_vicky2_initialise_palette_registers", Vicky2Driver, InitialisePaletteRegistersSlot),
    Fn("screen_vicky2_screen_can_change_resolution", Vicky2Driver, CanChangeResolutionSlot),
    Fn("screen_vicky2_get_current_mode_info", Vicky2Driver, GetCurrentModeInfoSlot),
    Fn("screen_vicky2_setphys", Vicky2Driver, SetphysSlot),
    Fn("screen_vicky2_get_monitor_type", Vicky2Driver, GetMonitorTypeSlot),
    Fn("screen_vicky2_screen_get_number_of_colors_nuances", Vicky2Driver, GetNumberOfColorsNuancesSlot),
    StdPixelSizeFn,
    Fn("screen_vicky2_physbase", Vicky2Driver, PhysbaseSlot),
    Fn("screen_vicky2_setscreen", Vicky2Driver, SetscreenSlot),
    Fn("screen_vicky2_set_palette", Vicky2Driver, SetPaletteSlot)
  ])

  /** `a2560_screen_driver_vicky3` as written: thirteen initialisers. */
  const Vicky3TableAsWritten: seq<Entry> := Fill([
    Fn("init", Vicky3Driver, InitSlot),
    Fn("calc_vram_size", Vicky3Driver, CalcVramSizeSlot),
    Fn("check_moderez", Vicky3Driver, CheckModerezSlot),
    Fn("initialise_palette_registers", Vicky3Driver, InitialisePaletteRegistersSlot),
    Fn("can_change_resolution", Vicky3Driver, CanChangeResolutionSlot),
    Fn("get_current_mode_info", Vicky3Driver, GetCurrentModeInfoSlot),
    Fn("setphys", Vicky3Driver, SetphysSlot),
    Fn("get_monitor_type", Vicky3Driver, GetMonitorTypeSlot),
    Fn("get_number_of_colors_nuances", Vicky3Driver, GetNumberOfColorsNuancesSlot),
    StdPixelSizeFn,
    Fn("vicky3_physbase", Vicky3Driver, PhysbaseSlot),
    Fn("vicky3_setscreen", Vicky3Driver, SetscreenSlot),
    Fn("set_palette", Vicky3Driver, SetPaletteSlot)
  ])

  /** As written, the VICKY tables put the palette routine in the Setcolor
      field and leave the palette field null; the Atari table points its
      palette field at the VICKY II routine. */
  lemma AsWrittenTablesAreMisfilled()
    ensures Lookup(Vicky2TableAsWritten, SetcolorSlot).Fn?
            && Lookup(Vicky2TableAsWritten, SetcolorSlot).role == SetPaletteSlot
    ensures Lookup(Vicky2TableAsWritten, SetPaletteSlot) == Null
    ensures Lookup(Vicky3TableAsWritten, SetcolorSlot).Fn?
            && Lookup(Vicky3TableAsWritten, SetcolorSlot).role == SetPaletteSlot
    ensures Lookup(Vicky3TableAsWritten, SetPaletteSlot) == Null
    ensures Lookup(AtariTableAsWritten, SetPaletteSlot).origin == Vicky2Driver
    ensures !WellFormed(AtariTableAsWritten, AtariDriver)
    ensures !WellFormed(Vicky2TableAsWritten, Vicky2Driver)
    ensures !WellFormed(Vicky3TableAsWritten, Vicky3Driver)
  {
    assert AtariTableAsWritten[13].origin == Vicky2Driver;
    assert Vicky2TableAsWritten[13] == Null;
    assert Vicky3TableAsWritten[13] == Null;
  }

  /** The Atari table with its own palette routine. */
  const AtariTable: seq<Entry> := AtariTableAsWritten[13 := Fn("atari_set_palette", AtariDriver, SetPaletteSlot)]

  /** A VICKY table with a Setcolor entry (a stub answering 0, like the
      front end without video hardware) before the palette routine. */
  function WithSetcolor(asWritten: seq<Entry>, d: Origin): (table: seq<Entry>)
    requires |asWritten| == |Slots| && asWritten[12].Fn?
    ensures |table| == |Slots|
    ensures forall i :: 0 <= i < 12 ==> table[i] == asWritten[i]
    ensures table[12] == Fn("setcolor", d, SetcolorSlot)
    ensures table[13] == Fn(asWritten[12].name, d, SetPaletteSlot)
  {
    asWritten[..12] + [Fn("setcolor", d, SetcolorSlot), Fn(asWritten[12].name, d, SetPaletteSlot)]
  }

  const Vicky2Table: seq<Entry> := WithSetcolor(Vicky2TableAsWritten, Vicky2Driver)
  const Vicky3Table: seq<Entry> := WithSetcolor(Vicky3TableAsWritten, Vicky3Driver)

  /** The corrected tables fill every field with a function of their own
      driver (or the generic pixel size rule) written for that field. */
  lemma AtariTableIsWellFormed()
    ensures WellFormed(AtariTable, AtariDriver)
  {
    assert forall i :: 0 <= i < 13 ==> AtariTable[i] == AtariTableAsWritten[i];
  }

  lemma Vicky2TableIsWellFormed()
    ensures WellFormed(Vicky2Table, Vicky2Driver)
  {
    assert forall i :: 0 <= i < 12 ==> Vicky2Table[i] == Vicky2TableAsWritten[i];
  }

  lemma Vicky3TableIsWellFormed()
    ensures WellFormed(Vicky3Table, Vicky3Driver)
  {
    assert forall i :: 0 <= i < 12 ==> Vicky3Table[i] == Vicky3TableAsWritten[i];
  }
}
