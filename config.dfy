/**
 * The preset tables of fluent_control_config.py: liquid classes, tip types,
 * transfer protocols, standard deck layouts and transfer patterns, with the
 * name lookups and key listings over them.
 *
 * A Python dict keeps its keys in declaration order, so each table is an
 * association list: a sequence of (key, value) pairs in the order written.
 */
module FluentConfig {
  import opened Prelude

  // ---------------------------------------------------------------- labels

  datatype LiquidClass =
    Water | Dmso | Ethanol | Standard | HighViscosity | LowVolume | CellCulture | Protein

  /** The declared value of each `LiquidClass` member (`member.value`). */
  function LiquidClassLabel(c: LiquidClass): string {
    match c
    case Water => "Water"
    case Dmso => "DMSO"
    case Ethanol => "Ethanol"
    case Standard => "Standard"
    case HighViscosity => "HighViscosity"
    case LowVolume => "LowVolume"
    case CellCulture => "CellCulture"
    case Protein => "Protein"
  }

  /** Lookup of a member by its value (`LiquidClass(label)`); `None` where Python raises. */
  function LiquidClassFromLabel(s: string): (r: Option<LiquidClass>)
    ensures r.Some? ==> LiquidClassLabel(r.value) == s
  {
    if s == "Water" then Some(Water)
    else if s == "DMSO" then Some(Dmso)
    else if s == "Ethanol" then Some(Ethanol)
    else if s == "Standard" then Some(Standard)
    else if s == "HighViscosity" then Some(HighViscosity)
    else if s == "LowVolume" then Some(LowVolume)
    else if s == "CellCulture" then Some(CellCulture)
    else if s == "Protein" then Some(Protein)
    else None
  }

  lemma LiquidClassLabelRoundTrip(c: LiquidClass)
    ensures LiquidClassFromLabel(LiquidClassLabel(c)) == Some(c)
  {
  }

  /** The labels are pairwise distinct, so a label names one member. */
  lemma LiquidClassLabelsDistinct(a: LiquidClass, b: LiquidClass)
    ensures LiquidClassLabel(a) == LiquidClassLabel(b) ==> a == b
  {
    LiquidClassLabelRoundTrip(a);
    LiquidClassLabelRoundTrip(b);
  }

  datatype TipType =
    Standard10uL | Standard50uL | Standard200uL | Standard1000uL
    | Filtered200uL | Filtered1000uL | LowRetention200uL

  /** The declared value of each `TipType` member. */
  function TipTypeLabel(t: TipType): string {
    match t
    case Standard10uL => "Standard_10uL"
    case Standard50uL => "Standard_50uL"
    case Standard200uL => "Standard_200uL"
    case Standard1000uL => "Standard_1000uL"
    case Filtered200uL => "Filtered_200uL"
    case Filtered1000uL => "Filtered_1000uL"
    case LowRetention200uL => "LowRetention_200uL"
  }

  function TipTypeFromLabel(s: string): (r: Option<TipType>)
    ensures r.Some? ==> TipTypeLabel(r.value) == s
  {
    if s == "Standard_10uL" then Some(Standard10uL)
    else if s == "Standard_50uL" then Some(Standard50uL)
    else if s == "Standard_200uL" then Some(Standard200uL)
    else if s == "Standard_1000uL" then Some(Standard1000uL)
    else if s == "Filtered_200uL" then Some(Filtered200uL)
    else if s == "Filtered_1000uL" then Some(Filtered1000uL)
    else if s == "LowRetention_200uL" then Some(LowRetention200uL)
    else None
  }

  lemma TipTypeLabelRoundTrip(t: TipType)
    ensures TipTypeFromLabel(TipTypeLabel(t)) == Some(t)
  {
  }

  lemma TipTypeLabelsDistinct(a: TipType, b: TipType)
    ensures TipTypeLabel(a) == TipTypeLabel(b) ==> a == b
  {
    TipTypeLabelRoundTrip(a);
    TipTypeLabelRoundTrip(b);
  }

  // ---------------------------------------------------------------- records

  datatype TransferProtocol = TransferProtocol(
    name: string,
    liquidClass: LiquidClass,
    tipType: TipType,
    aspirationSpeed: real,
    dispenseSpeed: real,
    airGap: real,
    touchOff: bool,
    mixCycles: int,
    mixVolume: real,
    blowOut: bool,
    retractDistance: real,
    description: string)

  /** One entry of a layout preset's "positions" list: its "id", "type" and "description". */
  datatype PresetPosition = PresetPosition(id: string, labwareType: string, description: string)

  datatype DeckLayoutPreset = DeckLayoutPreset(description: string, positions: seq<PresetPosition>)

  /** One entry of a pattern's "transfers" list. */
  datatype PatternTransfer = PatternTransfer(source: string, destination: string, volume: real)

  datatype TransferPattern = TransferPattern(description: string, transfers: seq<PatternTransfer>)

  // ---------------------------------------------------------------- keyed tables

  /** A dict literal: its (key, value) pairs in declaration order. */
  type Table<V> = seq<(string, V)>

  /** `list(table.keys())`. */
  function Keys<V>(t: Table<V>): (ks: seq<string>)
    ensures |ks| == |t|
    ensures forall i :: 0 <= i < |t| ==> ks[i] == t[i].0
  {
    seq(|t|, i requires 0 <= i < |t| => t[i].0)
  }

  predicate DistinctKeys<V>(t: Table<V>) {
    forall i, j :: 0 <= i < j < |t| ==> t[i].0 != t[j].0
  }

  /** `table.get(key)`: the value stored under `key`, or `None` for an undeclared key. */
  function Lookup<V>(t: Table<V>, key: string): (r: Option<V>)
    ensures r.Some? <==> key in Keys(t)
    ensures r.Some? ==> (key, r.value) in t
    decreases |t|
  {
    if t == [] then None
    else if t[0].0 == key then Some(t[0].1)
    else
      assert Keys(t) == [t[0].0] + Keys(t[1..]);
      Lookup(t[1..], key)
  }

  /** With distinct keys, looking up the i-th key gives the i-th value. */
  lemma {:induction false} LookupDeclared<V>(t: Table<V>, i: nat)
    requires DistinctKeys(t)
    requires i < |t|
    ensures Lookup(t, t[i].0) == Some(t[i].1)
    decreases i
  {
    if i > 0 {
      assert t[0].0 != t[i].0;
      assert t[1..][i - 1] == t[i];
      LookupDeclared(t[1..], i - 1);
    }
  }

  // ---------------------------------------------------------------- TRANSFER_PROTOCOLS

  const TransferProtocols: Table<TransferProtocol> := [
    ("standard_water", TransferProtocol(
      name := "Standard Water Transfer", liquidClass := Water, tipType := Standard200uL,
      aspirationSpeed := 100.0, dispenseSpeed := 100.0, airGap := 5.0, touchOff := true,
      mixCycles := 3, mixVolume := 25.0, blowOut := true, retractDistance := 2.0,
      description := "Standard protocol for aqueous solutions")),
    ("dmso_transfer", TransferProtocol(
      name := "DMSO Transfer", liquidClass := Dmso, tipType := LowRetention200uL,
      aspirationSpeed := 50.0, dispenseSpeed := 50.0, airGap := 10.0, touchOff := true,
      mixCycles := 5, mixVolume := 30.0, blowOut := true, retractDistance := 3.0,
      description := "Protocol optimized for DMSO and organic solvents")),
    ("cell_culture", TransferProtocol(
      name := "Cell Culture Transfer", liquidClass := CellCulture, tipType := Filtered200uL,
      aspirationSpeed := 30.0, dispenseSpeed := 30.0, airGap := 3.0, touchOff := false,
      mixCycles := 2, mixVolume := 20.0, blowOut := false, retractDistance := 1.0,
      description := "Gentle protocol for cell culture media")),
    ("protein_transfer", TransferProtocol(
      name := "Protein Transfer", liquidClass := Protein, tipType := LowRetention200uL,
      aspirationSpeed := 40.0, dispenseSpeed := 40.0, airGap := 5.0, touchOff := true,
      mixCycles := 4, mixVolume := 25.0, blowOut := true, retractDistance := 2.0,
      description := "Protocol for protein solutions and biological samples"))
  ]

  // ---------------------------------------------------------------- STANDARD_DECK_LAYOUTS

  const StandardDeckLayouts: Table<DeckLayoutPreset> := [
    ("96_well_standard", DeckLayoutPreset("Standard 96-well microplate layout", [
      PresetPosition("A1", "96-well microplate", "Source Plate"),
      PresetPosition("A2", "96-well microplate", "Destination Plate"),
      PresetPosition("A3", "96-tip rack", "Tips 1"),
      PresetPosition("A4", "96-tip rack", "Tips 2"),
      PresetPosition("B1", "reservoir", "Wash Buffer"),
      PresetPosition("B2", "reservoir", "Reagent 1"),
      PresetPosition("B3", "96-tip rack", "Tips 3"),
      PresetPosition("B4", "96-tip rack", "Tips 4")])),
    ("384_well_standard", DeckLayoutPreset("Standard 384-well microplate layout", [
      PresetPosition("A1", "384-well microplate", "Source Plate"),
      PresetPosition("A2", "384-well microplate", "Destination Plate"),
      PresetPosition("A3", "384-tip rack", "Tips 1"),
      PresetPosition("A4", "384-tip rack", "Tips 2"),
      PresetPosition("B1", "reservoir", "Wash Buffer"),
      PresetPosition("B2", "reservoir", "Reagent 1"),
      PresetPosition("B3", "384-tip rack", "Tips 3"),
      PresetPosition("B4", "384-tip rack", "Tips 4")])),
    ("tube_rack_layout", DeckLayoutPreset("Tube rack layout for sample processing", [
      PresetPosition("A1", "24-tube rack", "Sample Tubes"),
      PresetPosition("A2", "96-well microplate", "Destination Plate"),
      PresetPosition("A3", "96-tip rack", "Tips 1"),
      PresetPosition("A4", "96-tip rack", "Tips 2"),
      PresetPosition("B1", "reservoir", "Lysis Buffer"),
      PresetPosition("B2", "reservoir", "Wash Buffer"),
      PresetPosition("B3", "96-tip rack", "Tips 3"),
      PresetPosition("B4", "96-tip rack", "Tips 4")]))
  ]

  // ---------------------------------------------------------------- TRANSFER_PATTERNS

  const TransferPatterns: Table<TransferPattern> := [
    ("serial_dilution", TransferPattern("Serial dilution pattern", [
      PatternTransfer("A1", "A2", 100.0),
      PatternTransfer("A2", "A3", 50.0),
      PatternTransfer("A3", "A4", 50.0),
      PatternTransfer("A4", "A5", 50.0)])),
    ("replicate_transfer", TransferPattern("Replicate transfer pattern", [
      PatternTransfer("A1", "A2", 50.0),
      PatternTransfer("A1", "A3", 50.0),
      PatternTransfer("A1", "A4", 50.0),
      PatternTransfer("A1", "A5", 50.0)])),
    ("multi_source_transfer", TransferPattern("Multiple source to single destination", [
      PatternTransfer("A1", "B1", 25.0),
      PatternTransfer("A2", "B1", 25.0),
      PatternTransfer("A3", "B1", 25.0),
      PatternTransfer("A4", "B1", 25.0)]))
  ]

  // ---------------------------------------------------------------- listings

  function ListAvailableProtocols(): (names: seq<string>)
    ensures names == ["standard_water", "dmso_transfer", "cell_culture", "protein_transfer"]
    ensures names == Keys(TransferProtocols)
  {
    Keys(TransferProtocols)
  }

  function ListAvailableLayouts(): (names: seq<string>)
    ensures names == ["96_well_standard", "384_well_standard", "tube_rack_layout"]
    ensures names == Keys(StandardDeckLayouts)
  {
    Keys(StandardDeckLayouts)
  }

  function ListAvailablePatterns(): (names: seq<string>)
    ensures names == ["serial_dilution", "replicate_transfer", "multi_source_transfer"]
    ensures names == Keys(TransferPatterns)
  {
    Keys(TransferPatterns)
  }

  // ---------------------------------------------------------------- lookups

  /** Every declared key of a table with distinct keys finds its own entry. */
  lemma LookupFindsEntries<V>(t: Table<V>)
    requires DistinctKeys(t)
    ensures forall i :: 0 <= i < |t| ==> Lookup(t, t[i].0) == Some(t[i].1)
  {
    forall i | 0 <= i < |t| ensures Lookup(t, t[i].0) == Some(t[i].1) {
      LookupDeclared(t, i);
    }
  }

  /** `get_transfer_protocol`: the entry of a declared name, `None` for any other name. */
  function GetTransferProtocol(protocolName: string): (r: Option<TransferProtocol>)
    ensures r.Some? <==> protocolName in ListAvailableProtocols()
    ensures forall i :: 0 <= i < |TransferProtocols| && TransferProtocols[i].0 == protocolName ==>
              r == Some(TransferProtocols[i].1)
  {
    LookupFindsEntries(TransferProtocols);
    Lookup(TransferProtocols, protocolName)
  }

  /** `get_deck_layout`. */
  function GetDeckLayout(layoutName: string): (r: Option<DeckLayoutPreset>)
    ensures r.Some? <==> layoutName in ListAvailableLayouts()
    ensures forall i :: 0 <= i < |StandardDeckLayouts| && StandardDeckLayouts[i].0 == layoutName ==>
              r == Some(StandardDeckLayouts[i].1)
  {
    LookupFindsEntries(StandardDeckLayouts);
    Lookup(StandardDeckLayouts, layoutName)
  }

  /** `get_transfer_pattern`. */
  function GetTransferPattern(patternName: string): (r: Option<TransferPattern>)
    ensures r.Some? <==> patternName in ListAvailablePatterns()
    ensures forall i :: 0 <= i < |TransferPatterns| && TransferPatterns[i].0 == patternName ==>
              r == Some(TransferPatterns[i].1)
  {
    LookupFindsEntries(TransferPatterns);
    Lookup(TransferPatterns, patternName)
  }

  // ---------------------------------------------------------------- facts about the tables

  lemma StandardWaterIsNamed()
    ensures GetTransferProtocol("standard_water").Some?
    ensures GetTransferProtocol("standard_water").value.name == "Standard Water Transfer"
  {
    assert TransferProtocols[0].0 == "standard_water";
  }

  /** The eight deck slots every layout preset fills, in the order listed. */
  const StandardSlots: seq<string> := ["A1", "A2", "A3", "A4", "B1", "B2", "B3", "B4"]

  lemma StandardSlotsDistinct()
    ensures forall i, j :: 0 <= i < j < |StandardSlots| ==> StandardSlots[i] != StandardSlots[j]
  {
  }

  /** Each layout preset lists the eight slots A1..A4, B1..B4 once each, in that order. */
  lemma LayoutPresetsCoverStandardSlots(layoutName: string)
    requires layoutName in ListAvailableLayouts()
    ensures GetDeckLayout(layoutName).Some?
    ensures var positions := GetDeckLayout(layoutName).value.positions;
      && |positions| == 8
      && (forall k :: 0 <= k < 8 ==> positions[k].id == StandardSlots[k])
      && (forall i, j :: 0 <= i < j < 8 ==> positions[i].id != positions[j].id)
  {
    var i :| 0 <= i < |StandardDeckLayouts| && StandardDeckLayouts[i].0 == layoutName;
    assert GetDeckLayout(layoutName) == Some(StandardDeckLayouts[i].1);
    StandardSlotsDistinct();
  }

  /** In the "serial_dilution" pattern each transfer starts where the previous one ended. */
  lemma SerialDilutionPatternChains()
    ensures GetTransferPattern("serial_dilution").Some?
    ensures var ts := GetTransferPattern("serial_dilution").value.transfers;
      |ts| == 4 && forall k :: 0 < k < |ts| ==> ts[k].source == ts[k - 1].destination
  {
    assert TransferPatterns[0].0 == "serial_dilution";
  }

  /** "replicate_transfer" draws every transfer from A1; "multi_source_transfer" delivers every one to B1. */
  lemma PatternsMatchTheirDescriptions()
    ensures GetTransferPattern("replicate_transfer").Some?
    ensures forall t :: t in GetTransferPattern("replicate_transfer").value.transfers ==> t.source == "A1"
    ensures GetTransferPattern("multi_source_transfer").Some?
    ensures forall t :: t in GetTransferPattern("multi_source_transfer").value.transfers ==> t.destination == "B1"
  {
    assert TransferPatterns[1].0 == "replicate_transfer";
    assert TransferPatterns[2].0 == "multi_source_transfer";
  }

  /** None of the listings is empty. */
  lemma ListingsNonEmpty()
    ensures |ListAvailableProtocols()| > 0 && |ListAvailableLayouts()| > 0 && |ListAvailablePatterns()| > 0
  {
  }
}
