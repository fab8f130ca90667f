/**
 * fluent_control_examples.py: the example workflows built on the client.
 * Each example builds a transfer list from a protocol preset (serial
 * dilution, A-to-B pairing, a 48-well plate copy) or a custom deck layout
 * and posts it; `run_complete_workflow` chains deck setup, a session, its
 * start and a bounded status-polling loop; `main` guards on the
 * configured credentials and runs everything in order.
 *
 * As in FluentAutomation, `net(n)` answers the n-th request of a run and
 * `clock(n)` is its n-th reading of `time.time()`.
 */
module FluentExamples {
  import opened Prelude
  import opened Text
  import opened JsonModel
  import opened FluentConfig
  import opened FluentAutomation

  // ================================================================ well names and presets

  /** `f"{row}{col}"`. */
  function WellName(row: string, col: nat): (w: string)
    ensures |w| == |row| + |NatToDecimal(col)|
    ensures w[..|row|] == row && w[|row|..] == NatToDecimal(col)
  {
    row + NatToDecimal(col)
  }

  /** Two well names on rows of the same width are equal only for the same row and column. */
  lemma WellNameInjective(row1: string, col1: nat, row2: string, col2: nat)
    requires |row1| == |row2|
    requires WellName(row1, col1) == WellName(row2, col2)
    ensures row1 == row2 && col1 == col2
  {
    var w := WellName(row1, col1);
    assert row1 == w[..|row1|] == row2;
    assert NatToDecimal(col1) == w[|row1|..] == NatToDecimal(col2);
    NatToDecimalInjective(col1, col2);
  }

  /** `get_transfer_protocol(name)` for a name the examples know to be declared. */
  function PresetNamed(name: string): (p: TransferProtocol)
    requires name in ListAvailableProtocols()
    ensures GetTransferProtocol(name) == Some(p)
  {
    GetTransferProtocol(name).value
  }

  /** The three presets the examples use, each declared under its name. */
  const StandardWaterPreset: TransferProtocol := PresetNamed("standard_water")
  const CellCulturePreset: TransferProtocol := PresetNamed("cell_culture")
  const DmsoTransferPreset: TransferProtocol := PresetNamed("dmso_transfer")

  /** A transfer takes the preset's labels and all eight tuning fields unchanged. */
  predicate UsesPreset(t: TransferParameters, p: TransferProtocol) {
    && t.liquidClass == LiquidClassLabel(p.liquidClass)
    && t.tipType == TipTypeLabel(p.tipType)
    && t.aspirationSpeed == Some(p.aspirationSpeed)
    && t.dispenseSpeed == Some(p.dispenseSpeed)
    && t.airGap == Some(p.airGap)
    && t.touchOff == Some(p.touchOff)
    && t.mixCycles == Some(p.mixCycles)
    && t.mixVolume == Some(p.mixVolume)
    && t.blowOut == Some(p.blowOut)
    && t.retractDistance == Some(p.retractDistance)
  }

  /** The `TransferParameters(...)` call each example makes from its preset. */
  function FromPreset(source: string, destination: string, volumeUl: real, p: TransferProtocol): (t: TransferParameters)
    ensures UsesPreset(t, p)
    ensures t.sourcePosition == source && t.destinationPosition == destination && t.volumeUl == volumeUl
  {
    TransferParameters(
      sourcePosition := source,
      destinationPosition := destination,
      volumeUl := volumeUl,
      liquidClass := LiquidClassLabel(p.liquidClass),
      tipType := TipTypeLabel(p.tipType),
      aspirationSpeed := Some(p.aspirationSpeed),
      dispenseSpeed := Some(p.dispenseSpeed),
      airGap := Some(p.airGap),
      touchOff := Some(p.touchOff),
      mixCycles := Some(p.mixCycles),
      mixVolume := Some(p.mixVolume),
      blowOut := Some(p.blowOut),
      retractDistance := Some(p.retractDistance))
  }

  // ================================================================ example 2: serial dilution

  function Pow2(n: nat): (r: nat)
    ensures r >= 1
  {
    if n == 0 then 1 else 2 * Pow2(n - 1)
  }

  /** The transfer of iteration `i` (1 to 5) of the dilution loop. */
  function SerialDilutionStep(i: nat, p: TransferProtocol): TransferParameters {
    FromPreset(if i == 1 then "A1" else WellName("A", i), WellName("A", i + 1), 100.0 / (Pow2(i) as real), p)
  }

  /** The list `example_2_serial_dilution_protocol` builds. */
  function SerialDilutionTransfers(p: TransferProtocol): seq<TransferParameters> {
    seq(5, k requires 0 <= k < 5 => SerialDilutionStep(k + 1, p))
  }

  /** The wells of the five dilution steps, spelled out. */
  lemma SerialDilutionStepWells(p: TransferProtocol)
    ensures SerialDilutionStep(1, p).destinationPosition == "A2" && SerialDilutionStep(2, p).destinationPosition == "A3"
    ensures SerialDilutionStep(3, p).destinationPosition == "A4" && SerialDilutionStep(4, p).destinationPosition == "A5"
    ensures SerialDilutionStep(5, p).destinationPosition == "A6"
  {
    assert NatToDecimal(2) == "2" && NatToDecimal(3) == "3" && NatToDecimal(4) == "4";
    assert NatToDecimal(5) == "5" && NatToDecimal(6) == "6";
  }

  /** Five transfers, into A2, A3, A4, A5 and A6 in that order. */
  lemma SerialDilutionDestinations(p: TransferProtocol)
    ensures |SerialDilutionTransfers(p)| == 5
    ensures forall k :: 0 <= k < 5 ==>
              SerialDilutionTransfers(p)[k].destinationPosition == ["A2", "A3", "A4", "A5", "A6"][k]
  {
    SerialDilutionStepWells(p);
  }

  /** The first transfer draws from A1 and each later one from the previous transfer's destination. */
  lemma SerialDilutionChain(p: TransferProtocol)
    ensures SerialDilutionTransfers(p)[0].sourcePosition == "A1"
    ensures forall k :: 1 <= k < 5 ==>
              SerialDilutionTransfers(p)[k].sourcePosition == SerialDilutionTransfers(p)[k - 1].destinationPosition
  {
    var ts := SerialDilutionTransfers(p);
    forall k | 1 <= k < 5
      ensures ts[k].sourcePosition == ts[k - 1].destinationPosition
    {
      assert ts[k] == SerialDilutionStep(k + 1, p) && ts[k - 1] == SerialDilutionStep(k, p);
    }
  }

  /** Volumes 50, 25, 12.5, 6.25, 3.125: each half the previous; the preset is copied into every transfer. */
  lemma SerialDilutionVolumes(p: TransferProtocol)
    ensures forall k :: 0 <= k < 5 ==> SerialDilutionTransfers(p)[k].volumeUl == [50.0, 25.0, 12.5, 6.25, 3.125][k]
    ensures forall k :: 1 <= k < 5 ==>
              2.0 * SerialDilutionTransfers(p)[k].volumeUl == SerialDilutionTransfers(p)[k - 1].volumeUl
    ensures forall k :: 0 <= k < 5 ==> UsesPreset(SerialDilutionTransfers(p)[k], p)
  {
    assert Pow2(1) == 2 && Pow2(2) == 4 && Pow2(3) == 8 && Pow2(4) == 16 && Pow2(5) == 32;
  }

  // ================================================================ example 3: cell culture

  const CellCultureSources: seq<string> := ["A1", "A2", "A3", "A4"]
  const CellCultureDestinations: seq<string> := ["B1", "B2", "B3", "B4"]

  /** `zip(sources, dests)`: one transfer per pair, up to the shorter list. */
  function PairedTransfers(sources: seq<string>, dests: seq<string>, volumeUl: real, p: TransferProtocol)
    : (ts: seq<TransferParameters>)
    ensures |ts| == if |sources| <= |dests| then |sources| else |dests|
    ensures forall k :: 0 <= k < |ts| ==>
              ts[k] == FromPreset(sources[k], dests[k], volumeUl, p)
  {
    var n := if |sources| <= |dests| then |sources| else |dests|;
    seq(n, k requires 0 <= k < n => FromPreset(sources[k], dests[k], volumeUl, p))
  }

  /** The list `example_3_cell_culture_transfer` builds. */
  function CellCultureTransfers(p: TransferProtocol): seq<TransferParameters> {
    PairedTransfers(CellCultureSources, CellCultureDestinations, 50.0, p)
  }

  /** Four transfers A_k to B_k for k = 1..4, in order, 50 uL each, the preset copied. */
  lemma CellCultureShape(p: TransferProtocol)
    ensures var ts := CellCultureTransfers(p);
      && |ts| == 4
      && (forall k :: 0 <= k < 4 ==>
            && ts[k].sourcePosition == WellName("A", k + 1)
            && ts[k].destinationPosition == WellName("B", k + 1)
            && ts[k].volumeUl == 50.0
            && UsesPreset(ts[k], p))
  {
    assert NatToDecimal(1) == "1" && NatToDecimal(2) == "2" && NatToDecimal(3) == "3" && NatToDecimal(4) == "4";
  }

  // ================================================================ example 4: DMSO plate copy

  const PlateRows: seq<string> := ["A", "B", "C", "D"]
  const PlateColumns: nat := 12

  /** The list `example_4_dmso_compound_transfer` builds: rows A-D, columns 1-12, row-major. */
  function PlateCopyTransfers(p: TransferProtocol): seq<TransferParameters> {
    seq(|PlateRows| * PlateColumns, k requires 0 <= k < |PlateRows| * PlateColumns =>
      var well := WellName(PlateRows[k / PlateColumns], k % PlateColumns + 1);
      FromPreset(well, well, 10.0, p))
  }

  /** Index arithmetic of a row-major grid with twelve columns. */
  lemma RowMajorIndex(r: nat, c: nat)
    requires c < PlateColumns
    ensures (PlateColumns * r + c) / PlateColumns == r && (PlateColumns * r + c) % PlateColumns == c
  {
  }

  /** Two different indices of the plate copy name different wells. */
  lemma PlateWellsDistinct(p: TransferProtocol, i: nat, j: nat)
    requires i < j < |PlateRows| * PlateColumns
    ensures PlateCopyTransfers(p)[i].sourcePosition != PlateCopyTransfers(p)[j].sourcePosition
  {
    var ts := PlateCopyTransfers(p);
    var ri, ci, rj, cj := i / PlateColumns, i % PlateColumns, j / PlateColumns, j % PlateColumns;
    assert ts[i].sourcePosition == WellName(PlateRows[ri], ci + 1);
    assert ts[j].sourcePosition == WellName(PlateRows[rj], cj + 1);
    if ts[i].sourcePosition == ts[j].sourcePosition {
      WellNameInjective(PlateRows[ri], ci + 1, PlateRows[rj], cj + 1);
    }
  }

  /** The entry for row r, column col (counted from 1) of the plate copy. */
  lemma PlateCopyEntry(p: TransferProtocol, r: nat, col: nat)
    requires r < |PlateRows| && 1 <= col <= PlateColumns
    ensures PlateColumns * r + col - 1 < |PlateCopyTransfers(p)|
    ensures PlateCopyTransfers(p)[PlateColumns * r + col - 1]
         == FromPreset(WellName(PlateRows[r], col), WellName(PlateRows[r], col), 10.0, p)
  {
    RowMajorIndex(r, col - 1);
  }

  /**
   * Forty-eight transfers; the one at row r, column c sits at index
   * 12 r + c - 1; each copies a well onto the same well with 10 uL and the
   * preset's settings; no well is visited twice.
   */
  lemma PlateCopyShape(p: TransferProtocol)
    ensures |PlateCopyTransfers(p)| == 48
    ensures forall r, c :: 0 <= r < 4 && 1 <= c <= 12 ==>
              PlateCopyTransfers(p)[PlateColumns * r + c - 1].sourcePosition == WellName(PlateRows[r], c)
    ensures forall k :: 0 <= k < 48 ==>
              && PlateCopyTransfers(p)[k].sourcePosition == PlateCopyTransfers(p)[k].destinationPosition
              && PlateCopyTransfers(p)[k].volumeUl == 10.0
              && UsesPreset(PlateCopyTransfers(p)[k], p)
    ensures forall i, j :: 0 <= i < j < 48 ==>
              PlateCopyTransfers(p)[i].sourcePosition != PlateCopyTransfers(p)[j].sourcePosition
  {
    var ts := PlateCopyTransfers(p);
    forall r, c | 0 <= r < 4 && 1 <= c <= 12
      ensures ts[PlateColumns * r + c - 1].sourcePosition == WellName(PlateRows[r], c)
    {
      PlateCopyEntry(p, r, c);
    }
    forall k | 0 <= k < 48
      ensures ts[k].sourcePosition == ts[k].destinationPosition && ts[k].volumeUl == 10.0 && UsesPreset(ts[k], p)
    {
      var well := WellName(PlateRows[k / PlateColumns], k % PlateColumns + 1);
      assert ts[k] == FromPreset(well, well, 10.0, p);
    }
    forall i, j | 0 <= i < j < 48
      ensures ts[i].sourcePosition != ts[j].sourcePosition
    {
      PlateWellsDistinct(p, i, j);
    }
  }

  // ================================================================ example 5: custom layout

  /** The six positions of `example_5_custom_deck_layout`. */
  function CustomDeckLayout(): seq<LabwarePosition> {
    [
      LabwarePosition("A1", Microplate96, description := Some("Compound Source Plate"), status := Occupied),
      LabwarePosition("A2", Microplate96, description := Some("Assay Destination Plate"), status := Occupied),
      LabwarePosition("A3", TipRack96, description := Some("Low Retention Tips"), status := Occupied),
      LabwarePosition("B1", Reservoir, description := Some("DMSO Control"), status := Occupied),
      LabwarePosition("B2", Reservoir, description := Some("Positive Control"), status := Occupied),
      LabwarePosition("B3", TipRack96, description := Some("Backup Tips"), status := Occupied)
    ]
  }

  /** Six positions with pairwise distinct ids, every one occupied and described. */
  lemma CustomDeckLayoutShape()
    ensures var ps := CustomDeckLayout();
      && |ps| == 6
      && (forall i, j :: 0 <= i < j < 6 ==> ps[i].positionId != ps[j].positionId)
      && (forall k :: 0 <= k < 6 ==> ps[k].status == Occupied && ps[k].description.Some?)
  {
  }

  // ================================================================ the transfer-building loops

  /** The loop of `example_2_serial_dilution_protocol`: `for i in range(1, 6)`, appending one step each. */
  method BuildSerialDilution(protocol: TransferProtocol) returns (transfers: seq<TransferParameters>)
    ensures transfers == SerialDilutionTransfers(protocol)
  {
    transfers := [];
    var sourceWell := "A1";
    var baseVolume := 100.0;
    for i := 1 to 6
      invariant transfers == SerialDilutionTransfers(protocol)[..i - 1]
    {
      var destWell := WellName("A", i + 1);
      var transferVolume := baseVolume / (Pow2(i) as real);
      var transfer := FromPreset(if i == 1 then sourceWell else WellName("A", i), destWell, transferVolume, protocol);
      transfers := transfers + [transfer];
    }
    assert transfers == SerialDilutionTransfers(protocol);
  }

  /** The loop of `example_3_cell_culture_transfer`: `for src, dest in zip(source_wells, dest_wells)`. */
  method BuildCellCultureTransfers(protocol: TransferProtocol) returns (transfers: seq<TransferParameters>)
    ensures transfers == CellCultureTransfers(protocol)
  {
    transfers := [];
    var sourceWells := CellCultureSources;
    var destWells := CellCultureDestinations;
    var pairs := if |sourceWells| <= |destWells| then |sourceWells| else |destWells|;
    ghost var expected := CellCultureTransfers(protocol);
    assert |expected| == pairs;
    for k := 0 to pairs
      invariant transfers == expected[..k]
    {
      var transfer := FromPreset(sourceWells[k], destWells[k], 50.0, protocol);
      assert expected[k] == transfer;
      transfers := transfers + [transfer];
    }
    assert transfers == expected;
  }

  /** The nested loops of `example_4_dmso_compound_transfer`: rows A-D outside, columns 1-12 inside. */
  method BuildPlateCopy(protocol: TransferProtocol) returns (transfers: seq<TransferParameters>)
    ensures transfers == PlateCopyTransfers(protocol)
  {
    transfers := [];
    ghost var expected := PlateCopyTransfers(protocol);
    for r := 0 to |PlateRows|
      invariant transfers == expected[..PlateColumns * r]
    {
      var row := PlateRows[r];
      for col := 1 to PlateColumns + 1
        invariant transfers == expected[..PlateColumns * r + col - 1]
      {
        var sourceWell := WellName(row, col);
        var destWell := WellName(row, col);
        var transfer := FromPreset(sourceWell, destWell, 10.0, protocol);
        PlateCopyEntry(protocol, r, col);
        transfers := transfers + [transfer];
      }
    }
    assert transfers == expected;
  }

  // ================================================================ the examples object

  /** Why `run_complete_workflow` raised: a request failed, or the session came back without an id. */
  datatype WorkflowError = RequestFailed(failure: RequestFailure) | MissingSessionId

  /** The bound of the loop in `run_complete_workflow`. */
  const WorkflowPollLimit: nat := 20

  /** `f(n), f(n + 1), ...`: the requests or clock readings left after the first n. */
  function Shift<T>(f: nat -> T, n: nat): (g: nat -> T)
    ensures forall k: nat :: g(k) == f(n + k)
  {
    (k: nat) => f(n + k)
  }

  class FluentControlExamples {
    const client: FluentControlClient

    constructor (instrumentUrl: string, username: Option<string> := None, password: Option<string> := None,
                 apiKey: Option<string> := None)
      ensures fresh(client) && fresh(client.session)
      ensures client.Valid() && client.baseUrl == TrimTrailing(instrumentUrl, '/') && client.timeout == 30
      ensures client.session.auth ==
        (match SelectAuth(username, password, apiKey) case BasicAuth(c) => Some(c) case _ => None)
      ensures "Content-Type" in client.session.headers && client.session.headers["Content-Type"] == "application/json"
      ensures Provided(apiKey) ==> client.session.headers == ContentTypeJson["Authorization" := "Bearer " + apiKey.value]
      ensures !Provided(apiKey) ==> client.session.headers == ContentTypeJson
    {
      client := new FluentControlClient(instrumentUrl, username, password, apiKey);
    }

    /**
     * What `example_1_basic_deck_setup` returns: the answer to posting the
     * standard layout, provided reading the layout back succeeds too.
     */
    function DeckSetupSpec(now: real, postNet: HttpRequest -> Reply, getNet: HttpRequest -> Reply)
      : (r: Result<JsonObject, RequestFailure>)
      reads client.session
      ensures var posted := client.PostDeckLayout(Standard96Layout(), now, postNet);
        && (r.Success? <==> posted.Success? && client.Call(ReadDeckLayout, getNet).Success?)
        && (r.Success? ==> r == posted)
        && (posted.Failure? ==> r == posted)
    {
      match client.PostDeckLayout(Standard96Layout(), now, postNet)
      case Failure(e) => Failure(e)
      case Success(response) =>
        match client.Call(ReadDeckLayout, getNet)
        case Failure(e) => Failure(e)
        case Success(_) => Success(response)
    }

    /** `example_1_basic_deck_setup`: post the standard layout, then read the deck layout back. */
    method Example1BasicDeckSetup(now: real, postNet: HttpRequest -> Reply, getNet: HttpRequest -> Reply)
      returns (r: Result<JsonObject, RequestFailure>)
      ensures r == DeckSetupSpec(now, postNet, getNet)
    {
      var deckPositions := CreateStandard96WellLayout();
      var response := client.PostDeckLayout(deckPositions, now, postNet);
      if response.Failure? {
        return response;
      }
      var currentLayout := client.Call(ReadDeckLayout, getNet);
      if currentLayout.Failure? {
        return Failure(currentLayout.error);
      }
      return response;
    }

    /** `example_2_serial_dilution_protocol`: five dilution steps from "standard_water", posted as one session. */
    method Example2SerialDilutionProtocol(idTime: real, now: real, send: HttpRequest -> Reply)
      returns (r: Result<JsonObject, RequestFailure>)
      ensures r == client.PostTransferSession(SerialDilutionTransfers(StandardWaterPreset), idTime, now, send)
    {
      var protocol := PresetNamed("standard_water");
      var transfers := BuildSerialDilution(protocol);
      r := client.PostTransferSession(transfers, idTime, now, send);
    }

    /** `example_3_cell_culture_transfer`: A1..A4 paired with B1..B4 under "cell_culture". */
    method Example3CellCultureTransfer(idTime: real, now: real, send: HttpRequest -> Reply)
      returns (r: Result<JsonObject, RequestFailure>)
      ensures r == client.PostTransferSession(CellCultureTransfers(CellCulturePreset), idTime, now, send)
    {
      var protocol := PresetNamed("cell_culture");
      var transfers := BuildCellCultureTransfers(protocol);
      r := client.PostTransferSession(transfers, idTime, now, send);
    }

    /** `example_4_dmso_compound_transfer`: every well of rows A-D onto itself under "dmso_transfer". */
    method Example4DmsoCompoundTransfer(idTime: real, now: real, send: HttpRequest -> Reply)
      returns (r: Result<JsonObject, RequestFailure>)
      ensures r == client.PostTransferSession(PlateCopyTransfers(DmsoTransferPreset), idTime, now, send)
    {
      var protocol := PresetNamed("dmso_transfer");
      var transfers := BuildPlateCopy(protocol);
      r := client.PostTransferSession(transfers, idTime, now, send);
    }

    /** `example_5_custom_deck_layout`: post the six-slot custom layout. */
    method Example5CustomDeckLayout(now: real, send: HttpRequest -> Reply)
      returns (r: Result<JsonObject, RequestFailure>)
      ensures r == client.PostDeckLayout(CustomDeckLayout(), now, send)
    {
      var customPositions := CustomDeckLayout();
      r := client.PostDeckLayout(customPositions, now, send);
    }

    /**
     * The monitoring loop of `run_complete_workflow`: up to twenty status
     * calls; a body without "status" reads as "unknown", which is not
     * terminal, so it behaves as the shared polling definition.
     */
    method MonitorProgress(sessionId: string, net: nat -> HttpRequest -> Reply, first: nat)
      returns (o: PollOutcome)
      ensures o == PollFrom(client, sessionId, net, first, WorkflowPollLimit, 0)
    {
      for attempt := 0 to WorkflowPollLimit
        invariant PollFrom(client, sessionId, net, first, WorkflowPollLimit, 0)
               == PollFrom(client, sessionId, net, first, WorkflowPollLimit, attempt)
      {
        var statusResponse := client.Call(SessionStatus(sessionId), net(first + attempt));
        if statusResponse.Failure? {
          return PollFailed(statusResponse.error, attempt + 1);
        }
        var status := GetFieldOr(statusResponse.value, "status", JString("unknown"));
        if IsTerminal(status) {
          return Reached(status.s, attempt + 1);
        }
      }
      return NotReached(WorkflowPollLimit);
    }

    /**
     * `run_complete_workflow` over requests 0 (layout), 1 (layout read-back),
     * 2 (session), 3 (start) and 4 on (status), with clock readings 0 to 2.
     */
    function CompleteWorkflowSpec(net: nat -> HttpRequest -> Reply, clock: nat -> real): Result<string, WorkflowError>
      reads client.session
    {
      match DeckSetupSpec(clock(0), net(0), net(1))
      case Failure(e) => Failure(RequestFailed(e))
      case Success(_) =>
        match client.PostTransferSession(SerialDilutionTransfers(StandardWaterPreset), clock(1), clock(2), net(2))
        case Failure(e) => Failure(RequestFailed(e))
        case Success(sessionResponse) =>
          match SessionIdOf(sessionResponse)
          case None => Failure(MissingSessionId)
          case Some(id) =>
            match client.Call(StartSession(id), net(3))
            case Failure(e) => Failure(RequestFailed(e))
            case Success(_) =>
              match PollFrom(client, id, net, 4, WorkflowPollLimit, 0)
              case PollFailed(e, _) => Failure(RequestFailed(e))
              case _ => Success(id)
    }

    /** `run_complete_workflow`: set up the deck, create and start a session, monitor it, return its id. */
    method RunCompleteWorkflow(net: nat -> HttpRequest -> Reply, clock: nat -> real)
      returns (r: Result<string, WorkflowError>)
      ensures r == CompleteWorkflowSpec(net, clock)
    {
      var setup := Example1BasicDeckSetup(clock(0), net(0), net(1));
      if setup.Failure? {
        return Failure(RequestFailed(setup.error));
      }
      var sessionResponse := Example2SerialDilutionProtocol(clock(1), clock(2), net(2));
      if sessionResponse.Failure? {
        return Failure(RequestFailed(sessionResponse.error));
      }
      var sessionId := SessionIdOf(sessionResponse.value);
      if sessionId.None? {
        return Failure(MissingSessionId);
      }
      var startResponse := client.Call(StartSession(sessionId.value), net(3));
      if startResponse.Failure? {
        return Failure(RequestFailed(startResponse.error));
      }
      var outcome := MonitorProgress(sessionId.value, net, 4);
      if outcome.PollFailed? {
        return Failure(RequestFailed(outcome.error));
      }
      return Success(sessionId.value);
    }

    /**
     * A session answer without a usable id raises before `start` is called:
     * no request from number 3 on is made, so later replies cannot matter.
     */
    lemma WorkflowStopsWithoutSessionId(net: nat -> HttpRequest -> Reply, other: nat -> HttpRequest -> Reply,
                                        clock: nat -> real)
      requires forall k: nat, q: HttpRequest :: k < 3 ==> net(k)(q) == other(k)(q)
      requires DeckSetupSpec(clock(0), net(0), net(1)).Success?
      requires var s := client.PostTransferSession(SerialDilutionTransfers(StandardWaterPreset), clock(1), clock(2), net(2));
        s.Success? && SessionIdOf(s.value).None?
      ensures CompleteWorkflowSpec(net, clock) == Failure(MissingSessionId)
      ensures CompleteWorkflowSpec(other, clock) == Failure(MissingSessionId)
    {
      assert DeckSetupSpec(clock(0), net(0), net(1)) == DeckSetupSpec(clock(0), other(0), other(1));
      var ts := SerialDilutionTransfers(StandardWaterPreset);
      assert client.PostTransferSession(ts, clock(1), clock(2), net(2))
          == client.PostTransferSession(ts, clock(1), clock(2), other(2));
    }

    /**
     * Twenty non-terminal status answers are not an error: the workflow still
     * returns the session id.
     */
    lemma WorkflowSucceedsWithoutTerminalStatus(net: nat -> HttpRequest -> Reply, clock: nat -> real, id: string)
      requires DeckSetupSpec(clock(0), net(0), net(1)).Success?
      requires var s := client.PostTransferSession(SerialDilutionTransfers(StandardWaterPreset), clock(1), clock(2), net(2));
        s.Success? && SessionIdOf(s.value) == Some(id)
      requires client.Call(StartSession(id), net(3)).Success?
      requires forall j :: 0 <= j < WorkflowPollLimit ==> StillPending(client, id, net, 4, j)
      ensures CompleteWorkflowSpec(net, clock) == Success(id)
    {
      PollGivesUpQuietly(client, id, net, 4, WorkflowPollLimit, 0);
      WorkflowReturnsIdWhateverTheStatus(net, clock, id);
    }

    /**
     * Once the session is started, the workflow returns its id whatever the
     * polls observed (a `failed` or `cancelled` status, or none terminal);
     * only a failing status request makes it fail, with that request's error.
     */
    lemma WorkflowReturnsIdWhateverTheStatus(net: nat -> HttpRequest -> Reply, clock: nat -> real, id: string)
      requires DeckSetupSpec(clock(0), net(0), net(1)).Success?
      requires var s := client.PostTransferSession(SerialDilutionTransfers(StandardWaterPreset), clock(1), clock(2), net(2));
        s.Success? && SessionIdOf(s.value) == Some(id)
      requires client.Call(StartSession(id), net(3)).Success?
      ensures !PollFrom(client, id, net, 4, WorkflowPollLimit, 0).PollFailed? ==> CompleteWorkflowSpec(net, clock) == Success(id)
      ensures PollFrom(client, id, net, 4, WorkflowPollLimit, 0).PollFailed? ==>
                CompleteWorkflowSpec(net, clock) == Failure(RequestFailed(PollFrom(client, id, net, 4, WorkflowPollLimit, 0).error))
    {
    }

    /**
     * `main` after the guard: instrument status (request 0), examples 1 to 5
     * (requests 1 to 6, clock readings 0 to 7), then the complete workflow
     * on the remaining requests and readings. `None` means it finished; an
     * error is what made it exit.
     */
    function RunAllExamplesSpec(net: nat -> HttpRequest -> Reply, clock: nat -> real): Option<WorkflowError>
      reads client.session
    {
      match client.Call(InstrumentStatus, net(0))
      case Failure(e) => Some(RequestFailed(e))
      case Success(_) =>
        match DeckSetupSpec(clock(0), net(1), net(2))
        case Failure(e) => Some(RequestFailed(e))
        case Success(_) =>
          match client.PostTransferSession(SerialDilutionTransfers(StandardWaterPreset), clock(1), clock(2), net(3))
          case Failure(e) => Some(RequestFailed(e))
          case Success(_) =>
            match client.PostTransferSession(CellCultureTransfers(CellCulturePreset), clock(3), clock(4), net(4))
            case Failure(e) => Some(RequestFailed(e))
            case Success(_) =>
              match client.PostTransferSession(PlateCopyTransfers(DmsoTransferPreset), clock(5), clock(6), net(5))
              case Failure(e) => Some(RequestFailed(e))
              case Success(_) =>
                match client.PostDeckLayout(CustomDeckLayout(), clock(7), net(6))
                case Failure(e) => Some(RequestFailed(e))
                case Success(_) =>
                  match CompleteWorkflowSpec(Shift(net, 7), Shift(clock, 8))
                  case Failure(e) => Some(e)
                  case Success(_) => None
    }

    /** The body of `main` once the examples object exists. */
    method RunAllExamples(net: nat -> HttpRequest -> Reply, clock: nat -> real) returns (failure: Option<WorkflowError>)
      ensures failure == RunAllExamplesSpec(net, clock)
    {
      var status := client.Call(InstrumentStatus, net(0));
      if status.Failure? {
        return Some(RequestFailed(status.error));
      }
      var r1 := Example1BasicDeckSetup(clock(0), net(1), net(2));
      if r1.Failure? {
        return Some(RequestFailed(r1.error));
      }
      var r2 := Example2SerialDilutionProtocol(clock(1), clock(2), net(3));
      if r2.Failure? {
        return Some(RequestFailed(r2.error));
      }
      var r3 := Example3CellCultureTransfer(clock(3), clock(4), net(4));
      if r3.Failure? {
        return Some(RequestFailed(r3.error));
      }
      var r4 := Example4DmsoCompoundTransfer(clock(5), clock(6), net(5));
      if r4.Failure? {
        return Some(RequestFailed(r4.error));
      }
      var r5 := Example5CustomDeckLayout(clock(7), net(6));
      if r5.Failure? {
        return Some(RequestFailed(r5.error));
      }
      var workflow := RunCompleteWorkflow(Shift(net, 7), Shift(clock, 8));
      if workflow.Failure? {
        return Some(workflow.error);
      }
      return None;
    }

    /** The status call and examples 1 to 5 all succeed on requests 0 to 6. */
    predicate ExamplesSucceed(net: nat -> HttpRequest -> Reply, clock: nat -> real)
      reads client.session
    {
      && client.Call(InstrumentStatus, net(0)).Success?
      && DeckSetupSpec(clock(0), net(1), net(2)).Success?
      && client.PostTransferSession(SerialDilutionTransfers(StandardWaterPreset), clock(1), clock(2), net(3)).Success?
      && client.PostTransferSession(CellCultureTransfers(CellCulturePreset), clock(3), clock(4), net(4)).Success?
      && client.PostTransferSession(PlateCopyTransfers(DmsoTransferPreset), clock(5), clock(6), net(5)).Success?
      && client.PostDeckLayout(CustomDeckLayout(), clock(7), net(6)).Success?
    }

    /**
     * `main` finishes without an error exactly when the status call, all
     * five examples and the complete workflow succeed; when only the
     * workflow fails, its error is what `main` reports; when an earlier
     * step fails, the error is that step's request failure.
     */
    lemma AllExamplesFinishOnlyIfEverythingSucceeds(net: nat -> HttpRequest -> Reply, clock: nat -> real)
      ensures RunAllExamplesSpec(net, clock).None? <==>
                ExamplesSucceed(net, clock) && CompleteWorkflowSpec(Shift(net, 7), Shift(clock, 8)).Success?
      ensures ExamplesSucceed(net, clock) && CompleteWorkflowSpec(Shift(net, 7), Shift(clock, 8)).Failure? ==>
                RunAllExamplesSpec(net, clock) == Some(CompleteWorkflowSpec(Shift(net, 7), Shift(clock, 8)).error)
      ensures !ExamplesSucceed(net, clock) ==> RunAllExamplesSpec(net, clock).Some? && RunAllExamplesSpec(net, clock).value.RequestFailed?
    {
    }

    /**
     * An unreachable or failing instrument-status call ends `main` with that
     * failure: no other request is made, so their answers cannot matter.
     */
    lemma AllExamplesStopAtStatusFailure(net: nat -> HttpRequest -> Reply, other: nat -> HttpRequest -> Reply,
                                         clock: nat -> real)
      requires forall q: HttpRequest :: net(0)(q) == other(0)(q)
      requires client.Call(InstrumentStatus, net(0)).Failure?
      ensures RunAllExamplesSpec(net, clock) == Some(RequestFailed(client.Call(InstrumentStatus, net(0)).error))
      ensures RunAllExamplesSpec(other, clock) == RunAllExamplesSpec(net, clock)
    {
      assert client.Call(InstrumentStatus, net(0)) == client.Call(InstrumentStatus, other(0));
    }

    /**
     * When the status call or an example fails, the complete workflow never
     * runs: the answers to requests from number 7 on do not matter.
     */
    lemma AllExamplesSkipWorkflowAfterFailure(net: nat -> HttpRequest -> Reply, other: nat -> HttpRequest -> Reply,
                                              clock: nat -> real)
      requires forall k: nat, q: HttpRequest :: k < 7 ==> net(k)(q) == other(k)(q)
      requires !ExamplesSucceed(net, clock)
      ensures RunAllExamplesSpec(other, clock) == RunAllExamplesSpec(net, clock)
    {
      ExamplesUseRequestsUpToSix(net, other, clock);
    }

    /** Each step before the complete workflow gives the same result on runs that agree on requests 0 to 6. */
    lemma ExamplesUseRequestsUpToSix(net: nat -> HttpRequest -> Reply, other: nat -> HttpRequest -> Reply,
                                     clock: nat -> real)
      requires forall k: nat, q: HttpRequest :: k < 7 ==> net(k)(q) == other(k)(q)
      ensures client.Call(InstrumentStatus, net(0)) == client.Call(InstrumentStatus, other(0))
      ensures DeckSetupSpec(clock(0), net(1), net(2)) == DeckSetupSpec(clock(0), other(1), other(2))
      ensures client.PostTransferSession(SerialDilutionTransfers(StandardWaterPreset), clock(1), clock(2), net(3))
           == client.PostTransferSession(SerialDilutionTransfers(StandardWaterPreset), clock(1), clock(2), other(3))
      ensures client.PostTransferSession(CellCultureTransfers(CellCulturePreset), clock(3), clock(4), net(4))
           == client.PostTransferSession(CellCultureTransfers(CellCulturePreset), clock(3), clock(4), other(4))
      ensures client.PostTransferSession(PlateCopyTransfers(DmsoTransferPreset), clock(5), clock(6), net(5))
           == client.PostTransferSession(PlateCopyTransfers(DmsoTransferPreset), clock(5), clock(6), other(5))
      ensures client.PostDeckLayout(CustomDeckLayout(), clock(7), net(6)) == client.PostDeckLayout(CustomDeckLayout(), clock(7), other(6))
    {
      assert DeckSetupSpec(clock(0), net(1), net(2)) == DeckSetupSpec(clock(0), other(1), other(2));
    }
  }

  // ================================================================ the guard of main

  /** `any([USERNAME, API_KEY])`: the examples run only with a username or an API key. */
  predicate MayRunExamples(username: Option<string>, apiKey: Option<string>) {
    Provided(username) || Provided(apiKey)
  }

  /**
   * The guard passes exactly when the client will authenticate, or when a
   * username comes without a password: the password is never checked, so
   * that configuration runs with no authentication at all.
   */
  lemma GuardAdmitsUnauthenticatedRuns(username: Option<string>, password: Option<string>, apiKey: Option<string>)
    ensures MayRunExamples(username, apiKey) <==>
              SelectAuth(username, password, apiKey) != NoAuth || (Provided(username) && !Provided(password))
    ensures Provided(username) && !Provided(password) && !Provided(apiKey) ==>
              MayRunExamples(username, apiKey) && SelectAuth(username, password, apiKey) == NoAuth
  {
  }
}
