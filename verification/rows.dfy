/** The persisted form of an event: one row of the drilling_events table,
    thirteen columns, with the alert flags stored as integers, and the
    column-wise views used by the history and export read paths. */
module Rows {
  import opened Telemetry

  /** One row of drilling_events, columns in table order. The alert columns are
      INTEGER; there is no priority column. */
  datatype Row = Row(
    timestamp: nat,
    bitDepth: Reading, wobs: Reading, rpm: Reading, torque: Reading,
    flowRate: Reading, mudDensity: Reading, annularPressure: Reading,
    predictedRop: Reading,
    mechStick: int, diffStick: int, holeClean: int, mudLoss: int)

  /** Python's int(flag). */
  function EncodeFlag(b: bool): (i: int)
    ensures i == 0 || i == 1
    ensures i != 0 <==> b
  {
    if b then 1 else 0
  }

  /** Python's bool(i) on a stored integer. */
  function DecodeFlag(i: int): (b: bool)
    ensures i == 0 || i == 1 ==> EncodeFlag(b) == i
  {
    i != 0
  }

  /** An integer column written by int(flag). */
  predicate IsFlagColumn(i: int) {
    i == 0 || i == 1
  }

  /** The alert columns of a row hold 0 or 1, as every row ingest writes does. */
  predicate WellFormed(r: Row) {
    IsFlagColumn(r.mechStick) && IsFlagColumn(r.diffStick)
    && IsFlagColumn(r.holeClean) && IsFlagColumn(r.mudLoss)
  }

  /** A history entry: the row read back with bool(...) on the alert columns. */
  function Decode(r: Row): (e: Event)
    ensures e.timestamp == r.timestamp && e.derived.predictedRop == r.predictedRop
    ensures e.sample == Sample(r.bitDepth, r.wobs, r.rpm, r.torque, r.flowRate, r.mudDensity, r.annularPressure)
  {
    Event(r.timestamp,
          Sample(r.bitDepth, r.wobs, r.rpm, r.torque, r.flowRate, r.mudDensity, r.annularPressure),
          Derived(r.predictedRop, DecodeFlag(r.mechStick), DecodeFlag(r.diffStick),
                  DecodeFlag(r.holeClean), DecodeFlag(r.mudLoss)))
  }

  /** The thirteen values ingest binds into the INSERT: raw fields copied,
      alert flags as int(flag). Reading the row back gives the event again. */
  function Encode(e: Event): (r: Row)
    ensures WellFormed(r)
    ensures Decode(r) == e
  {
    var s, d := e.sample, e.derived;
    Row(e.timestamp, s.bitDepth, s.wobs, s.rpm, s.torque, s.flowRate, s.mudDensity,
        s.annularPressure, d.predictedRop,
        EncodeFlag(d.mechanicalSticking), EncodeFlag(d.differentialSticking),
        EncodeFlag(d.holeCleaning), EncodeFlag(d.mudLoss))
  }

  /** Every row ingest writes is recovered exactly from its decoded event. */
  lemma DecodeThenEncode(r: Row)
    requires WellFormed(r)
    ensures Encode(Decode(r)) == r
  {
  }

  /** The columns of drilling_events, in table order. */
  datatype Column =
    | Timestamp | BitDepth | Wobs | Rpm | Torque | FlowRate | MudDensity | AnnularPressure
    | PredictedRop | MechStick | DiffStick | HoleClean | MudLoss

  const TableColumns: seq<Column> :=
    [Timestamp, BitDepth, Wobs, Rpm, Torque, FlowRate, MudDensity, AnnularPressure,
     PredictedRop, MechStick, DiffStick, HoleClean, MudLoss]

  /** The column name in the table definition. */
  function ColumnName(c: Column): string {
    match c
    case Timestamp => "timestamp"
    case BitDepth => "bit_depth"
    case Wobs => "wobs"
    case Rpm => "rpm"
    case Torque => "torque"
    case FlowRate => "flow_rate"
    case MudDensity => "mud_density"
    case AnnularPressure => "annular_pressure"
    case PredictedRop => "predicted_rop"
    case MechStick => "mech_stick_alert"
    case DiffStick => "diff_stick_alert"
    case HoleClean => "hole_clean_alert"
    case MudLoss => "mud_loss_alert"
  }

  /** The name the history entries and the export header give a column. */
  function FieldName(c: Column): string {
    match c
    case MechStick => MechanicalKey
    case DiffStick => DifferentialKey
    case HoleClean => HoleCleaningKey
    case MudLoss => MudLossKey
    case _ => ColumnName(c)
  }

  /** The header line of the CSV export, as listed in export_csv. */
  const ExportHeader: seq<string> :=
    ["timestamp", "bit_depth", "wobs", "rpm", "torque", "flow_rate",
     "mud_density", "annular_pressure", "predicted_rop",
     "mechanical_sticking_alert", "differential_sticking_alert",
     "hole_cleaning_alert", "mud_loss_alert"]

  /** A stored value as the database returns it. */
  datatype Cell = Stamp(t: nat) | Real(x: Reading) | Integer(i: int)

  /** The value of one column of a row. */
  function CellOf(r: Row, c: Column): Cell {
    match c
    case Timestamp => Stamp(r.timestamp)
    case BitDepth => Real(r.bitDepth)
    case Wobs => Real(r.wobs)
    case Rpm => Real(r.rpm)
    case Torque => Real(r.torque)
    case FlowRate => Real(r.flowRate)
    case MudDensity => Real(r.mudDensity)
    case AnnularPressure => Real(r.annularPressure)
    case PredictedRop => Real(r.predictedRop)
    case MechStick => Integer(r.mechStick)
    case DiffStick => Integer(r.diffStick)
    case HoleClean => Integer(r.holeClean)
    case MudLoss => Integer(r.mudLoss)
  }

  /** The tuple of a row, as the INSERT binds it and as SELECT * returns it. */
  function Cells(r: Row): (cs: seq<Cell>)
    ensures |cs| == |TableColumns|
    ensures forall i :: 0 <= i < |cs| ==> cs[i] == CellOf(r, TableColumns[i])
    ensures cs[0] == Stamp(r.timestamp)
  {
    [Stamp(r.timestamp), Real(r.bitDepth), Real(r.wobs), Real(r.rpm), Real(r.torque),
     Real(r.flowRate), Real(r.mudDensity), Real(r.annularPressure), Real(r.predictedRop),
     Integer(r.mechStick), Integer(r.diffStick), Integer(r.holeClean), Integer(r.mudLoss)]
  }

  /** The export header names the table's thirteen columns, in table order,
      with the names the history entries use. */
  lemma ExportHeaderFollowsColumns()
    ensures |ExportHeader| == |TableColumns| == 13
    ensures forall i :: 0 <= i < |ExportHeader| ==> ExportHeader[i] == FieldName(TableColumns[i])
  {
    assert ExportHeader ==
      [FieldName(Timestamp), FieldName(BitDepth), FieldName(Wobs), FieldName(Rpm), FieldName(Torque),
       FieldName(FlowRate), FieldName(MudDensity), FieldName(AnnularPressure), FieldName(PredictedRop),
       FieldName(MechStick), FieldName(DiffStick), FieldName(HoleClean), FieldName(MudLoss)];
  }
}
