/** The raw tier built from an MGDO tree: per-channel tables named by
    `_tblid`, the fixed column schema of `_make_lh5_channel_buffer`, and the
    decode loop of `build_tier_raw_mgdo` stated as a fold over the events.
    The imperative loop over buffer objects is in module RawMgdoBuild and is
    proved equal to this fold. */
module RawMgdo {
  import opened Common

  // ---------------------------------------------------------------------------
  // Table names

  /** `_tblid(id)`, i.e. `f"ch{id:03d}/raw"`. */
  function TableId(rawid: int): string
  {
    "ch" + FormatInt(rawid, 3) + "/raw"
  }

  /** Reads a channel id back from a table name. */
  function ParseTableId(name: string): Option<int>
  {
    if |name| >= 6 && name[..2] == "ch" && name[|name| - 4..] == "/raw"
    then ParseInt(name[2..|name| - 4])
    else None
  }

  lemma TableIdRoundTrip(rawid: int)
    ensures ParseTableId(TableId(rawid)) == Some(rawid)
  {
    var digits := FormatInt(rawid, 3);
    var name := TableId(rawid);
    FormatIntRoundTrip(rawid, 3);
    assert ParseInt(digits).Some?;
    assert name[..2] == "ch" && name[|name| - 4..] == "/raw";
    assert name[2..|name| - 4] == digits;
  }

  /** Distinct channel ids never share a table. */
  lemma TableIdInjective(a: int, b: int)
    requires TableId(a) == TableId(b)
    ensures a == b
  {
    TableIdRoundTrip(a);
    TableIdRoundTrip(b);
  }

  /** For a non-negative id: "ch", then at least three digits (more when the id
      needs them, never truncated), then "/raw". */
  lemma TableIdShape(rawid: nat)
    ensures var name := TableId(rawid);
      && name[..2] == "ch"
      && name[|name| - 4..] == "/raw"
      && AllDigits(name[2..|name| - 4])
      && |name| - 6 == (if |Decimal(rawid)| < 3 then 3 else |Decimal(rawid)|)
      && DigitsValue(name[2..|name| - 4]) == rawid
  {
    FormatIntShape(rawid, 3);
    ZeroPadValue(rawid, 3);
    var name := TableId(rawid);
    assert name[2..|name| - 4] == FormatInt(rawid, 3);
  }

  // ---------------------------------------------------------------------------
  // The column schema of a channel buffer

  const DefaultBufferSize: nat := 1024

  datatype DType = Float64 | Int32 | UInt32 | Bool | UInt16 | Int64

  datatype Unit = Seconds | Hertz

  /** The columns of a channel table. */
  datatype ColumnName =
    | Timestamp | DaqEnergySum | TimeOfFirstHitSec | EventType | DaqCrate | DaqCard
    | DaqChannel | ClockFreqHz | BitResolution | NrOfChannels | EventNumber | PreTrigger
    | TriggerNumber | IsMuonVetoed | MuonVetoSample | WaveformTag | IsInverted
    | WaveformCol | WaveformPresummed | WaveformWindowed | T0 | Dt

  /** The name of a column in the LH5 file. */
  function Label(c: ColumnName): string
  {
    match c
    case Timestamp => "timestamp"
    case DaqEnergySum => "daq_energy_sum"
    case TimeOfFirstHitSec => "time_of_first_hit_sec"
    case EventType => "event_type"
    case DaqCrate => "daq_crate"
    case DaqCard => "daq_card"
    case DaqChannel => "daq_channel"
    case ClockFreqHz => "clock_freq_hz"
    case BitResolution => "bit_resolution"
    case NrOfChannels => "nr_of_channels"
    case EventNumber => "event_number"
    case PreTrigger => "pre_trigger"
    case TriggerNumber => "trigger_number"
    case IsMuonVetoed => "is_muon_vetoed"
    case MuonVetoSample => "muon_veto_sample"
    case WaveformTag => "waveform_tag"
    case IsInverted => "is_inverted"
    case WaveformCol => "waveform"
    case WaveformPresummed => "waveform_presummed"
    case WaveformWindowed => "waveform_windowed"
    case T0 => "t0"
    case Dt => "dt"
  }

  /** One `Array(shape=(length,), dtype=...)`, with its unit attribute if any. */
  datatype Column = Column(name: ColumnName, dtype: DType, length: nat, units: Option<Unit>)

  /** One `WaveformTable`: `t0` and `dt` columns and a `values` array of
      `length` rows of `wfLen` samples. */
  datatype WaveformColumn = WaveformColumn(
    name: ColumnName, length: nat, wfLen: nat, t0: Column, dt: Column, valuesType: DType)

  datatype WaveformColumns =
    | SingleColumn(waveform: WaveformColumn)
    | SplitColumns(presummed: WaveformColumn, windowed: WaveformColumn)

  datatype Schema = Schema(size: nat, scalars: seq<Column>, waves: WaveformColumns)

  /** A waveform as the MGDO event exposes it: the sampling period and time
      offset as the integers the `int` columns `dt` and `t0` receive, and the
      samples as the integers the `uint16` values array stores. */
  datatype Waveform = Waveform(samplingPeriod: int, tOffset: int, samples: seq<int>)

  /** Column `k` of the 17 scalar columns, in the order the buffer declares them. */
  function ScalarColumn(k: nat, size: nat): Column
  {
    if k == 0 then Column(Timestamp, Float64, size, Some(Seconds))
    else if k == 1 then Column(DaqEnergySum, Float64, size, None)
    else if k == 2 then Column(TimeOfFirstHitSec, Float64, size, None)
    else if k == 3 then Column(EventType, Int32, size, None)
    else if k == 4 then Column(DaqCrate, UInt32, size, None)
    else if k == 5 then Column(DaqCard, UInt32, size, None)
    else if k == 6 then Column(DaqChannel, UInt32, size, None)
    else if k == 7 then Column(ClockFreqHz, Float64, size, Some(Hertz))
    else if k == 8 then Column(BitResolution, UInt32, size, None)
    else if k == 9 then Column(NrOfChannels, UInt32, size, None)
    else if k == 10 then Column(EventNumber, Int32, size, None)
    else if k == 11 then Column(PreTrigger, UInt32, size, None)
    else if k == 12 then Column(TriggerNumber, UInt32, size, None)
    else if k == 13 then Column(IsMuonVetoed, Bool, size, None)
    else if k == 14 then Column(MuonVetoSample, UInt32, size, None)
    else if k == 15 then Column(WaveformTag, Int32, size, None)
    else Column(IsInverted, Bool, size, None)
  }

  function ScalarColumns(size: nat): (cols: seq<Column>)
    ensures |cols| == 17
  {
    seq(17, k requires 0 <= k < 17 => ScalarColumn(k, size))
  }

  function WaveformColumnFor(name: ColumnName, wf: Waveform, size: nat): WaveformColumn
  {
    WaveformColumn(name, size, |wf.samples|,
                   Column(T0, Int64, size, Some(Seconds)), Column(Dt, Int64, size, Some(Seconds)), UInt16)
  }

  /** Every top-level column of a schema, scalars first. */
  function ColumnNames(schema: Schema): seq<ColumnName>
  {
    (seq(|schema.scalars|, i requires 0 <= i < |schema.scalars| => schema.scalars[i].name)) +
    match schema.waves
    case SingleColumn(w) => [w.name]
    case SplitColumns(p, w) => [p.name, w.name]
  }

  /** Every array of a schema has `size` rows. */
  ghost predicate UniformLength(schema: Schema)
  {
    && (forall i :: 0 <= i < |schema.scalars| ==> schema.scalars[i].length == schema.size)
    && match schema.waves
       case SingleColumn(w) => WaveLength(w, schema.size)
       case SplitColumns(p, w) => WaveLength(p, schema.size) && WaveLength(w, schema.size)
  }

  ghost predicate WaveLength(w: WaveformColumn, size: nat)
  {
    w.length == size && w.t0.length == size && w.dt.length == size
  }

  ghost predicate DistinctNames(names: seq<ColumnName>)
  {
    forall i, j :: 0 <= i < j < |names| ==> names[i] != names[j]
  }

  /** `_make_lh5_channel_buffer(wf, wf_win, wf_pre, size)`. Without `wf`, both
      `wf_pre` and `wf_win` are needed (`None.GetLength()` fails otherwise). */
  function MakeChannelBuffer(wf: Option<Waveform>, wfWin: Option<Waveform>, wfPre: Option<Waveform>,
                             size: nat): (r: Result<Schema, RawError>)
    ensures r.Ok? <==> wf.Some? || (wfPre.Some? && wfWin.Some?)
    ensures r.Ok? ==> r.value.size == size
  {
    if wf.Some? then
      Ok(Schema(size, ScalarColumns(size), SingleColumn(WaveformColumnFor(WaveformCol, wf.value, size))))
    else if wfPre.None? || wfWin.None? then Err(NoWaveform)
    else
      Ok(Schema(size, ScalarColumns(size), SplitColumns(WaveformColumnFor(WaveformPresummed, wfPre.value, size),
                                                        WaveformColumnFor(WaveformWindowed, wfWin.value, size))))
  }

  /** A buffer made by `_make_lh5_channel_buffer` has the 17 scalar columns,
      every array `size` rows long, no two top-level columns of the same
      name, and one waveform table of the given waveform's length, or the
      presummed and windowed pair. */
  lemma MakeChannelBufferShape(wf: Option<Waveform>, wfWin: Option<Waveform>, wfPre: Option<Waveform>, size: nat)
    requires MakeChannelBuffer(wf, wfWin, wfPre, size).Ok?
    ensures var schema := MakeChannelBuffer(wf, wfWin, wfPre, size).value;
      && |schema.scalars| == 17
      && UniformLength(schema)
      && DistinctNames(ColumnNames(schema))
      && (wf.Some? ==> schema.waves.SingleColumn?
                       && schema.waves.waveform.name == WaveformCol
                       && schema.waves.waveform.wfLen == |wf.value.samples|)
      && (wf.None? ==> schema.waves.SplitColumns?
                       && schema.waves.presummed.name == WaveformPresummed
                       && schema.waves.presummed.wfLen == |wfPre.value.samples|
                       && schema.waves.windowed.name == WaveformWindowed
                       && schema.waves.windowed.wfLen == |wfWin.value.samples|)
  {
    ColumnNamesDistinct(MakeChannelBuffer(wf, wfWin, wfPre, size).value);
  }

  /** The position of a column in the order the buffer declares them. */
  function Rank(c: ColumnName): nat
  {
    match c
    case Timestamp => 0 case DaqEnergySum => 1 case TimeOfFirstHitSec => 2 case EventType => 3
    case DaqCrate => 4 case DaqCard => 5 case DaqChannel => 6 case ClockFreqHz => 7
    case BitResolution => 8 case NrOfChannels => 9 case EventNumber => 10 case PreTrigger => 11
    case TriggerNumber => 12 case IsMuonVetoed => 13 case MuonVetoSample => 14 case WaveformTag => 15
    case IsInverted => 16 case WaveformCol => 17 case WaveformPresummed => 17 case WaveformWindowed => 18
    case T0 => 19 case Dt => 20
  }

  /** Names whose ranks increase step by step are pairwise distinct. */
  lemma {:induction false} IncreasingRanksDistinct(names: seq<ColumnName>)
    requires forall k :: 0 <= k < |names| - 1 ==> Rank(names[k]) < Rank(names[k + 1])
    ensures forall i, j :: 0 <= i < j < |names| ==> Rank(names[i]) < Rank(names[j])
  {
    if |names| > 1 {
      var init := names[..|names| - 1];
      assert forall k :: 0 <= k < |init| ==> init[k] == names[k];
      IncreasingRanksDistinct(init);
      forall i, j | 0 <= i < j < |names| ensures Rank(names[i]) < Rank(names[j]) {
        if j < |names| - 1 {
          assert init[i] == names[i] && init[j] == names[j];
        } else if i < j - 1 {
          assert init[i] == names[i] && init[j - 1] == names[j - 1];
        }
      }
    }
  }

  lemma ColumnNamesDistinct(schema: Schema)
    requires schema.scalars == ScalarColumns(schema.size)
    requires schema.waves.SingleColumn? ==> schema.waves.waveform.name == WaveformCol
    requires schema.waves.SplitColumns? ==>
      schema.waves.presummed.name == WaveformPresummed && schema.waves.windowed.name == WaveformWindowed
    ensures DistinctNames(ColumnNames(schema))
  {
    var names := ColumnNames(schema);
    forall k | 0 <= k < |names| - 1 ensures Rank(names[k]) < Rank(names[k + 1]) {
      if k + 1 < 17 {
        assert names[k] == ScalarColumn(k, schema.size).name;
        assert names[k + 1] == ScalarColumn(k + 1, schema.size).name;
      } else {
        assert names[k] == (if k == 16 then IsInverted else WaveformPresummed);
      }
    }
    IncreasingRanksDistinct(names);
  }

  // ---------------------------------------------------------------------------
  // Events and rows

  /** What `event.GetDigitizerData(i)` reports for one waveform. */
  datatype DigitizerData = DigitizerData(
    id: int, timeStamp: real, decimalTimeStamp: real, crate: int, card: int, channel: int,
    clockFrequency: real, bitResolution: int, nChannels: int, eventNumber: int,
    pretrigger: int, triggerNumber: int, muVetoed: bool, muVetoSample: int,
    waveformTag: int, inverted: bool)

  /** Waveform `i` of an event: its digitizer data, `GetWaveform(i)` and `GetAuxWaveform(i)`. */
  datatype Slot = Slot(ddata: DigitizerData, wf: Waveform, auxWf: Waveform)

  datatype Event = Event(eTotal: real, time: real, eventType: int,
                         auxWaveformArrayStatus: bool, slots: seq<Slot>)

  datatype WaveCell = WaveCell(dt: int, t0: int, values: seq<int>)

  datatype WaveCells = Single(waveform: WaveCell) | Split(presummed: WaveCell, windowed: WaveCell)

  /** The `timestamp` entry of a row: the digitizer's whole-second time stamp
      and its decimal part in nanoseconds, kept apart as the event gives them. */
  datatype TimeStamp = TimeStamp(seconds: real, nanoseconds: real)
  {
    /** The float64 the column holds (without rounding): `seconds + nanoseconds * 1e-9`. */
    function InSeconds(): real
    {
      seconds + nanoseconds * 0.000000001
    }
  }

  /** One row of a channel table: every column's entry at one cursor position. */
  datatype Row = Row(
    timestamp: TimeStamp, daqEnergySum: real, timeOfFirstHitSec: real, eventType: int,
    daqCrate: int, daqCard: int, daqChannel: int, clockFreqHz: real, bitResolution: int,
    nrOfChannels: int, eventNumber: int, preTrigger: int, triggerNumber: int,
    isMuonVetoed: bool, muonVetoSample: int, waveformTag: int, isInverted: bool,
    waves: WaveCells)

  datatype RawError =
    | UnknownStruckId(struckid: int)                    // KeyError from chmap[struckid]
    | MissingChannelData(found: set<int>, expected: set<int>)  // the ValueError before the loop
    | UnknownTable(table: string)                       // KeyError from data_dict[tbl_name]
    | UnknownColumn(table: string, column: ColumnName)  // KeyError from tbl[name]
    | ShapeMismatch(table: string, column: ColumnName)  // numpy cannot broadcast the samples
    | NoWaveform                                        // None.GetLength()

  function Repeat(x: int, n: nat): (r: seq<int>)
    ensures |r| == n && forall i :: 0 <= i < n ==> r[i] == x
  {
    if n == 0 then [] else Repeat(x, n - 1) + [x]
  }

  /** `tbl[name]["values"][tbl.loc][:] = samples`: numpy copies a sequence of
      the row's length and broadcasts a single sample; anything else fails. */
  function FillCell(wf: Waveform, col: WaveformColumn, table: string): (r: Result<WaveCell, RawError>)
    ensures r.Ok? <==> |wf.samples| == col.wfLen || |wf.samples| == 1
    ensures r.Ok? ==> |r.value.values| == col.wfLen
    ensures r.Ok? && |wf.samples| == col.wfLen ==> r.value.values == wf.samples
  {
    if |wf.samples| == col.wfLen then Ok(WaveCell(wf.samplingPeriod, wf.tOffset, wf.samples))
    else if |wf.samples| == 1 then Ok(WaveCell(wf.samplingPeriod, wf.tOffset, Repeat(wf.samples[0], col.wfLen)))
    else Err(ShapeMismatch(table, col.name))
  }

  /** The values the loop body writes at the cursor for one waveform slot. */
  function MakeRow(ev: Event, slot: Slot, schema: Schema, table: string): Result<Row, RawError>
  {
    var d := slot.ddata;
    var cells: Result<WaveCells, RawError> :=
      match schema.waves
      case SingleColumn(col) =>
        if ev.auxWaveformArrayStatus then Err(UnknownColumn(table, WaveformPresummed))
        else
          (match FillCell(slot.wf, col, table)
           case Ok(c) => Ok(Single(c))
           case Err(e) => Err(e))
      case SplitColumns(pre, win) =>
        if !ev.auxWaveformArrayStatus then Err(UnknownColumn(table, WaveformCol))
        else
          (match FillCell(slot.wf, pre, table)
           case Err(e) => Err(e)
           case Ok(p) =>
             match FillCell(slot.auxWf, win, table)
             case Err(e) => Err(e)
             case Ok(w) => Ok(Split(p, w)));
    match cells
    case Err(e) => Err(e)
    case Ok(c) =>
      Ok(Row(TimeStamp(d.timeStamp, d.decimalTimeStamp), ev.eTotal, ev.time, ev.eventType,
             d.crate, d.card, d.channel, d.clockFrequency, d.bitResolution, d.nChannels,
             d.eventNumber, d.pretrigger, d.triggerNumber, d.muVetoed, d.muVetoSample,
             d.waveformTag, d.inverted, c))
  }

  // ---------------------------------------------------------------------------
  // Buffer set-up from the first event

  /** The buffer schema made for a slot of the first event. */
  function SlotSchema(slot: Slot, aux: bool, size: nat): Schema
  {
    var r := if aux then MakeChannelBuffer(None, Some(slot.auxWf), Some(slot.wf), size)
             else MakeChannelBuffer(Some(slot.wf), None, None, size);
    r.value
  }

  /** The struck ids of a sequence of waveforms. */
  function SlotIds(slots: seq<Slot>): (ids: set<int>)
    ensures ids == set k | 0 <= k < |slots| :: slots[k].ddata.id
  {
    if slots == [] then {} else SlotIds(slots[..|slots| - 1]) + {slots[|slots| - 1].ddata.id}
  }

  /** The table name of every struck id of the channel map. */
  function TableNames(chmap: map<int, int>): (names: map<int, string>)
    ensures names.Keys == chmap.Keys
    ensures forall id :: id in chmap ==> names[id] == TableId(chmap[id])
  {
    map id | id in chmap :: TableId(chmap[id])
  }

  /** The set-up loop from slot `i` on, with the tables `m` made so far;
      `names` maps struck ids to table names. */
  function SetupFrom(names: map<int, string>, slots: seq<Slot>, aux: bool, size: nat,
                     i: nat, m: map<string, Schema>): Result<map<string, Schema>, RawError>
    decreases |slots| - i
  {
    if i >= |slots| then Ok(m)
    else
      var id := slots[i].ddata.id;
      if id !in names then Err(UnknownStruckId(id))
      else SetupFrom(names, slots, aux, size, i + 1, m[names[id] := SlotSchema(slots[i], aux, size)])
  }

  lemma SetupFromStep(names: map<int, string>, slots: seq<Slot>, aux: bool, size: nat,
                      i: nat, m: map<string, Schema>)
    requires i < |slots| && slots[i].ddata.id in names
    ensures SetupFrom(names, slots, aux, size, i, m)
         == SetupFrom(names, slots, aux, size, i + 1, m[names[slots[i].ddata.id] := SlotSchema(slots[i], aux, size)])
  {
  }

  function SetupBuffers(chmap: map<int, int>, first: Event): Result<map<string, Schema>, RawError>
  {
    SetupFrom(TableNames(chmap), first.slots, first.auxWaveformArrayStatus, DefaultBufferSize, 0, map[])
  }

  /** The tables named by slots `i..` whose struck id is known. */
  function Tables(names: map<int, string>, slots: seq<Slot>, i: nat): set<string>
    decreases |slots| - i
  {
    if i >= |slots| then {}
    else (if slots[i].ddata.id in names then {names[slots[i].ddata.id]} else {}) + Tables(names, slots, i + 1)
  }

  /** Slot `j` is the last one of `slots` that writes to its table. */
  ghost predicate LastFor(names: map<int, string>, slots: seq<Slot>, j: int)
  {
    && 0 <= j < |slots|
    && slots[j].ddata.id in names
    && forall k :: j < k < |slots| && slots[k].ddata.id in names ==>
         names[slots[k].ddata.id] != names[slots[j].ddata.id]
  }

  lemma {:induction false} SetupFromOk(names: map<int, string>, slots: seq<Slot>, aux: bool, size: nat,
                                       i: nat, m0: map<string, Schema>)
    ensures SetupFrom(names, slots, aux, size, i, m0).Ok? <==>
            forall k :: i <= k < |slots| ==> slots[k].ddata.id in names
    decreases |slots| - i
  {
    if i < |slots| && slots[i].ddata.id in names {
      SetupFromOk(names, slots, aux, size, i + 1,
                  m0[names[slots[i].ddata.id] := SlotSchema(slots[i], aux, size)]);
    }
  }

  lemma {:induction false} SetupFromKeys(names: map<int, string>, slots: seq<Slot>, aux: bool, size: nat,
                                         i: nat, m0: map<string, Schema>)
    requires SetupFrom(names, slots, aux, size, i, m0).Ok?
    ensures var m := SetupFrom(names, slots, aux, size, i, m0).value;
      && m.Keys == m0.Keys + Tables(names, slots, i)
      && (forall t :: t in m0 && t !in Tables(names, slots, i) ==> m[t] == m0[t])
    decreases |slots| - i
  {
    if i < |slots| {
      var name := names[slots[i].ddata.id];
      var m1 := m0[name := SlotSchema(slots[i], aux, size)];
      assert SetupFrom(names, slots, aux, size, i, m0) == SetupFrom(names, slots, aux, size, i + 1, m1);
      SetupFromKeys(names, slots, aux, size, i + 1, m1);
    }
  }

  lemma SlotSchemaSize(slot: Slot, aux: bool, size: nat)
    ensures SlotSchema(slot, aux, size).size == size
  {
  }

  lemma {:induction false} SetupFromSizes(names: map<int, string>, slots: seq<Slot>, aux: bool, size: nat,
                                          i: nat, m0: map<string, Schema>)
    requires SetupFrom(names, slots, aux, size, i, m0).Ok?
    requires forall t :: t in m0 ==> m0[t].size == size
    ensures var m := SetupFrom(names, slots, aux, size, i, m0).value;
      forall t :: t in m ==> m[t].size == size
    decreases |slots| - i
  {
    if i < |slots| {
      var name := names[slots[i].ddata.id];
      SlotSchemaSize(slots[i], aux, size);
      var m1 := m0[name := SlotSchema(slots[i], aux, size)];
      assert SetupFrom(names, slots, aux, size, i, m0) == SetupFrom(names, slots, aux, size, i + 1, m1);
      SetupFromSizes(names, slots, aux, size, i + 1, m1);
    }
  }

  lemma {:induction false} NotInLaterTables(names: map<int, string>, slots: seq<Slot>, i: nat, t: string)
    requires forall k :: i <= k < |slots| && slots[k].ddata.id in names ==> names[slots[k].ddata.id] != t
    ensures t !in Tables(names, slots, i)
    decreases |slots| - i
  {
    if i < |slots| { NotInLaterTables(names, slots, i + 1, t); }
  }

  lemma {:induction false} SetupFromLastWins(names: map<int, string>, slots: seq<Slot>, aux: bool, size: nat,
                                             i: nat, m0: map<string, Schema>)
    requires SetupFrom(names, slots, aux, size, i, m0).Ok?
    ensures var m := SetupFrom(names, slots, aux, size, i, m0).value;
      forall j :: i <= j && LastFor(names, slots, j) ==>
        names[slots[j].ddata.id] in m && m[names[slots[j].ddata.id]] == SlotSchema(slots[j], aux, size)
    decreases |slots| - i
  {
    if i < |slots| {
      var name := names[slots[i].ddata.id];
      var m1 := m0[name := SlotSchema(slots[i], aux, size)];
      assert SetupFrom(names, slots, aux, size, i, m0) == SetupFrom(names, slots, aux, size, i + 1, m1);
      var m := SetupFrom(names, slots, aux, size, i, m0).value;
      SetupFromLastWins(names, slots, aux, size, i + 1, m1);
      SetupFromKeys(names, slots, aux, size, i + 1, m1);
      forall j | i <= j && LastFor(names, slots, j)
        ensures names[slots[j].ddata.id] in m && m[names[slots[j].ddata.id]] == SlotSchema(slots[j], aux, size)
      {
        if j == i {
          NotInLaterTables(names, slots, i + 1, name);
        }
      }
    }
  }

  /** Set-up succeeds exactly when every struck id of the first event is in the
      channel map; it then makes one table per channel of the first event,
      named by `_tblid` of the channel's rawid, each with the default capacity
      and holding the buffer made for the last slot that names it. */
  lemma SetupBuffersShape(chmap: map<int, int>, first: Event)
    ensures SetupBuffers(chmap, first).Ok? <==> forall k :: 0 <= k < |first.slots| ==> first.slots[k].ddata.id in chmap
    ensures SetupBuffers(chmap, first).Ok? ==>
      var m := SetupBuffers(chmap, first).value;
      && m.Keys == Tables(TableNames(chmap), first.slots, 0)
      && (forall t :: t in m ==> m[t].size == DefaultBufferSize)
      && forall j :: LastFor(TableNames(chmap), first.slots, j) ==>
           TableId(chmap[first.slots[j].ddata.id]) in m &&
           m[TableId(chmap[first.slots[j].ddata.id])] ==
           SlotSchema(first.slots[j], first.auxWaveformArrayStatus, DefaultBufferSize)
  {
    var aux := first.auxWaveformArrayStatus;
    var names := TableNames(chmap);
    SetupFromOk(names, first.slots, aux, DefaultBufferSize, 0, map[]);
    if SetupBuffers(chmap, first).Ok? {
      SetupFromKeys(names, first.slots, aux, DefaultBufferSize, 0, map[]);
      SetupFromSizes(names, first.slots, aux, DefaultBufferSize, 0, map[]);
      SetupFromLastWins(names, first.slots, aux, DefaultBufferSize, 0, map[]);
    }
  }

  /** The channel-map channels that the first event has no waveform for. */
  function MissingChannels(chmap: map<int, int>, first: Event): set<int>
  {
    chmap.Keys - SlotIds(first.slots)
  }

  // ---------------------------------------------------------------------------
  // The fill/flush loop as a fold

  /** One `store.write(tbl, tbl_name, ..., wo_mode="append")`. */
  datatype Chunk = Chunk(table: string, rows: seq<Row>)

  /** The loop's state: the rows each buffer holds since its last flush, what
      has been appended to the output file so far, and the error that stopped it. */
  datatype Fill = Fill(pending: map<string, seq<Row>>, written: seq<Chunk>, failure: Option<RawError>)

  /** The table a slot writes to and the row it writes there. */
  function SlotRow(names: map<int, string>, schemas: map<string, Schema>, ev: Event, slot: Slot)
    : Result<(string, Row), RawError>
  {
    var id := slot.ddata.id;
    if id !in names then Err(UnknownStruckId(id))
    else
      var name := names[id];
      if name !in schemas then Err(UnknownTable(name))
      else
        match MakeRow(ev, slot, schemas[name], name)
        case Err(e) => Err(e)
        case Ok(row) => Ok((name, row))
  }

  /** One waveform: write its row at the cursor, push, and flush then clear
      the buffer when it is full. */
  function WriteSlot(names: map<int, string>, schemas: map<string, Schema>, st: Fill, ev: Event, slot: Slot): Fill
  {
    if st.failure.Some? then st
    else
      match SlotRow(names, schemas, ev, slot)
      case Err(e) => st.(failure := Some(e))
      case Ok((name, row)) =>
        var rows := (if name in st.pending then st.pending[name] else []) + [row];
        if |rows| >= schemas[name].size
        then Fill(st.pending[name := []], st.written + [Chunk(name, rows)], None)
        else Fill(st.pending[name := rows], st.written, None)
  }

  function WriteSlotsFrom(names: map<int, string>, schemas: map<string, Schema>, st: Fill, ev: Event, i: nat): Fill
    decreases |ev.slots| - i
  {
    if i >= |ev.slots| then st
    else WriteSlotsFrom(names, schemas, WriteSlot(names, schemas, st, ev, ev.slots[i]), ev, i + 1)
  }

  function WriteEvents(names: map<int, string>, schemas: map<string, Schema>, st: Fill, events: seq<Event>): Fill
    decreases |events|
  {
    if events == [] then st
    else WriteEvents(names, schemas, WriteSlotsFrom(names, schemas, st, events[0], 0), events[1..])
  }

  lemma WriteSlotsFromStep(names: map<int, string>, schemas: map<string, Schema>, st: Fill, ev: Event, i: nat)
    requires i < |ev.slots|
    ensures WriteSlotsFrom(names, schemas, st, ev, i)
         == WriteSlotsFrom(names, schemas, WriteSlot(names, schemas, st, ev, ev.slots[i]), ev, i + 1)
  {
  }

  lemma WriteEventsStep(names: map<int, string>, schemas: map<string, Schema>, st: Fill, events: seq<Event>, e: nat)
    requires e < |events|
    ensures WriteEvents(names, schemas, st, events[e..])
         == WriteEvents(names, schemas, WriteSlotsFrom(names, schemas, st, events[e], 0), events[e + 1..])
  {
    assert events[e..][0] == events[e] && events[e..][1..] == events[e + 1..];
  }

  function EmptyBuffers(schemas: map<string, Schema>): map<string, seq<Row>>
  {
    map t | t in schemas :: []
  }

  /** What the empty tree's `GetEntry(0)` leaves: an event with no waveforms. */
  function FirstEvent(events: seq<Event>): Event
  {
    if |events| > 0 then events[0] else Event(0.0, 0.0, 0, false, [])
  }

  /** `build_tier_raw_mgdo` after argument parsing: set-up from the first
      event, the channel check, then every event (the first one again) in
      order. The final state's `pending` rows are never written. */
  function BuildTierRaw(chmap: map<int, int>, events: seq<Event>): Fill
  {
    var first := FirstEvent(events);
    match SetupBuffers(chmap, first)
    case Err(e) => Fill(map[], [], Some(e))
    case Ok(schemas) =>
      if MissingChannels(chmap, first) != {} then
        Fill(map[], [], Some(MissingChannelData(SlotIds(first.slots), chmap.Keys)))
      else WriteEvents(TableNames(chmap), schemas, Fill(EmptyBuffers(schemas), [], None), events)
  }

  // ---------------------------------------------------------------------------
  // What the fold promises

  /** The row one slot adds to table `t`: its row there, or nothing. */
  function Contribution(names: map<int, string>, schemas: map<string, Schema>, ev: Event, slot: Slot, t: string): seq<Row>
  {
    match SlotRow(names, schemas, ev, slot)
    case Ok((name, row)) => if name == t then [row] else []
    case Err(_) => []
  }

  /** The rows that reach table `t`, in event order, from slot `i` of `ev` on. */
  function RoutedSlots(names: map<int, string>, schemas: map<string, Schema>, ev: Event, i: nat, t: string): seq<Row>
    decreases |ev.slots| - i
  {
    if i >= |ev.slots| then []
    else Contribution(names, schemas, ev, ev.slots[i], t) + RoutedSlots(names, schemas, ev, i + 1, t)
  }

  function Routed(names: map<int, string>, schemas: map<string, Schema>, events: seq<Event>, t: string): seq<Row>
    decreases |events|
  {
    if events == [] then []
    else RoutedSlots(names, schemas, events[0], 0, t) + Routed(names, schemas, events[1..], t)
  }

  /** All rows appended to the output under table `t`, in write order. */
  function Flushed(written: seq<Chunk>, t: string): seq<Row>
  {
    if written == [] then []
    else
      var last := written[|written| - 1];
      Flushed(written[..|written| - 1], t) + (if last.table == t then last.rows else [])
  }

  ghost predicate PositiveSizes(schemas: map<string, Schema>)
  {
    forall t :: t in schemas ==> schemas[t].size > 0
  }

  /** The invariant of the loop: a buffer for every table, each below its
      capacity, and every chunk written is one full buffer. */
  ghost predicate WellFormed(schemas: map<string, Schema>, st: Fill)
  {
    && st.pending.Keys == schemas.Keys
    && (forall t :: t in schemas ==> |st.pending[t]| < schemas[t].size)
    && (forall i :: 0 <= i < |st.written| ==>
          st.written[i].table in schemas && |st.written[i].rows| == schemas[st.written[i].table].size)
  }

  lemma {:induction false} FailureStaysSlots(names: map<int, string>, schemas: map<string, Schema>, st: Fill, ev: Event, i: nat)
    ensures st.failure.Some? ==> WriteSlotsFrom(names, schemas, st, ev, i) == st
    decreases |ev.slots| - i
  {
    if i < |ev.slots| { FailureStaysSlots(names, schemas, st, ev, i + 1); }
  }

  /** Once an exception is raised nothing more happens. */
  lemma {:induction false} FailureStays(names: map<int, string>, schemas: map<string, Schema>, st: Fill, events: seq<Event>)
    ensures st.failure.Some? ==> WriteEvents(names, schemas, st, events) == st
    decreases |events|
  {
    if events != [] {
      FailureStaysSlots(names, schemas, st, events[0], 0);
      FailureStays(names, schemas, st, events[1..]);
    }
  }

  /** One waveform changes only its own table: that table gains exactly its
      row (in the output or in the buffer), every other table is untouched,
      and the buffer stays below capacity. */
  lemma WriteSlotAccounts(names: map<int, string>, schemas: map<string, Schema>, st: Fill, ev: Event, slot: Slot)
    requires PositiveSizes(schemas) && WellFormed(schemas, st) && st.failure.None?
    ensures var next := WriteSlot(names, schemas, st, ev, slot);
      && WellFormed(schemas, next)
      && (next.failure.None? ==> forall t :: t in schemas ==>
            Flushed(next.written, t) + next.pending[t] ==
            Flushed(st.written, t) + st.pending[t] + Contribution(names, schemas, ev, slot, t))
  {
    var next := WriteSlot(names, schemas, st, ev, slot);
    match SlotRow(names, schemas, ev, slot)
    case Err(e) =>
    case Ok((name, row)) =>
      var rows := st.pending[name] + [row];
      if |rows| >= schemas[name].size {
        assert next.written[..|next.written| - 1] == st.written;
      }
  }

  lemma {:induction false} SlotsAccount(names: map<int, string>, schemas: map<string, Schema>, st: Fill,
                                        ev: Event, i: nat, t: string)
    requires PositiveSizes(schemas) && WellFormed(schemas, st) && st.failure.None?
    requires WriteSlotsFrom(names, schemas, st, ev, i).failure.None?
    ensures var fin := WriteSlotsFrom(names, schemas, st, ev, i);
      && WellFormed(schemas, fin)
      && (t in schemas ==>
           Flushed(fin.written, t) + fin.pending[t] ==
           Flushed(st.written, t) + st.pending[t] + RoutedSlots(names, schemas, ev, i, t))
    decreases |ev.slots| - i
  {
    if i < |ev.slots| {
      var next := WriteSlot(names, schemas, st, ev, ev.slots[i]);
      var fin := WriteSlotsFrom(names, schemas, next, ev, i + 1);
      assert WriteSlotsFrom(names, schemas, st, ev, i) == fin;
      WriteSlotAccounts(names, schemas, st, ev, ev.slots[i]);
      FailureStaysSlots(names, schemas, next, ev, i + 1);
      SlotsAccount(names, schemas, next, ev, i + 1, t);
      if t in schemas {
        var c := Contribution(names, schemas, ev, ev.slots[i], t);
        var rest := RoutedSlots(names, schemas, ev, i + 1, t);
        assert RoutedSlots(names, schemas, ev, i, t) == c + rest;
        var before := Flushed(st.written, t) + st.pending[t];
        assert Flushed(next.written, t) + next.pending[t] == before + c;
        AppendAssoc(before, c, rest);
      }
    }
  }

  lemma {:induction false} EventsAccount(names: map<int, string>, schemas: map<string, Schema>, st: Fill,
                                         events: seq<Event>, t: string)
    requires PositiveSizes(schemas) && WellFormed(schemas, st) && st.failure.None?
    requires WriteEvents(names, schemas, st, events).failure.None?
    ensures var fin := WriteEvents(names, schemas, st, events);
      && WellFormed(schemas, fin)
      && (t in schemas ==>
           Flushed(fin.written, t) + fin.pending[t] ==
           Flushed(st.written, t) + st.pending[t] + Routed(names, schemas, events, t))
    decreases |events|
  {
    if events != [] {
      var next := WriteSlotsFrom(names, schemas, st, events[0], 0);
      var fin := WriteEvents(names, schemas, next, events[1..]);
      assert WriteEvents(names, schemas, st, events) == fin;
      FailureStays(names, schemas, next, events[1..]);
      SlotsAccount(names, schemas, st, events[0], 0, t);
      EventsAccount(names, schemas, next, events[1..], t);
      if t in schemas {
        var here := RoutedSlots(names, schemas, events[0], 0, t);
        var rest := Routed(names, schemas, events[1..], t);
        assert Routed(names, schemas, events, t) == here + rest;
        var before := Flushed(st.written, t) + st.pending[t];
        AppendAssoc(before, here, rest);
      }
    }
  }

  /** The number of chunks written to table `t`. */
  function ChunkCount(written: seq<Chunk>, t: string): nat
  {
    if written == [] then 0
    else ChunkCount(written[..|written| - 1], t) + (if written[|written| - 1].table == t then 1 else 0)
  }

  lemma {:induction false} FlushedWholeChunks(schemas: map<string, Schema>, written: seq<Chunk>, t: string)
    requires t in schemas
    requires forall i :: 0 <= i < |written| ==>
               written[i].table in schemas && |written[i].rows| == schemas[written[i].table].size
    ensures |Flushed(written, t)| == ChunkCount(written, t) * schemas[t].size
  {
    if written != [] {
      var pre := written[..|written| - 1];
      var last := written[|written| - 1];
      assert forall i :: 0 <= i < |pre| ==> pre[i] == written[i];
      FlushedWholeChunks(schemas, pre, t);
      var c := ChunkCount(pre, t);
      if last.table == t {
        assert (c + 1) * schemas[t].size == c * schemas[t].size + schemas[t].size;
      }
    }
  }

  /** `n` rows in whole chunks of `size` plus fewer than `size` left over:
      the chunks hold `n - n % size` rows and the rest holds `n % size`. */
  lemma DivisionUnique(n: nat, c: nat, size: nat, rest: nat)
    requires size > 0 && n == c * size + rest && rest < size
    ensures rest == n % size && c * size == n - n % size
  {
    var q := n / size;
    assert n == q * size + n % size;
    assert (c - q) * size == c * size - q * size;
    if c > q {
      MulAtLeast(c - q, size);
    } else if c < q {
      assert (q - c) * size == q * size - c * size;
      MulAtLeast(q - c, size);
    }
  }

  lemma {:induction false} MulAtLeast(k: int, size: nat)
    requires k >= 1
    ensures k * size >= size
    decreases k
  {
    if k > 1 {
      MulAtLeast(k - 1, size);
      assert k * size == (k - 1) * size + size;
    }
  }

  /** The number of rows that fill whole buffers of `size` rows. */
  function WholeRows(n: nat, size: nat): (r: nat)
    requires size > 0
    ensures r <= n && n - r < size
  {
    n - n % size
  }

  /** The outcome the loop promises for the rows routed to every table:
      the output holds them in order up to the last whole buffer, in chunks of
      exactly `size` rows, and the remaining `|rows| % size` rows are the ones
      left in the buffer. */
  ghost predicate WholeBuffers(names: map<int, string>, schemas: map<string, Schema>, size: nat,
                               events: seq<Event>, r: Fill)
  {
    && size > 0
    && r.pending.Keys == schemas.Keys
    && (forall i :: 0 <= i < |r.written| ==> r.written[i].table in schemas && |r.written[i].rows| == size)
    && forall t :: t in schemas ==>
         var rows := Routed(names, schemas, events, t);
         && Flushed(r.written, t) == rows[..WholeRows(|rows|, size)]
         && r.pending[t] == rows[WholeRows(|rows|, size)..]
  }

  /** The fold from empty buffers that all have capacity `size`. */
  lemma FillWritesWholeBuffers(names: map<int, string>, schemas: map<string, Schema>, size: nat,
                               events: seq<Event>, st0: Fill)
    requires size > 0 && forall t :: t in schemas ==> schemas[t].size == size
    requires st0 == Fill(EmptyBuffers(schemas), [], None)
    requires WriteEvents(names, schemas, st0, events).failure.None?
    ensures WholeBuffers(names, schemas, size, events, WriteEvents(names, schemas, st0, events))
  {
    assert WellFormed(schemas, st0);
    var r := WriteEvents(names, schemas, st0, events);
    EventsAccount(names, schemas, st0, events, "");
    forall t | t in schemas
      ensures var rows := Routed(names, schemas, events, t);
              Flushed(r.written, t) == rows[..WholeRows(|rows|, size)] && r.pending[t] == rows[WholeRows(|rows|, size)..]
    {
      EventsAccount(names, schemas, st0, events, t);
      var rows := Routed(names, schemas, events, t);
      assert Flushed(st0.written, t) + st0.pending[t] == [];
      assert Flushed(r.written, t) + r.pending[t] == rows;
      FlushedWholeChunks(schemas, r.written, t);
      DivisionUnique(|rows|, ChunkCount(r.written, t), size, |r.pending[t]|);
      SplitAt(Flushed(r.written, t), r.pending[t], rows);
    }
  }

  /** A run that stops without an exception: every table has received the
      rows routed to it, in event order, in chunks of exactly the buffer size;
      the last `|rows| % size` rows are still in the buffer and are never
      written, since there is no final flush. */
  lemma RunWritesWholeBuffers(chmap: map<int, int>, events: seq<Event>)
    requires BuildTierRaw(chmap, events).failure.None?
    ensures SetupBuffers(chmap, FirstEvent(events)).Ok?
    ensures WholeBuffers(TableNames(chmap), SetupBuffers(chmap, FirstEvent(events)).value,
                         DefaultBufferSize, events, BuildTierRaw(chmap, events))
  {
    var first := FirstEvent(events);
    SetupBuffersShape(chmap, first);
    var schemas := SetupBuffers(chmap, first).value;
    var st0 := Fill(EmptyBuffers(schemas), [], None);
    assert BuildTierRaw(chmap, events) == WriteEvents(TableNames(chmap), schemas, st0, events);
    FillWritesWholeBuffers(TableNames(chmap), schemas, DefaultBufferSize, events, st0);
  }

  /** The channel check of `build_tier_raw_mgdo`: a channel-map channel with
      no waveform in the first event stops the run before anything is written. */
  lemma MissingChannelStopsRun(chmap: map<int, int>, events: seq<Event>)
    requires SetupBuffers(chmap, FirstEvent(events)).Ok?
    ensures var r := BuildTierRaw(chmap, events);
      (r.failure.Some? && r.failure.value.MissingChannelData? && r.written == [])
      <==> MissingChannels(chmap, FirstEvent(events)) != {}
  {
    var first := FirstEvent(events);
    var schemas := SetupBuffers(chmap, first).value;
    if MissingChannels(chmap, first) == {} {
      SetupBuffersShape(chmap, first);
      var st0 := Fill(EmptyBuffers(schemas), [], None);
      var r := WriteEvents(TableNames(chmap), schemas, st0, events);
      if r.failure.Some? && r.failure.value.MissingChannelData? {
        NeverMissingChannelData(TableNames(chmap), schemas, st0, events);
      }
    }
  }

  lemma {:induction false} NeverMissingChannelDataSlots(names: map<int, string>, schemas: map<string, Schema>,
                                                         st: Fill, ev: Event, i: nat)
    ensures var r := WriteSlotsFrom(names, schemas, st, ev, i);
      r.failure.Some? && r.failure.value.MissingChannelData? ==> st.failure == r.failure
    decreases |ev.slots| - i
  {
    if i < |ev.slots| {
      NeverMissingChannelDataSlots(names, schemas, WriteSlot(names, schemas, st, ev, ev.slots[i]), ev, i + 1);
    }
  }

  lemma {:induction false} NeverMissingChannelData(names: map<int, string>, schemas: map<string, Schema>,
                                                    st: Fill, events: seq<Event>)
    ensures var r := WriteEvents(names, schemas, st, events);
      r.failure.Some? && r.failure.value.MissingChannelData? ==> st.failure == r.failure
    decreases |events|
  {
    if events != [] {
      NeverMissingChannelDataSlots(names, schemas, st, events[0], 0);
      NeverMissingChannelData(names, schemas, WriteSlotsFrom(names, schemas, st, events[0], 0), events[1..]);
    }
  }
}
