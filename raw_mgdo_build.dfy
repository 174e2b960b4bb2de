/** The decode loop of `build_tier_raw_mgdo` as the source runs it: a
    dictionary of channel buffers with a write cursor each, filled row by row
    and flushed to the output whenever one is full. Proved equal to the fold
    `RawMgdo.BuildTierRaw`. */
module RawMgdoBuild {
  import opened Common
  import opened RawMgdo

  /** An lgdo `Table` of fixed capacity with its cursor `loc`; the columns of
      one row are held together in one array element. */
  class ChannelBuffer {
    const schema: Schema
    const rows: array<Row>
    var loc: nat

    ghost predicate Valid()
      reads this
    {
      rows.Length == schema.size && loc <= schema.size
    }

    /** The rows pushed since the last `clear()`. */
    ghost function Contents(): seq<Row>
      reads this, rows
      requires Valid()
    {
      rows[..loc]
    }

    constructor (schema: Schema)
      ensures Valid() && this.schema == schema && loc == 0 && fresh(rows)
    {
      this.schema := schema;
      rows := new Row[schema.size];
      loc := 0;
    }

    /** `tbl[column][tbl.loc] = value` for every column of the row. */
    method SetRow(row: Row)
      requires Valid() && loc < schema.size
      modifies rows
      ensures Valid() && rows[loc] == row && Contents() == old(Contents())
    {
      rows[loc] := row;
    }

    /** `tbl.push_row()`. */
    method PushRow()
      requires Valid() && loc < schema.size
      modifies this
      ensures Valid() && loc == old(loc) + 1 && Contents() == old(Contents()) + [rows[old(loc)]]
    {
      loc := loc + 1;
    }

    /** `tbl.is_full()`. */
    predicate IsFull()
      reads this
    {
      loc >= schema.size
    }

    /** `tbl.clear()`. */
    method Clear()
      requires Valid()
      modifies this
      ensures Valid() && loc == 0 && Contents() == []
    {
      loc := 0;
    }
  }

  /** Every buffer of `dataDict` is a distinct object over a distinct array,
      made for the schema of its table, below capacity, and holds exactly the
      rows the fold has pending for that table. */
  ghost predicate BuffersMatch(dataDict: map<string, ChannelBuffer>, schemas: map<string, Schema>,
                               pending: map<string, seq<Row>>)
    reads set t | t in dataDict :: dataDict[t]
    reads set t | t in dataDict :: dataDict[t].rows
  {
    && dataDict.Keys == schemas.Keys
    && pending.Keys == schemas.Keys
    && Separate(dataDict)
    && (forall t {:trigger dataDict[t]} :: t in dataDict ==> Holds(dataDict[t], schemas[t], pending[t]))
  }

  /** The buffers hold what the fold state `st` has pending, and the chunks
      appended so far are the ones it has written, with no exception raised. */
  ghost predicate Synced(dataDict: map<string, ChannelBuffer>, schemas: map<string, Schema>, st: Fill,
                         written: seq<Chunk>)
    reads set t | t in dataDict :: dataDict[t]
    reads set t | t in dataDict :: dataDict[t].rows
  {
    st.failure.None? && st.written == written && BuffersMatch(dataDict, schemas, st.pending)
  }

  /** A buffer made for `schema`, below capacity, holding exactly `rows`. */
  ghost predicate Holds(b: ChannelBuffer, schema: Schema, rows: seq<Row>)
    reads b, b.rows
  {
    b.Valid() && b.schema == schema && b.loc < schema.size && b.Contents() == rows
  }

  /** No two tables share a buffer or a buffer's array. */
  ghost predicate Separate(dataDict: map<string, ChannelBuffer>)
  {
    forall t, u :: t in dataDict && u in dataDict && t != u ==>
      dataDict[t] != dataDict[u] && dataDict[t].rows != dataDict[u].rows
  }

  /** Buffers just made: one per table, each a distinct object over a
      distinct array, made for the table's schema, with its cursor at 0. */
  ghost predicate Unwritten(dataDict: map<string, ChannelBuffer>, schemas: map<string, Schema>)
    reads set t | t in dataDict :: dataDict[t]
  {
    && dataDict.Keys == schemas.Keys
    && (forall t :: t in dataDict ==>
          && dataDict[t].Valid() && dataDict[t].schema == schemas[t] && dataDict[t].loc == 0
          && schemas[t].size == DefaultBufferSize)
    && Separate(dataDict)
  }

  /** Storing a buffer that none of the others shares keeps them unwritten. */
  lemma AddUnwritten(dataDict: map<string, ChannelBuffer>, schemas: map<string, Schema>,
                     name: string, tbl: ChannelBuffer)
    requires Unwritten(dataDict, schemas)
    requires tbl.Valid() && tbl.loc == 0 && tbl.schema.size == DefaultBufferSize
    requires forall t :: t in dataDict ==> dataDict[t] != tbl && dataDict[t].rows != tbl.rows
    ensures Unwritten(dataDict[name := tbl], schemas[name := tbl.schema])
  {
  }

  /** Unwritten buffers match the fold before any row is written. */
  lemma UnwrittenMatch(dataDict: map<string, ChannelBuffer>, schemas: map<string, Schema>)
    requires Unwritten(dataDict, schemas)
    ensures BuffersMatch(dataDict, schemas, EmptyBuffers(schemas))
  {
    assert EmptyBuffers(schemas).Keys == schemas.Keys;
  }

  /** One pass of the set-up loop: make the buffer for slot `i` of the first
      event, then store it under its table's name, or fail with the KeyError
      of an unknown struck id. */
  method AddSlotBuffer(chmap: map<int, int>, first: Event, i: nat, dataDict: map<string, ChannelBuffer>,
                       ghost schemas: map<string, Schema>)
    returns (dataDict': map<string, ChannelBuffer>, ghost schemas': map<string, Schema>, failure: Option<RawError>)
    requires i < |first.slots|
    requires Unwritten(dataDict, schemas)
    ensures var id := first.slots[i].ddata.id;
      var names := TableNames(chmap);
      var aux := first.auxWaveformArrayStatus;
      && (failure.Some? <==> id !in names)
      && (failure.Some? ==> failure.value == UnknownStruckId(id))
      && (failure.None? ==>
            && schemas' == schemas[names[id] := SlotSchema(first.slots[i], aux, DefaultBufferSize)]
            && Unwritten(dataDict', schemas')
            && forall t :: t in dataDict' ==>
                 (t in dataDict && dataDict'[t] == dataDict[t]) || (fresh(dataDict'[t]) && fresh(dataDict'[t].rows)))
  {
    var slot := first.slots[i];
    var id := slot.ddata.id;
    var schema := SlotSchema(slot, first.auxWaveformArrayStatus, DefaultBufferSize);
    SlotSchemaSize(slot, first.auxWaveformArrayStatus, DefaultBufferSize);
    var tbl := new ChannelBuffer(schema);
    if id !in chmap {
      return dataDict, schemas, Some(UnknownStruckId(id));
    }
    var name := TableId(chmap[id]);
    assert TableNames(chmap)[id] == name;
    AddUnwritten(dataDict, schemas, name, tbl);
    dataDict' := dataDict[name := tbl];
    schemas' := schemas[name := schema];
    failure := None;
  }

  /** The buffer set-up loop over the first event's waveforms: one new
      buffer per table, the struck ids seen, or the KeyError of an unknown
      struck id. */
  method MakeBuffers(chmap: map<int, int>, first: Event)
    returns (dataDict: map<string, ChannelBuffer>, found: set<int>, failure: Option<RawError>)
    ensures failure.None? <==> SetupBuffers(chmap, first).Ok?
    ensures failure.Some? ==> failure.value == SetupBuffers(chmap, first).error
    ensures failure.None? ==>
      && found == SlotIds(first.slots)
      && BuffersMatch(dataDict, SetupBuffers(chmap, first).value, EmptyBuffers(SetupBuffers(chmap, first).value))
      && forall t :: t in dataDict ==> fresh(dataDict[t]) && fresh(dataDict[t].rows)
  {
    ghost var names := TableNames(chmap);
    ghost var goal := SetupBuffers(chmap, first);
    ghost var schemas: map<string, Schema> := map[];
    dataDict, found, failure := map[], {}, None;
    var i := 0;
    while i < |first.slots| && failure.None?
      invariant 0 <= i <= |first.slots|
      invariant found == SlotIds(first.slots[..i])
      invariant failure.None? ==> SetupFrom(names, first.slots, first.auxWaveformArrayStatus, DefaultBufferSize, i, schemas) == goal
      invariant failure.Some? ==> goal.Err? && failure.value == goal.error
      invariant failure.None? ==> Unwritten(dataDict, schemas)
      invariant failure.None? ==> forall t :: t in dataDict ==> fresh(dataDict[t]) && fresh(dataDict[t].rows)
    {
      assert first.slots[..i + 1][..i] == first.slots[..i];
      found := found + {first.slots[i].ddata.id};
      ghost var before := schemas;
      dataDict, schemas, failure := AddSlotBuffer(chmap, first, i, dataDict, schemas);
      if failure.None? {
        SetupFromStep(names, first.slots, first.auxWaveformArrayStatus, DefaultBufferSize, i, before);
      }
      i := i + 1;
    }
    if failure.None? {
      assert first.slots[..i] == first.slots;
      UnwrittenMatch(dataDict, schemas);
    }
  }

  /** `push_row()` after the row is written, then the flush of a full
      buffer: the table gains the row, everything else stays as it was. */
  method AppendRow(tbl: ChannelBuffer, name: string, row: Row, written: seq<Chunk>,
                   ghost dataDict: map<string, ChannelBuffer>, ghost schemas: map<string, Schema>, ghost st: Fill)
    returns (written': seq<Chunk>)
    requires name in dataDict && tbl == dataDict[name]
    requires PositiveSizes(schemas) && BuffersMatch(dataDict, schemas, st.pending)
    modifies tbl, tbl.rows
    ensures var rows := st.pending[name] + [row];
      var full := |rows| >= schemas[name].size;
      && written' == (if full then written + [Chunk(name, rows)] else written)
      && BuffersMatch(dataDict, schemas, st.pending[name := if full then [] else rows])
  {
    ghost var rows := st.pending[name] + [row];
    label before:
    tbl.SetRow(row);
    tbl.PushRow();
    assert tbl.Contents() == rows;
    written' := written;
    if tbl.IsFull() {
      assert tbl.rows[..] == rows;
      written' := written + [Chunk(name, tbl.rows[..])];
      tbl.Clear();
    }
    ghost var after := st.pending[name := if |rows| >= schemas[name].size then [] else rows];
    UpdateKeys(st.pending, name, if |rows| >= schemas[name].size then [] else rows);
    forall u | u in dataDict
      ensures Holds(dataDict[u], schemas[u], after[u])
    {
      if u != name {
        assert dataDict[u] != tbl && dataDict[u].rows != tbl.rows;
        assert unchanged@before(dataDict[u], dataDict[u].rows);
      }
    }
  }

  /** The body of the loop for one waveform: look up its table, write the
      row at the cursor, push it, and append the buffer to the output and
      clear it when full. */
  method WriteSlotStep(chmap: map<int, int>, dataDict: map<string, ChannelBuffer>, written: seq<Chunk>,
                       ghost schemas: map<string, Schema>, ghost st: Fill, ev: Event, slot: Slot)
    returns (written': seq<Chunk>, failure: Option<RawError>, ghost next: Fill)
    requires PositiveSizes(schemas) && Synced(dataDict, schemas, st, written)
    modifies set t | t in dataDict :: dataDict[t]
    modifies set t | t in dataDict :: dataDict[t].rows
    ensures next == WriteSlot(TableNames(chmap), schemas, st, ev, slot)
    ensures failure == next.failure && (failure.None? ==> Synced(dataDict, schemas, next, written'))
    ensures failure.Some? ==> written' == next.written
  {
    next := WriteSlot(TableNames(chmap), schemas, st, ev, slot);
    var id := slot.ddata.id;
    if id !in chmap {
      return written, Some(UnknownStruckId(id)), next;
    }
    var name := TableId(chmap[id]);
    if name !in dataDict {
      return written, Some(UnknownTable(name)), next;
    }
    var tbl := dataDict[name];
    var row := MakeRow(ev, slot, tbl.schema, name);
    if row.Err? {
      return written, Some(row.error), next;
    }
    assert SlotRow(TableNames(chmap), schemas, ev, slot) == Ok((name, row.value));
    written' := AppendRow(tbl, name, row.value, written, dataDict, schemas, st);
    failure := None;
  }

  /** The inner loop over the waveforms of one event. */
  method WriteEventSlots(chmap: map<int, int>, dataDict: map<string, ChannelBuffer>, written: seq<Chunk>,
                         ghost schemas: map<string, Schema>, ghost st: Fill, ev: Event)
    returns (written': seq<Chunk>, failure: Option<RawError>, ghost fin: Fill)
    requires PositiveSizes(schemas) && Synced(dataDict, schemas, st, written)
    modifies set t | t in dataDict :: dataDict[t]
    modifies set t | t in dataDict :: dataDict[t].rows
    ensures fin == WriteSlotsFrom(TableNames(chmap), schemas, st, ev, 0)
    ensures failure == fin.failure && (failure.None? ==> Synced(dataDict, schemas, fin, written'))
    ensures failure.Some? ==> written' == fin.written
  {
    ghost var names := TableNames(chmap);
    fin := WriteSlotsFrom(names, schemas, st, ev, 0);
    ghost var cur := st;
    written' := written;
    failure := None;
    var j := 0;
    while j < |ev.slots| && failure.None?
      invariant 0 <= j <= |ev.slots|
      invariant WriteSlotsFrom(names, schemas, cur, ev, j) == fin
      invariant failure == cur.failure
      invariant failure.None? ==> Synced(dataDict, schemas, cur, written')
      invariant failure.Some? ==> written' == cur.written
    {
      WriteSlotsFromStep(names, schemas, cur, ev, j);
      written', failure, cur := WriteSlotStep(chmap, dataDict, written', schemas, cur, ev, ev.slots[j]);
      j := j + 1;
    }
    FailureStaysSlots(names, schemas, cur, ev, j);
  }

  /** The outer loop over the tree's events, from freshly made buffers. */
  method WriteAllEvents(chmap: map<int, int>, dataDict: map<string, ChannelBuffer>, events: seq<Event>,
                        ghost schemas: map<string, Schema>)
    returns (written: seq<Chunk>, failure: Option<RawError>)
    requires PositiveSizes(schemas) && BuffersMatch(dataDict, schemas, EmptyBuffers(schemas))
    modifies set t | t in dataDict :: dataDict[t]
    modifies set t | t in dataDict :: dataDict[t].rows
    ensures var fin := WriteEvents(TableNames(chmap), schemas, Fill(EmptyBuffers(schemas), [], None), events);
      written == fin.written && failure == fin.failure
  {
    ghost var names := TableNames(chmap);
    ghost var st := Fill(EmptyBuffers(schemas), [], None);
    ghost var fin := WriteEvents(names, schemas, st, events);
    assert events[0..] == events;
    written := [];
    var e := 0;
    while e < |events|
      invariant 0 <= e <= |events|
      invariant WriteEvents(names, schemas, st, events[e..]) == fin
      invariant Synced(dataDict, schemas, st, written)
    {
      WriteEventsStep(names, schemas, st, events, e);
      written, failure, st := WriteEventSlots(chmap, dataDict, written, schemas, st, events[e]);
      if failure.Some? {
        FailureStays(names, schemas, st, events[e + 1..]);
        return;
      }
      e := e + 1;
    }
    failure := None;
  }

  /** `build_tier_raw_mgdo` from the channel map and the tree's events on:
      returns what was appended to the output and the exception that stopped
      the run, if any; exactly the fold's outcome. */
  method BuildTierRawMgdo(chmap: map<int, int>, events: seq<Event>)
    returns (written: seq<Chunk>, failure: Option<RawError>)
    ensures written == BuildTierRaw(chmap, events).written
    ensures failure == BuildTierRaw(chmap, events).failure
  {
    var first := FirstEvent(events);
    var dataDict, found;
    dataDict, found, failure := MakeBuffers(chmap, first);
    if failure.Some? {
      return [], failure;
    }
    if chmap.Keys - found != {} {
      return [], Some(MissingChannelData(found, chmap.Keys));
    }
    SetupBuffersShape(chmap, first);
    written, failure := WriteAllEvents(chmap, dataDict, events, SetupBuffers(chmap, first).value);
  }
}
