# scarf-dataflow core in Dafny

This project models the parts of the LEGEND data-flow scripts that are
sequential logic rather than glue between command-line arguments, metadata
catalogs and scientific libraries, and proves properties about them.

- **The raw tier from an MGDO tree (`raw_mgdo.py`).**
  - `_tblid` turns a channel id into the table name `ch<id, zero-padded to 3>/raw`.
  - `_make_lh5_channel_buffer` fixes a buffer schema: 17 scalar columns plus one waveform table or a presummed/windowed pair.
  - `build_tier_raw_mgdo` builds one buffer per channel of the first event and rejects a file in which a channel-map channel is missing.
  - Its decode loop writes one row per waveform at the buffer's cursor and appends a buffer to the output and clears it exactly when it is full.
  - Module `RawMgdo` states the loop as a fold over the events and proves what it promises. Module `RawMgdoBuild` is the loop as the script runs it, over `ChannelBuffer` objects with a cursor, and is proved equal to the fold.
- **The decoder configuration of `raw_llamadaq.py` (module `RawLlamadaq`).**
  - The template block of the `LLAMAEventDecoder` section is copied once per channel and its `key_list` is set to the channel's struck id.
  - Each copy is stored under the channel's table name, and the template is removed at the end.
  - The loop runs in place over a `DecoderSection` object whose blocks are `Block` objects. It is proved equal to a function on values, and the copies are proved to be fresh, distinct objects.
- **The file-name patterns of `patterns.py` (module `Patterns`).**
  - These are the run-key templates, the tier and parameter-file patterns with their dispatch on the tier name, the overwrite, temporary, plot and log patterns, and the energy-grid pattern with its escaped wildcards.
  - `os.path.join` is modelled as POSIX `posixpath.join` over opaque directory prefixes. `str.format` is modelled for one replacement field.
- **The cut bookkeeping of the two quality-cut scripts (`qc.py` and `pars_pht_qc_phy.py`).**
  - Module `CutRounds`, shared by both scripts, covers:
    - the regular-expression rewrite that puts `@` before each parameter name;
    - the row mask of a cut round, the AND of every output that is not a classifier;
    - row selection;
    - the fft cut rounds and the accumulation of their dictionaries.
  - Module `PhtQc` covers the rest of `qc.py`:
    - the sorted, duplicate-free file list;
    - the overwrite lookup and the merge by substring;
    - the realignment of the random calibration sample after the initial cuts;
    - the final three-way merge.
  - Module `PhtQcPhy` covers the rest of `pars_pht_qc_phy.py`: the channel name and the file list assembled run by run.

Modules `Common` (wrappers, ASCII classes, substring search, zero-padded
integer formatting, Python's string order, `sorted` and `np.unique`) and
`Json` (configuration values) are shared.

The cut generator (`generate_cut_classifiers`) and pandas' expression
evaluator are foreign code. They are function parameters (`Generator`,
`Evaluator`). Reading a list file is a function parameter too (`read`), and
the configuration read from disk is given as values.

## Model

Paths are relative to the repository root.

| member | source | states |
|---|---|---|
| Common.FormatIntRoundTrip | workflow/src/legenddataflow/scripts/tier/raw_mgdo.py:143-144 | reading back a zero-padded decimal gives the number again, for every sign and width, so padding never truncates |
| Common.FormatIntInjective | workflow/src/legenddataflow/scripts/tier/raw_mgdo.py:143-144 | two numbers with the same zero-padded text are equal |
| Common.Sort | workflow/src/legenddataflow/scripts/pars_pht_qc_phy.py:72 | `sorted` returns an ordered permutation of its input |
| Common.SortedPermutationUnique | workflow/src/legenddataflow/scripts/pars_pht_qc_phy.py:72 | two ordered lists holding the same strings the same number of times are equal, so `sorted` has one possible answer |
| Common.SortedUnique | workflow/src/legenddataflow/scripts/par/geds/pht/qc.py:83-85 | `sorted(np.unique(xs))` is strictly increasing and holds exactly the strings of `xs` |
| Common.StrictlySortedUnique | workflow/src/legenddataflow/scripts/par/geds/pht/qc.py:83-85 | two strictly increasing lists with the same elements are equal, so the deduplicated list is determined by the set of lines |
| Common.SortedUniqueIdempotent | workflow/src/legenddataflow/scripts/pars_pht_qc_phy.py:78 | deduplicating and sorting an already deduplicated, sorted list changes nothing |
| RawMgdo.TableId | workflow/src/legenddataflow/scripts/tier/raw_mgdo.py:143-144 | `_tblid`; the three lemmas below specify it |
| RawMgdo.TableIdRoundTrip | workflow/src/legenddataflow/scripts/tier/raw_mgdo.py:143-144 | the channel id can be read back from `_tblid(id)` |
| RawMgdo.TableIdInjective | workflow/src/legenddataflow/scripts/tier/raw_mgdo.py:143-144 | distinct channel ids never share a table name |
| RawMgdo.TableIdShape | workflow/src/legenddataflow/scripts/tier/raw_mgdo.py:143-144 | for id >= 0 the name is "ch", then the id's digits zero-padded to at least 3 (longer ids are kept whole), then "/raw" |
| RawMgdo.MakeChannelBuffer | workflow/src/legenddataflow/scripts/tier/raw_mgdo.py:147-194 | a buffer is made exactly when `wf` is given or both `wf_pre` and `wf_win` are (otherwise `None.GetLength()` fails), with the requested capacity |
| RawMgdo.MakeChannelBufferShape | workflow/src/legenddataflow/scripts/tier/raw_mgdo.py:147-194 | 17 scalar columns; every array is `size` long; no two columns share a name; one `waveform` table of `wf`'s length, or the `waveform_presummed`/`waveform_windowed` pair of `wf_pre`/`wf_win`'s lengths |
| RawMgdo.ColumnNamesDistinct | workflow/src/legenddataflow/scripts/tier/raw_mgdo.py:148-192 | the column names of the schema are pairwise distinct |
| RawMgdo.FillCell | workflow/src/legenddataflow/scripts/tier/raw_mgdo.py:123-134 | copying samples into a row succeeds exactly when their count is the row length or 1 (numpy broadcast); the row then has the row length and, in the first case, the samples themselves |
| RawMgdo.SlotIds | workflow/src/legenddataflow/scripts/tier/raw_mgdo.py:56-59 | `found_struckids` is the set of struck ids of the first event's waveforms |
| RawMgdo.SetupBuffers | workflow/src/legenddataflow/scripts/tier/raw_mgdo.py:53-74 | the buffer set-up from the first event; `SetupBuffersShape` states what it gives |
| RawMgdo.SetupBuffersShape | workflow/src/legenddataflow/scripts/tier/raw_mgdo.py:53-74 | set-up succeeds iff every struck id of the first event is in the channel map; the tables are then exactly the `_tblid` names of those channels, each with capacity 1024 and the schema of the last slot naming it |
| RawMgdo.MissingChannelStopsRun | workflow/src/legenddataflow/scripts/tier/raw_mgdo.py:76-81 | the run ends with the missing-channel ValueError and nothing written exactly when a channel-map channel has no waveform in the first event |
| RawMgdo.FailureStays | workflow/src/legenddataflow/scripts/tier/raw_mgdo.py:88-140 | after an exception nothing more is written or buffered |
| RawMgdo.WriteSlot | workflow/src/legenddataflow/scripts/tier/raw_mgdo.py:90-140 | one waveform of the decode loop; `WriteSlotAccounts` and `FailureStays` state what it does |
| RawMgdo.WriteSlotAccounts | workflow/src/legenddataflow/scripts/tier/raw_mgdo.py:90-140 | one waveform adds its row to its own table only (to the output if the buffer fills, else to the buffer), every buffer stays below capacity and every chunk written is one full buffer |
| RawMgdo.SlotsAccount | workflow/src/legenddataflow/scripts/tier/raw_mgdo.py:90-140 | over one event, each table's output followed by its buffer grows by exactly the rows routed to it, in slot order |
| RawMgdo.EventsAccount | workflow/src/legenddataflow/scripts/tier/raw_mgdo.py:88-140 | over all events, each table's output followed by its buffer grows by exactly the rows routed to it, in event order |
| RawMgdo.FlushedWholeChunks | workflow/src/legenddataflow/scripts/tier/raw_mgdo.py:136-140 | the rows written to a table are a whole number of buffers |
| RawMgdo.FillWritesWholeBuffers | workflow/src/legenddataflow/scripts/tier/raw_mgdo.py:88-140 | from empty buffers, each table's output is its routed rows up to the last whole buffer, and the buffer holds the remaining fewer-than-capacity rows |
| RawMgdo.RunWritesWholeBuffers | workflow/src/legenddataflow/scripts/tier/raw_mgdo.py:19-140 | a run without exception writes each table's rows in event order, in chunks of exactly 1024, and leaves the last `n % 1024` rows unwritten (no final flush) |
| RawMgdo.BuildTierRaw | workflow/src/legenddataflow/scripts/tier/raw_mgdo.py:46-140 | the script as a fold over the events; `MissingChannelStopsRun` and `RunWritesWholeBuffers` state what it writes, and `RawMgdoBuild.BuildTierRawMgdo` proves the in-place loop equal to it |
| RawMgdoBuild.ChannelBuffer.constructor | workflow/src/legenddataflow/scripts/tier/raw_mgdo.py:194 | a new table has the schema's capacity and its cursor at 0 |
| RawMgdoBuild.ChannelBuffer.SetRow | workflow/src/legenddataflow/scripts/tier/raw_mgdo.py:96-134 | the row is written at the cursor, which is below capacity; the rows pushed so far are unchanged |
| RawMgdoBuild.ChannelBuffer.PushRow | workflow/src/legenddataflow/scripts/tier/raw_mgdo.py:136 | the cursor advances by exactly one and the contents gain the row at the old cursor |
| RawMgdoBuild.ChannelBuffer.Clear | workflow/src/legenddataflow/scripts/tier/raw_mgdo.py:140 | the cursor is reset to 0 and the contents are empty |
| RawMgdoBuild.AddSlotBuffer | workflow/src/legenddataflow/scripts/tier/raw_mgdo.py:57-74 | a fresh buffer for the slot's schema is stored under its table name; an unknown struck id fails with a KeyError |
| RawMgdoBuild.MakeBuffers | workflow/src/legenddataflow/scripts/tier/raw_mgdo.py:53-74 | the set-up loop fails iff the fold's set-up fails, with the same error; otherwise the found ids are the first event's ids and the buffers are fresh, distinct, empty and match the fold's schemas |
| RawMgdoBuild.AppendRow | workflow/src/legenddataflow/scripts/tier/raw_mgdo.py:136-140 | after write and push, a full buffer is appended to the output and cleared; only this table's buffer changes |
| RawMgdoBuild.WriteSlotStep | workflow/src/legenddataflow/scripts/tier/raw_mgdo.py:91-140 | one waveform of the loop changes the buffers and the output exactly as one fold step does, failing where the fold fails |
| RawMgdoBuild.WriteEventSlots | workflow/src/legenddataflow/scripts/tier/raw_mgdo.py:90-140 | the inner loop over an event's waveforms ends in the fold's state for that event |
| RawMgdoBuild.WriteAllEvents | workflow/src/legenddataflow/scripts/tier/raw_mgdo.py:88-140 | the outer loop over events writes exactly the fold's chunks and stops with the fold's exception |
| RawMgdoBuild.BuildTierRawMgdo | workflow/src/legenddataflow/scripts/tier/raw_mgdo.py:46-140 | the whole script after argument parsing writes exactly the chunks, and raises exactly the exception, of the fold `BuildTierRaw` |
| RawLlamadaq.ChannelBlock | workflow/src/legenddataflow/scripts/tier/raw_llamadaq.py:41-42 | a channel's block has the template's keys plus `key_list`, `key_list` is `[struckid]`, and every other field is the template's |
| RawLlamadaq.TemplateNotTableId | workflow/src/legenddataflow/scripts/tier/raw_llamadaq.py:43-45 | no generated table name is the template key, so the final `pop` removes only the template |
| RawLlamadaq.GeneratedNamesHas | workflow/src/legenddataflow/scripts/tier/raw_llamadaq.py:43 | every channel's `ch{rawid:03d}/raw` is among the generated names |
| RawLlamadaq.Expand | workflow/src/legenddataflow/scripts/tier/raw_llamadaq.py:40-45 | the decoder section after the copy loop and the `pop`; `ExpandFailsIffNoTemplate`, `ExpandKeys`, `ExpandChannelBlock` and `ExpandOthers` state it |
| RawLlamadaq.ExpandFailsIffNoTemplate | workflow/src/legenddataflow/scripts/tier/raw_llamadaq.py:41-45 | the expansion fails exactly when `__output_table_name__` is missing |
| RawLlamadaq.ExpandKeys | workflow/src/legenddataflow/scripts/tier/raw_llamadaq.py:40-45 | afterwards the template key is gone, every channel has its table, and the keys are the old ones plus the generated names, minus the template |
| RawLlamadaq.ExpandChannelBlock | workflow/src/legenddataflow/scripts/tier/raw_llamadaq.py:40-43 | with distinct rawids, each channel's block is the template with `key_list` set to `[struckid]` of that channel |
| RawLlamadaq.ExpandOthers | workflow/src/legenddataflow/scripts/tier/raw_llamadaq.py:40-45 | keys other than the template and the generated names keep their blocks |
| RawLlamadaq.DecoderSection.StoreCopy | workflow/src/legenddataflow/scripts/tier/raw_llamadaq.py:41-43 | one iteration stores a fresh block, the template with `key_list` set, under the name; no other key changes |
| RawLlamadaq.DecoderSection.CopyTemplate | workflow/src/legenddataflow/scripts/tier/raw_llamadaq.py:40-43 | the loop leaves the section equal to the value-level expansion; the template object is untouched; every generated block is a fresh object, distinct from every other |
| RawLlamadaq.DecoderSection.ExpandChannels | workflow/src/legenddataflow/scripts/tier/raw_llamadaq.py:40-45 | succeeds iff the template is present, in which case the section equals `Expand` of the old section; otherwise nothing changes; blocks present before keep their contents |
| Patterns.Join | scripts/util/patterns.py:71-77 | POSIX `os.path.join` of two parts; `JoinAllSlashed` states what a join of clean components gives |
| Patterns.JoinAllSlashed | scripts/util/patterns.py:71-77 | `os.path.join` of clean relative components is one join of the components separated by "/" |
| Patterns.KeyPatternsCompose | scripts/util/patterns.py:28-57 | the processing, validity, par, overwrite and channel patterns each extend the key pattern (after its run directory for the validity pattern) by the stated suffix |
| Patterns.UnsortedData | scripts/util/patterns.py:60-67 | there is an unsorted-data pattern exactly when the setup has a sandbox |
| Patterns.GetPatternTier | scripts/util/patterns.py:150-167 | a pattern exactly for daq, raw, tcm, dsp, hit, pht and evt; "invalid tier" otherwise |
| Patterns.TierFile | scripts/util/patterns.py:80-147 | the shape shared by the tier patterns; `TierPatternShape` states it |
| Patterns.TierPatternShape | scripts/util/patterns.py:70-147 | a tier file is `<prefix>/{datatype}/{period}/{run}/<key>-tier_<t>.lh5`; daq ends in `.orca` with no tier suffix; blinded raw fixes the data type to `phy` |
| Patterns.GetPatternPars | scripts/util/patterns.py:284-299 | a parameter pattern exactly for raw, tcm, dsp, hit, pht and evt (not daq); "invalid tier" otherwise |
| Patterns.ParFile | scripts/util/patterns.py:170-281 | the shape shared by the parameter patterns; `ParFileShape` states it |
| Patterns.ParFileShape | scripts/util/patterns.py:170-281 | a parameter file is `<prefix>/cal/{period}/{run}/<cal key>-par_<t>[_<name>].<ext>`, with `json` through the dispatch |
| Patterns.ParsOverwriteShape | scripts/util/patterns.py:302-324 | the overwrite file puts the tier as a directory and ends in `-par_<tier>[_<name>]-overwrite.json` |
| Patterns.TmpFilesShape | scripts/util/patterns.py:327-372 | temporary parameter and plot files are one file name in their directory, with the optional `_<name>` right after the tier |
| Patterns.PltsAndLogShape | scripts/util/patterns.py:375-412 | plots go to `<plts>/<tier>/cal/{period}/{run}/` and logs to `<tmp_log>/<step>/`, with the channel in the name for channel logs |
| Patterns.EnergyGridFormat | scripts/util/patterns.py:386-396 | every wildcard but `{peak}` is escaped: formatting with a peak gives the pattern with plain wildcards and the peak filled in |
| CutRounds.Mark | workflow/src/legenddataflow/scripts/par/geds/pht/qc.py:165-167 | the `re.sub` for one parameter name; the lemmas below state what it does |
| CutRounds.AlnumNameSeparated | workflow/src/legenddataflow/scripts/par/geds/pht/qc.py:165-166 | matches of a name made of letters and digits never overlap |
| CutRounds.MarkIsInsertMarks | workflow/src/legenddataflow/scripts/par/geds/pht/qc.py:165-166 | where matches do not overlap, the substitution puts `@` before every standalone occurrence (neighbours not `[a-zA-Z0-9]`) and keeps every character |
| CutRounds.MarkOnlyInserts | workflow/src/legenddataflow/scripts/par/geds/pht/qc.py:165-166 | the substitution only inserts `@`: removing every `@` gives the same text before and after |
| CutRounds.MarkWithoutMatch | workflow/src/legenddataflow/scripts/par/geds/pht/qc.py:165-166 | text in which the name never matches is left unchanged |
| CutRounds.UnderscoreDoesNotBlock | workflow/src/legenddataflow/scripts/par/geds/pht/qc.py:165-167 | where matches do not overlap, in every text an occurrence after `_` whose right neighbour is not `[a-zA-Z0-9]` gets an `@` right before it in the output |
| CutRounds.AlnumNeighbourBlocks | workflow/src/legenddataflow/scripts/par/geds/pht/qc.py:165-167 | where matches do not overlap, in every text no `@` is written before a character whose left neighbour, or whose right neighbour at the name's length, is `[a-zA-Z0-9]` |
| CutRounds.MarkNeighbours | workflow/src/legenddataflow/scripts/par/geds/pht/qc.py:165-167 | an example of the two lemmas above: `Mark("a_x*ax", "x")` is `a_@x*ax` |
| CutRounds.MarkAll | workflow/src/legenddataflow/scripts/par/geds/pht/qc.py:164-167 | the rewrite for every parameter name in turn; `MarkAllOnlyInserts` and `RewriteExpression` state it |
| CutRounds.MarkAllOnlyInserts | workflow/src/legenddataflow/scripts/par/geds/pht/qc.py:164-167 | rewriting for every parameter in turn only inserts `@` |
| CutRounds.RewriteExpression | workflow/src/legenddataflow/scripts/par/geds/pht/qc.py:163-167 | the rewrite loop (also pars_pht_qc_phy.py:150-152) marks each parameter in dictionary order and only inserts `@` |
| CutRounds.SelectSubset | workflow/src/legenddataflow/scripts/par/geds/pht/qc.py:173 | selection by a mask keeps rows and never invents one |
| CutRounds.PositionsAreKept | workflow/src/legenddataflow/scripts/par/geds/pht/qc.py:173 | every position `np.where(mask)` lists is true in the mask |
| CutRounds.PositionsAreComplete | workflow/src/legenddataflow/scripts/par/geds/pht/qc.py:173 | every true position of the mask is listed |
| CutRounds.PositionsIncrease | workflow/src/legenddataflow/scripts/par/geds/pht/qc.py:173 | the positions are listed in increasing order, each once |
| CutRounds.SelectAtPositions | workflow/src/legenddataflow/scripts/par/geds/pht/qc.py:173 | `rows[mask]` is, in order, the rows at the mask's true positions |
| CutRounds.SelectAll | workflow/src/legenddataflow/scripts/par/geds/pht/qc.py:173 | an all-true mask keeps every row |
| CutRounds.SelectCommute | workflow/src/legenddataflow/scripts/par/geds/pht/qc.py:274-283 | filtering by `a` and then by what survived of `b` keeps the same rows as filtering the other way round |
| CutRounds.CountSelectSymmetric | workflow/src/legenddataflow/scripts/par/geds/pht/qc.py:274 | both ways of realigning keep the same number of rows |
| CutRounds.RoundMask | workflow/src/legenddataflow/scripts/par/geds/pht/qc.py:160-172 | one entry per row; `CutMask` proves the loop computes it, and `OnlyClassifiersKeepAll` and `ClassifierMarkers` state what it keeps |
| CutRounds.CutMask | workflow/src/legenddataflow/scripts/par/geds/pht/qc.py:160-172 | `ct_mask` is true for a row iff every output whose name lacks the marker is true there |
| CutRounds.OnlyClassifiersKeepAll | workflow/src/legenddataflow/scripts/par/geds/pht/qc.py:171-172 | classifier outputs never remove a row |
| CutRounds.ClassifierMarkers | workflow/src/legenddataflow/scripts/par/geds/pht/qc.py:271-272 | a row kept under the fft rule (`_classifier`) is kept under the initial-calibration rule (`classifier`) |
| CutRounds.OutputsColumns | workflow/src/legenddataflow/scripts/par/geds/pht/qc.py:168-170 | one output per cut, each with one entry per row |
| CutRounds.Evaluate | workflow/src/legenddataflow/scripts/par/geds/pht/qc.py:161-170 | the loop over the cut dictionary yields the outputs of the rewritten expressions, in dictionary order |
| CutRounds.ApplyCuts | workflow/src/legenddataflow/scripts/par/geds/pht/qc.py:160-173 | one round keeps exactly the rows true in every output whose name lacks the marker |
| CutRounds.Rounds | workflow/src/legenddataflow/scripts/pars_pht_qc_phy.py:131-158 | the fft cut rounds; `FftRounds` proves the loop computes them, and `UnionLaterWins`, `UnionKeys` and `RoundsOnlyRemove` state what they give |
| CutRounds.UnionLaterWins | workflow/src/legenddataflow/scripts/pars_pht_qc_phy.py:142 | a name's value in `hit_dict` is the one from the last round that produced it |
| CutRounds.UnionKeys | workflow/src/legenddataflow/scripts/pars_pht_qc_phy.py:142 | a name is in `hit_dict` iff some round produced it |
| CutRounds.RoundsOnlyRemove | workflow/src/legenddataflow/scripts/pars_pht_qc_phy.py:135-158 | the rounds only remove rows |
| CutRounds.FftRounds | workflow/src/legenddataflow/scripts/pars_pht_qc_phy.py:131-158 | the loop (also qc.py:142-173) yields the union of the rounds' dictionaries and the rows left by the rounds, each round generated on the rows the previous ones left |
| PhtQc.AllLinesElems | workflow/src/legenddataflow/scripts/par/geds/pht/qc.py:76-78 | a line is read iff some list file holds it |
| PhtQc.CollectFileList | workflow/src/legenddataflow/scripts/par/geds/pht/qc.py:74-85 | the calibration file list is strictly increasing and holds exactly the lines of the list files |
| PhtQc.FileListDependsOnSetOnly | workflow/src/legenddataflow/scripts/par/geds/pht/qc.py:83-85 | the list depends only on the set of lines named, not on how they are spread or repeated |
| PhtQc.Field | workflow/src/legenddataflow/scripts/par/geds/pht/qc.py:90 | a lookup succeeds iff the value is a dictionary holding the key |
| PhtQc.OverwriteOperations | workflow/src/legenddataflow/scripts/par/geds/pht/qc.py:87-94 | None exactly when no file is given or the channel is absent; an error exactly when the channel entry is not a dictionary holding a dictionary `pars` that holds `operations`; otherwise the value of that `operations` entry |
| CutRounds.SavedPars | workflow/src/legenddataflow/scripts/pars_pht_qc_phy.py:167 | the wrapper `{"pars": {"operations": hit_dict}}` built at the save step; `PhtQc.ReadsBackSavedPars` states what the overwrite lookup reads back from it |
| PhtQc.ReadsBackSavedPars | workflow/src/legenddataflow/scripts/par/geds/pht/qc.py:87-94 | the wrapper the physics script builds at pars_pht_qc_phy.py:167 (its intended output, which the script as written never writes), when filed under the channel key, is read back as exactly `hit_dict` and merged as that dictionary; the script writes the wrapper at the top level of its file, so the filing under the channel key happens outside both scripts |
| PhtQc.OverwriteDict | workflow/src/legenddataflow/scripts/par/geds/pht/qc.py:185-189 | what the merge loops make of the looked-up value: an error passes through; none and `null` skip the merge; a dictionary is the overwrite; any other value raises (no `.items()`) exactly when there is a name to loop over, and otherwise merges nothing |
| PhtQc.MergeOverwrite | workflow/src/legenddataflow/scripts/par/geds/pht/qc.py:185-189 | exactly the overwrite entries whose name contains a cut-parameter name are added or replace generated ones; other overwrite entries are ignored |
| PhtQc.SampleCalRows | workflow/src/legenddataflow/scripts/par/geds/pht/qc.py:245-283 | without initial cuts, the sampled clean rows; with them, the init dictionary is the generated one, the realigned mask has one entry per clean row left, and the rows are the sampled clean rows that pass the `classifier`-marker cuts |
| PhtQc.MergeHitDicts | workflow/src/legenddataflow/scripts/par/geds/pht/qc.py:301 | the keys of all three; on a shared name cal wins over init-cal, which wins over fft |
| PhtQcPhy.ChannelName | workflow/src/legenddataflow/scripts/pars_pht_qc_phy.py:60 | the channel name `ch{rawid:07}`; the three lemmas below specify it |
| PhtQcPhy.ChannelNameRoundTrip | workflow/src/legenddataflow/scripts/pars_pht_qc_phy.py:60 | the rawid can be read back from `ch{rawid:07}` |
| PhtQcPhy.ChannelNameInjective | workflow/src/legenddataflow/scripts/pars_pht_qc_phy.py:60 | distinct rawids give distinct channel names |
| PhtQcPhy.ChannelNameShape | workflow/src/legenddataflow/scripts/pars_pht_qc_phy.py:60 | "ch" then the rawid's digits zero-padded to at least 7 |
| PhtQcPhy.Blocks | workflow/src/legenddataflow/scripts/pars_pht_qc_phy.py:72-79 | at most one block per list file; empty files are skipped; each block is non-empty and strictly increasing |
| PhtQcPhy.AssemblePhyFiles | workflow/src/legenddataflow/scripts/pars_pht_qc_phy.py:70-79 | the loop yields the per-run sorted blocks of the sorted list files, one after the other; a file is in the result iff some list file names it |
| PhtQcPhy.PhyFilesElems | workflow/src/legenddataflow/scripts/pars_pht_qc_phy.py:72-79 | a file is in the concatenated blocks iff some list file names it |
| PhtQcPhy.PhyFilesNamed | workflow/src/legenddataflow/scripts/pars_pht_qc_phy.py:70-79 | whatever order the list files come in, a file is in `phy_files` iff some list file names it |
| PhtQcPhy.SingleListFile | workflow/src/legenddataflow/scripts/pars_pht_qc_phy.py:88-91 | with one list file the result is its sorted, duplicate-free lines, as in the single-file branch |
| PhtQcPhy.OrderOfListFilesIrrelevant | workflow/src/legenddataflow/scripts/pars_pht_qc_phy.py:72 | the order in which list files are given does not matter |

## Left out

- I/O and foreign libraries are not modelled: ROOT tree access, `LH5Store.read`/`write`, `TextDB` and `Props` reads and writes, `ls`, `load_data`, `get_pulser_mask` and logging.
  - Reads are given as inputs: the events, the channel map, the list files' lines and the overwrite file.
  - Writes are the returned sequence of appended chunks.
- Directory creation is not modelled.
- The save step of `pars_pht_qc_phy.py` is not modelled. `Path(file).name` is a string, which has no `mkdir`, so line 166 raises AttributeError and the `Props.write_to` at line 167 is never reached: the script as written saves nothing. `CutRounds.SavedPars` models the wrapper it means to write.
- Also not modelled: compression attributes, plot dictionaries and pickle output, and `convert_dict_np_to_float`.
- `scripts/build_evt.py` is not part of this model.
- The prefix functions of `utils` (`tier_raw_path` and the rest) are given as the strings of a `Setup` value.
- RawMgdo.TimeStamp: the float64 timestamp `seconds + nanoseconds * 1e-9` is kept as its two parts, without rounding. The other float64 scalar columns (energy sum, time of first hit, clock frequency) are reals. The integer columns are unbounded; dtype widths are not modelled.
- RawMgdo.Waveform: the sampling period and time offset are taken as the integers the `int` columns `dt` and `t0` receive. The samples are taken as the integers the `uint16` values array stores. The float64 values that `np.frombuffer` produces, and their truncation and wrap-around when cast to `int` and `uint16`, are not modelled.
- RawMgdo.FirstEvent: `GetEntry(0)` on an empty tree is taken to give an event with no waveforms.
- RawMgdoBuild.ChannelBuffer: the row of a table is held as one array element rather than one element per column array.
- Patterns.Format: only replacement fields that are plain names are modelled. Conversions and format specifications are not.
- CutRounds.Name: parameter names are identifiers (letters, digits, underscore). A name holding a regular-expression metacharacter is not modelled.
- Also from `info.get("parameters", None)`: a cut without parameters, which makes the loop raise TypeError, is not modelled.
- CutRounds.Evaluator: pandas' `eval` is an abstract function of the rows, the expression and the cut. The columns a round adds to the frame (`cut_data[outname] = ...`) are not visible to later evaluations.
- Discharge-recovery windows, pulser flags and baseline thresholds (`bl_mask`) are floating-point data selections and are not modelled. In the calibration script they are given as the `clean` mask; in the physics script the rounds start from the rows already selected.
- PhtQc.SampleCalRows: `rng.choice` is an abstract sample mask with one entry per clean row. Its size of `2000 * len(cal_files)` distinct indices is not enforced.
- The model assumes that every file-list option (`--cal-files`, `--fft-files`, `--phy_files`) is given. These options take `nargs="*"`, so an omitted one is None. The script then raises TypeError at `Path(None)` in the non-list branch (qc.py:79-81, pars_pht_qc_phy.py:88-91), or at `len(None)` (qc.py:97) for the fft files. That failure is not modelled.
- `PhtQcPhy.SingleListFile` only relates the list branch with one file to what the expression of the non-list branch would compute for that file.
- The choice in `qc.py` between running the fft rounds and an empty fft dictionary (no fft list files, or empty ones) is left to the caller of `CutRounds.FftRounds`.
- `get_keys` is not modelled, and neither are the field lists passed to `load_data`.
- RawLlamadaq.DecoderSection: every entry of the decoder section is a dictionary of configuration values. A section entry that is not a dictionary, which the deep copy and the final `pop` would keep unchanged, cannot be represented.
- Python dictionaries keep insertion order; the maps of `CutRounds.Saved`, `CutRounds.Union`, `PhtQc.MergeOverwrite` and `PhtQc.MergeHitDicts` do not. The key order only affects the order in which the saved file lists the cuts (qc.py:308, pars_pht_qc_phy.py:167).
- CutRounds.Generator: the cut names of one generated dictionary are taken to be distinct, as a dictionary's keys are; the type does not require it. With a repeated name, `Outputs` would evaluate both cuts while `Saved` keeps the last.
- Errors are kept as error values. Python's distinct exception types (KeyError, ValueError, TypeError) are not.
