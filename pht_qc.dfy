/** The bookkeeping of the calibration quality-cut script
    (`par/geds/pht/qc.py`): the file lists, the overwrite entries read from
    an earlier physics run, their merge into the generated cut dictionaries,
    the realignment of the random sample after the initial calibration cuts,
    and the final merge of the three dictionaries. */
module PhtQc {
  import opened Common
  import opened Json
  import opened CutRounds

  // ---------------------------------------------------------------------------
  // File lists

  /** Some list file holds the line `f`. */
  predicate Listed(lists: seq<seq<string>>, f: string)
  {
    exists i :: 0 <= i < |lists| && f in lists[i]
  }

  /** The lines of every list file, one file after the other. */
  function AllLines(lists: seq<seq<string>>): seq<string>
  {
    if lists == [] then [] else AllLines(lists[..|lists| - 1]) + lists[|lists| - 1]
  }

  lemma {:induction false} AllLinesElems(lists: seq<seq<string>>, f: string)
    ensures f in AllLines(lists) <==> Listed(lists, f)
  {
    if lists != [] {
      var n := |lists| - 1;
      AllLinesElems(lists[..n], f);
      if f in AllLines(lists[..n]) {
        var i :| 0 <= i < n && f in lists[..n][i];
        assert f in lists[i];
      }
      if exists i :: 0 <= i < |lists| && f in lists[i] {
        var i :| 0 <= i < |lists| && f in lists[i];
        if i < n {
          assert f in lists[..n][i];
        }
      }
    }
  }

  /** `files += f.read().splitlines()` for every list file, then
      `sorted(np.unique(files))`. */
  method CollectFileList(lists: seq<seq<string>>) returns (files: seq<string>)
    ensures StrictlySorted(files)
    ensures forall f :: f in files <==> Listed(lists, f)
    ensures files == SortedUnique(AllLines(lists))
  {
    var lines: seq<string> := [];
    for i := 0 to |lists|
      invariant lines == AllLines(lists[..i])
    {
      assert lists[..i + 1][..i] == lists[..i];
      lines := lines + lists[i];
    }
    assert lists[..|lists|] == lists;
    files := SortedUnique(lines);
    forall f ensures f in files <==> Listed(lists, f) {
      assert f in files <==> f in Elems(lines);
      AllLinesElems(lists, f);
    }
  }

  /** However the lines are spread over the list files, and however often a
      file is listed, the result only depends on the set of files named. */
  lemma FileListDependsOnSetOnly(a: seq<seq<string>>, b: seq<seq<string>>)
    requires forall f :: Listed(a, f) <==> Listed(b, f)
    ensures SortedUnique(AllLines(a)) == SortedUnique(AllLines(b))
  {
    var ra, rb := SortedUnique(AllLines(a)), SortedUnique(AllLines(b));
    forall f ensures f in Elems(ra) <==> f in Elems(rb) {
      AllLinesElems(a, f);
      AllLinesElems(b, f);
    }
    StrictlySortedUnique(ra, rb);
  }

  // ---------------------------------------------------------------------------
  // Overwrite entries

  /** `j[key]` on a dictionary; any other lookup raises. */
  function Field(j: Json, key: string): (r: Result<Json, string>)
    ensures r.Ok? <==> j.JObject? && key in j.fields
  {
    if j.JObject? && key in j.fields then Ok(j.fields[key]) else Err("KeyError: " + key)
  }

  /** A channel entry holding a dictionary `pars` that holds `operations`. */
  predicate HasOperations(entry: Json)
  {
    entry.JObject? && "pars" in entry.fields
    && entry.fields["pars"].JObject? && "operations" in entry.fields["pars"].fields
  }

  /** The overwrite entries: the channel's `["pars"]["operations"]` when an
      overwrite file is given and names the channel, None otherwise; a
      channel entry without that path raises. */
  function OverwriteOperations(file: Option<map<string, Json>>, channel: string): (r: Result<Option<Json>, string>)
    ensures r == Ok(None) <==> file.None? || channel !in file.value
    ensures r.Err? <==> file.Some? && channel in file.value && !HasOperations(file.value[channel])
    ensures file.Some? && channel in file.value && HasOperations(file.value[channel]) ==>
      r == Ok(Some(file.value[channel].fields["pars"].fields["operations"]))
  {
    if file.None? || channel !in file.value then Ok(None)
    else
      match Field(file.value[channel], "pars")
      case Err(e) => Err(e)
      case Ok(pars) =>
        match Field(pars, "operations")
        case Err(e) => Err(e)
        case Ok(ops) => Ok(Some(ops))
  }

  /** What the merge loops make of the looked-up `operations` value, for a
      loop over the cut-parameter names `names`. `None`, and a `null` entry
      (read as `None`), skip the merge (`if overwrite is not None`). A
      dictionary is the overwrite. Any other value has no `.items()`, which
      raises AttributeError once the loop has a name to run for; with no
      names the loop body never runs and nothing is merged. */
  function OverwriteDict(ops: Result<Option<Json>, string>, names: seq<string>): (d: Result<Option<map<string, Json>>, string>)
    ensures ops.Err? ==> d == Err(ops.error)
    ensures ops == Ok(None) || ops == Ok(Some(JNull)) ==> d == Ok(None)
    ensures ops.Ok? && ops.value.Some? && ops.value.value.JObject? ==> d == Ok(Some(ops.value.value.fields))
    ensures d.Err? && ops.Ok? <==> ops.Ok? && ops.value.Some? && !ops.value.value.JNull? && !ops.value.value.JObject? && names != []
    ensures d.Ok? && d.value.Some? ==> ops == Ok(Some(JObject(d.value.value)))
  {
    match ops
    case Err(e) => Err(e)
    case Ok(None) => Ok(None)
    case Ok(Some(JNull)) => Ok(None)
    case Ok(Some(JObject(m))) => Ok(Some(m))
    case Ok(Some(_)) => if names == [] then Ok(None) else Err("AttributeError: operations has no items()")
  }

  /** The wrapper the physics-data script builds at its save step,
      `{"pars": {"operations": hit_dict}}`, when it is filed under the
      channel's key of an overwrite file, is read back here as exactly
      `hit_dict`, and is merged as that dictionary. The script as written
      never gets to write it (its `mkdir` call fails first), and it writes
      the wrapper at the top level of its file: filing it under the channel
      key happens outside both scripts. */
  lemma ReadsBackSavedPars(file: map<string, Json>, channel: string, hit: map<string, Json>, names: seq<string>)
    requires channel in file && file[channel] == SavedPars(hit)
    ensures OverwriteOperations(Some(file), channel) == Ok(Some(JObject(hit)))
    ensures OverwriteDict(OverwriteOperations(Some(file), channel), names) == Ok(Some(hit))
  {
    var pars := JObject(map["operations" := JObject(hit)]);
    assert Field(file[channel], "pars") == Ok(pars);
    assert Field(pars, "operations") == Ok(JObject(hit));
  }

  /** An overwrite entry is taken when its name contains one of the
      cut-parameter names. */
  predicate Selected(key: string, names: seq<string>)
  {
    exists n :: n in names && Contains(key, n)
  }

  lemma SelectedExtend(key: string, names: seq<string>, i: nat)
    requires i < |names|
    ensures Selected(key, names[..i + 1]) <==> Selected(key, names[..i]) || Contains(key, names[i])
  {
    assert names[..i + 1] == names[..i] + [names[i]];
  }

  /** `for name in cut_parameters: for cut_name, cut_dict in overwrite.items():
      if name in cut_name: hit_dict.update({cut_name: cut_dict})`. The
      overwrite entries whose name contains a cut-parameter name are added
      or replace the generated ones; the other overwrite entries are
      ignored. */
  method MergeOverwrite<V>(hit: map<string, V>, names: seq<string>, overwrite: map<string, V>)
    returns (r: map<string, V>)
    ensures forall k :: k in r <==> k in hit || (k in overwrite && Selected(k, names))
    ensures forall k :: k in r ==> r[k] == if k in overwrite && Selected(k, names) then overwrite[k] else hit[k]
  {
    r := hit;
    for i := 0 to |names|
      invariant forall k :: k in r <==> k in hit || (k in overwrite && Selected(k, names[..i]))
      invariant forall k :: k in r ==>
        r[k] == if k in overwrite && Selected(k, names[..i]) then overwrite[k] else hit[k]
    {
      ghost var start := r;
      var todo := overwrite.Keys;
      while todo != {}
        invariant todo <= overwrite.Keys
        invariant forall k :: k in r <==> k in start || (k in overwrite && k !in todo && Contains(k, names[i]))
        invariant forall k :: k in r ==>
          r[k] == if k in overwrite && k !in todo && Contains(k, names[i]) then overwrite[k] else start[k]
        decreases todo
      {
        var k :| k in todo;
        if Contains(k, names[i]) {
          r := r[k := overwrite[k]];
        }
        todo := todo - {k};
      }
      forall k ensures Selected(k, names[..i + 1]) <==> Selected(k, names[..i]) || Contains(k, names[i]) {
        SelectedExtend(k, names, i);
      }
    }
    assert names[..|names|] == names;
  }

  // ---------------------------------------------------------------------------
  // The calibration sample

  /** The rows the calibration cuts are generated on. `clean` marks the
      non-pulser, non-recovering rows of `data`; `sample` is the random
      choice among them (one entry per clean row). When the configuration
      has initial calibration cuts, they are generated on the sample, applied
      to every row (only outputs without `classifier` in their name cut),
      and the sample mask is realigned to the rows that are left. The rows
      returned are the sampled clean rows that pass the initial cuts, and the
      realigned mask has one entry per clean row left. */
  method SampleCalRows<T(!new)>(data: seq<T>, clean: seq<bool>, sample: seq<bool>,
                                hasInitialCuts: bool, generateAll: seq<T> -> seq<Cut>, eval: Evaluator<T>)
    returns (hitInit: map<string, Json>, mask: seq<bool>, rows: seq<T>)
    requires ColumnPerRow(eval)
    requires |clean| == |data| && |sample| == Count(clean)
    ensures var sampled := Select(Select(data, clean), sample);
      && (!hasInitialCuts ==> hitInit == map[] && mask == sample && rows == sampled)
      && (hasInitialCuts ==>
            var ct := RoundMask(Outputs(data, generateAll(sampled), eval), "classifier", |data|);
            && hitInit == Saved(generateAll(sampled))
            && |mask| == Count(Select(clean, ct))
            && rows == Select(sampled, Select(Select(ct, clean), sample)))
  {
    mask := sample;
    var d, c := data, clean;
    ghost var sampled := Select(Select(data, clean), sample);
    if hasInitialCuts {
      var cuts := generateAll(Select(Select(d, c), mask));
      hitInit := Saved(cuts);
      var outs := Evaluate(d, cuts, eval);
      OutputsColumns(d, cuts, eval);
      var ct := CutMask(|d|, outs, "classifier");
      mask := Select(mask, Select(ct, c));
      d := Select(d, ct);
      c := Select(c, ct);
      CountSelectSymmetric(clean, ct);
      SelectCommute(data, ct, clean);
      SelectCommute(Select(data, clean), Select(ct, clean), sample);
    } else {
      hitInit := map[];
    }
    rows := Select(Select(d, c), mask);
  }

  // ---------------------------------------------------------------------------
  // The final dictionary

  /** `{**fft, **init_cal, **cal}`: on a shared name the calibration entry
      wins over the initial-calibration entry, which wins over the fft
      entry. */
  function MergeHitDicts<V>(fft: map<string, V>, initCal: map<string, V>, cal: map<string, V>): (r: map<string, V>)
    ensures forall k :: k in r <==> k in fft || k in initCal || k in cal
    ensures forall k :: k in r ==>
      r[k] == if k in cal then cal[k] else if k in initCal then initCal[k] else fft[k]
  {
    fft + initCal + cal
  }
}
