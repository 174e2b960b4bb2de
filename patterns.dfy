/** The file-name patterns of the workflow: wildcard templates such as
    `{experiment}-{period}-{run}-{datatype}-{timestamp}` placed under
    per-tier directory prefixes. The prefixes come from the configuration
    and are taken as given strings; `os.path.join` is modelled exactly as
    the POSIX version joins two paths. */
module Patterns {
  import opened Common

  // ---------------------------------------------------------------------------
  // Path joining

  /** `posixpath.join(a, b)`: an absolute `b` replaces `a`; otherwise a
      separator is inserted unless `a` is empty or already ends with one. */
  function Join(a: string, b: string): (r: string)
  {
    if |b| > 0 && b[0] == '/' then b
    else if a == [] || a[|a| - 1] == '/' then a + b
    else a + "/" + b
  }

  /** `os.path.join(first, *rest)`. */
  function JoinAll(first: string, rest: seq<string>): string
    decreases |rest|
  {
    if rest == [] then first
    else Join(JoinAll(first, rest[..|rest| - 1]), rest[|rest| - 1])
  }

  /** A path that does not start with a separator. */
  predicate Relative(s: string)
  {
    s == [] || s[0] != '/'
  }

  lemma RelativeAppend(a: string, b: string)
    requires |a| > 0 && a[0] != '/'
    ensures Relative(a + b)
  {
    assert (a + b)[0] == a[0];
  }

  /** `os.path.join` of a single component. */
  lemma JoinOne(p: string, x: string)
    ensures JoinAll(p, [x]) == Join(p, x)
  {
    assert [x][..0] == [];
  }

  /** A path component that neither starts nor ends with a separator. */
  predicate Segment(s: string)
  {
    |s| > 0 && s[0] != '/' && s[|s| - 1] != '/'
  }

  /** Components written out with one separator between each two. */
  function Slashed(comps: seq<string>): string
    requires |comps| > 0
    decreases |comps|
  {
    if |comps| == 1 then comps[0]
    else Slashed(comps[..|comps| - 1]) + "/" + comps[|comps| - 1]
  }

  lemma {:induction false} SlashedSegment(comps: seq<string>)
    requires |comps| > 0 && forall i | 0 <= i < |comps| :: Segment(comps[i])
    ensures Segment(Slashed(comps))
    decreases |comps|
  {
    if |comps| > 1 {
      SlashedSegment(comps[..|comps| - 1]);
      var s := Slashed(comps[..|comps| - 1]);
      var last := comps[|comps| - 1];
      assert (s + "/" + last)[0] == s[0];
      assert (s + "/" + last)[|s + "/" + last| - 1] == last[|last| - 1];
    }
  }

  /** Joining a segment and then a relative path is joining their
      separator-joined concatenation. */
  lemma JoinJoin(p: string, s: string, last: string)
    requires Segment(s) && Relative(last)
    ensures Join(Join(p, s), last) == Join(p, s + "/" + last)
  {
    var t := s + "/" + last;
    assert t[0] == s[0];
    var q := if p == [] || p[|p| - 1] == '/' then p else p + "/";
    assert Join(p, s) == q + s;
    assert Join(p, t) == q + t;
    var j := q + s;
    assert j[|j| - 1] == s[|s| - 1];
    assert Join(j, last) == j + "/" + last;
    assert (q + s) + "/" + last == q + (s + "/" + last);
  }

  /** With relative components that are clean segments (the last one only
      needs to be relative), `os.path.join` is one join with the components
      written out separated by "/". */
  lemma {:induction false} JoinAllSlashed(p: string, comps: seq<string>)
    requires |comps| > 0
    requires forall i | 0 <= i < |comps| - 1 :: Segment(comps[i])
    requires Relative(comps[|comps| - 1])
    ensures JoinAll(p, comps) == Join(p, Slashed(comps))
    decreases |comps|
  {
    var n := |comps| - 1;
    if n > 0 {
      var init := comps[..n];
      forall i | 0 <= i < |init|
        ensures Segment(init[i])
      {
        assert init[i] == comps[i];
      }
      JoinAllSlashed(p, init);
      SlashedSegment(init);
      JoinJoin(p, Slashed(init), comps[n]);
    }
  }

  // ---------------------------------------------------------------------------
  // Directory prefixes

  /** The per-purpose directories of a setup (the `utils` path functions).
      `sandbox` is None when the setup has no sandbox. */
  datatype Setup = Setup(
    tierDaq: string, tierRaw: string, tierRawBlind: string, tierTcm: string, tierDsp: string,
    tierHit: string, tierPht: string, tierEvt: string,
    parRaw: string, parTcm: string, parDsp: string, parHit: string, parPht: string, parEvt: string,
    parOverwrite: string, plts: string, sandbox: Option<string>,
    tmpLog: string, tmpPar: string, tmpPlts: string)

  // ---------------------------------------------------------------------------
  // Wildcards and keys

  /** The wildcard `{name}`. */
  function Ph(name: string): string
  {
    "{" + name + "}"
  }

  /** The run key with wildcards written by `w`:
      `{experiment}-{period}-{run}-<kind>-{timestamp}` for `w` = Ph,
      `<kind>` being the data type. */
  function Key(w: string -> string, kind: string): string
  {
    w("experiment") + "-" + w("period") + "-" + w("run") + "-" + kind + "-" + w("timestamp")
  }

  function RunKey(kind: string): string
  {
    Key(Ph, kind)
  }

  /** `key_pattern`. */
  function KeyPattern(): string
  {
    RunKey(Ph("datatype"))
  }

  /** `processing_pattern`. */
  function ProcessingPattern(): string
  {
    KeyPattern() + "-" + Ph("processing_step") + "." + Ph("ext")
  }

  /** `par_validity_pattern`. */
  function ParValidityPattern(): string
  {
    Ph("datatype") + "/" + Ph("period") + "/" + Ph("run") + "/" + ProcessingPattern()
  }

  /** `par_pattern`. */
  function ParPattern(): string
  {
    KeyPattern() + "-par_" + Ph("name")
  }

  /** `par_overwrite_pattern`. */
  function ParOverwritePattern(): string
  {
    KeyPattern() + "-" + Ph("processing_step") + "-overwrite"
  }

  /** `processing_overwrite_pattern`. */
  function ProcessingOverwritePattern(): string
  {
    ParOverwritePattern() + "." + Ph("ext")
  }

  /** `full_channel_pattern`. */
  function FullChannelPattern(): string
  {
    KeyPattern() + "-" + Ph("channel") + "-" + Ph("processing_step")
  }

  /** `full_channel_pattern_with_extension`. */
  function FullChannelPatternWithExtension(): string
  {
    FullChannelPattern() + "." + Ph("ext")
  }

  /** A sanity fact about the constant patterns, on which the shape lemmas
      below rely implicitly: each starts with the key (a validity file after
      its run directory), a processing file is the key, the step and the
      extension, and the overwrite file is the overwrite pattern with the
      extension. */
  lemma KeyPatternsCompose()
    ensures ProcessingPattern()[..|KeyPattern()|] == KeyPattern()
    ensures ProcessingPattern()[|KeyPattern()|..] == "-" + Ph("processing_step") + "." + Ph("ext")
    ensures ParValidityPattern()[|Ph("datatype") + "/" + Ph("period") + "/" + Ph("run") + "/"|..] == ProcessingPattern()
    ensures ParPattern()[..|KeyPattern()|] == KeyPattern()
    ensures ProcessingOverwritePattern()[..|ParOverwritePattern()|] == ParOverwritePattern()
    ensures ProcessingOverwritePattern()[|ParOverwritePattern()|..] == "." + Ph("ext")
    ensures FullChannelPattern()[..|KeyPattern()|] == KeyPattern()
    ensures FullChannelPatternWithExtension()[..|FullChannelPattern()|] == FullChannelPattern()
  {
  }

  // ---------------------------------------------------------------------------
  // Tier files

  /** `get_pattern_unsorted_data`: the raw data file in the sandbox, when
      there is one. */
  function UnsortedData(setup: Setup): (r: Option<string>)
    ensures r.None? <==> setup.sandbox.None?
  {
    if setup.sandbox.Some? then Some(JoinAll(setup.sandbox.value, [KeyPattern() + ".orca"]))
    else None
  }

  /** `get_pattern_tier_daq`. */
  function TierDaq(setup: Setup): string
  {
    JoinAll(setup.tierDaq, [Ph("datatype"), Ph("period"), Ph("run"), KeyPattern() + ".orca"])
  }

  /** `get_pattern_tier_raw_blind`: the data type is fixed to `phy`. */
  function TierRawBlind(setup: Setup): string
  {
    JoinAll(setup.tierRawBlind, ["phy", Ph("period"), Ph("run"), RunKey("phy") + "-tier_raw.lh5"])
  }

  /** `get_pattern_tier_<tier>` for the LH5 tiers raw, tcm, dsp, hit, pht and
      evt, which differ only in prefix and tier name. */
  function TierFile(prefix: string, tier: string): string
  {
    JoinAll(prefix, [Ph("datatype"), Ph("period"), Ph("run"), KeyPattern() + ("-tier_" + tier + ".lh5")])
  }

  /** The tiers `get_pattern_tier` knows. */
  function TierNames(): set<string>
  {
    {"daq", "raw", "tcm", "dsp", "hit", "pht", "evt"}
  }

  /** The directory prefix of each known tier's files. */
  function TierPrefix(setup: Setup, tier: string): string
  {
    if tier == "daq" then setup.tierDaq
    else if tier == "raw" then setup.tierRaw
    else if tier == "tcm" then setup.tierTcm
    else if tier == "dsp" then setup.tierDsp
    else if tier == "hit" then setup.tierHit
    else if tier == "pht" then setup.tierPht
    else setup.tierEvt
  }

  /** `get_pattern_tier`: a pattern for each known tier (daq its own, the
      others the LH5 form under their own prefix), "invalid tier"
      otherwise. */
  function GetPatternTier(setup: Setup, tier: string): (r: Result<string, string>)
    ensures r.Ok? <==> tier in TierNames()
    ensures r.Err? ==> r.error == "invalid tier"
  {
    if tier == "daq" then Ok(TierDaq(setup))
    else if tier in TierNames() then Ok(TierFile(TierPrefix(setup, tier), tier))
    else Err("invalid tier")
  }

  /** Three directories and a file name, written out. */
  lemma Slashed4(a: string, b: string, c: string, d: string)
    ensures Slashed([a, b, c, d]) == a + "/" + b + "/" + c + "/" + d
  {
    assert [a, b][..1] == [a];
    assert Slashed([a, b]) == a + "/" + b;
    assert [a, b, c][..2] == [a, b];
    assert Slashed([a, b, c]) == a + "/" + b + "/" + c;
    assert [a, b, c, d][..3] == [a, b, c];
  }

  lemma PhSegment(name: string)
    ensures Segment(Ph(name)) && Ph(name)[0] == '{'
  {
  }

  lemma RunKeyRelative(kind: string, rest: string)
    ensures Relative(RunKey(kind) + rest)
  {
    assert RunKey(kind)[0] == '{';
    RelativeAppend(RunKey(kind), rest);
  }

  /** Every tier file is `<prefix>/{datatype}/{period}/{run}/<key>` followed
      by `-tier_<tier>.lh5`, except daq, which ends in `.orca` without a
      tier suffix; blinded raw files fix the data type to `phy`. */
  lemma TierPatternShape(setup: Setup, tier: string)
    requires tier in TierNames()
    ensures GetPatternTier(setup, tier).value ==
      Join(TierPrefix(setup, tier), Ph("datatype") + "/" + Ph("period") + "/" + Ph("run") + "/"
        + (KeyPattern() + (if tier == "daq" then ".orca" else "-tier_" + tier + ".lh5")))
    ensures TierRawBlind(setup) ==
      Join(setup.tierRawBlind, "phy" + "/" + Ph("period") + "/" + Ph("run") + "/" + (RunKey("phy") + "-tier_raw.lh5"))
  {
    PhSegment("datatype");
    PhSegment("period");
    PhSegment("run");
    var suffix := if tier == "daq" then ".orca" else "-tier_" + tier + ".lh5";
    RunKeyRelative(Ph("datatype"), suffix);
    JoinAllSlashed(TierPrefix(setup, tier), [Ph("datatype"), Ph("period"), Ph("run"), KeyPattern() + suffix]);
    Slashed4(Ph("datatype"), Ph("period"), Ph("run"), KeyPattern() + suffix);
    RunKeyRelative("phy", "-tier_raw.lh5");
    JoinAllSlashed(setup.tierRawBlind, ["phy", Ph("period"), Ph("run"), RunKey("phy") + "-tier_raw.lh5"]);
    Slashed4("phy", Ph("period"), Ph("run"), RunKey("phy") + "-tier_raw.lh5");
  }

  // ---------------------------------------------------------------------------
  // Parameter files

  /** The optional `_<name>` part of a file name. */
  function NameSuffix(name: Option<string>): string
  {
    if name.Some? then "_" + name.value else ""
  }

  /** `get_pattern_par_<tier>(setup, name, extension)`: parameter files are
      always in the `cal` directory and carry the `cal` data type. */
  function ParFile(prefix: string, tier: string, name: Option<string>, extension: string): string
  {
    JoinAll(prefix, ["cal", Ph("period"), Ph("run"), RunKey("cal") + ("-par_" + tier + NameSuffix(name) + "." + extension)])
  }

  /** The tiers `get_pattern_pars` knows: those of `get_pattern_tier` but
      daq. */
  function ParTierNames(): set<string>
  {
    {"raw", "tcm", "dsp", "hit", "pht", "evt"}
  }

  /** The directory prefix of each tier's parameter files. */
  function ParPrefix(setup: Setup, tier: string): string
  {
    if tier == "raw" then setup.parRaw
    else if tier == "tcm" then setup.parTcm
    else if tier == "dsp" then setup.parDsp
    else if tier == "hit" then setup.parHit
    else if tier == "pht" then setup.parPht
    else setup.parEvt
  }

  /** `get_pattern_pars`: the parameter file of a known tier with the default
      extension `json`; "invalid tier" otherwise. */
  function GetPatternPars(setup: Setup, tier: string, name: Option<string>): (r: Result<string, string>)
    ensures r.Ok? <==> tier in ParTierNames()
    ensures r.Err? ==> r.error == "invalid tier"
  {
    if tier in ParTierNames() then Ok(ParFile(ParPrefix(setup, tier), tier, name, "json"))
    else Err("invalid tier")
  }

  /** A parameter file is `<prefix>/cal/{period}/{run}/...-cal-{timestamp}`
      followed by `-par_<tier>_<name>.<ext>` with a name and by
      `-par_<tier>.<ext>` without one; `get_pattern_pars` uses `json`. */
  lemma ParFileShape(setup: Setup, prefix: string, tier: string, name: Option<string>, extension: string)
    ensures ParFile(prefix, tier, name, extension) ==
      Join(prefix, "cal" + "/" + Ph("period") + "/" + Ph("run") + "/"
        + (RunKey("cal") + ("-par_" + tier + (if name.Some? then "_" + name.value else "") + "." + extension)))
    ensures tier in ParTierNames() ==> GetPatternPars(setup, tier, name).value == ParFile(ParPrefix(setup, tier), tier, name, "json")
  {
    PhSegment("period");
    PhSegment("run");
    var last := RunKey("cal") + ("-par_" + tier + NameSuffix(name) + "." + extension);
    RunKeyRelative("cal", "-par_" + tier + NameSuffix(name) + "." + extension);
    JoinAllSlashed(prefix, ["cal", Ph("period"), Ph("run"), last]);
    Slashed4("cal", Ph("period"), Ph("run"), last);
  }

  /** `get_pattern_pars_overwrite`: the tier is a directory of its own. */
  function ParsOverwrite(setup: Setup, tier: string, name: Option<string>): string
  {
    JoinAll(setup.parOverwrite, [tier, Ph("datatype"), Ph("period"), Ph("run"),
      KeyPattern() + ("-par_" + tier + NameSuffix(name) + "-overwrite.json")])
  }

  /** For a tier that is a clean path segment, the overwrite file is
      `<prefix>/<tier>/{datatype}/{period}/{run}/<key>` followed by
      `-par_<tier>[_<name>]-overwrite.json`. */
  lemma ParsOverwriteShape(setup: Setup, tier: string, name: Option<string>)
    requires Segment(tier)
    ensures ParsOverwrite(setup, tier, name) ==
      Join(setup.parOverwrite, tier + "/" + Ph("datatype") + "/" + Ph("period") + "/" + Ph("run") + "/"
        + (KeyPattern() + ("-par_" + tier + (if name.Some? then "_" + name.value else "") + "-overwrite.json")))
  {
    PhSegment("datatype");
    PhSegment("period");
    PhSegment("run");
    var last := KeyPattern() + ("-par_" + tier + NameSuffix(name) + "-overwrite.json");
    RunKeyRelative(Ph("datatype"), "-par_" + tier + NameSuffix(name) + "-overwrite.json");
    var comps := [tier, Ph("datatype"), Ph("period"), Ph("run"), last];
    JoinAllSlashed(setup.parOverwrite, comps);
    assert comps[..4] == [tier, Ph("datatype"), Ph("period"), Ph("run")];
    Slashed4(tier, Ph("datatype"), Ph("period"), Ph("run"));
  }

  /** `get_pattern_pars_tmp`. */
  function ParsTmp(setup: Setup, tier: string, name: Option<string>): string
  {
    JoinAll(setup.tmpPar, [KeyPattern() + "-par_" + tier + NameSuffix(name) + ".json"])
  }

  /** `{experiment}-{period}-{run}-cal-{timestamp}-{channel}-`, the start of
      the per-channel file names. */
  function ChannelKey(): string
  {
    RunKey("cal") + "-" + Ph("channel") + "-"
  }

  /** `get_pattern_pars_tmp_channel`. */
  function ParsTmpChannel(setup: Setup, tier: string, name: Option<string>, extension: string): string
  {
    JoinAll(setup.tmpPar, [ChannelKey() + "par_" + tier + NameSuffix(name) + "." + extension])
  }

  /** `get_pattern_plts_tmp_channel`. */
  function PltsTmpChannel(setup: Setup, tier: string, name: Option<string>): string
  {
    JoinAll(setup.tmpPlts, [ChannelKey() + "plt_" + tier + NameSuffix(name) + ".pkl"])
  }

  /** `get_pattern_plts`. */
  function Plts(setup: Setup, tier: string): string
  {
    JoinAll(setup.plts, [tier, "cal", Ph("period"), Ph("run"), RunKey("cal") + ("-plt_" + tier + ".dir")])
  }

  /** `get_pattern_log` and, with `channel`, `get_pattern_log_channel`. */
  function Log(setup: Setup, step: string, channel: bool): string
  {
    JoinAll(setup.tmpLog, [step, LogName(step, channel)])
  }

  /** The log file name: the run key (with the channel for channel logs)
      and the step. */
  function LogName(step: string, channel: bool): string
  {
    if channel then RunKey("cal") + ("-" + Ph("channel") + "-" + step + ".log")
    else RunKey(Ph("datatype")) + ("-" + step + ".log")
  }

  /** Plots go to `<plts>/<tier>/cal/{period}/{run}/` and logs to
      `<tmp_log>/<step>/`, each under a file name that starts with the run
      key. */
  lemma PltsAndLogShape(setup: Setup, tier: string, step: string, channel: bool)
    requires Segment(tier) && Segment(step)
    ensures Plts(setup, tier) ==
      Join(setup.plts, tier + "/" + "cal" + "/" + Ph("period") + "/" + Ph("run") + "/" + (RunKey("cal") + ("-plt_" + tier + ".dir")))
    ensures Log(setup, step, channel) == Join(setup.tmpLog, step + "/" + LogName(step, channel))
  {
    PhSegment("period");
    PhSegment("run");
    var last := RunKey("cal") + ("-plt_" + tier + ".dir");
    RunKeyRelative("cal", "-plt_" + tier + ".dir");
    var comps := [tier, "cal", Ph("period"), Ph("run"), last];
    JoinAllSlashed(setup.plts, comps);
    assert comps[..4] == [tier, "cal", Ph("period"), Ph("run")];
    Slashed4(tier, "cal", Ph("period"), Ph("run"));
    if channel {
      RunKeyRelative("cal", "-" + Ph("channel") + "-" + step + ".log");
    } else {
      RunKeyRelative(Ph("datatype"), "-" + step + ".log");
    }
    JoinAllSlashed(setup.tmpLog, [step, LogName(step, channel)]);
    assert [step, LogName(step, channel)][..1] == [step];
  }

  /** The single-file patterns in the temporary directories are that
      directory joined with one file name, which carries the optional
      `_<name>` right after the tier. */
  lemma TmpFilesShape(setup: Setup, tier: string, name: Option<string>, extension: string)
    ensures ParsTmp(setup, tier, name) ==
      Join(setup.tmpPar, KeyPattern() + "-par_" + tier + (if name.Some? then "_" + name.value else "") + ".json")
    ensures ParsTmpChannel(setup, tier, name, extension) ==
      Join(setup.tmpPar, ChannelKey() + "par_" + tier + (if name.Some? then "_" + name.value else "") + "." + extension)
    ensures PltsTmpChannel(setup, tier, name) ==
      Join(setup.tmpPlts, ChannelKey() + "plt_" + tier + (if name.Some? then "_" + name.value else "") + ".pkl")
  {
    JoinOne(setup.tmpPar, KeyPattern() + "-par_" + tier + NameSuffix(name) + ".json");
    JoinOne(setup.tmpPar, ChannelKey() + "par_" + tier + NameSuffix(name) + "." + extension);
    JoinOne(setup.tmpPlts, ChannelKey() + "plt_" + tier + NameSuffix(name) + ".pkl");
  }

  // ---------------------------------------------------------------------------
  // The energy-grid pattern and `str.format`

  /** The escaped wildcard `{{name}}`, which `str.format` turns into `{name}`. */
  function Esc(name: string): string
  {
    "{{" + name + "}}"
  }

  /** The directories of the energy-grid pattern, wildcards written by `w`. */
  function EnergyGridDirs(w: string -> string): seq<string>
  {
    ["dsp", "cal", w("period"), w("run"), "par_dsp_energy_grid", w("channel")]
  }

  /** The energy-grid file name, wildcards written by `w` and the peak given
      as `peak`. */
  function EnergyGridFile(w: string -> string, peak: string): string
  {
    Key(w, "cal") + "-" + w("channel") + "-" + peak + "-par_dsp_energy_grid.pkl"
  }

  /** `get_energy_grids_pattern_combine`: a pattern meant to be formatted with
      `peak` first, so every other wildcard is escaped. */
  function EnergyGrid(setup: Setup): string
  {
    JoinAll(setup.tmpPar, EnergyGridDirs(Esc) + [EnergyGridFile(Esc, Ph("peak"))])
  }

  predicate NoBraces(s: string)
  {
    forall i | 0 <= i < |s| :: s[i] != '{' && s[i] != '}'
  }

  function Prepend(p: string, r: Option<string>): Option<string>
  {
    if r.Some? then Some(p + r.value) else None
  }

  /** `s.format(**{field: value})` for a template whose replacement fields
      are plain names: `{{` and `}}` become single braces, `{field}` becomes
      `value`, and any other replacement field or lone brace is an error
      (KeyError or ValueError in Python). */
  function Format(s: string, field: string, value: string): Option<string>
    decreases |s|
  {
    if s == [] then Some([])
    else if s[0] == '{' then
      if |s| >= 2 && s[1] == '{' then Prepend("{", Format(s[2..], field, value))
      else if |Ph(field)| <= |s| && s[..|Ph(field)|] == Ph(field) then
        Prepend(value, Format(s[|Ph(field)|..], field, value))
      else None
    else if s[0] == '}' then
      if |s| >= 2 && s[1] == '}' then Prepend("}", Format(s[2..], field, value))
      else None
    else Prepend([s[0]], Format(s[1..], field, value))
  }

  lemma PrependAssoc(p: string, q: string, r: Option<string>)
    ensures Prepend(p, Prepend(q, r)) == Prepend(p + q, r)
  {
    if r.Some? {
      assert p + (q + r.value) == (p + q) + r.value;
    }
  }

  /** Formatting a template whose front part formats on its own formats the
      two parts separately. */
  lemma {:induction false} FormatConcat(a: string, b: string, field: string, value: string)
    requires |field| > 0 && field[0] != '{'
    requires Format(a, field, value).Some?
    ensures Format(a + b, field, value) == Prepend(Format(a, field, value).value, Format(b, field, value))
    decreases |a|
  {
    var fb := Format(b, field, value);
    if a == [] {
      assert a + b == b;
      if fb.Some? {
        assert [] + fb.value == fb.value;
      }
    } else {
      var ab := a + b;
      var ph := Ph(field);
      assert ab[0] == a[0];
      var head: string, rest: string;
      if a[0] == '{' {
        if |a| >= 2 && a[1] == '{' {
          head, rest := "{", a[2..];
          assert ab[2..] == rest + b;
        } else {
          assert a[..|ph|] == ph;
          assert ab[..|ph|] == ph;
          assert ab[1] == a[1] == field[0];
          head, rest := value, a[|ph|..];
          assert ab[|ph|..] == rest + b;
        }
      } else if a[0] == '}' {
        assert ab[1] == a[1];
        head, rest := "}", a[2..];
        assert ab[2..] == rest + b;
      } else {
        head, rest := [a[0]], a[1..];
        assert ab[1..] == rest + b;
      }
      assert Format(a, field, value) == Prepend(head, Format(rest, field, value));
      assert Format(ab, field, value) == Prepend(head, Format(rest + b, field, value));
      FormatConcat(rest, b, field, value);
      PrependAssoc(head, Format(rest, field, value).value, fb);
    }
  }

  /** Text without braces is left as it is. */
  lemma {:induction false} FormatPlain(s: string, field: string, value: string)
    requires NoBraces(s)
    ensures Format(s, field, value) == Some(s)
    decreases |s|
  {
    if s != [] {
      FormatPlain(s[1..], field, value);
      assert [s[0]] + s[1..] == s;
    }
  }

  /** Two parts that format on their own format together. */
  lemma FormatAppend(a: string, b: string, field: string, value: string, fa: string, fb: string)
    requires |field| > 0 && field[0] != '{'
    requires Format(a, field, value) == Some(fa) && Format(b, field, value) == Some(fb)
    ensures Format(a + b, field, value) == Some(fa + fb)
  {
    FormatConcat(a, b, field, value);
  }

  /** An escaped wildcard becomes a plain one. */
  lemma FormatEsc(name: string, field: string, value: string)
    requires |field| > 0 && field[0] != '{' && NoBraces(name)
    ensures Format(Esc(name), field, value) == Some(Ph(name))
  {
    var s := Esc(name);
    assert s[0] == '{' && s[1] == '{';
    assert s[2..] == name + "}}";
    FormatPlain(name, field, value);
    assert "}}"[2..] == [] && "}" + [] == "}";
    assert Format("}}", field, value) == Some("}");
    FormatAppend(name, "}}", field, value, name, "}");
    assert "{" + (name + "}") == Ph(name);
  }

  /** The wildcard being filled in becomes the value. */
  lemma FormatField(field: string, value: string)
    requires |field| > 0 && field[0] != '{'
    ensures Format(Ph(field), field, value) == Some(value)
  {
    var s := Ph(field);
    assert s[1] == field[0];
    assert s[..|s|] == s && s[|s|..] == [];
    assert value + [] == value;
  }

  /** Formatting the separator-joined components formats each component. */
  lemma {:induction false} FormatSlashed(comps: seq<string>, outs: seq<string>, field: string, value: string)
    requires |field| > 0 && field[0] != '{'
    requires |comps| == |outs| > 0
    requires forall i | 0 <= i < |comps| :: Format(comps[i], field, value) == Some(outs[i])
    ensures Format(Slashed(comps), field, value) == Some(Slashed(outs))
    decreases |comps|
  {
    var n := |comps| - 1;
    if n > 0 {
      FormatSlashed(comps[..n], outs[..n], field, value);
      FormatPlain("/", field, value);
      FormatAppend(Slashed(comps[..n]), "/", field, value, Slashed(outs[..n]), "/");
      FormatAppend(Slashed(comps[..n]) + "/", comps[n], field, value, Slashed(outs[..n]) + "/", outs[n]);
    }
  }

  /** Formatting a join of a brace-free directory with a relative path
      formats the path. */
  lemma FormatJoin(p: string, path: string, out: string, field: string, value: string)
    requires |field| > 0 && field[0] != '{' && NoBraces(p)
    requires Relative(path) && Relative(out)
    requires Format(path, field, value) == Some(out)
    ensures Format(Join(p, path), field, value) == Some(Join(p, out))
  {
    FormatPlain(p, field, value);
    if p == [] || p[|p| - 1] == '/' {
      FormatAppend(p, path, field, value, p, out);
    } else {
      FormatPlain("/", field, value);
      FormatAppend(p, "/", field, value, p, "/");
      FormatAppend(p + "/", path, field, value, p + "/", out);
    }
  }

  lemma EscSegment(name: string)
    ensures Segment(Esc(name)) && Esc(name)[0] == '{'
  {
  }

  /** An escaped run key becomes the plain one. */
  lemma FormatKey(kind: string, field: string, value: string)
    requires |field| > 0 && field[0] != '{' && NoBraces(kind)
    ensures Format(Key(Esc, kind), field, value) == Some(Key(Ph, kind))
  {
    FormatEsc("experiment", field, value);
    FormatEsc("period", field, value);
    FormatEsc("run", field, value);
    FormatEsc("timestamp", field, value);
    FormatPlain("-", field, value);
    FormatPlain(kind, field, value);
    var a, b := Esc("experiment"), Ph("experiment");
    FormatAppend(a, "-", field, value, b, "-");
    FormatAppend(a + "-", Esc("period"), field, value, b + "-", Ph("period"));
    a, b := a + "-" + Esc("period"), b + "-" + Ph("period");
    FormatAppend(a, "-", field, value, b, "-");
    FormatAppend(a + "-", Esc("run"), field, value, b + "-", Ph("run"));
    a, b := a + "-" + Esc("run"), b + "-" + Ph("run");
    FormatAppend(a, "-", field, value, b, "-");
    FormatAppend(a + "-", kind, field, value, b + "-", kind);
    a, b := a + "-" + kind, b + "-" + kind;
    FormatAppend(a, "-", field, value, b, "-");
    FormatAppend(a + "-", Esc("timestamp"), field, value, b + "-", Ph("timestamp"));
  }

  /** The energy-grid file name formats to the plain wildcards with the peak
      filled in. */
  lemma FormatEnergyGridFile(peak: string)
    ensures Format(EnergyGridFile(Esc, Ph("peak")), "peak", peak) == Some(EnergyGridFile(Ph, peak))
  {
    var f, v := "peak", peak;
    FormatKey("cal", f, v);
    FormatEsc("channel", f, v);
    FormatField(f, v);
    FormatPlain("-", f, v);
    FormatPlain("-par_dsp_energy_grid.pkl", f, v);
    var a, b := Key(Esc, "cal"), Key(Ph, "cal");
    FormatAppend(a, "-", f, v, b, "-");
    FormatAppend(a + "-", Esc("channel"), f, v, b + "-", Ph("channel"));
    a, b := a + "-" + Esc("channel"), b + "-" + Ph("channel");
    FormatAppend(a, "-", f, v, b, "-");
    FormatAppend(a + "-", Ph("peak"), f, v, b + "-", peak);
    a, b := a + "-" + Ph("peak"), b + "-" + peak;
    FormatAppend(a, "-par_dsp_energy_grid.pkl", f, v, b, "-par_dsp_energy_grid.pkl");
  }

  lemma FormatEnergyGridDirs(peak: string)
    ensures forall i | 0 <= i < 6 :: Format(EnergyGridDirs(Esc)[i], "peak", peak) == Some(EnergyGridDirs(Ph)[i])
  {
    var e := EnergyGridDirs(Esc);
    var o := EnergyGridDirs(Ph);
    forall i | 0 <= i < 6
      ensures Format(e[i], "peak", peak) == Some(o[i])
    {
      FormatDir(i, peak);
    }
  }

  lemma FormatDir(i: nat, peak: string)
    requires i < 6
    ensures Format(EnergyGridDirs(Esc)[i], "peak", peak) == Some(EnergyGridDirs(Ph)[i])
  {
    assert |"peak"| > 0 && "peak"[0] != '{';
    var e := EnergyGridDirs(Esc);
    var o := EnergyGridDirs(Ph);
    if i == 0 {
      assert e[i] == "dsp" == o[i] && NoBraces("dsp");
      FormatPlain("dsp", "peak", peak);
    } else if i == 1 {
      assert e[i] == "cal" == o[i] && NoBraces("cal");
      FormatPlain("cal", "peak", peak);
    } else if i == 4 {
      assert e[i] == "par_dsp_energy_grid" == o[i] && NoBraces("par_dsp_energy_grid");
      FormatPlain("par_dsp_energy_grid", "peak", peak);
    } else {
      var n := if i == 2 then "period" else if i == 3 then "run" else "channel";
      assert e[i] == Esc(n) && o[i] == Ph(n) && NoBraces(n);
      FormatEsc(n, "peak", peak);
    }
  }

  lemma EnergyGridDirsSegments()
    ensures forall i | 0 <= i < 6 :: Segment(EnergyGridDirs(Esc)[i]) && Segment(EnergyGridDirs(Ph)[i])
  {
    EscSegment("period");
    EscSegment("run");
    EscSegment("channel");
    PhSegment("period");
    PhSegment("run");
    PhSegment("channel");
    assert Segment("dsp") && Segment("cal") && Segment("par_dsp_energy_grid");
  }

  /** The separator-joined components start as the first one does. */
  lemma {:induction false} SlashedRelative(comps: seq<string>)
    requires |comps| > 0 && |comps[0]| > 0 && comps[0][0] != '/'
    ensures Relative(Slashed(comps))
    decreases |comps|
  {
    var n := |comps| - 1;
    if n > 0 {
      SlashedRelative(comps[..n]);
      var init := Slashed(comps[..n]);
      assert (init + "/" + comps[n])[0] == init[0];
    }
  }

  /** Formatting `os.path.join` of a brace-free directory and relative
      components formats each component. */
  lemma FormatJoinAll(p: string, comps: seq<string>, outs: seq<string>, field: string, value: string)
    requires |field| > 0 && field[0] != '{' && NoBraces(p)
    requires |comps| == |outs| > 0
    requires forall i | 0 <= i < |comps| - 1 :: Segment(comps[i]) && Segment(outs[i])
    requires Relative(comps[|comps| - 1]) && Relative(outs[|outs| - 1])
    requires |comps[0]| > 0 && comps[0][0] != '/' && |outs[0]| > 0 && outs[0][0] != '/'
    requires forall i | 0 <= i < |comps| :: Format(comps[i], field, value) == Some(outs[i])
    ensures Format(JoinAll(p, comps), field, value) == Some(JoinAll(p, outs))
  {
    JoinAllSlashed(p, comps);
    JoinAllSlashed(p, outs);
    FormatSlashed(comps, outs, field, value);
    SlashedRelative(comps);
    SlashedRelative(outs);
    FormatJoin(p, Slashed(comps), Slashed(outs), field, value);
  }

  /** In the energy-grid pattern every wildcard but `{peak}` is escaped:
      formatting it with a peak (and a brace-free temporary directory) gives
      the pattern with plain wildcards and the peak filled in. */
  lemma EnergyGridFormat(setup: Setup, peak: string)
    requires NoBraces(setup.tmpPar)
    ensures Format(EnergyGrid(setup), "peak", peak) ==
      Some(JoinAll(setup.tmpPar, EnergyGridDirs(Ph) + [EnergyGridFile(Ph, peak)]))
  {
    var comps := EnergyGridDirs(Esc) + [EnergyGridFile(Esc, Ph("peak"))];
    var outs := EnergyGridDirs(Ph) + [EnergyGridFile(Ph, peak)];
    EnergyGridDirsSegments();
    EnergyGridFileRelative(peak);
    FormatEnergyGridDirs(peak);
    FormatEnergyGridFile(peak);
    assert forall i | 0 <= i < 7 :: Format(comps[i], "peak", peak) == Some(outs[i]);
    FormatJoinAll(setup.tmpPar, comps, outs, "peak", peak);
  }

  lemma EnergyGridFileRelative(peak: string)
    ensures Relative(EnergyGridFile(Esc, Ph("peak"))) && Relative(EnergyGridFile(Ph, peak))
  {
    assert Esc("experiment")[0] == '{';
    KeyFileRelative(Esc, Ph("peak"));
    assert Ph("experiment")[0] == '{';
    KeyFileRelative(Ph, peak);
  }

  lemma KeyFileRelative(w: string -> string, peak: string)
    requires |w("experiment")| > 0 && w("experiment")[0] != '/'
    ensures Relative(EnergyGridFile(w, peak))
  {
    var k := Key(w, "cal");
    assert k[0] == w("experiment")[0];
    RelativeAppend(k, EnergyGridFile(w, peak)[|k|..]);
    assert EnergyGridFile(w, peak) == k + EnergyGridFile(w, peak)[|k|..];
  }
}
