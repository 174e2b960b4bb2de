/** The decoder-configuration expansion of `build_tier_raw_llamadaq`: the
    template block stored under `__output_table_name__` in the
    `LLAMAEventDecoder` section is deep-copied once per channel, its
    `key_list` set to that channel's struck id, the copy stored under the
    channel's table name, and the template removed at the end. */
module RawLlamadaq {
  import opened Common
  import opened Json
  import RawMgdo

  /** The key the template block is stored under. */
  const TemplateKey: string := "__output_table_name__"

  /** The field of a block that selects the digitizer channel. */
  const KeyListField: string := "key_list"

  /** One channel-map entry, in the map's iteration order. */
  datatype Channel = Channel(rawid: int, struckid: int)

  /** The channels come from a dictionary keyed by raw id. */
  ghost predicate DistinctRawids(chs: seq<Channel>)
  {
    forall i, j | 0 <= i < j < |chs| :: chs[i].rawid != chs[j].rawid
  }

  /** The table name of each channel, in loop order. */
  function Targets(chs: seq<Channel>): (names: seq<string>)
    ensures |names| == |chs|
  {
    seq(|chs|, i requires 0 <= i < |chs| => RawMgdo.TableId(chs[i].rawid))
  }

  /** The elements of a sequence of names, collected from the front. */
  function NameSet(names: seq<string>): set<string>
    decreases |names|
  {
    if names == [] then {} else NameSet(names[..|names| - 1]) + {names[|names| - 1]}
  }

  lemma {:induction false} NameSetHas(names: seq<string>, i: nat)
    requires i < |names|
    ensures names[i] in NameSet(names)
    decreases |names|
  {
    if i < |names| - 1 {
      NameSetHas(names[..|names| - 1], i);
    }
  }

  /** The names the expansion generates. */
  function GeneratedNames(chs: seq<Channel>): set<string>
  {
    NameSet(Targets(chs))
  }

  /** Every channel's table name is generated. */
  lemma GeneratedNamesHas(chs: seq<Channel>, i: nat)
    requires i < |chs|
    ensures RawMgdo.TableId(chs[i].rawid) in GeneratedNames(chs)
  {
    NameSetHas(Targets(chs), i);
  }

  /** The block written for one channel: the template with `key_list` set to
      the one-element list holding the struck id. */
  function ChannelBlock(template: map<string, Json>, struckid: int): (b: map<string, Json>)
    ensures b.Keys == template.Keys + {KeyListField}
    ensures b[KeyListField] == JList([JInt(struckid)])
    ensures forall f | f in template && f != KeyListField :: b[f] == template[f]
  {
    template[KeyListField := JList([JInt(struckid)])]
  }

  /** The section, as values, after the first `|chs|` loop iterations, the
      k-th of which stores a copy for `chs[k]` under `names[k]`. */
  function ExpandPrefix(section: map<string, map<string, Json>>, template: map<string, Json>,
                        names: seq<string>, chs: seq<Channel>): map<string, map<string, Json>>
    requires |names| == |chs|
    decreases |chs|
  {
    if chs == [] then section
    else
      var n := |chs| - 1;
      ExpandPrefix(section, template, names[..n], chs[..n])[names[n] := ChannelBlock(template, chs[n].struckid)]
  }

  /** The whole expansion: None when the template is missing (the source
      raises KeyError, at the first deep copy or at the final pop). */
  function Expand(section: map<string, map<string, Json>>, chs: seq<Channel>): Option<map<string, map<string, Json>>>
  {
    if TemplateKey !in section then None
    else Some(ExpandPrefix(section, section[TemplateKey], Targets(chs), chs) - {TemplateKey})
  }

  /** A generated name never collides with the template key. */
  lemma TemplateNotTableId(rawid: int)
    ensures RawMgdo.TableId(rawid) != TemplateKey
  {
    assert RawMgdo.TableId(rawid)[0] == 'c';
  }

  lemma {:induction false} ExpandPrefixKeys(section: map<string, map<string, Json>>, template: map<string, Json>,
                                            names: seq<string>, chs: seq<Channel>)
    requires |names| == |chs|
    ensures ExpandPrefix(section, template, names, chs).Keys == section.Keys + NameSet(names)
    decreases |chs|
  {
    if chs != [] {
      var n := |chs| - 1;
      ExpandPrefixKeys(section, template, names[..n], chs[..n]);
    }
  }

  /** Keys that are not generated keep their blocks. */
  lemma {:induction false} ExpandPrefixOthers(section: map<string, map<string, Json>>, template: map<string, Json>,
                                              names: seq<string>, chs: seq<Channel>, k: string)
    requires |names| == |chs|
    requires k in section && k !in NameSet(names)
    ensures k in ExpandPrefix(section, template, names, chs)
    ensures ExpandPrefix(section, template, names, chs)[k] == section[k]
    decreases |chs|
  {
    if chs != [] {
      var n := |chs| - 1;
      ExpandPrefixOthers(section, template, names[..n], chs[..n], k);
    }
  }

  /** The block under the i-th name, when no later iteration reuses that
      name, is the template with the i-th channel's struck id. */
  lemma {:induction false} ExpandPrefixChannel(section: map<string, map<string, Json>>, template: map<string, Json>,
                                               names: seq<string>, chs: seq<Channel>, i: nat)
    requires |names| == |chs| && i < |chs|
    requires forall j | i < j < |chs| :: names[j] != names[i]
    ensures names[i] in ExpandPrefix(section, template, names, chs)
    ensures ExpandPrefix(section, template, names, chs)[names[i]] == ChannelBlock(template, chs[i].struckid)
    decreases |chs|
  {
    var n := |chs| - 1;
    if i < n {
      ExpandPrefixChannel(section, template, names[..n], chs[..n], i);
    }
  }

  /** A sanity fact, the first guard of `Expand` seen from outside: the
      expansion fails exactly when the template is missing. */
  lemma ExpandFailsIffNoTemplate(section: map<string, map<string, Json>>, chs: seq<Channel>)
    ensures Expand(section, chs).None? <==> TemplateKey !in section
  { }

  /** After expansion: every channel has its table, the template is gone, and
      the keys are exactly the untouched old keys plus the generated names. */
  lemma ExpandKeys(section: map<string, map<string, Json>>, chs: seq<Channel>)
    requires TemplateKey in section
    ensures var r := Expand(section, chs).value;
      && TemplateKey !in r
      && r.Keys == (section.Keys + GeneratedNames(chs)) - {TemplateKey}
      && forall i | 0 <= i < |chs| :: RawMgdo.TableId(chs[i].rawid) in r
  {
    ExpandPrefixKeys(section, section[TemplateKey], Targets(chs), chs);
    forall i | 0 <= i < |chs|
      ensures RawMgdo.TableId(chs[i].rawid) in GeneratedNames(chs) - {TemplateKey}
    {
      GeneratedNamesHas(chs, i);
      TemplateNotTableId(chs[i].rawid);
    }
  }

  /** Each generated block equals the template except for `key_list`, which is
      `[struckid]` of its channel. */
  lemma ExpandChannelBlock(section: map<string, map<string, Json>>, chs: seq<Channel>, i: nat)
    requires TemplateKey in section && DistinctRawids(chs) && i < |chs|
    ensures var r := Expand(section, chs).value;
      && RawMgdo.TableId(chs[i].rawid) in r
      && r[RawMgdo.TableId(chs[i].rawid)] == section[TemplateKey][KeyListField := JList([JInt(chs[i].struckid)])]
  {
    var names := Targets(chs);
    forall j | i < j < |chs|
      ensures names[j] != names[i]
    {
      if names[j] == names[i] {
        RawMgdo.TableIdInjective(chs[j].rawid, chs[i].rawid);
      }
    }
    ExpandPrefixChannel(section, section[TemplateKey], names, chs, i);
    TemplateNotTableId(chs[i].rawid);
  }

  /** Keys other than the template and the generated names are left as they
      were (a pre-existing key equal to a generated name is overwritten, by
      ExpandChannelBlock). */
  lemma ExpandOthers(section: map<string, map<string, Json>>, chs: seq<Channel>, k: string)
    requires TemplateKey in section && k in section && k != TemplateKey && k !in GeneratedNames(chs)
    ensures k in Expand(section, chs).value && Expand(section, chs).value[k] == section[k]
  {
    ExpandPrefixOthers(section, section[TemplateKey], Targets(chs), chs, k);
  }

  // ---------------------------------------------------------------------------
  // The in-place loop over mutable blocks

  /** A configuration block: a dictionary the loop mutates. */
  class Block {
    var fields: map<string, Json>

    constructor (fields: map<string, Json>)
      ensures this.fields == fields
    {
      this.fields := fields;
    }
  }

  /** The `LLAMAEventDecoder` section: a dictionary of blocks. */
  class DecoderSection {
    var blocks: map<string, Block>

    ghost function Objects(): set<Block>
      reads this
    {
      set k | k in blocks :: blocks[k]
    }

    /** The section as values. */
    ghost function Contents(): map<string, map<string, Json>>
      reads this, Objects()
    {
      map k | k in blocks :: blocks[k].fields
    }

    constructor (blocks: map<string, Block>)
      ensures this.blocks == blocks
    {
      this.blocks := blocks;
    }

    /** One iteration of the loop: a fresh copy of the template block, with
        `key_list` set, stored under `name`. */
    method StoreCopy(name: string, struckid: int)
      requires TemplateKey in blocks && name != TemplateKey
      modifies this
      ensures name in blocks && fresh(blocks[name])
      ensures blocks == old(blocks)[name := blocks[name]]
      ensures Contents() == old(Contents())[name := ChannelBlock(old(Contents())[TemplateKey], struckid)]
    {
      var copy := new Block(blocks[TemplateKey].fields[KeyListField := JList([JInt(struckid)])]);
      blocks := blocks[name := copy];
    }

    /** The loop at lines 40-43, storing a copy for `chs[k]` under
        `names[k]`. */
    method CopyTemplate(names: seq<string>, chs: seq<Channel>)
      requires |names| == |chs| && TemplateKey in blocks
      requires forall k | 0 <= k < |names| :: names[k] != TemplateKey
      modifies this
      ensures TemplateKey in blocks && blocks[TemplateKey] == old(blocks)[TemplateKey]
      ensures Contents() == ExpandPrefix(old(Contents()), old(Contents())[TemplateKey], names, chs)
      ensures forall k | k in NameSet(names) :: k in blocks && fresh(blocks[k])
      ensures forall k1, k2 | k1 in NameSet(names) && k2 in NameSet(names) && k1 != k2 :: blocks[k1] != blocks[k2]
    {
      ghost var section := Contents();
      ghost var template := section[TemplateKey];
      var i := 0;
      while i < |chs|
        invariant i <= |chs|
        invariant TemplateKey in blocks && blocks[TemplateKey] == old(blocks)[TemplateKey]
        invariant Contents() == ExpandPrefix(section, template, names[..i], chs[..i])
        invariant forall k | k in NameSet(names[..i]) :: k in blocks && fresh(blocks[k])
        invariant forall k1, k2 | k1 in NameSet(names[..i]) && k2 in NameSet(names[..i]) && k1 != k2 ::
                    blocks[k1] != blocks[k2]
      {
        StoreCopy(names[i], chs[i].struckid);
        assert names[..i + 1][..i] == names[..i];
        assert chs[..i + 1][..i] == chs[..i];
        assert NameSet(names[..i + 1]) == NameSet(names[..i]) + {names[i]};
        i := i + 1;
      }
      assert names[..i] == names;
      assert chs[..i] == chs;
    }

    /** The loop at lines 40-45: deep copy, set `key_list`, store, then pop
        the template. Returns false (and changes nothing) when the template
        is missing. The generated blocks are new objects, one per name, so
        they share no state with the template, with each other or with any
        block that was there before. */
    method ExpandChannels(chs: seq<Channel>) returns (ok: bool)
      modifies this
      ensures ok <==> TemplateKey in old(blocks)
      ensures !ok ==> blocks == old(blocks)
      ensures ok ==> Some(Contents()) == Expand(old(Contents()), chs)
      ensures ok ==> forall k | k in GeneratedNames(chs) :: k in blocks && fresh(blocks[k])
      ensures ok ==> forall k1, k2 | k1 in GeneratedNames(chs) && k2 in GeneratedNames(chs) && k1 != k2 ::
                       blocks[k1] != blocks[k2]
      ensures forall k | k in old(blocks) :: old(blocks)[k].fields == old(blocks[k].fields)
    {
      if TemplateKey !in blocks {
        return false;
      }
      var names := Targets(chs);
      forall k | 0 <= k < |names|
        ensures names[k] != TemplateKey
      {
        TemplateNotTableId(chs[k].rawid);
      }
      CopyTemplate(names, chs);
      ghost var full := Contents();
      blocks := blocks - {TemplateKey};
      assert Contents().Keys == full.Keys - {TemplateKey};
      assert Contents() == full - {TemplateKey};
      ok := true;
    }
  }
}
