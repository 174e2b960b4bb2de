/** The bookkeeping of the physics-data quality-cut script
    (`pars_pht_qc_phy.py`): the channel name, the file list assembled run by
    run, and (through CutRounds) the fft cut rounds whose dictionary is saved
    as `{"pars": {"operations": hit_dict}}`. */
module PhtQcPhy {
  import opened Common

  // ---------------------------------------------------------------------------
  // Channel name

  /** `f"ch{rawid:07}"`. */
  function ChannelName(rawid: int): string
  {
    "ch" + FormatInt(rawid, 7)
  }

  /** Reads a channel id back from a channel name. */
  function ParseChannelName(name: string): Option<int>
  {
    if |name| >= 3 && name[..2] == "ch" then ParseInt(name[2..]) else None
  }

  lemma ChannelNameRoundTrip(rawid: int)
    ensures ParseChannelName(ChannelName(rawid)) == Some(rawid)
  {
    var digits := FormatInt(rawid, 7);
    FormatIntRoundTrip(rawid, 7);
    assert ParseInt(digits).Some?;
    assert ChannelName(rawid)[2..] == digits;
  }

  /** Distinct channel ids never share a name. */
  lemma ChannelNameInjective(a: int, b: int)
    requires ChannelName(a) == ChannelName(b)
    ensures a == b
  {
    ChannelNameRoundTrip(a);
    ChannelNameRoundTrip(b);
  }

  /** For a non-negative id: "ch", then at least seven digits (more when the
      id needs them, never truncated) spelling the id. */
  lemma ChannelNameShape(rawid: nat)
    ensures var name := ChannelName(rawid);
      && name[..2] == "ch"
      && AllDigits(name[2..])
      && |name| - 2 == (if |Decimal(rawid)| < 7 then 7 else |Decimal(rawid)|)
      && DigitsValue(name[2..]) == rawid
  {
    FormatIntShape(rawid, 7);
    ZeroPadValue(rawid, 7);
    assert ChannelName(rawid)[2..] == FormatInt(rawid, 7);
  }

  // ---------------------------------------------------------------------------
  // The file list, run by run

  /** One block per list file, in the order given, skipping empty files:
      the sorted, duplicate-free lines of the file. `read` stands for reading
      a list file's lines. */
  function Blocks(lists: seq<string>, read: string -> seq<string>): (blocks: seq<seq<string>>)
    ensures |blocks| <= |lists|
    ensures forall k :: 0 <= k < |blocks| ==> |blocks[k]| > 0 && StrictlySorted(blocks[k])
  {
    if lists == [] then []
    else
      var lines := read(lists[|lists| - 1]);
      var before := Blocks(lists[..|lists| - 1], read);
      if |lines| == 0 then before
      else
        var block := SortedUnique(lines);
        assert lines[0] in Elems(block);
        before + [block]
  }

  function Concat(blocks: seq<seq<string>>): seq<string>
  {
    if blocks == [] then [] else Concat(blocks[..|blocks| - 1]) + blocks[|blocks| - 1]
  }

  /** `phy_files`: the blocks of the list files taken in sorted order, one
      after the other. */
  function PhyFiles(lists: seq<string>, read: string -> seq<string>): seq<string>
  {
    Concat(Blocks(Sort(lists), read))
  }

  /** The loop over `sorted(args.phy_files)`: an empty list file is skipped,
      otherwise its sorted, duplicate-free lines are appended. */
  method AssemblePhyFiles(lists: seq<string>, read: string -> seq<string>) returns (files: seq<string>)
    ensures files == PhyFiles(lists, read)
    ensures forall f :: f in files <==> Named(lists, read, f)
  {
    var order := Sort(lists);
    files := [];
    for i := 0 to |order|
      invariant files == Concat(Blocks(order[..i], read))
    {
      var runFiles := read(order[i]);
      BlocksStep(order, i, read);
      if |runFiles| == 0 {
        continue;
      }
      files := files + SortedUnique(runFiles);
    }
    assert order[..|order|] == order;
    forall f ensures f in files <==> Named(lists, read, f) {
      PhyFilesNamed(lists, read, f);
    }
  }

  /** A file is in `phy_files` exactly when some list file names it. */
  lemma PhyFilesNamed(lists: seq<string>, read: string -> seq<string>, f: string)
    ensures f in PhyFiles(lists, read) <==> Named(lists, read, f)
  {
    var order := Sort(lists);
    PhyFilesElems(order, read, f);
    if Named(order, read, f) {
      var l :| l in order && f in read(l);
      assert l in multiset(order);
    }
    if Named(lists, read, f) {
      var l :| l in lists && f in read(l);
      assert l in multiset(lists);
    }
  }

  /** One more list file adds its block, if it has lines. */
  lemma BlocksStep(lists: seq<string>, i: nat, read: string -> seq<string>)
    requires i < |lists|
    ensures Concat(Blocks(lists[..i + 1], read)) ==
      Concat(Blocks(lists[..i], read)) + (if |read(lists[i])| == 0 then [] else SortedUnique(read(lists[i])))
  {
    assert lists[..i + 1][..i] == lists[..i];
    if |read(lists[i])| > 0 {
      ConcatSnoc(Blocks(lists[..i], read), SortedUnique(read(lists[i])));
    }
  }

  lemma ConcatSnoc(before: seq<seq<string>>, block: seq<string>)
    ensures Concat(before + [block]) == Concat(before) + block
  {
    assert (before + [block])[..|before|] == before;
  }

  /** Some list file among `lists` holds the line `f`. */
  predicate Named(lists: seq<string>, read: string -> seq<string>, f: string)
  {
    exists l :: l in lists && f in read(l)
  }

  lemma NamedSnoc(lists: seq<string>, read: string -> seq<string>, f: string)
    requires |lists| > 0
    ensures Named(lists, read, f) <==>
      Named(lists[..|lists| - 1], read, f) || f in read(lists[|lists| - 1])
  {
    assert lists == lists[..|lists| - 1] + [lists[|lists| - 1]];
  }

  /** A file is in the assembled list exactly when some list file names it. */
  lemma {:induction false} PhyFilesElems(lists: seq<string>, read: string -> seq<string>, f: string)
    ensures f in Concat(Blocks(lists, read)) <==> Named(lists, read, f)
  {
    if lists != [] {
      var n := |lists| - 1;
      var last := lists[n];
      PhyFilesElems(lists[..n], read, f);
      NamedSnoc(lists, read, f);
      var before := Blocks(lists[..n], read);
      if |read(last)| > 0 {
        var block := SortedUnique(read(last));
        ConcatSnoc(before, block);
        assert f in block <==> f in Elems(block);
      }
    }
  }

  /** With a single list file the result is the sorted, duplicate-free set
      of its lines. */
  lemma SingleListFile(list: string, read: string -> seq<string>)
    ensures PhyFiles([list], read) == SortedUnique(read(list))
  {
    assert Sort([list]) == [list] by {
      var s := Sort([list]);
      assert multiset(s) == multiset{list};
      assert |s| == 1 && list in multiset(s);
    }
    var blocks := Blocks([list], read);
    assert [list][..0] == [];
    if |read(list)| == 0 {
      assert SortedUnique(read(list)) == [];
    } else {
      assert blocks == [] + [SortedUnique(read(list))];
      ConcatSnoc([], SortedUnique(read(list)));
    }
  }

  /** The list files are taken in sorted order, so the order in which they are
      given does not matter. */
  lemma OrderOfListFilesIrrelevant(a: seq<string>, b: seq<string>, read: string -> seq<string>)
    requires multiset(a) == multiset(b)
    ensures PhyFiles(a, read) == PhyFiles(b, read)
  {
    SortedPermutationUnique(Sort(a), Sort(b));
  }
}
