/** The cut bookkeeping shared by the two quality-cut scripts
    (`par/geds/pht/qc.py` and `pars_pht_qc_phy.py`): the rewrite of a cut
    expression that marks its parameters with `@`, the row mask of one cut
    round, row selection, and the accumulation of the generated cut
    dictionaries round by round. The cut generator and pandas' expression
    evaluator are foreign code and appear as function parameters. */
module CutRounds {
  import opened Common
  import opened Json

  // ---------------------------------------------------------------------------
  // Expression rewrite: `re.sub(rf"(?<![a-zA-Z0-9]){key}(?![a-zA-Z0-9])", f"@{key}", exp)`

  /** A parameter name: letters, digits and underscores, at least one. No such
      character is special in a regular expression or in a replacement
      string, so the pattern built from the name matches it literally. */
  predicate Identifier(key: string)
  {
    |key| > 0 && forall i :: 0 <= i < |key| ==> IsAlnum(key[i]) || key[i] == '_'
  }

  type Name = key: string | Identifier(key) witness "x"

  /** The pattern matches at `i`: the name occurs there and neither the
      character before it nor the one after it (where they exist) is an
      ASCII letter or digit. An underscore does not block a match. */
  predicate MatchAt(s: string, key: string, i: nat)
  {
    OccursAt(s, key, i)
    && (i == 0 || !IsAlnum(s[i - 1]))
    && (i + |key| == |s| || !IsAlnum(s[i + |key|]))
  }

  /** The substitution scanning `s` from `i` on, as `re.sub` does: at a match
      the marked name is written and the scan resumes after the match;
      elsewhere one character is copied. The look-behind and look-ahead read
      the original text. */
  function MarkFrom(s: string, key: string, i: nat): string
    requires |key| > 0 && i <= |s|
    decreases |s| - i
  {
    if i == |s| then []
    else if MatchAt(s, key, i) then "@" + key + MarkFrom(s, key, i + |key|)
    else [s[i]] + MarkFrom(s, key, i + 1)
  }

  function Mark(s: string, key: Name): string
  {
    MarkFrom(s, key, 0)
  }

  /** Reference definition: an `@` inserted before every position where the
      pattern matches, every character of `s` kept. */
  function InsertMarksFrom(s: string, key: string, i: nat): string
    requires i <= |s|
    decreases |s| - i
  {
    if i == |s| then []
    else (if MatchAt(s, key, i) then "@" else "") + ([s[i]] + InsertMarksFrom(s, key, i + 1))
  }

  /** No two matches overlap. */
  ghost predicate Separated(s: string, key: string)
  {
    forall i: nat, j: nat :: i < j && MatchAt(s, key, i) && MatchAt(s, key, j) ==> i + |key| <= j
  }

  /** A name made of letters and digits only can never overlap another match
      of itself: the character before a second match would be a letter or
      digit of the first. */
  lemma AlnumNameSeparated(s: string, key: string)
    requires |key| > 0 && forall k :: 0 <= k < |key| ==> IsAlnum(key[k])
    ensures Separated(s, key)
  {
    forall i: nat, j: nat | i < j && MatchAt(s, key, i) && MatchAt(s, key, j)
      ensures i + |key| <= j
    {
      if j < i + |key| {
        assert false;
      }
    }
  }

  lemma {:induction false} InsertMarksSkip(s: string, key: string, i: nat, j: nat)
    requires i <= j <= |s|
    requires forall k: nat :: i <= k < j ==> !MatchAt(s, key, k)
    ensures InsertMarksFrom(s, key, i) == s[i..j] + InsertMarksFrom(s, key, j)
    decreases j - i
  {
    if i < j {
      assert !MatchAt(s, key, i);
      InsertMarksSkip(s, key, i + 1, j);
      SliceCons(s, i, j, InsertMarksFrom(s, key, j));
    }
  }

  lemma SliceCons(s: string, i: nat, j: nat, tail: string)
    requires i < j <= |s|
    ensures s[i..j] + tail == [s[i]] + (s[i + 1..j] + tail)
  {
    assert s[i..j] == [s[i]] + s[i + 1..j];
  }

  /** Where matches do not overlap, the substitution inserts an `@` before
      every match and changes nothing else. */
  lemma {:induction false} MarkFromIsInsertMarks(s: string, key: string, i: nat)
    requires |key| > 0 && i <= |s| && Separated(s, key)
    ensures MarkFrom(s, key, i) == InsertMarksFrom(s, key, i)
    decreases |s| - i
  {
    if i < |s| {
      if MatchAt(s, key, i) {
        MarkFromIsInsertMarks(s, key, i + |key|);
        NoMatchInside(s, key, i);
        InsertMarksSkip(s, key, i + 1, i + |key|);
        InsertMarksAtMatch(s, key, i);
      } else {
        MarkFromIsInsertMarks(s, key, i + 1);
      }
    }
  }

  lemma NoMatchInside(s: string, key: string, i: nat)
    requires Separated(s, key) && MatchAt(s, key, i)
    ensures forall k: nat :: i + 1 <= k < i + |key| ==> !MatchAt(s, key, k)
  {
  }

  /** At a match, the reference definition writes the `@` and then, when no
      other match starts inside this one, the name. */
  lemma InsertMarksAtMatch(s: string, key: string, i: nat)
    requires |key| > 0 && MatchAt(s, key, i)
    requires InsertMarksFrom(s, key, i + 1) == s[i + 1..i + |key|] + InsertMarksFrom(s, key, i + |key|)
    ensures InsertMarksFrom(s, key, i) == "@" + key + InsertMarksFrom(s, key, i + |key|)
  {
    var e := i + |key|;
    assert [s[i]] + s[i + 1..e] == key by {
      assert s[i..e] == key;
    }
    Regroup(s[i], s[i + 1..e], key, InsertMarksFrom(s, key, e), InsertMarksFrom(s, key, i + 1));
  }

  lemma Regroup(c: char, mid: string, key: string, tail: string, rest: string)
    requires rest == mid + tail && [c] + mid == key
    ensures "@" + ([c] + rest) == "@" + key + tail
  {
  }

  lemma MarkIsInsertMarks(s: string, key: Name)
    requires Separated(s, key)
    ensures Mark(s, key) == InsertMarksFrom(s, key, 0)
  {
    MarkFromIsInsertMarks(s, key, 0);
  }

  /** `t` with every `x` removed. */
  function Without(t: string, x: char): string
  {
    if t == [] then [] else (if t[0] == x then [] else [t[0]]) + Without(t[1..], x)
  }

  lemma {:induction false} WithoutAppend(a: string, b: string, x: char)
    ensures Without(a + b, x) == Without(a, x) + Without(b, x)
  {
    if a == [] {
      assert a + b == b;
    } else {
      assert (a + b)[0] == a[0];
      assert (a + b)[1..] == a[1..] + b;
      WithoutAppend(a[1..], b, x);
    }
  }

  /** The substitution only ever inserts `@`: removing every `@` from its
      result gives what removing them from its input gives. */
  lemma {:induction false} MarkFromOnlyInserts(s: string, key: string, i: nat)
    requires |key| > 0 && i <= |s|
    ensures Without(MarkFrom(s, key, i), '@') == Without(s[i..], '@')
    decreases |s| - i
  {
    if i < |s| {
      if MatchAt(s, key, i) {
        var e := i + |key|;
        MarkFromOnlyInserts(s, key, e);
        assert "@" + key == ['@'] + key;
        WithoutMarked('@', key, MarkFrom(s, key, e));
        WithoutSplit(s[i..], |key|, '@');
        assert s[i..][..|key|] == key && s[i..][|key|..] == s[e..];
      } else {
        MarkFromOnlyInserts(s, key, i + 1);
        WithoutAppend([s[i]], MarkFrom(s, key, i + 1), '@');
        WithoutSplit(s[i..], 1, '@');
        assert s[i..][..1] == [s[i]] && s[i..][1..] == s[i + 1..];
      }
    }
  }

  lemma WithoutMarked(x: char, key: string, rest: string)
    ensures Without([x] + key + rest, x) == Without(key, x) + Without(rest, x)
  {
    WithoutAppend([x] + key, rest, x);
    WithoutAppend([x], key, x);
    WithoutOne(x);
  }

  lemma WithoutOne(x: char)
    ensures Without([x], x) == []
  {
    assert [x][1..] == [];
  }

  lemma WithoutSplit(t: string, n: nat, x: char)
    requires n <= |t|
    ensures Without(t, x) == Without(t[..n], x) + Without(t[n..], x)
  {
    assert t == t[..n] + t[n..];
    WithoutAppend(t[..n], t[n..], x);
  }

  lemma MarkOnlyInserts(s: string, key: Name)
    ensures Without(Mark(s, key), '@') == Without(s, '@')
  {
    MarkFromOnlyInserts(s, key, 0);
    assert s[0..] == s;
  }

  /** A text in which the name never matches is left as it is. */
  lemma MarkWithoutMatch(s: string, key: Name)
    requires forall i: nat :: !MatchAt(s, key, i)
    ensures Mark(s, key) == s
  {
    MarkFromIsInsertMarks(s, key, 0);
    InsertMarksSkip(s, key, 0, |s|);
    assert s[0..|s|] == s;
  }

  /** An example of the two lemmas below: in `a_x*ax` only the first `x`,
      after an underscore, is marked; the last one, after a letter, is not. */
  lemma MarkNeighbours()
    ensures Mark("a_x*ax", "x") == "a_@x*ax"
  {
    var s, key: Name := "a_x*ax", "x";
    forall i: nat ensures OccursAt(s, key, i) <==> i == 2 || i == 5 {
      OccursOne(s, 'x', i);
    }
    assert !MatchAt(s, key, 0) && !MatchAt(s, key, 1) && MatchAt(s, key, 2);
    assert !MatchAt(s, key, 3) && !MatchAt(s, key, 4) && !MatchAt(s, key, 5);
    assert MarkFrom(s, key, 5) == "x";
    assert MarkFrom(s, key, 4) == "ax";
    assert MarkFrom(s, key, 3) == "*ax";
    assert MarkFrom(s, key, 2) == "@x*ax";
    assert MarkFrom(s, key, 1) == "_@x*ax";
  }

  lemma OccursOne(s: string, c: char, i: nat)
    ensures OccursAt(s, [c], i) <==> i < |s| && s[i] == c
  {
    if i < |s| {
      assert s[i..i + 1] == [s[i]];
    }
  }

  /** The reference definition over the positions `i` up to `j` of `s` (the
      look-ahead still reads the whole text). */
  function InsertMarksRange(s: string, key: string, i: nat, j: nat): string
    requires i <= j <= |s|
    decreases j - i
  {
    if i == j then []
    else (if MatchAt(s, key, i) then "@" else "") + ([s[i]] + InsertMarksRange(s, key, i + 1, j))
  }

  lemma {:induction false} InsertMarksRangeSplit(s: string, key: string, i: nat, j: nat)
    requires i <= j <= |s|
    ensures InsertMarksFrom(s, key, i) == InsertMarksRange(s, key, i, j) + InsertMarksFrom(s, key, j)
    decreases j - i
  {
    if i < j {
      InsertMarksRangeSplit(s, key, i + 1, j);
      var m := if MatchAt(s, key, i) then "@" else "";
      Regroup3(m, [s[i]], InsertMarksRange(s, key, i + 1, j), InsertMarksFrom(s, key, j));
    }
  }

  lemma Regroup3(m: string, c: string, r: string, t: string)
    ensures m + (c + (r + t)) == (m + (c + r)) + t
  {
  }

  /** An occurrence of the name whose left neighbour is an underscore, and
      whose right neighbour is not a letter or digit, is marked: the output
      is the rewrite of the text before it, then `@` and the rewrite from the
      occurrence on. */
  lemma UnderscoreDoesNotBlock(s: string, key: Name, i: nat)
    requires Separated(s, key)
    requires OccursAt(s, key, i) && i > 0 && s[i - 1] == '_'
    requires i + |key| == |s| || !IsAlnum(s[i + |key|])
    ensures Mark(s, key) == InsertMarksRange(s, key, 0, i) + ("@" + ([s[i]] + InsertMarksFrom(s, key, i + 1)))
  {
    UnderscoreMatch(s, key, i);
    MarkIsInsertMarks(s, key);
    InsertMarksRangeSplit(s, key, 0, i);
  }

  lemma UnderscoreMatch(s: string, key: string, i: nat)
    requires OccursAt(s, key, i) && i > 0 && s[i - 1] == '_'
    requires i + |key| == |s| || !IsAlnum(s[i + |key|])
    ensures MatchAt(s, key, i)
  {
  }

  /** A letter or digit on either side of a position blocks the match there:
      the output is the rewrite of the text before it, then the character
      itself, with no `@`, and the rewrite of the rest. */
  lemma AlnumNeighbourBlocks(s: string, key: Name, i: nat)
    requires Separated(s, key) && i < |s|
    requires (i > 0 && IsAlnum(s[i - 1])) || (i + |key| < |s| && IsAlnum(s[i + |key|]))
    ensures Mark(s, key) == InsertMarksRange(s, key, 0, i) + ([s[i]] + InsertMarksFrom(s, key, i + 1))
  {
    assert !MatchAt(s, key, i);
    MarkIsInsertMarks(s, key);
    InsertMarksRangeSplit(s, key, 0, i);
  }

  /** The rewrite of one expression: each parameter name in turn, in the
      order of the parameter dictionary. */
  function MarkAll(exp: string, keys: seq<Name>): string
  {
    if keys == [] then exp else Mark(MarkAll(exp, keys[..|keys| - 1]), keys[|keys| - 1])
  }

  lemma {:induction false} MarkAllOnlyInserts(exp: string, keys: seq<Name>)
    ensures Without(MarkAll(exp, keys), '@') == Without(exp, '@')
  {
    if keys != [] {
      MarkAllOnlyInserts(exp, keys[..|keys| - 1]);
      MarkOnlyInserts(MarkAll(exp, keys[..|keys| - 1]), keys[|keys| - 1]);
    }
  }

  /** The loop that rewrites `exp` for every parameter name. */
  method RewriteExpression(exp: string, keys: seq<Name>) returns (r: string)
    ensures r == MarkAll(exp, keys)
    ensures Without(r, '@') == Without(exp, '@')
  {
    r := exp;
    for k := 0 to |keys|
      invariant r == MarkAll(exp, keys[..k])
    {
      assert keys[..k + 1][..k] == keys[..k];
      r := Mark(r, keys[k]);
    }
    assert keys[..|keys|] == keys;
    MarkAllOnlyInserts(exp, keys);
  }

  // ---------------------------------------------------------------------------
  // Row masks and row selection

  /** The number of rows a mask keeps. */
  function Count(mask: seq<bool>): (c: nat)
    ensures c <= |mask|
  {
    if mask == [] then 0 else (if mask[0] then 1 else 0) + Count(mask[1..])
  }

  /** `rows[mask]`: the rows whose mask entry is true, in order. */
  function Select<T>(rows: seq<T>, mask: seq<bool>): (r: seq<T>)
    requires |mask| == |rows|
    ensures |r| == Count(mask)
  {
    if rows == [] then []
    else (if mask[0] then [rows[0]] else []) + Select(rows[1..], mask[1..])
  }

  /** Selection keeps rows and never invents one. */
  lemma {:induction false} SelectSubset<T>(rows: seq<T>, mask: seq<bool>)
    requires |mask| == |rows|
    ensures forall x :: x in Select(rows, mask) ==> x in rows
  {
    if rows != [] {
      SelectSubset(rows[1..], mask[1..]);
      assert forall x :: x in rows[1..] ==> x in rows;
    }
  }

  /** The positions from `i` on that a mask keeps, in increasing order
      (`np.where(mask)[0]` for `i == 0`). */
  function PositionsFrom(mask: seq<bool>, i: nat): (ps: seq<nat>)
    requires i <= |mask|
    ensures forall k :: 0 <= k < |ps| ==> i <= ps[k] < |mask|
    decreases |mask| - i
  {
    if i == |mask| then []
    else (if mask[i] then [i] else []) + PositionsFrom(mask, i + 1)
  }

  /** Every position listed is a kept one. */
  lemma {:induction false} PositionsAreKept(mask: seq<bool>, i: nat)
    requires i <= |mask|
    ensures forall k :: 0 <= k < |PositionsFrom(mask, i)| ==> mask[PositionsFrom(mask, i)[k]]
    decreases |mask| - i
  {
    if i < |mask| {
      PositionsAreKept(mask, i + 1);
      var ps, qs := PositionsFrom(mask, i), PositionsFrom(mask, i + 1);
      if mask[i] {
        assert ps == [i] + qs;
        forall k | 0 < k < |ps| ensures mask[ps[k]] {
          assert ps[k] == qs[k - 1];
        }
      } else {
        assert ps == qs;
      }
    }
  }

  /** Every kept position from `i` on is listed. */
  lemma {:induction false} PositionsAreComplete(mask: seq<bool>, i: nat, r: nat)
    requires i <= r < |mask| && mask[r]
    ensures r in PositionsFrom(mask, i)
    decreases |mask| - i
  {
    var ps := PositionsFrom(mask, i);
    if r == i {
      assert ps[0] == i;
    } else {
      PositionsAreComplete(mask, i + 1, r);
      var qs := PositionsFrom(mask, i + 1);
      assert ps == (if mask[i] then [i] else []) + qs;
    }
  }

  predicate Increasing(ps: seq<nat>)
  {
    forall k, l :: 0 <= k < l < |ps| ==> ps[k] < ps[l]
  }

  lemma IncreasingCons(p: nat, qs: seq<nat>)
    requires Increasing(qs) && forall k :: 0 <= k < |qs| ==> p < qs[k]
    ensures Increasing([p] + qs)
  {
    var ps := [p] + qs;
    forall k, l | 0 <= k < l < |ps| ensures ps[k] < ps[l] {
      assert ps[l] == qs[l - 1];
      if k > 0 {
        assert ps[k] == qs[k - 1];
      }
    }
  }

  /** The positions are listed in increasing order, each once. */
  lemma {:induction false} PositionsIncrease(mask: seq<bool>, i: nat)
    requires i <= |mask|
    ensures Increasing(PositionsFrom(mask, i))
    decreases |mask| - i
  {
    if i < |mask| {
      PositionsIncrease(mask, i + 1);
      var qs := PositionsFrom(mask, i + 1);
      if mask[i] {
        IncreasingCons(i, qs);
      }
    }
  }

  /** The selected rows are, in order, exactly the rows at the kept
      positions. */
  lemma {:induction false} SelectAtPositions<T>(rows: seq<T>, mask: seq<bool>, i: nat)
    requires |mask| == |rows| && i <= |rows|
    ensures |PositionsFrom(mask, i)| == Count(mask[i..])
    ensures forall k :: 0 <= k < Count(mask[i..]) ==>
      Select(rows[i..], mask[i..])[k] == rows[PositionsFrom(mask, i)[k]]
    decreases |rows| - i
  {
    if i < |rows| {
      SelectAtPositions(rows, mask, i + 1);
      SelectUnfold(rows, mask, i);
      var here, later := Select(rows[i..], mask[i..]), Select(rows[i + 1..], mask[i + 1..]);
      var ps, qs := PositionsFrom(mask, i), PositionsFrom(mask, i + 1);
      var h: seq<T> := if mask[i] then [rows[i]] else [];
      assert here == h + later;
      assert ps == (if mask[i] then [i] else []) + qs;
      forall k | 0 <= k < |here| ensures here[k] == rows[ps[k]] {
        if mask[i] && k > 0 {
          assert here[k] == later[k - 1] && ps[k] == qs[k - 1];
        }
      }
    }
  }

  lemma SelectUnfold<T>(rows: seq<T>, mask: seq<bool>, i: nat)
    requires |mask| == |rows| && i < |rows|
    ensures Select(rows[i..], mask[i..]) ==
      (if mask[i] then [rows[i]] else []) + Select(rows[i + 1..], mask[i + 1..])
    ensures Count(mask[i..]) == (if mask[i] then 1 else 0) + Count(mask[i + 1..])
  {
    assert rows[i..][1..] == rows[i + 1..] && mask[i..][1..] == mask[i + 1..];
  }

  lemma {:induction false} SelectAll<T>(rows: seq<T>, mask: seq<bool>)
    requires |mask| == |rows| && forall r :: 0 <= r < |mask| ==> mask[r]
    ensures Select(rows, mask) == rows
  {
    if rows != [] {
      SelectAll(rows[1..], mask[1..]);
      assert rows == [rows[0]] + rows[1..];
    }
  }

  /** Filtering by `a` and then by the part of `b` that survived `a` keeps the
      same rows as filtering the other way round: the rows kept by both. */
  lemma {:induction false} SelectCommute<T>(rows: seq<T>, a: seq<bool>, b: seq<bool>)
    requires |a| == |rows| && |b| == |rows|
    ensures Select(Select(rows, a), Select(b, a)) == Select(Select(rows, b), Select(a, b))
  {
    if rows != [] {
      SelectCommute(rows[1..], a[1..], b[1..]);
      var ra, rb := Select(rows[1..], a[1..]), Select(rows[1..], b[1..]);
      var ba, ab := Select(b[1..], a[1..]), Select(a[1..], b[1..]);
      if a[0] {
        assert Select(rows, a) == [rows[0]] + ra && Select(b, a) == [b[0]] + ba;
        assert Select(Select(rows, a), Select(b, a)) == (if b[0] then [rows[0]] else []) + Select(ra, ba) by {
          assert ([rows[0]] + ra)[1..] == ra && ([b[0]] + ba)[1..] == ba;
        }
      } else {
        assert Select(rows, a) == ra && Select(b, a) == ba;
      }
      if b[0] {
        assert Select(rows, b) == [rows[0]] + rb && Select(a, b) == [a[0]] + ab;
        assert Select(Select(rows, b), Select(a, b)) == (if a[0] then [rows[0]] else []) + Select(rb, ab) by {
          assert ([rows[0]] + rb)[1..] == rb && ([a[0]] + ab)[1..] == ab;
        }
      } else {
        assert Select(rows, b) == rb && Select(a, b) == ab;
      }
    }
  }

  /** Both ways of filtering keep the same number of rows. */
  lemma CountSelectSymmetric(a: seq<bool>, b: seq<bool>)
    requires |a| == |b|
    ensures Count(Select(a, b)) == Count(Select(b, a))
  {
    var n := |a|;
    var ones := seq(n, r => true);
    SelectCommute(ones, a, b);
    assert |Select(Select(ones, b), Select(a, b))| == Count(Select(a, b));
  }

  // ---------------------------------------------------------------------------
  // The row mask of one cut round

  /** One evaluated output column of a cut round, under its output name. */
  datatype Output = Output(name: string, column: seq<bool>)

  /** An output whose name contains `marker` is a classifier and never
      removes rows; every other output is a cut. */
  predicate IsCut(name: string, marker: string)
  {
    !Contains(name, marker)
  }

  /** Row `r` is true in every cut output. */
  predicate Passes(outs: seq<Output>, marker: string, r: nat)
  {
    forall k :: 0 <= k < |outs| && IsCut(outs[k].name, marker) ==> r < |outs[k].column| && outs[k].column[r]
  }

  /** Every output has one entry per row. */
  predicate Columns(outs: seq<Output>, n: nat)
  {
    forall k :: 0 <= k < |outs| ==> |outs[k].column| == n
  }

  /** The mask of a round over `n` rows. */
  function RoundMask(outs: seq<Output>, marker: string, n: nat): (mask: seq<bool>)
    ensures |mask| == n
  {
    seq(n, r requires 0 <= r < n => Passes(outs, marker, r))
  }

  /** `ct_mask`: all true, then AND-ed with every cut output in turn. */
  method CutMask(n: nat, outs: seq<Output>, marker: string) returns (mask: seq<bool>)
    requires Columns(outs, n)
    ensures |mask| == n
    ensures forall r :: 0 <= r < n ==> (mask[r] <==> Passes(outs, marker, r))
    ensures mask == RoundMask(outs, marker, n)
  {
    mask := seq(n, r => true);
    for k := 0 to |outs|
      invariant |mask| == n
      invariant forall r :: 0 <= r < n ==> (mask[r] <==> Passes(outs[..k], marker, r))
    {
      if IsCut(outs[k].name, marker) {
        mask := seq(n, r requires 0 <= r < n => mask[r] && outs[k].column[r]);
      }
      forall r | 0 <= r < n
        ensures mask[r] <==> Passes(outs[..k + 1], marker, r)
      {
        PassesExtend(outs, marker, r, k);
      }
    }
    assert outs[..|outs|] == outs;
  }

  lemma PassesExtend(outs: seq<Output>, marker: string, r: nat, k: nat)
    requires k < |outs|
    ensures Passes(outs[..k + 1], marker, r) <==>
      Passes(outs[..k], marker, r) && (IsCut(outs[k].name, marker) ==> r < |outs[k].column| && outs[k].column[r])
  {
    var p, q := outs[..k], outs[..k + 1];
    assert forall j :: 0 <= j < k ==> q[j] == p[j];
    assert q[k] == outs[k];
  }

  /** Classifier outputs never remove a row: a round whose outputs are all
      classifiers keeps every row. */
  lemma OnlyClassifiersKeepAll(outs: seq<Output>, marker: string, n: nat)
    requires forall k :: 0 <= k < |outs| ==> !IsCut(outs[k].name, marker)
    ensures forall r :: 0 <= r < n ==> RoundMask(outs, marker, n)[r]
  {
  }

  /** The initial calibration cuts treat as classifiers all outputs whose
      name contains `classifier`, which includes every name containing
      `_classifier`: a row the `_classifier` rule keeps is also kept there. */
  lemma ClassifierMarkers(outs: seq<Output>, n: nat, r: nat)
    requires r < n
    ensures RoundMask(outs, "_classifier", n)[r] ==> RoundMask(outs, "classifier", n)[r]
  {
    forall k | 0 <= k < |outs| && IsCut(outs[k].name, "classifier")
      ensures IsCut(outs[k].name, "_classifier")
    {
      if !IsCut(outs[k].name, "_classifier") {
        UnderscoreClassifier(outs[k].name);
      }
    }
  }

  lemma UnderscoreClassifier(name: string)
    requires Contains(name, "_classifier")
    ensures Contains(name, "classifier")
  {
    var i :| 0 <= i <= |name| - |"_classifier"| && OccursAt(name, "_classifier", i);
    assert "_classifier"[1..] == "classifier";
    assert name[i + 1..i + 11] == name[i..i + 11][1..];
    assert OccursAt(name, "classifier", i + 1);
  }

  // ---------------------------------------------------------------------------
  // Evaluating a generated cut dictionary

  /** An entry of a cut dictionary from the cut generator: the output name,
      its expression, its parameter names in dictionary order, and the value
      the entry is saved as. */
  datatype Cut = Cut(name: string, expression: string, parameters: seq<Name>, saved: Json)

  /** Pandas' `eval` of a rewritten expression over the current rows, with the
      cut's parameter values bound. */
  type Evaluator<!T> = (seq<T>, string, Cut) -> seq<bool>

  /** The evaluator yields one entry per row. */
  ghost predicate ColumnPerRow<T(!new)>(eval: Evaluator<T>)
  {
    forall rows, exp, cut :: |eval(rows, exp, cut)| == |rows|
  }

  /** The output columns of a cut dictionary, in dictionary order. */
  function Outputs<T>(rows: seq<T>, cuts: seq<Cut>, eval: Evaluator<T>): seq<Output>
  {
    if cuts == [] then []
    else
      var last := cuts[|cuts| - 1];
      Outputs(rows, cuts[..|cuts| - 1], eval)
        + [Output(last.name, eval(rows, MarkAll(last.expression, last.parameters), last))]
  }

  lemma {:induction false} OutputsColumns<T(!new)>(rows: seq<T>, cuts: seq<Cut>, eval: Evaluator<T>)
    requires ColumnPerRow(eval)
    ensures |Outputs(rows, cuts, eval)| == |cuts|
    ensures Columns(Outputs(rows, cuts, eval), |rows|)
  {
    if cuts != [] {
      OutputsColumns(rows, cuts[..|cuts| - 1], eval);
    }
  }

  /** The loop over the cut dictionary: rewrite each expression, evaluate
      it. */
  method Evaluate<T>(rows: seq<T>, cuts: seq<Cut>, eval: Evaluator<T>) returns (outs: seq<Output>)
    ensures outs == Outputs(rows, cuts, eval)
  {
    outs := [];
    for k := 0 to |cuts|
      invariant outs == Outputs(rows, cuts[..k], eval)
    {
      assert cuts[..k + 1][..k] == cuts[..k];
      var exp := RewriteExpression(cuts[k].expression, cuts[k].parameters);
      outs := outs + [Output(cuts[k].name, eval(rows, exp, cuts[k]))];
    }
    assert cuts[..|cuts|] == cuts;
  }

  /** One cut round (`cut_data = cut_data[ct_mask]`): the rows left are those
      true in every output whose name lacks `marker`. */
  method ApplyCuts<T(!new)>(rows: seq<T>, cuts: seq<Cut>, eval: Evaluator<T>, marker: string) returns (kept: seq<T>)
    requires ColumnPerRow(eval)
    ensures kept == Select(rows, RoundMask(Outputs(rows, cuts, eval), marker, |rows|))
  {
    var outs := Evaluate(rows, cuts, eval);
    OutputsColumns(rows, cuts, eval);
    var mask := CutMask(|rows|, outs, marker);
    kept := Select(rows, mask);
  }

  // ---------------------------------------------------------------------------
  // The fft cut rounds and their dictionaries

  /** `dict(cut_dict)`: a later entry under the same name wins. */
  function Saved(cuts: seq<Cut>): map<string, Json>
  {
    if cuts == [] then map[]
    else Saved(cuts[..|cuts| - 1])[cuts[|cuts| - 1].name := cuts[|cuts| - 1].saved]
  }

  /** `d = {}; d.update(m0); d.update(m1); ...`. */
  function Union<V>(dicts: seq<map<string, V>>): map<string, V>
  {
    if dicts == [] then map[] else Union(dicts[..|dicts| - 1]) + dicts[|dicts| - 1]
  }

  /** A name is in the accumulated dictionary exactly when some round produced
      it, and its value is the one from the last round that did. */
  lemma {:induction false} UnionLaterWins<V>(dicts: seq<map<string, V>>, j: nat, key: string)
    requires j < |dicts| && key in dicts[j]
    requires forall l :: j < l < |dicts| ==> key !in dicts[l]
    ensures key in Union(dicts) && Union(dicts)[key] == dicts[j][key]
  {
    var n := |dicts| - 1;
    if j < n {
      assert dicts[..n][j] == dicts[j];
      UnionLaterWins(dicts[..n], j, key);
    }
  }

  lemma {:induction false} UnionKeys<V>(dicts: seq<map<string, V>>, key: string)
    ensures key in Union(dicts) <==> exists j :: 0 <= j < |dicts| && key in dicts[j]
  {
    if dicts != [] {
      var n := |dicts| - 1;
      UnionKeys(dicts[..n], key);
      if key in Union(dicts[..n]) {
        var j :| 0 <= j < n && key in dicts[..n][j];
        assert key in dicts[j];
      }
      if exists j :: 0 <= j < |dicts| && key in dicts[j] {
        var j :| 0 <= j < |dicts| && key in dicts[j];
        if j < n {
          assert key in dicts[..n][j];
        }
      }
    }
  }

  /** The cut generator: `generate_cut_classifiers(rows, {name: cut})`. Its
      cuts stand for the entries of the dictionary it returns, in order, so
      their names are taken to be distinct; the type does not enforce it. */
  type Generator<!T> = (seq<T>, string) -> seq<Cut>

  /** What the rounds have produced so far: each round's cut dictionary and
      the rows left. */
  datatype Progress<T> = Progress(dicts: seq<map<string, Json>>, rows: seq<T>)

  /** The rounds over the cut-parameter names, in order: each round generates
      its cuts on the rows the previous rounds left, then keeps the rows true
      in every output without `_classifier` in its name. */
  function Rounds<T(!new)>(rows: seq<T>, names: seq<string>, generate: Generator<T>, eval: Evaluator<T>): (p: Progress<T>)
    requires ColumnPerRow(eval)
    ensures |p.dicts| == |names|
  {
    if names == [] then Progress([], rows)
    else
      var before := Rounds(rows, names[..|names| - 1], generate, eval);
      var cuts := generate(before.rows, names[|names| - 1]);
      var outs := Outputs(before.rows, cuts, eval);
      Progress(before.dicts + [Saved(cuts)], Select(before.rows, RoundMask(outs, "_classifier", |before.rows|)))
  }

  /** The rounds only ever remove rows: what is left is a selection of the
      input rows. */
  lemma {:induction false} RoundsOnlyRemove<T(!new)>(rows: seq<T>, names: seq<string>, generate: Generator<T>, eval: Evaluator<T>)
    requires ColumnPerRow(eval)
    ensures var left := Rounds(rows, names, generate, eval).rows;
      |left| <= |rows| && forall x :: x in left ==> x in rows
  {
    if names != [] {
      var before := Rounds(rows, names[..|names| - 1], generate, eval);
      RoundsOnlyRemove(rows, names[..|names| - 1], generate, eval);
      var cuts := generate(before.rows, names[|names| - 1]);
      SelectSubset(before.rows, RoundMask(Outputs(before.rows, cuts, eval), "_classifier", |before.rows|));
    }
  }

  /** The fft cut loop: `hit_dict.update(cut_dict)` and a cut round per
      cut-parameter name. */
  method FftRounds<T(!new)>(rows: seq<T>, names: seq<string>, generate: Generator<T>, eval: Evaluator<T>)
    returns (hit: map<string, Json>, kept: seq<T>)
    requires ColumnPerRow(eval)
    ensures hit == Union(Rounds(rows, names, generate, eval).dicts)
    ensures kept == Rounds(rows, names, generate, eval).rows
  {
    hit, kept := map[], rows;
    for i := 0 to |names|
      invariant hit == Union(Rounds(rows, names[..i], generate, eval).dicts)
      invariant kept == Rounds(rows, names[..i], generate, eval).rows
    {
      assert names[..i + 1][..i] == names[..i];
      ghost var before := Rounds(rows, names[..i], generate, eval);
      var cuts := generate(kept, names[i]);
      hit := hit + Saved(cuts);
      kept := ApplyCuts(kept, cuts, eval, "_classifier");
      assert (before.dicts + [Saved(cuts)])[..i] == before.dicts;
    }
    assert names[..|names|] == names;
  }

  // ---------------------------------------------------------------------------
  // The saved structure

  /** `{"pars": {"operations": hit_dict}}`. */
  function SavedPars(hit: map<string, Json>): Json
  {
    JObject(map["pars" := JObject(map["operations" := JObject(hit)])])
  }
}
