/** Shared building blocks: failure-compatible wrappers, ASCII character
    classes, substring search, Python's zero-padded integer formatting and
    the code-point order on strings that Python's `sorted` uses. */
module Common {

  datatype Option<+T> = None | Some(value: T)

  datatype Result<+T, +E> = Ok(value: T) | Err(error: E)

  // ---------------------------------------------------------------------------
  // Characters

  predicate IsDigit(c: char) { '0' <= c <= '9' }

  /** The class `[a-zA-Z0-9]` of Python's `re` module (ASCII only). */
  predicate IsAlnum(c: char) { IsDigit(c) || 'a' <= c <= 'z' || 'A' <= c <= 'Z' }

  /** The elements of a sequence, as a set. */
  function Elems<T>(s: seq<T>): set<T> { set x | x in s }

  predicate AllDigits(s: string) { forall i :: 0 <= i < |s| ==> IsDigit(s[i]) }

  // ---------------------------------------------------------------------------
  // Substrings: Python's `sub in s`

  predicate OccursAt(s: string, sub: string, i: nat)
  {
    i + |sub| <= |s| && s[i..i + |sub|] == sub
  }

  predicate Contains(s: string, sub: string)
  {
    exists i :: 0 <= i <= |s| - |sub| && OccursAt(s, sub, i)
  }

  // ---------------------------------------------------------------------------
  // Decimal integers: Python's `f"{n:0Wd}"` and its inverse

  function DigitChar(d: nat): (c: char)
    requires d < 10
    ensures IsDigit(c) && c as int - '0' as int == d
  {
    ('0' as int + d) as char
  }

  /** The decimal digits of `n`, without leading zeros ("0" for zero). */
  function Decimal(n: nat): string
    decreases n
  {
    if n < 10 then [DigitChar(n)] else Decimal(n / 10) + [DigitChar(n % 10)]
  }

  /** The value of a string of decimal digits (the empty string is 0). */
  function DigitsValue(s: string): nat
    requires AllDigits(s)
  {
    if s == [] then 0
    else DigitsValue(s[..|s| - 1]) * 10 + (s[|s| - 1] as int - '0' as int)
  }

  function Zeros(k: nat): (z: string)
    ensures |z| == k && forall i :: 0 <= i < k ==> z[i] == '0'
  {
    if k == 0 then [] else Zeros(k - 1) + ['0']
  }

  /** Left-pads `s` with '0' to at least `width` characters. */
  function ZeroPad(s: string, width: int): (r: string)
    ensures |r| == if |s| < width then width else |s|
    ensures r[|r| - |s|..] == s
    ensures forall i :: 0 <= i < |r| - |s| ==> r[i] == '0'
  {
    if |s| < width then Zeros(width - |s|) + s else s
  }

  /** `format(n, "0{width}d")`: the sign counts towards the width. */
  function FormatInt(n: int, width: nat): string
  {
    if n < 0 then "-" + ZeroPad(Decimal(-n), width - 1) else ZeroPad(Decimal(n), width)
  }

  /** Reads back what FormatInt writes: an optional '-' and at least one digit. */
  function ParseInt(s: string): Option<int>
  {
    if |s| > 1 && s[0] == '-' && AllDigits(s[1..]) then Some(0 - DigitsValue(s[1..]) as int)
    else if |s| > 0 && AllDigits(s) then Some(DigitsValue(s))
    else None
  }

  lemma {:induction false} DecimalDigitsValue(n: nat)
    ensures |Decimal(n)| >= 1 && AllDigits(Decimal(n)) && DigitsValue(Decimal(n)) == n
    decreases n
  {
    if n >= 10 {
      DecimalDigitsValue(n / 10);
      var s := Decimal(n);
      assert s[..|s| - 1] == Decimal(n / 10);
    }
  }

  lemma {:induction false} LeadingZerosValue(k: nat, s: string)
    requires AllDigits(s)
    ensures AllDigits(Zeros(k) + s) && DigitsValue(Zeros(k) + s) == DigitsValue(s)
    decreases |s|
  {
    var t := Zeros(k) + s;
    assert AllDigits(t) by {
      forall i | 0 <= i < |t| ensures IsDigit(t[i]) {
        if i < k { assert t[i] == Zeros(k)[i]; } else { assert t[i] == s[i - k]; }
      }
    }
    if s == [] {
      assert t == Zeros(k);
      ZerosValue(k);
    } else {
      LeadingZerosValue(k, s[..|s| - 1]);
      assert t[..|t| - 1] == Zeros(k) + s[..|s| - 1];
    }
  }

  lemma {:induction false} ZerosValue(k: nat)
    ensures AllDigits(Zeros(k)) && DigitsValue(Zeros(k)) == 0
  {
    if k > 0 {
      ZerosValue(k - 1);
      assert Zeros(k)[..k - 1] == Zeros(k - 1);
    }
  }

  /** Zero padding never loses information: padded digits read back as the
      same number, whatever the width. */
  lemma ZeroPadValue(n: nat, width: int)
    ensures AllDigits(ZeroPad(Decimal(n), width)) && |ZeroPad(Decimal(n), width)| >= 1
    ensures DigitsValue(ZeroPad(Decimal(n), width)) == n
  {
    var d := Decimal(n);
    DecimalDigitsValue(n);
    if |d| < width { LeadingZerosValue(width - |d|, d); }
  }

  /** FormatInt is undone by ParseInt, so it is injective: no width truncates. */
  lemma FormatIntRoundTrip(n: int, width: nat)
    ensures ParseInt(FormatInt(n, width)) == Some(n)
  {
    if n < 0 { NegativeRoundTrip(n, width); } else { NonNegativeRoundTrip(n, width); }
  }

  lemma NegativeRoundTrip(n: int, width: nat)
    requires n < 0
    ensures ParseInt(FormatInt(n, width)) == Some(n)
  {
    var m: nat := -n;
    var p := ZeroPad(Decimal(m), width - 1);
    ZeroPadValue(m, width - 1);
    assert FormatInt(n, width) == "-" + p;
    var s := "-" + p;
    assert s[1..] == p;
    assert DigitsValue(p) == m;
  }

  lemma NonNegativeRoundTrip(n: nat, width: nat)
    ensures ParseInt(FormatInt(n, width)) == Some(n)
  {
    var s := ZeroPad(Decimal(n), width);
    ZeroPadValue(n, width);
    assert IsDigit(s[0]) && s[0] != '-';
    assert ParseInt(s) == Some(DigitsValue(s) as int);
  }

  lemma FormatIntInjective(m: int, n: int, width: nat)
    requires FormatInt(m, width) == FormatInt(n, width)
    ensures m == n
  {
    FormatIntRoundTrip(m, width);
    FormatIntRoundTrip(n, width);
  }

  /** For a non-negative number the text is all digits and at least `width` long. */
  lemma FormatIntShape(n: nat, width: nat)
    ensures AllDigits(FormatInt(n, width))
    ensures |FormatInt(n, width)| == if |Decimal(n)| < width then width else |Decimal(n)|
  {
    ZeroPadValue(n, width);
  }

  // ---------------------------------------------------------------------------
  // Python's string order (code point by code point; a proper prefix is smaller)

  predicate Below(a: string, b: string)
    decreases |a|
  {
    if |a| == 0 then |b| > 0
    else if |b| == 0 then false
    else if a[0] != b[0] then a[0] < b[0]
    else Below(a[1..], b[1..])
  }

  lemma {:induction false} BelowIrreflexive(a: string)
    ensures !Below(a, a)
    decreases |a|
  {
    if |a| > 0 { BelowIrreflexive(a[1..]); }
  }

  lemma {:induction false} BelowTransitive(a: string, b: string, c: string)
    requires Below(a, b) && Below(b, c)
    ensures Below(a, c)
    decreases |a|
  {
    if |a| > 0 && |b| > 0 && |c| > 0 && a[0] == b[0] == c[0] {
      BelowTransitive(a[1..], b[1..], c[1..]);
    }
  }

  lemma {:induction false} BelowTotal(a: string, b: string)
    ensures a == b || Below(a, b) || Below(b, a)
    decreases |a|
  {
    if |a| > 0 && |b| > 0 && a[0] == b[0] {
      BelowTotal(a[1..], b[1..]);
      if a[1..] == b[1..] { assert a == [a[0]] + a[1..] && b == [b[0]] + b[1..]; }
    }
  }

  lemma {:induction false} BelowAsymmetric(a: string, b: string)
    requires Below(a, b)
    ensures !Below(b, a)
  {
    if Below(b, a) {
      BelowTransitive(a, b, a);
      BelowIrreflexive(a);
    }
  }

  /** `!Below(b, a)` is `a <= b`. */
  predicate AtMost(a: string, b: string) { !Below(b, a) }

  predicate Sorted(s: seq<string>)
  {
    forall i, j :: 0 <= i < j < |s| ==> AtMost(s[i], s[j])
  }

  predicate StrictlySorted(s: seq<string>)
  {
    forall i, j :: 0 <= i < j < |s| ==> Below(s[i], s[j])
  }

  lemma ConsSorted(x: string, s: seq<string>)
    requires Sorted(s)
    requires forall k :: 0 <= k < |s| ==> AtMost(x, s[k])
    ensures Sorted([x] + s)
  {
    var r := [x] + s;
    forall i, j | 0 <= i < j < |r| ensures AtMost(r[i], r[j]) {
      if i == 0 { assert r[j] == s[j - 1]; } else { assert r[i] == s[i - 1] && r[j] == s[j - 1]; }
    }
  }

  lemma ConsStrictlySorted(x: string, s: seq<string>)
    requires StrictlySorted(s)
    requires forall k :: 0 <= k < |s| ==> Below(x, s[k])
    ensures StrictlySorted([x] + s)
  {
    var r := [x] + s;
    forall i, j | 0 <= i < j < |r| ensures Below(r[i], r[j]) {
      if i == 0 { assert r[j] == s[j - 1]; } else { assert r[i] == s[i - 1] && r[j] == s[j - 1]; }
    }
  }

  function Insert(x: string, s: seq<string>): (r: seq<string>)
    requires Sorted(s)
    ensures Sorted(r) && multiset(r) == multiset(s) + multiset{x}
  {
    if s == [] then [x]
    else if AtMost(x, s[0]) then
      assert forall k :: 0 <= k < |s| ==> AtMost(x, s[k]) by {
        forall k | 0 <= k < |s| ensures AtMost(x, s[k]) {
          if k > 0 { AtMostTransitive(x, s[0], s[k]); }
        }
      }
      ConsSorted(x, s);
      [x] + s
    else
      var rest := Insert(x, s[1..]);
      assert s == [s[0]] + s[1..];
      assert forall k :: 0 <= k < |rest| ==> AtMost(s[0], rest[k]) by {
        BelowTotal(x, s[0]);
        BelowAsymmetric(s[0], x);
        forall k | 0 <= k < |rest| ensures AtMost(s[0], rest[k]) {
          var y := rest[k];
          assert y in multiset(rest);
          assert y in multiset(s[1..]) || y == x;
          if y != x {
            assert y in s[1..];
            var j :| 0 <= j < |s[1..]| && s[1..][j] == y;
            assert s[j + 1] == y;
          }
        }
      }
      ConsSorted(s[0], rest);
      [s[0]] + rest
  }

  lemma AtMostTransitive(a: string, b: string, c: string)
    requires AtMost(a, b) && AtMost(b, c)
    ensures AtMost(a, c)
  {
    BelowTotal(a, b);
    BelowTotal(b, c);
    if Below(a, b) && Below(b, c) { BelowTransitive(a, b, c); BelowAsymmetric(a, c); }
    else if Below(a, b) { BelowAsymmetric(a, b); }
    else if Below(b, c) { BelowAsymmetric(b, c); }
    else { BelowIrreflexive(a); }
  }

  /** Python's `sorted` on a list of strings. */
  function Sort(s: seq<string>): (r: seq<string>)
    ensures Sorted(r) && multiset(r) == multiset(s)
  {
    if s == [] then []
    else
      assert s == [s[0]] + s[1..];
      Insert(s[0], Sort(s[1..]))
  }

  lemma ElemsCons<T>(s: seq<T>)
    requires |s| > 0
    ensures Elems(s) == {s[0]} + Elems(s[1..])
  {
    assert s == [s[0]] + s[1..];
  }

  /** Drops adjacent repetitions. */
  function Dedup(s: seq<string>): (r: seq<string>)
    ensures Elems(r) == Elems(s)
    ensures Sorted(s) ==> StrictlySorted(r)
    ensures |s| > 0 ==> |r| > 0 && r[0] == s[0]
  {
    if |s| <= 1 then s
    else if s[0] == s[1] then
      ElemsCons(s);
      Dedup(s[1..])
    else
      var rest := Dedup(s[1..]);
      ElemsCons(s);
      assert Elems([s[0]] + rest) == {s[0]} + Elems(rest);
      assert s == [s[0]] + s[1..];
      if Sorted(s) then
        assert Sorted(s[1..]);
        BelowTotal(s[0], s[1]);
        assert Below(s[0], s[1]);
        assert forall k :: 0 <= k < |rest| ==> Below(s[0], rest[k]) by {
          forall k | 0 <= k < |rest| ensures Below(s[0], rest[k]) {
            assert rest[k] in Elems(s[1..]);
            var m :| 0 <= m < |s[1..]| && s[1..][m] == rest[k];
            if m > 0 {
              assert AtMost(s[1], s[m + 1]);
              BelowTotal(s[1], s[m + 1]);
              if Below(s[1], s[m + 1]) { BelowTransitive(s[0], s[1], s[m + 1]); }
            }
          }
        }
        ConsStrictlySorted(s[0], rest);
        [s[0]] + rest
      else
        [s[0]] + rest
  }

  /** `sorted(np.unique(xs))`: the distinct strings of `xs` in increasing order. */
  function SortedUnique(s: seq<string>): (r: seq<string>)
    ensures StrictlySorted(r)
    ensures Elems(r) == Elems(s)
  {
    var sorted := Sort(s);
    assert Elems(sorted) == Elems(s) by {
      forall x ensures x in sorted <==> x in s {
        assert x in sorted <==> x in multiset(sorted);
        assert x in s <==> x in multiset(s);
      }
    }
    Dedup(sorted)
  }

  /** The order on strings is total, so a strictly sorted list is determined by
      its set of elements: SortedUnique is the only answer with its contract. */
  lemma {:induction false} StrictlySortedUnique(a: seq<string>, b: seq<string>)
    requires StrictlySorted(a) && StrictlySorted(b)
    requires Elems(a) == Elems(b)
    ensures a == b
    decreases |a|
  {
    if a != [] { assert a[0] in Elems(a); }
    if b != [] { assert b[0] in Elems(b); }
    if a != [] && b != [] {
      if a[0] != b[0] {
        assert b[0] in Elems(a);
        assert a[0] in Elems(b);
        var i :| 0 <= i < |a| && a[i] == b[0];
        var j :| 0 <= j < |b| && b[j] == a[0];
        assert i > 0 && j > 0;
        assert Below(a[0], b[0]) && Below(b[0], a[0]);
        BelowAsymmetric(a[0], b[0]);
      }
      assert Elems(a[1..]) == Elems(b[1..]) by {
        forall x ensures x in a[1..] <==> x in b[1..] {
          if x in a[1..] {
            var i :| 1 <= i < |a| && a[i] == x;
            assert Below(a[0], x);
            if x == a[0] { BelowIrreflexive(x); }
            assert x in Elems(a);
            assert x in b;
            var j :| 0 <= j < |b| && b[j] == x;
            assert j != 0;
          }
          if x in b[1..] {
            var j :| 1 <= j < |b| && b[j] == x;
            assert Below(b[0], x);
            if x == b[0] { BelowIrreflexive(x); }
            assert x in Elems(b);
            assert x in a;
            var i :| 0 <= i < |a| && a[i] == x;
            assert i != 0;
          }
        }
      }
      StrictlySortedUnique(a[1..], b[1..]);
      assert a == [a[0]] + a[1..] && b == [b[0]] + b[1..];
    }
  }

  /** Sorting a second time changes nothing (`sorted(np.unique(xs))`). */
  lemma SortedUniqueIdempotent(s: seq<string>)
    ensures SortedUnique(SortedUnique(s)) == SortedUnique(s)
  {
    StrictlySortedUnique(SortedUnique(SortedUnique(s)), SortedUnique(s));
  }

  /** Two sorted lists holding the same elements the same number of times are
      equal: `sorted` has a single possible answer. */
  lemma {:induction false} SortedPermutationUnique(a: seq<string>, b: seq<string>)
    requires Sorted(a) && Sorted(b)
    requires multiset(a) == multiset(b)
    ensures a == b
    decreases |a|
  {
    assert |a| == |multiset(a)| == |multiset(b)| == |b|;
    if a != [] {
      SortedHeads(a, b);
      assert a == [a[0]] + a[1..] && b == [b[0]] + b[1..];
      assert multiset(a[1..]) == multiset(a) - multiset{a[0]};
      assert multiset(b[1..]) == multiset(b) - multiset{b[0]};
      SortedPermutationUnique(a[1..], b[1..]);
    }
  }

  lemma SortedHeads(a: seq<string>, b: seq<string>)
    requires Sorted(a) && Sorted(b) && |a| > 0 && |b| > 0
    requires multiset(a) == multiset(b)
    ensures a[0] == b[0]
  {
    assert a[0] in multiset(b) && b[0] in multiset(a);
    var j :| 0 <= j < |b| && b[j] == a[0];
    var i :| 0 <= i < |a| && a[i] == b[0];
    assert AtMost(b[0], a[0]) by {
      if j > 0 { assert AtMost(b[0], b[j]); } else { BelowIrreflexive(a[0]); }
    }
    assert AtMost(a[0], b[0]) by {
      if i > 0 { assert AtMost(a[0], a[i]); } else { BelowIrreflexive(b[0]); }
    }
    BelowTotal(a[0], b[0]);
  }

  lemma UpdateKeys<K, V>(m: map<K, V>, k: K, v: V)
    requires k in m
    ensures m[k := v].Keys == m.Keys
  {
  }

  lemma AppendAssoc<T>(a: seq<T>, b: seq<T>, c: seq<T>)
    ensures (a + b) + c == a + (b + c)
  {
  }

  lemma SplitAt<T>(a: seq<T>, b: seq<T>, whole: seq<T>)
    requires a + b == whole
    ensures whole[..|a|] == a && whole[|a|..] == b
  {
  }
}
