/** The handful of Python string operations the core relies on, restricted to
    ASCII text: `str.isdigit`, `int`, `str`, `str.lower`, `sub in s`,
    `str.split(sep, maxsplit)` and `re.split(" +", s)`. */
module Text {
  import opened Common

  predicate IsDigit(c: char) { '0' <= c <= '9' }

  predicate AllDigits(s: string) { forall i :: 0 <= i < |s| ==> IsDigit(s[i]) }

  /** `s.isdigit()`: non-empty and made of digits only. */
  predicate IsDigits(s: string) { |s| > 0 && AllDigits(s) }

  function DigitValue(c: char): (d: nat)
    requires IsDigit(c)
    ensures d < 10
  {
    (c as int) - ('0' as int)
  }

  function DigitChar(d: nat): (c: char)
    requires d < 10
    ensures IsDigit(c) && DigitValue(c) == d
  {
    (('0' as int) + d) as char
  }

  /** The number a string of decimal digits denotes (`int(s)` after `s.isdigit()`). */
  function DecimalValue(s: string): nat
    requires AllDigits(s)
  {
    if |s| == 0 then 0 else 10 * DecimalValue(s[..|s| - 1]) + DigitValue(s[|s| - 1])
  }

  /** `str(n)` for a natural number: decimal, no leading zeros. */
  function NatToString(n: nat): (s: string)
    ensures IsDigits(s)
  {
    if n < 10 then [DigitChar(n)] else NatToString(n / 10) + [DigitChar(n % 10)]
  }

  lemma {:induction false} NatToStringValue(n: nat)
    ensures DecimalValue(NatToString(n)) == n
  {
    if n >= 10 {
      var s := NatToString(n);
      assert s[..|s| - 1] == NatToString(n / 10);
      NatToStringValue(n / 10);
    }
  }

  /** `str(i)` for an int. */
  function IntToString(i: int): (s: string)
    ensures |s| > 0 && ' ' !in s && ':' !in s && ',' !in s
  {
    if i < 0 then "-" + NatToString(-i) else NatToString(i)
  }

  /** `int(s)` for an optionally signed run of ASCII digits; None where
      Python raises ValueError. */
  function ParseInt(s: string): Option<int>
  {
    if |s| > 0 && (s[0] == '-' || s[0] == '+') then
      if IsDigits(s[1..]) then
        var v: int := DecimalValue(s[1..]);
        Some(if s[0] == '-' then -v else v)
      else None
    else if IsDigits(s) then Some(DecimalValue(s))
    else None
  }

  /** `int(str(i)) == i`. */
  lemma IntToStringRoundTrip(i: int)
    ensures ParseInt(IntToString(i)) == Some(i)
  {
    var s := IntToString(i);
    if i < 0 {
      assert s[1..] == NatToString(-i);
      NatToStringValue(-i);
    } else {
      NatToStringValue(i);
    }
  }

  /** Index of the first `c` in `s`, or `|s|` if there is none. */
  function IndexOf(s: string, c: char): (i: nat)
    ensures i <= |s|
    ensures i < |s| ==> s[i] == c
    ensures c !in s[..i]
  {
    if |s| == 0 || s[0] == c then 0
    else
      var j := IndexOf(s[1..], c);
      assert s[..1 + j] == [s[0]] + s[1..][..j];
      1 + j
  }

  lemma IndexOfIsFirst(s: string, c: char, k: nat)
    requires k <= |s| && (k < |s| ==> s[k] == c) && c !in s[..k]
    ensures IndexOf(s, c) == k
  {
  }

  /** Index of the last `c` in `s`, if there is one. */
  function LastIndexOf(s: string, c: char): (i: Option<nat>)
    ensures i.Some? ==> i.value < |s| && s[i.value] == c && c !in s[i.value + 1..]
    ensures i.None? ==> c !in s
  {
    if |s| == 0 then None
    else if s[|s| - 1] == c then Some(|s| - 1)
    else
      var j := LastIndexOf(s[..|s| - 1], c);
      assert s == s[..|s| - 1] + [s[|s| - 1]];
      if j.Some? then
        assert s[j.value + 1..] == s[..|s| - 1][j.value + 1..] + [s[|s| - 1]];
        j
      else j
  }

  /** The separator in front of a tail free of it is the last one. */
  lemma LastIndexOfIs(a: string, c: char, b: string)
    requires c !in b
    ensures LastIndexOf(a + [c] + b, c) == Some(|a|)
  {
    var s := a + [c] + b;
    assert s[|a|] == c;
    assert s[|a| + 1..] == b;

  }

  /** Number of spaces `s` starts with. */
  function LeadingSpaces(s: string): (n: nat)
    ensures n <= |s|
    ensures forall k :: 0 <= k < n ==> s[k] == ' '
    ensures n < |s| ==> s[n] != ' '
  {
    if |s| == 0 || s[0] != ' ' then 0 else 1 + LeadingSpaces(s[1..])
  }

  /** `re.split(" +", s)`: the pieces between maximal runs of spaces; a
      leading or a trailing run gives an empty first or last piece. */
  function SpaceSplit(s: string): (cols: seq<string>)
    ensures |cols| >= 1
    decreases |s|
  {
    var i := IndexOf(s, ' ');
    if i == |s| then [s]
    else
      var n := LeadingSpaces(s[i..]);
      assert n >= 1;
      [s[..i]] + SpaceSplit(s[i + n..])
  }

  function Spaces(n: nat): (s: string)
    ensures |s| == n && forall k :: 0 <= k < n ==> s[k] == ' '
  {
    seq(n, _ => ' ')
  }

  /** Columns laid out as text, separated by runs of `gaps[i]` spaces. */
  function Join(cols: seq<string>, gaps: seq<nat>): string
    requires |cols| == |gaps| + 1
    decreases |gaps|
  {
    if |gaps| == 0 then cols[0] else cols[0] + Spaces(gaps[0]) + Join(cols[1..], gaps[1..])
  }

  /** Columns that `re.split(" +", ...)` gives back from their layout: none
      holds a space, only the first and the last may be empty, and every gap
      is at least one space wide. */
  predicate Separable(cols: seq<string>, gaps: seq<nat>)
  {
    && |cols| == |gaps| + 1
    && (forall i :: 0 <= i < |cols| ==> ' ' !in cols[i])
    && (forall i :: 0 < i < |cols| - 1 ==> cols[i] != "")
    && (forall i :: 0 <= i < |gaps| ==> gaps[i] > 0)
  }

  lemma LeadingSpacesOf(g: nat, rest: string)
    requires rest == "" || rest[0] != ' '
    ensures LeadingSpaces(Spaces(g) + rest) == g
  {
    var s := Spaces(g) + rest;
    assert forall k :: 0 <= k < g ==> s[k] == ' ';
    assert g < |s| ==> s[g] == rest[0];
  }

  /** The layout of the columns after the first starts with a non-space. */
  lemma JoinTailStart(cols: seq<string>, gaps: seq<nat>)
    requires Separable(cols, gaps) && |gaps| > 0
    ensures Separable(cols[1..], gaps[1..])
    ensures var rest := Join(cols[1..], gaps[1..]); rest == "" || rest[0] != ' '
  {
    assert forall i :: 0 <= i < |cols| - 1 ==> cols[1..][i] == cols[i + 1];
    if |gaps| > 1 {
      assert cols[1] != "" && ' ' !in cols[1];
      assert Join(cols[1..], gaps[1..])[0] == cols[1][0];
    }
  }

  lemma {:induction false} SpaceSplitJoin(cols: seq<string>, gaps: seq<nat>)
    requires Separable(cols, gaps)
    ensures SpaceSplit(Join(cols, gaps)) == cols
    decreases |gaps|
  {
    var s := Join(cols, gaps);
    if |gaps| == 0 {
      IndexOfIsFirst(s, ' ', |s|);
      assert s[..|s|] == s;
    } else {
      var c0, g := cols[0], gaps[0];
      var rest := Join(cols[1..], gaps[1..]);
      JoinTailStart(cols, gaps);
      assert s == c0 + Spaces(g) + rest;
      assert s[..|c0|] == c0;
      IndexOfIsFirst(s, ' ', |c0|);
      assert s[|c0|..] == Spaces(g) + rest;
      LeadingSpacesOf(g, rest);
      assert s[|c0| + g..] == rest;
      SpaceSplitJoin(cols[1..], gaps[1..]);
      assert cols == [c0] + cols[1..];
    }
  }

  /** `s.split(c, maxsplit)` for a one-character separator. */
  function Split(s: string, c: char, maxsplit: nat): (parts: seq<string>)
    ensures 1 <= |parts| <= maxsplit + 1
    decreases maxsplit
  {
    var i := IndexOf(s, c);
    if maxsplit == 0 || i == |s| then [s] else [s[..i]] + Split(s[i + 1..], c, maxsplit - 1)
  }

  lemma SplitWithout(s: string, c: char, maxsplit: nat)
    requires c !in s
    ensures Split(s, c, maxsplit) == [s]
  {
    IndexOfIsFirst(s, c, |s|);
    assert s[..|s|] == s;
  }

  /** The first `c` of `a + [c] + b` is the one after `a` when `a` has none. */
  lemma FirstSeparator(a: string, c: char, b: string)
    requires c !in a
    ensures var s := a + [c] + b; IndexOf(s, c) == |a| && s[..|a|] == a && s[|a| + 1..] == b
  {
    var s := a + [c] + b;
    assert s[..|a|] == a;
    IndexOfIsFirst(s, c, |a|);
    assert s[|a| + 1..] == b;
  }

  lemma SplitAt(a: string, c: char, b: string, maxsplit: nat)
    requires c !in a && maxsplit > 0
    ensures Split(a + [c] + b, c, maxsplit) == [a] + Split(b, c, maxsplit - 1)
  {
    var s := a + [c] + b;
    assert s[..|a|] == a;
    IndexOfIsFirst(s, c, |a|);
    assert s[|a| + 1..] == b;
  }

  predicate StartsWith(s: string, p: string) { |p| <= |s| && s[..|p|] == p }

  /** `sub in s` for strings. */
  predicate Contains(s: string, sub: string)
    decreases |s|
  {
    StartsWith(s, sub) || (|s| > 0 && Contains(s[1..], sub))
  }

  lemma {:induction false} ContainsInfix(a: string, sub: string, b: string)
    ensures Contains(a + sub + b, sub)
    decreases |a|
  {
    if |a| == 0 {
      assert a + sub + b == sub + b;
      assert (sub + b)[..|sub|] == sub;
    } else {
      assert (a + sub + b)[1..] == a[1..] + sub + b;
      ContainsInfix(a[1..], sub, b);
    }
  }

  lemma {:induction false} MissingLeadNotContained(s: string, sub: string)
    requires |sub| > 0 && sub[0] !in s
    ensures !Contains(s, sub)
    decreases |s|
  {
    if |sub| <= |s| {
      assert s[..|sub|][0] == s[0];
    }
    if |s| > 0 {
      assert forall k :: 0 <= k < |s| - 1 ==> s[1..][k] == s[k + 1];
      MissingLeadNotContained(s[1..], sub);
    }
  }

  function LowerChar(c: char): char
  {
    if 'A' <= c <= 'Z' then ((c as int) + 32) as char else c
  }

  /** `s.lower()` for ASCII letters. */
  function Lower(s: string): (r: string)
    ensures |r| == |s| && forall i :: 0 <= i < |s| ==> r[i] == LowerChar(s[i])
  {
    seq(|s|, i requires 0 <= i < |s| => LowerChar(s[i]))
  }

  /** Lower-casing twice is lower-casing once. */
  lemma LowerIdempotent(s: string)
    ensures Lower(Lower(s)) == Lower(s)
  {
  }

  /** Lower-casing neither adds nor removes spaces. */
  lemma LowerKeepsSpaces(s: string)
    ensures ' ' in Lower(s) <==> ' ' in s
  {
    if ' ' in Lower(s) {
      var i :| 0 <= i < |s| && Lower(s)[i] == ' ';
      assert s[i] == ' ';
    }
    if ' ' in s {
      var i :| 0 <= i < |s| && s[i] == ' ';
      assert Lower(s)[i] == ' ';
    }
  }
}
