/** The JavaScript string operations that the query compiler relies on. */
module Strings {
  import opened Wrappers

  /** `pat` occurs in `s` starting at index `i`. */
  predicate OccursAt(s: string, pat: string, i: int) {
    0 <= i && i + |pat| <= |s| && s[i..i + |pat|] == pat
  }

  /** `s.endsWith(suffix)`, compared from the last character backwards. */
  predicate EndsWith(s: string, suffix: string)
    decreases |suffix|
  {
    if |suffix| == 0 then true
    else |s| > 0 && s[|s| - 1] == suffix[|suffix| - 1] && EndsWith(s[..|s| - 1], suffix[..|suffix| - 1])
  }

  /** `s` ends with `suffix` exactly when its last `|suffix|` characters are `suffix`. */
  lemma {:induction false} EndsWithSlice(s: string, suffix: string)
    ensures EndsWith(s, suffix) <==> |suffix| <= |s| && s[|s| - |suffix|..] == suffix
    decreases |suffix|
  {
    if |suffix| > 0 && |s| > 0 {
      var s', suffix' := s[..|s| - 1], suffix[..|suffix| - 1];
      EndsWithSlice(s', suffix');
      if |suffix| <= |s| {
        assert s[|s| - |suffix|..] == s'[|s'| - |suffix'|..] + [s[|s| - 1]];
        assert suffix == suffix' + [suffix[|suffix| - 1]];
      }
    }
  }

  /** The first index at or after `from` where `pat` occurs in `s`. */
  function IndexFrom(s: string, pat: string, from: nat): (r: Option<nat>)
    ensures r.Some? ==> from <= r.value && OccursAt(s, pat, r.value)
    ensures r.Some? ==> forall j :: from <= j < r.value ==> !OccursAt(s, pat, j)
    ensures r.None? ==> forall j :: from <= j ==> !OccursAt(s, pat, j)
    decreases |s| - from
  {
    if from + |pat| > |s| then None
    else if s[from..from + |pat|] == pat then Some(from)
    else IndexFrom(s, pat, from + 1)
  }

  /** `s.indexOf(pat)`, with `None` for JavaScript's -1: the first occurrence of `pat` in `s`. */
  function IndexOf(s: string, pat: string): (r: Option<nat>)
    ensures r.Some? ==> OccursAt(s, pat, r.value) && forall j :: 0 <= j < r.value ==> !OccursAt(s, pat, j)
    ensures r.None? <==> forall j :: !OccursAt(s, pat, j)
  {
    IndexFrom(s, pat, 0)
  }

  /** `s.replace(pat, '')` with a string pattern, scanning from the left: only the FIRST
      occurrence of `pat` is removed. */
  function RemoveFirst(s: string, pat: string): string {
    match IndexOf(s, pat)
    case None => s
    case Some(i) => s[..i] + s[i + |pat|..]
  }

  /** `xs.join(sep)`: the elements in order, separated by `sep`, nothing added or dropped. */
  function Join(xs: seq<string>, sep: string): string {
    if |xs| == 0 then ""
    else if |xs| == 1 then xs[0]
    else xs[0] + sep + Join(xs[1..], sep)
  }

  /** `s.split(sep)` for a non-empty separator: the reference inverse of `Join`. */
  function Split(s: string, sep: string): (r: seq<string>)
    requires |sep| > 0
    decreases |s|
  {
    match IndexOf(s, sep)
    case None => [s]
    case Some(i) => [s[..i]] + Split(s[i + |sep|..], sep)
  }

  /** The decimal digits of `n`, as JavaScript renders a non-negative integer. */
  function NatToDecimal(n: nat): (r: string)
    ensures |r| > 0
  {
    if n < 10 then ["0123456789"[n]]
    else NatToDecimal(n / 10) + ["0123456789"[n % 10]]
  }

  /** An integer as JavaScript renders it in a template literal. */
  function IntToDecimal(n: int): (r: string)
    ensures |r| > 0
  {
    if n < 0 then "-" + NatToDecimal(-n) else NatToDecimal(n)
  }

  /** The value of a decimal digit. */
  function DigitValue(c: char): int {
    if '0' <= c <= '9' then c as int - '0' as int else 0
  }

  /** The value of a string of decimal digits, read from the left. */
  function DecimalValue(s: string): int
    decreases |s|
  {
    if |s| == 0 then 0 else DecimalValue(s[..|s| - 1]) * 10 + DigitValue(s[|s| - 1])
  }

  /** The integer a decimal rendering stands for, with an optional leading minus sign. */
  function ReadDecimal(s: string): int {
    if 0 < |s| && s[0] == '-' then -DecimalValue(s[1..]) else DecimalValue(s)
  }

  /** `NatToDecimal` writes digits only, and reading them back gives the number. */
  lemma {:induction false} NatToDecimalRoundTrip(n: nat)
    ensures forall i :: 0 <= i < |NatToDecimal(n)| ==> '0' <= NatToDecimal(n)[i] <= '9'
    ensures DecimalValue(NatToDecimal(n)) == n
  {
    var r := NatToDecimal(n);
    if n < 10 {
      assert DigitValue("0123456789"[n]) == n;
      assert r[..0] == [];
    } else {
      NatToDecimalRoundTrip(n / 10);
      assert r[..|r| - 1] == NatToDecimal(n / 10);
      assert DigitValue("0123456789"[n % 10]) == n % 10;
    }
  }

  /** Reading `IntToDecimal(n)` back gives `n`: the rendering loses nothing. */
  lemma IntToDecimalRoundTrip(n: int)
    ensures ReadDecimal(IntToDecimal(n)) == n
  {
    if n < 0 {
      var d := NatToDecimal(-n);
      NatToDecimalRoundTrip(-n);
      assert ("-" + d)[1..] == d;
      calc {
        ReadDecimal(IntToDecimal(n));
        ReadDecimal("-" + d);
        -DecimalValue(d);
      }
    } else {
      var d := NatToDecimal(n);
      NatToDecimalRoundTrip(n);
      assert '0' <= d[0] <= '9';
      calc {
        ReadDecimal(IntToDecimal(n));
        ReadDecimal(d);
        DecimalValue(d);
      }
    }
  }

  /** A key that ends with `suffix` always contains it, and `replace` then removes exactly
      `|suffix|` characters; when the suffix is its only occurrence, what is left is the key
      without its suffix. */
  lemma RemoveFirstOfSuffix(s: string, suffix: string)
    requires EndsWith(s, suffix)
    ensures IndexOf(s, suffix).Some? && IndexOf(s, suffix).value <= |s| - |suffix|
    ensures |RemoveFirst(s, suffix)| == |s| - |suffix|
    ensures (forall j :: 0 <= j < |s| - |suffix| ==> !OccursAt(s, suffix, j)) ==>
              RemoveFirst(s, suffix) == s[..|s| - |suffix|]
  {
    EndsWithSlice(s, suffix);
    assert OccursAt(s, suffix, |s| - |suffix|);
    if forall j :: 0 <= j < |s| - |suffix| ==> !OccursAt(s, suffix, j) {
      FirstOccurrence(s, suffix, |s| - |suffix|);
    }
  }

  /** A string without the separator's first character has no occurrence of the separator. */
  lemma NoOccurrence(s: string, sep: string)
    requires |sep| > 0 && sep[0] !in s
    ensures IndexOf(s, sep) == None
  {
  }

  /** An occurrence with no earlier one is the one `IndexOf` finds. */
  lemma FirstOccurrence(s: string, pat: string, i: nat)
    requires OccursAt(s, pat, i)
    requires forall j :: 0 <= j < i ==> !OccursAt(s, pat, j)
    ensures IndexOf(s, pat) == Some(i)
  {
  }

  /** Splitting a join on the same separator gives back exactly the joined elements, provided
      no element contains the separator's first character. */
  lemma {:induction false} SplitJoin(xs: seq<string>, sep: string)
    requires |xs| > 0 && |sep| > 0
    requires forall i :: 0 <= i < |xs| ==> sep[0] !in xs[i]
    ensures Split(Join(xs, sep), sep) == xs
  {
    if |xs| == 1 {
      NoOccurrence(xs[0], sep);
    } else {
      var head, rest := xs[0], Join(xs[1..], sep);
      var s := Join(xs, sep);
      assert s == head + sep + rest;
      assert OccursAt(s, sep, |head|) by {
        assert s[|head|..|head| + |sep|] == sep;
      }
      FirstOccurrence(s, sep, |head|);
      assert s[..|head|] == head;
      assert s[|head| + |sep|..] == rest;
      SplitJoin(xs[1..], sep);
    }
  }
}
