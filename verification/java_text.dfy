/** The parts of Java's string library that the whiteboard field accessors rely on:
    `String.split` with a one-character separator and a limit, `Integer.parseInt` /
    `Long.parseLong` in radix 10, and the decimal rendering of an `int`. */
module JavaText {
  import opened Common

  const IntMax: nat := 0x7fff_ffff
  const LongMax: nat := 0x7fff_ffff_ffff_ffff

  /** The inverse of splitting: the parts glued back together around `sep`. */
  function Join(parts: seq<string>, sep: char): string
    requires |parts| >= 1
  {
    if |parts| == 1 then parts[0] else parts[0] + [sep] + Join(parts[1..], sep)
  }

  /** Every piece between separators, empty pieces included. */
  function SplitAll(s: string, sep: char): (parts: seq<string>)
    ensures |parts| >= 1
    ensures |parts[0]| <= |s| && parts[0] == s[..|parts[0]|]
    ensures forall k :: 0 <= k < |parts| ==> sep !in parts[k]
    ensures Join(parts, sep) == s
    decreases |s|
  {
    if sep !in s then [s]
    else
      var i := FirstIndex(s, sep);
      var rest := SplitAll(s[i + 1..], sep);
      assert s == s[..i] + [sep] + s[i + 1..];
      [s[..i]] + rest
  }

  /** Splitting a join of separator-free parts gives the parts back. */
  lemma {:induction false} SplitJoin(parts: seq<string>, sep: char)
    requires |parts| >= 1
    requires forall k :: 0 <= k < |parts| ==> sep !in parts[k]
    ensures SplitAll(Join(parts, sep), sep) == parts
  {
    if |parts| > 1 {
      var s := Join(parts, sep);
      var p := parts[0];
      assert s == p + [sep] + Join(parts[1..], sep);
      assert s[|p|] == sep;
      assert s[..|p|] == p;
      assert sep in s;
      assert forall j :: 0 <= j < |p| ==> s[j] == p[j];
      var i := FirstIndex(s, sep);
      assert i == |p|;
      assert s[i + 1..] == Join(parts[1..], sep);
      SplitJoin(parts[1..], sep);
    }
  }

  /** In `p + [sep] + rest` with no separator in `p`, the first separator is the one
      right after `p`. */
  lemma FirstSeparatorAfter(p: string, sep: char, rest: string)
    requires sep !in p
    ensures sep in p + [sep] + rest && FirstIndex(p + [sep] + rest, sep) == |p|
    ensures (p + [sep] + rest)[..|p|] == p && (p + [sep] + rest)[|p| + 1..] == rest
  {
    var s := p + [sep] + rest;
    assert s[|p|] == sep;
    assert forall j :: 0 <= j < |p| ==> s[j] == p[j];
    assert s[..|p|] == p;
  }

  /** Splitting peels off a separator-free first field and goes on with the rest. */
  lemma SplitAllCons(p: string, sep: char, rest: string)
    requires sep !in p
    ensures SplitAll(p + [sep] + rest, sep) == [p] + SplitAll(rest, sep)
  {
    FirstSeparatorAfter(p, sep, rest);
  }

  /** `s.split(sep, limit)` for `limit > 0`: the separator is applied at most `limit - 1`
      times and the last part keeps the rest of the input, separators included. */
  function SplitLimited(s: string, sep: char, limit: nat): (parts: seq<string>)
    requires limit >= 1
    ensures 1 <= |parts| <= limit
    ensures Join(parts, sep) == s
    ensures forall k :: 0 <= k < |parts| - 1 ==> sep !in parts[k]
    decreases limit
  {
    if limit == 1 || sep !in s then [s]
    else
      var i := FirstIndex(s, sep);
      var rest := SplitLimited(s[i + 1..], sep, limit - 1);
      var parts := [s[..i]] + rest;
      ConsParts(s, i, sep, rest, limit, parts);
      parts
  }

  /** One step of splitting: the field before the first separator, then the parts of
      what follows it. */
  lemma ConsParts(s: string, i: nat, sep: char, rest: seq<string>, limit: nat, parts: seq<string>)
    requires i < |s| && s[i] == sep && sep !in s[..i] && limit >= 2
    requires 1 <= |rest| <= limit - 1 && Join(rest, sep) == s[i + 1..]
    requires forall k :: 0 <= k < |rest| - 1 ==> sep !in rest[k]
    requires parts == [s[..i]] + rest
    ensures 1 <= |parts| <= limit
    ensures Join(parts, sep) == s
    ensures forall k :: 0 <= k < |parts| - 1 ==> sep !in parts[k]
  {
    assert parts[1..] == rest;
    assert Join(parts, sep) == s[..i] + [sep] + s[i + 1..];
    SplitAround(s, i);
    forall k | 0 <= k < |parts| - 1 ensures sep !in parts[k] {
      if k > 0 {
        assert parts[k] == rest[k - 1];
      }
    }
  }

  /** A limit that is not reached changes nothing: the parts are those of the full split,
      so the last one holds no separator either. */
  lemma {:induction false} SplitLimitedBelowLimit(s: string, sep: char, limit: nat)
    requires limit >= 1
    ensures |SplitLimited(s, sep, limit)| < limit ==> SplitLimited(s, sep, limit) == SplitAll(s, sep)
    decreases limit
  {
    if limit > 1 && sep in s {
      var i := FirstIndex(s, sep);
      SplitLimitedBelowLimit(s[i + 1..], sep, limit - 1);
      BelowLimitStep(s, sep, limit, i);
    } else if limit > 1 {
      assert SplitLimited(s, sep, limit) == [s] && SplitAll(s, sep) == [s];
    }
  }

  /** The inductive step of `SplitLimitedBelowLimit`: both splits peel off the same first
      field. */
  lemma BelowLimitStep(s: string, sep: char, limit: nat, i: nat)
    requires limit >= 2 && sep in s && i == FirstIndex(s, sep)
    requires |SplitLimited(s[i + 1..], sep, limit - 1)| < limit - 1 ==>
      SplitLimited(s[i + 1..], sep, limit - 1) == SplitAll(s[i + 1..], sep)
    ensures |SplitLimited(s, sep, limit)| < limit ==> SplitLimited(s, sep, limit) == SplitAll(s, sep)
  {
    assert SplitLimited(s, sep, limit) == [s[..i]] + SplitLimited(s[i + 1..], sep, limit - 1);
    assert SplitAll(s, sep) == [s[..i]] + SplitAll(s[i + 1..], sep) by {
      SplitAround(s, i);
      SplitAllCons(s[..i], sep, s[i + 1..]);
    }
  }

  lemma SplitLimitedCons(p: string, sep: char, rest: string, limit: nat)
    requires limit >= 2 && sep !in p
    ensures SplitLimited(p + [sep] + rest, sep, limit) == [p] + SplitLimited(rest, sep, limit - 1)
  {
    FirstSeparatorAfter(p, sep, rest);
  }

  /** Drops the empty strings at the end of `parts`. */
  function DropTrailingEmpty(parts: seq<string>): (r: seq<string>)
    ensures |r| <= |parts| && r == parts[..|r|]
    ensures r == [] || r[|r| - 1] != ""
    ensures forall k :: |r| <= k < |parts| ==> parts[k] == ""
  {
    if parts == [] || parts[|parts| - 1] != "" then parts
    else DropTrailingEmpty(parts[..|parts| - 1])
  }

  /** `s.split(sep)` (limit 0): all pieces, then trailing empty strings discarded; an input
      without the separator comes back whole, even when it is empty. */
  function SplitDiscardingTrailing(s: string, sep: char): (parts: seq<string>)
  {
    if sep !in s then [s] else DropTrailingEmpty(SplitAll(s, sep))
  }

  /** Java's `String.split` with a one-character, non-special separator, for every limit. */
  function Split(s: string, sep: char, limit: int): (parts: seq<string>)
    ensures limit > 0 ==> 1 <= |parts| <= limit
    ensures limit == 0 && sep !in s ==> parts == [s]
    ensures limit == 0 ==> |parts| <= |SplitAll(s, sep)|
  {
    if limit > 0 then SplitLimited(s, sep, limit)
    else if limit == 0 then SplitDiscardingTrailing(s, sep)
    else SplitAll(s, sep)
  }

  predicate IsDigit(c: char) {
    '0' <= c <= '9'
  }

  predicate AllDigits(s: string) {
    forall k :: 0 <= k < |s| ==> IsDigit(s[k])
  }

  /** The number a string of decimal digits denotes, most significant digit first. */
  function DigitsValue(s: string): nat
    requires AllDigits(s)
  {
    if s == [] then 0
    else DigitsValue(s[..|s| - 1]) * 10 + (s[|s| - 1] - '0') as nat
  }

  /** `Long.parseLong(s)` when `max` is `LongMax`, `Integer.parseInt(s)` when it is
      `IntMax`: an optional `+` or `-`, then at least one ASCII digit, and a value in
      `-(max + 1) .. max`; anything else is a `NumberFormatException`, here `None`. */
  function ParseInteger(s: string, max: nat): (r: Option<int>)
    ensures r.Some? ==> -(max as int) - 1 <= r.value <= max
    ensures r.Some? ==> s != [] && (AllDigits(s) || ((s[0] == '-' || s[0] == '+') && |s| >= 2 && AllDigits(s[1..])))
    ensures s == [] ==> r == None
  {
    if s == [] then None
    else if s[0] == '-' || s[0] == '+' then
      var digits := s[1..];
      if digits == [] || !AllDigits(digits) then None
      else
        var v := DigitsValue(digits);
        if s[0] == '-' then (if v <= max + 1 then Some(-(v as int)) else None)
        else (if v <= max then Some(v) else None)
    else if !AllDigits(s) then None
    else
      var v := DigitsValue(s);
      if v <= max then Some(v) else None
  }

  function DigitChar(d: nat): (c: char)
    requires d < 10
    ensures IsDigit(c) && (c - '0') as nat == d
  {
    ('0' as int + d) as char
  }

  /** The decimal rendering of a natural number, without leading zeros. */
  function NatToString(n: nat): (s: string)
    ensures |s| >= 1 && AllDigits(s)
    ensures |s| > 1 ==> s[0] != '0'
  {
    if n < 10 then [DigitChar(n)]
    else
      var prefix := NatToString(n / 10);
      assert (prefix + [DigitChar(n % 10)])[0] == prefix[0];
      prefix + [DigitChar(n % 10)]
  }

  /** What Java's string concatenation writes for an `int`. */
  function IntToString(i: int): (s: string)
    ensures |s| >= 1
    ensures forall k :: 0 <= k < |s| ==> s[k] == '-' || IsDigit(s[k])
  {
    if i < 0 then "-" + NatToString(-i) else NatToString(i)
  }

  lemma {:induction false} DigitsValueOfNatToString(n: nat)
    ensures DigitsValue(NatToString(n)) == n
  {
    if n >= 10 {
      var s := NatToString(n);
      DigitsValueOfNatToString(n / 10);
      assert s[..|s| - 1] == NatToString(n / 10);
    }
  }

  lemma SignedDigits(digits: string)
    ensures ("-" + digits)[0] == '-' && ("-" + digits)[1..] == digits
  {
  }

  /** Parsing reads back what `IntToString` wrote, for every value in range. */
  lemma ParseIntToString(i: int, max: nat)
    requires -(max as int) - 1 <= i <= max
    ensures ParseInteger(IntToString(i), max) == Some(i)
  {
    var s := IntToString(i);
    if i < 0 {
      var digits := NatToString(-i);
      DigitsValueOfNatToString(-i);
      SignedDigits(digits);
      assert digits != [] && AllDigits(digits);
      assert s[1..] == digits && DigitsValue(digits) == -i;
    } else {
      DigitsValueOfNatToString(i);
      assert s == NatToString(i) && AllDigits(s);
      assert IsDigit(s[0]) && s[0] != '-' && s[0] != '+';
      assert DigitsValue(s) == i;
    }
  }
}
