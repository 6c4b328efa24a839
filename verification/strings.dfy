/** Text helpers shared by the client and the currency formatter: Python's
    `str()` on integers together with its inverse, `','.join` together with the
    matching split, and cutting a string at the first occurrence of a separator. */
module Strings {
  import opened Wrappers

  predicate IsDigit(ch: char) {
    '0' <= ch <= '9'
  }

  predicate AllDigits(s: string) {
    forall i :: 0 <= i < |s| ==> IsDigit(s[i])
  }

  function DigitChar(d: nat): (ch: char)
    requires d < 10
    ensures IsDigit(ch) && ch as int - '0' as int == d
  {
    ('0' as int + d) as char
  }

  /** Python's `str()` on a non-negative integer: decimal digits, no leading zero. */
  function NatToString(n: nat): (s: string)
    ensures |s| > 0 && AllDigits(s)
    ensures s[0] == '0' ==> n == 0 && |s| == 1
  {
    if n < 10 then [DigitChar(n)] else NatToString(n / 10) + [DigitChar(n % 10)]
  }

  /** Python's `str()` on any integer: a minus sign, then the magnitude's digits. */
  function IntToString(n: int): (s: string)
    ensures |s| > 0
    ensures n >= 0 ==> AllDigits(s)
    ensures n < 0 ==> |s| > 1 && s[0] == '-' && AllDigits(s[1..])
  {
    if n < 0 then "-" + NatToString(-n) else NatToString(n)
  }

  /** The value of a string of decimal digits (the empty string reads as 0). */
  function DigitsValue(s: string): nat
    requires AllDigits(s)
  {
    if |s| == 0 then 0 else DigitsValue(s[..|s| - 1]) * 10 + (s[|s| - 1] as int - '0' as int)
  }

  /** Digits as `str()` writes them: at least one, and no leading zero unless
      the number is zero itself. */
  predicate Canonical(s: string) {
    |s| > 0 && AllDigits(s) && (s[0] == '0' ==> |s| == 1)
  }

  /** Reads back exactly what `IntToString` writes: an optional minus sign before
      a non-zero magnitude, then canonical digits; anything else (`"007"`, `"-0"`,
      `"+1"`, `""`) is refused. */
  function ParseInt(s: string): Option<int> {
    if |s| > 1 && s[0] == '-' && s[1] != '0' && Canonical(s[1..]) then Some(-(DigitsValue(s[1..]) as int))
    else if Canonical(s) then Some(DigitsValue(s))
    else None
  }

  lemma {:induction false} NatToStringValue(n: nat)
    ensures DigitsValue(NatToString(n)) == n
  {
    if n >= 10 {
      var prefix := NatToString(n / 10);
      var s := prefix + [DigitChar(n % 10)];
      assert s[..|s| - 1] == prefix;
      NatToStringValue(n / 10);
    }
  }

  /** The decimal rendering of an integer is read back as that integer. */
  lemma IntToStringRoundTrip(n: int)
    ensures ParseInt(IntToString(n)) == Some(n)
  {
    if n < 0 {
      var s := IntToString(n);
      assert s[1..] == NatToString(-n);
      NatToStringValue(-n);
    } else {
      NatToStringValue(n);
    }
  }

  /** Digits without a leading zero are worth at least one. */
  lemma {:induction false} LeadingDigitValue(s: string)
    requires |s| > 0 && AllDigits(s) && s[0] != '0'
    ensures DigitsValue(s) >= 1
  {
    if |s| > 1 {
      var prefix := s[..|s| - 1];
      assert prefix[0] == s[0];
      LeadingDigitValue(prefix);
    }
  }

  /** Canonical digits are exactly what `NatToString` writes for their value. */
  lemma {:induction false} CanonicalDigits(s: string)
    requires Canonical(s)
    ensures NatToString(DigitsValue(s)) == s
  {
    var prefix := s[..|s| - 1];
    var d := s[|s| - 1] as int - '0' as int;
    if |s| == 1 {
      assert DigitsValue(s) == d;
      assert [DigitChar(d)] == s;
    } else {
      assert prefix[0] == s[0];
      LeadingDigitValue(prefix);
      CanonicalDigits(prefix);
      var n := DigitsValue(s);
      assert n / 10 == DigitsValue(prefix) && n % 10 == d;
      assert DigitChar(d) == s[|s| - 1];
      assert prefix + [s[|s| - 1]] == s;
    }
  }

  /** `ParseInt` accepts nothing but renderings: a string read as `n` is `str(n)`. */
  lemma ParseIntCanonical(s: string, n: int)
    requires ParseInt(s) == Some(n)
    ensures s == IntToString(n)
  {
    if |s| > 1 && s[0] == '-' && s[1] != '0' && Canonical(s[1..]) {
      LeadingDigitValue(s[1..]);
      CanonicalDigits(s[1..]);
      assert s == "-" + s[1..];
    } else {
      CanonicalDigits(s);
    }
  }

  /** Zero padding, a negative zero and an explicit plus sign are not renderings. */
  lemma ParseIntRefusesNonCanonical()
    ensures ParseInt("007") == None && ParseInt("-0") == None && ParseInt("+1") == None
    ensures ParseInt("0") == Some(0) && ParseInt("-12") == Some(-12)
  {
  }

  /** A rendered integer contains nothing but digits and a leading minus sign. */
  lemma IntToStringAvoids(n: int, ch: char)
    requires !IsDigit(ch) && ch != '-'
    ensures ch !in IntToString(n)
  {
    var s := IntToString(n);
    if n < 0 {
      assert forall i :: 1 <= i < |s| ==> s[i] == s[1..][i - 1];
    }
  }

  /** Index of the first `ch` in `s`, or `|s|` when there is none. */
  function Find(s: string, ch: char): (i: nat)
    ensures i <= |s|
    ensures forall j :: 0 <= j < i ==> s[j] != ch
    ensures i < |s| ==> s[i] == ch
  {
    if |s| == 0 then 0 else if s[0] == ch then 0 else 1 + Find(s[1..], ch)
  }

  /** Cuts `s` at the first `sep`: the part before it and the part after it. */
  function Cut(s: string, sep: char): (r: Option<(string, string)>)
    ensures r.None? <==> sep !in s
    ensures r.Some? ==> s == r.value.0 + [sep] + r.value.1 && sep !in r.value.0
  {
    var i := Find(s, sep);
    if i == |s| then None
    else
      assert s == s[..i] + [sep] + s[i + 1..];
      Some((s[..i], s[i + 1..]))
  }

  /** Cutting at the first separator undoes gluing a separator-free head onto a tail. */
  lemma CutConcat(head: string, tail: string, sep: char)
    requires sep !in head
    ensures Cut(head + [sep] + tail, sep) == Some((head, tail))
  {
    var s := head + [sep] + tail;
    assert s[|head|] == sep;
    var r := Cut(s, sep);
    var (h, t) := r.value;
    assert h == s[..|head|] == head;
    assert t == s[|head| + 1..] == tail;
  }

  /** Python's `','.join(parts)`. */
  function Join(parts: seq<string>): string {
    if |parts| == 0 then ""
    else if |parts| == 1 then parts[0]
    else parts[0] + [','] + Join(parts[1..])
  }

  /** Python's `s.split(',')`: the pieces between commas, always at least one. */
  function Split(s: string): (parts: seq<string>)
    ensures |parts| > 0
    decreases |s|
  {
    match Cut(s, ',')
    case None => [s]
    case Some((head, tail)) => [head] + Split(tail)
  }

  /** Splitting a comma-join gives back the joined list, provided the list is
      non-empty and no element contains a comma. */
  lemma {:induction false} SplitJoin(parts: seq<string>)
    requires |parts| > 0
    requires forall i :: 0 <= i < |parts| ==> ',' !in parts[i]
    ensures Split(Join(parts)) == parts
  {
    if |parts| > 1 {
      var tail := Join(parts[1..]);
      assert Join(parts) == parts[0] + [','] + tail;
      CutConcat(parts[0], tail, ',');
      assert Split(Join(parts)) == [parts[0]] + Split(tail);
      SplitJoin(parts[1..]);
      assert [parts[0]] + parts[1..] == parts;
    } else {
      assert ',' !in parts[0];
    }
  }
}
