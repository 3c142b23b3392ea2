/** The string operations the handlers apply to form and request values:
    Python's str comparison, strip, lower, in, startswith/endswith, replace,
    int() on text, and datetime.strptime(s, '%Y-%m-%d') with str(date). */
module Text {
  import opened Common

  // ---------------------------------------------------------------------------
  // Ordering: Python compares str (and SQL compares TEXT) code point by code point.

  predicate StrLess(a: string, b: string)
  {
    if a == [] then b != []
    else if b == [] then false
    else if a[0] != b[0] then a[0] < b[0]
    else StrLess(a[1..], b[1..])
  }

  predicate StrLessEq(a: string, b: string)
  {
    StrLess(a, b) || a == b
  }

  lemma {:induction false} StrLessIrreflexive(a: string)
    ensures !StrLess(a, a)
  {
    if a != [] {
      StrLessIrreflexive(a[1..]);
    }
  }

  lemma {:induction false} StrLessTransitive(a: string, b: string, c: string)
    requires StrLess(a, b) && StrLess(b, c)
    ensures StrLess(a, c)
  {
    if a != [] && b != [] && c != [] && a[0] == b[0] && b[0] == c[0] {
      StrLessTransitive(a[1..], b[1..], c[1..]);
    }
  }

  /** Exactly one of a < b, a == b, b < a holds: string order is a strict total order. */
  lemma {:induction false} StrLessTrichotomy(a: string, b: string)
    ensures StrLess(a, b) || a == b || StrLess(b, a)
    ensures !(StrLess(a, b) && StrLess(b, a))
  {
    if a != [] && b != [] && a[0] == b[0] {
      StrLessTrichotomy(a[1..], b[1..]);
      if a[1..] == b[1..] {
        assert a == [a[0]] + a[1..] && b == [b[0]] + b[1..];
      }
    }
  }

  /** A common prefix does not change the order of two strings. */
  lemma {:induction false} StrLessCommonPrefix(p: string, a: string, b: string)
    requires StrLess(a, b)
    ensures StrLess(p + a, p + b)
  {
    if p != [] {
      StrLessCommonPrefix(p[1..], a, b);
      var pa, pb := p + a, p + b;
      assert pa[0] == p[0] == pb[0];
      assert pa[1..] == p[1..] + a;
      assert pb[1..] == p[1..] + b;
      assert StrLess(pa[1..], pb[1..]);
    } else {
      assert p + a == a && p + b == b;
    }
  }

  /** s[:n] in Python: the first n characters, or all of s when it is shorter. */
  function Prefix(s: string, n: nat): (r: string)
    ensures |r| <= n && |r| <= |s| && r == s[..|r|]
    ensures |s| >= n ==> |r| == n
  {
    if |s| <= n then s else s[..n]
  }

  // ---------------------------------------------------------------------------
  // strip(), lower(), `in`, startswith, endswith, replace

  /** The characters Python's str.isspace() accepts, which strip() removes. */
  predicate IsSpace(c: char)
  {
    || c == ' ' || ('\t' <= c <= '\r') || ('\U{1C}' <= c <= '\U{1F}')
    || c == '\U{85}' || c == '\U{A0}' || c == '\U{1680}' || ('\U{2000}' <= c <= '\U{200A}')
    || c == '\U{2028}' || c == '\U{2029}' || c == '\U{202F}' || c == '\U{205F}' || c == '\U{3000}'
  }

  function StripLeft(s: string): string
  {
    if s != [] && IsSpace(s[0]) then StripLeft(s[1..]) else s
  }

  function StripRight(s: string): string
  {
    if s != [] && IsSpace(s[|s| - 1]) then StripRight(s[..|s| - 1]) else s
  }

  /** lstrip() keeps a suffix of its input that starts with no white space. */
  lemma {:induction false} StripLeftSuffix(s: string)
    ensures var r := StripLeft(s);
      (r == [] || !IsSpace(r[0])) && |r| <= |s| && r == s[|s| - |r|..]
    ensures forall k :: 0 <= k < |s| - |StripLeft(s)| ==> IsSpace(s[k])
  {
    if s != [] && IsSpace(s[0]) {
      StripLeftSuffix(s[1..]);
      forall k | 0 <= k < |s| - |StripLeft(s)|
        ensures IsSpace(s[k])
      {
        if k > 0 { assert s[k] == s[1..][k - 1]; }
      }
    }
  }

  /** rstrip() keeps a prefix of its input that ends with no white space. */
  lemma {:induction false} StripRightPrefix(s: string)
    ensures var r := StripRight(s);
      (r == [] || !IsSpace(r[|r| - 1])) && |r| <= |s| && r == s[..|r|]
    ensures forall k :: |StripRight(s)| <= k < |s| ==> IsSpace(s[k])
  {
    if s != [] && IsSpace(s[|s| - 1]) {
      var p := s[..|s| - 1];
      StripRightPrefix(p);
      forall k | |StripRight(s)| <= k < |s|
        ensures IsSpace(s[k])
      {
        if k < |s| - 1 { assert s[k] == p[k]; }
      }
    }
  }

  /** str.strip(): white space dropped from both ends. */
  function Strip(s: string): string
  {
    StripRight(StripLeft(s))
  }

  /** The result of strip() is a slice of its input with no white space at
      either end, and everything dropped before and after it is white space. */
  lemma StripTrims(s: string)
    ensures var r := Strip(s);
      && (r == [] || (!IsSpace(r[0]) && !IsSpace(r[|r| - 1])))
      && exists i, j :: 0 <= i <= j <= |s| && r == s[i..j]
           && (forall k :: 0 <= k < i ==> IsSpace(s[k]))
           && (forall k :: j <= k < |s| ==> IsSpace(s[k]))
  {
    var l := StripLeft(s);
    var r := StripRight(l);
    StripLeftSuffix(s);
    StripRightPrefix(l);
    var k := |s| - |l|;
    assert l == s[k..];
    assert r == l[..|r|];
    assert s[k..][..|r|] == s[k..k + |r|];
    if r != [] {
      assert r[0] == l[0];
    }
    forall m | k + |r| <= m < |s|
      ensures IsSpace(s[m])
    {
      assert s[m] == l[m - k];
    }
    assert r == s[k..k + |r|];
  }

  /** Text without white space at either end is left as it is. */
  lemma StripUnchanged(s: string)
    requires s == [] || (!IsSpace(s[0]) && !IsSpace(s[|s| - 1]))
    ensures Strip(s) == s
  {
  }

  /** str.lower() on the ASCII letters only; other characters are kept. */
  function Lower(s: string): (r: string)
    ensures |r| == |s|
  {
    if s == [] then []
    else [if 'A' <= s[0] <= 'Z' then (s[0] as int + 32) as char else s[0]] + Lower(s[1..])
  }

  predicate StartsWith(s: string, p: string)
  {
    |p| <= |s| && s[..|p|] == p
  }

  predicate EndsWith(s: string, p: string)
  {
    |p| <= |s| && s[|s| - |p|..] == p
  }

  /** `sub in s` for strings. */
  predicate Contains(s: string, sub: string)
    decreases |s|
  {
    StartsWith(s, sub) || (s != [] && Contains(s[1..], sub))
  }

  /** s.replace(pat, ''): every non-overlapping occurrence of pat, scanning from
      the left, is removed. */
  function RemoveAll(s: string, pat: string): (r: string)
    requires pat != []
    ensures |r| <= |s|
    decreases |s|
  {
    if s == [] then []
    else if StartsWith(s, pat) then RemoveAll(s[|pat|..], pat)
    else [s[0]] + RemoveAll(s[1..], pat)
  }

  // ---------------------------------------------------------------------------
  // int() on text

  predicate IsDigit(c: char)
  {
    '0' <= c <= '9'
  }

  predicate AllDigits(s: string)
  {
    forall i :: 0 <= i < |s| ==> IsDigit(s[i])
  }

  function DigitsValue(s: string): nat
    requires AllDigits(s)
  {
    if s == [] then 0 else 10 * DigitsValue(s[..|s| - 1]) + (s[|s| - 1] as int - '0' as int)
  }

  /** int(s) for an optional sign followed by decimal digits; None where Python
      raises ValueError. */
  function ParseInt(s: string): (r: Option<int>)
    ensures AllDigits(s) && s != [] ==> r == Some(DigitsValue(s))
  {
    if |s| >= 2 && s[0] == '-' && AllDigits(s[1..]) then Some(-(DigitsValue(s[1..]) as int))
    else if |s| >= 2 && s[0] == '+' && AllDigits(s[1..]) then Some(DigitsValue(s[1..]))
    else if s != [] && AllDigits(s) then Some(DigitsValue(s))
    else None
  }

  /** str(n) for a natural number: decimal digits without leading zeros. */
  function ShowNat(n: nat): (r: string)
    ensures r != [] && AllDigits(r)
  {
    if n < 10 then [('0' as int + n) as char]
    else ShowNat(n / 10) + [('0' as int + n % 10) as char]
  }

  /** str(n) for any integer. */
  function ShowInt(n: int): (r: string)
  {
    if n < 0 then "-" + ShowNat(-n) else ShowNat(n)
  }

  lemma {:induction false} DigitsOfShowNat(n: nat)
    ensures DigitsValue(ShowNat(n)) == n
  {
    if n >= 10 {
      var s := ShowNat(n);
      assert s[..|s| - 1] == ShowNat(n / 10);
      DigitsOfShowNat(n / 10);
    }
  }

  /** int(str(n)) == n. */
  lemma ParseShowInt(n: int)
    ensures ParseInt(ShowInt(n)) == Some(n)
  {
    if n < 0 {
      DigitsOfShowNat(-n);
      assert ShowInt(n)[1..] == ShowNat(-n);
    } else {
      DigitsOfShowNat(n);
    }
  }

  // ---------------------------------------------------------------------------
  // datetime.strptime(s, '%Y-%m-%d') and str(date)

  datatype Date = Date(year: int, month: int, day: int)

  function DaysInMonth(year: int, month: int): int
  {
    if month == 2 then
      (if year % 4 == 0 && (year % 100 != 0 || year % 400 == 0) then 29 else 28)
    else if month == 4 || month == 6 || month == 9 || month == 11 then 30
    else 31
  }

  /** A date Python's datetime.date accepts. */
  predicate ValidDate(d: Date)
  {
    1 <= d.year <= 9999 && 1 <= d.month <= 12 && 1 <= d.day <= DaysInMonth(d.year, d.month)
  }

  /** The day of '%d': one or two digits, or a space and one non-zero digit. */
  function DayOf(d: string): Option<int>
  {
    if |d| == 2 && d[0] == ' ' && '1' <= d[1] <= '9' then Some(DigitsValue(d[1..]))
    else if 1 <= |d| <= 2 && AllDigits(d) then Some(DigitsValue(d))
    else None
  }

  function MakeDate(y: string, m: string, d: string): (r: Option<Date>)
    requires AllDigits(y)
    ensures r.Some? ==> ValidDate(r.value)
  {
    if DayOf(d).Some? && AllDigits(m) then
      var date := Date(DigitsValue(y), DigitsValue(m), DayOf(d).value);
      if ValidDate(date) then Some(date) else None
    else None
  }

  /** strptime with format '%Y-%m-%d': four year digits, one or two month digits,
      a day of one or two digits or space-padded, a real calendar date, nothing
      left over. Digits are the ASCII digits. */
  function ParseDate(s: string): (r: Option<Date>)
    ensures r.Some? ==> ValidDate(r.value)
  {
    if |s| < 8 || s[4] != '-' || !AllDigits(s[..4]) then None
    else
      var rest := s[5..];
      if rest[1] == '-' then MakeDate(s[..4], rest[..1], rest[2..])
      else if |rest| >= 3 && rest[2] == '-' then MakeDate(s[..4], rest[..2], rest[3..])
      else None
  }

  /** '%d' also takes a day padded with a space, as strptime does. */
  lemma SpacePaddedDay()
    ensures ParseDate("2024-01- 5") == Some(Date(2024, 1, 5))
  {
    var s := "2024-01- 5";
    assert AllDigits(s[..4]) && s[5..][2] == '-';
    assert s[..4] == "2024" && s[5..][..2] == "01" && s[5..][3..] == " 5";
    assert "2024"[..3] == "202" && "202"[..2] == "20" && "20"[..1] == "2" && "2"[..0] == "";
    assert DigitsValue("2024") == 2024;
    assert "01"[..1] == "0" && "0"[..0] == "";
    assert DigitsValue("01") == 1;
    assert " 5"[1..] == "5" && "5"[..0] == "";
    assert DigitsValue("5") == 5;
  }

  function Pad2(n: int): string
    requires 0 <= n < 100
  {
    [('0' as int + n / 10) as char, ('0' as int + n % 10) as char]
  }

  function Pad4(n: int): string
    requires 0 <= n < 10000
  {
    Pad2(n / 100) + Pad2(n % 100)
  }

  /** str(date): the zero-padded 'YYYY-MM-DD' text the ledger stores. */
  function FormatDate(d: Date): (r: string)
    requires ValidDate(d)
    ensures |r| == 10 && r[4] == '-' && r[7] == '-'
  {
    Pad4(d.year) + "-" + Pad2(d.month) + "-" + Pad2(d.day)
  }

  lemma Pad2Value(n: int)
    requires 0 <= n < 100
    ensures AllDigits(Pad2(n)) && DigitsValue(Pad2(n)) == n
  {
    var p := Pad2(n);
    assert p[..1] == [p[0]];
    assert p[..0] == [];
    assert DigitsValue(p[..1]) == n / 10;
  }

  lemma Pad4Value(n: int)
    requires 0 <= n < 10000
    ensures AllDigits(Pad4(n)) && DigitsValue(Pad4(n)) == n
  {
    var p := Pad4(n);
    Pad2Value(n / 100);
    assert p[..3] == Pad2(n / 100) + [p[2]];
    assert p[..2] == Pad2(n / 100);
  }

  /** Parsing the stored text of a date gives the date back. */
  lemma ParseFormatDate(d: Date)
    requires ValidDate(d)
    ensures ParseDate(FormatDate(d)) == Some(d)
  {
    var s := FormatDate(d);
    Pad4Value(d.year);
    Pad2Value(d.month);
    Pad2Value(d.day);
    assert s[..4] == Pad4(d.year);
    var rest := s[5..];
    assert rest[..2] == Pad2(d.month);
    assert rest[3..] == Pad2(d.day);
  }
}
