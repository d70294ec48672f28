/**
 * The few pieces of Python's string library the apps rely on:
 * `str.strip()` with no argument, `sep.join(parts)` and `str(n)` for integers.
 * Strings are sequences of Unicode code points, as Python's `str` is, so
 * `len` and slicing count code points.
 */
module Text {

  /** The characters for which Python's `str.isspace()` holds; `str.strip()` removes exactly these. */
  predicate IsSpace(c: char) {
    || ('\t' <= c <= '\r')          // tab, line feed, vertical tab, form feed, carriage return
    || ('\U{1C}' <= c <= '\U{1F}')  // file, group, record and unit separators
    || c == ' '
    || c == '\U{85}'                // next line
    || c == '\U{A0}'                // no-break space
    || c == '\U{1680}'
    || ('\U{2000}' <= c <= '\U{200A}')
    || c == '\U{2028}' || c == '\U{2029}'
    || c == '\U{202F}' || c == '\U{205F}' || c == '\U{3000}'
  }

  /** `s` without its leading run of whitespace. */
  function TrimStart(s: string): (r: string)
    ensures |r| <= |s|
  {
    if s != [] && IsSpace(s[0]) then TrimStart(s[1..]) else s
  }

  /** `s` without its trailing run of whitespace. */
  function TrimEnd(s: string): (r: string)
    ensures |r| <= |s|
  {
    if s != [] && IsSpace(s[|s| - 1]) then TrimEnd(s[..|s| - 1]) else s
  }

  /** Python's `s.strip()`. */
  function Strip(s: string): (r: string)
    ensures |r| <= |s|
  {
    TrimEnd(TrimStart(s))
  }

  /** Dropping the whitespace before `lo`, where `s[lo]` is not whitespace, leaves `s[lo..]`. */
  lemma {:induction false} TrimStartAt(s: string, lo: nat)
    requires lo <= |s|
    requires forall k :: 0 <= k < lo ==> IsSpace(s[k])
    requires lo < |s| ==> !IsSpace(s[lo])
    ensures TrimStart(s) == s[lo..]
  {
    if lo > 0 {
      TrimStartAt(s[1..], lo - 1);
      assert s[1..][lo - 1..] == s[lo..];
    }
  }

  /** Dropping the whitespace from `hi` on, where `s[hi - 1]` is not whitespace, leaves `s[..hi]`. */
  lemma {:induction false} TrimEndAt(s: string, hi: nat)
    requires hi <= |s|
    requires forall k :: hi <= k < |s| ==> IsSpace(s[k])
    requires 0 < hi ==> !IsSpace(s[hi - 1])
    ensures TrimEnd(s) == s[..hi]
  {
    if hi < |s| {
      var t := s[..|s| - 1];
      assert forall k :: hi <= k < |t| ==> t[k] == s[k];
      TrimEndAt(t, hi);
      assert t[..hi] == s[..hi];
    } else {
      assert s[..hi] == s;
    }
  }

  /**
   * `Strip` is the one slice of `s` that has only whitespace around it and
   * starts and ends with a non-whitespace character (or is empty).
   */
  lemma StripIsTrimmedSlice(s: string, lo: nat, hi: nat)
    requires lo <= hi <= |s|
    requires forall k :: 0 <= k < lo ==> IsSpace(s[k])
    requires forall k :: hi <= k < |s| ==> IsSpace(s[k])
    requires lo < hi ==> !IsSpace(s[lo]) && !IsSpace(s[hi - 1])
    ensures Strip(s) == s[lo..hi]
  {
    if lo < hi {
      TrimStartAt(s, lo);
      var t := s[lo..];
      assert forall k :: hi - lo <= k < |t| ==> t[k] == s[lo + k];
      TrimEndAt(t, hi - lo);
      assert t[..hi - lo] == s[lo..hi];
    } else {
      TrimStartAt(s, |s|);
    }
  }

  /** Python's `sep.join(parts)`. */
  function Join(parts: seq<string>, sep: string): string
    decreases |parts|
  {
    if |parts| == 0 then ""
    else if |parts| == 1 then parts[0]
    else parts[0] + sep + Join(parts[1..], sep)
  }

  /** Total length of the parts. */
  function SumLen(parts: seq<string>): nat
    decreases |parts|
  {
    if parts == [] then 0 else |parts[0]| + SumLen(parts[1..])
  }

  /** Where part `i` starts inside `Join(parts, sep)`: every earlier part and its separator come first. */
  function Offset(parts: seq<string>, sep: string, i: nat): nat
    requires i <= |parts|
    decreases i
  {
    if i == 0 then 0 else |parts[0]| + |sep| + Offset(parts[1..], sep, i - 1)
  }

  /** The joined text holds each part once, then one separator, and nothing else. */
  lemma {:induction false} JoinLength(parts: seq<string>, sep: string)
    requires parts != []
    ensures |Join(parts, sep)| == SumLen(parts) + (|parts| - 1) * |sep|
    decreases |parts|
  {
    if |parts| > 1 {
      JoinLength(parts[1..], sep);
    }
  }

  /** A slice of the second half of a concatenation, read through the whole. */
  lemma SliceAfterPrefix(a: string, b: string, lo: nat, hi: nat)
    requires lo <= hi <= |b|
    ensures (a + b)[|a| + lo..|a| + hi] == b[lo..hi]
  {
  }

  /**
   * Part `i` sits in the joined text at `Offset(parts, sep, i)`, in input order,
   * and is followed by the separator unless it is the last part.
   */
  lemma {:induction false} JoinPieceAt(parts: seq<string>, sep: string, i: nat)
    requires i < |parts|
    ensures var o, n := Offset(parts, sep, i), |parts[i]|;
            var j := Join(parts, sep);
            o + n <= |j| && j[o..o + n] == parts[i] &&
            (i + 1 < |parts| ==> o + n + |sep| <= |j| && j[o + n..o + n + |sep|] == sep)
    decreases i
  {
    if |parts| == 1 {
      assert Join(parts, sep)[0..|parts[0]|] == parts[0];
    } else {
      var head := parts[0] + sep;
      var rest := Join(parts[1..], sep);
      assert Join(parts, sep) == head + rest;
      if i == 0 {
        assert (head + rest)[0..|parts[0]|] == parts[0];
        assert (head + rest)[|parts[0]|..|parts[0]| + |sep|] == sep;
      } else {
        JoinPieceAt(parts[1..], sep, i - 1);
        var o, n := Offset(parts[1..], sep, i - 1), |parts[i]|;
        assert parts[1..][i - 1] == parts[i];
        assert Offset(parts, sep, i) == |head| + o;
        SliceAfterPrefix(head, rest, o, o + n);
        if i + 1 < |parts| {
          SliceAfterPrefix(head, rest, o + n, o + n + |sep|);
        }
      }
    }
  }

  predicate IsDigit(c: char) {
    '0' <= c <= '9'
  }

  /** The decimal digit for `d`. */
  function DigitChar(d: nat): (c: char)
    requires d < 10
    ensures IsDigit(c) && (c as int) - ('0' as int) == d
  {
    (('0' as int) + d) as char
  }

  /** Python's `str(n)` for a non-negative integer: no sign and no leading zero. */
  function NatToDecimal(n: nat): (r: string)
    ensures r != [] && (forall k :: 0 <= k < |r| ==> IsDigit(r[k]))
    ensures |r| > 1 ==> r[0] != '0'
  {
    if n < 10 then [DigitChar(n)] else NatToDecimal(n / 10) + [DigitChar(n % 10)]
  }

  /** Python's `str(i)` for any integer: a minus sign before the digits of a negative number. */
  function IntToDecimal(i: int): string {
    if i < 0 then "-" + NatToDecimal(-i) else NatToDecimal(i)
  }

  /** The value of a string of decimal digits (what Python's `int(s)` reads). */
  function DecimalValue(s: string): nat
    requires forall k :: 0 <= k < |s| ==> IsDigit(s[k])
    decreases |s|
  {
    if s == [] then 0
    else
      assert IsDigit(s[|s| - 1]);
      10 * DecimalValue(s[..|s| - 1]) + ((s[|s| - 1] as int) - ('0' as int))
  }

  /** Reading back a rendered natural number gives the number: the rendering loses nothing. */
  lemma {:induction false} NatToDecimalRoundTrip(n: nat)
    ensures DecimalValue(NatToDecimal(n)) == n
  {
    var r := NatToDecimal(n);
    if n >= 10 {
      NatToDecimalRoundTrip(n / 10);
      assert r[..|r| - 1] == NatToDecimal(n / 10);
    }
  }

  /** Reading back a rendered integer, sign included, gives the integer. */
  lemma IntToDecimalRoundTrip(i: int)
    ensures var r := IntToDecimal(i);
            r != [] &&
            (if r[0] == '-'
             then (forall k :: 1 <= k < |r| ==> IsDigit(r[k])) && i == -(DecimalValue(r[1..]) as int)
             else (forall k :: 0 <= k < |r| ==> IsDigit(r[k])) && i == DecimalValue(r))
  {
    var r := IntToDecimal(i);
    if i < 0 {
      NatToDecimalRoundTrip(-i);
      assert r[1..] == NatToDecimal(-i);
    } else {
      NatToDecimalRoundTrip(i);
    }
  }
}
