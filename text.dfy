/** The java.lang.String operations the service relies on: literal
    `replaceAll` with an empty replacement, `trim`, the `%d` conversion of
    `String.format` and the `toString` of a `java.util.Map`. Strings are
    `seq<char>`, whose elements are Unicode scalar values rather than Java's
    UTF-16 code units; every character the service strips or matches is
    ASCII, so the difference does not show. */
module Text {

  /** `p` occurs in `s` starting at index `i`. */
  predicate OccursAt(s: string, p: string, i: nat)
  {
    i + |p| <= |s| && s[i..i + |p|] == p
  }

  /** `p` occurs somewhere in `s` (Java's `s.contains(p)`). */
  predicate Contains(s: string, p: string)
  {
    exists i: nat | i <= |s| :: OccursAt(s, p, i)
  }

  predicate StartsWith(s: string, p: string)
  {
    OccursAt(s, p, 0)
  }

  predicate EndsWith(s: string, p: string)
  {
    |p| <= |s| && s[|s| - |p|..] == p
  }

  /* ---------------- replaceAll(regex, "") on a literal pattern ---------------- */

  /** `s.replaceAll(p, "")` for a pattern `p` without regex metacharacters:
      the matcher scans left to right, removes the leftmost occurrence and
      resumes just after it, so occurrences never overlap and text that only
      forms `p` once an occurrence has been cut out is kept. */
  function RemoveAll(s: string, p: string): (r: string)
    requires |p| > 0
    ensures |r| <= |s|
    decreases |s|
  {
    if s == [] then []
    else if StartsWith(s, p) then RemoveAll(s[|p|..], p)
    else [s[0]] + RemoveAll(s[1..], p)
  }

  /** When no occurrence of `p` starts inside `a`, removing `p` from `a + b`
      keeps `a` whole and works on `b` alone. */
  lemma {:induction false} RemoveAllKeepsUntouchedPrefix(a: string, b: string, p: string)
    requires |p| > 0
    requires forall i: nat :: i < |a| ==> !OccursAt(a + b, p, i)
    ensures RemoveAll(a + b, p) == a + RemoveAll(b, p)
  {
    if a == [] {
      assert a + b == b;
    } else {
      var c := a + b;
      assert !OccursAt(c, p, 0);
      assert c[0] == a[0] && c[1..] == a[1..] + b;
      forall i: nat | i < |a[1..]|
        ensures !OccursAt(a[1..] + b, p, i)
      {
        assert !OccursAt(c, p, i + 1);
        if i + |p| <= |c[1..]| {
          assert c[1..][i..i + |p|] == c[i + 1..i + 1 + |p|];
        }
      }
      RemoveAllKeepsUntouchedPrefix(a[1..], b, p);
      calc {
        RemoveAll(c, p);
        [c[0]] + RemoveAll(c[1..], p);
        [a[0]] + (a[1..] + RemoveAll(b, p));
        { assert [a[0]] + a[1..] == a; }
        a + RemoveAll(b, p);
      }
    }
  }

  /** Text with no occurrence of `p` comes back unchanged. */
  lemma RemoveAllWithoutOccurrence(s: string, p: string)
    requires |p| > 0
    requires !Contains(s, p)
    ensures RemoveAll(s, p) == s
  {
    assert s + [] == s;
    forall i: nat | i < |s|
      ensures !OccursAt(s + [], p, i)
    {
    }
    RemoveAllKeepsUntouchedPrefix(s, [], p);
  }

  /* ---------------- trim ---------------- */

  /** A character that `String.trim` strips: code point at or below U+0020. */
  predicate IsTrimmable(c: char)
  {
    c <= ' '
  }

  predicate AllTrimmable(s: string)
  {
    forall i :: 0 <= i < |s| ==> IsTrimmable(s[i])
  }

  /** Neither the first nor the last character is one that `trim` strips. */
  predicate IsTrimmed(s: string)
  {
    s == [] || (!IsTrimmable(s[0]) && !IsTrimmable(s[|s| - 1]))
  }

  /** Drops the leading run of trimmable characters. */
  function TrimStart(s: string): (r: string)
    ensures |r| <= |s| && r == s[|s| - |r|..]
    ensures AllTrimmable(s[..|s| - |r|])
    ensures r == [] || !IsTrimmable(r[0])
  {
    if s != [] && IsTrimmable(s[0]) then TrimStart(s[1..]) else s
  }

  /** Drops the trailing run of trimmable characters. */
  function TrimEnd(s: string): (r: string)
    ensures |r| <= |s| && r == s[..|r|]
    ensures AllTrimmable(s[|r|..])
    ensures r == [] || !IsTrimmable(r[|r| - 1])
  {
    if s != [] && IsTrimmable(s[|s| - 1]) then TrimEnd(s[..|s| - 1]) else s
  }

  /** `String.trim`: the longest infix of `s` that starts and ends with a
      non-trimmable character, the empty string when there is none. */
  function Trim(s: string): (r: string)
    ensures IsTrimmed(r)
  {
    var e := TrimEnd(s);
    var r := TrimStart(e);
    assert r != [] ==> r[|r| - 1] == e[|e| - 1];
    r
  }

  /** What `trim` cuts off on either side is all trimmable. */
  lemma TrimIsInfix(s: string)
    ensures exists i, j :: 0 <= i <= j <= |s| && Trim(s) == s[i..j] && AllTrimmable(s[..i]) && AllTrimmable(s[j..])
  {
    var e := TrimEnd(s);
    var r := TrimStart(e);
    var i, j := |e| - |r|, |e|;
    assert Trim(s) == r;
    assert e == s[..j];
    assert s[..i] == e[..i];
    assert AllTrimmable(s[..i]);
    assert AllTrimmable(s[j..]);
    assert s[i..j] == e[i..];
    assert 0 <= i <= j <= |s| && Trim(s) == s[i..j] && AllTrimmable(s[..i]) && AllTrimmable(s[j..]);
  }

  /** `trim` leaves a string that is already trimmed as it is. */
  lemma TrimOfTrimmed(s: string)
    requires IsTrimmed(s)
    ensures Trim(s) == s
  {
  }

  /** Trailing blanks after a trimmed, non-empty text are all that `trim`
      removes. */
  lemma {:induction false} TrimDropsTrailingBlanks(x: string, w: string)
    requires x != [] && IsTrimmed(x) && AllTrimmable(w)
    ensures Trim(x + w) == x
  {
    if w == [] {
      assert x + w == x;
    } else {
      var s := x + w;
      assert IsTrimmable(s[|s| - 1]);
      assert s[..|s| - 1] == x + w[..|w| - 1];
      TrimDropsTrailingBlanks(x, w[..|w| - 1]);
      assert TrimEnd(x + w[..|w| - 1]) == x;
    }
  }

  /** `trim` turns text made only of trimmable characters into "". */
  lemma TrimOfBlanks(w: string)
    requires AllTrimmable(w)
    ensures Trim(w) == []
  {
  }

  /** Trimming keeps a leading character that is not trimmable. */
  lemma TrimKeepsFirst(s: string)
    requires s != [] && !IsTrimmable(s[0])
    ensures Trim(s) != [] && Trim(s)[0] == s[0]
  {
    assert TrimEnd(s) != [];
  }

  /* ---------------- %d ---------------- */

  function DigitChar(d: nat): (c: char)
    requires d < 10
    ensures '0' <= c <= '9'
  {
    "0123456789"[d]
  }

  predicate IsDigits(s: string)
  {
    forall i :: 0 <= i < |s| ==> '0' <= s[i] <= '9'
  }

  /** Decimal digits of `n`, most significant first, with no leading zero. */
  function Digits(n: nat): (r: string)
    ensures r != [] && IsDigits(r)
    ensures |r| > 1 ==> r[0] != '0'
  {
    if n < 10 then [DigitChar(n)] else Digits(n / 10) + [DigitChar(n % 10)]
  }

  /** The value a string of decimal digits denotes. */
  function DigitsValue(s: string): nat
    requires IsDigits(s)
  {
    if s == [] then 0 else 10 * DigitsValue(s[..|s| - 1]) + (s[|s| - 1] as int - '0' as int)
  }

  lemma {:induction false} DigitsRoundTrip(n: nat)
    ensures DigitsValue(Digits(n)) == n
  {
    if n >= 10 {
      var r := Digits(n);
      assert r[..|r| - 1] == Digits(n / 10);
      DigitsRoundTrip(n / 10);
      assert r[|r| - 1] == DigitChar(n % 10);
    } else {
      assert Digits(n)[0] == "0123456789"[n];
    }
  }

  /** `String.format("%d", n)` in a locale whose zero digit is '0': an
      optional minus sign followed by the decimal digits of the magnitude. */
  function FormatInt(n: int): (r: string)
    ensures r != [] && (r[0] == '-' <==> n < 0)
    ensures var digits := if n < 0 then r[1..] else r;
      digits != [] && IsDigits(digits) && (|digits| > 1 ==> digits[0] != '0')
  {
    if n < 0 then "-" + Digits(-n) else Digits(n)
  }

  /** The value `%d` prints can be read back: sign, then the digits. */
  lemma FormatIntRoundTrip(n: int)
    ensures FormatInt(n) != []
    ensures n >= 0 ==> IsDigits(FormatInt(n)) && DigitsValue(FormatInt(n)) == n
    ensures n < 0 ==> FormatInt(n)[0] == '-' && IsDigits(FormatInt(n)[1..]) && DigitsValue(FormatInt(n)[1..]) == -n
  {
    if n < 0 {
      NegativeFormatRoundTrip(n);
    } else {
      DigitsRoundTrip(n);
    }
  }

  /** A negative value prints as '-' followed by the digits of its magnitude. */
  lemma NegativeFormatRoundTrip(n: int)
    requires n < 0
    ensures FormatInt(n)[0] == '-' && IsDigits(FormatInt(n)[1..]) && DigitsValue(FormatInt(n)[1..]) == -n
  {
    var m: nat := -n;
    var d := Digits(m);
    assert FormatInt(n) == "-" + d;
    assert FormatInt(n)[1..] == d;
    assert IsDigits(d);
    DigitsRoundTrip(m);
  }

  /* ---------------- Map.toString ---------------- */

  /** `key=value` entries separated by ", ", in iteration order. */
  function JoinEntries(entries: seq<(string, string)>): string
  {
    if entries == [] then ""
    else if |entries| == 1 then entries[0].0 + "=" + entries[0].1
    else entries[0].0 + "=" + entries[0].1 + ", " + JoinEntries(entries[1..])
  }

  /** `AbstractMap.toString` of a map whose iteration order and value
      renderings are given by `entries`. */
  function RenderMap(entries: seq<(string, string)>): (r: string)
    ensures StartsWith(r, "{") && EndsWith(r, "}")
    ensures entries == [] ==> r == "{}"
  {
    "{" + JoinEntries(entries) + "}"
  }
}
