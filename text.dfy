/**
 * String helpers the portal relies on: `toLowerCase`, `trim`, the email
 * normalisation built from them (`email.toLowerCase().trim()`), the UTF-16
 * `length` used by the PIN check, and `Number.prototype.toString` for the
 * non-negative integers `calculateAge` prints.
 */
module Text {

  // ---------------------------------------------------------------- case

  predicate IsUpper(c: char) { 'A' <= c <= 'Z' }

  function LowerChar(c: char): (d: char)
    ensures !IsUpper(d)
    ensures !IsUpper(c) ==> d == c
  {
    if IsUpper(c) then (c as int + 32) as char else c
  }

  /** `toLowerCase`, on the ASCII letters. */
  function ToLower(s: string): (r: string)
    ensures |r| == |s|
    ensures forall i :: 0 <= i < |s| ==> r[i] == LowerChar(s[i])
  {
    seq(|s|, i requires 0 <= i < |s| => LowerChar(s[i]))
  }

  predicate IsLowered(s: string) { forall i :: 0 <= i < |s| ==> !IsUpper(s[i]) }

  lemma ToLowerLowers(s: string)
    ensures IsLowered(ToLower(s))
    ensures IsLowered(s) ==> ToLower(s) == s
  {
  }

  // ---------------------------------------------------------------- trim

  /** The characters ECMAScript's `trim` removes: WhiteSpace and LineTerminator. */
  predicate IsWhitespace(c: char)
  {
    c == '\t' || c == '\n' || c == '\U{000B}' || c == '\U{000C}' || c == '\r' || c == ' '
    || c == '\U{00A0}' || c == '\U{1680}' || ('\U{2000}' <= c <= '\U{200A}')
    || c == '\U{2028}' || c == '\U{2029}' || c == '\U{202F}' || c == '\U{205F}'
    || c == '\U{3000}' || c == '\U{FEFF}'
  }

  predicate AllWhitespace(s: string) { forall i :: 0 <= i < |s| ==> IsWhitespace(s[i]) }

  /** Neither end of `s` is whitespace: `trim` has nothing left to remove. */
  predicate Trimmed(s: string)
  {
    s == [] || (!IsWhitespace(s[0]) && !IsWhitespace(s[|s| - 1]))
  }

  function TrimStart(s: string): (r: string)
    ensures |r| <= |s|
    ensures r == [] || !IsWhitespace(r[0])
    decreases |s|
  {
    if |s| > 0 && IsWhitespace(s[0]) then TrimStart(s[1..]) else s
  }

  function TrimEnd(s: string): (r: string)
    ensures |r| <= |s|
    ensures r == [] || !IsWhitespace(r[|r| - 1])
    decreases |s|
  {
    if |s| > 0 && IsWhitespace(s[|s| - 1]) then TrimEnd(s[..|s| - 1]) else s
  }

  /** `trimStart` keeps a suffix of its argument. */
  lemma {:induction false} TrimStartIsSuffix(s: string)
    ensures TrimStart(s) == s[|s| - |TrimStart(s)|..]
    decreases |s|
  {
    if |s| > 0 && IsWhitespace(s[0]) {
      TrimStartIsSuffix(s[1..]);
      assert s[1..][|s[1..]| - |TrimStart(s[1..])|..] == s[|s| - |TrimStart(s)|..];
    }
  }

  /** `trimEnd` keeps a prefix of its argument. */
  lemma {:induction false} TrimEndIsPrefix(s: string)
    ensures TrimEnd(s) == s[..|TrimEnd(s)|]
    decreases |s|
  {
    if |s| > 0 && IsWhitespace(s[|s| - 1]) {
      TrimEndIsPrefix(s[..|s| - 1]);
      assert s[..|s| - 1][..|TrimEnd(s)|] == s[..|TrimEnd(s)|];
    }
  }

  /** What `trimStart` drops is whitespace. */
  lemma {:induction false} TrimStartDropsWhitespace(s: string)
    ensures AllWhitespace(s[..|s| - |TrimStart(s)|])
    decreases |s|
  {
    if |s| > 0 && IsWhitespace(s[0]) {
      var r := TrimStart(s[1..]);
      TrimStartDropsWhitespace(s[1..]);
      assert s[1..][..|s[1..]| - |r|] == s[1..|s| - |r|];
    }
  }

  /** What `trimEnd` drops is whitespace. */
  lemma {:induction false} TrimEndDropsWhitespace(s: string)
    ensures AllWhitespace(s[|TrimEnd(s)|..])
    decreases |s|
  {
    if |s| > 0 && IsWhitespace(s[|s| - 1]) {
      var r := TrimEnd(s[..|s| - 1]);
      TrimEndDropsWhitespace(s[..|s| - 1]);
      assert s[|r|..] == s[..|s| - 1][|r|..] + [s[|s| - 1]];
    }
  }

  /** `trim`: whitespace dropped at both ends. */
  function Trim(s: string): (r: string)
    ensures |r| <= |s|
  {
    TrimEnd(TrimStart(s))
  }

  /** `trim` leaves no whitespace at either end. */
  lemma TrimIsTrimmed(s: string)
    ensures Trimmed(Trim(s))
  {
    var t := TrimStart(s);
    TrimEndIsPrefix(t);
    if Trim(s) != [] {
      assert Trim(s)[0] == t[0];
    }
  }

  /** What `trim` keeps is the slice `s[i..j]` between two runs of whitespace. */
  lemma TrimIsSlice(s: string)
    ensures exists i, j :: 0 <= i <= j <= |s| && Trim(s) == s[i..j] && AllWhitespace(s[..i]) && AllWhitespace(s[j..])
  {
    var t := TrimStart(s);
    var r := TrimEnd(t);
    var i := |s| - |t|;
    TrimStartIsSuffix(s);
    TrimEndIsPrefix(t);
    TrimStartDropsWhitespace(s);
    TrimEndDropsWhitespace(t);
    assert r == s[i..i + |r|];
    assert s[i + |r|..] == t[|r|..];
  }

  lemma TrimOfEmpty()
    ensures Trim([]) == []
  {
  }

  lemma TrimKeepsNonEmpty(s: string)
    requires s != [] && !IsWhitespace(s[0]) && !IsWhitespace(s[|s| - 1])
    ensures Trim(s) == s
  {
  }

  /** A string with no whitespace at either end is its own `trim`. */
  lemma TrimKeepsTrimmed(s: string)
    requires Trimmed(s)
    ensures Trim(s) == s
  {
    if s == [] {
      TrimOfEmpty();
    } else {
      TrimKeepsNonEmpty(s);
    }
  }

  lemma SliceOfLowered(s: string, i: int, j: int)
    requires 0 <= i <= j <= |s| && IsLowered(s)
    ensures IsLowered(s[i..j])
  {
    assert forall k :: 0 <= k < j - i ==> s[i..j][k] == s[i + k];
  }

  // ---------------------------------------------------------------- email

  /** `email.toLowerCase().trim()`. */
  function Normalize(email: string): (r: string)
    ensures |r| <= |email|
  {
    Trim(ToLower(email))
  }

  /** A normalised email has no upper-case letter and no whitespace at either end. */
  lemma NormalizeShape(email: string)
    ensures IsLowered(Normalize(email)) && Trimmed(Normalize(email))
  {
    var l := ToLower(email);
    ToLowerLowers(email);
    var r := Trim(l);
    TrimIsTrimmed(l);
    TrimIsSlice(l);
    var i, j :| 0 <= i <= j <= |l| && r == l[i..j] && AllWhitespace(l[..i]) && AllWhitespace(l[j..]);
    SliceOfLowered(l, i, j);
  }

  /** Normalising twice is normalising once, so every re-normalisation of a
      session email (onboarding, settings, patient lookup) lands on the same key. */
  lemma NormalizeIdempotent(email: string)
    ensures Normalize(Normalize(email)) == Normalize(email)
  {
    NormalizeShape(email);
    NormalFormIsFixed(Normalize(email));
  }

  /** A lowered string without whitespace at its ends is its own normal form. */
  lemma NormalFormIsFixed(s: string)
    requires IsLowered(s) && Trimmed(s)
    ensures Normalize(s) == s
  {
    ToLowerLowers(s);
    TrimKeepsTrimmed(s);
  }

  lemma {:induction false} TrimStartSkipsPadding(p: string, z: string)
    requires AllWhitespace(p)
    ensures TrimStart(p + z) == TrimStart(z)
    decreases |p|
  {
    if p != [] {
      assert (p + z)[0] == p[0] && IsWhitespace(p[0]);
      assert (p + z)[1..] == p[1..] + z;
      TrimStartSkipsPadding(p[1..], z);
    } else {
      assert p + z == z;
    }
  }

  lemma {:induction false} TrimEndSkipsPadding(z: string, q: string)
    requires AllWhitespace(q)
    ensures TrimEnd(z + q) == TrimEnd(z)
    decreases |q|
  {
    if q != [] {
      assert (z + q)[|z + q| - 1] == q[|q| - 1] && IsWhitespace(q[|q| - 1]);
      assert (z + q)[..|z + q| - 1] == z + q[..|q| - 1];
      TrimEndSkipsPadding(z, q[..|q| - 1]);
    } else {
      assert z + q == z;
    }
  }

  lemma {:induction false} TrimStartKeepsTail(y: string, q: string)
    requires !AllWhitespace(y)
    ensures TrimStart(y + q) == TrimStart(y) + q
    decreases |y|
  {
    if IsWhitespace(y[0]) {
      assert !AllWhitespace(y[1..]) by {
        var k :| 0 <= k < |y| && !IsWhitespace(y[k]);
        assert y[1..][k - 1] == y[k];
      }
      assert (y + q)[1..] == y[1..] + q;
      TrimStartKeepsTail(y[1..], q);
    }
  }

  lemma TrimAllWhitespace(y: string)
    requires AllWhitespace(y)
    ensures TrimStart(y) == []
  {
  }

  /** Whitespace around a string does not change what `trim` keeps. */
  lemma TrimIgnoresPadding(p: string, y: string, q: string)
    requires AllWhitespace(p) && AllWhitespace(q)
    ensures Trim(p + y + q) == Trim(y)
  {
    assert p + y + q == p + (y + q);
    TrimStartSkipsPadding(p, y + q);
    if AllWhitespace(y) {
      assert AllWhitespace(y + q);
      TrimAllWhitespace(y + q);
      TrimAllWhitespace(y);
    } else {
      TrimStartKeepsTail(y, q);
      TrimEndSkipsPadding(TrimStart(y), q);
    }
  }

  lemma ToLowerDistributes(a: string, b: string)
    ensures ToLower(a + b) == ToLower(a) + ToLower(b)
  {
  }

  lemma ToLowerKeepsWhitespace(p: string)
    requires AllWhitespace(p)
    ensures ToLower(p) == p
  {
  }

  /**
   * Two emails that differ only by the case of their letters and by
   * whitespace around them normalise to the same string, so they name the
   * same profile.
   */
  lemma NormalizeIgnoresCaseAndPadding(e: string, p: string, x: string, q: string)
    requires AllWhitespace(p) && AllWhitespace(q)
    requires ToLower(x) == ToLower(e)
    ensures Normalize(p + x + q) == Normalize(e)
  {
    ToLowerDistributes(p + x, q);
    ToLowerDistributes(p, x);
    ToLowerKeepsWhitespace(p);
    ToLowerKeepsWhitespace(q);
    TrimIgnoresPadding(p, ToLower(x), q);
  }

  // ---------------------------------------------------------------- UTF-16 length

  /** `s.length`: characters beyond the Basic Multilingual Plane take two UTF-16 units. */
  function Utf16Length(s: string): (n: nat)
    ensures n >= |s|
    ensures n <= 2 * |s|
    ensures (forall i :: 0 <= i < |s| ==> s[i] as int <= 0xFFFF) ==> n == |s|
  {
    if s == [] then 0
    else (if s[0] as int > 0xFFFF then 2 else 1) + Utf16Length(s[1..])
  }

  // ---------------------------------------------------------------- decimal

  predicate IsDigit(c: char) { '0' <= c <= '9' }

  function DigitChar(d: nat): (c: char)
    requires d < 10
    ensures IsDigit(c) && c as int - '0' as int == d
  {
    ('0' as int + d) as char
  }

  /** `n.toString()` for a non-negative integer. */
  function Decimal(n: nat): (r: string)
    ensures |r| > 0
    ensures forall i :: 0 <= i < |r| ==> IsDigit(r[i])
    ensures r[0] == '0' ==> n == 0
    ensures |r| == 1 || r[0] != '0'
  {
    if n < 10 then [DigitChar(n)] else Decimal(n / 10) + [DigitChar(n % 10)]
  }

  /** Reads a string of decimal digits back as a number. */
  function DecimalValue(s: string): (n: nat)
    requires forall i :: 0 <= i < |s| ==> IsDigit(s[i])
  {
    if s == [] then 0
    else
      assert IsDigit(s[|s| - 1]);
      DecimalValue(s[..|s| - 1]) * 10 + (s[|s| - 1] as int - '0' as int)
  }

  lemma {:induction false} DecimalRoundTrip(n: nat)
    ensures DecimalValue(Decimal(n)) == n
  {
    if n >= 10 {
      var s := Decimal(n);
      DecimalRoundTrip(n / 10);
      assert s[..|s| - 1] == Decimal(n / 10);
    }
  }
}
