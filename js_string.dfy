/**
 * The two pieces of JavaScript string behaviour the schemas depend on:
 * `String.prototype.trim`, which Mongoose's `trim: true` option applies, and
 * `String.prototype.length`, which Mongoose's `maxlength` option compares and
 * which counts UTF-16 code units rather than characters.
 */
module JsString {

  /** The characters `trim` removes: ECMAScript's WhiteSpace (including every
      Unicode space separator) and LineTerminator characters. */
  predicate IsWhitespace(c: char) {
    || c == '\t' || c == '\n' || c == '\U{000B}' || c == '\U{000C}' || c == '\r'
    || c == ' ' || c == '\U{00A0}' || c == '\U{1680}'
    || ('\U{2000}' <= c <= '\U{200A}')
    || c == '\U{2028}' || c == '\U{2029}' || c == '\U{202F}' || c == '\U{205F}'
    || c == '\U{3000}' || c == '\U{FEFF}'
  }

  predicate AllWhitespace(s: string) {
    forall i :: 0 <= i < |s| ==> IsWhitespace(s[i])
  }

  /** Neither end of `s` is whitespace: what `trim` returns. */
  predicate Trimmed(s: string) {
    s == [] || (!IsWhitespace(s[0]) && !IsWhitespace(s[|s| - 1]))
  }

  /** The first index at or after `i` that does not hold whitespace, or
      `|s|` when there is none. */
  function SkipForward(s: string, i: nat): (n: nat)
    requires i <= |s|
    ensures i <= n <= |s|
    ensures forall k :: i <= k < n ==> IsWhitespace(s[k])
    ensures n < |s| ==> !IsWhitespace(s[n])
    decreases |s| - i
  {
    if i < |s| && IsWhitespace(s[i]) then SkipForward(s, i + 1) else i
  }

  /** One past the last index before `j` that does not hold whitespace, or
      0 when there is none. */
  function SkipBackward(s: string, j: nat): (n: nat)
    requires j <= |s|
    ensures n <= j
    ensures forall k :: n <= k < j ==> IsWhitespace(s[k])
    ensures n > 0 ==> !IsWhitespace(s[n - 1])
  {
    if j > 0 && IsWhitespace(s[j - 1]) then SkipBackward(s, j - 1) else j
  }

  /** Drops leading whitespace: the longest whitespace prefix goes, the rest
      (a suffix of `s`) is kept. */
  function TrimStart(s: string): (r: string)
    ensures |r| <= |s| && forall k :: 0 <= k < |r| ==> r[k] == s[|s| - |r| + k]
    ensures forall k :: 0 <= k < |s| - |r| ==> IsWhitespace(s[k])
    ensures r != [] ==> !IsWhitespace(r[0])
  {
    s[SkipForward(s, 0)..]
  }

  /** Drops trailing whitespace: the longest whitespace suffix goes, the rest
      (a prefix of `s`) is kept. */
  function TrimEnd(s: string): (r: string)
    ensures |r| <= |s| && forall k :: 0 <= k < |r| ==> r[k] == s[k]
    ensures forall k :: |r| <= k < |s| ==> IsWhitespace(s[k])
    ensures r != [] ==> !IsWhitespace(r[|r| - 1])
  {
    s[..SkipBackward(s, |s|)]
  }

  /** `String.prototype.trim`: the result has whitespace at neither end
      (`TrimSplits` and `TrimOfPadded` say which part of `s` it is). */
  function Trim(s: string): (r: string)
    ensures Trimmed(r)
    ensures |r| <= |s|
  {
    TrimEnd(TrimStart(s))
  }

  /** `Trim(s)` is the slice of `s` that starts at some `i`, and everything
      before and after that slice is whitespace. */
  lemma TrimSplits(s: string) returns (i: nat)
    ensures i + |Trim(s)| <= |s| && s[i..i + |Trim(s)|] == Trim(s)
    ensures forall k :: 0 <= k < i ==> IsWhitespace(s[k])
    ensures forall k :: i + |Trim(s)| <= k < |s| ==> IsWhitespace(s[k])
  {
    var t := TrimStart(s);
    i := |s| - |t|;
    var r := TrimEnd(t);
    assert Trim(s) == r;
    forall k | 0 <= k < |r| ensures s[i..i + |r|][k] == r[k] {
      assert r[k] == t[k] && t[k] == s[i + k];
    }
    assert s[i..i + |r|] == r;
    forall k | i + |r| <= k < |s| ensures IsWhitespace(s[k]) {
      assert IsWhitespace(t[k - i]) && t[k - i] == s[k];
    }
  }

  /** Leading whitespace before a part that does not start with whitespace
      is exactly what `TrimStart` drops. */
  lemma TrimStartOfPadded(p: string, rest: string)
    requires AllWhitespace(p) && (rest == [] || !IsWhitespace(rest[0]))
    ensures TrimStart(p + rest) == rest
  {
    var s := p + rest;
    var t := TrimStart(s);
    if rest != [] {
      assert s[|p|] == rest[0];
    }
    if t != [] {
      assert t[0] == s[|s| - |t|];
    }
    assert forall j :: 0 <= j < |p| ==> IsWhitespace(s[j]) by {
      forall j | 0 <= j < |p| ensures IsWhitespace(s[j]) {
        assert s[j] == p[j];
      }
    }
    assert |t| == |rest|;
    forall j | 0 <= j < |t| ensures t[j] == rest[j] {
      assert t[j] == s[|p| + j];
    }
  }

  /** Trailing whitespace after a part that does not end with whitespace is
      exactly what `TrimEnd` drops. */
  lemma TrimEndOfPadded(rest: string, q: string)
    requires AllWhitespace(q) && (rest == [] || !IsWhitespace(rest[|rest| - 1]))
    ensures TrimEnd(rest + q) == rest
  {
    var s := rest + q;
    var r := TrimEnd(s);
    if rest != [] {
      assert s[|rest| - 1] == rest[|rest| - 1];
    }
    if r != [] {
      assert r[|r| - 1] == s[|r| - 1];
    }
    assert forall j :: |rest| <= j < |s| ==> IsWhitespace(s[j]) by {
      forall j | |rest| <= j < |s| ensures IsWhitespace(s[j]) {
        assert s[j] == q[j - |rest|];
      }
    }
    assert |r| == |rest|;
    forall j | 0 <= j < |r| ensures r[j] == rest[j] {
      assert r[j] == s[j];
    }
  }

  /** Whitespace around a trimmed core is exactly what `trim` removes, so
      the decomposition of `Trim` is unique. */
  lemma TrimOfPadded(p: string, m: string, q: string)
    requires AllWhitespace(p) && AllWhitespace(q) && Trimmed(m)
    ensures Trim(p + m + q) == m
  {
    if m == [] {
      assert AllWhitespace(p + q) by {
        forall i | 0 <= i < |p + q| ensures IsWhitespace((p + q)[i]) {
          if i < |p| { assert (p + q)[i] == p[i]; } else { assert (p + q)[i] == q[i - |p|]; }
        }
      }
      TrimStartOfPadded(p + q, []);
      assert p + m + q == (p + q) + [];
    } else {
      assert p + m + q == p + (m + q);
      assert (m + q)[0] == m[0];
      TrimStartOfPadded(p, m + q);
      TrimEndOfPadded(m, q);
    }
  }

  /** Trimming twice is trimming once. */
  lemma TrimIdempotent(s: string)
    ensures Trim(Trim(s)) == Trim(s)
  {
    TrimOfTrimmed(Trim(s));
  }

  /** Trimming leaves a trimmed string as it is. */
  lemma TrimOfTrimmed(s: string)
    requires Trimmed(s)
    ensures Trim(s) == s
  {
    TrimStartOfPadded([], s);
    assert [] + s == s;
    TrimEndOfPadded(s, []);
    assert s + [] == s;
  }

  /** `trim` yields the empty string exactly when the input is all whitespace. */
  lemma TrimEmptyIff(s: string)
    ensures Trim(s) == [] <==> AllWhitespace(s)
  {
    if AllWhitespace(s) {
      TrimOfPadded(s, [], []);
      assert s + [] + [] == s;
    }
  }

  /** Number of UTF-16 code units of `s`: a character above U+FFFF takes a
      surrogate pair. */
  function Utf16Length(s: string): (n: nat)
    ensures |s| <= n <= 2 * |s|
  {
    CodeUnitsFrom(s, 0)
  }

  /** Number of UTF-16 code units of `s[i..]`. */
  function CodeUnitsFrom(s: string, i: nat): (n: nat)
    requires i <= |s|
    ensures |s| - i <= n <= 2 * (|s| - i)
    decreases |s| - i
  {
    if i == |s| then 0 else (if s[i] as int > 0xFFFF then 2 else 1) + CodeUnitsFrom(s, i + 1)
  }

  /** A string of characters from the Basic Multilingual Plane has as many
      code units as characters. */
  lemma Utf16LengthOfBmp(s: string)
    requires forall i :: 0 <= i < |s| ==> s[i] as int <= 0xFFFF
    ensures Utf16Length(s) == |s|
  {
    BmpCodeUnitsFrom(s, 0);
  }

  lemma {:induction false} BmpCodeUnitsFrom(s: string, i: nat)
    requires i <= |s|
    requires forall k :: i <= k < |s| ==> s[k] as int <= 0xFFFF
    ensures CodeUnitsFrom(s, i) == |s| - i
    decreases |s| - i
  {
    if i < |s| {
      BmpCodeUnitsFrom(s, i + 1);
    }
  }
}
